/** app/agent/loop.py: the tool-use loop, its budgets and the transcript it leaves.

    The model, the READ tools, the letter review and the rest of the database are parameters:
    whatever they answer, what is said here holds. */
module AgentLoop {
  import opened Prelude
  import opened CanonicalJson
  import opened Registry
  import opened DraftTool
  import opened Transcript
  import opened Dialogue
  import Store

  // ---- the store of one run ------------------------------------------------------------------------

  class RunStore {
    var status: Store.RunStatus
    var error: Option<string>
    var entries: seq<Entry>
    var drafts: seq<Draft>
    var ends: seq<Store.RunStatus>     // the ends of the run that were audited
    const operatorsCap: nat            // `params["max_proposals"]`; nothing reads it

    constructor (cap: nat)
      ensures operatorsCap == cap
      ensures status == Store.Queued && error == None && entries == [] && drafts == [] && ends == []
    {
      status, error, entries, drafts, ends := Store.Queued, None, [], [], [];
      operatorsCap := cap;
    }

    /** `set_status`. */
    method SetStatus(newStatus: Store.RunStatus, newError: Option<string>)
      modifies this`status, this`error, this`ends
      ensures status == newStatus
      ensures error == if newError.Some? then newError else old(error)
      ensures ends == if newStatus == Store.Completed || newStatus == Store.RunFailed || newStatus == Store.AwaitingApproval
                      then old(ends) + [newStatus] else old(ends)
    {
      status := newStatus;
      if newError.Some? {
        error := newError;
      }
      if newStatus == Store.Completed || newStatus == Store.RunFailed || newStatus == Store.AwaitingApproval {
        ends := ends + [newStatus];
      }
    }

    /** `append_step`: the next number is one more than the largest there is. */
    method AppendStep(record: Record) returns (seqNo: nat)
      modifies this`entries
      ensures entries == Append(old(entries), record)
      ensures seqNo == entries[|entries| - 1].seqNo
    {
      var last, i := 0, 0;
      while i < |entries|
        invariant i <= |entries| && last == MaxSeq(entries[..i])
      {
        assert entries[..i + 1][..i] == entries[..i];
        if entries[i].seqNo > last {
          last := entries[i].seqNo;
        }
        i := i + 1;
      }
      assert entries[..i] == entries;
      entries := entries + [Entry(last + 1, record)];
      return last + 1;
    }

    /** `propose_collection_letter`: the guards in order, then the row, unless the index on
        pending invoices refuses it. */
    method ProposeCollectionLetter(facts: Facts, maxProposals: int, review: Review, others: set<string>, decided: set<nat>,
                                   newId: string, a: DraftArgs)
      returns (r: Result<Json, DraftError>)
      modifies this`drafts
      ensures r.Success? ==>
                && a.invoiceId in facts && drafts == old(drafts) + [DraftOf(a, facts[a.invoiceId])]
                && Judged(facts, |old(drafts)|, maxProposals, review, Taken(old(drafts), others, decided, a.invoiceId), a,
                          Success(DraftOf(a, facts[a.invoiceId])))
                && r.value == LetterStored(newId, a, facts[a.invoiceId])
      ensures r.Failure? ==>
                && drafts == old(drafts)
                && Judged(facts, |old(drafts)|, maxProposals, review, Taken(old(drafts), others, decided, a.invoiceId), a,
                          Failure(r.error))
    {
      if a.invoiceId !in facts {
        return Failure(InvoiceNotRead);
      }
      var f := facts[a.invoiceId];
      if !Truthy(GetOrNull(f, "deliverable")) {
        return Failure(NotDeliverable);
      }
      if a.tone !in TONES {
        return Failure(UnknownTone);
      }
      if Strip(a.rationale) == "" {
        return Failure(RationaleRequired);
      }
      if |drafts| >= maxProposals {
        return Failure(ProposalCapReached);
      }
      var report := review(a.subject, a.body, f);
      if report.Some? {
        return Failure(LetterRejected(report.value));
      }
      var fault := ColumnFault(f);
      if fault.Some? {
        return Failure(ColumnRaises(fault.value));
      }
      if Taken(drafts, others, decided, a.invoiceId) {
        return Failure(DuplicatePendingProposal);
      }
      drafts := drafts + [Draft(Payload(a, f), a.rationale, a.invoiceId, PyStr(GetOrNull(f, "customer_email")))];
      return Success(Obj([Member("proposal_id", Str(newId)), Member("status", Str("pending")), Member("tone", Str(a.tone)),
                          Member("invoice_id", Str(a.invoiceId)), Member("amount_display", GetOrNull(f, "amount_display"))]));
    }
  }

  /** What a failed tool tells the model: its code (the wording is left out). */
  function ErrorJson(code: string): Json {
    Obj([Member("error", Str(code))])
  }

  function DraftErrorJson(e: DraftError): Json {
    match e
    case InvoiceNotRead => ErrorJson("invoice_not_read")
    case NotDeliverable => ErrorJson("not_deliverable")
    case UnknownTone => ErrorJson("unknown_tone")
    case RationaleRequired => ErrorJson("rationale_required")
    case ProposalCapReached => ErrorJson("proposal_cap_reached")
    case LetterRejected(report) => report
    case ColumnRaises(_) => ErrorJson("bad_arguments")
    case DuplicatePendingProposal => ErrorJson("duplicate_pending_proposal")
  }

  // ---- one tool call ----------------------------------------------------------------------------------

  /** When a call makes a second letter for an invoice, the first has been decided. */
  predicate OneAtATime(drafts: seq<Draft>, made: seq<nat>, env: Surroundings)
    requires |made| == |drafts|
  {
    forall i, j | 0 <= i < j < |drafts| && drafts[i].invoiceId == drafts[j].invoiceId :: i in env.decided(made[j])
  }

  lemma OneMoreDraft(drafts: seq<Draft>, made: seq<nat>, env: Surroundings, n: nat, d: Draft)
    requires |made| == |drafts| && OneAtATime(drafts, made, env)
    requires !Taken(drafts, env.others(n), env.decided(n), d.invoiceId)
    ensures OneAtATime(drafts + [d], made + [n], env)
  {
  }

  /** The registry and the proposals are what the transcript says, every answer in it is what its
      tool answered, the cap holds, and so does the rule of one pending letter per invoice. */
  ghost predicate Tallies(entries: seq<Entry>, facts: Facts, drafts: seq<Draft>, limits: Limits, env: Surroundings) {
    && facts == FactsSeen(entries) && drafts == Drafted(entries)
    && |drafts| <= AtLeastZero(limits.maxProposals)
    && OneAtATime(drafts, DraftCalls(entries), env)
    && AnswersTrue(env, limits.maxProposals, entries)
  }

  ghost predicate InStep(store: RunStore, registry: ToolRegistry, limits: Limits, env: Surroundings)
    reads store, registry
  {
    Grammar(store.entries) && Tallies(store.entries, registry.factsByInvoice, store.drafts, limits, env)
  }

  /** One letter more, below the cap and for an invoice without a pending one. */
  predicate OneMore(before: seq<Draft>, drafts: seq<Draft>, limits: Limits, env: Surroundings, n: nat) {
    && |drafts| == |before| + 1 && drafts[..|before|] == before && |before| < limits.maxProposals
    && !Taken(before, env.others(n), env.decided(n), drafts[|before|].invoiceId)
  }

  /** The draft tool's handler, as the registry runs it. */
  method RunDraftTool(store: RunStore, facts: Facts, limits: Limits, env: Surroundings, n: nat, a: DraftArgs)
    returns (outcome: ToolOutcome)
    modifies store`drafts
    ensures IsDraftOutcome(env, limits.maxProposals, facts, old(store.drafts), n, a, outcome)
    ensures outcome.Returned? ==>
              && a.invoiceId in facts && store.drafts == old(store.drafts) + [DraftOf(a, facts[a.invoiceId])]
              && OneMore(old(store.drafts), store.drafts, limits, env, n)
    ensures !outcome.Returned? ==> store.drafts == old(store.drafts)
  {
    ghost var drafts := store.drafts;
    var r := store.ProposeCollectionLetter(facts, limits.maxProposals, env.review, env.others(n), env.decided(n), env.newId(n), a);
    if r.Success? {
      outcome := Returned(r.value);
      KeptRules(facts, |drafts|, limits.maxProposals, env.review, Taken(drafts, env.others(n), env.decided(n), a.invoiceId), a);
      assert IsDraftResult(env, limits.maxProposals, facts, drafts, n, a, outcome, Success(DraftOf(a, facts[a.invoiceId])));
    } else {
      outcome := if r.error == ColumnRaises(ValueError) then Crashed("ValueError") else ToolFailed(DraftErrorJson(r.error));
      assert IsDraftResult(env, limits.maxProposals, facts, drafts, n, a, outcome, Failure(r.error));
    }
  }

  /** `ToolRegistry.execute`. */
  method Execute(store: RunStore, registry: ToolRegistry, limits: Limits, env: Surroundings, n: nat, call: Call)
    returns (outcome: ToolOutcome)
    modifies store`drafts, registry
    ensures registry.factsByInvoice == FactsAfter(old(registry.factsByInvoice), call, outcome)
    ensures store.drafts == old(store.drafts) + DraftsAdded(old(registry.factsByInvoice), call, outcome)
    ensures outcome.Returned? && call.name == DRAFT_TOOL ==> OneMore(old(store.drafts), store.drafts, limits, env, n)
    ensures !(outcome.Returned? && call.name == DRAFT_TOOL) ==> store.drafts == old(store.drafts)
    ensures IsOutcome(env, limits.maxProposals, old(registry.factsByInvoice), old(store.drafts), n, call, outcome)
  {
    assert store.drafts + [] == store.drafts;
    if call.name == DRAFT_TOOL {
      var args := ArgsOf(call.arguments);
      if args.None? {
        return ToolFailed(ErrorJson("bad_arguments"));
      }
      outcome := RunDraftTool(store, registry.factsByInvoice, limits, env, n, args.value);
      return;
    }
    if call.name !in READ_TOOLS {
      return ToolFailed(ErrorJson("unknown_tool"));
    }
    outcome := env.read(n, call.name, call.arguments);
    if outcome.Returned? {
      registry.HarvestFrom(outcome.result);
    }
  }

  lemma KeptRules(facts: Facts, count: nat, maxProposals: int, review: Review, taken: bool, a: DraftArgs)
    requires AllKept(facts, count, maxProposals, review, taken, a)
    ensures count < maxProposals && !taken
  {
    assert !Breaks(4, facts, count, maxProposals, review, taken, a);
    assert !Breaks(7, facts, count, maxProposals, review, taken, a);
  }

  /** A step that is not an answer: the readings of the transcript do not move, but for the
      count of calls. */
  method Note(store: RunStore, registry: ToolRegistry, limits: Limits, env: Surroundings, record: Record, steps: seq<nat>)
    returns (newSteps: seq<nat>)
    requires InStep(store, registry, limits, env) && Settled(store.entries) && steps == Upto(|store.entries|)
    requires !record.Answered?
    modifies store`entries
    ensures InStep(store, registry, limits, env) && newSteps == Upto(|store.entries|)
    ensures store.entries == old(store.entries) + [Entry(|old(store.entries)| + 1, record)]
    ensures CallCount(store.entries) == CallCount(old(store.entries)) + if record.Called? then 1 else 0
    ensures AnswersOf(store.entries) == AnswersOf(old(store.entries))
  {
    AppendKeepsGrammar(store.entries, record);
    ReadingsOfAppend(store.entries, Entry(|store.entries| + 1, record));
    OneMoreTrue(env, limits.maxProposals, store.entries, Entry(|store.entries| + 1, record));
    assert AnswersOf(store.entries) + [] == AnswersOf(store.entries);
    var k := store.AppendStep(record);
    newSteps := steps + [k];
  }

  /** The step that answers the call just noted, when the tool has done its work. */
  method NoteAnswer(store: RunStore, registry: ToolRegistry, limits: Limits, env: Surroundings, record: Record, steps: seq<nat>)
    returns (newSteps: seq<nat>)
    requires Grammar(store.entries) && steps == Upto(|store.entries|)
    requires store.entries != [] && Answers(record, store.entries[|store.entries| - 1].record)
    requires Tallies(store.entries + [Entry(|store.entries| + 1, record)], registry.factsByInvoice, store.drafts, limits, env)
    modifies store`entries
    ensures InStep(store, registry, limits, env) && Settled(store.entries) && newSteps == Upto(|store.entries|)
    ensures store.entries == old(store.entries) + [Entry(|old(store.entries)| + 1, record)]
  {
    AppendKeepsGrammar(store.entries, record);
    var k := store.AppendStep(record);
    newSteps := steps + [k];
  }

  /** An answer keeps the tallies, its tool having moved the registry and the proposals. */
  lemma AnswerTallies(during: seq<Entry>, call: Call, outcome: ToolOutcome, facts: Facts, drafts: seq<Draft>, limits: Limits,
                      env: Surroundings)
    requires during != [] && during[|during| - 1].record == CallRecord(call) && !outcome.Crashed?
    requires Tallies(during, facts, drafts, limits, env)
    requires DraftsAdded(facts, call, outcome) == []
             || OneMore(drafts, drafts + DraftsAdded(facts, call, outcome), limits, env, CallCount(during))
    requires IsOutcome(env, limits.maxProposals, facts, drafts, CallCount(during), call, outcome)
    ensures Tallies(during + [Entry(|during| + 1, AnswerTo(call, outcome))], FactsAfter(facts, call, outcome),
                    drafts + DraftsAdded(facts, call, outcome), limits, env)
  {
    AnswerMoves(during, call, outcome, facts, drafts);
    RulesStillKept(drafts, DraftCalls(during), DraftsAdded(facts, call, outcome), limits, env, CallCount(during));
    TrueAnswer(env, limits.maxProposals, during, call, outcome);
  }

  /** The cap and the rule of one pending letter outlive a call. */
  lemma RulesStillKept(before: seq<Draft>, made: seq<nat>, added: seq<Draft>, limits: Limits, env: Surroundings, n: nat)
    requires |made| == |before| && OneAtATime(before, made, env) && |before| <= AtLeastZero(limits.maxProposals)
    requires added == [] || OneMore(before, before + added, limits, env, n)
    ensures var drafts, calls := before + added, made + Marks(added, n);
            && |calls| == |drafts| && OneAtATime(drafts, calls, env) && |drafts| <= AtLeastZero(limits.maxProposals)
  {
    if added == [] {
      assert before + added == before && made + Marks(added, n) == made;
    } else {
      assert added == [added[0]];
      assert (before + added)[|before|] == added[0];
      OneMoreDraft(before, made, env, n, added[0]);
    }
  }

  /** The call is on record, and its tool has done its work, starting from these facts and rows. */
  ghost predicate ToolRan(store: RunStore, registry: ToolRegistry, limits: Limits, env: Surroundings, n: nat, call: Call,
                          outcome: ToolOutcome, facts: Facts, drafts: seq<Draft>)
    reads store, registry
  {
    && Grammar(store.entries) && store.entries != [] && store.entries[|store.entries| - 1].record == CallRecord(call)
    && Tallies(store.entries, facts, drafts, limits, env) && CallCount(store.entries) == n
    && registry.factsByInvoice == FactsAfter(facts, call, outcome)
    && store.drafts == drafts + DraftsAdded(facts, call, outcome)
    && (DraftsAdded(facts, call, outcome) == [] || OneMore(drafts, store.drafts, limits, env, n))
    && IsOutcome(env, limits.maxProposals, facts, drafts, n, call, outcome)
  }

  method CallTool(store: RunStore, registry: ToolRegistry, limits: Limits, env: Surroundings, n: nat, call: Call, steps: seq<nat>)
    returns (outcome: ToolOutcome, newSteps: seq<nat>)
    requires InStep(store, registry, limits, env) && Settled(store.entries) && steps == Upto(|store.entries|)
    requires n == CallCount(store.entries) + 1
    modifies store`drafts, store`entries, registry
    ensures ToolRan(store, registry, limits, env, n, call, outcome, old(registry.factsByInvoice), old(store.drafts))
    ensures newSteps == Upto(|store.entries|) && AnswersOf(store.entries) == AnswersOf(old(store.entries))
    ensures RecordsOf(store.entries) == AfterCall(RecordsOf(old(store.entries)), call, None)
  {
    RecordsOfAppend(store.entries, Entry(|store.entries| + 1, CallRecord(call)));
    newSteps := Note(store, registry, limits, env, CallRecord(call), steps);
    outcome := Execute(store, registry, limits, env, n, call);
  }

  /** `_execute_one`: the call is on record before it runs, its answer before it is returned, and
      the answer is what its own tool answered. Nothing is returned when the tool itself breaks. */
  method ExecuteOne(store: RunStore, registry: ToolRegistry, limits: Limits, env: Surroundings, n: nat, call: Call, steps: seq<nat>)
    returns (answer: Option<Record>, error: string, newSteps: seq<nat>)
    requires InStep(store, registry, limits, env) && Settled(store.entries) && steps == Upto(|store.entries|)
    requires n == CallCount(store.entries) + 1
    modifies store`drafts, store`entries, registry
    ensures InStep(store, registry, limits, env) && newSteps == Upto(|store.entries|)
    ensures CallCount(store.entries) == n
    ensures RecordsOf(store.entries) == AfterCall(RecordsOf(old(store.entries)), call, answer)
    ensures answer.Some? ==>
              && Settled(store.entries)
              && AnswersOf(store.entries) == AnswersOf(old(store.entries)) + [answer.value]
              && IsAnswer(env, limits.maxProposals, old(registry.factsByInvoice), old(store.drafts), n, CallRecord(call), answer.value)
    ensures answer.None? ==>
              && AnswersOf(store.entries) == AnswersOf(old(store.entries)) && !Settled(store.entries)
              && Broke(env, limits.maxProposals, store.entries, error)
  {
    ghost var facts, drafts := registry.factsByInvoice, store.drafts;
    var outcome, noted := CallTool(store, registry, limits, env, n, call, steps);
    if outcome.Crashed? {
      BrokenTallies(store, registry, limits, env, n, call, outcome, facts, drafts);
      return None, outcome.error, noted;
    }
    var record, more := AnswerCall(store, registry, limits, env, n, call, outcome, facts, drafts, noted);
    return Some(record), "", more;
  }

  lemma BrokenTallies(store: RunStore, registry: ToolRegistry, limits: Limits, env: Surroundings, n: nat, call: Call,
                      outcome: ToolOutcome, facts: Facts, drafts: seq<Draft>)
    requires ToolRan(store, registry, limits, env, n, call, outcome, facts, drafts) && outcome.Crashed?
    ensures InStep(store, registry, limits, env) && Broke(env, limits.maxProposals, store.entries, outcome.error)
  {
    assert drafts + [] == drafts;
  }

  /** The answer of a tool that did not break goes on record. */
  method AnswerCall(store: RunStore, registry: ToolRegistry, limits: Limits, env: Surroundings, n: nat, call: Call,
                    outcome: ToolOutcome, ghost facts: Facts, ghost drafts: seq<Draft>, steps: seq<nat>)
    returns (record: Record, newSteps: seq<nat>)
    requires ToolRan(store, registry, limits, env, n, call, outcome, facts, drafts)
    requires steps == Upto(|store.entries|) && !outcome.Crashed?
    modifies store`entries
    ensures InStep(store, registry, limits, env) && Settled(store.entries) && newSteps == Upto(|store.entries|)
    ensures CallCount(store.entries) == CallCount(old(store.entries))
    ensures AnswersOf(store.entries) == AnswersOf(old(store.entries)) + [record]
    ensures RecordsOf(store.entries) == RecordsOf(old(store.entries)) + [record]
    ensures IsAnswer(env, limits.maxProposals, facts, drafts, n, CallRecord(call), record)
  {
    record := AnswerTo(call, outcome);
    AnswerTallies(store.entries, call, outcome, facts, drafts, limits, env);
    RecordedAnswer(env, limits.maxProposals, facts, drafts, n, call, outcome);
    AnswerReads(store.entries, record);
    newSteps := NoteAnswer(store, registry, limits, env, record, steps);
  }

  lemma AnswerReads(during: seq<Entry>, record: Record)
    requires record.Answered?
    ensures var entries := during + [Entry(|during| + 1, record)];
            && CallCount(entries) == CallCount(during) && AnswersOf(entries) == AnswersOf(during) + [record]
            && RecordsOf(entries) == RecordsOf(during) + [record]
  {
    ReadingsOfAppend(during, Entry(|during| + 1, record));
    RecordsOfAppend(during, Entry(|during| + 1, record));
  }

  // ---- one turn ------------------------------------------------------------------------------------------

  /** The first `n` pieces of prose are on record, and nothing else has moved. */
  ghost predicate ProseDone(store: RunStore, registry: ToolRegistry, limits: Limits, env: Surroundings, texts: seq<string>,
                            n: nat, thought: bool, steps: seq<nat>, before: seq<Record>, calls: nat, answers: seq<Record>)
    requires n <= |texts|
    reads store, registry
  {
    && InStep(store, registry, limits, env) && Settled(store.entries) && steps == Upto(|store.entries|)
    && CallCount(store.entries) == calls && AnswersOf(store.entries) == answers
    && RecordsOf(store.entries) == AfterProse(before, texts, n, thought)
  }

  /** One piece of prose. */
  method NoteOne(store: RunStore, registry: ToolRegistry, limits: Limits, env: Surroundings, texts: seq<string>, n: nat,
                 thought: bool, steps: seq<nat>, ghost before: seq<Record>, ghost calls: nat, ghost answers: seq<Record>)
    returns (newSteps: seq<nat>)
    requires n < |texts| && ProseDone(store, registry, limits, env, texts, n, thought, steps, before, calls, answers)
    modifies store`entries
    ensures ProseDone(store, registry, limits, env, texts, n + 1, thought, newSteps, before, calls, answers)
  {
    RecordsOfAppend(store.entries, Entry(|store.entries| + 1, ProseRecord(texts[n], thought)));
    newSteps := Note(store, registry, limits, env, ProseRecord(texts[n], thought), steps);
  }

  /** Prose of one kind, step by step. */
  method NoteProse(store: RunStore, registry: ToolRegistry, limits: Limits, env: Surroundings, texts: seq<string>,
                   thought: bool, steps: seq<nat>)
    returns (newSteps: seq<nat>)
    requires InStep(store, registry, limits, env) && Settled(store.entries) && steps == Upto(|store.entries|)
    modifies store`entries
    ensures InStep(store, registry, limits, env) && Settled(store.entries) && newSteps == Upto(|store.entries|)
    ensures CallCount(store.entries) == CallCount(old(store.entries))
    ensures AnswersOf(store.entries) == AnswersOf(old(store.entries))
    ensures RecordsOf(store.entries) == AfterProse(RecordsOf(old(store.entries)), texts, |texts|, thought)
  {
    newSteps := steps;
    ghost var before, calls, answers := RecordsOf(store.entries), CallCount(store.entries), AnswersOf(store.entries);
    var i := 0;
    while i < |texts|
      invariant i <= |texts|
      invariant ProseDone(store, registry, limits, env, texts, i, thought, newSteps, before, calls, answers)
    {
      newSteps := NoteOne(store, registry, limits, env, texts, i, thought, newSteps, before, calls, answers);
      i := i + 1;
    }
  }

  /** These calls of a turn have been run and answered. */
  ghost predicate CallsDone(store: RunStore, registry: ToolRegistry, limits: Limits, env: Surroundings, calls: seq<Call>,
                            answers: seq<Record>, toolCalls: nat, steps: seq<nat>, first: seq<Record>, records: seq<Record>)
    reads store, registry
  {
    && |answers| <= |calls| && AnswersCalls(answers, calls[..|answers|])
    && InStep(store, registry, limits, env) && Settled(store.entries) && steps == Upto(|store.entries|)
    && CallCount(store.entries) == toolCalls
    && AnswersOf(store.entries) == first + answers
    && RecordsOf(store.entries) == AfterCalls(records, calls, answers)
  }

  method NextCall(store: RunStore, registry: ToolRegistry, limits: Limits, env: Surroundings, calls: seq<Call>,
                  answers: seq<Record>, toolCalls: nat, steps: seq<nat>, ghost first: seq<Record>, ghost records: seq<Record>)
    returns (answer: Option<Record>, error: string, newSteps: seq<nat>)
    requires |answers| < |calls|
    requires CallsDone(store, registry, limits, env, calls, answers, toolCalls, steps, first, records)
    modifies store`drafts, store`entries, registry
    ensures answer.Some? ==>
              CallsDone(store, registry, limits, env, calls, answers + [answer.value], toolCalls + 1, newSteps, first, records)
    ensures answer.None? ==>
              && InStep(store, registry, limits, env) && !Settled(store.entries) && newSteps == Upto(|store.entries|)
              && CallCount(store.entries) == toolCalls + 1 && AnswersOf(store.entries) == first + answers
              && RecordsOf(store.entries) == CallsOnRecord(records, calls, answers, true)
              && Broke(env, limits.maxProposals, store.entries, error)
  {
    answer, error, newSteps := ExecuteOne(store, registry, limits, env, toolCalls + 1, calls[|answers|], steps);
    if answer.Some? {
      OneMoreCall(records, calls, answers, answer.value);
      OneMoreAnswer(first, answers, answer.value, calls);
    }
  }

  /** The calls of one turn, until they are done or something stops the run. */
  method RunCalls(store: RunStore, registry: ToolRegistry, limits: Limits, env: Surroundings, calls: seq<Call>,
                  used: nat, steps: seq<nat>)
    returns (answers: seq<Record>, toolCalls: nat, newSteps: seq<nat>, stop: Option<Stop>)
    requires InStep(store, registry, limits, env) && Settled(store.entries) && steps == Upto(|store.entries|)
    requires CallCount(store.entries) == used <= AtLeastZero(limits.maxToolCalls)
    modifies store`drafts, store`entries, registry
    ensures InStep(store, registry, limits, env) && newSteps == Upto(|store.entries|)
    ensures CallCount(store.entries) == toolCalls && used <= toolCalls <= AtLeastZero(limits.maxToolCalls)
    ensures AnswersOf(store.entries) == AnswersOf(old(store.entries)) + answers
    ensures |answers| <= |calls| && (IsBroken(stop) ==> |answers| < |calls|)
    ensures RecordsOf(store.entries) == CallsOnRecord(RecordsOf(old(store.entries)), calls, answers, IsBroken(stop))
    ensures CallsStopped(env, limits, store.entries, calls, answers, stop) && (stop.None? ==> Settled(store.entries))
  {
    answers, toolCalls, newSteps, stop := [], used, steps, None;
    ghost var first, records := AnswersOf(store.entries), RecordsOf(store.entries);
    assert first + [] == first;
    while |answers| < |calls|
      invariant CallsDone(store, registry, limits, env, calls, answers, toolCalls, newSteps, first, records)
      invariant toolCalls == used + |answers| <= AtLeastZero(limits.maxToolCalls)
    {
      if toolCalls >= limits.maxToolCalls {
        stop := Some(BudgetExceeded("the run reached its limit of " + NumberText(limits.maxToolCalls) + " tool calls"));
        return;
      }
      var answer, error, more := NextCall(store, registry, limits, env, calls, answers, toolCalls, newSteps, first, records);
      toolCalls, newSteps := toolCalls + 1, more;
      if answer.None? {
        stop := Some(Unexpected(error));
        return;
      }
      answers := answers + [answer.value];
    }
    assert calls[..|answers|] == calls;
  }

  /** The prose of a turn. */
  method NoteReply(store: RunStore, registry: ToolRegistry, limits: Limits, env: Surroundings, reply: Reply, steps: seq<nat>)
    returns (newSteps: seq<nat>)
    requires InStep(store, registry, limits, env) && Settled(store.entries) && steps == Upto(|store.entries|)
    modifies store`entries
    ensures InStep(store, registry, limits, env) && Settled(store.entries) && newSteps == Upto(|store.entries|)
    ensures CallCount(store.entries) == CallCount(old(store.entries))
    ensures AnswersOf(store.entries) == AnswersOf(old(store.entries))
    ensures RecordsOf(store.entries) == AfterReply(RecordsOf(old(store.entries)), reply)
  {
    newSteps := NoteProse(store, registry, limits, env, reply.thinking, true, steps);
    newSteps := NoteProse(store, registry, limits, env, reply.text, false, newSteps);
  }

  /** The calls of a turn, and the message that answers them. */
  method AnswerCalls(store: RunStore, registry: ToolRegistry, limits: Limits, env: Surroundings, goal: string, reply: Reply,
                     messages: seq<Message>, used: nat, steps: seq<nat>)
    returns (newMessages: seq<Message>, toolCalls: nat, newSteps: seq<nat>, stop: Option<Stop>, answers: seq<Record>)
    requires InStep(store, registry, limits, env) && Settled(store.entries) && steps == Upto(|store.entries|)
    requires CallCount(store.entries) == used <= AtLeastZero(limits.maxToolCalls) && reply.calls != []
    requires Conversation(messages, goal) && Told(messages) == AnswersOf(store.entries)
    modifies store`drafts, store`entries, registry
    ensures InStep(store, registry, limits, env) && newSteps == Upto(|store.entries|)
    ensures CallCount(store.entries) == toolCalls <= AtLeastZero(limits.maxToolCalls)
    ensures |answers| <= |reply.calls| && (IsBroken(stop) ==> |answers| < |reply.calls|)
    ensures RecordsOf(store.entries) == CallsOnRecord(RecordsOf(old(store.entries)), reply.calls, answers, IsBroken(stop))
    ensures CallsStopped(env, limits, store.entries, reply.calls, answers, stop)
    ensures stop.None? ==>
              && Settled(store.entries) && newMessages == messages + [Assistant(reply)] + [Results(answers)]
              && Conversation(newMessages, goal) && Told(newMessages) == AnswersOf(store.entries)
  {
    newMessages := messages;
    answers, toolCalls, newSteps, stop := RunCalls(store, registry, limits, env, reply.calls, used, steps);
    if stop.None? {
      ConversationGrows(messages, goal, reply, answers);
      newMessages := messages + [Assistant(reply)] + [Results(answers)];
    }
  }

  /** One assistant turn: its prose is on record before any of its calls is run; its answers go
      back in one message. */
  method TakeTurn(store: RunStore, registry: ToolRegistry, limits: Limits, env: Surroundings, goal: string, reply: Reply,
                  messages: seq<Message>, used: nat, steps: seq<nat>)
    returns (newMessages: seq<Message>, toolCalls: nat, newSteps: seq<nat>, stop: Option<Stop>, ghost answers: seq<Record>)
    requires InStep(store, registry, limits, env) && Settled(store.entries) && steps == Upto(|store.entries|)
    requires CallCount(store.entries) == used <= AtLeastZero(limits.maxToolCalls)
    requires Conversation(messages, goal) && Told(messages) == AnswersOf(store.entries)
    modifies store`drafts, store`entries, registry
    ensures InStep(store, registry, limits, env) && newSteps == Upto(|store.entries|)
    ensures CallCount(store.entries) == toolCalls <= AtLeastZero(limits.maxToolCalls)
    ensures |answers| <= |reply.calls| && (IsBroken(stop) ==> |answers| < |reply.calls|)
    ensures RecordsOf(store.entries) == AfterTurn(RecordsOf(old(store.entries)), reply, answers, IsBroken(stop))
    ensures CallsStopped(env, limits, store.entries, reply.calls, answers, stop)
    ensures stop.None? ==>
              && Settled(store.entries)
              && newMessages == (if reply.calls == [] then messages else messages + [Assistant(reply)] + [Results(answers)])
              && Conversation(newMessages, goal) && Told(newMessages) == AnswersOf(store.entries)
    ensures reply.calls == [] ==> stop.None?
  {
    newSteps := NoteReply(store, registry, limits, env, reply, steps);
    newMessages, toolCalls, stop, answers := messages, used, None, [];
    if reply.calls != [] {
      newMessages, toolCalls, newSteps, stop, answers :=
        AnswerCalls(store, registry, limits, env, goal, reply, messages, used, newSteps);
    }
  }

  // ---- the run ----------------------------------------------------------------------------------------------

  /** What holds from the start of the run until its end is on record. */
  ghost predicate Going(store: RunStore, registry: ToolRegistry, limits: Limits, env: Surroundings, goal: string,
                        requests: seq<seq<Message>>, toolCalls: nat, steps: seq<nat>)
    reads store, registry
  {
    && InStep(store, registry, limits, env) && steps == Upto(|store.entries|)
    && Spent(store, limits, toolCalls, |requests|) && Asked(requests, goal)
    && store.status == Store.Running && store.ends == [] && store.error == None
  }

  /** Between two turns. */
  ghost predicate BetweenTurns(store: RunStore, registry: ToolRegistry, limits: Limits, env: Surroundings, goal: string,
                               messages: seq<Message>, requests: seq<seq<Message>>, answers: seq<seq<Record>>, toolCalls: nat,
                               parts: seq<string>, steps: seq<nat>)
    reads store, registry
  {
    && Going(store, registry, limits, env, goal, requests, toolCalls, steps) && Settled(store.entries)
    && Conversation(messages, goal) && Told(messages) == AnswersOf(store.entries)
    && Story(env, goal, requests, answers, RecordsOf(store.entries), parts, false)
    && LeadsTo(env, goal, requests, answers, messages)
  }

  /** The last turn is over, for this reason, and nothing has been done about it yet. */
  ghost predicate Over(store: RunStore, registry: ToolRegistry, limits: Limits, env: Surroundings, goal: string,
                       requests: seq<seq<Message>>, answers: seq<seq<Record>>, toolCalls: nat, parts: seq<string>,
                       steps: seq<nat>, stop: Option<Stop>)
    reads store, registry
  {
    && Going(store, registry, limits, env, goal, requests, toolCalls, steps)
    && (stop.None? || stop.value.BudgetExceeded? ==> Settled(store.entries))
    && Story(env, goal, requests, answers, RecordsOf(store.entries), parts, IsBroken(stop))
    && EndedBy(env, limits, requests, answers, store.entries, stop)
  }

  predicate Spent(store: RunStore, limits: Limits, toolCalls: nat, turns: nat)
    reads store
  {
    && CallCount(store.entries) == toolCalls <= AtLeastZero(limits.maxToolCalls)
    && turns <= AtLeastZero(limits.maxTurns)
  }

  /** Every request to the model was a well-formed conversation. */
  predicate Asked(requests: seq<seq<Message>>, goal: string) {
    forall i | 0 <= i < |requests| :: Conversation(requests[i], goal)
  }

  lemma AsksAgain(requests: seq<seq<Message>>, messages: seq<Message>, goal: string)
    requires Asked(requests, goal) && Conversation(messages, goal)
    ensures Asked(requests + [messages], goal)
  {
  }

  /** What a run leaves behind, however it ends. */
  ghost predicate RunLeaves(store: RunStore, registry: ToolRegistry, limits: Limits, env: Surroundings, outcome: RunOutcome)
    reads store, registry
  {
    && InStep(store, registry, limits, env)
    && Spent(store, limits, outcome.toolCalls, outcome.turns)
    && outcome.steps == Upto(|store.entries|)
    && outcome.proposals == |store.drafts|
    && (limits.maxProposals <= store.operatorsCap ==> |store.drafts| <= store.operatorsCap)
    && outcome.status == store.status && store.ends == [outcome.status] && outcome.error == store.error
    && (outcome.error.Some? ==> outcome.status == Store.RunFailed)
    && (outcome.error.None? ==>
          outcome.status == (if store.drafts == [] then Store.Completed else Store.AwaitingApproval))
    && (!Settled(store.entries) ==> outcome.error.Some?)
  }

  /** The record of a whole run, with the note a spent budget leaves. */
  function WholeRecord(env: Surroundings, requests: seq<seq<Message>>, answers: seq<seq<Record>>, stop: Option<Stop>): seq<Record>
    requires |answers| == |requests|
  {
    var records := Recorded(env, requests, answers, IsBroken(stop));
    match stop
    case Some(BudgetExceeded(message)) => records + [Said("Run stopped: " + message + ".", true)]
    case _ => records
  }

  /** What the run was, from the model's answers alone. */
  ghost predicate RunTold(store: RunStore, limits: Limits, env: Surroundings, goal: string, outcome: RunOutcome,
                          requests: seq<seq<Message>>, answers: seq<seq<Record>>, stop: Option<Stop>)
    reads store
  {
    && |requests| == outcome.turns && Asked(requests, goal)
    && Turns(env, goal, requests, answers)
    && EndedBy(env, limits, requests, answers, store.entries, stop)
    && outcome.error == (if stop.None? then None else Some(stop.value.message))
    && outcome.summary == (if stop.None? then Strip(Join(SaidIn(env, requests))) else "")
    && RecordsOf(store.entries) == WholeRecord(env, requests, answers, stop)
  }

  /** `run_agent`. */
  method RunAgent(store: RunStore, registry: ToolRegistry, limits: Limits, env: Surroundings, goal: string)
    returns (outcome: RunOutcome, ghost requests: seq<seq<Message>>, ghost answers: seq<seq<Record>>, ghost stop: Option<Stop>)
    requires store.entries == [] && store.drafts == [] && store.ends == [] && store.error == None
    requires registry.factsByInvoice == map[]
    modifies store, registry
    ensures RunLeaves(store, registry, limits, env, outcome)
    ensures RunTold(store, limits, env, goal, outcome, requests, answers, stop)
    ensures outcome.error.None? <==>
              outcome.turns > 0 && var last := env.model(outcome.turns, requests[outcome.turns - 1]); last.Replied? && last.reply.calls == []
  {
    var toolCalls, turns, parts, steps, halt, asked, given := Converse(store, registry, limits, env, goal);
    requests, answers, stop := asked, given, halt;
    if halt.Some? {
      outcome := Fail(store, registry, limits, env, goal, requests, answers, toolCalls, turns, parts, steps, halt.value);
    } else {
      outcome := Finish(store, registry, limits, env, goal, requests, answers, toolCalls, turns, parts, steps);
    }
    EndIsKnown(store, limits, env, goal, outcome, requests, answers, stop);
  }

  lemma EndIsKnown(store: RunStore, limits: Limits, env: Surroundings, goal: string, outcome: RunOutcome,
                   requests: seq<seq<Message>>, answers: seq<seq<Record>>, stop: Option<Stop>)
    requires RunTold(store, limits, env, goal, outcome, requests, answers, stop)
    ensures |requests| == outcome.turns
    ensures outcome.error.None? <==>
              requests != [] && var last := env.model(|requests|, requests[|requests| - 1]); last.Replied? && last.reply.calls == []
  {
  }

  /** The `try` block: turn after turn, until something ends it. */
  method Converse(store: RunStore, registry: ToolRegistry, limits: Limits, env: Surroundings, goal: string)
    returns (toolCalls: nat, turns: nat, parts: seq<string>, steps: seq<nat>, stop: Option<Stop>,
             ghost requests: seq<seq<Message>>, ghost answers: seq<seq<Record>>)
    requires store.entries == [] && store.drafts == [] && store.ends == [] && store.error == None
    requires registry.factsByInvoice == map[]
    modifies store, registry
    ensures turns == |requests|
    ensures Over(store, registry, limits, env, goal, requests, answers, toolCalls, parts, steps, stop)
  {
    var messages := Start(store, registry, limits, env, goal);
    toolCalls, turns, parts, steps, stop := 0, 0, [], [], None;
    var finished := false;
    requests, answers := [], [];
    while !finished && stop.None?
      invariant turns == |requests|
      invariant !finished && stop.None? ==>
                  BetweenTurns(store, registry, limits, env, goal, messages, requests, answers, toolCalls, parts, steps)
      invariant finished || stop.Some? ==>
                  Over(store, registry, limits, env, goal, requests, answers, toolCalls, parts, steps, stop)
      decreases AtLeastZero(limits.maxTurns) - turns, if finished || stop.Some? then 0 else 1
    {
      if turns >= limits.maxTurns {
        stop := Some(BudgetExceeded("the run exceeded " + NumberText(limits.maxTurns) + " model turns without finishing"));
        OutOfTurns(store, registry, limits, env, goal, messages, requests, answers, toolCalls, parts, steps, stop);
      } else {
        messages, toolCalls, parts, steps, finished, stop, requests, answers :=
          Ask(store, registry, limits, env, goal, messages, toolCalls, turns, parts, steps, requests, answers);
        turns := turns + 1;
      }
    }
  }

  lemma OutOfTurns(store: RunStore, registry: ToolRegistry, limits: Limits, env: Surroundings, goal: string,
                   messages: seq<Message>, requests: seq<seq<Message>>, answers: seq<seq<Record>>, toolCalls: nat,
                   parts: seq<string>, steps: seq<nat>, stop: Option<Stop>)
    requires BetweenTurns(store, registry, limits, env, goal, messages, requests, answers, toolCalls, parts, steps)
    requires TurnsOver(limits, |requests|, stop)
    ensures Over(store, registry, limits, env, goal, requests, answers, toolCalls, parts, steps, stop)
  {
  }

  method Start(store: RunStore, registry: ToolRegistry, limits: Limits, env: Surroundings, goal: string) returns (messages: seq<Message>)
    requires store.entries == [] && store.drafts == [] && store.ends == [] && store.error == None
    requires registry.factsByInvoice == map[]
    modifies store
    ensures BetweenTurns(store, registry, limits, env, goal, messages, [], [], 0, [], [])
  {
    messages := [Goal(goal)];
    store.SetStatus(Store.Running, None);
    assert messages[..0] == [] && Told(messages) == [];
  }

  /** The agent has produced its closing summary. */
  method Finish(store: RunStore, registry: ToolRegistry, limits: Limits, env: Surroundings, goal: string,
                ghost requests: seq<seq<Message>>, ghost answers: seq<seq<Record>>, toolCalls: nat, turns: nat,
                parts: seq<string>, steps: seq<nat>)
    returns (outcome: RunOutcome)
    requires turns == |requests|
    requires Over(store, registry, limits, env, goal, requests, answers, toolCalls, parts, steps, None)
    modifies store
    ensures RunLeaves(store, registry, limits, env, outcome)
    ensures RunTold(store, limits, env, goal, outcome, requests, answers, None)
    ensures store.entries == old(store.entries)
  {
    var proposals := |store.drafts|;
    var status := if proposals > 0 then Store.AwaitingApproval else Store.Completed;
    store.SetStatus(status, None);
    return RunOutcome(status, toolCalls, proposals, turns, Strip(Join(parts)), None, steps);
  }

  /** A turn the model has taken: what it leads to. */
  method Hear(store: RunStore, registry: ToolRegistry, limits: Limits, env: Surroundings, goal: string, reply: Reply,
              messages: seq<Message>, toolCalls: nat, parts: seq<string>, steps: seq<nat>,
              ghost requests: seq<seq<Message>>, ghost answers: seq<seq<Record>>)
    returns (newMessages: seq<Message>, used: nat, newSteps: seq<nat>, stop: Option<Stop>, ghost got: seq<Record>)
    requires BetweenTurns(store, registry, limits, env, goal, messages, requests, answers, toolCalls, parts, steps)
    requires |requests| < limits.maxTurns && env.model(|requests| + 1, messages) == Replied(reply)
    modifies store`drafts, store`entries, registry
    ensures stop.None? && reply.calls != [] ==>
              BetweenTurns(store, registry, limits, env, goal, newMessages, requests + [messages], answers + [got], used,
                           parts + reply.text, newSteps)
    ensures stop.Some? || reply.calls == [] ==>
              Over(store, registry, limits, env, goal, requests + [messages], answers + [got], used, parts + reply.text,
                   newSteps, stop)
  {
    ghost var records := RecordsOf(store.entries);
    AsksAgain(requests, messages, goal);
    newMessages, used, newSteps, stop, got := TakeTurn(store, registry, limits, env, goal, reply, messages, toolCalls, steps);
    ReplyGoes(env, goal, requests, answers, records, parts, messages, got, reply, IsBroken(stop));
    TurnLeads(env, limits, goal, requests, answers, messages, got, newMessages, store.entries, reply, stop);
  }

  /** One request to the model, and what its answer leads to. */
  method Ask(store: RunStore, registry: ToolRegistry, limits: Limits, env: Surroundings, goal: string,
             messages: seq<Message>, toolCalls: nat, turns: nat, parts: seq<string>, steps: seq<nat>,
             ghost requests: seq<seq<Message>>, ghost answers: seq<seq<Record>>)
    returns (newMessages: seq<Message>, used: nat, newParts: seq<string>, newSteps: seq<nat>, finished: bool,
             stop: Option<Stop>, ghost newRequests: seq<seq<Message>>, ghost newAnswers: seq<seq<Record>>)
    requires turns == |requests| && turns < limits.maxTurns
    requires BetweenTurns(store, registry, limits, env, goal, messages, requests, answers, toolCalls, parts, steps)
    modifies store`drafts, store`entries, registry
    ensures |newRequests| == turns + 1
    ensures !finished && stop.None? ==>
              BetweenTurns(store, registry, limits, env, goal, newMessages, newRequests, newAnswers, used, newParts, newSteps)
    ensures finished || stop.Some? ==>
              Over(store, registry, limits, env, goal, newRequests, newAnswers, used, newParts, newSteps, stop)
  {
    newRequests, newAnswers := requests + [messages], answers + [[]];
    newMessages, used, newParts, newSteps, finished := messages, toolCalls, parts, steps, false;
    var turn := env.model(turns + 1, messages);
    if turn.Replied? {
      finished := turn.reply.calls == [];
      newParts := parts + turn.reply.text;
      ghost var got: seq<Record>;
      newMessages, used, newSteps, stop, got :=
        Hear(store, registry, limits, env, goal, turn.reply, messages, toolCalls, parts, steps, requests, answers);
      newAnswers := answers + [got];
    } else {
      stop := Some(if turn.Unavailable? then ModelUnavailable(turn.message) else Unexpected(turn.message));
      NoReply(store, registry, limits, env, goal, messages, requests, answers, toolCalls, parts, steps, stop);
    }
  }

  lemma NoReply(store: RunStore, registry: ToolRegistry, limits: Limits, env: Surroundings, goal: string,
                messages: seq<Message>, requests: seq<seq<Message>>, answers: seq<seq<Record>>, toolCalls: nat,
                parts: seq<string>, steps: seq<nat>, stop: Option<Stop>)
    requires BetweenTurns(store, registry, limits, env, goal, messages, requests, answers, toolCalls, parts, steps)
    requires |requests| < limits.maxTurns
    requires match env.model(|requests| + 1, messages)
             case Unavailable(message) => stop == Some(ModelUnavailable(message))
             case Broken(message) => stop == Some(Unexpected(message))
             case Replied(_) => false
    ensures Over(store, registry, limits, env, goal, requests + [messages], answers + [[]], toolCalls, parts, steps, stop)
  {
    AsksAgain(requests, messages, goal);
    StoryGoes(env, goal, requests, answers, RecordsOf(store.entries), parts, messages, [], IsBroken(stop));
    assert parts + [] == parts;
  }

  /** The note a spent budget leaves. */
  method NoteStop(store: RunStore, registry: ToolRegistry, limits: Limits, env: Surroundings, message: string, steps: seq<nat>)
    returns (newSteps: seq<nat>)
    requires InStep(store, registry, limits, env) && Settled(store.entries) && steps == Upto(|store.entries|)
    modifies store`entries
    ensures InStep(store, registry, limits, env) && Settled(store.entries) && newSteps == Upto(|store.entries|)
    ensures store.entries == old(store.entries) + [Entry(|old(store.entries)| + 1, Said("Run stopped: " + message + ".", true))]
    ensures CallCount(store.entries) == CallCount(old(store.entries))
    ensures RecordsOf(store.entries) == RecordsOf(old(store.entries)) + [Said("Run stopped: " + message + ".", true)]
  {
    var note := Said("Run stopped: " + message + ".", true);
    RecordsOfAppend(store.entries, Entry(|store.entries| + 1, note));
    newSteps := Note(store, registry, limits, env, note, steps);
  }

  /** A spent budget. */
  method FailSpent(store: RunStore, registry: ToolRegistry, limits: Limits, env: Surroundings, goal: string,
                   ghost requests: seq<seq<Message>>, ghost answers: seq<seq<Record>>, toolCalls: nat, turns: nat,
                   ghost parts: seq<string>, steps: seq<nat>, stop: Stop)
    returns (outcome: RunOutcome)
    requires turns == |requests| && stop.BudgetExceeded?
    requires Over(store, registry, limits, env, goal, requests, answers, toolCalls, parts, steps, Some(stop))
    modifies store
    ensures RunLeaves(store, registry, limits, env, outcome)
    ensures RunTold(store, limits, env, goal, outcome, requests, answers, Some(stop))
    ensures store.entries
         == old(store.entries) + [Entry(|old(store.entries)| + 1, Said("Run stopped: " + stop.message + ".", true))]
  {
    var more := NoteStop(store, registry, limits, env, stop.message, steps);
    StillEnded(env, limits, requests, answers, old(store.entries), Said("Run stopped: " + stop.message + ".", true), stop);
    outcome := CloseFailed(store, registry, limits, env, goal, requests, answers, toolCalls, turns, more, stop);
  }

  /** The ways a run fails: a budget leaves a last message, the others do not. */
  method Fail(store: RunStore, registry: ToolRegistry, limits: Limits, env: Surroundings, goal: string,
              ghost requests: seq<seq<Message>>, ghost answers: seq<seq<Record>>, toolCalls: nat, turns: nat,
              ghost parts: seq<string>, steps: seq<nat>, stop: Stop)
    returns (outcome: RunOutcome)
    requires turns == |requests|
    requires Over(store, registry, limits, env, goal, requests, answers, toolCalls, parts, steps, Some(stop))
    modifies store
    ensures RunLeaves(store, registry, limits, env, outcome)
    ensures RunTold(store, limits, env, goal, outcome, requests, answers, Some(stop))
    ensures store.entries == old(store.entries)
              + if stop.BudgetExceeded? then [Entry(|old(store.entries)| + 1, Said("Run stopped: " + stop.message + ".", true))] else []
  {
    if stop.BudgetExceeded? {
      outcome := FailSpent(store, registry, limits, env, goal, requests, answers, toolCalls, turns, parts, steps, stop);
    } else {
      assert store.entries + [] == store.entries;
      outcome := CloseFailed(store, registry, limits, env, goal, requests, answers, toolCalls, turns, steps, stop);
    }
  }

  /** The status, the audit and the answer of a failed run. */
  method CloseFailed(store: RunStore, registry: ToolRegistry, limits: Limits, env: Surroundings, goal: string,
                     ghost requests: seq<seq<Message>>, ghost answers: seq<seq<Record>>, toolCalls: nat, turns: nat,
                     steps: seq<nat>, stop: Stop)
    returns (outcome: RunOutcome)
    requires turns == |requests| && Going(store, registry, limits, env, goal, requests, toolCalls, steps)
    requires Turns(env, goal, requests, answers) && EndedBy(env, limits, requests, answers, store.entries, Some(stop))
    requires RecordsOf(store.entries) == WholeRecord(env, requests, answers, Some(stop))
    modifies store
    ensures RunLeaves(store, registry, limits, env, outcome)
    ensures RunTold(store, limits, env, goal, outcome, requests, answers, Some(stop))
    ensures store.entries == old(store.entries)
  {
    store.SetStatus(Store.RunFailed, Some(stop.message));
    return RunOutcome(Store.RunFailed, toolCalls, |store.drafts|, turns, "", Some(stop.message), steps);
  }

  /** The note of a spent budget changes nothing about why the run ended. */
  lemma StillEnded(env: Surroundings, limits: Limits, requests: seq<seq<Message>>, answers: seq<seq<Record>>,
                   entries: seq<Entry>, note: Record, stop: Stop)
    requires |answers| == |requests| && EndedBy(env, limits, requests, answers, entries, Some(stop))
    requires stop.BudgetExceeded? && note.Said?
    ensures EndedBy(env, limits, requests, answers, entries + [Entry(|entries| + 1, note)], Some(stop))
  {
    ReadingsOfAppend(entries, Entry(|entries| + 1, note));
  }
}
