/** What a run of the agent must look like from outside: what the model is sent, what goes on
    record, what each tool answers, and how the run ends. */
module Dialogue {
  import opened Prelude
  import opened CanonicalJson
  import opened Registry
  import opened DraftTool
  import opened Transcript
  import Store

  datatype Call = Call(id: string, name: string, arguments: Json)

  /** One assistant turn; `wants_tools` is whether it has calls. */
  datatype Reply = Reply(thinking: seq<string>, text: seq<string>, calls: seq<Call>)

  datatype ModelTurn =
    | Replied(reply: Reply)
    | Unavailable(message: string)
    | Broken(message: string)

  datatype Message =
    | Goal(text: string)
    | Assistant(reply: Reply)
    | Results(answers: seq<Record>)

  datatype ToolOutcome =
    | Returned(result: Json)
    | ToolFailed(payload: Json)
    | Crashed(error: string)

  /** Everything outside the loop. Calls are numbered, so no two need be answered alike. */
  datatype Surroundings = Surroundings(
    model: (nat, seq<Message>) -> ModelTurn,
    read: (nat, string, Json) -> ToolOutcome,
    review: Review,
    others: nat -> set<string>,  // invoices of which another run has a pending proposal
    decided: nat -> set<nat>,    // the run's own drafts that are no longer pending
    newId: nat -> string)

  datatype Limits = Limits(maxToolCalls: int, maxProposals: int, maxTurns: int)

  datatype Stop =
    | BudgetExceeded(message: string)
    | ModelUnavailable(message: string)
    | Unexpected(message: string)

  datatype RunOutcome = RunOutcome(
    status: Store.RunStatus,
    toolCalls: nat,
    proposals: nat,
    turns: nat,
    summary: string,
    error: Option<string>,
    steps: seq<nat>)

  function AtLeastZero(n: int): nat {
    if n < 0 then 0 else n
  }

  function Upto(n: nat): (s: seq<nat>)
    ensures |s| == n && forall i | 0 <= i < n :: s[i] == i + 1
  {
    if n == 0 then [] else Upto(n - 1) + [n]
  }

  // ---- what the model is sent ----------------------------------------------------------------

  /** One answer for each call of the turn, in order. */
  predicate AnswersCalls(answers: seq<Record>, calls: seq<Call>) {
    && |answers| == |calls|
    && forall i | 0 <= i < |calls| ::
         answers[i].Answered? && answers[i].id == calls[i].id && answers[i].name == calls[i].name
  }

  /** The goal; then, in turn, what the assistant said and the one message that answers its
      calls. */
  predicate Conversation(ms: seq<Message>, goal: string) {
    var n := |ms|;
    if n == 1 then ms[0] == Goal(goal)
    else
      && n >= 3 && ms[n - 2].Assistant? && ms[n - 1].Results?
      && ms[n - 2].reply.calls != [] && AnswersCalls(ms[n - 1].answers, ms[n - 2].reply.calls)
      && Conversation(ms[..n - 2], goal)
  }

  /** Every answer the model has been given, in order. */
  function Told(ms: seq<Message>): seq<Record> {
    if ms == [] then []
    else Told(ms[..|ms| - 1]) + if ms[|ms| - 1].Results? then ms[|ms| - 1].answers else []
  }

  lemma ConversationGrows(ms: seq<Message>, goal: string, reply: Reply, answers: seq<Record>)
    requires Conversation(ms, goal) && reply.calls != [] && AnswersCalls(answers, reply.calls)
    ensures Conversation(ms + [Assistant(reply)] + [Results(answers)], goal)
    ensures Told(ms + [Assistant(reply)] + [Results(answers)]) == Told(ms) + answers
  {
    var more := ms + [Assistant(reply)] + [Results(answers)];
    assert more[..|more| - 2] == ms;
    assert more[..|more| - 1] == ms + [Assistant(reply)];
    assert (ms + [Assistant(reply)])[..|ms|] == ms;
    assert Told(ms + [Assistant(reply)]) == Told(ms) + [] == Told(ms);
  }

  // ---- what a call does ------------------------------------------------------------------------

  /** Only the answers of READ tools are harvested. */
  function FactsAfter(facts: Facts, call: Call, outcome: ToolOutcome): Facts {
    if outcome.Returned? && call.name in READ_TOOLS then Harvest(facts, Walk(outcome.result, 0)) else facts
  }

  /** Only the draft tool writes a proposal. */
  function DraftsAdded(facts: Facts, call: Call, outcome: ToolOutcome): seq<Draft> {
    if outcome.Returned? && call.name == DRAFT_TOOL
    then DraftFrom(facts, Called(call.name, call.id, call.arguments)) else []
  }

  // ---- what a tool answers -------------------------------------------------------------------------

  /** An error of a tool, by its code. */
  predicate IsError(outcome: ToolOutcome, code: string) {
    outcome == ToolFailed(Obj([Member("error", Str(code))]))
  }

  function LetterStored(newId: string, a: DraftArgs, f: Json): Json {
    Obj([Member("proposal_id", Str(newId)), Member("status", Str("pending")), Member("tone", Str(a.tone)),
         Member("invoice_id", Str(a.invoiceId)), Member("amount_display", GetOrNull(f, "amount_display"))])
  }

  /** What the draft tool makes of a judgement: the stored letter's data, a refusal the model can
      correct, or an exception nothing in the tool catches. */
  predicate IsTold(outcome: ToolOutcome, newId: string, a: DraftArgs, facts: Facts, r: Result<Draft, DraftError>) {
    match r
    case Success(_) => a.invoiceId in facts && outcome == Returned(LetterStored(newId, a, facts[a.invoiceId]))
    case Failure(InvoiceNotRead) => IsError(outcome, "invoice_not_read")
    case Failure(NotDeliverable) => IsError(outcome, "not_deliverable")
    case Failure(UnknownTone) => IsError(outcome, "unknown_tone")
    case Failure(RationaleRequired) => IsError(outcome, "rationale_required")
    case Failure(ProposalCapReached) => IsError(outcome, "proposal_cap_reached")
    case Failure(LetterRejected(report)) => outcome == ToolFailed(report)
    case Failure(ColumnRaises(TypeError)) => IsError(outcome, "bad_arguments")
    case Failure(ColumnRaises(ValueError)) => outcome == Crashed("ValueError")
    case Failure(DuplicatePendingProposal) => IsError(outcome, "duplicate_pending_proposal")
  }

  /** The outcome of call number `n`, with these facts in the registry and these rows in the store:
      a READ tool is run on the model's arguments, the draft tool judges them, and there is no
      other tool. */
  ghost predicate IsOutcome(env: Surroundings, cap: int, facts: Facts, drafts: seq<Draft>, n: nat, call: Call, outcome: ToolOutcome) {
    if call.name in {"list_overdue_invoices", "get_invoice", "get_customer", "get_payment_history"} then
      outcome == env.read(n, call.name, call.arguments)
    else if call.name == "propose_collection_letter" then
      match ArgsOf(call.arguments)
      case None => IsError(outcome, "bad_arguments")
      case Some(a) => IsDraftOutcome(env, cap, facts, drafts, n, a, outcome)
    else IsError(outcome, "unknown_tool")
  }

  ghost predicate IsDraftOutcome(env: Surroundings, cap: int, facts: Facts, drafts: seq<Draft>, n: nat, a: DraftArgs,
                                 outcome: ToolOutcome)
  {
    exists r :: IsDraftResult(env, cap, facts, drafts, n, a, outcome, r)
  }

  predicate IsDraftResult(env: Surroundings, cap: int, facts: Facts, drafts: seq<Draft>, n: nat, a: DraftArgs,
                          outcome: ToolOutcome, r: Result<Draft, DraftError>)
  {
    && Judged(facts, |drafts|, cap, env.review, Taken(drafts, env.others(n), env.decided(n), a.invoiceId), a, r)
    && IsTold(outcome, env.newId(n), a, facts, r)
  }

  /** A recorded answer is what its call's tool answered: whether it was an error, and with what. */
  ghost predicate IsAnswer(env: Surroundings, cap: int, facts: Facts, drafts: seq<Draft>, n: nat, called: Record, answer: Record) {
    && called.Called? && answer.Answered? && answer.name == called.name && answer.id == called.id
    && IsOutcome(env, cap, facts, drafts, n, Call(called.id, called.name, called.arguments),
                 if answer.isError then ToolFailed(answer.result) else Returned(answer.result))
  }

  lemma RecordedAnswer(env: Surroundings, cap: int, facts: Facts, drafts: seq<Draft>, n: nat, call: Call, outcome: ToolOutcome)
    requires IsOutcome(env, cap, facts, drafts, n, call, outcome) && !outcome.Crashed?
    ensures IsAnswer(env, cap, facts, drafts, n, CallRecord(call), AnswerTo(call, outcome))
  {
  }

  /** Every answer on record is, with the facts and the proposals of the steps before it. */
  ghost predicate AnswersTrue(env: Surroundings, cap: int, entries: seq<Entry>)
    decreases |entries|
  {
    entries == []
    || (&& AnswersTrue(env, cap, entries[..|entries| - 1])
        && LastTrue(env, cap, entries[..|entries| - 1], entries[|entries| - 1].record))
  }

  ghost predicate LastTrue(env: Surroundings, cap: int, before: seq<Entry>, last: Record) {
    last.Answered? && before != [] ==>
      IsAnswer(env, cap, FactsSeen(before), Drafted(before), CallCount(before), before[|before| - 1].record, last)
  }

  lemma OneMoreTrue(env: Surroundings, cap: int, before: seq<Entry>, e: Entry)
    requires AnswersTrue(env, cap, before) && LastTrue(env, cap, before, e.record)
    ensures AnswersTrue(env, cap, before + [e])
  {
    assert (before + [e])[..|before|] == before;
  }

  /** So each answer of a transcript is its own call's, whatever came after it. */
  lemma {:induction false} AnswerAt(env: Surroundings, cap: int, entries: seq<Entry>, i: nat)
    requires AnswersTrue(env, cap, entries) && 0 < i < |entries| && entries[i].record.Answered?
    ensures IsAnswer(env, cap, FactsSeen(entries[..i]), Drafted(entries[..i]), CallCount(entries[..i]),
                     entries[i - 1].record, entries[i].record)
    decreases |entries|
  {
    var init := entries[..|entries| - 1];
    if i < |init| {
      AnswerAt(env, cap, init, i);
      assert init[..i] == entries[..i];
    } else {
      assert LastTrue(env, cap, init, entries[i].record);
    }
  }

  /** The answer to a READ call is what its tool returned, or failed with, on that call's arguments. */
  lemma ReadAnswerAt(env: Surroundings, cap: int, entries: seq<Entry>, i: nat)
    requires AnswersTrue(env, cap, entries) && 0 < i < |entries| && entries[i].record.Answered?
    requires entries[i].record.name in {"list_overdue_invoices", "get_invoice", "get_customer", "get_payment_history"}
    ensures entries[i - 1].record.Called?
    ensures var called, answer := entries[i - 1].record, entries[i].record;
            match env.read(CallCount(entries[..i]), called.name, called.arguments)
            case Returned(result) => answer == Answered(called.name, called.id, false, result)
            case ToolFailed(payload) => answer == Answered(called.name, called.id, true, payload)
            case Crashed(_) => false
  {
    AnswerAt(env, cap, entries, i);
  }

  /** The answer to the call just noted. */
  lemma TrueAnswer(env: Surroundings, cap: int, during: seq<Entry>, call: Call, outcome: ToolOutcome)
    requires AnswersTrue(env, cap, during) && during != [] && !outcome.Crashed?
    requires during[|during| - 1].record == CallRecord(call)
    requires IsOutcome(env, cap, FactsSeen(during), Drafted(during), CallCount(during), call, outcome)
    ensures AnswersTrue(env, cap, during + [Entry(|during| + 1, AnswerTo(call, outcome))])
  {
    RecordedAnswer(env, cap, FactsSeen(during), Drafted(during), CallCount(during), call, outcome);
    OneMoreTrue(env, cap, during, Entry(|during| + 1, AnswerTo(call, outcome)));
  }

  /** The last step is a call whose tool broke. */
  ghost predicate Broke(env: Surroundings, cap: int, entries: seq<Entry>, error: string) {
    && entries != [] && entries[|entries| - 1].record.Called?
    && var called := entries[|entries| - 1].record;
       IsOutcome(env, cap, FactsSeen(entries), Drafted(entries), CallCount(entries),
                 Call(called.id, called.name, called.arguments), Crashed(error))
  }

  // ---- what goes on record -----------------------------------------------------------------------

  function RecordsOf(entries: seq<Entry>): seq<Record> {
    if entries == [] then [] else RecordsOf(entries[..|entries| - 1]) + [entries[|entries| - 1].record]
  }

  lemma RecordsOfAppend(entries: seq<Entry>, e: Entry)
    ensures RecordsOf(entries + [e]) == RecordsOf(entries) + [e.record]
  {
    assert (entries + [e])[..|entries|] == entries;
  }

  function CallRecord(call: Call): Record {
    Called(call.name, call.id, call.arguments)
  }

  /** The records after a call, with its arguments, and directly after it its answer, if it got one. */
  function AfterCall(before: seq<Record>, call: Call, answer: Option<Record>): seq<Record> {
    match answer
    case Some(record) => before + [CallRecord(call)] + [record]
    case None => before + [CallRecord(call)]
  }

  /** What goes back to the model for a call that did not break its tool. */
  function AnswerTo(call: Call, outcome: ToolOutcome): Record
    requires !outcome.Crashed?
  {
    Answered(call.name, call.id, outcome.ToolFailed?, if outcome.Returned? then outcome.result else outcome.payload)
  }

  /** How an answer moves the readings of the transcript: as its tool has moved the registry and
      the proposals. */
  lemma AnswerMoves(during: seq<Entry>, call: Call, outcome: ToolOutcome, facts: Facts, drafts: seq<Draft>)
    requires during != [] && during[|during| - 1].record == Called(call.name, call.id, call.arguments)
    requires facts == FactsSeen(during) && drafts == Drafted(during) && !outcome.Crashed?
    ensures var entries := during + [Entry(|during| + 1, AnswerTo(call, outcome))];
            && FactsSeen(entries) == FactsAfter(facts, call, outcome)
            && Drafted(entries) == drafts + DraftsAdded(facts, call, outcome)
            && DraftCalls(entries) == DraftCalls(during) + Marks(DraftsAdded(facts, call, outcome), CallCount(during))
            && CallCount(entries) == CallCount(during)
            && AnswersOf(entries) == AnswersOf(during) + [AnswerTo(call, outcome)]
  {
    ReadingsOfAppend(during, Entry(|during| + 1, AnswerTo(call, outcome)));
    assert drafts + [] == drafts && DraftCalls(during) + [] == DraftCalls(during);
  }

  /** The records after the first `n` pieces of prose of one kind. */
  function AfterProse(before: seq<Record>, texts: seq<string>, n: nat, thought: bool): seq<Record>
    requires n <= |texts|
  {
    if n == 0 then before else AfterProse(before, texts, n - 1, thought) + [ProseRecord(texts[n - 1], thought)]
  }

  /** The records after what a turn says, thoughts before messages. */
  function AfterReply(before: seq<Record>, reply: Reply): seq<Record> {
    AfterProse(AfterProse(before, reply.thinking, |reply.thinking|, true), reply.text, |reply.text|, false)
  }

  function ProseRecord(text: string, thought: bool): (r: Record)
    ensures !r.Answered? && !r.Called?
  {
    if thought then Thought(text) else Said(text, false)
  }

  /** The records after these calls, each with its answer. */
  function AfterCalls(before: seq<Record>, calls: seq<Call>, answers: seq<Record>): seq<Record>
    requires |answers| <= |calls|
    decreases |answers|
  {
    if answers == [] then before
    else
      var last := |answers| - 1;
      AfterCall(AfterCalls(before, calls, answers[..last]), calls[last], Some(answers[last]))
  }

  lemma OneMoreCall(before: seq<Record>, calls: seq<Call>, answers: seq<Record>, answer: Record)
    requires |answers| < |calls|
    ensures AfterCalls(before, calls, answers + [answer])
         == AfterCall(AfterCalls(before, calls, answers), calls[|answers|], Some(answer))
  {
    assert (answers + [answer])[..|answers|] == answers;
  }

  /** The same, with the call of a broken tool, which gets no answer. */
  function CallsOnRecord(before: seq<Record>, calls: seq<Call>, answers: seq<Record>, broken: bool): seq<Record>
    requires |answers| <= |calls| && (broken ==> |answers| < |calls|)
  {
    var after := AfterCalls(before, calls, answers);
    if broken then AfterCall(after, calls[|answers|], None) else after
  }

  /** Whether a tool broke, or the model. */
  predicate IsBroken(stop: Option<Stop>) {
    stop.Some? && stop.value.Unexpected?
  }

  lemma OneMoreAnswer(first: seq<Record>, answers: seq<Record>, answer: Record, calls: seq<Call>)
    requires |answers| < |calls| && AnswersCalls(answers, calls[..|answers|])
    requires answer.Answered? && answer.id == calls[|answers|].id && answer.name == calls[|answers|].name
    ensures AnswersCalls(answers + [answer], calls[..|answers| + 1])
    ensures first + answers + [answer] == first + (answers + [answer])
  {
  }

  /** The records after a turn: its prose, then each call and its answer. */
  function AfterTurn(before: seq<Record>, reply: Reply, answers: seq<Record>, broken: bool): seq<Record>
    requires |answers| <= |reply.calls| && (broken ==> |answers| < |reply.calls|)
  {
    CallsOnRecord(AfterReply(before, reply), reply.calls, answers, broken)
  }

  /** `"\n\n".join(parts)`. */
  function Join(parts: seq<string>): string {
    if parts == [] then ""
    else if |parts| == 1 then parts[0]
    else Join(parts[..|parts| - 1]) + "\n\n" + parts[|parts| - 1]
  }

  // ---- the same, item by item -------------------------------------------------------------------------

  function Thoughts(texts: seq<string>): seq<Record> {
    seq(|texts|, i requires 0 <= i < |texts| => Thought(texts[i]))
  }

  function Messages(texts: seq<string>): seq<Record> {
    seq(|texts|, i requires 0 <= i < |texts| => Said(texts[i], false))
  }

  /** Each call, directly followed by its answer. */
  function InTurn(calls: seq<Call>, answers: seq<Record>): seq<Record>
    requires |answers| <= |calls|
  {
    seq(2 * |answers|, i requires 0 <= i < 2 * |answers| =>
      if i % 2 == 0 then Called(calls[i / 2].name, calls[i / 2].id, calls[i / 2].arguments) else answers[i / 2])
  }

  lemma {:induction false} ThoughtsFirst(before: seq<Record>, texts: seq<string>, n: nat)
    requires n <= |texts|
    ensures AfterProse(before, texts, n, true) == before + Thoughts(texts[..n])
    ensures AfterProse(before, texts, n, false) == before + Messages(texts[..n])
  {
    if n > 0 {
      ThoughtsFirst(before, texts, n - 1);
      assert Thoughts(texts[..n]) == Thoughts(texts[..n - 1]) + [Thought(texts[n - 1])];
      assert Messages(texts[..n]) == Messages(texts[..n - 1]) + [Said(texts[n - 1], false)];
    }
  }

  lemma {:induction false} CallsInTurn(before: seq<Record>, calls: seq<Call>, answers: seq<Record>)
    requires |answers| <= |calls|
    ensures AfterCalls(before, calls, answers) == before + InTurn(calls, answers)
    decreases |answers|
  {
    if answers != [] {
      var last := |answers| - 1;
      CallsInTurn(before, calls, answers[..last]);
      OneMoreInTurn(calls, answers);
    }
  }

  lemma OneMoreInTurn(calls: seq<Call>, answers: seq<Record>)
    requires 0 < |answers| <= |calls|
    ensures var last := |answers| - 1;
            InTurn(calls, answers) == InTurn(calls, answers[..last]) + [CallRecord(calls[last])] + [answers[last]]
  {
  }

  /** What a turn adds to the record: its thoughts, its messages, then every call directly followed by
      its answer; last, perhaps, the call that broke its tool. */
  lemma TurnOnRecord(before: seq<Record>, reply: Reply, answers: seq<Record>, broken: bool)
    requires |answers| <= |reply.calls| && (broken ==> |answers| < |reply.calls|)
    ensures AfterTurn(before, reply, answers, broken)
         == before + Thoughts(reply.thinking) + Messages(reply.text) + InTurn(reply.calls, answers)
            + if broken then var call := reply.calls[|answers|]; [Called(call.name, call.id, call.arguments)] else []
  {
    ThoughtsFirst(before, reply.thinking, |reply.thinking|);
    assert reply.thinking[..|reply.thinking|] == reply.thinking && reply.text[..|reply.text|] == reply.text;
    ThoughtsFirst(before + Thoughts(reply.thinking), reply.text, |reply.text|);
    CallsInTurn(AfterReply(before, reply), reply.calls, answers);
    var all := AfterCalls(AfterReply(before, reply), reply.calls, answers);
    assert all + [] == all;
  }

  /** The summary is what the model said, piece after piece with a blank line between. */
  lemma {:induction false} JoinIs(parts: seq<string>)
    ensures Join(parts) == Joined("\n\n", parts)
    decreases |parts|
  {
    if |parts| > 1 {
      JoinIs(parts[..|parts| - 1]);
      JoinedLast("\n\n", parts);
    }
  }

  lemma {:induction false} JoinedLast(separator: string, parts: seq<string>)
    requires |parts| > 1
    ensures Joined(separator, parts) == Joined(separator, parts[..|parts| - 1]) + separator + parts[|parts| - 1]
    decreases |parts|
  {
    var init, last := parts[..|parts| - 1], parts[|parts| - 1];
    if |parts| == 2 {
      assert parts[1..] == [last] && init == [parts[0]];
    } else {
      JoinedLast(separator, parts[1..]);
      assert parts[1..][..|parts| - 2] == init[1..];
      assert parts[0] + separator + (Joined(separator, init[1..]) + separator + last)
          == parts[0] + separator + Joined(separator, init[1..]) + separator + last;
    }
  }

  // ---- how one turn follows from another, and how the run ends ----------------------------------------

  /** The model, asked for the `i`th time, wanted tools; `next` sends the same conversation again
      with its turn and, in one message, the answer to each of its calls. */
  predicate Follows(env: Surroundings, i: nat, request: seq<Message>, answers: seq<Record>, next: seq<Message>) {
    match env.model(i + 1, request)
    case Replied(reply) =>
      && reply.calls != [] && AnswersCalls(answers, reply.calls)
      && next == request + [Assistant(reply)] + [Results(answers)]
    case _ => false
  }

  /** The first request is the goal, and each other one follows from the one before. */
  predicate Turns(env: Surroundings, goal: string, requests: seq<seq<Message>>, answers: seq<seq<Record>>) {
    && |answers| == |requests|
    && (requests != [] ==> requests[0] == [Goal(goal)])
    && forall i | 0 <= i < |requests| - 1 :: Follows(env, i, requests[i], answers[i], requests[i + 1])
  }

  /** The request that comes next. */
  predicate LeadsTo(env: Surroundings, goal: string, requests: seq<seq<Message>>, answers: seq<seq<Record>>,
                    messages: seq<Message>)
    requires |answers| == |requests|
  {
    if requests == [] then messages == [Goal(goal)]
    else
      var last := |requests| - 1;
      Follows(env, last, requests[last], answers[last], messages)
  }

  /** The records after a turn; without a reply there are none of it. */
  function AfterModel(before: seq<Record>, turn: ModelTurn, answers: seq<Record>, broken: bool): seq<Record> {
    match turn
    case Replied(reply) =>
      if |answers| <= |reply.calls| && (broken ==> |answers| < |reply.calls|)
      then AfterTurn(before, reply, answers, broken) else before
    case _ => before
  }

  /** All records of the run; `broken` is whether the last turn ended in a broken tool. */
  function Recorded(env: Surroundings, requests: seq<seq<Message>>, answers: seq<seq<Record>>, broken: bool): seq<Record>
    requires |answers| == |requests|
    decreases |requests|
  {
    if requests == [] then []
    else
      var n := |requests| - 1;
      AfterModel(Recorded(env, requests[..n], answers[..n], false), env.model(n + 1, requests[n]), answers[n], broken)
  }

  /** Everything the model said, in order. */
  function SaidIn(env: Surroundings, requests: seq<seq<Message>>): seq<string>
    decreases |requests|
  {
    if requests == [] then []
    else
      var n := |requests| - 1;
      SaidIn(env, requests[..n]) + match env.model(n + 1, requests[n]) case Replied(reply) => reply.text case _ => []
  }

  /** Why the calls of a turn were not all answered, if they were not. */
  ghost predicate CallsStopped(env: Surroundings, limits: Limits, entries: seq<Entry>, calls: seq<Call>, answers: seq<Record>,
                               stop: Option<Stop>)
  {
    match stop
    case None => AnswersCalls(answers, calls)
    case Some(BudgetExceeded(message)) =>
      && |answers| < |calls| && Settled(entries) && CallCount(entries) >= limits.maxToolCalls
      && message == "the run reached its limit of " + NumberText(limits.maxToolCalls) + " tool calls"
    case Some(Unexpected(message)) => |answers| < |calls| && Broke(env, limits.maxProposals, entries, message)
    case Some(ModelUnavailable(_)) => false
  }

  predicate TurnsOver(limits: Limits, turns: nat, stop: Option<Stop>) {
    && turns >= limits.maxTurns
    && stop == Some(BudgetExceeded("the run exceeded " + NumberText(limits.maxTurns) + " model turns without finishing"))
  }

  /** How the run ends is decided by what the model answered last: nothing more to do ends it; a
      model that cannot be reached or breaks stops it; and after a turn that wanted tools only a
      budget or a broken tool does. */
  ghost predicate EndedBy(env: Surroundings, limits: Limits, requests: seq<seq<Message>>, answers: seq<seq<Record>>,
                          entries: seq<Entry>, stop: Option<Stop>)
    requires |answers| == |requests|
  {
    var turns := |requests|;
    if turns == 0 then TurnsOver(limits, 0, stop)
    else
      match env.model(turns, requests[turns - 1])
      case Unavailable(message) => stop == Some(ModelUnavailable(message))
      case Broken(message) => stop == Some(Unexpected(message))
      case Replied(reply) =>
        if reply.calls == [] then stop == None
        else
          || (AnswersCalls(answers[turns - 1], reply.calls) && TurnsOver(limits, turns, stop))
          || (stop != None && CallsStopped(env, limits, entries, reply.calls, answers[turns - 1], stop))
  }

  /** The run so far, as the model has seen it, as it is on record, and as it was said. */
  ghost predicate Story(env: Surroundings, goal: string, requests: seq<seq<Message>>, answers: seq<seq<Record>>,
                        records: seq<Record>, parts: seq<string>, broken: bool)
  {
    && Turns(env, goal, requests, answers)
    && records == Recorded(env, requests, answers, broken) && parts == SaidIn(env, requests)
  }

  lemma StoryGoes(env: Surroundings, goal: string, requests: seq<seq<Message>>, answers: seq<seq<Record>>, records: seq<Record>,
                  parts: seq<string>, messages: seq<Message>, got: seq<Record>, broken: bool)
    requires Story(env, goal, requests, answers, records, parts, false) && LeadsTo(env, goal, requests, answers, messages)
    ensures var turn := env.model(|requests| + 1, messages);
            Story(env, goal, requests + [messages], answers + [got], AfterModel(records, turn, got, broken),
                  parts + match turn case Replied(reply) => reply.text case _ => [], broken)
  {
    var more, given := requests + [messages], answers + [got];
    assert more[..|requests|] == requests && given[..|answers|] == answers;
    TurnsGo(env, goal, requests, answers, messages, got);
  }

  lemma ReplyGoes(env: Surroundings, goal: string, requests: seq<seq<Message>>, answers: seq<seq<Record>>, records: seq<Record>,
                  parts: seq<string>, messages: seq<Message>, got: seq<Record>, reply: Reply, broken: bool)
    requires Story(env, goal, requests, answers, records, parts, false) && LeadsTo(env, goal, requests, answers, messages)
    requires env.model(|requests| + 1, messages) == Replied(reply)
    requires |got| <= |reply.calls| && (broken ==> |got| < |reply.calls|)
    ensures Story(env, goal, requests + [messages], answers + [got], AfterTurn(records, reply, got, broken),
                  parts + reply.text, broken)
  {
    StoryGoes(env, goal, requests, answers, records, parts, messages, got, broken);
  }

  lemma TurnsGo(env: Surroundings, goal: string, requests: seq<seq<Message>>, answers: seq<seq<Record>>, messages: seq<Message>,
                got: seq<Record>)
    requires Turns(env, goal, requests, answers) && LeadsTo(env, goal, requests, answers, messages)
    ensures Turns(env, goal, requests + [messages], answers + [got])
  {
    var more, given := requests + [messages], answers + [got];
    forall i | 0 <= i < |more| - 1 ensures Follows(env, i, more[i], given[i], more[i + 1]) {
      if i < |requests| - 1 { assert Follows(env, i, requests[i], answers[i], requests[i + 1]); }
    }
  }

  /** A turn that was taken ends the run or leads to the next request. */
  lemma TurnLeads(env: Surroundings, limits: Limits, goal: string, requests: seq<seq<Message>>, answers: seq<seq<Record>>,
                  messages: seq<Message>, got: seq<Record>, next: seq<Message>, entries: seq<Entry>, reply: Reply,
                  stop: Option<Stop>)
    requires |answers| == |requests| && env.model(|requests| + 1, messages) == Replied(reply)
    requires CallsStopped(env, limits, entries, reply.calls, got, stop) && (reply.calls == [] ==> stop.None?)
    requires stop.None? ==> next == (if reply.calls == [] then messages else messages + [Assistant(reply)] + [Results(got)])
    ensures stop.None? && reply.calls != [] ==> LeadsTo(env, goal, requests + [messages], answers + [got], next)
    ensures stop.Some? || reply.calls == [] ==> EndedBy(env, limits, requests + [messages], answers + [got], entries, stop)
    ensures stop.Some? && stop.value.BudgetExceeded? ==> Settled(entries)
  {
  }
}
