/** The transcript of a run (`run_steps`): its grammar, and what can be read out of it. */
module Transcript {
  import opened Prelude
  import opened CanonicalJson
  import opened Registry
  import opened DraftTool

  datatype Record =
    | Thought(text: string)
    | Said(text: string, guardrail: bool)
    | Called(name: string, id: string, arguments: Json)
    | Answered(name: string, id: string, isError: bool, result: Json)

  datatype Entry = Entry(seqNo: nat, record: Record)

  /** `coalesce(max(seq), 0)`. */
  function MaxSeq(entries: seq<Entry>): nat {
    if entries == [] then 0
    else
      var before, last := MaxSeq(entries[..|entries| - 1]), entries[|entries| - 1].seqNo;
      if last > before then last else before
  }

  /** Steps numbered 1 to n, each answer directly after the call it answers, and no call
      unanswered but perhaps the last step. */
  predicate Grammar(entries: seq<Entry>) {
    && (forall i | 0 <= i < |entries| :: entries[i].seqNo == i + 1)
    && (forall i | 0 <= i < |entries| && entries[i].record.Answered? :: i > 0 && Answers(entries[i].record, entries[i - 1].record))
    && (forall i | 0 <= i < |entries| - 1 && entries[i].record.Called? :: entries[i + 1].record.Answered?)
  }

  predicate Answers(a: Record, c: Record) {
    a.Answered? && c.Called? && a.name == c.name && a.id == c.id
  }

  /** No call is waiting for its answer. */
  predicate Settled(entries: seq<Entry>) {
    entries == [] || !entries[|entries| - 1].record.Called?
  }

  function Append(entries: seq<Entry>, record: Record): seq<Entry> {
    entries + [Entry(MaxSeq(entries) + 1, record)]
  }

  lemma {:induction false} MaxSeqIsLength(entries: seq<Entry>)
    requires forall i | 0 <= i < |entries| :: entries[i].seqNo == i + 1
    ensures MaxSeq(entries) == |entries|
    decreases |entries|
  {
    if entries != [] { MaxSeqIsLength(entries[..|entries| - 1]); }
  }

  lemma AppendKeepsGrammar(entries: seq<Entry>, record: Record)
    requires Grammar(entries)
    requires if record.Answered? then entries != [] && Answers(record, entries[|entries| - 1].record) else Settled(entries)
    ensures Grammar(Append(entries, record))
    ensures Append(entries, record) == entries + [Entry(|entries| + 1, record)]
  {
    MaxSeqIsLength(entries);
  }

  // ---- readings of a transcript ------------------------------------------------------------

  /** The facts the registry holds after these steps: every successful READ answer harvested. */
  function FactsSeen(entries: seq<Entry>): Facts {
    if entries == [] then map[]
    else
      var before, last := FactsSeen(entries[..|entries| - 1]), entries[|entries| - 1].record;
      if last.Answered? && !last.isError && last.name in READ_TOOLS then Harvest(before, Walk(last.result, 0)) else before
  }

  /** The rows of the proposals table these steps account for: one for each successful draft
      answer, made of its call's arguments and of the facts seen before it. */
  function Drafted(entries: seq<Entry>): seq<Draft> {
    if entries == [] then []
    else
      var n := |entries| - 1;
      var before, last := Drafted(entries[..n]), entries[n].record;
      if last.Answered? && !last.isError && last.name == DRAFT_TOOL && n > 0
      then before + DraftFrom(FactsSeen(entries[..n]), entries[n - 1].record) else before
  }

  function DraftFrom(facts: Facts, call: Record): (added: seq<Draft>)
    ensures |added| <= 1
  {
    if !call.Called? then []
    else
      match ArgsOf(call.arguments)
      case None => []
      case Some(a) => if a.invoiceId in facts then [DraftOf(a, facts[a.invoiceId])] else []
  }

  /** For each of those rows, the number of the call that made it. */
  function DraftCalls(entries: seq<Entry>): (calls: seq<nat>)
    ensures |calls| == |Drafted(entries)|
  {
    if entries == [] then []
    else
      var n := |entries| - 1;
      var before, last := DraftCalls(entries[..n]), entries[n].record;
      if last.Answered? && !last.isError && last.name == DRAFT_TOOL && n > 0
      then before + Marks(DraftFrom(FactsSeen(entries[..n]), entries[n - 1].record), CallCount(entries[..n])) else before
  }

  function Marks(added: seq<Draft>, call: nat): (calls: seq<nat>)
    ensures |added| <= 1 ==> |calls| == |added|
  {
    if added == [] then [] else [call]
  }

  function CallCount(entries: seq<Entry>): nat {
    if entries == [] then 0
    else CallCount(entries[..|entries| - 1]) + if entries[|entries| - 1].record.Called? then 1 else 0
  }

  /** Every answer, in order. */
  function AnswersOf(entries: seq<Entry>): seq<Record> {
    if entries == [] then []
    else
      AnswersOf(entries[..|entries| - 1])
      + if entries[|entries| - 1].record.Answered? then [entries[|entries| - 1].record] else []
  }

  lemma ReadingsOfAppend(entries: seq<Entry>, e: Entry)
    ensures FactsSeen(entries + [e])
         == if e.record.Answered? && !e.record.isError && e.record.name in READ_TOOLS
            then Harvest(FactsSeen(entries), Walk(e.record.result, 0)) else FactsSeen(entries)
    ensures Drafted(entries + [e])
         == if e.record.Answered? && !e.record.isError && e.record.name == DRAFT_TOOL && entries != []
            then Drafted(entries) + DraftFrom(FactsSeen(entries), entries[|entries| - 1].record) else Drafted(entries)
    ensures DraftCalls(entries + [e])
         == if e.record.Answered? && !e.record.isError && e.record.name == DRAFT_TOOL && entries != []
            then DraftCalls(entries) + Marks(DraftFrom(FactsSeen(entries), entries[|entries| - 1].record), CallCount(entries))
            else DraftCalls(entries)
    ensures CallCount(entries + [e]) == CallCount(entries) + if e.record.Called? then 1 else 0
    ensures AnswersOf(entries + [e]) == AnswersOf(entries) + if e.record.Answered? then [e.record] else []
  {
    assert (entries + [e])[..|entries|] == entries;
  }

  // ---- provenance --------------------------------------------------------------------------

  /** Row `k` of the answer at step `j` is the last row about the invoice among everything READ
      tools had answered before step `upTo`. */
  predicate LastRead(entries: seq<Entry>, upTo: nat, id: string, j: nat, k: nat)
    requires upTo <= |entries|
  {
    && j < upTo && IsRead(entries[j].record) && LastAbout(Walk(entries[j].record.result, 0), id, k)
    && forall i | j < i < upTo :: ReadsNothingOf(entries[i].record, id)
  }

  /** Not a READ answer with a row about this invoice. */
  predicate ReadsNothingOf(r: Record, id: string) {
    IsRead(r) ==> forall row | row in Walk(r.result, 0) :: IdOf(row) != id
  }

  predicate IsRead(r: Record) {
    r.Answered? && !r.isError && r.name in READ_TOOLS
  }

  /** The fact set of an invoice is the translation of the row about it that was read last. */
  lemma {:induction false} FactsAreLastRead(entries: seq<Entry>, id: string) returns (j: nat, k: nat)
    requires id in FactsSeen(entries)
    ensures LastRead(entries, |entries|, id, j, k)
    ensures FactsSeen(entries)[id] == LetterFacts(Walk(entries[j].record.result, 0)[k])
    decreases |entries|
  {
    var n := |entries| - 1;
    var init, last := entries[..n], entries[n].record;
    if IsRead(last) && exists row | row in Walk(last.result, 0) :: IdOf(row) == id && id != "" {
      j := n;
      k := LastIndex(Walk(last.result, 0), id);
      LastRowWins(FactsSeen(init), Walk(last.result, 0), id, k);
    } else {
      if IsRead(last) { NotAmong(FactsSeen(init), Walk(last.result, 0), id); }
      j, k := FactsAreLastRead(init, id);
      LastReadStays(entries, id, j, k);
    }
  }

  lemma NotAmong(facts: Facts, rows: seq<Json>, id: string)
    requires forall row | row in rows :: IdOf(row) != id || id == ""
    requires id in Harvest(facts, rows)
    ensures id in facts && Harvest(facts, rows)[id] == facts[id]
    ensures id != "" ==> forall row | row in rows :: IdOf(row) != id
  {
    if id != "" {
      forall k | 0 <= k < |rows| ensures IdOf(rows[k]) != id { assert rows[k] in rows; }
      OtherRowsLeaveIt(facts, rows, id);
    } else {
      EmptyIdLeavesIt(facts, rows);
    }
  }

  lemma {:induction false} EmptyIdLeavesIt(facts: Facts, rows: seq<Json>)
    ensures "" in Harvest(facts, rows) <==> "" in facts
    ensures "" in facts ==> Harvest(facts, rows)[""] == facts[""]
    decreases |rows|
  {
    if rows != [] {
      HarvestOne(facts, rows);
      EmptyIdLeavesIt(facts, rows[..|rows| - 1]);
    }
  }

  lemma {:induction false} NoEmptyId(entries: seq<Entry>)
    ensures "" !in FactsSeen(entries)
    decreases |entries|
  {
    if entries != [] {
      NoEmptyId(entries[..|entries| - 1]);
      var last := entries[|entries| - 1].record;
      if IsRead(last) { EmptyIdLeavesIt(FactsSeen(entries[..|entries| - 1]), Walk(last.result, 0)); }
    }
  }

  lemma {:induction false} LastIndex(rows: seq<Json>, id: string) returns (k: nat)
    requires id != "" && exists row | row in rows :: IdOf(row) == id
    ensures LastAbout(rows, id, k)
    decreases |rows|
  {
    var n := |rows| - 1;
    if IdOf(rows[n]) == id {
      k := n;
    } else {
      var row :| row in rows && IdOf(row) == id;
      assert row in rows[..n];
      k := LastIndex(rows[..n], id);
      assert rows[..n][k] == rows[k];
      forall j | k < j < |rows| ensures IdOf(rows[j]) != id {
        if j < n { assert rows[..n][j] == rows[j]; }
      }
    }
  }

  lemma LastReadStays(entries: seq<Entry>, id: string, j: nat, k: nat)
    requires entries != [] && LastRead(entries[..|entries| - 1], |entries| - 1, id, j, k)
    requires ReadsNothingOf(entries[|entries| - 1].record, id)
    ensures LastRead(entries, |entries|, id, j, k)
  {
    var n := |entries| - 1;
    forall i | j < i < |entries| ensures ReadsNothingOf(entries[i].record, id) {
      if i < n { assert entries[..n][i] == entries[i]; }
    }
  }

  /** Step `n` is the successful answer to a draft call with arguments `a`, and `d` was made of
      them and of the last READ row about that very invoice before it. */
  predicate MadeBy(entries: seq<Entry>, d: Draft, n: nat, a: DraftArgs, j: nat, k: nat) {
    && 0 < n < |entries|
    && entries[n].record.Answered? && !entries[n].record.isError && entries[n].record.name == DRAFT_TOOL
    && entries[n - 1].record.Called? && ArgsOf(entries[n - 1].record.arguments) == Some(a)
    && LastRead(entries, n, a.invoiceId, j, k)
    && d == DraftOf(a, LetterFacts(Walk(entries[j].record.result, 0)[k]))
  }

  /** Where a stored proposal came from: its facts have no source but what a READ tool answered
      last about its invoice, earlier in the same run. */
  lemma {:induction false} DraftProvenance(entries: seq<Entry>, i: nat) returns (n: nat, a: DraftArgs, j: nat, k: nat)
    requires i < |Drafted(entries)|
    ensures MadeBy(entries, Drafted(entries)[i], n, a, j, k)
    decreases |entries|
  {
    var last := |entries| - 1;
    DraftedOne(entries);
    if i < |Drafted(entries[..last])| {
      n, a, j, k := DraftProvenance(entries[..last], i);
      MadeByPrefix(entries, Drafted(entries)[i], n, a, j, k);
    } else {
      n := last;
      a, j, k := NewDraft(entries);
    }
  }

  lemma DraftedOne(entries: seq<Entry>)
    requires entries != []
    ensures Drafted(entries[..|entries| - 1]) <= Drafted(entries)
    ensures |Drafted(entries)| <= |Drafted(entries[..|entries| - 1])| + 1
  {
  }

  lemma NewDraft(entries: seq<Entry>) returns (a: DraftArgs, j: nat, k: nat)
    requires entries != [] && |Drafted(entries)| > |Drafted(entries[..|entries| - 1])|
    ensures MadeBy(entries, Drafted(entries)[|Drafted(entries)| - 1], |entries| - 1, a, j, k)
  {
    var n := |entries| - 1;
    a := ArgsOf(entries[n - 1].record.arguments).value;
    j, k := FactsAreLastRead(entries[..n], a.invoiceId);
    LastReadOfPrefix(entries, n, n, a.invoiceId, j, k);
  }

  lemma MadeByPrefix(entries: seq<Entry>, d: Draft, n: nat, a: DraftArgs, j: nat, k: nat)
    requires entries != [] && MadeBy(entries[..|entries| - 1], d, n, a, j, k)
    ensures MadeBy(entries, d, n, a, j, k)
  {
    var m := |entries| - 1;
    assert entries[..m][n] == entries[n] && entries[..m][n - 1] == entries[n - 1] && entries[..m][j] == entries[j];
    LastReadOfPrefix(entries, m, n, a.invoiceId, j, k);
  }

  lemma LastReadOfPrefix(entries: seq<Entry>, m: nat, upTo: nat, id: string, j: nat, k: nat)
    requires upTo <= m <= |entries| && LastRead(entries[..m], upTo, id, j, k)
    ensures LastRead(entries, upTo, id, j, k)
  {
    forall i | j < i < upTo && IsRead(entries[i].record)
      ensures forall row | row in Walk(entries[i].record.result, 0) :: IdOf(row) != id
    {
      assert entries[..m][i] == entries[i];
    }
  }
}
