/** app/api/queries.py `payment_history_seen_by_the_agent`: what the operator is shown is what
    the agent saw. */
module Readback {
  import opened Prelude
  import opened CanonicalJson
  import opened Registry
  import opened Transcript

  const HISTORY_TOOL := "get_payment_history"

  /** The history in a result, if it is a dict that carries a list. */
  function HistoryOf(result: Json): Option<seq<Json>> {
    match Field(result, "history")
    case Some(Arr(items)) => Some(items)
    case _ => None
  }

  predicate IsLookup(r: Record) {
    (r.Called? || r.Answered?) && r.name == HISTORY_TOOL
  }

  /** The steps whose `tool_name` is the history tool, in order. */
  function Lookups(entries: seq<Entry>): seq<Record> {
    if entries == [] then []
    else
      var last := entries[|entries| - 1].record;
      Lookups(entries[..|entries| - 1]) + if IsLookup(last) then [last] else []
  }

  /** Step `n` answers, with a history, a lookup of this customer. */
  predicate SawHistory(entries: seq<Entry>, customer: string, n: nat) {
    && 0 < n < |entries|
    && entries[n].record.Answered? && entries[n].record.name == "get_payment_history" && !entries[n].record.isError
    && entries[n - 1].record.Called? && GetOrNull(entries[n - 1].record.arguments, "customer_id") == Str(customer)
    && HistoryOf(entries[n].record.result).Some?
  }

  /** The history of the last successful lookup of the customer; nothing if there was none. */
  function LastHistory(entries: seq<Entry>, customer: string): seq<Json> {
    if entries == [] then []
    else
      var n := |entries| - 1;
      if SawHistory(entries, customer, n) then HistoryOf(entries[n].record.result).value
      else LastHistory(entries[..n], customer)
  }

  lemma {:induction false} LastHistoryIsTheLast(entries: seq<Entry>, customer: string) returns (n: Option<nat>)
    ensures n.None? ==> LastHistory(entries, customer) == [] && forall m: nat :: !SawHistory(entries, customer, m)
    ensures n.Some? ==>
              && SawHistory(entries, customer, n.value)
              && LastHistory(entries, customer) == HistoryOf(entries[n.value].record.result).value
              && forall m: nat | m > n.value :: !SawHistory(entries, customer, m)
    decreases |entries|
  {
    if entries == [] {
      n := None;
    } else {
      var last := |entries| - 1;
      if SawHistory(entries, customer, last) {
        n := Some(last);
      } else {
        n := LastHistoryIsTheLast(entries[..last], customer);
        forall m: nat | m < last ensures SawHistory(entries, customer, m) == SawHistory(entries[..last], customer, m) {
        }
      }
    }
  }

  // ---- the scan --------------------------------------------------------------------------------

  /** `found`, `asked_about`, `asked_id`. */
  datatype Scan = Scan(found: seq<Json>, about: Json, id: string)

  function ScanStep(s: Scan, r: Record, customer: string): Scan {
    match r
    case Called(_, id, arguments) => Scan(s.found, GetOrNull(arguments, "customer_id"), id)
    case Answered(_, id, isError, result) =>
      var keeps := !isError && !(s.id != "" && id != "" && s.id != id)
                   && s.about == Str(customer) && HistoryOf(result).Some?;
      Scan(if keeps then HistoryOf(result).value else s.found, Null, "")
    case _ => Scan(s.found, Null, "")
  }

  function ScanAll(steps: seq<Record>, customer: string): Scan {
    if steps == [] then Scan([], Null, "")
    else ScanStep(ScanAll(steps[..|steps| - 1], customer), steps[|steps| - 1], customer)
  }

  /** One pass over the history steps, pairing an answer with the call just before it. */
  method PaymentHistorySeenByTheAgent(entries: seq<Entry>, customer: Option<string>) returns (found: seq<Json>)
    requires Grammar(entries)
    ensures customer.None? || customer == Some("") ==> found == []
    ensures customer.Some? && customer != Some("") ==> found == LastHistory(entries, customer.value)
  {
    found := [];
    if customer.None? || customer.value == "" {
      return;
    }
    var steps := Lookups(entries);
    var about: Json, id := Null, "";
    var i := 0;
    while i < |steps|
      invariant i <= |steps| && Scan(found, about, id) == ScanAll(steps[..i], customer.value)
    {
      var step := steps[i];
      assert steps[..i + 1][..i] == steps[..i];
      i := i + 1;
      if step.Called? {
        about, id := GetOrNull(step.arguments, "customer_id"), step.id;
        continue;
      }
      if !step.Answered? || step.isError {
        about, id := Null, "";
        continue;
      }
      if id != "" && step.id != "" && id != step.id {
        about, id := Null, "";
        continue;
      }
      if about == Str(customer.value) {
        var history := HistoryOf(step.result);
        if history.Some? {
          found := history.value;
        }
      }
      about, id := Null, "";
    }
    assert steps[..i] == steps;
    ScanIsLastHistory(entries, customer.value);
  }

  /** What the scan holds after a prefix of a grammatical transcript. */
  predicate ScanAgrees(entries: seq<Entry>, s: Scan, customer: string) {
    && s.found == LastHistory(entries, customer)
    && if entries != [] && IsLookup(entries[|entries| - 1].record) && entries[|entries| - 1].record.Called?
       then s.about == GetOrNull(entries[|entries| - 1].record.arguments, "customer_id") && s.id == entries[|entries| - 1].record.id
       else s.about == Null && s.id == ""
  }

  lemma {:induction false} ScanIsLastHistory(entries: seq<Entry>, customer: string)
    requires Grammar(entries)
    ensures ScanAgrees(entries, ScanAll(Lookups(entries), customer), customer)
    decreases |entries|
  {
    if entries != [] {
      var n := |entries| - 1;
      var init, last := entries[..n], entries[n].record;
      PrefixGrammar(entries, n);
      ScanIsLastHistory(init, customer);
      var before := Lookups(init);
      if IsLookup(last) {
        assert (before + [last])[..|before|] == before;
        OneLookup(entries, ScanAll(before, customer), customer);
      } else {
        assert before + [] == before;
        OtherStep(entries, customer);
      }
    }
  }

  lemma PrefixGrammar(entries: seq<Entry>, n: nat)
    requires Grammar(entries) && n <= |entries|
    ensures Grammar(entries[..n])
  {
  }

  lemma OneLookup(entries: seq<Entry>, s: Scan, customer: string)
    requires Grammar(entries) && entries != [] && IsLookup(entries[|entries| - 1].record)
    requires ScanAgrees(entries[..|entries| - 1], s, customer)
    ensures ScanAgrees(entries, ScanStep(s, entries[|entries| - 1].record, customer), customer)
  {
    var n := |entries| - 1;
    var last := entries[n].record;
    if last.Answered? {
      assert Answers(last, entries[n - 1].record);
      assert entries[..n][n - 1] == entries[n - 1];
    }
  }

  /** A step of another kind follows a lookup only once it has been answered. */
  lemma OtherStep(entries: seq<Entry>, customer: string)
    requires Grammar(entries) && entries != [] && !IsLookup(entries[|entries| - 1].record)
    ensures var n := |entries| - 1;
            && !SawHistory(entries, customer, n)
            && (n > 0 && entries[n - 1].record.Called? ==> !IsLookup(entries[n - 1].record))
  {
    var n := |entries| - 1;
    if n > 0 && entries[n - 1].record.Called? {
      assert entries[n].record.Answered?;
    }
  }
}
