/** app/agent/tools/registry.py: the facts of every invoice the agent has looked at. */
module Registry {
  import opened Prelude
  import opened CanonicalJson

  const READ_TOOLS := {"list_overdue_invoices", "get_invoice", "get_customer", "get_payment_history"}
  const DRAFT_TOOL := "propose_collection_letter"

  /** `v.get(key)`: nothing is None. */
  function GetOrNull(v: Json, key: string): Json {
    Field(v, key).GetOr(Null)
  }

  /** `letter_facts`: the one translation from Stripe's names to the letter's. */
  function LetterFacts(row: Json): Json {
    Obj([Member("invoice_id", GetOrNull(row, "id")),
         Member("invoice_number", GetOrNull(row, "number")),
         Member("customer_id", GetOrNull(row, "customer_id")),
         Member("customer_name", GetOrNull(row, "customer_name")),
         Member("customer_email", GetOrNull(row, "customer_email")),
         Member("amount_due", GetOrNull(row, "amount_due")),
         Member("amount_display", GetOrNull(row, "amount_due_display")),
         Member("currency", GetOrNull(row, "currency")),
         Member("due_date", GetOrNull(row, "due_date")),
         Member("days_overdue", GetOrNull(row, "days_overdue")),
         Member("hosted_invoice_url", GetOrNull(row, "hosted_invoice_url")),
         Member("deliverable", Field(row, "deliverable").GetOr(Bool(false))),
         Member("not_deliverable_reason", GetOrNull(row, "not_deliverable_reason"))])
  }

  /** `_looks_like_an_invoice`. */
  predicate LooksLikeAnInvoice(v: Json) {
    && v.Obj? && GetOrNull(v, "id").Str?
    && Field(v, "amount_due").Some? && Field(v, "days_overdue").Some?
  }

  /** `_walk`: outer before inner, in order, down to depth 4. */
  function Walk(v: Json, depth: nat): (found: seq<Json>)
    ensures forall row | row in found :: LooksLikeAnInvoice(row)
    decreases v, 1
  {
    if depth > 4 then []
    else
      (if LooksLikeAnInvoice(v) then [v] else [])
      + match v
        case Obj(ms) => WalkMembers(ms, depth + 1)
        case Arr(xs) => WalkItems(xs, depth + 1)
        case _ => []
  }

  function WalkMembers(ms: seq<Member>, depth: nat): (found: seq<Json>)
    ensures forall row | row in found :: LooksLikeAnInvoice(row)
    decreases ms, 0
  {
    if ms == [] then [] else Walk(ms[0].value, depth) + WalkMembers(ms[1..], depth)
  }

  function WalkItems(xs: seq<Json>, depth: nat): (found: seq<Json>)
    ensures forall row | row in found :: LooksLikeAnInvoice(row)
    decreases xs, 0
  {
    if xs == [] then [] else Walk(xs[0], depth) + WalkItems(xs[1..], depth)
  }

  function Nested(row: Json, n: nat): Json {
    if n == 0 then row else Arr([Nested(row, n - 1)])
  }

  lemma WalkOneItem(v: Json, depth: nat)
    ensures WalkItems([v], depth) == Walk(v, depth)
  {
    assert [v][1..] == [];
    assert WalkItems([], depth) == [];
  }

  lemma WalkInto(v: Json, depth: nat)
    ensures Walk(Arr([v]), depth) == if depth > 4 then [] else Walk(v, depth + 1)
  {
    if depth <= 4 { WalkOneItem(v, depth + 1); }
  }

  lemma WalkNestedOnce(row: Json, n: nat, depth: nat, found: seq<Json>)
    requires n > 0 && found == Walk(Nested(row, n - 1), depth + 1)
    ensures Walk(Nested(row, n), depth) == if depth > 4 then [] else found
  {
    WalkInto(Nested(row, n - 1), depth);
  }

  lemma TooDeep(v: Json, depth: nat)
    requires depth > 4
    ensures Walk(v, depth) == []
  {
  }

  /** Each list costs one level. */
  lemma {:induction false} WalkNested(row: Json, n: nat, depth: nat)
    ensures Walk(Nested(row, n), depth) == Walk(row, n + depth)
    decreases n
  {
    if depth > 4 {
      TooDeep(Nested(row, n), depth);
      TooDeep(row, n + depth);
    } else if n > 0 {
      WalkNested(row, n - 1, depth + 1);
      WalkNestedOnce(row, n, depth, Walk(row, n + depth));
    }
  }

  lemma WalkFindsRow(row: Json, depth: nat)
    requires LooksLikeAnInvoice(row)
    ensures row in Walk(row, depth) <==> depth <= 4
  {
    if depth <= 4 { assert Walk(row, depth)[0] == row; }
  }

  /** How far the walk reaches: a row inside `n` lists is found exactly when `n` is at most 4. */
  lemma WalkDepth(row: Json, n: nat, depth: nat)
    requires LooksLikeAnInvoice(row)
    ensures row in Walk(Nested(row, n), depth) <==> n + depth <= 4
  {
    WalkNested(row, n, depth);
    WalkFindsRow(row, n + depth);
  }

  /** The invoice a harvested row is about; a row with an empty id is about none. */
  function IdOf(row: Json): string {
    match GetOrNull(row, "id")
    case Str(s) => s
    case _ => ""
  }

  type Facts = map<string, Json>

  /** `_harvest` over the rows found. */
  function Harvest(facts: Facts, rows: seq<Json>): Facts {
    if rows == [] then facts
    else
      var before, row := Harvest(facts, rows[..|rows| - 1]), rows[|rows| - 1];
      if IdOf(row) == "" then before else before[IdOf(row) := LetterFacts(row)]
  }

  lemma {:induction false} OtherRowsLeaveIt(facts: Facts, rows: seq<Json>, id: string)
    requires forall k | 0 <= k < |rows| :: IdOf(rows[k]) != id
    ensures id in Harvest(facts, rows) <==> id in facts
    ensures id in facts ==> Harvest(facts, rows)[id] == facts[id]
    decreases |rows|
  {
    if rows != [] { OtherRowsLeaveIt(facts, rows[..|rows| - 1], id); }
  }

  /** Row `k` is the last about the invoice. */
  predicate LastAbout(rows: seq<Json>, id: string, k: nat) {
    && k < |rows| && id != "" && IdOf(rows[k]) == id
    && forall j | k < j < |rows| :: IdOf(rows[j]) != id
  }

  /** The last row about an invoice is the one whose facts are kept. */
  lemma {:induction false} LastRowWins(facts: Facts, rows: seq<Json>, id: string, k: nat)
    requires LastAbout(rows, id, k)
    ensures id in Harvest(facts, rows) && Harvest(facts, rows)[id] == LetterFacts(rows[k])
    decreases |rows|
  {
    var last := |rows| - 1;
    HarvestOne(facts, rows);
    if k < last {
      LastAboutPrefix(rows, id, k);
      LastRowWins(facts, rows[..last], id, k);
      assert IdOf(rows[last]) != id && rows[..last][k] == rows[k];
    }
  }

  lemma LastAboutPrefix(rows: seq<Json>, id: string, k: nat)
    requires LastAbout(rows, id, k) && k < |rows| - 1
    ensures LastAbout(rows[..|rows| - 1], id, k)
  {
  }

  lemma HarvestOne(facts: Facts, rows: seq<Json>)
    requires rows != []
    ensures var before, row := Harvest(facts, rows[..|rows| - 1]), rows[|rows| - 1];
            Harvest(facts, rows) == if IdOf(row) == "" then before else before[IdOf(row) := LetterFacts(row)]
  {
  }

  lemma HarvestUpTo(facts: Facts, rows: seq<Json>, i: nat)
    requires i < |rows|
    ensures var before, row := Harvest(facts, rows[..i]), rows[i];
            Harvest(facts, rows[..i + 1]) == if IdOf(row) == "" then before else before[IdOf(row) := LetterFacts(row)]
  {
    HarvestOne(facts, rows[..i + 1]);
    assert rows[..i + 1][..i] == rows[..i];
  }

  class ToolRegistry {
    var factsByInvoice: Facts

    constructor ()
      ensures factsByInvoice == map[]
    {
      factsByInvoice := map[];
    }

    /** `_harvest`. */
    method HarvestFrom(result: Json)
      modifies this
      ensures factsByInvoice == Harvest(old(factsByInvoice), Walk(result, 0))
    {
      var rows := Walk(result, 0);
      var i := 0;
      while i < |rows|
        invariant i <= |rows| && factsByInvoice == Harvest(old(factsByInvoice), rows[..i])
      {
        HarvestUpTo(old(factsByInvoice), rows, i);
        var id := IdOf(rows[i]);
        if id != "" {
          factsByInvoice := factsByInvoice[id := LetterFacts(rows[i])];
        }
        i := i + 1;
      }
      assert rows[..i] == rows;
    }
  }
}
