/** The walk through a READ result spelled out: which values in it are invoices, how deep they may
    lie, and in which order they are met. */
module WalkForm {
  import opened CanonicalJson
  import opened Registry

  /** What lies directly inside a value: the items of a list, or the values of a dict. */
  function Inside(v: Json): seq<Json> {
    match v
    case Arr(items) => items
    case Obj(ms) => seq(|ms|, i requires 0 <= i < |ms| => ms[i].value)
    case _ => []
  }

  /** `row` lies `n` levels inside `v`. */
  predicate Within(v: Json, row: Json, n: nat) {
    if n == 0 then row == v else exists i | 0 <= i < |Inside(v)| :: Within(Inside(v)[i], row, n - 1)
  }

  /** A dict with a text for an id, an amount and a number of days. */
  predicate IsInvoice(row: Json) {
    && row.Obj? && Field(row, "id").Some? && Field(row, "id").value.Str?
    && Field(row, "amount_due").Some? && Field(row, "days_overdue").Some?
  }

  lemma InvoiceIs(row: Json)
    ensures LooksLikeAnInvoice(row) <==> IsInvoice(row)
  {
  }

  /** The rows found in one value after another. */
  function WalkEach(vs: seq<Json>, depth: nat): seq<Json> {
    if vs == [] then [] else Walk(vs[0], depth) + WalkEach(vs[1..], depth)
  }

  lemma {:induction false} ItemsInOrder(xs: seq<Json>, depth: nat)
    ensures WalkItems(xs, depth) == WalkEach(xs, depth)
  {
    if xs != [] { ItemsInOrder(xs[1..], depth); }
  }

  lemma {:induction false} ValuesInOrder(ms: seq<Member>, depth: nat)
    ensures WalkMembers(ms, depth) == WalkEach(Inside(Obj(ms)), depth)
  {
    if ms != [] {
      ValuesInOrder(ms[1..], depth);
      assert Inside(Obj(ms))[1..] == Inside(Obj(ms[1..]));
    }
  }

  /** The outer value comes before what lies inside it, and that in its order; deeper than four
      levels nothing is looked at. */
  lemma OuterFirst(v: Json, depth: nat)
    ensures Walk(v, depth)
         == if depth > 4 then [] else (if IsInvoice(v) then [v] else []) + WalkEach(Inside(v), depth + 1)
  {
    InvoiceIs(v);
    match v
    case Arr(items) => ItemsInOrder(items, depth + 1);
    case Obj(ms) => ValuesInOrder(ms, depth + 1);
    case _ =>
  }

  lemma {:induction false} InEach(vs: seq<Json>, depth: nat, row: Json)
    ensures row in WalkEach(vs, depth) <==> exists i | 0 <= i < |vs| :: row in Walk(vs[i], depth)
  {
    if vs != [] {
      InEach(vs[1..], depth, row);
      if i :| 0 <= i < |vs| && row in Walk(vs[i], depth) {
        if i > 0 { assert vs[1..][i - 1] == vs[i]; }
      }
    }
  }

  /** `row` lies in `v` so that, counting from `depth`, it is at most four levels deep. */
  ghost predicate Reaches(v: Json, row: Json, depth: nat) {
    exists n: nat :: n + depth <= 4 && Within(v, row, n)
  }

  lemma ReachesInside(v: Json, row: Json, depth: nat, i: nat)
    requires i < |Inside(v)| && Reaches(Inside(v)[i], row, depth + 1)
    ensures Reaches(v, row, depth)
  {
    var n: nat :| n + depth + 1 <= 4 && Within(Inside(v)[i], row, n);
    assert Within(v, row, n + 1);
  }

  lemma LevelByLevel(v: Json, row: Json, depth: nat)
    requires depth <= 4
    ensures Reaches(v, row, depth) <==> row == v || exists i | 0 <= i < |Inside(v)| :: Reaches(Inside(v)[i], row, depth + 1)
  {
    if Reaches(v, row, depth) {
      var n: nat :| n + depth <= 4 && Within(v, row, n);
      if n > 0 {
        var i :| 0 <= i < |Inside(v)| && Within(Inside(v)[i], row, n - 1);
        assert Reaches(Inside(v)[i], row, depth + 1);
      }
    } else if row == v {
      assert Within(v, row, 0);
    } else if i :| 0 <= i < |Inside(v)| && Reaches(Inside(v)[i], row, depth + 1) {
      ReachesInside(v, row, depth, i);
    }
  }

  /** A value is harvested exactly when it is an invoice and lies at most four levels deep. */
  lemma {:induction false} HarvestedExactly(v: Json, row: Json, depth: nat)
    ensures row in Walk(v, depth) <==> IsInvoice(row) && Reaches(v, row, depth)
    decreases 5 - depth
  {
    OuterFirst(v, depth);
    if depth <= 4 {
      InEach(Inside(v), depth + 1, row);
      forall i | 0 <= i < |Inside(v)|
        ensures row in Walk(Inside(v)[i], depth + 1) <==> IsInvoice(row) && Reaches(Inside(v)[i], row, depth + 1)
      {
        HarvestedExactly(Inside(v)[i], row, depth + 1);
      }
      LevelByLevel(v, row, depth);
    }
  }
}
