/** shared/audit.py `append` and shared/db.py `run_in_transaction`: one log, many writers.

    A writer reads the tail and inserts on top of it; anybody may commit in between. What
    keeps the log one chain is the table's constraints: the id, the previous hash and the
    hash of a row are each unique. */
module AuditLog {
  import opened Prelude
  import opened CanonicalJson
  import opened CanonicalOrder
  import opened AuditChain

  /** What a caller asks to have recorded, with the clock's reading when it was. */
  datatype Fact = Fact(ts: string, actor: string, event: string, subjectType: string, subjectId: string, detail: Json)

  /** `tail`: the row with the highest id. */
  function Tail(rows: seq<Row>): Option<Row> {
    if rows == [] then None else Some(rows[|rows| - 1])
  }

  /** The row `append` builds on a tail it has read, stale or not. */
  function NextRow(sha: string -> string, tail: Option<Row>, fact: Fact): Row {
    var id := if tail.None? then 1 else tail.value.id + 1;
    var prev := if tail.None? then GENESIS_HASH else tail.value.hash;
    var draft := Row(id, fact.ts, fact.actor, fact.event, fact.subjectType, fact.subjectId,
                     OrEmpty(fact.detail), prev, "");
    draft.(hash := HashPayload(sha, Content(draft, draft.detail)))
  }

  /** The constraints of the table, asked of one more row. */
  predicate Accepts(rows: seq<Row>, row: Row) {
    forall r | r in rows :: r.id != row.id && r.prevHash != row.prevHash && r.hash != row.hash
  }

  /** The rows of a unit of work, each built on the one before. */
  function RowsOf(sha: string -> string, tail: Option<Row>, facts: seq<Fact>): (rows: seq<Row>)
    ensures |rows| == |facts|
    decreases |facts|
  {
    if facts == [] then []
    else
      var row := NextRow(sha, tail, facts[0]);
      [row] + RowsOf(sha, Some(row), facts[1..])
  }

  /** What a row says happened. */
  function FactOf(row: Row): Fact {
    Fact(row.ts, row.actor, row.event, row.subjectType, row.subjectId, row.detail)
  }

  /** A fact as `append` stores it: no detail is an empty one. */
  function Stored(fact: Fact): Fact {
    fact.(detail := OrEmpty(fact.detail))
  }

  /** The rows of a unit say what the caller asked to have recorded, in that order. */
  lemma {:induction false} RowsCarryFacts(sha: string -> string, tail: Option<Row>, facts: seq<Fact>, k: nat)
    requires k < |facts|
    ensures FactOf(RowsOf(sha, tail, facts)[k]) == Stored(facts[k])
    decreases |facts|
  {
    var row := NextRow(sha, tail, facts[0]);
    if k > 0 {
      RowsCarryFacts(sha, Some(row), facts[1..], k - 1);
      assert RowsOf(sha, tail, facts)[k] == RowsOf(sha, Some(row), facts[1..])[k - 1];
    }
  }

  predicate AcceptsAll(rows: seq<Row>, added: seq<Row>) {
    forall k | 0 <= k < |added| :: Accepts(rows + added[..k], added[k])
  }

  // ---- one row on a current tail -----------------------------------------------------------

  lemma NextRowFits(sha: string -> string, rows: seq<Row>, fact: Fact)
    requires Intact(sha, rows)
    ensures Intact(sha, rows + [NextRow(sha, Tail(rows), fact)])
  {
    var row := NextRow(sha, Tail(rows), fact);
    var grown := rows + [row];
    assert grown[..|rows|] == rows;
    PrefixIntact(sha, grown, |rows|);
    if rows != [] { assert Fault(sha, rows, |rows| - 1).None?; }
    assert RowHash(sha, row) == row.hash by { OrEmptyTwice(fact.detail); }
  }

  lemma OrEmptyTwice(detail: Json)
    ensures OrEmpty(OrEmpty(detail)) == OrEmpty(detail)
  {
  }

  lemma {:induction false} RowsFit(sha: string -> string, rows: seq<Row>, facts: seq<Fact>)
    requires Intact(sha, rows)
    ensures Intact(sha, rows + RowsOf(sha, Tail(rows), facts))
    decreases |facts|
  {
    if facts == [] {
      assert rows + [] == rows;
    } else {
      var row := NextRow(sha, Tail(rows), facts[0]);
      NextRowFits(sha, rows, facts[0]);
      assert Tail(rows + [row]) == Some(row);
      RowsFit(sha, rows + [row], facts[1..]);
      assert rows + RowsOf(sha, Tail(rows), facts) == rows + [row] + RowsOf(sha, Some(row), facts[1..]);
    }
  }

  // ---- a stale tail ---------------------------------------------------------------------------

  /** A tail that was current once: nothing, or some row of the log. */
  predicate OnceTail(rows: seq<Row>, tail: Option<Row>) {
    tail.None? || exists k | 0 <= k < |rows| :: tail == Some(rows[k])
  }

  /** A row built on a stale tail repeats both an id and a previous hash: either constraint
      alone refuses it. */
  lemma StaleRowCollides(sha: string -> string, rows: seq<Row>, tail: Option<Row>, fact: Fact) returns (k: nat)
    requires Intact(sha, rows) && OnceTail(rows, tail) && tail != Tail(rows)
    ensures k < |rows|
    ensures rows[k].id == NextRow(sha, tail, fact).id && rows[k].prevHash == NextRow(sha, tail, fact).prevHash
  {
    if tail.None? {
      k := 0;
    } else {
      var j :| 0 <= j < |rows| && tail == Some(rows[j]);
      k := j + 1;
      assert Fault(sha, rows, j).None?;
      assert rows[..k][k - 1] == rows[j];
    }
    assert Fault(sha, rows, k).None?;
  }

  /** No text hashes to the genesis placeholder. */
  ghost predicate NeverGenesis(sha: string -> string) {
    forall x :: PREFIX + sha(x) != GENESIS_HASH
  }

  lemma NotGenesis(sha: string -> string, rows: seq<Row>, k: nat)
    requires NeverGenesis(sha) && Intact(sha, rows) && k < |rows|
    ensures rows[k].hash != GENESIS_HASH
  {
    assert Fault(sha, rows, k).None?;
    var x := CanonicalText(Content(rows[k], OrEmpty(rows[k].detail)));
    assert rows[k].hash == PREFIX + sha(x);
  }

  /** The last row of an intact log collides with no row before it. */
  lemma LastRowDiffers(sha: string -> string, rows: seq<Row>, k: nat)
    requires Injective(sha) && NeverGenesis(sha) && Intact(sha, rows) && Readable(rows) && k < |rows| - 1
    ensures var last := rows[|rows| - 1];
            rows[k].id != last.id && rows[k].prevHash != last.prevHash && rows[k].hash != last.hash
  {
    var n := |rows| - 1;
    LinkAt(sha, rows, k);
    LinkAt(sha, rows, n);
    HashesDiffer(sha, rows, k, n);
    if k > 0 { HashesDiffer(sha, rows, k - 1, n - 1); } else { NotGenesis(sha, rows, n - 1); }
  }

  lemma LinkAt(sha: string -> string, rows: seq<Row>, k: nat)
    requires Intact(sha, rows) && k < |rows|
    ensures rows[k].id == k + 1
    ensures rows[k].prevHash == if k == 0 then GENESIS_HASH else rows[k - 1].hash
  {
    assert Fault(sha, rows, k).None?;
    if k > 0 { assert rows[..k][k - 1] == rows[k - 1]; }
  }

  /** On a current tail nothing collides, if hashes do not. */
  lemma CurrentRowAccepted(sha: string -> string, rows: seq<Row>, fact: Fact)
    requires Injective(sha) && NeverGenesis(sha) && Intact(sha, rows) && Readable(rows) && WellFormed(fact.detail)
    ensures Accepts(rows, NextRow(sha, Tail(rows), fact))
  {
    var row := NextRow(sha, Tail(rows), fact);
    var grown := rows + [row];
    NextRowFits(sha, rows, fact);
    assert Readable(grown);
    forall r | r in rows ensures r.id != row.id && r.prevHash != row.prevHash && r.hash != row.hash {
      var k :| 0 <= k < |rows| && rows[k] == r;
      assert grown[k] == r && grown[|rows|] == row;
      LastRowDiffers(sha, grown, k);
    }
  }

  lemma {:induction false} CurrentUnitAccepted(sha: string -> string, rows: seq<Row>, facts: seq<Fact>)
    requires Injective(sha) && NeverGenesis(sha) && Intact(sha, rows) && Readable(rows)
    requires forall fact | fact in facts :: WellFormed(fact.detail)
    ensures AcceptsAll(rows, RowsOf(sha, Tail(rows), facts))
    decreases |facts|
  {
    if facts != [] {
      var row := NextRow(sha, Tail(rows), facts[0]);
      var added, rest := RowsOf(sha, Tail(rows), facts), RowsOf(sha, Some(row), facts[1..]);
      NextRowFits(sha, rows, facts[0]);
      CurrentRowAccepted(sha, rows, facts[0]);
      assert facts[0] in facts && WellFormed(row.detail);
      CurrentUnitAccepted(sha, rows + [row], facts[1..]);
      assert Tail(rows + [row]) == Some(row);
      AcceptsOneMore(rows, row, rest);
    }
  }

  lemma AcceptsOneMore(rows: seq<Row>, row: Row, rest: seq<Row>)
    requires Accepts(rows, row) && AcceptsAll(rows + [row], rest)
    ensures AcceptsAll(rows, [row] + rest)
  {
    var added := [row] + rest;
    forall k | 0 <= k < |added| ensures Accepts(rows + added[..k], added[k]) {
      if k == 0 {
        assert rows + added[..0] == rows;
      } else {
        assert rows + added[..k] == rows + [row] + rest[..k - 1];
      }
    }
  }

  // ---- any number of writers ------------------------------------------------------------------

  datatype Table = Table(rows: seq<Row>, tails: map<nat, Option<Row>>)

  datatype Move =
    | ReadTail(writer: nat)
    | Commit(writer: nat, facts: seq<Fact>)   // built on whatever tail the writer last read

  predicate CanMove(t: Table, m: Move) {
    m.Commit? ==> m.writer in t.tails
  }

  function Moved(sha: string -> string, t: Table, m: Move): Table
    requires CanMove(t, m)
  {
    match m
    case ReadTail(writer) => t.(tails := t.tails[writer := Tail(t.rows)])
    case Commit(writer, facts) =>
      var added := RowsOf(sha, t.tails[writer], facts);
      if AcceptsAll(t.rows, added) then t.(rows := t.rows + added) else t
  }

  function Play(sha: string -> string, moves: seq<Move>): Option<Table> {
    if moves == [] then Some(Table([], map[]))
    else
      var last := |moves| - 1;
      match Play(sha, moves[..last])
      case None => None
      case Some(t) => if CanMove(t, moves[last]) then Some(Moved(sha, t, moves[last])) else None
  }

  predicate OneChain(sha: string -> string, t: Table) {
    Intact(sha, t.rows) && forall w | w in t.tails :: OnceTail(t.rows, t.tails[w])
  }

  lemma OnceTailStays(rows: seq<Row>, added: seq<Row>, tail: Option<Row>)
    requires OnceTail(rows, tail)
    ensures OnceTail(rows + added, tail)
  {
    if tail.Some? {
      var k :| 0 <= k < |rows| && tail == Some(rows[k]);
      assert (rows + added)[k] == rows[k];
    }
  }

  /** A unit of work with something to record is accepted only on a current tail. */
  lemma StaleUnitRefused(sha: string -> string, rows: seq<Row>, tail: Option<Row>, facts: seq<Fact>)
    requires Intact(sha, rows) && OnceTail(rows, tail) && tail != Tail(rows) && facts != []
    ensures !AcceptsAll(rows, RowsOf(sha, tail, facts))
  {
    var added := RowsOf(sha, tail, facts);
    var k := StaleRowCollides(sha, rows, tail, facts[0]);
    assert added[0] == NextRow(sha, tail, facts[0]) && rows + added[..0] == rows;
    assert rows[k] in rows && !Accepts(rows, added[0]);
    assert !Accepts(rows + added[..0], added[0]);
  }

  lemma MoveKeepsOneChain(sha: string -> string, t: Table, m: Move)
    requires OneChain(sha, t) && CanMove(t, m)
    ensures OneChain(sha, Moved(sha, t, m))
  {
    if m.Commit? {
      var tail := t.tails[m.writer];
      var added := RowsOf(sha, tail, m.facts);
      if AcceptsAll(t.rows, added) {
        if m.facts == [] {
          assert t.rows + added == t.rows;
        } else {
          if tail != Tail(t.rows) { StaleUnitRefused(sha, t.rows, tail, m.facts); }
          RowsFit(sha, t.rows, m.facts);
        }
        forall w | w in t.tails ensures OnceTail(t.rows + added, t.tails[w]) {
          OnceTailStays(t.rows, added, t.tails[w]);
        }
      }
    } else if t.rows != [] {
      assert Tail(t.rows) == Some(t.rows[|t.rows| - 1]);
    }
  }

  /** No fork: however many writers, however stale what they read, the table is one intact
      chain at the end of every play, hence at every moment of it. */
  lemma {:induction false} NoFork(sha: string -> string, moves: seq<Move>)
    requires Play(sha, moves).Some?
    ensures OneChain(sha, Play(sha, moves).value)
    decreases |moves|
  {
    if moves != [] {
      var last := |moves| - 1;
      NoFork(sha, moves[..last]);
      MoveKeepsOneChain(sha, Play(sha, moves[..last]).value, moves[last]);
    }
  }

  /** A unit of work is committed exactly when the tail it was built on is still the tail. */
  lemma CommitsExactlyOnCurrentTail(sha: string -> string, moves: seq<Move>, writer: nat, facts: seq<Fact>)
    requires Injective(sha) && NeverGenesis(sha)
    requires Play(sha, moves).Some? && facts != [] && writer in Play(sha, moves).value.tails
    requires Readable(Play(sha, moves).value.rows) && forall fact | fact in facts :: WellFormed(fact.detail)
    ensures var t := Play(sha, moves).value;
            Moved(sha, t, Commit(writer, facts)) != t <==> t.tails[writer] == Tail(t.rows)
  {
    NoFork(sha, moves);
    var t := Play(sha, moves).value;
    var added := RowsOf(sha, t.tails[writer], facts);
    if t.tails[writer] == Tail(t.rows) {
      CurrentUnitAccepted(sha, t.rows, facts);
      assert |t.rows + added| > |t.rows|;
    } else {
      StaleUnitRefused(sha, t.rows, t.tails[writer], facts);
    }
  }

  /** A refused commit changes nothing, an accepted one appends its own rows in order and was
      built on the current tail. */
  lemma CommitAppendsOrNothing(sha: string -> string, moves: seq<Move>, writer: nat, facts: seq<Fact>)
    requires Play(sha, moves).Some? && facts != [] && writer in Play(sha, moves).value.tails
    ensures var t := Play(sha, moves).value;
            var t' := Moved(sha, t, Commit(writer, facts));
            || t' == t
            || (t.tails[writer] == Tail(t.rows) && t'.rows == t.rows + RowsOf(sha, Tail(t.rows), facts))
  {
    NoFork(sha, moves);
    var t := Play(sha, moves).value;
    if t.tails[writer] != Tail(t.rows) { StaleUnitRefused(sha, t.rows, t.tails[writer], facts); }
  }
}
