/** The log spelled out: what a row's hash is taken of, what makes a row wrong, what the next row is,
    and when a retried unit of work stops. */
module ChainForm {
  import opened Prelude
  import opened CanonicalJson
  import CanonicalOrder
  import opened CanonicalForm
  import opened AuditChain
  import opened AuditLog
  import opened WriteConflict

  // ---- one row ---------------------------------------------------------------------------------------

  predicate IsFalsy(v: Json) {
    v == Null || v == Bool(false) || v == Num(0) || v == Str("") || v == Arr([]) || v == Obj([])
  }

  /** The hash of a row is that of the canonical text of these eight fields; a falsy detail counts
      as an empty one. */
  lemma HashesAsSaid(sha: string -> string, row: Row) returns (text: string)
    requires WellFormed(row.detail)
    ensures IsText(false,
                   Obj([Member("id", Num(row.id)), Member("ts", Str(row.ts)), Member("actor", Str(row.actor)),
                        Member("event", Str(row.event)), Member("subject_type", Str(row.subjectType)),
                        Member("subject_id", Str(row.subjectId)), Member("prev_hash", Str(row.prevHash)),
                        Member("detail", if IsFalsy(row.detail) then Obj([]) else row.detail)]),
                   text)
    ensures RowHash(sha, row) == "sha256:" + sha(text)
  {
    var detail := if IsFalsy(row.detail) then Obj([]) else row.detail;
    assert OrEmpty(row.detail) == detail;
    var fields := Fields(row, detail);
    text := CanonicalText(Content(row, detail));
    FieldsWellFormed(row, detail);
    ContentWellFormed(row, detail);
    SameFields(row, detail);
    CanonicalOrder.CanonicalTextIdentifies(Content(row, detail), Obj(fields));
    Prints(false, Obj(fields));
  }

  function Fields(row: Row, detail: Json): seq<Member> {
    [Member("id", Num(row.id)), Member("ts", Str(row.ts)), Member("actor", Str(row.actor)),
     Member("event", Str(row.event)), Member("subject_type", Str(row.subjectType)),
     Member("subject_id", Str(row.subjectId)), Member("prev_hash", Str(row.prevHash)), Member("detail", detail)]
  }

  lemma FieldsKeys(row: Row, detail: Json)
    ensures DistinctKeys(Fields(row, detail))
  {
  }

  lemma FieldsWellFormed(row: Row, detail: Json)
    requires WellFormed(detail)
    ensures WellFormed(Obj(Fields(row, detail)))
  {
    FieldsKeys(row, detail);
  }

  lemma SameFields(row: Row, detail: Json)
    requires WellFormed(detail)
    ensures CanonicalOrder.SameValue(Content(row, detail), Obj(Fields(row, detail)))
  {
    var ms, ns := Content(row, detail).members, Fields(row, detail);
    CanonicalOrder.CanonicalTextIdentifies(detail, detail);
    forall m | m in ms ensures CanonicalOrder.HasSameMember(ns, m) {
      var i :| 0 <= i < 8 && ms[i] == m;
      var j := if i == 6 then 7 else if i == 7 then 6 else i;
      assert ns[j] in ns && ns[j] == m;
    }
    forall n | n in ns ensures CanonicalOrder.HasKey(ms, n.key) {
      var j :| 0 <= j < 8 && ns[j] == n;
      var i := if j == 6 then 7 else if j == 7 then 6 else j;
      assert ms[i] in ms && ms[i] == n;
    }
  }

  // ---- the chain ---------------------------------------------------------------------------------------

  /** The hash before row `k`. */
  function PreviousHash(rows: seq<Row>, k: nat): string
    requires k < |rows|
  {
    if k == 0 then "sha256:0000000000000000000000000000000000000000000000000000000000000000" else rows[k - 1].hash
  }

  /** What is wrong with a row: its number, else its link, else its content. */
  lemma FaultAsSaid(sha: string -> string, rows: seq<Row>, k: nat)
    requires k < |rows|
    ensures var row := rows[k];
            Fault(sha, rows, k)
            == if row.id != k + 1 then Some(WrongId)
               else if row.prevHash != PreviousHash(rows, k) then Some(WrongLink)
               else if row.hash != RowHash(sha, row) then Some(WrongContent)
               else None
  {
    if k > 0 { assert rows[..k][k - 1] == rows[k - 1]; }
  }

  /** A log is intact when its rows are numbered from 1, each naming the hash of the one before, and
      each hash is that of its row. */
  lemma IntactAsSaid(sha: string -> string, rows: seq<Row>)
    ensures Intact(sha, rows)
            <==> forall k | 0 <= k < |rows| ::
                   rows[k].id == k + 1 && rows[k].prevHash == PreviousHash(rows, k) && rows[k].hash == RowHash(sha, rows[k])
  {
    forall k | 0 <= k < |rows|
      ensures Fault(sha, rows, k).None?
              <==> rows[k].id == k + 1 && rows[k].prevHash == PreviousHash(rows, k) && rows[k].hash == RowHash(sha, rows[k])
    {
      FaultAsSaid(sha, rows, k);
    }
  }

  /** The row `append` builds on the tail it has read. */
  lemma NextRowAsSaid(sha: string -> string, tail: Option<Row>, fact: Fact)
    ensures var row := NextRow(sha, tail, fact);
            && row.id == (match tail case None => 1 case Some(last) => last.id + 1)
            && row.prevHash == (match tail
                                case None => "sha256:0000000000000000000000000000000000000000000000000000000000000000"
                                case Some(last) => last.hash)
            && row.ts == fact.ts && row.actor == fact.actor && row.event == fact.event
            && row.subjectType == fact.subjectType && row.subjectId == fact.subjectId
            && row.detail == (if IsFalsy(fact.detail) then Obj([]) else fact.detail)
            && row.hash == RowHash(sha, row)
  {
    OrEmptyTwice(fact.detail);
  }

  // ---- the retry -----------------------------------------------------------------------------------------

  /** An attempt that is worth another: the database was locked, or somebody committed first and the
      database blames the conflict on a hash. */
  predicate WorthAnother(weather: Weather, facts: seq<Fact>) {
    || weather.trouble.Locked?
    || (weather.trouble.Calm? && weather.overtaking != [] && facts != [] && !weather.namesTheId)
  }

  /** An attempt that goes through: nothing is in the way, or there is nothing to record. */
  predicate GoesThrough(weather: Weather, facts: seq<Fact>) {
    weather.trouble.Calm? && (weather.overtaking == [] || facts == [])
  }

  /** Every attempt but the last was worth another; the last went through when the unit is returned,
      and was neither when an error is raised; when the attempts run out, all were worth another. */
  lemma EndsAsSaid(sha: string -> string, before: seq<Row>, work: nat -> seq<Fact>, env: nat -> Weather, maxAttempts: nat,
                   outcome: Outcome, used: nat, after: seq<Row>)
    requires Ran(sha, before, work, env, maxAttempts, outcome, used, after) && NoCollisions(sha, before, work, env)
    ensures forall k: nat | k + 1 < used :: WorthAnother(env(k), work(k))
    ensures outcome == GaveUp <==> (forall k: nat | k < maxAttempts :: WorthAnother(env(k), work(k)))
    ensures outcome == Committed ==> used > 0 && GoesThrough(env(used - 1), work(used - 1))
    ensures outcome == Raised ==>
              used > 0 && !GoesThrough(env(used - 1), work(used - 1)) && !WorthAnother(env(used - 1), work(used - 1))
  {
    forall k: nat ensures FateOf(env(k), work(k)) == Retries <==> WorthAnother(env(k), work(k)) {
    }
    if outcome != GaveUp { assert !WorthAnother(env(used - 1), work(used - 1)); }
  }
}
