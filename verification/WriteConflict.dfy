/** shared/db.py `run_in_transaction`: a unit of work, retried until it commits or must not be. */
module WriteConflict {
  import opened Prelude
  import opened CanonicalJson
  import opened CanonicalOrder
  import opened AuditChain
  import opened AuditLog

  datatype Trouble = Calm | Locked | WorkFails

  /** What befalls one attempt: what others commit between its tail read and its insert, what
      else goes wrong, and whether the database names the id when several constraints fail. */
  datatype Weather = Weather(overtaking: seq<Fact>, trouble: Trouble, namesTheId: bool)

  datatype Outcome = Committed | Raised | GaveUp

  datatype Fate = Commits | Retries | Raises

  /** `is_retryable_write_conflict`: a locked database, or a conflict on a hash column. A conflict
      the database blames on the id is raised, like every other error. */
  function FateOf(weather: Weather, facts: seq<Fact>): Fate {
    match weather.trouble
    case WorkFails => Raises
    case Locked => Retries
    case Calm =>
      if weather.overtaking == [] || facts == [] then Commits
      else if weather.namesTheId then Raises else Retries
  }

  /** The log with a unit of work committed on its tail. */
  function Extended(sha: string -> string, rows: seq<Row>, facts: seq<Fact>): seq<Row> {
    rows + RowsOf(sha, Tail(rows), facts)
  }

  /** The log after what others commit during the first `n` attempts. */
  function Overtaken(sha: string -> string, rows: seq<Row>, env: nat -> Weather, n: nat): seq<Row> {
    if n == 0 then rows else Extended(sha, Overtaken(sha, rows, env, n - 1), env(n - 1).overtaking)
  }

  predicate ReadableFacts(facts: seq<Fact>) {
    forall fact | fact in facts :: WellFormed(fact.detail)
  }

  lemma {:induction false} RowsReadable(sha: string -> string, tail: Option<Row>, facts: seq<Fact>)
    requires ReadableFacts(facts)
    ensures Readable(RowsOf(sha, tail, facts))
    decreases |facts|
  {
    if facts != [] {
      assert facts[0] in facts;
      RowsReadable(sha, Some(NextRow(sha, tail, facts[0])), facts[1..]);
    }
  }

  /** The case without hash collisions, in which every attempt's fate is decided. */
  ghost predicate NoCollisions(sha: string -> string, rows: seq<Row>, work: nat -> seq<Fact>, env: nat -> Weather) {
    && Injective(sha) && NeverGenesis(sha) && Readable(rows)
    && forall k: nat :: ReadableFacts(work(k)) && ReadableFacts(env(k).overtaking)
  }

  /** What one attempt does to the log. */
  ghost predicate Tried(sha: string -> string, before: seq<Row>, weather: Weather, facts: seq<Fact>, fate: Fate, after: seq<Row>) {
    var others := Extended(sha, before, weather.overtaking);
    && Intact(sha, after)
    && after == (if fate == Commits then Extended(sha, others, facts) else others)
    && (Injective(sha) && NeverGenesis(sha) && Readable(others) && ReadableFacts(facts) ==> fate == FateOf(weather, facts))
  }

  /** What `run_in_transaction` does to the log: when it returns, the unit is in it exactly
      once, at the end and on top of everything committed meanwhile; when it raises, not a row
      of it is. Without hash collisions it stops at the first attempt that is not retried. */
  ghost predicate Ran(sha: string -> string, before: seq<Row>, work: nat -> seq<Fact>, env: nat -> Weather,
                      maxAttempts: nat, outcome: Outcome, used: nat, after: seq<Row>)
  {
    var others := Overtaken(sha, before, env, used);
    && used <= maxAttempts
    && (outcome == GaveUp ==> used == maxAttempts)
    && (outcome != GaveUp ==> used > 0)
    && after == (if outcome == Committed then Extended(sha, others, work(used - 1)) else others)
    && (NoCollisions(sha, before, work, env) ==>
          && AllRetry(work, env, if outcome == GaveUp then used else used - 1)
          && (outcome == Committed ==> FateOf(env(used - 1), work(used - 1)) == Commits)
          && (outcome == Raised ==> FateOf(env(used - 1), work(used - 1)) == Raises))
  }

  predicate AllRetry(work: nat -> seq<Fact>, env: nat -> Weather, n: nat) {
    forall k: nat | k < n :: FateOf(env(k), work(k)) == Retries
  }

  class LogTable {
    var rows: seq<Row>

    constructor ()
      ensures rows == []
    {
      rows := [];
    }

    /** `append` and `flush` of one row on a tail read earlier: inserted, or refused whole. */
    method Append(sha: string -> string, tail: Option<Row>, fact: Fact) returns (row: Row, ok: bool)
      modifies this
      ensures row == NextRow(sha, tail, fact)
      ensures ok == Accepts(old(rows), row)
      ensures ok <==> forall r | r in old(rows) :: r.id != row.id && r.prevHash != row.prevHash && r.hash != row.hash
      ensures rows == if ok then old(rows) + [row] else old(rows)
    {
      row := NextRow(sha, tail, fact);
      ok := forall r | r in rows :: r.id != row.id && r.prevHash != row.prevHash && r.hash != row.hash;
      if ok {
        rows := rows + [row];
      }
    }

    /** The appends of one unit of work, rolled back together when one is refused. */
    method Unit(sha: string -> string, tail: Option<Row>, facts: seq<Fact>) returns (ok: bool)
      modifies this
      ensures ok == AcceptsAll(old(rows), RowsOf(sha, tail, facts))
      ensures rows == if ok then old(rows) + RowsOf(sha, tail, facts) else old(rows)
    {
      var saved := rows;
      var last := tail;
      var i := 0;
      while i < |facts|
        invariant i <= |facts| && Partway(sha, saved, tail, facts, i, last, rows)
      {
        var row, added := Append(sha, last, facts[i]);
        UnitStep(sha, saved, tail, facts, i, last);
        if !added {
          rows := saved;
          return false;
        }
        last := Some(row);
        i := i + 1;
      }
      assert RowsOf(sha, tail, facts)[..i] == RowsOf(sha, tail, facts);
      return true;
    }

    /** One attempt: the tail is read, others may commit, then the work is tried. */
    method Try(sha: string -> string, facts: seq<Fact>, weather: Weather) returns (fate: Fate)
      requires Intact(sha, rows)
      modifies this
      ensures Tried(sha, old(rows), weather, facts, fate, rows)
    {
      var tail := Tail(rows);
      RowsFit(sha, rows, weather.overtaking);
      rows := rows + RowsOf(sha, tail, weather.overtaking);
      if weather.trouble == WorkFails {
        return Raises;
      }
      if weather.trouble == Locked {
        return Retries;
      }
      UnitFate(sha, old(rows), rows, weather, facts);
      RowsFit(sha, rows, facts);
      var ok := Unit(sha, tail, facts);
      if ok {
        return Commits;
      }
      return if weather.namesTheId then Raises else Retries;
    }

    /** `run_in_transaction`. */
    method RunInTransaction(sha: string -> string, work: nat -> seq<Fact>, env: nat -> Weather, maxAttempts: nat)
      returns (outcome: Outcome, ghost used: nat)
      requires Intact(sha, rows)
      modifies this
      ensures Ran(sha, old(rows), work, env, maxAttempts, outcome, used, rows) && Intact(sha, rows)
    {
      used := 0;
      var attempt := 0;
      while attempt < maxAttempts
        invariant attempt <= maxAttempts && used == attempt
        invariant Going(sha, old(rows), work, env, attempt, rows)
      {
        ghost var before := rows;
        var fate := Try(sha, work(attempt), env(attempt));
        OneAttempt(sha, old(rows), work, env, maxAttempts, attempt, before, fate, rows);
        used := attempt + 1;
        if fate == Commits {
          return Committed, used;
        }
        if fate == Raises {
          return Raised, used;
        }
        attempt := attempt + 1;
      }
      return GaveUp, used;
    }
  }

  /** `i` rows of a unit are in; `last` is the row the next one is built on. */
  ghost predicate Partway(sha: string -> string, saved: seq<Row>, tail: Option<Row>, facts: seq<Fact>, i: nat,
                          last: Option<Row>, rows: seq<Row>)
    requires i <= |facts|
  {
    var all := RowsOf(sha, tail, facts);
    && rows == saved + all[..i]
    && all[i..] == RowsOf(sha, last, facts[i..])
    && forall k | 0 <= k < i :: Accepts(saved + all[..k], all[k])
  }

  lemma UnitStep(sha: string -> string, saved: seq<Row>, tail: Option<Row>, facts: seq<Fact>, i: nat, last: Option<Row>)
    requires i < |facts| && Partway(sha, saved, tail, facts, i, last, saved + RowsOf(sha, tail, facts)[..i])
    ensures var all, row := RowsOf(sha, tail, facts), NextRow(sha, last, facts[i]);
            && row == all[i]
            && (!Accepts(saved + all[..i], row) ==> !AcceptsAll(saved, all))
            && (Accepts(saved + all[..i], row) ==>
                  Partway(sha, saved, tail, facts, i + 1, Some(row), saved + all[..i] + [row]))
  {
    var all, row := RowsOf(sha, tail, facts), NextRow(sha, last, facts[i]);
    assert all[i..][0] == row;
    assert facts[i..][1..] == facts[i + 1..] && all[i..][1..] == all[i + 1..];
    assert saved + all[..i] + [row] == saved + all[..i + 1];
  }

  /** Between two attempts nothing of the unit is in the log. */
  ghost predicate Going(sha: string -> string, first: seq<Row>, work: nat -> seq<Fact>, env: nat -> Weather, k: nat, rows: seq<Row>) {
    && Intact(sha, rows) && rows == Overtaken(sha, first, env, k)
    && (NoCollisions(sha, first, work, env) ==> Readable(rows) && AllRetry(work, env, k))
  }

  lemma AttemptFate(sha: string -> string, first: seq<Row>, work: nat -> seq<Fact>, env: nat -> Weather, k: nat,
                    rows: seq<Row>, fate: Fate, after: seq<Row>)
    requires Going(sha, first, work, env, k, rows) && Tried(sha, rows, env(k), work(k), fate, after)
    ensures NoCollisions(sha, first, work, env) ==>
              fate == FateOf(env(k), work(k)) && Readable(Extended(sha, rows, env(k).overtaking))
  {
    AttemptReadable(sha, first, work, env, k, rows);
  }

  lemma OneAttempt(sha: string -> string, first: seq<Row>, work: nat -> seq<Fact>, env: nat -> Weather,
                   maxAttempts: nat, k: nat, rows: seq<Row>, fate: Fate, after: seq<Row>)
    requires k < maxAttempts && Going(sha, first, work, env, k, rows)
    requires Tried(sha, rows, env(k), work(k), fate, after)
    ensures Intact(sha, after)
    ensures fate == Retries ==> Going(sha, first, work, env, k + 1, after)
    ensures fate == Commits ==> Ran(sha, first, work, env, maxAttempts, Committed, k + 1, after)
    ensures fate == Raises ==> Ran(sha, first, work, env, maxAttempts, Raised, k + 1, after)
  {
    AttemptFate(sha, first, work, env, k, rows, fate, after);
    var others := Overtaken(sha, first, env, k + 1);
    assert others == Extended(sha, rows, env(k).overtaking);
    AttemptSettles(sha, first, work, env, maxAttempts, k, others, fate, after);
  }

  lemma AttemptSettles(sha: string -> string, first: seq<Row>, work: nat -> seq<Fact>, env: nat -> Weather,
                       maxAttempts: nat, k: nat, others: seq<Row>, fate: Fate, after: seq<Row>)
    requires k < maxAttempts && others == Overtaken(sha, first, env, k + 1) && Intact(sha, after)
    requires after == if fate == Commits then Extended(sha, others, work(k)) else others
    requires NoCollisions(sha, first, work, env) ==>
               AllRetry(work, env, k) && fate == FateOf(env(k), work(k)) && Readable(others)
    ensures fate == Retries ==> Going(sha, first, work, env, k + 1, after)
    ensures fate == Commits ==> Ran(sha, first, work, env, maxAttempts, Committed, k + 1, after)
    ensures fate == Raises ==> Ran(sha, first, work, env, maxAttempts, Raised, k + 1, after)
  {
  }

  lemma AttemptReadable(sha: string -> string, first: seq<Row>, work: nat -> seq<Fact>, env: nat -> Weather, k: nat, rows: seq<Row>)
    ensures NoCollisions(sha, first, work, env) && Readable(rows) ==>
              ReadableFacts(work(k)) && Readable(Extended(sha, rows, env(k).overtaking))
  {
    if NoCollisions(sha, first, work, env) {
      RowsReadable(sha, Tail(rows), env(k).overtaking);
    }
  }

  /** Whether a unit is accepted on the tail it read before others committed. */
  lemma UnitFate(sha: string -> string, before: seq<Row>, others: seq<Row>, weather: Weather, facts: seq<Fact>)
    requires Intact(sha, before) && Intact(sha, others)
    requires others == before + RowsOf(sha, Tail(before), weather.overtaking)
    ensures var added := RowsOf(sha, Tail(before), facts);
            && (AcceptsAll(others, added) ==> added == RowsOf(sha, Tail(others), facts))
            && (Injective(sha) && NeverGenesis(sha) && Readable(others) && ReadableFacts(facts) ==>
                  (AcceptsAll(others, added) <==> weather.overtaking == [] || facts == []))
  {
    if weather.overtaking == [] {
      assert others == before;
      if Injective(sha) && NeverGenesis(sha) && Readable(others) && ReadableFacts(facts) {
        CurrentUnitAccepted(sha, others, facts);
      }
    } else if facts != [] {
      OnceTailStays(before, RowsOf(sha, Tail(before), weather.overtaking), Tail(before));
      TailMoved(sha, before, others);
      StaleUnitRefused(sha, others, Tail(before), facts);
    }
  }

  lemma TailMoved(sha: string -> string, before: seq<Row>, others: seq<Row>)
    requires Intact(sha, others) && before < others
    ensures Tail(others) != Tail(before)
  {
    LinkAt(sha, others, |others| - 1);
    if before != [] { LinkAt(sha, others, |before| - 1); }
  }
}
