/** app/store/repositories.py `settle_decided_runs`: expire, then settle, and nothing is left. */
module Sweep {
  import opened Store

  predicate Awaits(db: Db, runId: Id) {
    runId in db.runs && db.runs[runId] == AwaitingApproval
  }

  /** An order in which the waiting runs may come back; the query leaves it open. */
  ghost predicate WaitingOrder(db: Db, waiting: seq<Id>) {
    && (forall i, j | 0 <= i < j < |waiting| :: waiting[i] != waiting[j])
    && (forall runId :: runId in waiting <==> Awaits(db, runId))
  }

  /** `settle_run_if_decided`, run after run. */
  function SettleAll(db: Db, waiting: seq<Id>): Db {
    if waiting == [] then db
    else SettleRun(SettleAll(db, waiting[..|waiting| - 1]), waiting[|waiting| - 1])
  }

  /** How many of them it settles. */
  function SettledCount(db: Db, waiting: seq<Id>): nat {
    if waiting == [] then 0
    else
      var init, last := waiting[..|waiting| - 1], waiting[|waiting| - 1];
      SettledCount(db, init) + if Settles(SettleAll(db, init), last) then 1 else 0
  }

  function SettledSweep(db: Db, order: seq<Id>, waiting: seq<Id>): Db {
    SettleAll(ExpireStale(db, order), waiting)
  }

  /** Settling touches nothing but the runs it names, and their log. */
  lemma {:induction false} SettleAllRows(db: Db, waiting: seq<Id>)
    requires forall i, j | 0 <= i < j < |waiting| :: waiting[i] != waiting[j]
    ensures var r := SettleAll(db, waiting);
            && r == db.(runs := r.runs, log := r.log)
            && r.runs.Keys == db.runs.Keys
            && (forall runId | runId in db.runs ::
                  r.runs[runId] == if runId in waiting && Settles(db, runId) then Completed else db.runs[runId])
    decreases |waiting|
  {
    if waiting != [] {
      var init, last := waiting[..|waiting| - 1], waiting[|waiting| - 1];
      SettleAllRows(db, init);
      var before := SettleAll(db, init);
      assert waiting == init + [last];
      assert last !in init;
      SamePending(db, before, last);
    }
  }

  lemma SamePending(db: Db, db': Db, runId: Id)
    requires db'.proposals == db.proposals
    ensures HasPending(db', runId) == HasPending(db, runId)
  {
  }

  lemma SweptRows(db: Db, now: Time, order: seq<Id>)
    requires SweepOrder(db, now, order)
    ensures var swept := ExpireStale(db, order);
            && swept.runs == db.runs && swept.proposals.Keys == db.proposals.Keys
            && (forall id | id in db.proposals ::
                  swept.proposals[id] == if IsStale(db, id, now) then db.proposals[id].(status := Expired) else db.proposals[id])
            && (forall id :: !IsStale(swept, id, now))
  {
  }

  /** Decided, or past its deadline. */
  predicate SweptAway(p: Proposal, now: Time) {
    p.status != Pending || p.expiresAt <= now
  }

  lemma StillPending(db: Db, r: Db, now: Time, runId: Id)
    requires r.proposals.Keys == db.proposals.Keys
    requires forall id | id in db.proposals ::
               r.proposals[id] == if IsStale(db, id, now) then db.proposals[id].(status := Expired) else db.proposals[id]
    ensures HasPending(r, runId)
            <==> exists id | id in db.proposals :: db.proposals[id].runId == runId && !SweptAway(db.proposals[id], now)
  {
    if id :| id in db.proposals && db.proposals[id].runId == runId && !SweptAway(db.proposals[id], now) {
      assert r.proposals[id].runId == runId && r.proposals[id].status == Pending;
    }
    if HasPending(r, runId) {
      var id :| id in r.proposals && r.proposals[id].runId == runId && r.proposals[id].status == Pending;
      assert id in db.proposals && !SweptAway(db.proposals[id], now);
    }
  }

  /** The whole sweep at `now`, in terms of what was in the tables before it: the pending proposals at
      or past their deadline expire; a run is completed exactly when it awaited approval and each of
      its own proposals was decided or past its deadline; nothing else changes. So afterwards no
      pending proposal is past its deadline, and no run waits on an empty queue. */
  lemma SweepSettlesEverything(db: Db, now: Time, order: seq<Id>, waiting: seq<Id>)
    requires SweepOrder(db, now, order) && WaitingOrder(ExpireStale(db, order), waiting)
    ensures var r := SettledSweep(db, order, waiting);
            && r.proposals.Keys == db.proposals.Keys && r.runs.Keys == db.runs.Keys
            && r == db.(proposals := r.proposals, runs := r.runs, log := r.log)
            && (forall id | id in db.proposals ::
                  var p := db.proposals[id];
                  r.proposals[id] == if p.status == Pending && p.expiresAt <= now then p.(status := Expired) else p)
            && (forall runId | runId in db.runs ::
                  r.runs[runId]
                  == if db.runs[runId] == AwaitingApproval
                        && (forall id | id in db.proposals && db.proposals[id].runId == runId ::
                              db.proposals[id].status != Pending || db.proposals[id].expiresAt <= now)
                     then Completed else db.runs[runId])
            && (forall id | id in r.proposals && r.proposals[id].status == Pending :: r.proposals[id].expiresAt > now)
            && (forall runId | runId in r.runs && r.runs[runId] == AwaitingApproval ::
                  exists id | id in r.proposals :: r.proposals[id].runId == runId && r.proposals[id].status == Pending)
  {
    var swept := ExpireStale(db, order);
    var r := SettledSweep(db, order, waiting);
    SweptRows(db, now, order);
    SettleAllRows(swept, waiting);
    forall runId ensures HasPending(r, runId) == HasPending(swept, runId) {
      SamePending(swept, r, runId);
    }
    forall runId | runId in db.runs
      ensures HasPending(r, runId)
              <==> exists id | id in db.proposals :: db.proposals[id].runId == runId && !SweptAway(db.proposals[id], now)
    {
      StillPending(db, r, now, runId);
    }
  }

  /** The runs that one database has in another state than the other. */
  function Moved(db: Db, r: Db): set<Id> {
    set runId | runId in db.runs && runId in r.runs && r.runs[runId] != db.runs[runId]
  }

  /** The count that is reported is the number of runs that were completed. */
  lemma {:induction false} CountsTheSettled(db: Db, waiting: seq<Id>)
    requires forall i, j | 0 <= i < j < |waiting| :: waiting[i] != waiting[j]
    ensures SettledCount(db, waiting) == |Moved(db, SettleAll(db, waiting))|
    decreases |waiting|
  {
    SettleAllRows(db, waiting);
    if waiting == [] {
      assert Moved(db, db) == {};
    } else {
      var init, last := waiting[..|waiting| - 1], waiting[|waiting| - 1];
      assert waiting == init + [last];
      CountsTheSettled(db, init);
      SettleAllRows(db, init);
      MovesOneMore(db, SettleAll(db, init), last);
    }
  }

  lemma MovesOneMore(db: Db, before: Db, last: Id)
    requires before.proposals == db.proposals && before.runs.Keys == db.runs.Keys
    requires last in db.runs ==> before.runs[last] == db.runs[last]
    ensures |Moved(db, SettleRun(before, last))| == |Moved(db, before)| + if Settles(before, last) then 1 else 0
  {
    if Settles(before, last) {
      assert last !in Moved(db, before);
      assert Moved(db, SettleRun(before, last)) == Moved(db, before) + {last};
    }
  }

  lemma {:induction false} NothingToSettle(db: Db, waiting: seq<Id>)
    requires forall runId | runId in waiting :: !Settles(db, runId)
    ensures SettleAll(db, waiting) == db && SettledCount(db, waiting) == 0
    decreases |waiting|
  {
    if waiting != [] {
      NothingToSettle(db, waiting[..|waiting| - 1]);
    }
  }

  /** Sweeping again at the same instant changes nothing and appends nothing. */
  lemma SecondSweepIsIdle(db: Db, now: Time, order: seq<Id>, waiting: seq<Id>, order': seq<Id>, waiting': seq<Id>)
    requires SweepOrder(db, now, order) && WaitingOrder(ExpireStale(db, order), waiting)
    requires SweepOrder(SettledSweep(db, order, waiting), now, order')
    requires WaitingOrder(ExpireStale(SettledSweep(db, order, waiting), order'), waiting')
    ensures SettledSweep(SettledSweep(db, order, waiting), order', waiting') == SettledSweep(db, order, waiting)
    ensures SettledCount(ExpireStale(SettledSweep(db, order, waiting), order'), waiting') == 0
  {
    var r := SettledSweep(db, order, waiting);
    SweepSettlesEverything(db, now, order, waiting);
    EmptyOrder(r, now, order');
    NothingToSettle(r, waiting');
  }

  lemma FirstOf(order: seq<Id>) returns (id: Id)
    requires order != []
    ensures id in order
  {
    id := order[0];
  }

  lemma EmptyOrder(r: Db, now: Time, order: seq<Id>)
    requires SweepOrder(r, now, order) && forall id :: !IsStale(r, id, now)
    ensures ExpireStale(r, order) == r
  {
    if order != [] {
      var first := FirstOf(order);
      assert false;
    }
    assert ExpireStale(r, []).proposals == r.proposals;
    assert ExpiredEvents([]) == [] && r.log + [] == r.log;
  }
}
