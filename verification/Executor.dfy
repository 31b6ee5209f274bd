/** gateway/executor.py: what `execute` does with a verdict when nobody interferes, and that
    this is the protocol's claim, send and finish taken together. */
module Executor {
  import opened Prelude
  import opened CanonicalJson
  import opened Store
  import opened Protocol
  import opened ProtocolGateway
  import opened Checks

  /** A letter without a subject or a body raises KeyError before the adapter is called. */
  function Attempt(p: Proposal, delivery: Delivery): Delivery {
    if Letter(p).Some? then delivery
    else Undelivered(Obj([Member("error", Str("KeyError"))]),
                     if Field(p.payload, "subject").None? then "'subject'" else "'body'")
  }

  function Handed(p: Proposal): seq<Message> {
    match Letter(p)
    case Some(message) => [message]
    case None => []
  }

  /** The database after the outcome of execution `e` is written, and the answer. */
  function Conclude(db: Db, e: nat, proposalId: Id, delivery: Delivery): (Db, Answer)
    requires e < |db.executions| && proposalId in db.proposals
  {
    match delivery
    case Accepted(result) => (FinishExecution(db, e, proposalId, true, result, None), Done(e, result))
    case Undelivered(result, error) =>
      (FinishExecution(db, e, proposalId, false, result, Some(error)), ReportedFailed(e))
  }

  /** The database after `execute`, what the adapter was handed, and the answer. `delivery` is
      the adapter's (and, when it is on, the invoice sender's) outcome. */
  function Executed(db: Db, v: Verdict, delivery: Delivery): (Db, seq<Message>, Answer)
    requires v.claims.proposalId in db.proposals
  {
    if v.existing.Some? then (db, [], AnswerFromRecord(v.existing.value))
    else
      match ClaimExecution(db, v.claims, v.key)
      case Failure(e) => (db, [], AnswerFromWinner(db, v.key, e == NonceTaken))
      case Success((claimed, e)) =>
        var (finished, answer) := Conclude(claimed, e, v.claims.proposalId, Attempt(v.proposal, delivery));
        (finished, Handed(v.proposal), answer)
  }

  /** However often one verdict is executed, its letter is handed over at most once, and from
      the second time on nothing is written. */
  lemma ExecutingAgainSendsNothing(db: Db, v: Verdict, delivery: Delivery, again: Delivery)
    requires v.claims.proposalId in db.proposals
    ensures var after := Executed(db, v, delivery);
            && v.claims.proposalId in after.0.proposals
            && Executed(after.0, v, again).0 == after.0
            && Executed(after.0, v, again).1 == []
            && |after.1| <= 1
  {
    if v.existing.None? && ClaimExecution(db, v.claims, v.key).Success? {
      var after := Executed(db, v, delivery).0;
      var e := |db.executions|;
      assert after.executions[e].key == v.key;
      assert FindExecution(after.executions, v.key).Some?;
    }
  }

  predicate Holding(w: World, r: nat, v: Verdict) {
    r in w.requests && w.requests[r] == Request(v.claims, v.key, w.requests[r].at, Verified(v.proposal, v.existing))
  }

  /** The steps of the protocol that `execute` is, taken one after the other. */
  function StepsOf(w: World, r: nat, v: Verdict, delivery: Delivery): World
    requires Holding(w, r, v) && v.claims.proposalId in w.db.proposals
  {
    if v.existing.Some? then SetPc(w, r, Answered(AnswerFromRecord(v.existing.value)))
    else if !Claimable(w, r) then
      var lost := ClaimWorld(w, r);
      if r in lost.requests && lost.requests[r].pc.LostRace?
      then SetPc(lost, r, Answered(AnswerFromWinner(lost.db, v.key, lost.requests[r].pc.nonceTaken)))
      else lost
    else FinishWorld(SendWorld(ClaimedWorld(w, r), r, Attempt(v.proposal, delivery)), r)
  }

  /** `execute` is those steps: same tables, same messages, same answer. */
  lemma ExecuteIsItsSteps(w: World, r: nat, v: Verdict, delivery: Delivery)
    requires Holding(w, r, v) && v.claims.proposalId in w.db.proposals
    ensures var w', outcome := StepsOf(w, r, v, delivery), Executed(w.db, v, delivery);
            && w'.db == outcome.0
            && |w'.outbox| == |w.outbox| + |outcome.1|
            && w.outbox <= w'.outbox
            && (forall i | 0 <= i < |outcome.1| :: w'.outbox[|w.outbox| + i].message == outcome.1[i])
            && r in w'.requests && w'.requests[r].pc == Answered(outcome.2)
  {
    if v.existing.None? {
      ClaimWorldUnfolds(w, r);
      if Claimable(w, r) { SendAndFinish(w, r, v, delivery); }
    }
  }

  lemma SendAndFinish(w: World, r: nat, v: Verdict, delivery: Delivery)
    requires Holding(w, r, v) && v.claims.proposalId in w.db.proposals && v.existing.None? && Claimable(w, r)
    ensures var sent := SendWorld(ClaimedWorld(w, r), r, Attempt(v.proposal, delivery));
            var w', outcome := FinishWorld(sent, r), Executed(w.db, v, delivery);
            && w'.db == outcome.0
            && |w'.outbox| == |w.outbox| + |outcome.1|
            && w.outbox <= w'.outbox
            && (forall i | 0 <= i < |outcome.1| :: w'.outbox[|w.outbox| + i].message == outcome.1[i])
            && r in w'.requests && w'.requests[r].pc == Answered(outcome.2)
  {
  }
}
