/** A proposal's status, in every run: what it says about the executions, and where it can go. */
module ProtocolStatus {
  import opened Prelude
  import opened Store
  import opened Protocol
  import opened ProtocolInvariant
  import opened ProtocolGateway
  import opened ProtocolTheorems
  import opened ProtocolLater

  // ---- where a status can go --------------------------------------------------------------

  /** From the queue to a decision, from an approval to its outcome, and never back. */
  predicate Follows(before: ProposalStatus, after: ProposalStatus) {
    || after == before
    || before == Pending
    || (before == Approved && (after == Executed || after == Failed))
  }

  predicate StatusLater(m: map<Id, Proposal>, m': map<Id, Proposal>) {
    forall id | id in m :: id in m' && Follows(m[id].status, m'[id].status)
  }

  /** What an application transaction does to statuses: only the queue moves, and not to an
      outcome; what is new is in the queue. */
  predicate QueueMoves(m: map<Id, Proposal>, m': map<Id, Proposal>) {
    && (forall id | id in m :: id in m' &&
          (m'[id].status == m[id].status || (m[id].status == Pending && m'[id].status != Executed && m'[id].status != Failed)))
    && (forall id | id in m' && id !in m :: m'[id].status == Pending)
  }

  lemma QueueMovesTwice(a: map<Id, Proposal>, b: map<Id, Proposal>, c: map<Id, Proposal>)
    requires QueueMoves(a, b) && QueueMoves(b, c) && a.Keys == b.Keys
    ensures QueueMoves(a, c)
  {
  }

  lemma SweepMoves(db: Db, now: Time, order: seq<Id>)
    requires SweepOrder(db, now, order)
    ensures QueueMoves(db.proposals, ExpireStale(db, order).proposals)
    ensures ExpireStale(db, order).proposals.Keys == db.proposals.Keys
  {
    forall id | id in order ensures IsStale(db, id, now) {}
  }

  lemma PreparedMoves(sha: string -> string, db: Db, id: Id, editedBody: Option<string>)
    requires id in db.proposals
    ensures var m := Prepare(sha, db, id, editedBody).proposals;
            m.Keys == db.proposals.Keys && forall x | x in m :: m[x].status == db.proposals[x].status
  {
  }

  lemma SaveEditMoves(sha: string -> string, db: Db, now: Time, order: seq<Id>, id: Id, body: string, at: Time)
    requires SweepOrder(db, now, order)
    ensures var r := SaveEdit(sha, db, order, id, body, at); r.Success? ==> QueueMoves(db.proposals, r.value.proposals)
  {
    SweepMoves(db, now, order);
  }

  lemma RejectMoves(db: Db, now: Time, order: seq<Id>, id: Id, actor: string, note: string, at: Time)
    requires SweepOrder(db, now, order)
    ensures var r := RejectProposal(db, order, id, actor, note, at); r.Success? ==> QueueMoves(db.proposals, r.value.proposals)
  {
    SweepMoves(db, now, order);
    var swept := ExpireStale(db, order);
    if LoadPending(swept, id, at).Success? {
      var rejected := swept.proposals[id := swept.proposals[id].(status := Rejected)];
      QueueMovesTwice(db.proposals, swept.proposals, rejected);
    }
  }

  lemma ApproveMoves(sha: string -> string, db: Db, now: Time, order: seq<Id>, id: Id, actor: string, note: Option<string>,
                     editedBody: Option<string>, nonce: string, at: Time, ttl: int)
    requires SweepOrder(db, now, order)
    ensures var r := ApproveProposal(sha, db, order, id, actor, note, editedBody, nonce, at, ttl);
            r.Success? ==> QueueMoves(db.proposals, r.value.0.proposals)
  {
    var swept := ExpireStale(db, order);
    SweepMoves(db, now, order);
    if LoadPending(swept, id, at).Success? {
      var ready := Prepare(sha, swept, id, editedBody);
      PreparedMoves(sha, swept, id, editedBody);
      var granted := GrantRow(ready, id, actor, note, editedBody, nonce);
      assert QueueMoves(swept.proposals, granted.proposals);
      QueueMovesTwice(db.proposals, swept.proposals, granted.proposals);
    }
  }

  lemma ApplicationMoves(sha: string -> string, w: World, step: Step)
    requires Enabled(w, step) && Application(step)
    ensures QueueMoves(w.db.proposals, Apply(sha, w, step).db.proposals)
  {
    match step
    case EditStep(sweptAt, order, id, body, now) => SaveEditMoves(sha, w.db, sweptAt, order, id, body, now);
    case RejectStep(sweptAt, order, id, actor, reason, now) => RejectMoves(w.db, sweptAt, order, id, actor, reason, now);
    case ApproveStep(sweptAt, order, id, actor, note, body, nonce, now, ttl) =>
      ApproveMoves(sha, w.db, sweptAt, order, id, actor, note, body, nonce, now, ttl);
    case SweepStep(sweptAt, order) => SweepMoves(w.db, sweptAt, order);
    case _ => OtherMoves(sha, w, step);
  }

  lemma OtherMoves(sha: string -> string, w: World, step: Step)
    requires Enabled(w, step) && Application(step)
    requires !step.EditStep? && !step.RejectStep? && !step.ApproveStep? && !step.SweepStep?
    ensures QueueMoves(w.db.proposals, Apply(sha, w, step).db.proposals)
  {
    if step.RewritePayload? || step.RewriteEmail? {
      RewritesMove(sha, w, step);
    } else {
      AsideMoves(sha, w, step);
    }
  }

  lemma RewritesMove(sha: string -> string, w: World, step: Step)
    requires Enabled(w, step) && (step.RewritePayload? || step.RewriteEmail?)
    ensures QueueMoves(w.db.proposals, Apply(sha, w, step).db.proposals)
  {
  }

  lemma AsideMoves(sha: string -> string, w: World, step: Step)
    requires Enabled(w, step)
    requires step.CreateStep? || step.RunStep? || step.SettleStep? || step.ProbeStep? || step.RecordStep?
    ensures QueueMoves(w.db.proposals, Apply(sha, w, step).db.proposals)
  {
  }

  // ---- what a status says --------------------------------------------------------------------

  predicate Settled(executions: seq<Execution>, id: Id, status: ExecutionStatus) {
    exists e | 0 <= e < |executions| :: executions[e].proposalId == id && executions[e].status == status
  }

  /** Executed means that the proposal's execution succeeded; failed, that it failed. */
  predicate OutcomeAgrees(db: Db, id: Id) {
    id in db.proposals ==>
      && (db.proposals[id].status == Executed <==> Settled(db.executions, id, ExecSucceeded))
      && (db.proposals[id].status == Failed <==> Settled(db.executions, id, ExecFailed))
  }

  ghost predicate OutcomesAgree(db: Db) {
    forall id :: OutcomeAgrees(db, id)
  }

  lemma ExecutedProposalsExist(sha: string -> string, w: World, e: nat)
    requires Inv(sha, w) && e < |w.db.executions|
    ensures w.db.executions[e].proposalId in w.db.proposals
  {
    assert ExecutionOk(w, e);
    assert GrantOk(sha, w, w.spent[e], w.grants[w.spent[e]]);
  }

  lemma ApplicationOutcomes(sha: string -> string, w: World, step: Step)
    requires Inv(sha, w) && OutcomesAgree(w.db) && Enabled(w, step) && Application(step)
    ensures OutcomesAgree(Apply(sha, w, step).db)
  {
    ApplicationStepLater(sha, w, step);
    ApplicationMoves(sha, w, step);
    forall e: nat | e < |w.db.executions| ensures w.db.executions[e].proposalId in w.db.proposals {
      ExecutedProposalsExist(sha, w, e);
    }
    MovesKeepOutcomes(w.db, Apply(sha, w, step).db);
  }

  lemma MovesKeepOutcomes(db: Db, db': Db)
    requires OutcomesAgree(db) && QueueMoves(db.proposals, db'.proposals) && db'.executions == db.executions
    requires forall e | 0 <= e < |db.executions| :: db.executions[e].proposalId in db.proposals
    ensures OutcomesAgree(db')
  {
    forall id ensures OutcomeAgrees(db', id) {
      assert OutcomeAgrees(db, id);
    }
  }

  lemma ClaimOutcomes(w: World, r: nat)
    requires OutcomesAgree(w.db) && CanClaim(w, r)
    ensures OutcomesAgree(ClaimWorld(w, r).db)
  {
    ClaimWorldUnfolds(w, r);
    if Claimable(w, r) {
      PendingRowAdded(w.db, ClaimedWorld(w, r).db);
    }
  }

  lemma PendingRowAdded(db: Db, db': Db)
    requires OutcomesAgree(db) && db'.proposals == db.proposals && |db'.executions| == |db.executions| + 1
    requires db'.executions[..|db.executions|] == db.executions && db'.executions[|db.executions|].status == ExecPending
    ensures OutcomesAgree(db')
  {
    forall id, status | status != ExecPending ensures Settled(db'.executions, id, status) == Settled(db.executions, id, status) {
      if Settled(db.executions, id, status) {
        var e :| 0 <= e < |db.executions| && db.executions[e].proposalId == id && db.executions[e].status == status;
        assert db'.executions[e] == db'.executions[..|db.executions|][e];
      }
      if Settled(db'.executions, id, status) {
        var e :| 0 <= e < |db'.executions| && db'.executions[e].proposalId == id && db'.executions[e].status == status;
        assert db'.executions[..|db.executions|][e] == db'.executions[e];
      }
    }
    forall id ensures OutcomeAgrees(db', id) { assert OutcomeAgrees(db, id); }
  }

  /** The tables after the outcome of the only execution of its proposal is written. */
  lemma FinishTables(sha: string -> string, w: World, r: nat)
    requires Inv(sha, w) && CanFinish(w, r)
    ensures var q, db' := w.requests[r], FinishWorld(w, r).db;
            var e, id := q.pc.executionId, q.claims.proposalId;
            && w.db.executions[e].proposalId == id && w.db.executions[e].status == ExecPending
            && db'.executions == w.db.executions[e := db'.executions[e]]
            && db'.executions[e].proposalId == id && db'.executions[e].status != ExecPending
            && db'.proposals == w.db.proposals[id := db'.proposals[id]]
            && (db'.proposals[id].status == Executed <==> db'.executions[e].status == ExecSucceeded)
            && (db'.proposals[id].status == Failed <==> db'.executions[e].status == ExecFailed)
  {
    AttemptedIsPending(sha, w, r);
    FinishRows(w, r);
  }

  lemma FinishRows(w: World, r: nat)
    requires CanFinish(w, r)
    ensures var q, db' := w.requests[r], FinishWorld(w, r).db;
            var e, id := q.pc.executionId, q.claims.proposalId;
            && db'.executions == w.db.executions[e := db'.executions[e]]
            && db'.executions[e].proposalId == w.db.executions[e].proposalId && db'.executions[e].status != ExecPending
            && db'.proposals == w.db.proposals[id := db'.proposals[id]]
            && (db'.proposals[id].status == Executed <==> db'.executions[e].status == ExecSucceeded)
            && (db'.proposals[id].status == Failed <==> db'.executions[e].status == ExecFailed)
  {
  }

  lemma FinishOutcomes(sha: string -> string, w: World, r: nat)
    requires Inv(sha, w) && OutcomesAgree(w.db) && CanFinish(w, r)
    ensures OutcomesAgree(FinishWorld(w, r).db)
  {
    var e := w.requests[r].pc.executionId;
    FinishTables(sha, w, r);
    forall f: nat | f < |w.db.executions| && w.db.executions[f].proposalId == w.db.executions[e].proposalId ensures f == e {
      OneExecutionPerProposal(sha, w, e, f);
    }
    OnlyRowSettles(w.db, FinishWorld(w, r).db, e);
  }

  lemma OnlyRowSettles(db: Db, db': Db, e: nat)
    requires OutcomesAgree(db) && e < |db.executions| && |db'.executions| == |db.executions|
    requires var id := db.executions[e].proposalId;
             && (forall f | 0 <= f < |db.executions| && db.executions[f].proposalId == id :: f == e)
             && db'.executions == db.executions[e := db'.executions[e]] && db'.executions[e].proposalId == id
             && id in db'.proposals && db'.proposals == db.proposals[id := db'.proposals[id]]
             && (db'.proposals[id].status == Executed <==> db'.executions[e].status == ExecSucceeded)
             && (db'.proposals[id].status == Failed <==> db'.executions[e].status == ExecFailed)
    ensures OutcomesAgree(db')
  {
    var id := db.executions[e].proposalId;
    forall x ensures OutcomeAgrees(db', x) {
      assert OutcomeAgrees(db, x);
      if x != id {
        SettledElsewhere(db.executions, db'.executions, e, x, ExecSucceeded);
        SettledElsewhere(db.executions, db'.executions, e, x, ExecFailed);
      } else {
        SettledHere(db'.executions, e, id, ExecSucceeded);
        SettledHere(db'.executions, e, id, ExecFailed);
      }
    }
  }

  lemma SettledElsewhere(xs: seq<Execution>, ys: seq<Execution>, e: nat, id: Id, status: ExecutionStatus)
    requires e < |xs| && |ys| == |xs| && ys == xs[e := ys[e]]
    requires xs[e].proposalId != id && ys[e].proposalId != id
    ensures Settled(ys, id, status) == Settled(xs, id, status)
  {
    if Settled(xs, id, status) {
      var f :| 0 <= f < |xs| && xs[f].proposalId == id && xs[f].status == status;
      assert ys[f] == xs[f];
    }
  }

  lemma SettledHere(xs: seq<Execution>, e: nat, id: Id, status: ExecutionStatus)
    requires e < |xs| && xs[e].proposalId == id && forall f | 0 <= f < |xs| && xs[f].proposalId == id :: f == e
    ensures Settled(xs, id, status) <==> xs[e].status == status
  {
  }

  lemma StepOutcomes(sha: string -> string, w: World, step: Step)
    requires Inv(sha, w) && OutcomesAgree(w.db) && Enabled(w, step)
    ensures OutcomesAgree(Apply(sha, w, step).db)
  {
    if Application(step) {
      ApplicationOutcomes(sha, w, step);
    } else {
      match step
      case ClaimStep(r) => ClaimOutcomes(w, r);
      case FinishStep(r) => FinishOutcomes(sha, w, r);
      case _ => ReadsKeepTables(sha, w, step);
    }
  }

  lemma ReadsKeepTables(sha: string -> string, w: World, step: Step)
    requires Enabled(w, step) && !Application(step) && !step.ClaimStep? && !step.FinishStep?
    ensures Apply(sha, w, step).db == w.db
  {
  }

  /** In every run, at every moment: a proposal is executed exactly when an execution of it has
      succeeded, and failed exactly when one has failed. */
  lemma {:induction false} StatusIsTheOutcome(sha: string -> string, steps: seq<Step>)
    requires Run(sha, steps).Some?
    ensures OutcomesAgree(Run(sha, steps).value.db)
    decreases |steps|
  {
    if steps != [] {
      var last := |steps| - 1;
      StatusIsTheOutcome(sha, steps[..last]);
      EveryRunKeeps(sha, steps[..last]);
      StepOutcomes(sha, Run(sha, steps[..last]).value, steps[last]);
    }
  }

  // ---- never back -------------------------------------------------------------------------------

  lemma FinishMovesOn(sha: string -> string, w: World, r: nat)
    requires Inv(sha, w) && OutcomesAgree(w.db) && CanFinish(w, r)
    ensures StatusLater(w.db.proposals, FinishWorld(w, r).db.proposals)
  {
    var q := w.requests[r];
    var e, id := q.pc.executionId, q.claims.proposalId;
    FinishTables(sha, w, r);
    forall f: nat | f < |w.db.executions| && w.db.executions[f].proposalId == id ensures f == e {
      OneExecutionPerProposal(sha, w, e, f);
    }
    SettledHere(w.db.executions, e, id, ExecSucceeded);
    SettledHere(w.db.executions, e, id, ExecFailed);
    assert OutcomeAgrees(w.db, id);
    DecidedWhenClaimed(sha, w, e);
    SettledHere(FinishWorld(w, r).db.executions, e, id, ExecSucceeded);
  }

  lemma DecidedWhenClaimed(sha: string -> string, w: World, e: nat)
    requires Inv(sha, w) && e < |w.db.executions|
    ensures w.db.executions[e].proposalId in w.db.proposals
    ensures Decided(w.db.proposals[w.db.executions[e].proposalId].status)
  {
    assert ExecutionOk(w, e);
    assert GrantOk(sha, w, w.spent[e], w.grants[w.spent[e]]);
  }

  lemma StepMovesOn(sha: string -> string, w: World, step: Step)
    requires Inv(sha, w) && OutcomesAgree(w.db) && Enabled(w, step)
    ensures StatusLater(w.db.proposals, Apply(sha, w, step).db.proposals)
  {
    if Application(step) {
      ApplicationMoves(sha, w, step);
    } else {
      match step
      case ClaimStep(r) => ClaimWorldUnfolds(w, r);
      case FinishStep(r) => FinishMovesOn(sha, w, r);
      case _ => ReadsKeepTables(sha, w, step);
    }
  }

  /** However a run goes on, no proposal ever goes back: what was rejected or expired stays so,
      what was approved can only come to its outcome, and an outcome is final. */
  lemma {:induction false} StatusNeverReturns(sha: string -> string, steps: seq<Step>, more: seq<Step>)
    requires Run(sha, steps).Some? && Run(sha, steps + more).Some?
    ensures StatusLater(Run(sha, steps).value.db.proposals, Run(sha, steps + more).value.db.proposals)
    decreases |more|
  {
    if more == [] {
      assert steps + more == steps;
    } else {
      var init, step := more[..|more| - 1], more[|more| - 1];
      assert (steps + more)[..|steps + more| - 1] == steps + init;
      StatusNeverReturns(sha, steps, init);
      EveryRunKeeps(sha, steps + init);
      StatusIsTheOutcome(sha, steps + init);
      var w0, w := Run(sha, steps).value, Run(sha, steps + init).value;
      StepMovesOn(sha, w, step);
      StatusLaterTwice(w0.db.proposals, w.db.proposals, Apply(sha, w, step).db.proposals);
    }
  }

  lemma StatusLaterTwice(a: map<Id, Proposal>, b: map<Id, Proposal>, c: map<Id, Proposal>)
    requires StatusLater(a, b) && StatusLater(b, c)
    ensures StatusLater(a, c)
  {
  }

  /** Nothing is ever sent for a proposal that no human has approved. */
  lemma NothingSentUnapproved(sha: string -> string, steps: seq<Step>, s: Sent)
    requires Run(sha, steps).Some? && s in Run(sha, steps).value.outbox
    ensures var db := Run(sha, steps).value.db;
            && s.claims.proposalId in db.proposals && Decided(db.proposals[s.claims.proposalId].status)
            && exists a | a in db.approvals :: IsApproveOf(a, s.claims)
  {
    EveryRunKeeps(sha, steps);
    var w := Run(sha, steps).value;
    assert SentOk(sha, w, s);
    var a :| a in w.db.approvals && IsApproveOf(a, s.claims);
    assert ApprovalOk(w, a);
  }
}
