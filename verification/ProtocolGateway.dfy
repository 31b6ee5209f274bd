/** Every gateway step keeps the invariant, and so does every run. */
module ProtocolGateway {
  import opened Prelude
  import opened CanonicalJson
  import opened Claims
  import opened Store
  import opened Protocol
  import opened ProtocolInvariant
  import opened ProtocolFrame
  import opened ProtocolApp

  /** All of the invariant except what it says about the requests. */
  ghost predicate RecordsOk(sha: string -> string, w: World) {
    AppOk(sha, w) && ExecutionsOk(w) && OutboxOk(sha, w)
  }

  /** Nothing differs but the requests. */
  predicate SameRecords(w: World, w': World) {
    w' == w.(requests := w'.requests)
  }

  lemma SameRecordsKeep(sha: string -> string, w: World, w': World)
    requires RecordsOk(sha, w) && SameRecords(w, w')
    ensures RecordsOk(sha, w')
  {
    SameRowsKeep(sha, w, w');
    forall e | 0 <= e < |w'.spent| ensures ExecutionOk(w', e) { assert ExecutionOk(w, e); }
    forall s | s in w'.outbox ensures SentOk(sha, w', s) { assert SentOk(sha, w, s); }
  }

  lemma SameRecordsRequest(sha: string -> string, w: World, w': World, r: nat, q: Request)
    requires SameRecords(w, w') && RequestOk(sha, w, r, q)
    ensures RequestOk(sha, w', r, q)
  {
  }

  /** A request that moves to an acceptable program counter. */
  lemma PcKeeps(sha: string -> string, w: World, r: nat, pc: Pc)
    requires Inv(sha, w) && r in w.requests && RequestOk(sha, w, r, w.requests[r].(pc := pc))
    ensures Inv(sha, SetPc(w, r, pc))
  {
    var w' := SetPc(w, r, pc);
    SameRecordsKeep(sha, w, w');
    forall x | x in w'.requests ensures RequestOk(sha, w', x, w'.requests[x]) {
      SameRecordsRequest(sha, w, w', x, w'.requests[x]);
    }
  }

  lemma ArriveKeeps(sha: string -> string, w: World, r: nat, c: Claims, key: string, at: Time)
    requires Inv(sha, w) && r !in w.requests && Minted(w, c)
    ensures Inv(sha, w.(requests := w.requests[r := Request(c, key, at, Arrived)]))
  {
    var w' := w.(requests := w.requests[r := Request(c, key, at, Arrived)]);
    SameRecordsKeep(sha, w, w');
    forall x | x in w'.requests ensures RequestOk(sha, w', x, w'.requests[x]) {
      SameRecordsRequest(sha, w, w', x, w'.requests[x]);
    }
  }

  /** Check 5 is what tells an approval's token from every other signed token. */
  lemma ApprovedMeansGranted(sha: string -> string, w: World, c: Claims)
    requires ApprovalsOk(w) && GrantsOk(sha, w) && Minted(w, c)
    requires ApprovedBy(LatestApproval(w.db.approvals, c.proposalId), c)
    ensures Granted(w, c)
  {
    var a := LatestApproval(w.db.approvals, c.proposalId).value;
    assert ApprovalOk(w, a);
    assert IsApproveOf(a, c);
  }

  lemma AdvanceFromNonce(sha: string -> string, w: World, r: nat, q: Request)
    requires ProposalsOk(sha, w) && Minted(w, q.claims) && q.pc.NonceSeen?
    ensures RequestOk(sha, w, r, q.(pc := Advance(sha, w.db, q)))
  {
    if q.claims.proposalId in w.db.proposals {
      assert ProposalOk(sha, w, q.claims.proposalId, w.db.proposals[q.claims.proposalId]);
    }
  }

  lemma AdvanceFromAdmitted(sha: string -> string, w: World, r: nat, q: Request)
    requires ApprovalsOk(w) && GrantsOk(sha, w) && RequestOk(sha, w, r, q) && q.pc.Admitted?
    ensures RequestOk(sha, w, r, q.(pc := Advance(sha, w.db, q)))
  {
    if ApprovedBy(LatestApproval(w.db.approvals, q.claims.proposalId), q.claims) {
      ApprovedMeansGranted(sha, w, q.claims);
    }
  }

  lemma AdvanceFromElsewhere(sha: string -> string, w: World, r: nat, q: Request)
    requires RequestOk(sha, w, r, q) && !q.pc.NonceSeen? && !q.pc.Admitted?
    ensures RequestOk(sha, w, r, q.(pc := Advance(sha, w.db, q)))
  {
  }

  lemma ReadKeeps(sha: string -> string, w: World, r: nat)
    requires Inv(sha, w) && r in w.requests
    ensures Inv(sha, SetPc(w, r, Advance(sha, w.db, w.requests[r])))
  {
    var q := w.requests[r];
    assert RequestOk(sha, w, r, q);
    if q.pc.NonceSeen? {
      AdvanceFromNonce(sha, w, r, q);
    } else if q.pc.Admitted? {
      AdvanceFromAdmitted(sha, w, r, q);
    } else {
      AdvanceFromElsewhere(sha, w, r, q);
    }
    PcKeeps(sha, w, r, Advance(sha, w.db, q));
  }

  /** Nothing differs but the requests and the outbox. */
  lemma SameTablesKeep(sha: string -> string, w: World, w': World)
    requires AppOk(sha, w) && ExecutionsOk(w) && w' == w.(requests := w'.requests, outbox := w'.outbox)
    ensures AppOk(sha, w') && ExecutionsOk(w')
  {
    SameRowsKeep(sha, w, w');
    forall e | 0 <= e < |w'.spent| ensures ExecutionOk(w', e) { assert ExecutionOk(w, e); }
  }

  // ---- claim ---------------------------------------------------------------------------------

  /** The world after a claim commits. */
  function ClaimedWorld(w: World, r: nat): World
    requires CanClaim(w, r)
  {
    var q := w.requests[r];
    var e := |w.db.executions|;
    SetPc(w, r, Claimed(q.pc.p, e)).(
      db := w.db.(executions := w.db.executions + [Execution(q.claims.proposalId, q.key, ExecPending, Null, None)],
                  nonces := w.db.nonces[q.claims.nonce := NonceRow(q.claims.proposalId, q.key)],
                  log := w.db.log + [Event(Gateway, ExecutionStarted(e, q.key, q.claims.payloadHash), q.claims.proposalId)]),
      claimants := w.claimants + [r], spent := w.spent + [q.claims.nonce])
  }

  predicate Claimable(w: World, r: nat) {
    && CanClaim(w, r)
    && FindExecution(w.db.executions, w.requests[r].key).None?
    && w.requests[r].claims.nonce !in w.db.nonces
  }

  lemma ClaimKeepsApp(sha: string -> string, w: World, r: nat)
    requires AppOk(sha, w) && Claimable(w, r)
    ensures AppOk(sha, ClaimedWorld(w, r))
  {
    var w' := ClaimedWorld(w, r);
    ReplayOne(w.db.log, w'.db.log[|w.db.log|]);
    SameRowsKeep(sha, w, w');
  }

  lemma ClaimKeepsExecutions(w: World, r: nat)
    requires ExecutionsOk(w) && Claimable(w, r) && Granted(w, w.requests[r].claims)
    ensures ExecutionsOk(ClaimedWorld(w, r))
  {
    var w' := ClaimedWorld(w, r);
    var n := |w.spent|;
    forall e | 0 <= e < n ensures ExecutionOk(w', e) && w'.spent[e] != w'.spent[n] {
      assert ExecutionOk(w, e);
    }
  }

  lemma ClaimKeepsSent(sha: string -> string, w: World, r: nat, s: Sent)
    requires ExecutionsOk(w) && Claimable(w, r) && SentOk(sha, w, s)
    ensures SentOk(sha, ClaimedWorld(w, r), s)
  {
    var w' := ClaimedWorld(w, r);
    assert w'.db.log[..s.logLength] == w.db.log[..s.logLength];
  }

  lemma ClaimKeepsOther(sha: string -> string, w: World, r: nat, x: nat, q: Request)
    requires ExecutionsOk(w) && Claimable(w, r) && RequestOk(sha, w, x, q)
    ensures RequestOk(sha, ClaimedWorld(w, r), x, q)
  {
    var w' := ClaimedWorld(w, r);
    if q.pc.Claimed? {
      assert w.db.log[..|w.db.log|] == w.db.log == w'.db.log[..|w.db.log|];
      assert w'.db.log[..|w'.db.log|] == w'.db.log;
    }
  }

  lemma ClaimHolds(sha: string -> string, w: World, r: nat)
    requires ExecutionsOk(w) && OutboxOk(sha, w) && Claimable(w, r) && RequestOk(sha, w, r, w.requests[r])
    ensures RequestOk(sha, ClaimedWorld(w, r), r, ClaimedWorld(w, r).requests[r])
  {
    var w' := ClaimedWorld(w, r);
    var q := w.requests[r];
    forall s | s in w'.outbox ensures s.executionId != |w.db.executions| {
      assert SentOk(sha, w, s);
    }
    assert w'.db.log[..|w'.db.log|] == w'.db.log;
    assert w'.db.log[|w.db.log|] in w'.db.log;
  }

  lemma ClaimedKeeps(sha: string -> string, w: World, r: nat)
    requires Inv(sha, w) && Claimable(w, r)
    ensures Inv(sha, ClaimedWorld(w, r))
  {
    assert RequestOk(sha, w, r, w.requests[r]);
    ClaimKeepsApp(sha, w, r);
    ClaimKeepsExecutions(w, r);
    ClaimKeepsOutbox(sha, w, r);
    ClaimKeepsRequests(sha, w, r);
  }

  lemma ClaimKeepsOutbox(sha: string -> string, w: World, r: nat)
    requires ExecutionsOk(w) && OutboxOk(sha, w) && Claimable(w, r)
    ensures OutboxOk(sha, ClaimedWorld(w, r))
  {
    forall s | s in w.outbox ensures SentOk(sha, ClaimedWorld(w, r), s) { ClaimKeepsSent(sha, w, r, s); }
  }

  lemma ClaimKeepsRequests(sha: string -> string, w: World, r: nat)
    requires ExecutionsOk(w) && OutboxOk(sha, w) && RequestsOk(sha, w) && Claimable(w, r)
    ensures RequestsOk(sha, ClaimedWorld(w, r))
  {
    var w' := ClaimedWorld(w, r);
    assert RequestOk(sha, w, r, w.requests[r]);
    forall x | x in w'.requests ensures RequestOk(sha, w', x, w'.requests[x]) {
      if x == r {
        ClaimHolds(sha, w, r);
      } else {
        ClaimKeepsOther(sha, w, r, x, w.requests[x]);
      }
    }
  }

  lemma ClaimKeeps(sha: string -> string, w: World, r: nat)
    requires Inv(sha, w) && CanClaim(w, r)
    ensures Inv(sha, ClaimWorld(w, r))
  {
    ClaimWorldUnfolds(w, r);
    if Claimable(w, r) {
      ClaimedKeeps(sha, w, r);
    } else {
      MintedPcKeeps(sha, w, r, ClaimWorld(w, r).requests[r].pc);
    }
  }

  lemma ClaimWorldUnfolds(w: World, r: nat)
    requires CanClaim(w, r)
    ensures Claimable(w, r) ==> ClaimWorld(w, r) == ClaimedWorld(w, r)
    ensures !Claimable(w, r) ==>
              && r in ClaimWorld(w, r).requests && ClaimWorld(w, r).requests[r].pc.LostRace?
              && ClaimWorld(w, r) == SetPc(w, r, ClaimWorld(w, r).requests[r].pc)
  {
  }

  // ---- send ------------------------------------------------------------------------------------

  lemma SendKeepsOutbox(sha: string -> string, w: World, r: nat, delivery: Delivery)
    requires OutboxOk(sha, w) && r in w.requests && w.requests[r].pc.Claimed?
    requires RequestOk(sha, w, r, w.requests[r])
    ensures OutboxOk(sha, SendWorld(w, r, delivery))
  {
    var w' := SendWorld(w, r, delivery);
    forall s | s in w'.outbox ensures SentOk(sha, w', s) {
      if s in w.outbox { assert SentOk(sha, w, s); }
    }
  }

  lemma SendKeepsRequest(sha: string -> string, w: World, r: nat, delivery: Delivery, x: nat, q: Request)
    requires r in w.requests && w.requests[r].pc.Claimed? && Owns(w, r, w.requests[r], w.requests[r].pc.executionId)
    requires x != r && RequestOk(sha, w, x, q)
    ensures RequestOk(sha, SendWorld(w, r, delivery), x, q)
  {
  }

  lemma SendKeeps(sha: string -> string, w: World, r: nat, delivery: Delivery)
    requires Inv(sha, w) && r in w.requests && w.requests[r].pc.Claimed?
    ensures Inv(sha, SendWorld(w, r, delivery))
  {
    assert RequestOk(sha, w, r, w.requests[r]);
    SameTablesKeep(sha, w, SendWorld(w, r, delivery));
    SendKeepsOutbox(sha, w, r, delivery);
    SendKeepsRequests(sha, w, r, delivery);
  }

  lemma SendKeepsRequests(sha: string -> string, w: World, r: nat, delivery: Delivery)
    requires RequestsOk(sha, w) && r in w.requests && w.requests[r].pc.Claimed?
    ensures RequestsOk(sha, SendWorld(w, r, delivery))
  {
    var w' := SendWorld(w, r, delivery);
    assert RequestOk(sha, w, r, w.requests[r]);
    forall x | x in w'.requests ensures RequestOk(sha, w', x, w'.requests[x]) {
      if x != r { SendKeepsRequest(sha, w, r, delivery, x, w.requests[x]); }
    }
  }

  // ---- finish ------------------------------------------------------------------------------------

  predicate CanFinish(w: World, r: nat) {
    && r in w.requests && w.requests[r].pc.Attempted?
    && w.requests[r].pc.executionId < |w.db.executions|
    && w.requests[r].claims.proposalId in w.db.proposals
  }

  /** The outcome of an execution is written on its row and its request answers. */
  function SettleExecution(w: World, r: nat, e: nat, status: ExecutionStatus, result: Json,
                           error: Option<string>, answer: Answer): World
    requires r in w.requests && e < |w.db.executions|
  {
    SetPc(w, r, Answered(answer)).(
      db := w.db.(executions := w.db.executions[e := w.db.executions[e].(status := status, result := result, error := error)]))
  }

  lemma SettleKeepsRequest(sha: string -> string, w: World, r: nat, e: nat, status: ExecutionStatus, result: Json,
                           error: Option<string>, answer: Answer, x: nat)
    requires r in w.requests && Owns(w, r, w.requests[r], e)
    requires x in w.requests && x != r && RequestOk(sha, w, x, w.requests[x])
    ensures RequestOk(sha, SettleExecution(w, r, e, status, result, error, answer), x, w.requests[x])
  {
  }

  lemma SettleKeepsExecutions(w: World, w': World, e: nat, row: Execution)
    requires ExecutionsOk(w) && e < |w.db.executions|
    requires row.key == w.db.executions[e].key && row.proposalId == w.db.executions[e].proposalId
    requires w' == w.(db := w.db.(executions := w.db.executions[e := row]), requests := w'.requests)
    ensures ExecutionsOk(w')
  {
    forall f | 0 <= f < |w'.spent| ensures ExecutionOk(w', f) { assert ExecutionOk(w, f); }
  }

  lemma SettleKeepsOutbox(sha: string -> string, w: World, w': World, e: nat, row: Execution)
    requires OutboxOk(sha, w) && e < |w.db.executions| && row.key == w.db.executions[e].key
    requires w' == w.(db := w.db.(executions := w.db.executions[e := row]), requests := w'.requests)
    ensures OutboxOk(sha, w')
  {
    forall s | s in w'.outbox ensures SentOk(sha, w', s) { assert SentOk(sha, w, s); }
  }

  lemma SettleKeepsRecords(sha: string -> string, w: World, w': World, e: nat, row: Execution)
    requires RecordsOk(sha, w) && e < |w.db.executions|
    requires row.key == w.db.executions[e].key && row.proposalId == w.db.executions[e].proposalId
    requires w' == w.(db := w.db.(executions := w.db.executions[e := row]), requests := w'.requests)
    ensures RecordsOk(sha, w')
  {
    SameRowsKeep(sha, w, w');
    SettleKeepsExecutions(w, w', e, row);
    SettleKeepsOutbox(sha, w, w', e, row);
  }

  lemma SettleKeeps(sha: string -> string, w: World, r: nat, e: nat, status: ExecutionStatus, result: Json,
                    error: Option<string>, answer: Answer)
    requires Inv(sha, w) && r in w.requests && Owns(w, r, w.requests[r], e)
    ensures Inv(sha, SettleExecution(w, r, e, status, result, error, answer))
  {
    var w' := SettleExecution(w, r, e, status, result, error, answer);
    SettleKeepsRecords(sha, w, w', e, w'.db.executions[e]);
    SettleKeepsRequests(sha, w, r, e, status, result, error, answer);
  }

  lemma SettleKeepsRequests(sha: string -> string, w: World, r: nat, e: nat, status: ExecutionStatus, result: Json,
                            error: Option<string>, answer: Answer)
    requires RequestsOk(sha, w) && r in w.requests && Owns(w, r, w.requests[r], e)
    ensures RequestsOk(sha, SettleExecution(w, r, e, status, result, error, answer))
  {
    var w' := SettleExecution(w, r, e, status, result, error, answer);
    assert RequestOk(sha, w, r, w.requests[r]);
    forall x | x in w'.requests ensures RequestOk(sha, w', x, w'.requests[x]) {
      if x != r { SettleKeepsRequest(sha, w, r, e, status, result, error, answer, x); }
    }
  }

  function MovedBy(db: Db, id: Id, succeeded: bool, e: nat): Db
    requires id in db.proposals
  {
    MoveRow(db, id, if succeeded then Executed else Failed,
            Event(Gateway, if succeeded then ExecutionSucceeded(e) else ExecutionFailed(e), id))
  }

  lemma MovedByKeeps(sha: string -> string, w: World, id: Id, succeeded: bool, e: nat)
    requires AppOk(sha, w) && id in w.db.proposals
    ensures AppOk(sha, w.(db := MovedBy(w.db, id, succeeded, e)))
  {
    OutcomeApplies(Summaries(w.db.proposals), id, e);
    if succeeded {
      MoveKeeps(sha, w, id, Executed, Event(Gateway, ExecutionSucceeded(e), id));
    } else {
      MoveKeeps(sha, w, id, Failed, Event(Gateway, ExecutionFailed(e), id));
    }
  }

  lemma OutcomeApplies(m: map<Id, Summary>, id: Id, e: nat)
    ensures ApplyEvent(m, Event(Gateway, ExecutionSucceeded(e), id)) == Move(m, id, Executed)
    ensures ApplyEvent(m, Event(Gateway, ExecutionFailed(e), id)) == Move(m, id, Failed)
  {
  }

  lemma FinishMoves(sha: string -> string, w: World, id: Id, succeeded: bool, e: nat)
    requires Inv(sha, w) && id in w.db.proposals
    ensures Inv(sha, w.(db := MovedBy(w.db, id, succeeded, e)))
  {
    MovedByKeeps(sha, w, id, succeeded, e);
    MoveGrows(w, id, if succeeded then Executed else Failed,
              Event(Gateway, if succeeded then ExecutionSucceeded(e) else ExecutionFailed(e), id));
    Assemble(sha, w, w.(db := MovedBy(w.db, id, succeeded, e)));
  }

  /** The proposal moves, then the execution settles. */
  lemma FinishAs(sha: string -> string, w: World, r: nat, succeeded: bool, result: Json, error: Option<string>, answer: Answer)
    requires Inv(sha, w) && CanFinish(w, r) && Owns(w, r, w.requests[r], w.requests[r].pc.executionId)
    ensures var q := w.requests[r];
            var moved := w.(db := MovedBy(w.db, q.claims.proposalId, succeeded, q.pc.executionId));
            Inv(sha, SettleExecution(moved, r, q.pc.executionId, if succeeded then ExecSucceeded else ExecFailed,
                                     result, error, answer))
  {
    var q := w.requests[r];
    var e, id := q.pc.executionId, q.claims.proposalId;
    FinishMoves(sha, w, id, succeeded, e);
    SettleKeeps(sha, w.(db := MovedBy(w.db, id, succeeded, e)), r, e, if succeeded then ExecSucceeded else ExecFailed,
                result, error, answer);
  }

  lemma FinishIsBoth(w: World, r: nat)
    requires CanFinish(w, r)
    ensures var q := w.requests[r];
            var e, id := q.pc.executionId, q.claims.proposalId;
            match q.pc.delivery
            case Accepted(result) =>
              FinishWorld(w, r) == SettleExecution(w.(db := MovedBy(w.db, id, true, e)), r, e, ExecSucceeded, result,
                                                   None, Done(e, result))
            case Undelivered(result, error) =>
              FinishWorld(w, r) == SettleExecution(w.(db := MovedBy(w.db, id, false, e)), r, e, ExecFailed, result,
                                                   Some(error), ReportedFailed(e))
  {
  }

  lemma FinishKeeps(sha: string -> string, w: World, r: nat)
    requires Inv(sha, w) && CanFinish(w, r)
    ensures Inv(sha, FinishWorld(w, r))
  {
    var q := w.requests[r];
    assert RequestOk(sha, w, r, q);
    FinishIsBoth(w, r);
    match q.pc.delivery
    case Accepted(result) => FinishAs(sha, w, r, true, result, None, Done(q.pc.executionId, result));
    case Undelivered(result, error) => FinishAs(sha, w, r, false, result, Some(error), ReportedFailed(q.pc.executionId));
  }

  // ---- every step, every run -----------------------------------------------------------------------

  /** A transaction of the operator's, or a sweep's. */
  lemma DecisionStepKeeps(sha: string -> string, w: World, step: Step)
    requires Inv(sha, w) && Enabled(w, step)
    requires step.CreateStep? || step.EditStep? || step.RejectStep? || step.ApproveStep? || step.SweepStep? || step.SettleStep?
    ensures Inv(sha, Apply(sha, w, step))
  {
    match step
    case CreateStep(id, runId, payload, invoiceId, email, deadline) =>
      CreateWorldKeeps(sha, w, id, runId, payload, invoiceId, email, deadline);
    case EditStep(sweptAt, order, id, body, now) =>
      EditWorldKeeps(sha, w, sweptAt, order, id, body, now);
    case RejectStep(sweptAt, order, id, actor, reason, now) =>
      RejectWorldKeeps(sha, w, sweptAt, order, id, actor, reason, now);
    case ApproveStep(_, _, _, _, _, _, _, _, _) =>
      ApproveWorldKeeps(sha, w, step);
    case SweepStep(sweptAt, order) =>
      SweepWorldKeeps(sha, w, sweptAt, order);
    case SettleStep(runId) =>
      SettleRunKeeps(sha, w, runId);
  }

  /** Bystanders, the probe, and writes from outside. */
  lemma AsideStepKeeps(sha: string -> string, w: World, step: Step)
    requires Inv(sha, w) && Enabled(w, step)
    requires step.RunStep? || step.RecordStep? || step.ProbeStep? || step.RewritePayload? || step.RewriteEmail?
    ensures Inv(sha, Apply(sha, w, step))
  {
    match step
    case RunStep(change) =>
      BystanderKeeps(sha, w, RunsAfter(w.db.runs, change), HousekeepingEvents(w.db.runs, change));
    case RecordStep(subject, code) =>
      BystanderKeeps(sha, w, w.db.runs, [Event(Gateway, ActionRefused(code), subject)]);
    case ProbeStep(id, actor, nonce, now, ttl) =>
      ProbeStepKeeps(sha, w, id, actor, nonce, now, ttl);
    case RewritePayload(id, payload) =>
      RewritePayloadKeeps(sha, w, id, payload);
    case RewriteEmail(id, email) =>
      RewriteEmailKeeps(sha, w, id, email);
  }

  /** A step of one request. */
  lemma GatewayStepKeeps(sha: string -> string, w: World, step: Step)
    requires Inv(sha, w) && Enabled(w, step)
    requires step.ArriveStep? || step.ReadStep? || step.ClaimStep? || step.ConflictStep? || step.SendStep?
          || step.FinishStep? || step.CrashStep?
    ensures Inv(sha, Apply(sha, w, step))
  {
    match step
    case ArriveStep(r, claims, key, at) => ArriveKeeps(sha, w, r, claims, key, at);
    case ReadStep(r) => ReadKeeps(sha, w, r);
    case ClaimStep(r) => ClaimKeeps(sha, w, r);
    case ConflictStep(r) => MintedPcKeeps(sha, w, r, LostRace(false));
    case SendStep(r, delivery) => SendKeeps(sha, w, r, delivery);
    case FinishStep(r) => FinishKeeps(sha, w, r);
    case CrashStep(r) => MintedPcKeeps(sha, w, r, Answered(Crashed));
  }

  lemma StepKeeps(sha: string -> string, w: World, step: Step)
    requires Inv(sha, w) && Enabled(w, step)
    ensures Inv(sha, Apply(sha, w, step))
  {
    match step
    case CreateStep(_, _, _, _, _, _) => DecisionStepKeeps(sha, w, step);
    case EditStep(_, _, _, _, _) => DecisionStepKeeps(sha, w, step);
    case RejectStep(_, _, _, _, _, _) => DecisionStepKeeps(sha, w, step);
    case ApproveStep(_, _, _, _, _, _, _, _, _) => DecisionStepKeeps(sha, w, step);
    case SweepStep(_, _) => DecisionStepKeeps(sha, w, step);
    case SettleStep(_) => DecisionStepKeeps(sha, w, step);
    case RunStep(_) => AsideStepKeeps(sha, w, step);
    case RecordStep(_, _) => AsideStepKeeps(sha, w, step);
    case ProbeStep(_, _, _, _, _) => AsideStepKeeps(sha, w, step);
    case RewritePayload(_, _) => AsideStepKeeps(sha, w, step);
    case RewriteEmail(_, _) => AsideStepKeeps(sha, w, step);
    case _ => GatewayStepKeeps(sha, w, step);
  }

  lemma MintedPcKeeps(sha: string -> string, w: World, r: nat, pc: Pc)
    requires Inv(sha, w) && r in w.requests && (pc.LostRace? || pc.Answered?)
    ensures Inv(sha, SetPc(w, r, pc))
  {
    assert RequestOk(sha, w, r, w.requests[r]);
    PcKeeps(sha, w, r, pc);
  }

  lemma SettleRunKeeps(sha: string -> string, w: World, runId: Id)
    requires Inv(sha, w)
    ensures Inv(sha, w.(db := SettleRun(w.db, runId)))
  {
    ProtocolApp.SettleKeeps(sha, w, runId);
    Assemble(sha, w, w.(db := SettleRun(w.db, runId)));
  }

  lemma ProbeStepKeeps(sha: string -> string, w: World, id: Id, actor: string, nonce: string, now: Time, ttl: int)
    requires Inv(sha, w) && FreshNonce(w, nonce)
    ensures MintProbe(sha, w.db, id, actor, nonce, now, ttl).Success? ==>
              Inv(sha, w.(probes := w.probes + {MintProbe(sha, w.db, id, actor, nonce, now, ttl).value}))
  {
    var m := MintProbe(sha, w.db, id, actor, nonce, now, ttl);
    if m.Success? { ProbeWorldKeeps(sha, w, m.value); }
  }

  /** The invariant holds at the end of every run, so (runs being closed under prefixes) at
      every moment of every run. */
  lemma {:induction false} EveryRunKeeps(sha: string -> string, steps: seq<Step>)
    requires Run(sha, steps).Some?
    ensures Inv(sha, Run(sha, steps).value)
    decreases |steps|
  {
    if steps != [] {
      var last := |steps| - 1;
      EveryRunKeeps(sha, steps[..last]);
      StepKeeps(sha, Run(sha, steps[..last]).value, steps[last]);
    }
  }
}
