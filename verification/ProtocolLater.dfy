/** What stays true once it is true: how any world of a run relates to every later one. */
module ProtocolLater {
  import opened Prelude
  import opened CanonicalJson
  import opened Store
  import opened Protocol
  import opened ProtocolInvariant
  import opened ProtocolGateway

  /** An execution keeps its proposal and its key; once settled it keeps everything. */
  predicate RowLater(x: Execution, y: Execution) {
    x.proposalId == y.proposalId && x.key == y.key && (x.status != ExecPending ==> x == y)
  }

  predicate RowsLater(xs: seq<Execution>, ys: seq<Execution>) {
    |xs| <= |ys| && forall e | 0 <= e < |xs| :: RowLater(xs[e], ys[e])
  }

  predicate NoncesLater(m: map<string, NonceRow>, m': map<string, NonceRow>) {
    forall n | n in m :: n in m' && m'[n] == m[n]
  }

  ghost predicate GrantsLater(g: map<string, Grant>, g': map<string, Grant>) {
    forall n | n in g :: n in g' && g'[n] == g[n]
  }

  /** No row is ever deleted, no event is ever removed, and a consumed nonce, a settled
      execution, a grant and a sent message are for ever. */
  ghost predicate Later(w: World, w': World) {
    && RowsLater(w.db.executions, w'.db.executions)
    && NoncesLater(w.db.nonces, w'.db.nonces)
    && w.db.log <= w'.db.log
    && w.db.proposals.Keys <= w'.db.proposals.Keys
    && w.spent <= w'.spent
    && w.outbox <= w'.outbox
    && GrantsLater(w.grants, w'.grants)
    && w.rewritten <= w'.rewritten
  }

  lemma LaterTransitive(a: World, b: World, c: World)
    requires Later(a, b) && Later(b, c)
    ensures Later(a, c)
  {
    forall e | 0 <= e < |a.db.executions| ensures RowLater(a.db.executions[e], c.db.executions[e]) {
      assert RowLater(a.db.executions[e], b.db.executions[e]) && RowLater(b.db.executions[e], c.db.executions[e]);
    }
    assert a.db.log <= c.db.log;
    assert a.spent <= c.spent;
    assert a.outbox <= c.outbox;
  }

  // ---- the tables ----------------------------------------------------------------------

  /** What any application transaction does to the tables. */
  predicate TablesLater(db: Db, db': Db) {
    && db'.executions == db.executions && db'.nonces == db.nonces
    && db.log <= db'.log && db.proposals.Keys <= db'.proposals.Keys
  }

  /** Requests, executions and messages are as they were. */
  predicate GatewaySame(w: World, w': World) {
    && w'.requests == w.requests && w'.outbox == w.outbox && w'.claimants == w.claimants
    && w'.db.executions == w.db.executions
  }

  lemma ApplicationLater(w: World, db: Db)
    requires TablesLater(w.db, db)
    ensures Later(w, w.(db := db)) && GatewaySame(w, w.(db := db))
  {
  }

  lemma SetDbLater(w: World, r: Result<Db, Error>)
    requires r.Success? ==> TablesLater(w.db, r.value)
    ensures Later(w, SetDb(w, r)) && GatewaySame(w, SetDb(w, r))
  {
    if r.Success? { ApplicationLater(w, r.value); }
  }

  lemma SweepLater(db: Db, order: seq<Id>)
    ensures TablesLater(db, ExpireStale(db, order))
  {
  }

  lemma EditLater(sha: string -> string, db: Db, id: Id, body: string)
    requires id in db.proposals
    ensures TablesLater(db, EditRow(sha, db, id, body))
  {
  }

  lemma SettleLater(db: Db, runId: Id)
    ensures TablesLater(db, SettleRun(db, runId))
  {
  }

  lemma RejectRowLater(db: Db, id: Id, actor: string, note: string)
    requires id in db.proposals
    ensures TablesLater(db, RejectRow(db, id, actor, note))
  {
  }

  lemma GrantRowLater(db: Db, id: Id, actor: string, note: Option<string>, editedBody: Option<string>, nonce: string)
    requires id in db.proposals
    ensures TablesLater(db, GrantRow(db, id, actor, note, editedBody, nonce))
  {
  }

  lemma TablesTransitive(a: Db, b: Db, c: Db)
    requires TablesLater(a, b) && TablesLater(b, c)
    ensures TablesLater(a, c)
  {
  }

  lemma SaveEditLater(sha: string -> string, db: Db, order: seq<Id>, id: Id, body: string, now: Time)
    ensures var r := SaveEdit(sha, db, order, id, body, now); r.Success? ==> TablesLater(db, r.value)
  {
    var swept := ExpireStale(db, order);
    SweepLater(db, order);
    if LoadPending(swept, id, now).Success? {
      EditLater(sha, swept, id, body);
      TablesTransitive(db, swept, EditRow(sha, swept, id, body));
    }
  }

  lemma RejectLater(db: Db, order: seq<Id>, id: Id, actor: string, note: string, now: Time)
    ensures var r := RejectProposal(db, order, id, actor, note, now); r.Success? ==> TablesLater(db, r.value)
  {
    var swept := ExpireStale(db, order);
    SweepLater(db, order);
    if LoadPending(swept, id, now).Success? {
      var decided := RejectRow(swept, id, actor, note);
      var settled := SettleRun(decided, swept.proposals[id].runId);
      RejectRowLater(swept, id, actor, note);
      SettleLater(decided, swept.proposals[id].runId);
      TablesTransitive(db, swept, decided);
      TablesTransitive(db, decided, settled);
    }
  }

  lemma ApproveLater(sha: string -> string, db: Db, order: seq<Id>, id: Id, actor: string, note: Option<string>,
                     editedBody: Option<string>, nonce: string, now: Time, ttl: int)
    ensures var r := ApproveProposal(sha, db, order, id, actor, note, editedBody, nonce, now, ttl);
            r.Success? ==> TablesLater(db, r.value.0) && r.value.1.nonce == nonce
  {
    var swept := ExpireStale(db, order);
    SweepLater(db, order);
    if LoadPending(swept, id, now).Success? {
      var ready := Prepare(sha, swept, id, editedBody);
      if NeedsEdit(swept.proposals[id], editedBody) { EditLater(sha, swept, id, editedBody.value); }
      GrantRowLater(ready, id, actor, note, editedBody, nonce);
      TablesTransitive(db, swept, ready);
      TablesTransitive(db, ready, GrantRow(ready, id, actor, note, editedBody, nonce));
    }
  }

  lemma ApproveWorldLater(sha: string -> string, w: World, step: Step)
    requires step.ApproveStep? && FreshNonce(w, step.nonce)
    ensures Later(w, ApproveWorld(sha, w, step)) && GatewaySame(w, ApproveWorld(sha, w, step))
  {
    ApproveLater(sha, w.db, step.order, step.id, step.actor, step.note, step.editedBody, step.nonce, step.now, step.ttl);
  }

  lemma CreateLater(sha: string -> string, db: Db, id: Id, runId: Id, payload: Json, invoiceId: string,
                    email: string, deadline: Time)
    ensures var r := CreateProposal(sha, db, id, runId, payload, invoiceId, email, deadline);
            r.Success? ==> TablesLater(db, r.value)
  {
  }

  // ---- the gateway's steps ----------------------------------------------------------------

  lemma ClaimLater(w: World, r: nat)
    requires CanClaim(w, r)
    ensures Later(w, ClaimWorld(w, r))
  {
    ClaimWorldUnfolds(w, r);
  }

  lemma SendLater(w: World, r: nat, delivery: Delivery)
    requires r in w.requests && w.requests[r].pc.Claimed?
    ensures Later(w, SendWorld(w, r, delivery))
  {
  }

  lemma FinishLater(w: World, r: nat)
    requires CanFinish(w, r) && w.db.executions[w.requests[r].pc.executionId].status == ExecPending
    ensures Later(w, FinishWorld(w, r))
  {
  }

  lemma AttemptedIsPending(sha: string -> string, w: World, r: nat)
    requires Inv(sha, w) && r in w.requests && w.requests[r].pc.Attempted?
    ensures Owns(w, r, w.requests[r], w.requests[r].pc.executionId)
  {
    assert RequestOk(sha, w, r, w.requests[r]);
  }

  // ---- every step, every continuation -------------------------------------------------------

  /** The steps of the operator, the sweeps, the probe and out-of-band writers. */
  predicate Application(step: Step) {
    match step
    case ArriveStep(_, _, _, _) => false
    case ReadStep(_) => false
    case ClaimStep(_) => false
    case ConflictStep(_) => false
    case SendStep(_, _) => false
    case FinishStep(_) => false
    case CrashStep(_) => false
    case _ => true
  }

  lemma TransactionLater(sha: string -> string, w: World, step: Step)
    requires Enabled(w, step)
    requires step.CreateStep? || step.EditStep? || step.RejectStep? || step.SweepStep? || step.SettleStep?
    ensures Later(w, Apply(sha, w, step)) && GatewaySame(w, Apply(sha, w, step))
  {
    match step
    case CreateStep(id, runId, payload, invoiceId, email, deadline) =>
      CreateLater(sha, w.db, id, runId, payload, invoiceId, email, deadline);
      SetDbLater(w, CreateProposal(sha, w.db, id, runId, payload, invoiceId, email, deadline));
    case EditStep(_, order, id, body, now) =>
      SaveEditLater(sha, w.db, order, id, body, now);
      SetDbLater(w, SaveEdit(sha, w.db, order, id, body, now));
    case RejectStep(_, order, id, actor, reason, now) =>
      RejectLater(w.db, order, id, actor, reason, now);
      SetDbLater(w, RejectProposal(w.db, order, id, actor, reason, now));
    case SweepStep(_, order) =>
      SweepLater(w.db, order);
      ApplicationLater(w, ExpireStale(w.db, order));
    case SettleStep(runId) =>
      SettleLater(w.db, runId);
      ApplicationLater(w, SettleRun(w.db, runId));
  }

  lemma AsideLater(sha: string -> string, w: World, step: Step)
    requires Enabled(w, step)
    requires step.RunStep? || step.ProbeStep? || step.RecordStep?
    ensures Later(w, Apply(sha, w, step)) && GatewaySame(w, Apply(sha, w, step))
  {
  }

  lemma RewriteLater(sha: string -> string, w: World, step: Step)
    requires Enabled(w, step) && (step.RewritePayload? || step.RewriteEmail?)
    ensures Later(w, Apply(sha, w, step)) && GatewaySame(w, Apply(sha, w, step))
  {
  }

  lemma ApplicationStepLater(sha: string -> string, w: World, step: Step)
    requires Enabled(w, step) && Application(step)
    ensures Later(w, Apply(sha, w, step)) && GatewaySame(w, Apply(sha, w, step))
  {
    match step
    case ApproveStep(_, _, _, _, _, _, _, _, _) => ApproveWorldLater(sha, w, step);
    case RunStep(_) => AsideLater(sha, w, step);
    case ProbeStep(_, _, _, _, _) => AsideLater(sha, w, step);
    case RewritePayload(_, _) => RewriteLater(sha, w, step);
    case RewriteEmail(_, _) => RewriteLater(sha, w, step);
    case RecordStep(_, _) => AsideLater(sha, w, step);
    case _ => TransactionLater(sha, w, step);
  }

  lemma GatewayStepLater(sha: string -> string, w: World, step: Step)
    requires Inv(sha, w) && Enabled(w, step) && !Application(step)
    ensures Later(w, Apply(sha, w, step))
  {
    match step
    case ClaimStep(r) => ClaimLater(w, r);
    case SendStep(r, delivery) => SendLater(w, r, delivery);
    case FinishStep(r) =>
      AttemptedIsPending(sha, w, r);
      FinishLater(w, r);
    case _ =>
  }

  lemma StepLater(sha: string -> string, w: World, step: Step)
    requires Inv(sha, w) && Enabled(w, step)
    ensures Later(w, Apply(sha, w, step))
  {
    if Application(step) {
      ApplicationStepLater(sha, w, step);
    } else {
      GatewayStepLater(sha, w, step);
    }
  }

  /** The world after more steps, when each was enabled in turn. */
  lemma {:induction false} RunContinues(sha: string -> string, steps: seq<Step>, more: seq<Step>)
    requires Run(sha, steps + more).Some?
    ensures Run(sha, steps).Some?
    ensures Later(Run(sha, steps).value, Run(sha, steps + more).value)
    decreases |more|
  {
    if more == [] {
      assert steps + more == steps;
      LaterReflexive(Run(sha, steps).value);
    } else {
      var init, last := more[..|more| - 1], more[|more| - 1];
      assert (steps + more)[..|steps + more| - 1] == steps + init;
      RunContinues(sha, steps, init);
      EveryRunKeeps(sha, steps + init);
      var w := Run(sha, steps + init).value;
      StepLater(sha, w, last);
      LaterTransitive(Run(sha, steps).value, w, Apply(sha, w, last));
    }
  }

  lemma LaterReflexive(w: World)
    ensures Later(w, w)
  {
  }
}
