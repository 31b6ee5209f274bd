/** Replay, retry, crash and a reused key: what a second request can learn and can cause. */
module ProtocolRetry {
  import opened Prelude
  import opened CanonicalJson
  import opened Claims
  import opened Store
  import opened Protocol
  import opened ProtocolInvariant
  import opened ProtocolGateway
  import opened ProtocolLater
  import opened ProtocolAnswers
  import opened Checks

  // ---- replay: the same token under another key ---------------------------------------------

  /** From the commit of a claim on, for ever, the token that was spent is refused under any
      other key while it lives: at check 3, with the first two checks passed. */
  lemma ReplayRefused(sha: string -> string, steps: seq<Step>, more: seq<Step>, e: nat, c: Claims, key: string, at: Time)
    requires Run(sha, steps).Some? && Run(sha, steps + more).Some?
    requires e < |Run(sha, steps).value.db.executions| == |Run(sha, steps).value.spent|
    requires c.nonce == Run(sha, steps).value.spent[e] && key != Run(sha, steps).value.db.executions[e].key
    requires !IsExpired(c, at)
    ensures var db := Run(sha, steps + more).value.db;
            && Advance(sha, db, Request(c, key, at, Arrived)) == Refuse(3)
            && FirstFailure(sha, db, c, key, at, 3)
            && forall q: Incoming, r: Result<Verdict, Refusal> | q.at == at && StateOutcome(sha, db, c, key, q, r) ::
                 r == Failure(Refusal("token_replayed", 409, Some(3), ["hmac_signature_valid", "token_not_expired"]))
  {
    RunContinues(sha, steps, more);
    EveryRunKeeps(sha, steps);
    var w, db := Run(sha, steps).value, Run(sha, steps + more).value.db;
    assert ExecutionOk(w, e);
    ReplayedOutcome(sha, db, c, key, at);
  }

  lemma ReplayedOutcome(sha: string -> string, db: Db, c: Claims, key: string, at: Time)
    requires !IsExpired(c, at) && c.nonce in db.nonces && db.nonces[c.nonce].key != key
    ensures FirstFailure(sha, db, c, key, at, 3)
    ensures forall q: Incoming, r: Result<Verdict, Refusal> | q.at == at && StateOutcome(sha, db, c, key, q, r) ::
              r == Failure(Refusal("token_replayed", 409, Some(3), ["hmac_signature_valid", "token_not_expired"]))
  {
    assert FirstFailure(sha, db, c, key, at, 3);
    forall q: Incoming, r: Result<Verdict, Refusal> | q.at == at && StateOutcome(sha, db, c, key, q, r)
      ensures r == Failure(Refusal("token_replayed", 409, Some(3), ["hmac_signature_valid", "token_not_expired"]))
    {
      RefusalIsOutcome(sha, db, c, key, q, 3);
      OutcomeIsDetermined(sha, db, c, key, q, r, Failure(RefuseAt(3, CHECK_NAMES[..2])));
      assert CHECK_NAMES[..2] == ["hmac_signature_valid", "token_not_expired"];
    }
  }

  // ---- retry: the same token under the same key ----------------------------------------------

  lemma LatestIsTheGrant(sha: string -> string, w: World, c: Claims)
    requires ApprovalsOk(w) && GrantsOk(sha, w) && Granted(w, c)
    ensures ApprovedBy(LatestApproval(w.db.approvals, c.proposalId), c)
  {
    var a :| a in w.db.approvals && IsApproveOf(a, c);
    var b := LatestApproval(w.db.approvals, c.proposalId).value;
    var i :| 0 <= i < |w.db.approvals| && w.db.approvals[i] == a;
    var j :| 0 <= j < |w.db.approvals| && w.db.approvals[j] == b;
    assert i == j;
  }

  lemma FindsItself(w: World, e: nat)
    requires ExecutionsOk(w) && e < |w.db.executions|
    ensures var x := w.db.executions[e];
            FindExecution(w.db.executions, x.key) == Some(e)
            && FindOwnExecution(w.db.executions, x.key, x.proposalId) == Some(e)
  {
    var i := FindExecution(w.db.executions, w.db.executions[e].key).value;
    KeyNamesExecution(w, i, e);
  }

  /** `c` is the token execution `e` consumed. */
  ghost predicate TokenOf(w: World, e: nat, c: Claims) {
    && e < |w.db.executions| == |w.spent|
    && w.spent[e] in w.grants && w.grants[w.spent[e]].claims == c
  }

  lemma TokenOfLater(w: World, w': World, e: nat, c: Claims)
    requires Later(w, w') && TokenOf(w, e, c) && |w'.db.executions| == |w'.spent|
    ensures TokenOf(w', e, c) && RowLater(w.db.executions[e], w'.db.executions[e])
  {
  }

  /** What checks 3 to 7 find when the request of execution `e` is retried. */
  predicate Retryable(sha: string -> string, w: World, e: nat, c: Claims, key: string) {
    && e < |w.db.executions| && w.db.executions[e].proposalId == c.proposalId && c.proposalId in w.db.proposals
    && c.nonce in w.db.nonces && w.db.nonces[c.nonce].key == key
    && FindExecution(w.db.executions, key) == Some(e)
    && FindOwnExecution(w.db.executions, key, c.proposalId) == Some(e)
    && ApprovedBy(LatestApproval(w.db.approvals, c.proposalId), c)
    && (c.proposalId !in w.rewritten ==>
          HashPayload(sha, w.db.proposals[c.proposalId].payload) == c.payloadHash)
  }

  lemma RetryState(sha: string -> string, w: World, e: nat, c: Claims)
    requires Inv(sha, w) && TokenOf(w, e, c)
    ensures Retryable(sha, w, e, c, w.db.executions[e].key)
  {
    assert ExecutionOk(w, e);
    assert GrantOk(sha, w, w.spent[e], w.grants[w.spent[e]]);
    FindsItself(w, e);
    LatestIsTheGrant(sha, w, c);
  }

  /** Once a claim has committed, the same token under the same key passes all seven checks at
      any later unexpired moment exactly when the stored letter still hashes to the token's
      hash (always, when nobody wrote over it), and finds that one execution; a result once
      recorded is the result found. */
  lemma RetryFindsItsExecution(sha: string -> string, steps: seq<Step>, more: seq<Step>, e: nat, c: Claims, at: Time)
    requires Run(sha, steps).Some? && Run(sha, steps + more).Some?
    requires TokenOf(Run(sha, steps).value, e, c) && !IsExpired(c, at)
    ensures var w, w' := Run(sha, steps).value, Run(sha, steps + more).value;
            var key, row := w.db.executions[e].key, w.db.executions[e];
            && c.proposalId in w'.db.proposals && e < |w'.db.executions|
            && (AllHold(sha, w'.db, c, key, at)
                <==> HashPayload(sha, w'.db.proposals[c.proposalId].payload) == c.payloadHash)
            && (c.proposalId !in w'.rewritten ==> AllHold(sha, w'.db, c, key, at))
            && (AllHold(sha, w'.db, c, key, at) ==>
                  Undisturbed(sha, w'.db, Request(c, key, at, Arrived))
                  == Verified(w'.db.proposals[c.proposalId], Some(Seen(e, w'.db.executions[e]))))
            && (row.status != ExecPending ==> w'.db.executions[e] == row)
  {
    var w, w' := Run(sha, steps).value, Run(sha, steps + more).value;
    RunContinues(sha, steps, more);
    EveryRunKeeps(sha, steps + more);
    TokenOfLater(w, w', e, c);
    RetryState(sha, w', e, c);
    RetryVerdict(sha, w', w'.db, e, c, at);
  }

  lemma RetryVerdict(sha: string -> string, w: World, db: Db, e: nat, c: Claims, at: Time)
    requires e < |w.db.executions| && Retryable(sha, w, e, c, w.db.executions[e].key)
    requires !IsExpired(c, at) && db == w.db
    ensures var key := db.executions[e].key;
            && (AllHold(sha, db, c, key, at) <==> HashPayload(sha, db.proposals[c.proposalId].payload) == c.payloadHash)
            && (AllHold(sha, db, c, key, at) ==>
                  Undisturbed(sha, db, Request(c, key, at, Arrived))
                  == Verified(db.proposals[c.proposalId], Some(Seen(e, db.executions[e]))))
  {
    var key, p := db.executions[e].key, db.proposals[c.proposalId];
    assert HashPayload(sha, p.payload)[0] == PREFIX[0];
    assert Holds(sha, db, c, key, at, 2) && Holds(sha, db, c, key, at, 3) && Holds(sha, db, c, key, at, 4)
        && Holds(sha, db, c, key, at, 5);
    assert AllHold(sha, db, c, key, at) <==> Holds(sha, db, c, key, at, 6);
    ReadsReachTheVerdict(sha, db, Request(c, key, at, Arrived));
  }

  // ---- the same, read by read ------------------------------------------------------------------

  /** Where a request can be that spends the token of `e` again: on its way to the answer
      recorded for `e` under the same key, or to check 3 under another. */
  predicate OnTrack(sha: string -> string, w: World, e: nat, c: Claims, first: Execution, q: Request) {
    q.claims == c && !IsExpired(c, q.at) ==>
      if q.key == first.key then RetryOnTrack(sha, w, e, c, first, q.pc)
      else q.pc in {Arrived, Refuse(3), Answered(Crashed)}
  }

  predicate IsCopyOf(seen: Seen, e: nat, first: Execution) {
    seen.id == e && RowLater(first, seen.row)
  }

  predicate RetryOnTrack(sha: string -> string, w: World, e: nat, c: Claims, first: Execution, pc: Pc) {
    match pc
    case Arrived => true
    case NonceSeen => true
    case ProposalSeen(p) => c.proposalId in w.rewritten || HashPayload(sha, p.payload) == c.payloadHash
    case Admitted(p, own) =>
      && own.Some? && IsCopyOf(own.value, e, first)
      && (c.proposalId in w.rewritten || HashPayload(sha, p.payload) == c.payloadHash)
    case Matched(_, own) => own.Some? && IsCopyOf(own.value, e, first)
    case Verified(_, existing) => existing.Some? && IsCopyOf(existing.value, e, first)
    case Answered(Refused(n)) => n == 6 && c.proposalId in w.rewritten
    case Answered(AlreadyDone(seen)) => IsCopyOf(seen, e, first) && seen.row.status != ExecFailed
    case Answered(ReportedFailed(x)) => x == e && first.status != ExecSucceeded
    case Answered(Crashed) => true
    case _ => false
  }

  lemma AdvanceOnTrack(sha: string -> string, w: World, e: nat, c: Claims, first: Execution, q: Request)
    requires Retryable(sha, w, e, c, first.key) && RowLater(first, w.db.executions[e])
    requires q.claims == c && !IsExpired(c, q.at) && OnTrack(sha, w, e, c, first, q)
    ensures OnTrack(sha, w, e, c, first, q.(pc := Advance(sha, w.db, q)))
  {
    if q.pc.Admitted? { assert HashPayload(sha, q.pc.p.payload)[0] == PREFIX[0]; }
  }

  lemma OnTrackLater(sha: string -> string, w: World, w': World, e: nat, c: Claims, first: Execution, q: Request)
    requires w.rewritten <= w'.rewritten && OnTrack(sha, w, e, c, first, q)
    ensures OnTrack(sha, w', e, c, first, q)
  {
  }

  /** A step leaves request `r` alone, or it is one of the steps of `r`. */
  predicate StepOf(step: Step, r: nat) {
    match step
    case ArriveStep(x, _, _, _) => x == r
    case ReadStep(x) => x == r
    case ClaimStep(x) => x == r
    case ConflictStep(x) => x == r
    case SendStep(x, _) => x == r
    case FinishStep(x) => x == r
    case CrashStep(x) => x == r
    case _ => false
  }

  lemma OthersRequest(sha: string -> string, w: World, step: Step, r: nat)
    requires Enabled(w, step) && !StepOf(step, r)
    ensures var w' := Apply(sha, w, step);
            (r in w'.requests <==> r in w.requests) && (r in w.requests ==> w'.requests[r] == w.requests[r])
  {
    if Application(step) {
      ApplicationStepLater(sha, w, step);
    }
  }

  /** A request keeps its token, its key and its clock; a read, a crash, and nothing else,
      moves one that is on track. */
  lemma OwnStep(sha: string -> string, w: World, step: Step, r: nat)
    requires Enabled(w, step) && StepOf(step, r) && r in w.requests
    ensures var w', q := Apply(sha, w, step), w.requests[r];
            && r in w'.requests && w'.requests[r] == q.(pc := w'.requests[r].pc)
            && (step.ReadStep? ==> w'.requests[r].pc == Advance(sha, w.db, q))
            && (step.CrashStep? ==> w'.requests[r].pc == Answered(Crashed))
            && (step.ReadStep? || step.CrashStep? || q.pc.Claimed? || q.pc.Attempted? || CanClaim(w, r))
  {
    match step
    case ClaimStep(_) => ClaimWorldUnfolds(w, r);
    case _ =>
  }

  lemma OwnStepOnTrack(sha: string -> string, w: World, step: Step, r: nat, e: nat, c: Claims, first: Execution)
    requires Retryable(sha, w, e, c, first.key) && RowLater(first, w.db.executions[e])
    requires Enabled(w, step) && StepOf(step, r)
    requires r in w.requests && OnTrack(sha, w, e, c, first, w.requests[r])
    ensures var w' := Apply(sha, w, step); r in w'.requests && OnTrack(sha, w, e, c, first, w'.requests[r])
  {
    OwnStep(sha, w, step, r);
    var q := w.requests[r];
    if q.claims == c && !IsExpired(c, q.at) && step.ReadStep? {
      AdvanceOnTrack(sha, w, e, c, first, q);
    }
  }

  lemma ArrivesOnTrack(sha: string -> string, w: World, step: Step, r: nat, e: nat, c: Claims, first: Execution)
    requires Enabled(w, step) && StepOf(step, r) && r !in w.requests
    ensures var w' := Apply(sha, w, step); r in w'.requests && OnTrack(sha, w, e, c, first, w'.requests[r])
  {
  }

  /** Whatever happens between its reads, a request that arrives after the token was spent
      ends in one of these ways: under the same key, with the recorded execution (refused at
      check 6 only if the letter was written over out of band); under another key, at check 3.
      It never claims and never sends. */
  lemma {:induction false} LateRequestsStayOnTrack(sha: string -> string, steps: seq<Step>, more: seq<Step>,
                                                   e: nat, c: Claims, r: nat)
    requires Run(sha, steps).Some? && Run(sha, steps + more).Some?
    requires TokenOf(Run(sha, steps).value, e, c) && r !in Run(sha, steps).value.requests
    ensures var w, w' := Run(sha, steps).value, Run(sha, steps + more).value;
            r in w'.requests ==> OnTrack(sha, w', e, c, w.db.executions[e], w'.requests[r])
    decreases |more|
  {
    if more == [] {
      assert steps + more == steps;
    } else {
      var init, step := more[..|more| - 1], more[|more| - 1];
      assert (steps + more)[..|steps + more| - 1] == steps + init;
      LateRequestsStayOnTrack(sha, steps, init, e, c, r);
      RunContinues(sha, steps, init);
      OnTrackStep(sha, Run(sha, steps).value, Run(sha, steps + init).value, steps + init, step, e, c, r);
    }
  }

  lemma OnTrackStep(sha: string -> string, w0: World, w: World, steps: seq<Step>, step: Step, e: nat, c: Claims, r: nat)
    requires Run(sha, steps) == Some(w) && Enabled(w, step) && Later(w0, w) && TokenOf(w0, e, c)
    requires r in w.requests ==> OnTrack(sha, w, e, c, w0.db.executions[e], w.requests[r])
    ensures var w' := Apply(sha, w, step);
            r in w'.requests ==> OnTrack(sha, w', e, c, w0.db.executions[e], w'.requests[r])
  {
    var w' := Apply(sha, w, step);
    EveryRunKeeps(sha, steps);
    TokenOfLater(w0, w, e, c);
    StepLater(sha, w, step);
    if !StepOf(step, r) {
      OthersRequest(sha, w, step, r);
    } else if r in w.requests {
      RetryState(sha, w, e, c);
      OwnStepOnTrack(sha, w, step, r, e, c, w0.db.executions[e]);
    } else {
      ArrivesOnTrack(sha, w, step, r, e, c, w0.db.executions[e]);
    }
    if r in w'.requests { OnTrackLater(sha, w, w', e, c, w0.db.executions[e], w'.requests[r]); }
  }

  // ---- a crash between claim and send ---------------------------------------------------------------

  /** Claimed, never sent, and its request is gone. */
  ghost predicate Stranded(w: World, e: nat, r: nat) {
    && e < |w.db.executions| == |w.claimants| && w.claimants[e] == r
    && r in w.requests && w.requests[r].pc == Answered(Crashed)
    && w.db.executions[e].status == ExecPending
    && forall s | s in w.outbox :: s.executionId != e
  }

  /** Execution `e`, its claimant and its messages are as they were. */
  ghost predicate ExecutionKept(w: World, w': World, e: nat) {
    && e < |w.db.executions| && e < |w.claimants|
    && e < |w'.db.executions| && w'.db.executions[e] == w.db.executions[e]
    && e < |w'.claimants| && w'.claimants[e] == w.claimants[e]
    && forall s | s in w'.outbox && s.executionId == e :: s in w.outbox
  }

  /** Only the request that claimed an execution ever sends for it or settles it. */
  lemma OnlyTheClaimantActs(sha: string -> string, w: World, step: Step, e: nat)
    requires Inv(sha, w) && Enabled(w, step) && e < |w.db.executions| == |w.claimants|
    requires !StepOf(step, w.claimants[e])
    ensures ExecutionKept(w, Apply(sha, w, step), e)
  {
    if Application(step) {
      ApplicationStepLater(sha, w, step);
    } else {
      match step
      case ClaimStep(r) => ClaimKeepsExecution(w, r, e);
      case SendStep(r, delivery) =>
        SenderOwns(sha, w, r);
        SendKeepsExecution(w, r, delivery, e);
      case FinishStep(r) =>
        AttemptedIsPending(sha, w, r);
        FinishKeepsExecution(w, r, e);
      case _ => ReadsKeepExecution(sha, w, step, e);
    }
  }

  lemma ReadsKeepExecution(sha: string -> string, w: World, step: Step, e: nat)
    requires Enabled(w, step) && e < |w.db.executions| == |w.claimants|
    requires step.ArriveStep? || step.ReadStep? || step.ConflictStep? || step.CrashStep?
    ensures ExecutionKept(w, Apply(sha, w, step), e)
  {
  }

  lemma ClaimKeepsExecution(w: World, r: nat, e: nat)
    requires CanClaim(w, r) && e < |w.db.executions| == |w.claimants|
    ensures ExecutionKept(w, ClaimWorld(w, r), e)
  {
    ClaimWorldUnfolds(w, r);
  }

  lemma SendKeepsExecution(w: World, r: nat, delivery: Delivery, e: nat)
    requires r in w.requests && w.requests[r].pc.Claimed? && e < |w.db.executions| == |w.claimants|
    requires w.requests[r].pc.executionId != e
    ensures ExecutionKept(w, SendWorld(w, r, delivery), e)
  {
  }

  lemma FinishKeepsExecution(w: World, r: nat, e: nat)
    requires CanFinish(w, r) && e < |w.db.executions| == |w.claimants|
    requires w.requests[r].pc.executionId != e
    ensures ExecutionKept(w, FinishWorld(w, r), e)
  {
  }

  lemma SenderOwns(sha: string -> string, w: World, r: nat)
    requires RequestsOk(sha, w) && r in w.requests && w.requests[r].pc.Claimed?
    ensures Owns(w, r, w.requests[r], w.requests[r].pc.executionId)
  {
    assert RequestOk(sha, w, r, w.requests[r]);
  }

  lemma StrandedStep(sha: string -> string, w: World, step: Step, e: nat, r: nat)
    requires Inv(sha, w) && Enabled(w, step) && Stranded(w, e, r)
    ensures Stranded(Apply(sha, w, step), e, r)
  {
    if StepOf(step, r) {
      CrashedAgain(sha, w, step, r);
    } else {
      OnlyTheClaimantActs(sha, w, step, e);
      OthersRequest(sha, w, step, r);
      StepKeeps(sha, w, step);
    }
  }

  lemma CrashedAgain(sha: string -> string, w: World, step: Step, r: nat)
    requires Enabled(w, step) && StepOf(step, r) && r in w.requests && w.requests[r].pc == Answered(Crashed)
    ensures Apply(sha, w, step) == w
  {
    assert step.CrashStep?;
    assert w.requests[r := w.requests[r].(pc := Answered(Crashed))] == w.requests;
  }

  lemma {:induction false} StrandedForever(sha: string -> string, steps: seq<Step>, more: seq<Step>, e: nat, r: nat)
    requires Run(sha, steps).Some? && Run(sha, steps + more).Some? && Stranded(Run(sha, steps).value, e, r)
    ensures Stranded(Run(sha, steps + more).value, e, r)
    decreases |more|
  {
    if more == [] {
      assert steps + more == steps;
    } else {
      var init, step := more[..|more| - 1], more[|more| - 1];
      assert (steps + more)[..|steps + more| - 1] == steps + init;
      StrandedForever(sha, steps, init, e, r);
      EveryRunKeeps(sha, steps + init);
      StrandedStep(sha, Run(sha, steps + init).value, step, e, r);
    }
  }

  lemma StrandedByCrash(sha: string -> string, w: World, r: nat)
    requires Inv(sha, w) && r in w.requests && w.requests[r].pc.Claimed?
    ensures var w' := SetPc(w, r, Answered(Crashed));
            Stranded(w', w.requests[r].pc.executionId, r)
  {
    assert RequestOk(sha, w, r, w.requests[r]);
  }

  lemma StrandedTokenUnsent(sha: string -> string, w: World, e: nat, r: nat, s: Sent)
    requires Inv(sha, w) && Stranded(w, e, r) && s in w.outbox
    ensures e < |w.spent| && s.claims.nonce != w.spent[e]
  {
    assert SentOk(sha, w, s);
  }

  lemma ClaimedToken(sha: string -> string, w: World, r: nat)
    requires Inv(sha, w) && r in w.requests && w.requests[r].pc.Claimed?
    ensures var q := w.requests[r];
            TokenOf(w, q.pc.executionId, q.claims) && w.db.executions[q.pc.executionId].key == q.key
  {
    assert RequestOk(sha, w, r, w.requests[r]);
  }

  /** What is said about a stranded execution: no message, a pending row, and a retry that
      passes the checks is told it is already done. */
  ghost predicate ToldDoneUnsent(sha: string -> string, w: World, e: nat, c: Claims, key: string, at: Time) {
    && (forall s | s in w.outbox :: s.claims.nonce != c.nonce)
    && e < |w.db.executions| && w.db.executions[e].status == ExecPending
    && c.proposalId in w.db.proposals
    && (!IsExpired(c, at) && c.proposalId !in w.rewritten ==>
          var seen := Seen(e, w.db.executions[e]);
          && Undisturbed(sha, w.db, Request(c, key, at, Arrived)) == Verified(w.db.proposals[c.proposalId], Some(seen))
          && AnswerFromRecord(seen) == AlreadyDone(seen))
  }

  lemma StrandedUnsent(sha: string -> string, w: World, e: nat, r: nat, c: Claims)
    requires Inv(sha, w) && Stranded(w, e, r) && TokenOf(w, e, c)
    ensures c.nonce == w.spent[e] && forall s | s in w.outbox :: s.claims.nonce != c.nonce
  {
    assert ExecutionOk(w, e);
    assert GrantOk(sha, w, w.spent[e], w.grants[w.spent[e]]);
    forall s | s in w.outbox ensures s.claims.nonce != c.nonce { StrandedTokenUnsent(sha, w, e, r, s); }
  }

  lemma StrandedRetry(sha: string -> string, w: World, e: nat, c: Claims, at: Time)
    requires e < |w.db.executions| && Retryable(sha, w, e, c, w.db.executions[e].key)
    requires w.db.executions[e].status == ExecPending && forall s | s in w.outbox :: s.claims.nonce != c.nonce
    ensures ToldDoneUnsent(sha, w, e, c, w.db.executions[e].key, at)
  {
    if !IsExpired(c, at) { RetryVerdict(sha, w, w.db, e, c, at); }
  }

  lemma StrandedAnswers(sha: string -> string, w: World, e: nat, r: nat, c: Claims, at: Time)
    requires Inv(sha, w) && Stranded(w, e, r) && TokenOf(w, e, c)
    ensures ToldDoneUnsent(sha, w, e, c, w.db.executions[e].key, at)
  {
    StrandedUnsent(sha, w, e, r, c);
    RetryState(sha, w, e, c);
    StrandedRetry(sha, w, e, c, at);
  }

  /** At most once, not exactly once: when a request dies between its claim and its send, its
      letter is never sent in any continuation, its execution stays pending for ever, and a
      retry of the very same request is told the action was already executed. */
  lemma CrashBeforeSendIsFinal(sha: string -> string, steps: seq<Step>, more: seq<Step>, r: nat, at: Time)
    requires Run(sha, steps).Some? && r in Run(sha, steps).value.requests
    requires Run(sha, steps).value.requests[r].pc.Claimed?
    requires Run(sha, steps + ([CrashStep(r)] + more)).Some?
    ensures var q, w' := Run(sha, steps).value.requests[r], Run(sha, steps + ([CrashStep(r)] + more)).value;
            ToldDoneUnsent(sha, w', q.pc.executionId, q.claims, q.key, at)
  {
    var w, w' := Run(sha, steps).value, Run(sha, steps + ([CrashStep(r)] + more)).value;
    var q := w.requests[r];
    EveryRunKeeps(sha, steps);
    EveryRunKeeps(sha, steps + ([CrashStep(r)] + more));
    CrashStrands(sha, steps, more, r);
    ClaimedToken(sha, w, r);
    RunContinues(sha, steps, [CrashStep(r)] + more);
    TokenOfLater(w, w', q.pc.executionId, q.claims);
    StrandedAnswers(sha, w', q.pc.executionId, r, q.claims, at);
  }

  lemma CrashStrands(sha: string -> string, steps: seq<Step>, more: seq<Step>, r: nat)
    requires Run(sha, steps).Some? && r in Run(sha, steps).value.requests
    requires Run(sha, steps).value.requests[r].pc.Claimed?
    requires Run(sha, steps + ([CrashStep(r)] + more)).Some?
    ensures Stranded(Run(sha, steps + ([CrashStep(r)] + more)).value, Run(sha, steps).value.requests[r].pc.executionId, r)
  {
    var crashed := steps + [CrashStep(r)];
    assert crashed + more == steps + ([CrashStep(r)] + more);
    EveryRunKeeps(sha, steps);
    StrandedByCrash(sha, Run(sha, steps).value, r);
    RunContinues(sha, crashed, more);
    RunOneMore(sha, steps, CrashStep(r));
    CrashApplies(sha, Run(sha, steps).value, r);
    StrandedForever(sha, crashed, more, Run(sha, steps).value.requests[r].pc.executionId, r);
  }

  lemma CrashApplies(sha: string -> string, w: World, r: nat)
    requires r in w.requests
    ensures Enabled(w, CrashStep(r)) && Apply(sha, w, CrashStep(r)) == SetPc(w, r, Answered(Crashed))
  {
  }

  lemma RunOneMore(sha: string -> string, steps: seq<Step>, step: Step)
    requires Run(sha, steps + [step]).Some?
    ensures Run(sha, steps).Some? && Enabled(Run(sha, steps).value, step)
    ensures Run(sha, steps + [step]).value == Apply(sha, Run(sha, steps).value, step)
  {
    assert (steps + [step])[..|steps|] == steps;
  }

  // ---- a key that belongs to another proposal --------------------------------------------------------

  /** Check 7 asks only for the key. An approved letter, never sent, whose request carries the
      key of another proposal's execution, passes all seven checks and is answered with that
      other execution: nothing is claimed and nothing is sent. */
  lemma KeyOfAnotherProposal(sha: string -> string, w: World, e: nat, c: Claims, at: Time)
    requires Inv(sha, w) && Granted(w, c) && c.nonce !in w.db.nonces && !IsExpired(c, at)
    requires c.proposalId in w.db.proposals && c.proposalId !in w.rewritten
    requires Sendable(w.db.proposals[c.proposalId], at)
    requires e < |w.db.executions| && w.db.executions[e].proposalId != c.proposalId
    ensures var key, seen := w.db.executions[e].key, Seen(e, w.db.executions[e]);
            && AllHold(sha, w.db, c, key, at)
            && Undisturbed(sha, w.db, Request(c, key, at, Arrived))
               == Verified(w.db.proposals[c.proposalId], Some(seen))
            && !CanClaim(w.(requests := map[0 := Request(c, key, at, Verified(w.db.proposals[c.proposalId], Some(seen)))]), 0)
  {
    var key, p := w.db.executions[e].key, w.db.proposals[c.proposalId];
    FindsItself(w, e);
    LatestIsTheGrant(sha, w, c);
    assert GrantOk(sha, w, c.nonce, w.grants[c.nonce]);
    assert HashPayload(sha, p.payload)[0] == PREFIX[0];
    AllHoldCases(sha, w.db, c, key, at);
    ReadsReachTheVerdict(sha, w.db, Request(c, key, at, Arrived));
  }

  /** What check 7 finds, in every run: a request that passes every check goes on to claim exactly
      when its key is unused, and is answered for another proposal exactly when the key has been
      claimed for one. (It can still lose the race to a claim: see ProtocolKeys.) */
  lemma WhoseAnswer(sha: string -> string, steps: seq<Step>, c: Claims, key: string, at: Time)
    requires Run(sha, steps).Some? && AllHold(sha, Run(sha, steps).value.db, c, key, at)
    ensures var db := Run(sha, steps).value.db;
            var pc := Undisturbed(sha, db, Request(c, key, at, Arrived));
            && pc.Verified?
            && (pc.existing.None? <==> forall x | x in db.executions :: x.key != key)
            && (pc.existing.Some? && pc.existing.value.row.proposalId != c.proposalId
                <==> exists x | x in db.executions :: x.key == key && x.proposalId != c.proposalId)
  {
    EveryRunKeeps(sha, steps);
    var w := Run(sha, steps).value;
    ReadsReachTheVerdict(sha, w.db, Request(c, key, at, Arrived));
    FoundByKey(w, key);
  }

  lemma FoundByKey(w: World, key: string)
    requires ExecutionsOk(w)
    ensures var i := FindExecution(w.db.executions, key);
            && (i.Some? ==> w.db.executions[i.value] in w.db.executions)
            && forall x | x in w.db.executions && x.key == key :: i.Some? && w.db.executions[i.value] == x
  {
    forall x | x in w.db.executions && x.key == key
      ensures FindExecution(w.db.executions, key).Some? && w.db.executions[FindExecution(w.db.executions, key).value] == x
    {
      var e :| 0 <= e < |w.db.executions| && w.db.executions[e] == x;
      FindsItself(w, e);
    }
  }

  // ---- the e-mail column ---------------------------------------------------------------------------------

  /** No check reads the column the recipient is taken from: writing over it changes no
      check's outcome, and the letter goes to what was written. */
  lemma EmailColumnIsUnchecked(sha: string -> string, w: World, id: Id, email: string, c: Claims, key: string, at: Time, n: nat)
    requires id in w.db.proposals
    ensures var db' := RewriteEmailWorld(w, id, email).db;
            && Holds(sha, db', c, key, at, n) == Holds(sha, w.db, c, key, at, n)
            && (Letter(w.db.proposals[id]).Some? ==>
                  Letter(db'.proposals[id]) == Some(Letter(w.db.proposals[id]).value.(to := email)))
  {
  }
}
