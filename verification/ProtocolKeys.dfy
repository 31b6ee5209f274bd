/** Whose execution an idempotency key leads to, and what a failure says about the message. */
module ProtocolKeys {
  import opened Prelude
  import opened CanonicalJson
  import opened CanonicalOrder
  import opened Store
  import opened Protocol
  import opened ProtocolInvariant
  import opened ProtocolGateway
  import opened ProtocolLater
  import opened ProtocolAnswers
  import opened ProtocolRetry

  // ---- the request behind an execution ------------------------------------------------------

  /** A request keeps its token and its key. */
  predicate SameIdentity(w: World, w': World) {
    forall r | r in w.requests ::
      r in w'.requests && w'.requests[r].claims == w.requests[r].claims && w'.requests[r].key == w.requests[r].key
  }

  /** The request that claimed execution `e` carried its key, for its proposal. */
  predicate ClaimedBy(w: World, e: nat)
    requires e < |w.db.executions| && e < |w.claimants|
  {
    && w.claimants[e] in w.requests
    && w.requests[w.claimants[e]].key == w.db.executions[e].key
    && w.requests[w.claimants[e]].claims.proposalId == w.db.executions[e].proposalId
  }

  predicate ClaimantsOk(w: World) {
    && |w.claimants| == |w.db.executions|
    && forall e | 0 <= e < |w.claimants| :: ClaimedBy(w, e)
  }

  lemma IdentityKept(sha: string -> string, w: World, step: Step)
    requires Enabled(w, step)
    ensures SameIdentity(w, Apply(sha, w, step))
  {
    var w' := Apply(sha, w, step);
    forall r | r in w.requests
      ensures r in w'.requests && w'.requests[r].claims == w.requests[r].claims && w'.requests[r].key == w.requests[r].key
    {
      if StepOf(step, r) { OwnStep(sha, w, step, r); } else { OthersRequest(sha, w, step, r); }
    }
  }

  /** Rows and claimants that are still there are still each other's. */
  lemma ClaimedByLater(w: World, w': World, e: nat)
    requires e < |w.db.executions| && e < |w.claimants| && ClaimedBy(w, e)
    requires SameIdentity(w, w') && RowsLater(w.db.executions, w'.db.executions)
    requires e < |w'.claimants| && w'.claimants[e] == w.claimants[e]
    ensures ClaimedBy(w', e)
  {
    assert RowLater(w.db.executions[e], w'.db.executions[e]);
  }

  lemma ClaimAddsItsOwn(w: World, r: nat)
    requires ClaimantsOk(w) && CanClaim(w, r) && SameIdentity(w, ClaimWorld(w, r))
    ensures ClaimantsOk(ClaimWorld(w, r))
  {
    var w' := ClaimWorld(w, r);
    ClaimWorldUnfolds(w, r);
    ClaimLater(w, r);
    forall e: nat | e < |w.claimants| ensures ClaimedBy(w', e) { ClaimedByLater(w, w', e); }
  }

  lemma OtherStepsAddNone(sha: string -> string, w: World, step: Step)
    requires Enabled(w, step) && !step.ClaimStep?
    ensures var w' := Apply(sha, w, step);
            w'.claimants == w.claimants && |w'.db.executions| == |w.db.executions|
  {
    if Application(step) { ApplicationStepLater(sha, w, step); }
  }

  lemma StepClaimants(sha: string -> string, w: World, step: Step)
    requires Inv(sha, w) && ClaimantsOk(w) && Enabled(w, step)
    ensures ClaimantsOk(Apply(sha, w, step))
  {
    var w' := Apply(sha, w, step);
    IdentityKept(sha, w, step);
    if step.ClaimStep? {
      ClaimAddsItsOwn(w, step.r);
    } else {
      StepLater(sha, w, step);
      OtherStepsAddNone(sha, w, step);
      forall e: nat | e < |w.claimants| ensures ClaimedBy(w', e) { ClaimedByLater(w, w', e); }
    }
  }

  lemma {:induction false} EveryRunClaimants(sha: string -> string, steps: seq<Step>)
    requires Run(sha, steps).Some?
    ensures ClaimantsOk(Run(sha, steps).value)
    decreases |steps|
  {
    if steps != [] {
      var last := |steps| - 1;
      EveryRunClaimants(sha, steps[..last]);
      EveryRunKeeps(sha, steps[..last]);
      StepClaimants(sha, Run(sha, steps[..last]).value, steps[last]);
    }
  }

  // ---- whose answer ----------------------------------------------------------------------------

  /** The execution an answer speaks of. */
  function Spoken(answer: Answer): Option<nat> {
    match answer
    case Done(e, _) => Some(e)
    case AlreadyDone(seen) => Some(seen.id)
    case ReportedFailed(e) => Some(e)
    case _ => None
  }

  /** Nobody has claimed under this key for another proposal. */
  predicate KeyKeptTo(w: World, key: string, proposalId: Id) {
    forall r | r in w.claimants && r in w.requests && w.requests[r].key == key ::
      w.requests[r].claims.proposalId == proposalId
  }

  /** In every run, whichever way it was reached: an answer that speaks of an execution speaks of
      one of the request's own proposal exactly when no request for another proposal has claimed
      under the same key. */
  lemma AnsweredForItself(sha: string -> string, steps: seq<Step>, r: nat)
    requires Run(sha, steps).Some? && r in Run(sha, steps).value.requests
    requires var pc := Run(sha, steps).value.requests[r].pc; pc.Answered? && Spoken(pc.answer).Some?
    ensures var w := Run(sha, steps).value;
            var q, e := w.requests[r], Spoken(w.requests[r].pc.answer).value;
            && e < |w.db.executions| && w.db.executions[e].key == q.key
            && (w.db.executions[e].proposalId == q.claims.proposalId <==> KeyKeptTo(w, q.key, q.claims.proposalId))
            && (q.pc.answer.AlreadyDone? ==> q.pc.answer.seen.row.proposalId == w.db.executions[e].proposalId)
  {
    EveryRunAnswers(sha, steps);
    EveryRunKeeps(sha, steps);
    EveryRunClaimants(sha, steps);
    var w := Run(sha, steps).value;
    var q, e := w.requests[r], Spoken(w.requests[r].pc.answer).value;
    assert Truthful(w, q);
    KeyHasOneOwner(w, e, q.claims.proposalId);
  }

  lemma KeyHasOneOwner(w: World, e: nat, proposalId: Id)
    requires ExecutionsOk(w) && ClaimantsOk(w) && e < |w.db.executions|
    ensures w.db.executions[e].proposalId == proposalId <==> KeyKeptTo(w, w.db.executions[e].key, proposalId)
  {
    assert ClaimedBy(w, e) && w.claimants[e] in w.claimants;
    forall r | r in w.claimants && r in w.requests && w.requests[r].key == w.db.executions[e].key
      ensures w.requests[r].claims.proposalId == w.db.executions[e].proposalId
    {
      var f :| 0 <= f < |w.claimants| && w.claimants[f] == r;
      assert ClaimedBy(w, f);
      KeyNamesExecution(w, e, f);
    }
  }

  /** A caller who never uses one key for two proposals is never answered for another. */
  lemma OwnKeyOwnAnswer(sha: string -> string, steps: seq<Step>, r: nat)
    requires Run(sha, steps).Some? && r in Run(sha, steps).value.requests
    requires var w := Run(sha, steps).value;
             forall x | x in w.requests && w.requests[x].key == w.requests[r].key ::
               w.requests[x].claims.proposalId == w.requests[r].claims.proposalId
    ensures var w := Run(sha, steps).value;
            var q := w.requests[r];
            q.pc.Answered? && Spoken(q.pc.answer).Some? ==>
              Spoken(q.pc.answer).value < |w.db.executions|
              && w.db.executions[Spoken(q.pc.answer).value].proposalId == q.claims.proposalId
  {
    var q := Run(sha, steps).value.requests[r];
    if q.pc.Answered? && Spoken(q.pc.answer).Some? { AnsweredForItself(sha, steps, r); }
  }

  // ---- the losing path ---------------------------------------------------------------------------

  /** The losing path looks at no status: with any execution under the key, a failed one included,
      it says "already executed". */
  lemma LosingPathLooksAtNoStatus(sha: string -> string, steps: seq<Step>, key: string, nonceTaken: bool)
    requires Run(sha, steps).Some?
    ensures var db := Run(sha, steps).value.db;
            var answer := AnswerFromWinner(db, key, nonceTaken);
            && (answer.AlreadyDone? <==> exists x | x in db.executions :: x.key == key)
            && (answer.AlreadyDone? && answer.seen.row.status == ExecFailed
                <==> exists x | x in db.executions :: x.key == key && x.status == ExecFailed)
  {
    EveryRunKeeps(sha, steps);
    FoundByKey(Run(sha, steps).value, key);
  }

  ghost predicate HasLostRace(sha: string -> string, steps: seq<Step>, r: nat) {
    Run(sha, steps).Some? && r in Run(sha, steps).value.requests && Run(sha, steps).value.requests[r].pc.LostRace?
  }

  /** At some moment of the run the claim of request `r` had been rolled back. */
  ghost predicate LostTheRace(sha: string -> string, steps: seq<Step>, r: nat) {
    exists k: nat | k <= |steps| :: HasLostRace(sha, steps[..k], r)
  }

  /** What a request's history allows it to be told. */
  predicate PathAllows(pc: Pc, lost: bool) {
    if lost then pc.LostRace? || (pc.Answered? && !pc.answer.ReportedFailed? && !pc.answer.Done?)
    else !pc.LostRace? && (pc.Answered? && pc.answer.AlreadyDone? ==> pc.answer.seen.row.status != ExecFailed)
  }

  ghost predicate PathOk(sha: string -> string, steps: seq<Step>, r: nat) {
    && Run(sha, steps).Some?
    && (if r in Run(sha, steps).value.requests
        then PathAllows(Run(sha, steps).value.requests[r].pc, LostTheRace(sha, steps, r))
        else !LostTheRace(sha, steps, r))
  }

  lemma PathStep(sha: string -> string, w: World, step: Step, r: nat, lost: bool)
    requires Enabled(w, step) && if r in w.requests then PathAllows(w.requests[r].pc, lost) else !lost
    ensures var w' := Apply(sha, w, step);
            if r in w'.requests then PathAllows(w'.requests[r].pc, lost || w'.requests[r].pc.LostRace?) else !lost
  {
    if !StepOf(step, r) {
      OthersRequest(sha, w, step, r);
    } else if step.ClaimStep? {
      ClaimWorldUnfolds(w, r);
    } else {
      OwnPathStep(sha, w, step, r, lost);
    }
  }

  lemma OwnPathStep(sha: string -> string, w: World, step: Step, r: nat, lost: bool)
    requires Enabled(w, step) && StepOf(step, r) && !step.ClaimStep?
    requires if r in w.requests then PathAllows(w.requests[r].pc, lost) else !lost
    ensures var w' := Apply(sha, w, step);
            r in w'.requests && PathAllows(w'.requests[r].pc, lost || w'.requests[r].pc.LostRace?)
  {
  }

  lemma MomentStays(sha: string -> string, steps: seq<Step>, r: nat)
    requires steps != [] && (LostTheRace(sha, steps[..|steps| - 1], r) || HasLostRace(sha, steps, r))
    ensures LostTheRace(sha, steps, r)
  {
    var last := |steps| - 1;
    if HasLostRace(sha, steps, r) {
      assert steps[..|steps|] == steps;
    } else {
      var k: nat :| k <= last && HasLostRace(sha, steps[..last][..k], r);
      assert steps[..last][..k] == steps[..k];
    }
  }

  lemma MomentWas(sha: string -> string, steps: seq<Step>, r: nat)
    requires steps != [] && LostTheRace(sha, steps, r)
    ensures LostTheRace(sha, steps[..|steps| - 1], r) || HasLostRace(sha, steps, r)
  {
    var k: nat :| k <= |steps| && HasLostRace(sha, steps[..k], r);
    if k == |steps| {
      assert steps[..k] == steps;
    } else {
      assert steps[..|steps| - 1][..k] == steps[..k];
    }
  }

  lemma OneMoreMoment(sha: string -> string, steps: seq<Step>, r: nat)
    requires steps != []
    ensures LostTheRace(sha, steps, r) <==> LostTheRace(sha, steps[..|steps| - 1], r) || HasLostRace(sha, steps, r)
  {
    if LostTheRace(sha, steps, r) { MomentWas(sha, steps, r); } else if HasLostRace(sha, steps, r) { MomentStays(sha, steps, r); }
    if LostTheRace(sha, steps[..|steps| - 1], r) { MomentStays(sha, steps, r); }
  }

  lemma {:induction false} EveryRunPath(sha: string -> string, steps: seq<Step>, r: nat)
    requires Run(sha, steps).Some?
    ensures PathOk(sha, steps, r)
    decreases |steps|
  {
    if steps == [] {
      forall k: nat | k <= |steps| ensures !HasLostRace(sha, steps[..k], r) { assert steps[..k] == []; }
    } else {
      var last := |steps| - 1;
      EveryRunPath(sha, steps[..last], r);
      OneMoreMoment(sha, steps, r);
      PathStep(sha, Run(sha, steps[..last]).value, steps[last], r, LostTheRace(sha, steps[..last], r));
    }
  }

  /** The answer speaks of an execution that the request has seen to have failed. */
  predicate TellsOfFailure(answer: Answer) {
    answer.ReportedFailed? || (answer.AlreadyDone? && answer.seen.row.status == ExecFailed)
  }

  /** In every run, of the requests that are told about a failed execution, exactly those that lost
      the race for the key are told that it was already executed. Check 7 never says so. */
  lemma LosingPathHidesFailure(sha: string -> string, steps: seq<Step>, r: nat)
    requires Run(sha, steps).Some? && r in Run(sha, steps).value.requests
    requires var pc := Run(sha, steps).value.requests[r].pc; pc.Answered? && TellsOfFailure(pc.answer)
    ensures Run(sha, steps).value.requests[r].pc.answer.AlreadyDone? <==> LostTheRace(sha, steps, r)
  {
    EveryRunPath(sha, steps, r);
  }

  // ---- what a failure says about the message -----------------------------------------------------------

  predicate HasLetter(payload: Json) {
    Field(payload, "subject").Some? && Field(payload, "body").Some?
  }

  /** The message of execution `e` has been handed over exactly if the approved letter has both
      its parts. */
  ghost predicate HandedIfWhole(w: World, e: nat) {
    && e < |w.spent| && w.spent[e] in w.grants
    && (SentFor(w.outbox, e) <==> HasLetter(w.grants[w.spent[e]].payload))
  }

  ghost predicate HandedOk(w: World) {
    && (forall r | r in w.requests && w.requests[r].pc.Attempted? :: HandedIfWhole(w, w.requests[r].pc.executionId))
    && (forall e | 0 <= e < |w.db.executions| && w.db.executions[e].status != ExecPending :: HandedIfWhole(w, e))
  }

  /** No message of `e` came in between. */
  lemma HandedLater(w: World, w': World, e: nat)
    requires HandedIfWhole(w, e) && Later(w, w')
    requires forall s | s in w'.outbox && s.executionId == e :: s in w.outbox
    ensures HandedIfWhole(w', e)
  {
    if SentFor(w.outbox, e) { SentForLater(w.outbox, w'.outbox, e); }
  }

  /** Steps that neither hand over nor settle. */
  lemma SameMessagesHanded(w: World, w': World)
    requires HandedOk(w) && Later(w, w') && w'.outbox == w.outbox
    requires forall r | r in w'.requests && w'.requests[r].pc.Attempted? :: r in w.requests && w'.requests[r] == w.requests[r]
    requires forall e | 0 <= e < |w'.db.executions| && w'.db.executions[e].status != ExecPending ::
               e < |w.db.executions| && w.db.executions[e].status != ExecPending
    ensures HandedOk(w')
  {
    forall r | r in w'.requests && w'.requests[r].pc.Attempted? ensures HandedIfWhole(w', w'.requests[r].pc.executionId) {
      HandedLater(w, w', w'.requests[r].pc.executionId);
    }
    forall e: nat | e < |w'.db.executions| && w'.db.executions[e].status != ExecPending ensures HandedIfWhole(w', e) {
      HandedLater(w, w', e);
    }
  }

  /** The hand-over itself. */
  lemma SendHands(sha: string -> string, w: World, r: nat, delivery: Delivery)
    requires Injective(sha) && GrantsOk(sha, w) && r in w.requests && w.requests[r].pc.Claimed?
    requires RequestOk(sha, w, r, w.requests[r])
    ensures HandedIfWhole(SendWorld(w, r, delivery), w.requests[r].pc.executionId)
  {
    var q, w' := w.requests[r], SendWorld(w, r, delivery);
    var g := w.grants[q.claims.nonce];
    assert GrantOk(sha, w, q.claims.nonce, g);
    HashIdentifies(sha, q.pc.p.payload, g.payload);
    SameValueSameField(q.pc.p.payload, g.payload, "subject");
    SameValueSameField(q.pc.p.payload, g.payload, "body");
    if Letter(q.pc.p).Some? { assert w'.outbox[|w.outbox|] in w'.outbox; }
  }

  /** Only execution `e` has been touched, and it is in order. */
  lemma OneHanded(w: World, w': World, e: nat)
    requires HandedOk(w) && Later(w, w') && HandedIfWhole(w', e)
    requires forall s | s in w'.outbox && s.executionId != e :: s in w.outbox
    requires forall r | r in w'.requests && w'.requests[r].pc.Attempted? ::
               w'.requests[r].pc.executionId == e || (r in w.requests && w'.requests[r] == w.requests[r])
    requires forall f | 0 <= f < |w'.db.executions| && w'.db.executions[f].status != ExecPending ::
               f == e || (f < |w.db.executions| && w.db.executions[f].status != ExecPending)
    ensures HandedOk(w')
  {
    forall r | r in w'.requests && w'.requests[r].pc.Attempted? ensures HandedIfWhole(w', w'.requests[r].pc.executionId) {
      if w'.requests[r].pc.executionId != e { HandedLater(w, w', w'.requests[r].pc.executionId); }
    }
    forall f: nat | f < |w'.db.executions| && w'.db.executions[f].status != ExecPending ensures HandedIfWhole(w', f) {
      if f != e { HandedLater(w, w', f); }
    }
  }

  lemma SendHanded(sha: string -> string, w: World, r: nat, delivery: Delivery)
    requires Injective(sha) && GrantsOk(sha, w) && RequestsOk(sha, w) && HandedOk(w)
    requires r in w.requests && w.requests[r].pc.Claimed?
    ensures HandedOk(SendWorld(w, r, delivery))
  {
    assert RequestOk(sha, w, r, w.requests[r]);
    SendHands(sha, w, r, delivery);
    SendLater(w, r, delivery);
    OneHanded(w, SendWorld(w, r, delivery), w.requests[r].pc.executionId);
  }

  /** The tables of a world after a finish, as far as messages are concerned. */
  lemma FinishTouches(w: World, r: nat)
    requires CanFinish(w, r)
    ensures var w', e := FinishWorld(w, r), w.requests[r].pc.executionId;
            && w'.outbox == w.outbox && w'.spent == w.spent && w'.grants == w.grants
            && (forall x | x in w'.requests && w'.requests[x].pc.Attempted? :: x in w.requests && w'.requests[x] == w.requests[x])
            && (forall f | 0 <= f < |w'.db.executions| && f != e :: f < |w.db.executions| && w'.db.executions[f] == w.db.executions[f])
  {
  }

  lemma FinishHanded(sha: string -> string, w: World, r: nat)
    requires RequestsOk(sha, w) && HandedOk(w) && CanFinish(w, r)
    ensures HandedOk(FinishWorld(w, r))
  {
    assert RequestOk(sha, w, r, w.requests[r]);
    FinishLater(w, r);
    FinishTouches(w, r);
    OneHanded(w, FinishWorld(w, r), w.requests[r].pc.executionId);
  }

  lemma ReadsHandNothing(sha: string -> string, w: World, step: Step)
    requires Enabled(w, step) && HandedOk(w)
    requires step.ArriveStep? || step.ReadStep? || step.ConflictStep? || step.CrashStep?
    ensures HandedOk(Apply(sha, w, step))
  {
    var w' := Apply(sha, w, step);
    assert Later(w, w');
    SameMessagesHanded(w, w');
  }

  lemma ClaimHandsNothing(w: World, r: nat)
    requires CanClaim(w, r) && HandedOk(w)
    ensures HandedOk(ClaimWorld(w, r))
  {
    ClaimLater(w, r);
    ClaimWorldUnfolds(w, r);
    SameMessagesHanded(w, ClaimWorld(w, r));
  }

  lemma StepHanded(sha: string -> string, w: World, step: Step)
    requires Injective(sha) && Inv(sha, w) && HandedOk(w) && Enabled(w, step)
    ensures HandedOk(Apply(sha, w, step))
  {
    if Application(step) { ApplicationHandsNothing(sha, w, step); } else { GatewayHanded(sha, w, step); }
  }

  lemma ApplicationHandsNothing(sha: string -> string, w: World, step: Step)
    requires Enabled(w, step) && Application(step) && HandedOk(w)
    ensures HandedOk(Apply(sha, w, step))
  {
    ApplicationStepLater(sha, w, step);
    SameMessagesHanded(w, Apply(sha, w, step));
  }

  lemma GatewayHanded(sha: string -> string, w: World, step: Step)
    requires Injective(sha) && Inv(sha, w) && HandedOk(w) && Enabled(w, step) && !Application(step)
    ensures HandedOk(Apply(sha, w, step))
  {
    match step
    case ClaimStep(r) => ClaimHandsNothing(w, r);
    case SendStep(r, delivery) => SendHanded(sha, w, r, delivery);
    case FinishStep(r) => FinishHanded(sha, w, r);
    case _ => ReadsHandNothing(sha, w, step);
  }

  lemma {:induction false} EveryRunHanded(sha: string -> string, steps: seq<Step>)
    requires Injective(sha) && Run(sha, steps).Some?
    ensures HandedOk(Run(sha, steps).value)
    decreases |steps|
  {
    if steps != [] {
      var last := |steps| - 1;
      EveryRunHanded(sha, steps[..last]);
      EveryRunKeeps(sha, steps[..last]);
      StepHanded(sha, Run(sha, steps[..last]).value, steps[last]);
    }
  }

  /** A failed execution says nothing about the adapter: its message was handed over exactly when
      the approved letter had a subject and a body. */
  lemma FailedMayHaveSent(sha: string -> string, steps: seq<Step>, e: nat)
    requires Injective(sha) && Run(sha, steps).Some?
    requires e < |Run(sha, steps).value.db.executions|
    requires Run(sha, steps).value.db.executions[e].status == ExecFailed
    ensures var w := Run(sha, steps).value;
            && e < |w.spent| && w.spent[e] in w.grants
            && (SentFor(w.outbox, e) <==> HasLetter(w.grants[w.spent[e]].payload))
  {
    EveryRunHanded(sha, steps);
    assert HandedIfWhole(Run(sha, steps).value, e);
  }
}
