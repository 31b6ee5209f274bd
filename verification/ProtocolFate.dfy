/** Exactly when a claimed letter can still be sent, and what "already executed" means for it. */
module ProtocolFate {
  import opened Prelude
  import opened CanonicalJson
  import opened CanonicalOrder
  import opened Store
  import opened Protocol
  import opened ProtocolInvariant
  import opened ProtocolGateway
  import opened ProtocolLater
  import opened ProtocolAnswers
  import opened ProtocolRetry
  import opened ProtocolKeys

  // ---- where a claimant can be ----------------------------------------------------------------

  /** The request that claimed execution `e` is before its hand-over, after it, or gone. */
  predicate Underway(w: World, e: nat) {
    && e < |w.claimants| && w.claimants[e] in w.requests
    && match w.requests[w.claimants[e]].pc
       case Claimed(_, f) => f == e
       case Attempted(f, _) => f == e
       case Answered(_) => true
       case _ => false
  }

  predicate AllUnderway(w: World) {
    |w.claimants| == |w.db.executions| && forall e | 0 <= e < |w.claimants| :: Underway(w, e)
  }

  /** The claimant's own step. */
  lemma OwnStepUnderway(sha: string -> string, w: World, step: Step, e: nat)
    requires Enabled(w, step) && Underway(w, e) && StepOf(step, w.claimants[e])
    ensures step.SendStep? || step.FinishStep? || step.CrashStep?
    ensures var r, w' := w.claimants[e], Apply(sha, w, step);
            && w'.claimants == w.claimants && |w'.db.executions| == |w.db.executions| && Underway(w', e)
            && !w'.requests[r].pc.Claimed? && (step.SendStep? || w'.outbox == w.outbox)
  {
  }

  lemma OthersStepUnderway(sha: string -> string, w: World, step: Step, e: nat)
    requires Inv(sha, w) && Enabled(w, step) && Underway(w, e) && !StepOf(step, w.claimants[e])
    ensures var r, w' := w.claimants[e], Apply(sha, w, step);
            && r in w'.requests && w'.requests[r] == w.requests[r]
            && e < |w'.claimants| && w'.claimants[e] == r && Underway(w', e)
  {
    OnlyTheClaimantActs(sha, w, step, e);
    OthersRequest(sha, w, step, w.claimants[e]);
  }

  lemma StepUnderway(sha: string -> string, w: World, step: Step)
    requires Inv(sha, w) && AllUnderway(w) && Enabled(w, step)
    ensures AllUnderway(Apply(sha, w, step))
  {
    var w' := Apply(sha, w, step);
    forall e: nat | e < |w.claimants| ensures Underway(w', e) {
      assert Underway(w, e);
      if StepOf(step, w.claimants[e]) { OwnStepUnderway(sha, w, step, e); } else { OthersStepUnderway(sha, w, step, e); }
    }
    if step.ClaimStep? { ClaimWorldUnfolds(w, step.r); } else { OtherStepsAddNone(sha, w, step); }
  }

  lemma {:induction false} EveryRunUnderway(sha: string -> string, steps: seq<Step>)
    requires Run(sha, steps).Some?
    ensures AllUnderway(Run(sha, steps).value)
    decreases |steps|
  {
    if steps != [] {
      var last := |steps| - 1;
      EveryRunUnderway(sha, steps[..last]);
      EveryRunKeeps(sha, steps[..last]);
      StepUnderway(sha, Run(sha, steps[..last]).value, steps[last]);
    }
  }

  // ---- can it still be sent -------------------------------------------------------------------

  /** The claimant stands right before its hand-over, and the approved letter has both its parts. */
  ghost predicate AboutToSend(w: World, e: nat) {
    && Underway(w, e) && w.requests[w.claimants[e]].pc.Claimed?
    && e < |w.spent| && w.spent[e] in w.grants && HasLetter(w.grants[w.spent[e]].payload)
  }

  lemma SendNow(sha: string -> string, steps: seq<Step>, e: nat) returns (more: seq<Step>)
    requires Injective(sha) && Run(sha, steps).Some? && AboutToSend(Run(sha, steps).value, e)
    ensures Run(sha, steps + more).Some? && SentFor(Run(sha, steps + more).value.outbox, e)
  {
    var w := Run(sha, steps).value;
    var step := SendStep(w.claimants[e], Undelivered(Null, ""));
    EveryRunKeeps(sha, steps);
    SendHandsOver(sha, w, step.r, step.delivery);
    SendApplies(sha, w, step.r, step.delivery);
    RunExtends(sha, steps, step);
    more := [step];
  }

  lemma SendApplies(sha: string -> string, w: World, r: nat, delivery: Delivery)
    requires r in w.requests && w.requests[r].pc.Claimed? && delivery.Undelivered?
    ensures Enabled(w, SendStep(r, delivery)) && Apply(sha, w, SendStep(r, delivery)) == SendWorld(w, r, delivery)
  {
  }

  lemma RunExtends(sha: string -> string, steps: seq<Step>, step: Step)
    requires Run(sha, steps).Some? && Enabled(Run(sha, steps).value, step)
    ensures Run(sha, steps + [step]) == Some(Apply(sha, Run(sha, steps).value, step))
  {
    assert (steps + [step])[..|steps|] == steps;
  }

  /** The hand-over of a claimed execution: a message exactly if the approved letter is whole. */
  lemma SendHandsOver(sha: string -> string, w: World, r: nat, delivery: Delivery)
    requires Injective(sha) && GrantsOk(sha, w) && RequestsOk(sha, w) && r in w.requests && w.requests[r].pc.Claimed?
    ensures var e, w' := w.requests[r].pc.executionId, SendWorld(w, r, delivery);
            && e < |w.spent| && w.spent[e] in w.grants
            && (SentFor(w'.outbox, e) <==> HasLetter(w.grants[w.spent[e]].payload))
  {
    assert RequestOk(sha, w, r, w.requests[r]);
    SendHands(sha, w, r, delivery);
    SendLater(w, r, delivery);
  }

  ghost predicate Lost(w: World, e: nat) {
    Underway(w, e) && !SentFor(w.outbox, e) && !AboutToSend(w, e)
  }

  lemma LostStep(sha: string -> string, w: World, step: Step, e: nat)
    requires Injective(sha) && Inv(sha, w) && Enabled(w, step) && Lost(w, e)
    ensures Lost(Apply(sha, w, step), e)
  {
    if StepOf(step, w.claimants[e]) { LostOwnStep(sha, w, step, e); } else { LostOthersStep(sha, w, step, e); }
  }

  lemma LostOwnStep(sha: string -> string, w: World, step: Step, e: nat)
    requires Injective(sha) && Inv(sha, w) && Enabled(w, step) && Lost(w, e) && StepOf(step, w.claimants[e])
    ensures Lost(Apply(sha, w, step), e)
  {
    OwnStepUnderway(sha, w, step, e);
    if step.SendStep? {
      SendHandsOver(sha, w, step.r, step.delivery);
    }
  }

  lemma LostOthersStep(sha: string -> string, w: World, step: Step, e: nat)
    requires Inv(sha, w) && Enabled(w, step) && Lost(w, e) && !StepOf(step, w.claimants[e])
    ensures Lost(Apply(sha, w, step), e)
  {
    OthersStepUnderway(sha, w, step, e);
    OnlyTheClaimantActs(sha, w, step, e);
    StepLater(sha, w, step);
    assert ExecutionOk(w, e);
  }

  lemma {:induction false} LostForever(sha: string -> string, steps: seq<Step>, more: seq<Step>, e: nat)
    requires Injective(sha) && Run(sha, steps).Some? && Run(sha, steps + more).Some? && Lost(Run(sha, steps).value, e)
    ensures Lost(Run(sha, steps + more).value, e)
    decreases |more|
  {
    if more == [] {
      assert steps + more == steps;
    } else {
      var init, step := more[..|more| - 1], more[|more| - 1];
      assert (steps + more)[..|steps + more| - 1] == steps + init;
      LostForever(sha, steps, init, e);
      EveryRunKeeps(sha, steps + init);
      LostStep(sha, Run(sha, steps + init).value, step, e);
    }
  }

  ghost predicate SentAfter(sha: string -> string, steps: seq<Step>, more: seq<Step>, e: nat) {
    Run(sha, steps + more).Some? && SentFor(Run(sha, steps + more).value.outbox, e)
  }

  /** Some continuation of the run has the message of `e`. */
  ghost predicate CanBeSent(sha: string -> string, steps: seq<Step>, e: nat) {
    exists more :: SentAfter(sha, steps, more, e)
  }

  /** In every run, for every execution: its message exists in some continuation exactly when it
      exists already, or its claimant stands right before the hand-over and the approved letter has
      a subject and a body. In every other case it is lost for good: with a crash before the
      hand-over, and also with a hand-over that found no whole letter, crashed after it or not. */
  lemma SentOrAboutTo(sha: string -> string, steps: seq<Step>, e: nat)
    requires Injective(sha) && Run(sha, steps).Some? && e < |Run(sha, steps).value.db.executions|
    ensures var w := Run(sha, steps).value;
            CanBeSent(sha, steps, e) <==> SentFor(w.outbox, e) || AboutToSend(w, e)
  {
    var w := Run(sha, steps).value;
    EveryRunUnderway(sha, steps);
    assert Underway(w, e);
    if SentFor(w.outbox, e) {
      assert steps + [] == steps;
      assert SentAfter(sha, steps, [], e);
    } else if AboutToSend(w, e) {
      var more := SendNow(sha, steps, e);
      assert SentAfter(sha, steps, more, e);
    } else if more :| SentAfter(sha, steps, more, e) {
      LostForever(sha, steps, more, e);
    }
  }

  // ---- what "already executed" means -----------------------------------------------------------

  /** What a request that was told "already executed" can conclude from the status it was shown, in
      every run: succeeded, the message has been handed over; failed, exactly if the approved letter
      was whole; pending, nothing yet. Whatever it was shown, the letter will never be sent exactly
      when it has not been and its claimant is not about to. */
  lemma AlreadyDoneMeans(sha: string -> string, steps: seq<Step>, r: nat)
    requires Injective(sha) && Run(sha, steps).Some? && r in Run(sha, steps).value.requests
    requires var pc := Run(sha, steps).value.requests[r].pc; pc.Answered? && pc.answer.AlreadyDone?
    ensures var w := Run(sha, steps).value;
            var seen := w.requests[r].pc.answer.seen;
            var e, status := seen.id, seen.row.status;
            && e < |w.db.executions| && e < |w.spent| && w.spent[e] in w.grants
            && (status == ExecSucceeded ==> SentFor(w.outbox, e))
            && (status == ExecFailed ==> (CanBeSent(sha, steps, e) <==> HasLetter(w.grants[w.spent[e]].payload)))
            && (AboutToSend(w, e) ==> status == ExecPending)
            && (!CanBeSent(sha, steps, e) <==> status != ExecSucceeded && !SentFor(w.outbox, e) && !AboutToSend(w, e))
  {
    EveryRunAnswers(sha, steps);
    EveryRunKeeps(sha, steps);
    var w := Run(sha, steps).value;
    var seen := w.requests[r].pc.answer.seen;
    ShownRow(sha, w, r);
    SentOrAboutTo(sha, steps, seen.id);
    AboutToIsPending(sha, w, seen.id);
    if seen.row.status == ExecFailed { FailedMayHaveSent(sha, steps, seen.id); }
  }

  /** A settled row that was shown is still the row. */
  lemma ShownRow(sha: string -> string, w: World, r: nat)
    requires AnswersOk(w) && ExecutionsOk(w) && r in w.requests
    requires w.requests[r].pc.Answered? && w.requests[r].pc.answer.AlreadyDone?
    ensures var e, status := w.requests[r].pc.answer.seen.id, w.requests[r].pc.answer.seen.row.status;
            && e < |w.db.executions| && e < |w.spent| && w.spent[e] in w.grants
            && (status != ExecPending ==> w.db.executions[e].status == status)
            && (status == ExecSucceeded ==> SentFor(w.outbox, e))
  {
    assert Truthful(w, w.requests[r]);
    assert ExecutionOk(w, w.requests[r].pc.answer.seen.id);
  }

  lemma AboutToIsPending(sha: string -> string, w: World, e: nat)
    requires RequestsOk(sha, w)
    ensures AboutToSend(w, e) ==> e < |w.db.executions| && w.db.executions[e].status == ExecPending
  {
    if AboutToSend(w, e) { SenderOwns(sha, w, w.claimants[e]); }
  }
}
