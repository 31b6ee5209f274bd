/** What the gateway's answers are worth: replay, retry, crash and a reused key, over every
    continuation of every run. */
module ProtocolAnswers {
  import opened Prelude
  import opened Store
  import opened Protocol
  import opened ProtocolInvariant
  import opened ProtocolGateway
  import opened ProtocolLater

  // ---- answers are true ------------------------------------------------------------------

  predicate SentFor(outbox: seq<Sent>, e: nat) {
    exists s | s in outbox :: s.executionId == e
  }

  /** A copy of an execution row: it was the row of this key, and may since have settled. */
  predicate CopyOfRow(db: Db, key: string, seen: Seen) {
    && seen.id < |db.executions| && seen.row.key == key
    && RowLater(seen.row, db.executions[seen.id])
  }

  predicate SettledAs(db: Db, key: string, e: nat, status: ExecutionStatus) {
    e < |db.executions| && db.executions[e].key == key && db.executions[e].status == status
  }

  predicate Truthful(w: World, q: Request) {
    match q.pc
    case Admitted(_, own) => own.Some? ==> CopyOfRow(w.db, q.key, own.value)
    case Matched(_, own) => own.Some? ==> CopyOfRow(w.db, q.key, own.value)
    case Verified(_, existing) => existing.Some? ==> CopyOfRow(w.db, q.key, existing.value)
    case Attempted(e, delivery) => delivery.Accepted? ==> SentFor(w.outbox, e)
    case Answered(Done(e, result)) =>
      SettledAs(w.db, q.key, e, ExecSucceeded) && w.db.executions[e].result == result
    case Answered(AlreadyDone(seen)) => CopyOfRow(w.db, q.key, seen)
    case Answered(ReportedFailed(e)) => SettledAs(w.db, q.key, e, ExecFailed)
    case _ => true
  }

  /** No execution succeeded without its message. */
  predicate SuccessWasSent(w: World) {
    forall e | 0 <= e < |w.db.executions| && w.db.executions[e].status == ExecSucceeded :: SentFor(w.outbox, e)
  }

  ghost predicate AnswersOk(w: World) {
    && SuccessWasSent(w)
    && forall r | r in w.requests :: Truthful(w, w.requests[r])
  }

  lemma SentForLater(outbox: seq<Sent>, outbox': seq<Sent>, e: nat)
    requires outbox <= outbox' && SentFor(outbox, e)
    ensures SentFor(outbox', e)
  {
    var s :| s in outbox && s.executionId == e;
    assert s in outbox';
  }

  lemma CopyLater(w: World, w': World, key: string, seen: Seen)
    requires Later(w, w') && CopyOfRow(w.db, key, seen)
    ensures CopyOfRow(w'.db, key, seen)
  {
    assert RowLater(w.db.executions[seen.id], w'.db.executions[seen.id]);
  }

  lemma TruthfulLater(w: World, w': World, q: Request)
    requires Later(w, w') && Truthful(w, q)
    ensures Truthful(w', q)
  {
    match q.pc
    case Admitted(_, own) => if own.Some? { CopyLater(w, w', q.key, own.value); }
    case Matched(_, own) => if own.Some? { CopyLater(w, w', q.key, own.value); }
    case Verified(_, existing) => if existing.Some? { CopyLater(w, w', q.key, existing.value); }
    case Attempted(e, delivery) => if delivery.Accepted? { SentForLater(w.outbox, w'.outbox, e); }
    case Answered(Done(e, _)) => assert RowLater(w.db.executions[e], w'.db.executions[e]);
    case Answered(AlreadyDone(seen)) => CopyLater(w, w', q.key, seen);
    case Answered(ReportedFailed(e)) => assert RowLater(w.db.executions[e], w'.db.executions[e]);
    case _ =>
  }

  /** One request moves, the executions stay: enough that its new place is truthful. */
  lemma MovedAnswers(w: World, w': World, r: nat)
    requires AnswersOk(w) && Later(w, w') && SuccessWasSent(w')
    requires r in w'.requests && w'.requests == w.requests[r := w'.requests[r]]
    requires Truthful(w', w'.requests[r])
    ensures AnswersOk(w')
  {
    forall x | x in w'.requests ensures Truthful(w', w'.requests[x]) {
      if x != r { TruthfulLater(w, w', w.requests[x]); }
    }
  }

  lemma SuccessStays(w: World, w': World)
    requires SuccessWasSent(w) && Later(w, w')
    requires forall e | 0 <= e < |w'.db.executions| && w'.db.executions[e].status == ExecSucceeded ::
               e < |w.db.executions| && w.db.executions[e].status == ExecSucceeded
    ensures SuccessWasSent(w')
  {
    forall e | 0 <= e < |w'.db.executions| && w'.db.executions[e].status == ExecSucceeded
      ensures SentFor(w'.outbox, e)
    {
      SentForLater(w.outbox, w'.outbox, e);
    }
  }

  lemma LookIsCopy(db: Db, key: string)
    ensures var seen := Look(db, FindExecution(db.executions, key));
            seen.Some? ==> CopyOfRow(db, key, seen.value)
  {
  }

  lemma AdvanceTruthful(sha: string -> string, w: World, q: Request)
    requires Truthful(w, q)
    ensures Truthful(w, q.(pc := Advance(sha, w.db, q)))
  {
    LookIsCopy(w.db, q.key);
  }

  lemma ReadAnswers(sha: string -> string, w: World, r: nat)
    requires AnswersOk(w) && r in w.requests
    ensures AnswersOk(SetPc(w, r, Advance(sha, w.db, w.requests[r])))
  {
    var w' := SetPc(w, r, Advance(sha, w.db, w.requests[r]));
    AdvanceTruthful(sha, w, w.requests[r]);
    MovedAnswers(w, w', r);
  }

  lemma ClaimAnswers(w: World, r: nat)
    requires AnswersOk(w) && CanClaim(w, r)
    ensures AnswersOk(ClaimWorld(w, r))
  {
    var w' := ClaimWorld(w, r);
    ClaimLater(w, r);
    ClaimWorldUnfolds(w, r);
    SuccessStays(w, w');
    MovedAnswers(w, w', r);
  }

  lemma SendAnswers(w: World, r: nat, delivery: Delivery)
    requires AnswersOk(w) && r in w.requests && w.requests[r].pc.Claimed?
    requires Letter(w.requests[r].pc.p).None? ==> delivery.Undelivered?
    ensures AnswersOk(SendWorld(w, r, delivery))
  {
    var w' := SendWorld(w, r, delivery);
    SendLater(w, r, delivery);
    SuccessStays(w, w');
    if delivery.Accepted? {
      assert w'.outbox[|w.outbox|] in w'.outbox;
    }
    MovedAnswers(w, w', r);
  }

  lemma FinishedRow(sha: string -> string, w: World, r: nat)
    requires Inv(sha, w) && CanFinish(w, r)
    ensures var w', q := FinishWorld(w, r), w.requests[r];
            && |w'.db.executions| == |w.db.executions| && w'.outbox == w.outbox
            && (forall e | 0 <= e < |w.db.executions| && e != q.pc.executionId ::
                  w'.db.executions[e] == w.db.executions[e])
            && w'.db.executions[q.pc.executionId].key == q.key
            && (q.pc.delivery.Accepted? <==> w'.db.executions[q.pc.executionId].status == ExecSucceeded)
            && r in w'.requests && w'.requests == w.requests[r := w'.requests[r]]
            && Truthful(w', w'.requests[r])
  {
    AttemptedIsPending(sha, w, r);
  }

  lemma FinishSuccess(sha: string -> string, w: World, r: nat)
    requires Inv(sha, w) && SuccessWasSent(w) && CanFinish(w, r) && Truthful(w, w.requests[r])
    ensures SuccessWasSent(FinishWorld(w, r))
  {
    FinishedRow(sha, w, r);
  }

  lemma FinishAnswers(sha: string -> string, w: World, r: nat)
    requires Inv(sha, w) && AnswersOk(w) && CanFinish(w, r)
    ensures AnswersOk(FinishWorld(w, r))
  {
    assert Truthful(w, w.requests[r]);
    AttemptedIsPending(sha, w, r);
    FinishLater(w, r);
    FinishedRow(sha, w, r);
    FinishSuccess(sha, w, r);
    MovedAnswers(w, FinishWorld(w, r), r);
  }

  /** A request arrives, loses a race or crashes. */
  lemma PcAnswers(sha: string -> string, w: World, step: Step)
    requires AnswersOk(w) && Enabled(w, step)
    requires step.ArriveStep? || step.ConflictStep? || step.CrashStep?
    ensures AnswersOk(Apply(sha, w, step))
  {
    var w' := Apply(sha, w, step);
    assert Later(w, w');
    MovedAnswers(w, w', step.r);
  }

  lemma StepAnswers(sha: string -> string, w: World, step: Step)
    requires Inv(sha, w) && AnswersOk(w) && Enabled(w, step)
    ensures AnswersOk(Apply(sha, w, step))
  {
    if Application(step) {
      ApplicationAnswers(sha, w, step);
    } else {
      match step
      case ReadStep(r) => ReadAnswers(sha, w, r);
      case ClaimStep(r) => ClaimAnswers(w, r);
      case SendStep(r, delivery) => SendAnswers(w, r, delivery);
      case FinishStep(r) => FinishAnswers(sha, w, r);
      case _ => PcAnswers(sha, w, step);
    }
  }

  lemma ApplicationAnswers(sha: string -> string, w: World, step: Step)
    requires AnswersOk(w) && Enabled(w, step) && Application(step)
    ensures AnswersOk(Apply(sha, w, step))
  {
    var w' := Apply(sha, w, step);
    ApplicationStepLater(sha, w, step);
    SuccessStays(w, w');
    forall r | r in w'.requests ensures Truthful(w', w'.requests[r]) {
      TruthfulLater(w, w', w.requests[r]);
    }
  }

  lemma {:induction false} EveryRunAnswers(sha: string -> string, steps: seq<Step>)
    requires Run(sha, steps).Some?
    ensures AnswersOk(Run(sha, steps).value)
    decreases |steps|
  {
    if steps != [] {
      var last := |steps| - 1;
      EveryRunAnswers(sha, steps[..last]);
      EveryRunKeeps(sha, steps[..last]);
      StepAnswers(sha, Run(sha, steps[..last]).value, steps[last]);
    }
  }

  /** The request was told that its action has been carried out. */
  predicate ToldItSucceeded(answer: Answer) {
    answer.Done? || (answer.AlreadyDone? && answer.seen.row.status == ExecSucceeded)
  }

  /** Whoever is told of a success, in any run, can point to one message, the only one ever
      handed to the adapter under that idempotency key. */
  lemma SuccessMeansOneMessage(sha: string -> string, steps: seq<Step>, r: nat) returns (s: Sent)
    requires Run(sha, steps).Some? && r in Run(sha, steps).value.requests
    requires var q := Run(sha, steps).value.requests[r]; q.pc.Answered? && ToldItSucceeded(q.pc.answer)
    ensures var w := Run(sha, steps).value;
            && s in w.outbox && s.key == w.requests[r].key
            && forall t | t in w.outbox && t.key == w.requests[r].key :: t == s
  {
    EveryRunAnswers(sha, steps);
    EveryRunKeeps(sha, steps);
    var w := Run(sha, steps).value;
    var e := SucceededAs(w, w.requests[r]);
    s := OneMessageUnderKey(sha, w, e);
  }

  /** The execution a success speaks of, and that it has its message. */
  lemma SucceededAs(w: World, q: Request) returns (e: nat)
    requires AnswersOk(w) && Truthful(w, q) && q.pc.Answered? && ToldItSucceeded(q.pc.answer)
    ensures e < |w.db.executions| && w.db.executions[e].key == q.key && SentFor(w.outbox, e)
  {
    e := if q.pc.answer.Done? then q.pc.answer.executionId else q.pc.answer.seen.id;
  }

  lemma OneMessageUnderKey(sha: string -> string, w: World, e: nat) returns (s: Sent)
    requires ExecutionsOk(w) && OutboxOk(sha, w) && e < |w.db.executions| && SentFor(w.outbox, e)
    ensures s in w.outbox && s.key == w.db.executions[e].key
    ensures forall t | t in w.outbox && t.key == w.db.executions[e].key :: t == s
  {
    s :| s in w.outbox && s.executionId == e;
    assert SentOk(sha, w, s);
    forall t | t in w.outbox && t.key == w.db.executions[e].key ensures t == s {
      assert SentOk(sha, w, t);
      KeyNamesExecution(w, t.executionId, e);
      SendOfExecution(w, s, t);
    }
  }

  lemma KeyNamesExecution(w: World, e: nat, f: nat)
    requires ExecutionsOk(w) && e < |w.db.executions| && f < |w.db.executions|
    requires w.db.executions[e].key == w.db.executions[f].key
    ensures e == f
  {
  }

  lemma SendOfExecution(w: World, s: Sent, t: Sent)
    requires forall i, j | 0 <= i < j < |w.outbox| :: w.outbox[i].executionId != w.outbox[j].executionId
    requires s in w.outbox && t in w.outbox && s.executionId == t.executionId
    ensures s == t
  {
    var i :| 0 <= i < |w.outbox| && w.outbox[i] == s;
    var j :| 0 <= j < |w.outbox| && w.outbox[j] == t;
    assert i == j;
  }
}
