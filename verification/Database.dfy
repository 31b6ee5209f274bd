/** The shared database as the two services change it: one method per `session_scope` block,
    each proved to do what the store's function of the same name says, and to leave no
    trace when it fails. */
module Database {
  import opened Prelude
  import opened CanonicalJson
  import opened Claims
  import opened Store
  import opened Protocol
  import opened ApprovalToken
  import opened Checks
  import opened Refusals
  import Executor
  import opened Sweep

  class SharedDatabase {
    var runs: map<Id, RunStatus>
    var proposals: map<Id, Proposal>
    var approvals: seq<Approval>
    var executions: seq<Execution>
    var nonces: map<string, NonceRow>
    var log: seq<Event>

    function View(): Db
      reads this
    {
      Db(runs, proposals, approvals, executions, nonces, log)
    }

    constructor ()
      ensures View() == EMPTY
    {
      runs, proposals, approvals, executions, nonces, log := map[], map[], [], [], map[], [];
    }

    /** `session.rollback()`. */
    method Rollback(saved: Db)
      modifies this
      ensures View() == saved
    {
      runs, proposals, approvals := saved.runs, saved.proposals, saved.approvals;
      executions, nonces, log := saved.executions, saved.nonces, saved.log;
    }

    /** `audit.append`, inside the caller's transaction. */
    method Append(actor: Actor, kind: Kind, subject: Id)
      modifies this`log
      ensures log == old(log) + [Event(actor, kind, subject)]
    {
      log := log + [Event(actor, kind, subject)];
    }

    // ---- app/store/repositories.py ---------------------------------------------------------

    /** `expire_stale_proposals`: the rows come back in whatever order the query gives. */
    method ExpireStaleProposals(now: Time) returns (count: nat, ghost order: seq<Id>)
      modifies this
      ensures SweepOrder(old(View()), now, order)
      ensures View() == ExpireStale(old(View()), order)
      ensures count == |order|
    {
      ghost var before := View();
      var stale := set id | id in proposals && proposals[id].status == Pending && proposals[id].expiresAt <= now;
      count, order := 0, [];
      while stale != {}
        invariant forall id :: IsStale(before, id, now) <==> id in stale || id in order
        invariant forall id | id in order :: id !in stale
        invariant forall i, j | 0 <= i < j < |order| :: order[i] != order[j]
        invariant View() == ExpireStale(before, order)
        invariant count == |order|
        decreases stale
      {
        var id :| id in stale;
        assert IsStale(before, id, now);
        ghost var was := order;
        proposals := proposals[id := proposals[id].(status := Expired)];
        Append(System, ProposalExpired, id);
        order := order + [id];
        SweptOneMore(before, was, id);
        stale := stale - {id};
        count := count + 1;
      }
    }

    /** `settle_run_if_decided`. */
    method SettleRunIfDecided(runId: Id) returns (settled: bool)
      modifies this
      ensures View() == SettleRun(old(View()), runId)
      ensures settled <==> runId in old(runs) && old(runs)[runId] == AwaitingApproval
                           && forall id | id in old(proposals) && old(proposals)[id].runId == runId ::
                                old(proposals)[id].status != Pending
      ensures settled == Settles(old(View()), runId)
    {
      if runId !in runs || runs[runId] != AwaitingApproval {
        return false;
      }
      var pending := set id | id in proposals && proposals[id].runId == runId && proposals[id].status == Pending;
      if pending != {} {
        ghost var id :| id in pending;
        return false;
      }
      assert forall id | id in proposals :: id !in pending;
      runs := runs[runId := Completed];
      Append(System, RunSettled, runId);
      return true;
    }

    /** `settle_decided_runs`: expiry first, then every run that waits on nothing. */
    method SettleDecidedRuns(now: Time) returns (count: nat, ghost order: seq<Id>, ghost waiting: seq<Id>)
      modifies this
      ensures SweepOrder(old(View()), now, order)
      ensures WaitingOrder(ExpireStale(old(View()), order), waiting)
      ensures View() == SettledSweep(old(View()), order, waiting)
      ensures count == SettledCount(ExpireStale(old(View()), order), waiting)
    {
      var _, o := ExpireStaleProposals(now);
      order := o;
      ghost var swept := View();
      var left := set runId | runId in runs && runs[runId] == AwaitingApproval;
      count, waiting := 0, [];
      while left != {}
        invariant forall runId :: Awaits(swept, runId) <==> runId in left || runId in waiting
        invariant forall runId | runId in waiting :: runId !in left
        invariant forall i, j | 0 <= i < j < |waiting| :: waiting[i] != waiting[j]
        invariant View() == SettleAll(swept, waiting)
        invariant count == SettledCount(swept, waiting)
        decreases left
      {
        var runId :| runId in left;
        var settled := SettleRunIfDecided(runId);
        assert (waiting + [runId])[..|waiting|] == waiting;
        waiting := waiting + [runId];
        left := left - {runId};
        if settled {
          count := count + 1;
        }
      }
    }

    /** `RunStore.create_proposal`: refused by the partial unique index, not by a lookup. */
    method CreateProposal(sha: string -> string, id: Id, runId: Id, payload: Json, invoiceId: string,
                          customerEmail: string, expiresAt: Time) returns (r: Result<Id, Error>)
      requires id !in proposals
      modifies this
      ensures match Store.CreateProposal(sha, old(View()), id, runId, payload, invoiceId, customerEmail, expiresAt)
              case Success(db) => r == Success(id) && View() == db
              case Failure(e) => r == Failure(e) && View() == old(View())
    {
      var clash := set x | x in proposals && proposals[x].invoiceId == invoiceId && proposals[x].status == Pending;
      if clash != {} {
        ghost var x :| x in clash;
        return Failure(DuplicatePendingProposal);
      }
      assert forall x | x in proposals :: x !in clash;
      var hash := HashPayload(sha, payload);
      proposals := proposals[id := Proposal(runId, ACTION_TYPE, Pending, payload, hash, invoiceId, customerEmail, expiresAt)];
      Append(Agent, ProposalCreated(hash), id);
      return Success(id);
    }

    // ---- app/services/proposals.py -----------------------------------------------------------

    /** `_load_pending`. */
    method LoadPending(id: Id, now: Time) returns (r: Result<Proposal, Error>)
      ensures r == Store.LoadPending(View(), id, now)
      ensures r.Success? <==> IsPending(View(), id) && now < proposals[id].expiresAt
    {
      if id !in proposals {
        return Failure(ProposalNotFound);
      }
      var p := proposals[id];
      if p.status != Pending {
        return Failure(ProposalNotPending(p.status));
      }
      if p.expiresAt <= now {
        return Failure(ProposalNotPending(Expired));
      }
      return Success(p);
    }

    /** The edit shared by `save_edit` and `approve`. */
    method Edit(sha: string -> string, id: Id, body: string)
      requires id in proposals
      modifies this
      ensures View() == EditRow(sha, old(View()), id, body)
    {
      var p := proposals[id];
      var previous := p.payloadHash;
      var payload := WithBody(p.payload, body);
      var hash := HashPayload(sha, payload);
      proposals := proposals[id := p.(payload := payload, payloadHash := hash)];
      Append(Operator, ProposalEdited(previous, hash), id);
    }

    /** `save_edit`: answers the new hash and the one it replaced. */
    method SaveEdit(sha: string -> string, id: Id, body: string, sweptAt: Time, now: Time)
      returns (r: Result<(string, string), Error>, ghost order: seq<Id>)
      modifies this
      ensures SweepOrder(old(View()), sweptAt, order)
      ensures match Store.SaveEdit(sha, old(View()), order, id, body, now)
              case Success(db) => View() == db && r.Success? && id in db.proposals
                                  && r.value.0 == db.proposals[id].payloadHash
                                  && id in old(proposals) && r.value.1 == old(proposals)[id].payloadHash
              case Failure(e) => r == Failure(e) && View() == old(View())
    {
      var saved := View();
      var _, o := ExpireStaleProposals(sweptAt);
      order := o;
      var loaded := LoadPending(id, now);
      if loaded.Failure? {
        Rollback(saved);
        return Failure(loaded.error), order;
      }
      Edit(sha, id, body);
      return Success((proposals[id].payloadHash, loaded.value.payloadHash)), order;
    }

    /** `reject`: terminal, and possibly the last thing its run was waiting on. */
    method Reject(id: Id, actor: string, note: string, sweptAt: Time, now: Time)
      returns (r: Result<(), Error>, ghost order: seq<Id>)
      modifies this
      ensures SweepOrder(old(View()), sweptAt, order)
      ensures match RejectProposal(old(View()), order, id, actor, note, now)
              case Success(db) => r == Success(()) && View() == db
              case Failure(e) => r == Failure(e) && View() == old(View())
    {
      var saved := View();
      if Strip(note) == "" {
        order := SomeOrder(saved, sweptAt);
        return Failure(NoteRequired), order;
      }
      var _, o := ExpireStaleProposals(sweptAt);
      order := o;
      var loaded := LoadPending(id, now);
      if loaded.Failure? {
        Rollback(saved);
        return Failure(loaded.error), order;
      }
      approvals := approvals + [Approval(id, Decision.Reject, actor, Some(note), None, None)];
      proposals := proposals[id := loaded.value.(status := Rejected)];
      Append(Operator, ApprovalRejected(actor), id);
      var _ := SettleRunIfDecided(loaded.value.runId);
      return Success(()), order;
    }

    /** The transaction of `approve`: the claims come from the payload as edited, and nothing
        is kept if the stored hash has drifted. */
    method Approve(sha: string -> string, id: Id, actor: string, note: Option<string>, editedBody: Option<string>,
                   nonce: string, sweptAt: Time, now: Time, ttl: int)
      returns (r: Result<Claims, Error>, ghost order: seq<Id>)
      modifies this
      ensures SweepOrder(old(View()), sweptAt, order)
      ensures match ApproveProposal(sha, old(View()), order, id, actor, note, editedBody, nonce, now, ttl)
              case Success((db, claims)) => r == Success(claims) && View() == db
              case Failure(e) => r == Failure(e) && View() == old(View())
    {
      var saved := View();
      var _, o := ExpireStaleProposals(sweptAt);
      order := o;
      var loaded := LoadPending(id, now);
      if loaded.Failure? {
        Rollback(saved);
        return Failure(loaded.error), order;
      }
      if NeedsEdit(loaded.value, editedBody) {
        Edit(sha, id, editedBody.value);
      }
      ghost var ready := View();
      r := Grant(sha, id, actor, note, editedBody, nonce, now, ttl);
      GrantIsMint(sha, ready, View(), id, actor, note, editedBody, nonce, now, ttl, r);
      if r.Failure? {
        Rollback(saved);
      }
      return r, order;
    }

    /** The rest of `approve`: refused exactly when the stored hash is not the payload's; else the
        token is for this proposal and this hash, in this name, under this nonce, from now until
        its lifetime is over, and record, status and both events are there with it. */
    method Grant(sha: string -> string, id: Id, actor: string, note: Option<string>, editedBody: Option<string>,
                 nonce: string, now: Time, ttl: int) returns (r: Result<Claims, Error>)
      requires id in proposals
      modifies this
      ensures var p := old(proposals)[id];
              if p.payloadHash == HashPayload(sha, p.payload)
              then r == Success(Claims(id, p.payloadHash, p.actionType, actor, nonce, now / 1_000_000, now / 1_000_000 + ttl))
              else r == Failure(PayloadHashDrift)
      ensures r.Success? ==>
                && proposals == old(proposals)[id := old(proposals)[id].(status := Approved)]
                && approvals == old(approvals) + [Approval(id, Decision.Approve, actor, note, editedBody, Some(nonce))]
                && log == old(log) + [Event(Operator, ApprovalGranted(actor, old(proposals)[id].payloadHash), id),
                                      Event(Operator, TokenMinted(actor, nonce), id)]
                && runs == old(runs) && executions == old(executions) && nonces == old(nonces)
    {
      assert HashPayload(sha, proposals[id].payload)[0] == PREFIX[0];
      approvals := approvals + [Approval(id, Decision.Approve, actor, note, editedBody, Some(nonce))];
      proposals := proposals[id := proposals[id].(status := Approved)];
      Append(Operator, ApprovalGranted(actor, proposals[id].payloadHash), id);
      r := MintForApproval(sha, id, proposals[id], actor, nonce, now, ttl);
      if r.Success? {
        Append(Operator, TokenMinted(actor, nonce), id);
      }
    }

    // ---- gateway/executor.py -------------------------------------------------------------------

    /** `_claim`: both rows are added, then flushed against the unique constraints. */
    method Claim(c: Claims, key: string) returns (r: Result<nat, Error>)
      modifies this
      ensures match ClaimExecution(old(View()), c, key)
              case Success((db, e)) => r == Success(e) && View() == db
              case Failure(e) => r == Failure(e) && View() == old(View())
    {
      var saved := View();
      var e := |executions|;
      executions := executions + [Execution(c.proposalId, key, ExecPending, Null, None)];
      nonces := nonces[c.nonce := NonceRow(c.proposalId, key)];
      if FindExecution(saved.executions, key).Some? {
        Rollback(saved);
        return Failure(KeyTaken);
      }
      if c.nonce in saved.nonces {
        Rollback(saved);
        return Failure(NonceTaken);
      }
      Append(Gateway, ExecutionStarted(e, key, c.payloadHash), c.proposalId);
      return Success(e);
    }

    /** `_finish`. */
    method Finish(e: nat, proposalId: Id, succeeded: bool, result: Json, error: Option<string>)
      requires e < |executions| && proposalId in proposals
      modifies this
      ensures View() == FinishExecution(old(View()), e, proposalId, succeeded, result, error)
    {
      var row := executions[e];
      row := row.(status := if succeeded then ExecSucceeded else ExecFailed);
      row := row.(result := result);
      row := row.(error := error);
      executions := executions[e := row];
      proposals := proposals[proposalId := proposals[proposalId].(status := if succeeded then Executed else Failed)];
      Append(Gateway, if succeeded then ExecutionSucceeded(e) else ExecutionFailed(e), proposalId);
    }

    /** `execute`: one answer, at most one message. `delivery` is what the adapter would say. */
    method Execute(v: Verdict, delivery: Delivery) returns (answer: Answer, handed: seq<Message>)
      requires v.claims.proposalId in proposals
      modifies this
      ensures (View(), handed, answer) == Executor.Executed(old(View()), v, delivery)
    {
      handed := [];
      // Check 7 already found this exact request.
      if v.existing.Some? {
        var existing := v.existing.value;
        if existing.row.status == ExecFailed {
          return ReportedFailed(existing.id), handed;
        }
        return AlreadyDone(existing), handed;
      }
      var claimed := Claim(v.claims, v.key);
      if claimed.Failure? {
        answer := AnswerFromTheWinner(v.key, claimed.error == NonceTaken);
        NewestUnderKey(View(), v.key, claimed.error == NonceTaken, answer);
        return answer, handed;
      }
      var e := claimed.value;
      var outcome := Executor.Attempt(v.proposal, delivery);
      var letter := Letter(v.proposal);
      if letter.Some? {
        handed := handed + [letter.value];
      }
      assert handed == Executor.Handed(v.proposal);
      ghost var during := View();
      if outcome.Undelivered? {
        Finish(e, v.claims.proposalId, false, outcome.result, Some(outcome.error));
        return ReportedFailed(e), handed;
      }
      assert outcome == Accepted(outcome.result);
      Finish(e, v.claims.proposalId, true, outcome.result, None);
      assert (View(), Done(e, outcome.result)) == Executor.Conclude(during, e, v.claims.proposalId, outcome);
      return Done(e, outcome.result), handed;
    }

    /** `_answer_from_the_winner`: the newest execution under the key, as it is now and whatever
        its status or its proposal; without one, a replay if the nonce collided, else an error. */
    method AnswerFromTheWinner(key: string, nonceTaken: bool) returns (answer: Answer)
      ensures answer.AlreadyDone? || answer == Refused(3) || answer == ServerError
      ensures answer.AlreadyDone? <==> exists e | 0 <= e < |executions| :: executions[e].key == key
      ensures answer.AlreadyDone? ==>
                var seen := answer.seen;
                && seen.id < |executions| && seen.row == executions[seen.id] && seen.row.key == key
                && forall e | seen.id < e < |executions| :: executions[e].key != key
      ensures answer == Refused(3) ==> nonceTaken
      ensures answer == ServerError ==> !nonceTaken
    {
      var existing := FindExecution(executions, key);
      if existing.Some? {
        return AlreadyDone(Seen(existing.value, executions[existing.value]));
      }
      if nonceTaken {
        return Refused(3);
      }
      return ServerError;
    }

    // ---- gateway/verify.py -----------------------------------------------------------------------

    /** `verify_execution_request`: the outcome is the first check that fails, reported with
        exactly the checks before it; with none failing, all seven are recorded. */
    method VerifyExecutionRequest(sha: string -> string, mac: Mac, secret: string, q: Incoming)
      returns (r: Result<Verdict, Refusal>)
      ensures Outcome(sha, mac, secret, View(), q, r)
      ensures KeysUnique(View()) ==> AnsweredAsSaid(sha, mac, secret, View(), q, r)
    {
      var key := Strip(q.rawKey.GetOr(""));
      if key == "" {
        return Failure(Refusal("missing_idempotency_key", 400, None, []));
      }

      // Check 1: signature.
      var passed: seq<string> := [];
      var decoded := Decoded(mac, secret, q);
      if decoded.Failure? {
        if decoded.error == InvalidSignature {
          return Failure(RefuseAt(1, passed));
        } else if decoded.error == MalformedToken {
          return Failure(Refusal("malformed_token", 401, Some(1), []));
        }
        return Failure(Unhandled);
      }
      passed := passed + [CHECK_NAMES[0]];
      r := VerifyState(sha, decoded.value, key, q, passed);
      if KeysUnique(View()) {
        EveryRefusal(sha, mac, secret, View(), q, r);
      }
    }

    /** Checks 2 to 7, each guarded by nothing but the ones above it. */
    method VerifyState(sha: string -> string, c: Claims, key: string, q: Incoming, signed: seq<string>)
      returns (r: Result<Verdict, Refusal>)
      requires signed == CHECK_NAMES[..1]
      ensures StateOutcome(sha, View(), c, key, q, r)
    {
      var passed := signed;
      ghost var db := View();

      // Check 2: expiry.
      if IsExpired(c, q.at) {
        RefusalIsOutcome(sha, db, c, key, q, 2);
        return Failure(RefuseAt(2, passed));
      }
      passed := passed + [CHECK_NAMES[1]];
      assert passed == CHECK_NAMES[..2];

      // Check 3: the nonce, bound to the key that consumed it.
      if c.nonce in nonces && nonces[c.nonce].key != key {
        RefusalIsOutcome(sha, db, c, key, q, 3);
        return Failure(RefuseAt(3, passed));
      }
      passed := passed + [CHECK_NAMES[2]];
      assert passed == CHECK_NAMES[..3];

      // Check 4: this database's own status, or this request's own earlier work.
      var own := FindOwnExecution(executions, key, c.proposalId);
      if c.proposalId !in proposals || (own.None? && !Sendable(proposals[c.proposalId], q.at)) {
        RefusalIsOutcome(sha, db, c, key, q, 4);
        return Failure(RefuseAt(4, passed));
      }
      passed := passed + [CHECK_NAMES[3]];
      assert passed == CHECK_NAMES[..4];
      r := VerifyApproval(sha, c, key, q, passed, own);
    }

    /** Checks 5 to 7. */
    method VerifyApproval(sha: string -> string, c: Claims, key: string, q: Incoming, admitted: seq<string>, own: Option<nat>)
      returns (r: Result<Verdict, Refusal>)
      requires admitted == CHECK_NAMES[..4] && own == FindOwnExecution(executions, key, c.proposalId)
      requires forall k | 2 <= k <= 4 :: Holds(sha, View(), c, key, q.at, k)
      requires c.proposalId in proposals
      ensures StateOutcome(sha, View(), c, key, q, r)
    {
      var passed := admitted;
      ghost var db := View();
      var proposal := proposals[c.proposalId];

      // Check 5: the newest approve record.
      var approval := LatestApproval(approvals, c.proposalId);
      if approval.None? || approval.value.actor != c.approver || approval.value.tokenNonce != Some(c.nonce) {
        RefusalIsOutcome(sha, db, c, key, q, 5);
        return Failure(RefuseAt(5, passed));
      }
      passed := passed + [CHECK_NAMES[4]];
      assert passed == CHECK_NAMES[..5];

      // Check 6: the letter still hashes to what was approved.
      var recomputed := HashPayload(sha, proposal.payload);
      if !HashesEqual(recomputed, c.payloadHash) {
        RefusalIsOutcome(sha, db, c, key, q, 6);
        return Failure(RefuseAt(6, passed));
      }
      passed := passed + [CHECK_NAMES[5]];
      assert passed == CHECK_NAMES[..6];

      // Check 7: never a refusal.
      var found := if own.Some? then own else FindExecution(executions, key);
      passed := passed + [CHECK_NAMES[6]];
      assert forall k | 2 <= k <= 6 :: Holds(sha, db, c, key, q.at, k);
      return Success(Verdict(c, proposal, approval.value, key, passed, Look(View(), found), BodyDisagrees(q, c)));
    }
  }

  /** What `Grant` says is what the store's minting and granting say. */
  lemma GrantIsMint(sha: string -> string, ready: Db, after: Db, id: Id, actor: string, note: Option<string>,
                    editedBody: Option<string>, nonce: string, now: Time, ttl: int, r: Result<Claims, Error>)
    requires id in ready.proposals
    requires var p := ready.proposals[id];
             if p.payloadHash == HashPayload(sha, p.payload)
             then r == Success(Claims(id, p.payloadHash, p.actionType, actor, nonce, now / 1_000_000, now / 1_000_000 + ttl))
             else r == Failure(PayloadHashDrift)
    requires r.Success? ==>
               && after.proposals == ready.proposals[id := ready.proposals[id].(status := Approved)]
               && after.approvals == ready.approvals + [Approval(id, Decision.Approve, actor, note, editedBody, Some(nonce))]
               && after.log == ready.log + [Event(Operator, ApprovalGranted(actor, ready.proposals[id].payloadHash), id),
                                            Event(Operator, TokenMinted(actor, nonce), id)]
               && after.runs == ready.runs && after.executions == ready.executions && after.nonces == ready.nonces
    ensures r == MintForApproval(sha, id, ready.proposals[id], actor, nonce, now, ttl)
    ensures r.Success? ==> after == GrantRow(ready, id, actor, note, editedBody, nonce)
  {
    assert HashPayload(sha, ready.proposals[id].payload)[0] == PREFIX[0];
  }

  /** The newest execution under a key is the one the query finds. */
  lemma NewestUnderKey(db: Db, key: string, nonceTaken: bool, answer: Answer)
    requires answer.AlreadyDone? || answer == Refused(3) || answer == ServerError
    requires answer.AlreadyDone? <==> exists e | 0 <= e < |db.executions| :: db.executions[e].key == key
    requires answer.AlreadyDone? ==>
               && answer.seen.id < |db.executions| && answer.seen.row == db.executions[answer.seen.id]
               && answer.seen.row.key == key
               && forall e | answer.seen.id < e < |db.executions| :: db.executions[e].key != key
    requires answer == Refused(3) ==> nonceTaken
    requires answer == ServerError ==> !nonceTaken
    ensures answer == AnswerFromWinner(db, key, nonceTaken)
  {
    var i := FindExecution(db.executions, key);
    if answer.AlreadyDone? {
      assert db.executions[answer.seen.id].key == key;
    }
  }

  lemma SweptOneMore(db: Db, order: seq<Id>, id: Id)
    requires id !in order && id in db.proposals
    ensures var swept := ExpireStale(db, order);
            ExpireStale(db, order + [id])
            == swept.(proposals := swept.proposals[id := swept.proposals[id].(status := Expired)],
                      log := swept.log + [Event(System, ProposalExpired, id)])
  {
    assert ExpiredEvents(order + [id]) == ExpiredEvents(order) + [Event(System, ProposalExpired, id)];
    var swept := ExpireStale(db, order);
    assert ExpireStale(db, order + [id]).proposals
        == swept.proposals[id := swept.proposals[id].(status := Expired)];
  }

  /** Some order for a sweep always exists. */
  lemma SomeOrder(db: Db, now: Time) returns (order: seq<Id>)
    ensures SweepOrder(db, now, order)
  {
    var stale := set id | id in db.proposals && IsStale(db, id, now);
    order := OrderOf(stale);
  }

  lemma OrderOf(s: set<Id>) returns (order: seq<Id>)
    ensures (forall i, j | 0 <= i < j < |order| :: order[i] != order[j]) && forall id :: id in order <==> id in s
  {
    if s == {} {
      order := [];
    } else {
      var id :| id in s;
      var rest := OrderOf(s - {id});
      order := rest + [id];
    }
  }
}
