/** Each transaction written out in the tables: when it is refused and with what, and every row and
    event it leaves otherwise. Nothing here is said through the tests and row functions that the
    store itself uses. */
module Transactions {
  import opened Prelude
  import opened CanonicalJson
  import opened Claims
  import opened Store
  import opened Decisions
  import opened Protocol
  import opened Checks
  import Executor

  // ---- expiry --------------------------------------------------------------------------------

  /** Pending, and at or past its deadline. */
  predicate Lapsed(p: Proposal, now: Time) {
    p.status == Pending && p.expiresAt <= now
  }

  /** The rows after a sweep: the lapsed ones expired, the others as they were. */
  predicate Expiring(before: map<Id, Proposal>, after: map<Id, Proposal>, now: Time) {
    && after.Keys == before.Keys
    && forall id | id in before :: after[id] == if Lapsed(before[id], now) then before[id].(status := Expired) else before[id]
  }

  /** One event for each lapsed row, and no other. */
  ghost predicate ExpiryLogged(before: map<Id, Proposal>, events: seq<Event>, now: Time) {
    && (forall e | e in events ::
          e.actor == System && e.kind == ProposalExpired && e.subject in before && Lapsed(before[e.subject], now))
    && (forall id | id in before && Lapsed(before[id], now) :: exists e | e in events :: e.subject == id)
    && (forall i, j | 0 <= i < j < |events| :: events[i].subject != events[j].subject)
  }

  lemma Expires(db: Db, now: Time, order: seq<Id>)
    requires SweepOrder(db, now, order)
    ensures Expiring(db.proposals, ExpireStale(db, order).proposals, now)
    ensures ExpiryLogged(db.proposals, ExpiredEvents(order), now)
    ensures ExpireStale(db, order) == db.(proposals := ExpireStale(db, order).proposals, log := db.log + ExpiredEvents(order))
  {
    var events := ExpiredEvents(order);
    forall id | id in db.proposals && Lapsed(db.proposals[id], now) ensures exists e | e in events :: e.subject == id {
      assert IsStale(db, id, now);
      var k :| 0 <= k < |order| && order[k] == id;
      assert events[k] in events && events[k].subject == id;
    }
    forall e | e in events
      ensures e.actor == System && e.kind == ProposalExpired && e.subject in db.proposals && Lapsed(db.proposals[e.subject], now)
    {
      var k :| 0 <= k < |events| && events[k] == e;
      assert order[k] in order;
    }
  }

  // ---- runs ------------------------------------------------------------------------------------

  /** No proposal of this run is pending; other runs' proposals do not matter. */
  predicate NonePending(proposals: map<Id, Proposal>, runId: Id) {
    forall id | id in proposals && proposals[id].runId == runId :: proposals[id].status != Pending
  }

  /** A run is settled exactly when it awaits approval and none of its own proposals is pending. */
  lemma SettlesExactly(db: Db, runId: Id)
    ensures Settles(db, runId) <==> runId in db.runs && db.runs[runId] == AwaitingApproval && NonePending(db.proposals, runId)
    ensures SettleRun(db, runId)
         == if runId in db.runs && db.runs[runId] == AwaitingApproval && NonePending(db.proposals, runId)
            then db.(runs := db.runs[runId := Completed], log := db.log + [Event(System, RunSettled, runId)]) else db
  {
  }

  /** Whatever happens to the proposals of other runs, the answer for this one is the same. */
  lemma SettlingIgnoresOtherRuns(db: Db, db': Db, runId: Id)
    requires db'.runs == db.runs
    requires forall id | id in db.proposals && db.proposals[id].runId == runId ::
               id in db'.proposals && db'.proposals[id] == db.proposals[id]
    requires forall id | id in db'.proposals && db'.proposals[id].runId == runId ::
               id in db.proposals && db.proposals[id] == db'.proposals[id]
    ensures Settles(db, runId) <==> Settles(db', runId)
    ensures runId in db.runs ==> SettleRun(db', runId).runs[runId] == SettleRun(db, runId).runs[runId]
  {
    SettlesExactly(db, runId);
    SettlesExactly(db', runId);
  }

  /** What happens to runs besides: a new one is queued; a status that ends a run is audited, as a
      failure or as an end; a starting service fails the runs it finds queued or running, with one
      event each, and leaves the others alone. */
  lemma Housekeeps(db: Db, change: Housekeeping)
    requires Housekept(db.runs, change)
    ensures var r := Housekeep(db, change);
            && r == db.(runs := r.runs, log := r.log)
            && match change
               case RunCreated(runId) =>
                 runId !in db.runs && r.runs == db.runs[runId := Queued] && r.log == db.log + [Event(Operator, RunStarted, runId)]
               case StatusSet(runId, status) =>
                 if runId !in db.runs || status == Queued || status == Running then
                   r.log == db.log && r.runs == if runId in db.runs then db.runs[runId := status] else db.runs
                 else
                   && r.runs == db.runs[runId := status]
                   && r.log == db.log + [Event(Agent, if status == RunFailed then RunBroken else RunCompleted, runId)]
               case RunsAbandoned(orphans) =>
                 && r.runs.Keys == db.runs.Keys
                 && (forall id | id in db.runs ::
                       r.runs[id] == if db.runs[id] == Queued || db.runs[id] == Running then RunFailed else db.runs[id])
                 && |r.log| == |db.log| + |orphans| && r.log[..|db.log|] == db.log
                 && (forall i | 0 <= i < |orphans| :: r.log[|db.log| + i] == Event(System, RunAbandoned, orphans[i]))
                 && (forall id :: id in orphans <==> id in db.runs && (db.runs[id] == Queued || db.runs[id] == Running))
               case ServiceStarted(service, migrated) =>
                 && r.runs == db.runs
                 && r.log == if migrated then db.log + [Event(System, SchemaMigrated, service), Event(System, SystemStarted, service)]
                             else db.log + [Event(System, SystemStarted, service)]
  {
    if change.RunsAbandoned? {
      forall id ensures id in change.orphans <==> id in db.runs && (db.runs[id] == Queued || db.runs[id] == Running) {
        assert id in change.orphans <==> IsOrphan(db.runs, id);
      }
    } else {
      assert db.log + [] == db.log;
    }
  }

  // ---- drafts and decisions --------------------------------------------------------------------

  /** A letter is queued unless its invoice has a pending one; the row is new and pending, its hash
      is the payload's. */
  lemma Creates(sha: string -> string, db: Db, id: Id, runId: Id, payload: Json, invoiceId: string, email: string, deadline: Time)
    ensures var r := CreateProposal(sha, db, id, runId, payload, invoiceId, email, deadline);
            if exists x | x in db.proposals :: db.proposals[x].invoiceId == invoiceId && db.proposals[x].status == Pending
            then r == Failure(DuplicatePendingProposal)
            else
              var hash := "sha256:" + sha(CanonicalText(payload));
              r == Success(db.(proposals := db.proposals[id :=
                                 Proposal(runId, "send_collection_letter", Pending, payload, hash, invoiceId, email, deadline)],
                               log := db.log + [Event(Agent, ProposalCreated(hash), id)]))
  {
  }

  /** The proposal a decision is about, as it is now: refused if it is not there, no longer pending,
      or past its deadline. */
  function Undecidable(proposals: map<Id, Proposal>, id: Id, now: Time): Option<Error> {
    if id !in proposals then Some(ProposalNotFound)
    else if proposals[id].status != Pending then Some(ProposalNotPending(proposals[id].status))
    else if proposals[id].expiresAt <= now then Some(ProposalNotPending(Expired))
    else None
  }

  /** A decision sees the queue after the sweep inside it. */
  lemma LoadsOrRefuses(db: Db, sweptAt: Time, order: seq<Id>, id: Id, now: Time)
    requires SweepOrder(db, sweptAt, order) && sweptAt <= now
    ensures match LoadPending(ExpireStale(db, order), id, now)
            case Failure(e) =>
              Undecidable(db.proposals, id, now)
              == Some(if id in db.proposals && Lapsed(db.proposals[id], sweptAt) then ProposalNotPending(Expired) else e)
            case Success(p) => Undecidable(db.proposals, id, now) == None && p == db.proposals[id]
  {
    Expires(db, sweptAt, order);
  }

  /** Saving a text: the body is replaced and re-hashed in place; nothing else of any row the sweep
      kept. The event names both hashes. */
  lemma SavesEdit(sha: string -> string, db: Db, sweptAt: Time, order: seq<Id>, id: Id, body: string, now: Time)
    requires SweepOrder(db, sweptAt, order) && sweptAt <= now
    requires id in db.proposals ==> db.proposals[id].payload.Obj?
    ensures var r, swept := SaveEdit(sha, db, order, id, body, now), ExpireStale(db, order);
            match Undecidable(db.proposals, id, now)
            case Some(e) => r == Failure(e)
            case None =>
              var p := db.proposals[id];
              && r.Success? && id in r.value.proposals
              && var payload := r.value.proposals[id].payload;
                 var hash := "sha256:" + sha(CanonicalText(payload));
                 && Field(payload, "body") == Some(Str(body)) && SameButForBody(payload, p.payload)
                 && r.value == swept.(proposals := swept.proposals[id := p.(payload := payload, payloadHash := hash)],
                                      log := swept.log + [Event(Operator, ProposalEdited(p.payloadHash, hash), id)])
  {
    Expires(db, sweptAt, order);
    if id in db.proposals { WithBodyChangesBody(db.proposals[id].payload, body); }
  }

  /** A rejection: a note that is more than white space, then the proposal; the decision, the status
      and the event, and the run if it was waiting for nothing else. */
  lemma Rejects(db: Db, sweptAt: Time, order: seq<Id>, id: Id, actor: string, note: string, now: Time)
    requires SweepOrder(db, sweptAt, order) && sweptAt <= now
    ensures var r, swept := RejectProposal(db, order, id, actor, note, now), ExpireStale(db, order);
            if Strip(note) == "" then r == Failure(NoteRequired)
            else
              match Undecidable(db.proposals, id, now)
              case Some(e) => r == Failure(e)
              case None =>
                var proposals := swept.proposals[id := db.proposals[id].(status := Rejected)];
                var log := swept.log + [Event(Operator, ApprovalRejected(actor), id)];
                var runId := db.proposals[id].runId;
                var settles := runId in db.runs && db.runs[runId] == AwaitingApproval && NonePending(proposals, runId);
                r == Success(swept.(proposals := proposals,
                                    approvals := db.approvals + [Approval(id, Reject, actor, Some(note), None, None)],
                                    runs := if settles then db.runs[runId := Completed] else db.runs,
                                    log := if settles then log + [Event(System, RunSettled, runId)] else log))
  {
    Expires(db, sweptAt, order);
    if Undecidable(db.proposals, id, now).None? {
      SettlesExactly(RejectRow(ExpireStale(db, order), id, actor, note), db.proposals[id].runId);
    }
  }

  // ---- approval -----------------------------------------------------------------------------------

  /** The approved row, the record, and the two events, over these rows and this log. */
  function Granting(db: Db, id: Id, row: Proposal, actor: string, note: Option<string>, editedBody: Option<string>,
                    nonce: string, log: seq<Event>): Db
  {
    db.(proposals := db.proposals[id := row.(status := Approved)],
        approvals := db.approvals + [Approval(id, Approve, actor, note, editedBody, Some(nonce))],
        log := log + [Event(Operator, ApprovalGranted(actor, row.payloadHash), id), Event(Operator, TokenMinted(actor, nonce), id)])
  }

  /** Approving without a text, or with the very text on display, is not an edit: payload and stored
      hash stay, the log gains the sweep's events and the two of the grant, and the approval is
      refused as drifted exactly when the stored hash is not the payload's. */
  lemma ApprovesAsDisplayed(sha: string -> string, db: Db, sweptAt: Time, order: seq<Id>, id: Id, actor: string,
                            note: Option<string>, editedBody: Option<string>, nonce: string, now: Time, ttl: int)
    requires SweepOrder(db, sweptAt, order) && sweptAt <= now && Undecidable(db.proposals, id, now).None?
    requires editedBody.None? || Field(db.proposals[id].payload, "body") == Some(Str(editedBody.value))
    ensures var r := ApproveProposal(sha, db, order, id, actor, note, editedBody, nonce, now, ttl);
            var swept, p := ExpireStale(db, order), db.proposals[id];
            if p.payloadHash == "sha256:" + sha(CanonicalText(p.payload))
            then r == Success((Granting(swept, id, p, actor, note, editedBody, nonce, swept.log),
                               Claims(id, p.payloadHash, p.actionType, actor, nonce, now / 1_000_000, now / 1_000_000 + ttl)))
            else r == Failure(PayloadHashDrift)
  {
    Expires(db, sweptAt, order);
    assert HashPayload(sha, db.proposals[id].payload)[0] == PREFIX[0];
  }

  /** Approving with another text edits first: the body and its hash, with exactly one event before
      the two of the grant; and drift is never reported. */
  lemma ApprovesAsEdited(sha: string -> string, db: Db, sweptAt: Time, order: seq<Id>, id: Id, actor: string,
                         note: Option<string>, body: string, nonce: string, now: Time, ttl: int)
    requires SweepOrder(db, sweptAt, order) && sweptAt <= now && Undecidable(db.proposals, id, now).None?
    requires db.proposals[id].payload.Obj? && Field(db.proposals[id].payload, "body") != Some(Str(body))
    ensures var r := ApproveProposal(sha, db, order, id, actor, note, Some(body), nonce, now, ttl);
            var swept, p := ExpireStale(db, order), db.proposals[id];
            && r.Success? && id in r.value.0.proposals
            && var payload := r.value.0.proposals[id].payload;
               var hash := "sha256:" + sha(CanonicalText(payload));
               && Field(payload, "body") == Some(Str(body)) && SameButForBody(payload, p.payload)
               && r.value == (Granting(swept, id, p.(payload := payload, payloadHash := hash), actor, note, Some(body), nonce,
                                       swept.log + [Event(Operator, ProposalEdited(p.payloadHash, hash), id)]),
                              Claims(id, hash, p.actionType, actor, nonce, now / 1_000_000, now / 1_000_000 + ttl))
  {
    Expires(db, sweptAt, order);
    WithBodyChangesBody(db.proposals[id].payload, body);
    EditedThenGranted(sha, ExpireStale(db, order), id, actor, note, body, nonce, now, ttl);
  }

  lemma EditedThenGranted(sha: string -> string, db: Db, id: Id, actor: string, note: Option<string>, body: string,
                          nonce: string, now: Time, ttl: int)
    requires id in db.proposals
    ensures var p := db.proposals[id];
            var q := p.(payload := WithBody(p.payload, body), payloadHash := HashPayload(sha, WithBody(p.payload, body)));
            && GrantRow(EditRow(sha, db, id, body), id, actor, note, Some(body), nonce)
               == Granting(db, id, q, actor, note, Some(body), nonce,
                           db.log + [Event(Operator, ProposalEdited(p.payloadHash, q.payloadHash), id)])
            && MintForApproval(sha, id, q, actor, nonce, now, ttl)
               == Success(Claims(id, q.payloadHash, p.actionType, actor, nonce, now / 1_000_000, now / 1_000_000 + ttl))
  {
    var p := db.proposals[id];
    var q := Edited(sha, p, body);
    assert HashPayload(sha, q.payload)[0] == PREFIX[0];
    assert db.proposals[id := q][id := q.(status := Approved)] == db.proposals[id := q.(status := Approved)];
  }

  /** What cannot be approved. */
  lemma ApprovesNothingElse(sha: string -> string, db: Db, sweptAt: Time, order: seq<Id>, id: Id, actor: string,
                            note: Option<string>, editedBody: Option<string>, nonce: string, now: Time, ttl: int)
    requires SweepOrder(db, sweptAt, order) && sweptAt <= now && Undecidable(db.proposals, id, now).Some?
    ensures ApproveProposal(sha, db, order, id, actor, note, editedBody, nonce, now, ttl)
         == Failure(Undecidable(db.proposals, id, now).value)
  {
    Expires(db, sweptAt, order);
  }

  /** The demonstration token: for every proposal that is there and not approved, and for no other;
      it carries the hash of the payload as it is, whatever the stored one. */
  lemma MintsProbe(sha: string -> string, db: Db, id: Id, actor: string, nonce: string, now: Time, ttl: int)
    ensures MintProbe(sha, db, id, actor, nonce, now, ttl)
         == if id !in db.proposals then Failure(ProposalNotFound)
            else if db.proposals[id].status == Approved then Failure(ProbeNotPermitted)
            else
              Success(Claims(id, "sha256:" + sha(CanonicalText(db.proposals[id].payload)), db.proposals[id].actionType, actor,
                             nonce, now / 1_000_000, now / 1_000_000 + ttl))
  {
  }

  // ---- claim and finish ------------------------------------------------------------------------------

  /** A claim collides with the key first, then with the nonce; else it adds a pending execution, the
      consumed nonce and the started event. */
  lemma ClaimsOrCollides(db: Db, c: Claims, key: string)
    ensures ClaimExecution(db, c, key)
         == if exists x | x in db.executions :: x.key == key then Failure(KeyTaken)
            else if c.nonce in db.nonces then Failure(NonceTaken)
            else
              var e := |db.executions|;
              Success((db.(executions := db.executions + [Execution(c.proposalId, key, ExecPending, Null, None)],
                           nonces := db.nonces[c.nonce := NonceRow(c.proposalId, key)],
                           log := db.log + [Event(Gateway, ExecutionStarted(e, key, c.payloadHash), c.proposalId)]), e))
  {
    if x :| x in db.executions && x.key == key {
      var i :| 0 <= i < |db.executions| && db.executions[i] == x;
      assert FindExecution(db.executions, key).Some?;
    }
  }

  /** A finish writes the outcome, its result and its error on the execution, the status that goes
      with it on the proposal, and its event. */
  lemma Finishes(db: Db, e: nat, id: Id, succeeded: bool, result: Json, error: Option<string>)
    requires e < |db.executions| && id in db.proposals
    ensures var x := db.executions[e];
            FinishExecution(db, e, id, succeeded, result, error)
            == if succeeded
               then db.(executions := db.executions[e := Execution(x.proposalId, x.key, ExecSucceeded, result, error)],
                        proposals := db.proposals[id := db.proposals[id].(status := Executed)],
                        log := db.log + [Event(Gateway, ExecutionSucceeded(e), id)])
               else db.(executions := db.executions[e := Execution(x.proposalId, x.key, ExecFailed, result, error)],
                        proposals := db.proposals[id := db.proposals[id].(status := Failed)],
                        log := db.log + [Event(Gateway, ExecutionFailed(e), id)])
  {
  }

  // ---- execute --------------------------------------------------------------------------------------

  /** The newest execution under a key. */
  predicate IsNewest(db: Db, key: string, seen: Seen) {
    && seen.id < |db.executions| && seen.row == db.executions[seen.id] && seen.row.key == key
    && forall e | seen.id < e < |db.executions| :: db.executions[e].key != key
  }

  /** A claim and what became of it, in the tables. */
  function ClaimedAndFinished(db: Db, c: Claims, key: string, succeeded: bool, result: Json, error: Option<string>): Db
    requires c.proposalId in db.proposals
  {
    var e, p := |db.executions|, db.proposals[c.proposalId];
    db.(executions := db.executions + [Execution(c.proposalId, key, if succeeded then ExecSucceeded else ExecFailed, result, error)],
        nonces := db.nonces[c.nonce := NonceRow(c.proposalId, key)],
        proposals := db.proposals[c.proposalId := p.(status := if succeeded then Executed else Failed)],
        log := db.log + [Event(Gateway, ExecutionStarted(e, key, c.payloadHash), c.proposalId),
                         Event(Gateway, if succeeded then ExecutionSucceeded(e) else ExecutionFailed(e), c.proposalId)])
  }

  /** A verified request: answered from the execution that was found; or from whoever has the key, or
      refused if only the nonce is gone; or claimed, handed to the adapter if the letter has a
      subject and a body, and recorded as it came out. */
  lemma ExecutesAsSaid(db: Db, v: Verdict, delivery: Delivery)
    requires v.claims.proposalId in db.proposals
    ensures var (after, handed, answer) := Executor.Executed(db, v, delivery);
            match v.existing
            case Some(seen) =>
              after == db && handed == [] && answer == if seen.row.status == ExecFailed then ReportedFailed(seen.id) else AlreadyDone(seen)
            case None =>
              if exists x | x in db.executions :: x.key == v.key then
                after == db && handed == [] && answer.AlreadyDone? && IsNewest(db, v.key, answer.seen)
              else if v.claims.nonce in db.nonces then after == db && handed == [] && answer == Refused(3)
              else
                match (Field(v.proposal.payload, "subject"), Field(v.proposal.payload, "body"), delivery)
                case (Some(subject), Some(body), Accepted(result)) =>
                  && handed == [Message(v.proposal.customerEmail, subject, body)] && answer == Done(|db.executions|, result)
                  && after == ClaimedAndFinished(db, v.claims, v.key, true, result, None)
                case (Some(subject), Some(body), Undelivered(result, error)) =>
                  && handed == [Message(v.proposal.customerEmail, subject, body)] && answer == ReportedFailed(|db.executions|)
                  && after == ClaimedAndFinished(db, v.claims, v.key, false, result, Some(error))
                case (_, _, _) =>
                  && handed == [] && answer == ReportedFailed(|db.executions|)
                  && exists error :: after == ClaimedAndFinished(db, v.claims, v.key, false, Obj([Member("error", Str("KeyError"))]), error)
  {
    ClaimsOrCollides(db, v.claims, v.key);
    if v.existing.None? {
      if x :| x in db.executions && x.key == v.key {
        var i :| 0 <= i < |db.executions| && db.executions[i] == x;
      } else if v.claims.nonce !in db.nonces {
        var claimed := ClaimExecution(db, v.claims, v.key).value.0;
        var outcome := Executor.Attempt(v.proposal, delivery);
        ClaimFinishes(db, v.claims, v.key, outcome.Accepted?, outcome.result, if outcome.Accepted? then None else Some(outcome.error));
      }
    }
  }

  lemma ClaimFinishes(db: Db, c: Claims, key: string, succeeded: bool, result: Json, error: Option<string>)
    requires c.proposalId in db.proposals && ClaimExecution(db, c, key).Success?
    ensures FinishExecution(ClaimExecution(db, c, key).value.0, |db.executions|, c.proposalId, succeeded, result, error)
         == ClaimedAndFinished(db, c, key, succeeded, result, error)
  {
    ClaimsOrCollides(db, c, key);
    var claimed := ClaimExecution(db, c, key).value.0;
    Finishes(claimed, |db.executions|, c.proposalId, succeeded, result, error);
  }
}
