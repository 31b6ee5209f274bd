/** Every application step keeps the invariant. */
module ProtocolApp {
  import opened Prelude
  import opened CanonicalJson
  import opened Claims
  import opened Store
  import opened Protocol
  import opened ProtocolInvariant
  import opened ProtocolFrame

  lemma Assemble(sha: string -> string, w: World, w': World)
    requires Inv(sha, w) && AppOk(sha, w') && Grows(w, w')
    ensures Inv(sha, w')
  {
    GrowsGateway(sha, w, w');
  }

  lemma SweptOk(sha: string -> string, w: World, sweptAt: Time, order: seq<Id>) returns (swept: World)
    requires Inv(sha, w) && SweepOrder(w.db, sweptAt, order)
    ensures swept == w.(db := ExpireStale(w.db, order)) && AppOk(sha, swept) && Grows(w, swept)
  {
    swept := w.(db := ExpireStale(w.db, order));
    SweepKeeps(sha, w, sweptAt, order);
    SweepGrows(w, order);
  }

  lemma SweepWorldKeeps(sha: string -> string, w: World, sweptAt: Time, order: seq<Id>)
    requires Inv(sha, w) && SweepOrder(w.db, sweptAt, order)
    ensures Inv(sha, w.(db := ExpireStale(w.db, order)))
  {
    var swept := SweptOk(sha, w, sweptAt, order);
    Assemble(sha, w, swept);
  }

  lemma EditWorldKeeps(sha: string -> string, w: World, sweptAt: Time, order: seq<Id>, id: Id, body: string, now: Time)
    requires Inv(sha, w) && SweepOrder(w.db, sweptAt, order)
    ensures Inv(sha, SetDb(w, SaveEdit(sha, w.db, order, id, body, now)))
  {
    var swept := SweptOk(sha, w, sweptAt, order);
    if LoadPending(swept.db, id, now).Success? {
      var w' := swept.(db := EditRow(sha, swept.db, id, body));
      EditKeeps(sha, swept, id, body);
      EditGrows(sha, swept, id, body);
      GrowsTransitive(w, swept, w');
      Assemble(sha, w, w');
    }
  }

  lemma PrepareKeeps(sha: string -> string, w: World, id: Id, editedBody: Option<string>) returns (ready: World)
    requires AppOk(sha, w) && IsPending(w.db, id)
    ensures ready == w.(db := Prepare(sha, w.db, id, editedBody))
    ensures AppOk(sha, ready) && Grows(w, ready) && IsPending(ready.db, id)
  {
    ready := w;
    if NeedsEdit(w.db.proposals[id], editedBody) {
      ready := w.(db := EditRow(sha, w.db, id, editedBody.value));
      EditKeeps(sha, w, id, editedBody.value);
      EditGrows(sha, w, id, editedBody.value);
    }
  }

  lemma GrantedFrom(sha: string -> string, w: World, ready: World, id: Id, actor: string,
                    note: Option<string>, editedBody: Option<string>, c: Claims)
    requires Inv(sha, w) && AppOk(sha, ready) && Grows(w, ready)
    requires IsPending(ready.db, id) && FreshNonce(ready, c.nonce)
    requires ClaimsFor(sha, c, id, ready.db.proposals[id], actor)
    ensures Inv(sha, GrantWorld(ready, id, actor, note, editedBody, c))
  {
    var w' := GrantWorld(ready, id, actor, note, editedBody, c);
    GrantKeeps(sha, ready, id, actor, note, editedBody, c);
    GrantGrows(ready, id, actor, note, editedBody, c);
    GrowsTransitive(w, ready, w');
    Assemble(sha, w, w');
  }

  lemma ApproveWorldKeeps(sha: string -> string, w: World, step: Step)
    requires Inv(sha, w) && step.ApproveStep?
    requires SweepOrder(w.db, step.sweptAt, step.order) && FreshNonce(w, step.nonce)
    ensures Inv(sha, ApproveWorld(sha, w, step))
  {
    var id := step.id;
    if LoadPending(ExpireStale(w.db, step.order), id, step.now).Success? {
      var ready := ReadyToGrant(sha, w, step);
      var m := MintForApproval(sha, id, ready.db.proposals[id], step.actor, step.nonce, step.now, step.ttl);
      if m.Success? {
        GrantedFrom(sha, w, ready, id, step.actor, step.note, step.editedBody, m.value);
        ApproveWorldUnfolds(sha, w, step, ready, m.value);
      }
    }
  }

  /** Swept, loaded and edited. */
  lemma ReadyToGrant(sha: string -> string, w: World, step: Step) returns (ready: World)
    requires Inv(sha, w) && step.ApproveStep? && SweepOrder(w.db, step.sweptAt, step.order)
    requires LoadPending(ExpireStale(w.db, step.order), step.id, step.now).Success?
    ensures ready == w.(db := Prepare(sha, ExpireStale(w.db, step.order), step.id, step.editedBody))
    ensures AppOk(sha, ready) && Grows(w, ready) && IsPending(ready.db, step.id)
  {
    var swept := SweptOk(sha, w, step.sweptAt, step.order);
    ready := PrepareKeeps(sha, swept, step.id, step.editedBody);
    GrowsTransitive(w, swept, ready);
  }

  lemma ApproveWorldUnfolds(sha: string -> string, w: World, step: Step, ready: World, c: Claims)
    requires step.ApproveStep? && LoadPending(ExpireStale(w.db, step.order), step.id, step.now).Success?
    requires ready == w.(db := Prepare(sha, ExpireStale(w.db, step.order), step.id, step.editedBody))
    requires MintForApproval(sha, step.id, ready.db.proposals[step.id], step.actor, step.nonce, step.now, step.ttl)
          == Success(c)
    ensures ApproveWorld(sha, w, step) == GrantWorld(ready, step.id, step.actor, step.note, step.editedBody, c)
  {
  }

  lemma SettleKeeps(sha: string -> string, w: World, runId: Id)
    requires AppOk(sha, w)
    ensures AppOk(sha, w.(db := SettleRun(w.db, runId)))
    ensures Grows(w, w.(db := SettleRun(w.db, runId)))
  {
    var w' := w.(db := SettleRun(w.db, runId));
    if Settles(w.db, runId) {
      ReplayOne(w.db.log, Event(System, RunSettled, runId));
      SameRowsKeep(sha, w, w');
    }
  }

  /** The rows a rejection writes before the run is settled. */
  lemma RejectRowKeeps(sha: string -> string, w: World, id: Id, actor: string, note: string) returns (w': World)
    requires AppOk(sha, w) && IsPending(w.db, id)
    ensures w' == w.(db := RejectRow(w.db, id, actor, note))
    ensures AppOk(sha, w') && Grows(w, w')
  {
    var event := Event(Operator, ApprovalRejected(actor), id);
    var moved := w.(db := MoveRow(w.db, id, Rejected, event));
    MoveKeeps(sha, w, id, Rejected, event);
    MoveGrows(w, id, Rejected, event);
    w' := moved.(db := moved.db.(approvals := moved.db.approvals + [Approval(id, Reject, actor, Some(note), None, None)]));
    AddRejection(sha, moved, w', id, actor, note);
    GrowsTransitive(w, moved, w');
  }

  lemma AddRejection(sha: string -> string, w: World, w': World, id: Id, actor: string, note: string)
    requires AppOk(sha, w)
    requires w' == w.(db := w.db.(approvals := w.db.approvals + [Approval(id, Reject, actor, Some(note), None, None)]))
    ensures AppOk(sha, w') && Grows(w, w')
  {
    forall a | a in w'.db.approvals ensures ApprovalOk(w', a) {
      if a in w.db.approvals { assert ApprovalOk(w, a); }
    }
    forall n | n in w'.grants ensures GrantOk(sha, w', n, w'.grants[n]) { assert GrantOk(sha, w, n, w.grants[n]); }
    forall x | x in w'.db.proposals ensures ProposalOk(sha, w', x, w'.db.proposals[x]) {
      assert ProposalOk(sha, w, x, w.db.proposals[x]);
    }
  }

  lemma RejectedFrom(sha: string -> string, w: World, swept: World, id: Id, actor: string, note: string)
    requires Inv(sha, w) && AppOk(sha, swept) && Grows(w, swept) && IsPending(swept.db, id)
    ensures Inv(sha, swept.(db := SettleRun(RejectRow(swept.db, id, actor, note), swept.db.proposals[id].runId)))
  {
    var decided := RejectRowKeeps(sha, swept, id, actor, note);
    var runId := swept.db.proposals[id].runId;
    SettleKeeps(sha, decided, runId);
    var w' := decided.(db := SettleRun(decided.db, runId));
    GrowsTransitive(w, swept, decided);
    GrowsTransitive(w, decided, w');
    Assemble(sha, w, w');
  }

  lemma RejectWorldKeeps(sha: string -> string, w: World, sweptAt: Time, order: seq<Id>, id: Id,
                         actor: string, note: string, now: Time)
    requires Inv(sha, w) && SweepOrder(w.db, sweptAt, order)
    ensures Inv(sha, SetDb(w, RejectProposal(w.db, order, id, actor, note, now)))
  {
    var swept := SweptOk(sha, w, sweptAt, order);
    if Strip(note) != "" && LoadPending(swept.db, id, now).Success? {
      RejectedFrom(sha, w, swept, id, actor, note);
    }
  }

  lemma CreateWorldKeeps(sha: string -> string, w: World, id: Id, runId: Id, payload: Json, invoiceId: string,
                         email: string, deadline: Time)
    requires Inv(sha, w) && id !in w.db.proposals && LetterPayload(payload, email)
    ensures Inv(sha, SetDb(w, CreateProposal(sha, w.db, id, runId, payload, invoiceId, email, deadline)))
  {
    if !InvoiceTaken(w.db, invoiceId) {
      var p := Proposal(runId, ACTION_TYPE, Pending, payload, HashPayload(sha, payload), invoiceId, email, deadline);
      CreatedOk(sha, w, id, p);
      CreateGrows(w, NewWorld(w, id, p), id);
      Assemble(sha, w, NewWorld(w, id, p));
    }
  }

  /** The world with one more proposal in the queue. */
  function NewWorld(w: World, id: Id, p: Proposal): World {
    w.(db := w.db.(proposals := w.db.proposals[id := p],
                   log := w.db.log + [Event(Agent, ProposalCreated(p.payloadHash), id)]))
  }

  lemma CreatedOk(sha: string -> string, w: World, id: Id, p: Proposal)
    requires AppOk(sha, w) && id !in w.db.proposals && p.status == Pending && !InvoiceTaken(w.db, p.invoiceId)
    requires LetterPayload(p.payload, p.customerEmail) && p.payloadHash == HashPayload(sha, p.payload)
    ensures AppOk(sha, NewWorld(w, id, p))
  {
    var w' := NewWorld(w, id, p);
    RowKept(sha, w, w', id);
    DecisionsKept(sha, w, w');
    NewInvoice(w.db, id, p);
    LogKept(w.db, id, p, Event(Agent, ProposalCreated(p.payloadHash), id));
  }

  lemma NewInvoice(db: Db, id: Id, p: Proposal)
    requires InvoicesOk(db.proposals) && !InvoiceTaken(db, p.invoiceId)
    ensures InvoicesOk(db.proposals[id := p])
  {
  }

  lemma CreateGrows(w: World, w': World, id: Id)
    requires id in w'.db.proposals && |w'.db.log| == |w.db.log| + 1 && id !in w.db.proposals
    requires w' == w.(db := w.db.(proposals := w.db.proposals[id := w'.db.proposals[id]],
                                  log := w.db.log + [w'.db.log[|w.db.log|]]))
    ensures Grows(w, w')
  {
  }

  /** Only the payload or the e-mail column of one row differs. */
  predicate RewritesRow(w: World, w': World, id: Id) {
    && id in w.db.proposals && id in w'.db.proposals
    && w'.db.proposals == w.db.proposals[id := w'.db.proposals[id]] && w'.db.log == w.db.log
    && w'.db.proposals[id].status == w.db.proposals[id].status
    && w'.db.proposals[id].payloadHash == w.db.proposals[id].payloadHash
    && w'.db.proposals[id].invoiceId == w.db.proposals[id].invoiceId
  }

  lemma RewriteRowsKeep(sha: string -> string, w: World, w': World, id: Id)
    requires ProposalsOk(sha, w) && InvoicesOk(w.db.proposals) && LogOk(w.db) && RewritesRow(w, w', id)
    requires KeepsDecided(w, w') && ProposalOk(sha, w', id, w'.db.proposals[id])
    ensures ProposalsOk(sha, w') && InvoicesOk(w'.db.proposals) && LogOk(w'.db)
  {
    var p := w'.db.proposals[id];
    RowKept(sha, w, w', id);
    InvoicesKept(w.db.proposals, id, p);
    SummariesKept(w.db.proposals, id, p);
  }

  lemma RewriteKeeps(sha: string -> string, w: World, w': World, id: Id)
    requires Inv(sha, w) && RewritesRow(w, w', id) && KeepsDecided(w, w') && Grows(w, w')
    requires ProposalOk(sha, w', id, w'.db.proposals[id])
    ensures Inv(sha, w')
  {
    RewriteRowsKeep(sha, w, w', id);
    DecisionsKept(sha, w, w');
    Assemble(sha, w, w');
  }

  lemma RewritePayloadRow(sha: string -> string, w: World, id: Id, payload: Json)
    requires id in w.db.proposals && payload.Obj? && WellFormed(payload)
    ensures var w' := RewritePayloadWorld(w, id, payload);
            ProposalOk(sha, w', id, w'.db.proposals[id]) && KeepsDecided(w, w') && Grows(w, w')
  {
  }

  lemma RewritePayloadKeeps(sha: string -> string, w: World, id: Id, payload: Json)
    requires Inv(sha, w) && id in w.db.proposals && payload.Obj? && WellFormed(payload)
    ensures Inv(sha, RewritePayloadWorld(w, id, payload))
  {
    RewritePayloadRow(sha, w, id, payload);
    RewriteKeeps(sha, w, RewritePayloadWorld(w, id, payload), id);
  }

  lemma RewriteEmailRow(sha: string -> string, w: World, id: Id, email: string)
    requires id in w.db.proposals && ProposalOk(sha, w, id, w.db.proposals[id])
    ensures var w' := RewriteEmailWorld(w, id, email);
            ProposalOk(sha, w', id, w'.db.proposals[id]) && KeepsDecided(w, w') && Grows(w, w')
  {
  }

  lemma RewriteEmailKeeps(sha: string -> string, w: World, id: Id, email: string)
    requires Inv(sha, w) && id in w.db.proposals
    ensures Inv(sha, RewriteEmailWorld(w, id, email))
  {
    RewriteEmailRow(sha, w, id, email);
    RewriteKeeps(sha, w, RewriteEmailWorld(w, id, email), id);
  }

  lemma SameRowsKeep(sha: string -> string, w: World, w': World)
    requires AppOk(sha, w) && LogOk(w'.db)
    requires w'.db.proposals == w.db.proposals && w'.db.approvals == w.db.approvals && w'.grants == w.grants
    requires w'.rewritten == w.rewritten && w'.tainted == w.tainted
    requires forall c | c in w'.probes :: c.nonce !in w.grants
    ensures AppOk(sha, w')
  {
    forall n | n in w'.grants ensures GrantOk(sha, w', n, w'.grants[n]) { assert GrantOk(sha, w, n, w.grants[n]); }
    forall a | a in w'.db.approvals ensures ApprovalOk(w', a) { assert ApprovalOk(w, a); }
    forall x | x in w'.db.proposals ensures ProposalOk(sha, w', x, w'.db.proposals[x]) {
      assert ProposalOk(sha, w, x, w.db.proposals[x]);
    }
  }

  lemma ProbeWorldKeeps(sha: string -> string, w: World, c: Claims)
    requires Inv(sha, w) && FreshNonce(w, c.nonce)
    ensures Inv(sha, w.(probes := w.probes + {c}))
  {
    var w' := w.(probes := w.probes + {c});
    SameRowsKeep(sha, w, w');
    Assemble(sha, w, w');
  }

  lemma BystanderGrows(w: World, runs: map<Id, RunStatus>, events: seq<Event>)
    ensures Grows(w, w.(db := w.db.(runs := runs, log := w.db.log + events)))
  {
  }

  /** Events that say nothing about a proposal. */
  predicate Bystanding(kind: Kind) {
    || kind.SystemStarted? || kind.SchemaMigrated? || kind.RunStarted? || kind.RunCompleted? || kind.RunBroken?
    || kind.RunAbandoned? || kind.ActionRefused?
  }

  lemma BystanderApplies(log: seq<Event>, event: Event)
    requires Bystanding(event.kind)
    ensures Replay(log + [event]) == Replay(log)
  {
    ReplayOne(log, event);
  }

  lemma {:induction false} ReplayBystanders(log: seq<Event>, events: seq<Event>)
    requires forall e | e in events :: Bystanding(e.kind)
    ensures Replay(log + events) == Replay(log)
    decreases |events|
  {
    if events == [] {
      assert log + events == log;
    } else {
      var first, rest := [events[0]], events[1..];
      assert log + events == (log + first) + rest;
      BystanderApplies(log, events[0]);
      ReplayBystanders(log + first, rest);
    }
  }

  /** Steps that touch no proposal: runs and services, and the record of a refusal. */
  lemma BystanderKeeps(sha: string -> string, w: World, runs: map<Id, RunStatus>, events: seq<Event>)
    requires Inv(sha, w)
    requires forall e | e in events :: Bystanding(e.kind)
    ensures Inv(sha, w.(db := w.db.(runs := runs, log := w.db.log + events)))
  {
    var w' := w.(db := w.db.(runs := runs, log := w.db.log + events));
    ReplayBystanders(w.db.log, events);
    SameRowsKeep(sha, w, w');
    BystanderGrows(w, runs, events);
    Assemble(sha, w, w');
  }
}
