/** Steps of the application side: they leave the gateway's records alone. */
module ProtocolFrame {
  import opened Prelude
  import opened CanonicalJson
  import opened CanonicalOrder
  import opened Claims
  import opened Store
  import opened Protocol
  import opened ProtocolInvariant

  /** What an application step may do, as the gateway's records see it. */
  ghost predicate Grows(w: World, w': World) {
    && w'.requests == w.requests && w'.outbox == w.outbox
    && w'.claimants == w.claimants && w'.spent == w.spent
    && w'.db.executions == w.db.executions && w'.db.nonces == w.db.nonces
    && (forall n | n in w.grants :: n in w'.grants && w'.grants[n] == w.grants[n])
    && w.probes <= w'.probes
    && (forall a | a in w.db.approvals :: a in w'.db.approvals)
    && |w.db.log| <= |w'.db.log| && w'.db.log[..|w.db.log|] == w.db.log
    && w.tainted <= w'.tainted
    && (forall id | id in w.db.proposals :: id in w'.db.proposals)
    && (forall id | id in w.db.proposals && id !in w'.tainted ::
          w'.db.proposals[id].customerEmail == w.db.proposals[id].customerEmail)
  }

  lemma GrowsGranted(w: World, w': World, c: Claims)
    requires Grows(w, w') && Granted(w, c)
    ensures Granted(w', c)
  {
  }

  lemma GrowsSent(sha: string -> string, w: World, w': World, s: Sent)
    requires Grows(w, w') && SentOk(sha, w, s)
    ensures SentOk(sha, w', s)
  {
    GrowsGranted(w, w', s.claims);
    assert w'.db.log[..s.logLength] == w.db.log[..s.logLength];
  }

  lemma GrowsRequest(sha: string -> string, w: World, w': World, r: nat)
    requires Grows(w, w') && r in w.requests && RequestOk(sha, w, r, w.requests[r])
    ensures RequestOk(sha, w', r, w.requests[r])
  {
    var q := w.requests[r];
    if q.pc.Matched? || q.pc.Verified? || q.pc.Claimed? { GrowsGranted(w, w', q.claims); }
    if q.pc.Claimed? {
      assert w.db.log[..|w.db.log|] == w'.db.log[..|w'.db.log|][..|w.db.log|];
    }
  }

  lemma GrowsExecutions(w: World, w': World)
    requires Grows(w, w') && ExecutionsOk(w)
    ensures ExecutionsOk(w')
  {
    forall e | 0 <= e < |w'.spent| ensures ExecutionOk(w', e) {
      assert ExecutionOk(w, e);
      GrowsGranted(w, w', w.grants[w.spent[e]].claims);
    }
  }

  lemma GrowsGateway(sha: string -> string, w: World, w': World)
    requires Grows(w, w') && ExecutionsOk(w) && OutboxOk(sha, w) && RequestsOk(sha, w)
    ensures ExecutionsOk(w') && OutboxOk(sha, w') && RequestsOk(sha, w')
  {
    GrowsExecutions(w, w');
    forall s | s in w'.outbox ensures SentOk(sha, w', s) { GrowsSent(sha, w, w', s); }
    forall r | r in w'.requests ensures RequestOk(sha, w', r, w'.requests[r]) { GrowsRequest(sha, w, w', r); }
  }

  lemma GrowsTransitive(a: World, b: World, c: World)
    requires Grows(a, b) && Grows(b, c)
    ensures Grows(a, c)
  {
    assert c.db.log[..|a.db.log|] == c.db.log[..|b.db.log|][..|a.db.log|];
  }

  /** The application's half of the invariant. */
  ghost predicate AppOk(sha: string -> string, w: World) {
    && ProposalsOk(sha, w)
    && ApprovalsOk(w)
    && GrantsOk(sha, w)
    && InvoicesOk(w.db.proposals)
    && LogOk(w.db)
  }

  // ---- the log ----------------------------------------------------------------------------

  lemma ReplayOne(log: seq<Event>, event: Event)
    ensures Replay(log + [event]) == ApplyEvent(Replay(log), event)
  {
    assert (log + [event])[..|log|] == log;
  }

  function ExpireSummaries(m: map<Id, Summary>, order: seq<Id>): map<Id, Summary> {
    map id | id in m :: if id in order then m[id].(status := Expired) else m[id]
  }

  lemma {:induction false} ReplaySweep(log: seq<Event>, order: seq<Id>)
    ensures Replay(log + ExpiredEvents(order)) == ExpireSummaries(Replay(log), order)
    decreases |order|
  {
    var all := log + ExpiredEvents(order);
    if order == [] {
      assert all == log;
    } else {
      var init, last := order[..|order| - 1], order[|order| - 1];
      assert all == (log + ExpiredEvents(init)) + [Event(System, ProposalExpired, last)];
      ReplaySweep(log, init);
      ReplayOne(log + ExpiredEvents(init), Event(System, ProposalExpired, last));
    }
  }

  // ---- decided proposals stay put -----------------------------------------------------------

  /** Rows that have been approved keep an approved status, and what was not overwritten out
      of band keeps its value. */
  ghost predicate KeepsDecided(w: World, w': World) {
    && w'.db.approvals == w.db.approvals && w'.grants == w.grants && w'.probes == w.probes
    && w.tainted <= w'.tainted && w.rewritten <= w'.rewritten
    && (forall id | id in w.db.proposals && Decided(w.db.proposals[id].status) ::
          && id in w'.db.proposals && Decided(w'.db.proposals[id].status)
          && (id !in w'.tainted ==> w'.db.proposals[id].customerEmail == w.db.proposals[id].customerEmail)
          && (id !in w'.rewritten ==> w'.db.proposals[id].payload == w.db.proposals[id].payload))
  }

  lemma DecisionsKept(sha: string -> string, w: World, w': World)
    requires ApprovalsOk(w) && GrantsOk(sha, w) && KeepsDecided(w, w')
    ensures ApprovalsOk(w') && GrantsOk(sha, w')
  {
    forall a | a in w'.db.approvals ensures ApprovalOk(w', a) { assert ApprovalOk(w, a); }
    forall n | n in w'.grants ensures GrantOk(sha, w', n, w'.grants[n]) {
      assert GrantOk(sha, w, n, w.grants[n]);
    }
  }

  // ---- one row changes ----------------------------------------------------------------------

  lemma RowKept(sha: string -> string, w: World, w': World, id: Id)
    requires ProposalsOk(sha, w) && w.tainted <= w'.tainted && w.rewritten <= w'.rewritten
    requires id in w'.db.proposals && ProposalOk(sha, w', id, w'.db.proposals[id])
    requires w'.db.proposals == w.db.proposals[id := w'.db.proposals[id]]
    ensures ProposalsOk(sha, w')
  {
    forall x | x in w'.db.proposals ensures ProposalOk(sha, w', x, w'.db.proposals[x]) {
      if x != id { assert ProposalOk(sha, w, x, w.db.proposals[x]); }
    }
  }

  lemma InvoicesKept(proposals: map<Id, Proposal>, id: Id, p: Proposal)
    requires InvoicesOk(proposals) && id in proposals
    requires p.status == Pending ==> proposals[id].status == Pending && p.invoiceId == proposals[id].invoiceId
    ensures InvoicesOk(proposals[id := p])
  {
  }

  lemma SummariesKept(proposals: map<Id, Proposal>, id: Id, p: Proposal)
    requires id in proposals && p.status == proposals[id].status && p.payloadHash == proposals[id].payloadHash
    ensures Summaries(proposals[id := p]) == Summaries(proposals)
  {
  }

  lemma LogKept(db: Db, id: Id, p: Proposal, event: Event)
    requires LogOk(db)
    requires ApplyEvent(Summaries(db.proposals), event)
          == Summaries(db.proposals)[id := Summary(p.status, p.payloadHash)]
    ensures LogOk(db.(proposals := db.proposals[id := p], log := db.log + [event]))
  {
    ReplayOne(db.log, event);
    SummariesUpdate(db.proposals, id, p);
  }

  lemma SummariesUpdate(proposals: map<Id, Proposal>, id: Id, p: Proposal)
    ensures Summaries(proposals[id := p]) == Summaries(proposals)[id := Summary(p.status, p.payloadHash)]
  {
  }

  // ---- the transactions -----------------------------------------------------------------------

  lemma SweepRows(sha: string -> string, w: World, order: seq<Id>)
    requires ProposalsOk(sha, w) && InvoicesOk(w.db.proposals)
    ensures var w' := w.(db := ExpireStale(w.db, order)); ProposalsOk(sha, w') && InvoicesOk(w'.db.proposals)
  {
    var w' := w.(db := ExpireStale(w.db, order));
    forall id | id in w'.db.proposals ensures ProposalOk(sha, w', id, w'.db.proposals[id]) {
      assert ProposalOk(sha, w, id, w.db.proposals[id]);
    }
  }

  lemma SweepLog(db: Db, order: seq<Id>)
    requires LogOk(db)
    ensures LogOk(ExpireStale(db, order))
  {
    ReplaySweep(db.log, order);
    assert Summaries(ExpireStale(db, order).proposals) == ExpireSummaries(Summaries(db.proposals), order);
  }

  lemma SweepKeeps(sha: string -> string, w: World, now: Time, order: seq<Id>)
    requires AppOk(sha, w) && SweepOrder(w.db, now, order)
    ensures AppOk(sha, w.(db := ExpireStale(w.db, order)))
  {
    var w' := w.(db := ExpireStale(w.db, order));
    SweepRows(sha, w, order);
    SweepLog(w.db, order);
    SweepDecided(w, now, order);
    DecisionsKept(sha, w, w');
  }

  lemma SweepDecided(w: World, now: Time, order: seq<Id>)
    requires SweepOrder(w.db, now, order)
    ensures KeepsDecided(w, w.(db := ExpireStale(w.db, order)))
  {
    assert forall id :: id in order ==> IsStale(w.db, id, now);
  }

  lemma SweepGrows(w: World, order: seq<Id>)
    ensures Grows(w, w.(db := ExpireStale(w.db, order)))
  {
  }

  lemma EditedRowOk(sha: string -> string, w: World, w': World, id: Id, p: Proposal, body: string)
    requires ProposalOk(sha, w, id, p) && w'.tainted == w.tainted && w'.rewritten == w.rewritten
    ensures ProposalOk(sha, w', id, Edited(sha, p, body))
  {
    SetGet(p.payload.members, "body", Str(body));
  }

  lemma EditKeeps(sha: string -> string, w: World, id: Id, body: string)
    requires AppOk(sha, w) && IsPending(w.db, id)
    ensures AppOk(sha, w.(db := EditRow(sha, w.db, id, body)))
  {
    var w' := w.(db := EditRow(sha, w.db, id, body));
    var p := w.db.proposals[id];
    assert ProposalOk(sha, w, id, p);
    EditedRowOk(sha, w, w', id, p, body);
    RowKept(sha, w, w', id);
    DecisionsKept(sha, w, w');
    EditQueue(sha, w.db, id, body);
  }

  lemma EditQueue(sha: string -> string, db: Db, id: Id, body: string)
    requires IsPending(db, id) && InvoicesOk(db.proposals) && LogOk(db)
    ensures InvoicesOk(EditRow(sha, db, id, body).proposals) && LogOk(EditRow(sha, db, id, body))
  {
    var q := Edited(sha, db.proposals[id], body);
    InvoicesKept(db.proposals, id, q);
    LogKept(db, id, q, Event(Operator, ProposalEdited(db.proposals[id].payloadHash, q.payloadHash), id));
  }

  lemma EditGrows(sha: string -> string, w: World, id: Id, body: string)
    requires id in w.db.proposals
    ensures Grows(w, w.(db := EditRow(sha, w.db, id, body)))
  {
  }

  /** Moving one row to a status other than pending, with the event that says so. */
  function MoveRow(db: Db, id: Id, status: ProposalStatus, event: Event): Db
    requires id in db.proposals
  {
    db.(proposals := db.proposals[id := db.proposals[id].(status := status)], log := db.log + [event])
  }

  lemma MoveKeeps(sha: string -> string, w: World, id: Id, status: ProposalStatus, event: Event)
    requires AppOk(sha, w) && id in w.db.proposals && status != Pending
    requires Decided(w.db.proposals[id].status) ==> Decided(status)
    requires ApplyEvent(Summaries(w.db.proposals), event) == Move(Summaries(w.db.proposals), id, status)
    ensures AppOk(sha, w.(db := MoveRow(w.db, id, status, event)))
  {
    var w' := w.(db := MoveRow(w.db, id, status, event));
    assert ProposalOk(sha, w, id, w.db.proposals[id]);
    RowKept(sha, w, w', id);
    DecisionsKept(sha, w, w');
    InvoicesKept(w.db.proposals, id, w'.db.proposals[id]);
    LogKept(w.db, id, w'.db.proposals[id], event);
  }

  lemma MoveGrows(w: World, id: Id, status: ProposalStatus, event: Event)
    requires id in w.db.proposals
    ensures Grows(w, w.(db := MoveRow(w.db, id, status, event)))
  {
  }

  /** The world after the grant of `approve`, once its claims are minted. */
  function GrantWorld(w: World, id: Id, actor: string, note: Option<string>, editedBody: Option<string>, c: Claims): World
    requires id in w.db.proposals
  {
    var p := w.db.proposals[id];
    w.(db := GrantRow(w.db, id, actor, note, editedBody, c.nonce),
       grants := w.grants[c.nonce := Grant(c, p.payload, p.customerEmail)])
  }

  /** What `mint_for_approval` promises about the claims it signs. */
  predicate ClaimsFor(sha: string -> string, c: Claims, id: Id, p: Proposal, actor: string) {
    c.proposalId == id && c.approver == actor && c.payloadHash == HashPayload(sha, p.payload)
  }

  lemma GrantKeepsApprovals(w: World, id: Id, actor: string, note: Option<string>, editedBody: Option<string>, c: Claims)
    requires ApprovalsOk(w) && IsPending(w.db, id) && c.nonce !in w.grants
    requires c.proposalId == id && c.approver == actor
    ensures ApprovalsOk(GrantWorld(w, id, actor, note, editedBody, c))
  {
    var w' := GrantWorld(w, id, actor, note, editedBody, c);
    var n := |w.db.approvals|;
    forall a | a in w'.db.approvals ensures ApprovalOk(w', a) {
      if a in w.db.approvals { assert ApprovalOk(w, a); }
    }
    forall i | 0 <= i < n && w.db.approvals[i].decision == Approve
      ensures w.db.approvals[i].proposalId != id
    {
      assert ApprovalOk(w, w.db.approvals[i]);
    }
  }

  lemma GrantKeepsGrants(sha: string -> string, w: World, id: Id, actor: string, note: Option<string>,
                         editedBody: Option<string>, c: Claims)
    requires ProposalsOk(sha, w) && GrantsOk(sha, w) && IsPending(w.db, id) && FreshNonce(w, c.nonce)
    requires ClaimsFor(sha, c, id, w.db.proposals[id], actor)
    ensures GrantsOk(sha, GrantWorld(w, id, actor, note, editedBody, c))
  {
    var w' := GrantWorld(w, id, actor, note, editedBody, c);
    assert ProposalOk(sha, w, id, w.db.proposals[id]);
    forall n | n in w'.grants ensures GrantOk(sha, w', n, w'.grants[n]) {
      if n != c.nonce { assert GrantOk(sha, w, n, w.grants[n]); }
    }
  }

  lemma GrantKeepsLog(db: Db, id: Id, actor: string, note: Option<string>, editedBody: Option<string>, nonce: string)
    requires LogOk(db) && id in db.proposals
    ensures LogOk(GrantRow(db, id, actor, note, editedBody, nonce))
  {
    var p := db.proposals[id];
    var granted := Event(Operator, ApprovalGranted(actor, p.payloadHash), id);
    var minted := Event(Operator, TokenMinted(actor, nonce), id);
    LogKept(db, id, p.(status := Approved), granted);
    ReplayOne(db.log + [granted], minted);
    assert db.log + [granted, minted] == db.log + [granted] + [minted];
  }

  lemma GrantKeeps(sha: string -> string, w: World, id: Id, actor: string, note: Option<string>,
                   editedBody: Option<string>, c: Claims)
    requires AppOk(sha, w) && IsPending(w.db, id) && FreshNonce(w, c.nonce)
    requires ClaimsFor(sha, c, id, w.db.proposals[id], actor)
    ensures AppOk(sha, GrantWorld(w, id, actor, note, editedBody, c))
  {
    var w' := GrantWorld(w, id, actor, note, editedBody, c);
    GrantKeepsApprovals(w, id, actor, note, editedBody, c);
    GrantKeepsGrants(sha, w, id, actor, note, editedBody, c);
    GrantKeepsLog(w.db, id, actor, note, editedBody, c.nonce);
    assert ProposalOk(sha, w, id, w.db.proposals[id]);
    RowKept(sha, w, w', id);
    InvoicesKept(w.db.proposals, id, w'.db.proposals[id]);
  }

  lemma GrantGrows(w: World, id: Id, actor: string, note: Option<string>, editedBody: Option<string>, c: Claims)
    requires id in w.db.proposals && c.nonce !in w.grants
    ensures Grows(w, GrantWorld(w, id, actor, note, editedBody, c))
  {
  }
}
