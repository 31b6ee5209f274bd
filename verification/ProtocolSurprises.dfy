/** Runs in which a request gets an answer its documentation does not foresee. */
module ProtocolSurprises {
  import opened Prelude
  import opened CanonicalJson
  import opened CanonicalOrder
  import opened Claims
  import opened Store
  import opened Protocol
  import opened ProtocolInvariant
  import opened ProtocolGateway
  import opened ProtocolWitness
  import opened Checks
  import opened ProtocolLater
  import opened ProtocolRetry
  import opened ProtocolFate

  // ---- two approved letters ------------------------------------------------------------------

  lemma LatestOfOthers(approvals: seq<Approval>, a: Approval, id: Id)
    requires a.proposalId != id
    ensures LatestApproval(approvals + [a], id) == LatestApproval(approvals, id)
  {
    assert (approvals + [a])[..|approvals|] == approvals;
  }

  lemma StillApproved(sha: string -> string, w: World, a: Id, pa: Json, ea: string, ca: Claims, b: Id, pb: Json, eb: string)
    requires Approved1(sha, w, a, pa, ea, ca) && a != b && b !in w.db.proposals && ca.nonce != "second"
    ensures Approved1(sha, Approving(Queue(sha, w, b, pb, "other", eb), b, "second"), a, pa, ea, ca)
  {
    LatestOfOthers(w.db.approvals, Approval(b, Approve, "operator", None, None, Some("second")), a);
  }

  lemma TwoApproved(sha: string -> string, a: Id, pa: Json, ea: string, b: Id, pb: Json, eb: string)
    returns (steps: seq<Step>, w: World, ca: Claims, cb: Claims)
    requires a != b && LetterPayload(pa, ea) && LetterPayload(pb, eb)
    ensures Reached(sha, steps, w) && Unused(w)
    ensures Approved1(sha, w, a, pa, ea, ca) && Approved1(sha, w, b, pb, eb, cb) && ca.nonce != cb.nonce
  {
    var granted, one, c := OneApproved(sha, a, pa, ea);
    ca := c;
    steps := QueueOne(sha, granted, one, b, pb, "other", eb);
    var queued := Queue(sha, one, b, pb, "other", eb);
    steps := ApproveOne(sha, steps, queued, b, "second");
    w, cb := Approving(queued, b, "second"), TokenFor(queued, b, "second");
    QueuedIsApproved(sha, one, b, pb, "other", eb, "second");
    StillApproved(sha, one, a, pa, ea, ca, b, pb, eb);
  }

  /** A request for one letter is told about the execution of another, and its own letter has not
      been claimed, let alone sent. */
  predicate ToldOfAnother(w: World, r: nat, own: Id, other: Id) {
    && r in w.requests && w.requests[r].claims.proposalId == own && own != other
    && w.requests[r].pc.Answered? && w.requests[r].pc.answer.AlreadyDone?
    && w.requests[r].pc.answer.seen.row.proposalId == other
    && w.requests[r].claims.nonce !in w.db.nonces && w.outbox == []
    && own in w.db.proposals && w.db.proposals[own].status == Approved
  }

  /** Check 7 asks only for the key: for any two letters there is a run in which the request for
      the second, under the key of the first, passes every check and is told the first's
      execution is its own. */
  lemma KeyOfAnother(sha: string -> string, a: Id, pa: Json, ea: string, b: Id, pb: Json, eb: string)
    returns (steps: seq<Step>)
    requires a != b && LetterPayload(pa, ea) && LetterPayload(pb, eb)
    ensures Run(sha, steps).Some? && ToldOfAnother(Run(sha, steps).value, 1, b, a)
    ensures var w := Run(sha, steps).value; AllHold(sha, w.db, w.requests[1].claims, w.requests[1].key, 0)
  {
    var granted, w, ca, cb := TwoApproved(sha, a, pa, ea, b, pb, eb);
    steps := VerifyOne(sha, granted, w, 0, a, pa, ea, ca, "key");
    var w1 := WithRequest(w, 0, Request(ca, "key", 0, Verified(w.db.proposals[a], None)));
    steps := ClaimOne(sha, steps, w1, 0);
    var w2 := ClaimedWorld(w1, 0);
    assert Approved1(sha, w2, b, pb, eb, cb);
    steps := VerifyOne(sha, steps, w2, 1, b, pb, eb, cb, "key");
    ApprovedPasses(sha, w2, b, pb, eb, cb, "key");
    var seen := Seen(0, w2.db.executions[0]);
    assert Look(w2.db, FindExecution(w2.db.executions, "key")) == Some(seen);
    steps := ReadOnce(sha, steps, w2, 1, Request(cb, "key", 0, Verified(w2.db.proposals[b], Some(seen))));
  }

  /** And nothing that one request can see at check 7 prevents it: for any two letters there is a
      run in which the key is unused when the second request is verified, and its claim then loses
      to the first's. */
  lemma LostToAnother(sha: string -> string, a: Id, pa: Json, ea: string, b: Id, pb: Json, eb: string)
    returns (verified: seq<Step>, steps: seq<Step>)
    requires a != b && LetterPayload(pa, ea) && LetterPayload(pb, eb)
    ensures Run(sha, verified).Some?
    ensures var w := Run(sha, verified).value;
            1 in w.requests && w.requests[1].pc.Verified? && w.requests[1].pc.existing.None? && w.db.executions == []
    ensures Run(sha, steps).Some? && ToldOfAnother(Run(sha, steps).value, 1, b, a)
  {
    var granted, w, ca, cb := TwoApproved(sha, a, pa, ea, b, pb, eb);
    verified := VerifyOne(sha, granted, w, 0, a, pa, ea, ca, "key");
    var w1 := WithRequest(w, 0, Request(ca, "key", 0, Verified(w.db.proposals[a], None)));
    verified := VerifyOne(sha, verified, w1, 1, b, pb, eb, cb, "key");
    var w2 := WithRequest(w1, 1, Request(cb, "key", 0, Verified(w1.db.proposals[b], None)));
    steps := ClaimOne(sha, verified, w2, 0);
    var w3 := ClaimedWorld(w2, 0);
    var more, nonceTaken := LoseOne(sha, steps, w3, 1);
    steps := more;
  }

  // ---- a failure told as a success ---------------------------------------------------------------

  /** For every letter there is a run in which the same request arrives twice, its execution fails,
      and the one that lost the race is told it was already executed. */
  lemma FailureToldAsDone(sha: string -> string, id: Id, payload: Json, email: string, subject: Json, body: Json,
                          result: Json, error: string) returns (steps: seq<Step>)
    requires LetterPayload(payload, email)
    requires Field(payload, "subject") == Some(subject) && Field(payload, "body") == Some(body)
    ensures Run(sha, steps).Some?
    ensures var w := Run(sha, steps).value;
            && 0 in w.requests && w.requests[0].pc == Answered(ReportedFailed(0))
            && 1 in w.requests && w.requests[1].claims == w.requests[0].claims && w.requests[1].key == w.requests[0].key
            && w.requests[1].pc.Answered? && w.requests[1].pc.answer.AlreadyDone?
            && w.requests[1].pc.answer.seen.row.status == ExecFailed
  {
    var granted, w, c := OneApproved(sha, id, payload, email);
    steps := VerifyOne(sha, granted, w, 0, id, payload, email, c, "key");
    var w1 := WithRequest(w, 0, Request(c, "key", 0, Verified(w.db.proposals[id], None)));
    steps := VerifyOne(sha, steps, w1, 1, id, payload, email, c, "key");
    var w2 := WithRequest(w1, 1, Request(c, "key", 0, Verified(w1.db.proposals[id], None)));
    steps := ClaimOne(sha, steps, w2, 0);
    var w3 := ClaimedWorld(w2, 0);
    steps := SendOne(sha, steps, w3, 0, Undelivered(result, error));
    var w4 := SendWorld(w3, 0, Undelivered(result, error));
    steps := FinishOne(sha, steps, w4, 0);
    var w5 := FinishWorld(w4, 0);
    var more, nonceTaken := LoseOne(sha, steps, w5, 1);
    steps := more;
  }

  // ---- told of a message that is not there --------------------------------------------------------

  /** The same request, arriving again, has been told "already executed" of an execution that is
      pending, and nothing has been handed to the adapter. */
  predicate ToldUnsent(w: World) {
    && 0 in w.requests && 1 in w.requests
    && w.requests[1].claims == w.requests[0].claims && w.requests[1].key == w.requests[0].key
    && w.requests[1].pc.Answered? && w.requests[1].pc.answer.AlreadyDone?
    && w.requests[1].pc.answer.seen.id == 0 && w.requests[1].pc.answer.seen.row.status == ExecPending
    && w.outbox == []
  }

  predicate NobodyYet(w: World) {
    w.requests == map[] && w.outbox == [] && w.db.executions == [] && w.db.nonces == map[]
  }

  /** The second arrival of a request whose execution is pending. */
  lemma RetryOne(sha: string -> string, steps: seq<Step>, w: World, id: Id, payload: Json, email: string, c: Claims)
    returns (more: seq<Step>)
    requires Reached(sha, steps, w) && w.requests.Keys == {0} && w.requests[0].claims == c && w.requests[0].key == "key"
    requires Approved1(sha, w, id, payload, email, c) && NonceUsable(NonceRowOf(w.db, c.nonce), "key") && w.outbox == []
    requires |w.db.executions| == 1 && w.db.executions[0].key == "key" && w.db.executions[0].status == ExecPending
    ensures Run(sha, more).Some? && ToldUnsent(Run(sha, more).value)
    ensures Run(sha, more).value.requests[0] == w.requests[0]
  {
    var seen := Seen(0, w.db.executions[0]);
    assert Look(w.db, FindExecution(w.db.executions, "key")) == Some(seen);
    more := VerifyOne(sha, steps, w, 1, id, payload, email, c, "key");
    more := ReadOnce(sha, more, w, 1, Request(c, "key", 0, Verified(w.db.proposals[id], Some(seen))));
  }

  lemma ClaimedOnce(sha: string -> string, w: World, id: Id, payload: Json, email: string, c: Claims)
    requires Approved1(sha, w, id, payload, email, c) && NobodyYet(w)
    ensures var w1 := WithRequest(w, 0, Request(c, "key", 0, Verified(w.db.proposals[id], None)));
            && Claimable(w1, 0)
            && var w2 := ClaimedWorld(w1, 0);
               && Approved1(sha, w2, id, payload, email, c) && w2.requests.Keys == {0} && w2.outbox == []
               && w2.requests[0] == Request(c, "key", 0, Claimed(w.db.proposals[id], 0))
               && NonceUsable(NonceRowOf(w2.db, c.nonce), "key")
               && w2.db.executions == [Execution(id, "key", ExecPending, Null, None)]
  {
  }

  /** No crash is needed: for every letter there is a run in which a repeated request is told so
      while the first one has only just claimed. */
  lemma ToldBeforeSent(sha: string -> string, id: Id, payload: Json, email: string) returns (steps: seq<Step>)
    requires LetterPayload(payload, email)
    ensures Run(sha, steps).Some? && ToldUnsent(Run(sha, steps).value)
    ensures Run(sha, steps).value.requests[0].pc.Claimed?
  {
    var granted, w, c := OneApproved(sha, id, payload, email);
    steps := VerifyOne(sha, granted, w, 0, id, payload, email, c, "key");
    var w1 := WithRequest(w, 0, Request(c, "key", 0, Verified(w.db.proposals[id], None)));
    ClaimedOnce(sha, w, id, payload, email, c);
    steps := ClaimOne(sha, steps, w1, 0);
    steps := RetryOne(sha, steps, ClaimedWorld(w1, 0), id, payload, email, c);
  }

  // ---- a letter without a subject -------------------------------------------------------------------

  /** The queued row after its payload was written over and the operator saved a text. */
  function Rehashed(sha: string -> string, w: World, id: Id, bare: Json, body: string): World
    requires id in w.db.proposals
  {
    var w1 := RewritePayloadWorld(w, id, bare);
    w1.(db := EditRow(sha, w1.db, id, body))
  }

  lemma RewriteAndEdit(sha: string -> string, steps: seq<Step>, w: World, id: Id, bare: Json, body: string)
    returns (more: seq<Step>)
    requires Reached(sha, steps, w) && IsPending(w.db, id) && bare.Obj? && WellFormed(bare)
    requires forall x | x in w.db.proposals :: w.db.proposals[x].expiresAt == 1
    ensures Reached(sha, more, Rehashed(sha, w, id, bare, body))
  {
    more := Extend(sha, steps, w, RewritePayload(id, bare));
    var w1 := RewritePayloadWorld(w, id, bare);
    NothingStale(w1.db);
    more := Extend(sha, more, w1, EditStep(0, [], id, body, 0));
  }

  /** An approval of a row whose hash fits, when it is the proposal's first. */
  lemma ApprovingApproves(sha: string -> string, w: World, id: Id, nonce: string)
    requires CanApprove(sha, w.db, id) && NobodyYet(w) && forall a | a in w.db.approvals :: a.proposalId != id
    ensures var p, w' := w.db.proposals[id], Approving(w, id, nonce);
            Approved1(sha, w', id, p.payload, p.customerEmail, TokenFor(w, id, nonce)) && NobodyYet(w')
  {
    var w' := Approving(w, id, nonce);
    var a := Approval(id, Approve, "operator", None, None, Some(nonce));
    assert w'.db.approvals == w.db.approvals + [a];
    assert LatestApproval(w'.db.approvals, id) == Some(a);
  }

  /** Nobody at the gateway or in the approvals, and every deadline ahead. */
  predicate OnlyQueued(w: World, id: Id, row: Proposal) {
    && NobodyYet(w) && w.db.proposals == map[id := row] && row.status == Pending && row.expiresAt == 1
    && w.db.approvals == [] && w.grants == map[] && w.probes == {}
  }

  lemma QueuedOnly(sha: string -> string, id: Id, payload: Json, email: string)
    ensures OnlyQueued(Queue(sha, START, id, payload, "invoice", email), id, NewRow(sha, payload, "invoice", email))
  {
  }

  lemma RehashedOnly(sha: string -> string, w: World, id: Id, row: Proposal, bare: Json, body: string)
    requires OnlyQueued(w, id, row)
    ensures OnlyQueued(Rehashed(sha, w, id, bare, body), id, Edited(sha, row.(payload := bare), body))
  {
  }

  lemma BareStaysBare(bare: Json, body: string)
    requires bare.Obj? && WellFormed(bare) && Field(bare, "subject").None?
    ensures Field(WithBody(bare, body), "subject").None?
  {
    SetGet(bare.members, "body", Str(body));
  }

  lemma ApproveOnly(sha: string -> string, steps: seq<Step>, w: World, id: Id, row: Proposal)
    returns (more: seq<Step>, w': World, c: Claims)
    requires Reached(sha, steps, w) && OnlyQueued(w, id, row) && row.payloadHash == HashPayload(sha, row.payload)
    ensures Reached(sha, more, w') && NobodyYet(w') && Approved1(sha, w', id, row.payload, row.customerEmail, c)
  {
    more := ApproveOne(sha, steps, w, id, "first");
    w', c := Approving(w, id, "first"), TokenFor(w, id, "first");
    ApprovingApproves(sha, w, id, "first");
  }

  /** From a queued letter to an approved one that has no subject. */
  lemma BareApproved(sha: string -> string, id: Id, payload: Json, email: string, bare: Json, body: string)
    returns (steps: seq<Step>, w: World, c: Claims)
    requires LetterPayload(payload, email) && bare.Obj? && WellFormed(bare) && Field(bare, "subject").None?
    ensures Reached(sha, steps, w) && NobodyYet(w) && Approved1(sha, w, id, WithBody(bare, body), email, c)
  {
    assert Reached(sha, [], START);
    steps := QueueOne(sha, [], START, id, payload, "invoice", email);
    var queued, row := Queue(sha, START, id, payload, "invoice", email), NewRow(sha, payload, "invoice", email);
    QueuedOnly(sha, id, payload, email);
    steps := RewriteAndEdit(sha, steps, queued, id, bare, body);
    RehashedOnly(sha, queued, id, row, bare, body);
    steps, w, c := ApproveOnly(sha, steps, Rehashed(sha, queued, id, bare, body), id, Edited(sha, row.(payload := bare), body));
  }

  /** From there to a hand-over that hands over nothing. */
  lemma BareAttempted(sha: string -> string, steps: seq<Step>, w: World, id: Id, bare: Json, email: string, c: Claims)
    returns (more: seq<Step>, w': World)
    requires Reached(sha, steps, w) && NobodyYet(w) && Approved1(sha, w, id, bare, email, c) && Field(bare, "subject").None?
    ensures Reached(sha, more, w') && w'.requests == map[0 := Request(c, "key", 0, Attempted(0, Undelivered(Null, "")))]
    ensures Approved1(sha, w', id, bare, email, c) && NonceUsable(NonceRowOf(w'.db, c.nonce), "key") && w'.outbox == []
    ensures w'.db.executions == [Execution(id, "key", ExecPending, Null, None)]
  {
    more := VerifyOne(sha, steps, w, 0, id, bare, email, c, "key");
    var w1 := WithRequest(w, 0, Request(c, "key", 0, Verified(w.db.proposals[id], None)));
    ClaimedOnce(sha, w, id, bare, email, c);
    more := ClaimOne(sha, more, w1, 0);
    var w2 := ClaimedWorld(w1, 0);
    SendApplies(sha, w2, 0, Undelivered(Null, ""));
    more := Extend(sha, more, w2, SendStep(0, Undelivered(Null, "")));
    w' := SendWorld(w2, 0, Undelivered(Null, ""));
    NothingHanded(w2, Undelivered(Null, ""));
  }

  lemma NothingHanded(w: World, delivery: Delivery)
    requires w.requests.Keys == {0} && w.requests[0].pc.Claimed? && Letter(w.requests[0].pc.p).None?
    ensures SendWorld(w, 0, delivery)
         == w.(requests := map[0 := w.requests[0].(pc := Attempted(w.requests[0].pc.executionId, delivery))])
  {
    var q := w.requests[0].(pc := Attempted(w.requests[0].pc.executionId, delivery));
    assert w.requests[0 := q] == map[0 := q];
  }

  /** A crash before the hand-over is not the only way to lose a letter: for every letter, if its
      payload is written over in the queue by one without a subject, and the operator saves a text
      and approves, there is a run in which its hand-over hands over nothing, and a repeated request
      is told it was already executed; it is lost for good, and if the first request then dies, its
      execution is pending for good. */
  lemma LostWithoutSubject(sha: string -> string, id: Id, payload: Json, email: string, bare: Json, body: string)
    returns (steps: seq<Step>)
    requires Injective(sha)
    requires LetterPayload(payload, email) && bare.Obj? && WellFormed(bare) && Field(bare, "subject").None?
    ensures Run(sha, steps).Some? && ToldUnsent(Run(sha, steps).value)
    ensures Run(sha, steps).value.requests[0].pc.Attempted? && !CanBeSent(sha, steps, 0)
    ensures Run(sha, steps + [CrashStep(0)]).Some? && Stranded(Run(sha, steps + [CrashStep(0)]).value, 0, 0)
  {
    var granted, w, c := BareApproved(sha, id, payload, email, bare, body);
    BareStaysBare(bare, body);
    var attempted, w' := BareAttempted(sha, granted, w, id, WithBody(bare, body), email, c);
    steps := RetryOne(sha, attempted, w', id, WithBody(bare, body), email, c);
    LostAfterAttempt(sha, steps);
    CrashAfterAttempt(sha, steps);
  }

  lemma LostAfterAttempt(sha: string -> string, steps: seq<Step>)
    requires Injective(sha) && Run(sha, steps).Some? && ToldUnsent(Run(sha, steps).value)
    requires Run(sha, steps).value.requests[0].pc.Attempted? && Run(sha, steps).value.requests[0].pc.executionId == 0
    ensures !CanBeSent(sha, steps, 0)
  {
    var w := Run(sha, steps).value;
    EveryRunKeeps(sha, steps);
    AttemptedIsPending(sha, w, 0);
    AlreadyDoneMeans(sha, steps, 1);
  }

  lemma CrashAfterAttempt(sha: string -> string, steps: seq<Step>)
    requires Run(sha, steps).Some? && ToldUnsent(Run(sha, steps).value)
    requires Run(sha, steps).value.requests[0].pc.Attempted? && Run(sha, steps).value.requests[0].pc.executionId == 0
    ensures Run(sha, steps + [CrashStep(0)]).Some? && Stranded(Run(sha, steps + [CrashStep(0)]).value, 0, 0)
  {
    var w := Run(sha, steps).value;
    EveryRunKeeps(sha, steps);
    AttemptedIsPending(sha, w, 0);
    StrandedAttempt(w);
    CrashApplies(sha, w, 0);
    RunExtends(sha, steps, CrashStep(0));
  }

  lemma StrandedAttempt(w: World)
    requires 0 in w.requests && Owns(w, 0, w.requests[0], 0) && w.outbox == []
    ensures Stranded(SetPc(w, 0, Answered(Crashed)), 0, 0)
  {
  }

  // ---- a probe that outlives the approval ---------------------------------------------------------

  function ProbeFor(sha: string -> string, id: Id, p: Proposal): Claims {
    Claims(id, HashPayload(sha, p.payload), p.actionType, "visitor", "probe", 0, 300)
  }

  /** For every letter there is a run in which a probe is minted while it is pending, the letter is
      approved, and the probe, under a key nobody has used, gets past check 4 and stops at check 5. */
  lemma ProbePassesFour(sha: string -> string, id: Id, payload: Json, email: string) returns (steps: seq<Step>)
    requires LetterPayload(payload, email)
    ensures Run(sha, steps).Some?
    ensures var w := Run(sha, steps).value;
            && 0 in w.requests && w.requests[0].claims in w.probes && w.requests[0].pc == Refuse(5)
            && w.db.executions == []
  {
    var approved, w, probe := ProbedThenApproved(sha, id, payload, email);
    steps := ArriveOne(sha, approved, w, 0, probe, "fresh");
    ProbeStopsAtFive(sha, w, id, probe);
    steps := ReadAll(sha, steps, w, 0, Request(probe, "fresh", 0, Arrived));
  }

  lemma ProbedThenApproved(sha: string -> string, id: Id, payload: Json, email: string)
    returns (steps: seq<Step>, w: World, probe: Claims)
    requires LetterPayload(payload, email)
    ensures Reached(sha, steps, w) && w.requests == map[] && probe in w.probes
    ensures id in w.db.proposals && w.db.proposals[id].status == Approved && w.db.proposals[id].expiresAt == 1
    ensures probe.proposalId == id && probe.nonce == "probe" && probe.exp == 300
    ensures w.db.nonces == map[] && w.db.executions == []
    ensures w.db.approvals == [Approval(id, Approve, "operator", None, None, Some("first"))]
  {
    assert Reached(sha, [], START);
    steps := QueueOne(sha, [], START, id, payload, "invoice", email);
    var queued := Queue(sha, START, id, payload, "invoice", email);
    probe := ProbeFor(sha, id, queued.db.proposals[id]);
    steps := ProbeOne(sha, steps, queued, id);
    var probed := queued.(probes := queued.probes + {probe});
    steps := ApproveOne(sha, steps, probed, id, "first");
    w := Approving(probed, id, "first");
  }

  lemma ProbeOne(sha: string -> string, steps: seq<Step>, w: World, id: Id) returns (more: seq<Step>)
    requires Reached(sha, steps, w) && id in w.db.proposals && w.db.proposals[id].status == Pending
    requires FreshNonce(w, "probe")
    ensures Reached(sha, more, w.(probes := w.probes + {ProbeFor(sha, id, w.db.proposals[id])}))
  {
    more := Extend(sha, steps, w, ProbeStep(id, "visitor", "probe", 0, 300));
  }

  lemma ProbeStopsAtFive(sha: string -> string, w: World, id: Id, probe: Claims)
    requires id in w.db.proposals && w.db.proposals[id].status == Approved && w.db.proposals[id].expiresAt == 1
    requires probe.proposalId == id && probe.nonce == "probe" && probe.exp == 300
    requires w.db.nonces == map[] && w.db.executions == []
    requires w.db.approvals == [Approval(id, Approve, "operator", None, None, Some("first"))]
    ensures Holds(sha, w.db, probe, "fresh", 0, 2) && Holds(sha, w.db, probe, "fresh", 0, 3)
    ensures Holds(sha, w.db, probe, "fresh", 0, 4)
    ensures Undisturbed(sha, w.db, Request(probe, "fresh", 0, Arrived)) == Refuse(5)
  {
    assert !Holds(sha, w.db, probe, "fresh", 0, 5);
    ReadsCaseByCase(sha, w.db, Request(probe, "fresh", 0, Arrived));
  }
}
