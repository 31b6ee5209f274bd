/** Runs that exist: every letter can be sent, and each way in which the protocol promises less
    than its documentation is reached by a run. */
module ProtocolWitness {
  import opened Prelude
  import opened CanonicalJson
  import opened Claims
  import opened Store
  import opened Protocol
  import opened ProtocolGateway
  import opened ProtocolRetry
  import opened Checks

  // ---- one more step ------------------------------------------------------------------------

  ghost predicate Reached(sha: string -> string, steps: seq<Step>, w: World) {
    Run(sha, steps) == Some(w)
  }

  lemma Extend(sha: string -> string, steps: seq<Step>, w: World, step: Step) returns (more: seq<Step>)
    requires Reached(sha, steps, w) && Enabled(w, step)
    ensures Reached(sha, more, Apply(sha, w, step))
  {
    more := steps + [step];
    assert more[..|steps|] == steps;
  }

  // ---- the operator's side --------------------------------------------------------------------

  /** A drafted row whose deadline is one microsecond after the epoch. */
  function NewRow(sha: string -> string, payload: Json, invoiceId: string, email: string): Proposal {
    Proposal("run", ACTION_TYPE, Pending, payload, HashPayload(sha, payload), invoiceId, email, 1)
  }

  function Queue(sha: string -> string, w: World, id: Id, payload: Json, invoiceId: string, email: string): World {
    var row := NewRow(sha, payload, invoiceId, email);
    w.(db := w.db.(proposals := w.db.proposals[id := row],
                   log := w.db.log + [Event(Agent, ProposalCreated(row.payloadHash), id)]))
  }

  lemma QueueOne(sha: string -> string, steps: seq<Step>, w: World, id: Id, payload: Json, invoiceId: string, email: string)
    returns (more: seq<Step>)
    requires Reached(sha, steps, w) && id !in w.db.proposals && !InvoiceTaken(w.db, invoiceId)
    requires LetterPayload(payload, email)
    ensures Reached(sha, more, Queue(sha, w, id, payload, invoiceId, email))
  {
    var step := CreateStep(id, "run", payload, invoiceId, email, 1);
    CreateApplies(sha, w, id, payload, invoiceId, email);
    more := Extend(sha, steps, w, step);
  }

  lemma CreateApplies(sha: string -> string, w: World, id: Id, payload: Json, invoiceId: string, email: string)
    requires id !in w.db.proposals && !InvoiceTaken(w.db, invoiceId) && LetterPayload(payload, email)
    ensures var step := CreateStep(id, "run", payload, invoiceId, email, 1);
            Enabled(w, step) && Apply(sha, w, step) == Queue(sha, w, id, payload, invoiceId, email)
  {
  }

  /** The token of an approval at the epoch. */
  function TokenFor(w: World, id: Id, nonce: string): Claims
    requires id in w.db.proposals
  {
    var p := w.db.proposals[id];
    Claims(id, p.payloadHash, p.actionType, "operator", nonce, 0, 900)
  }

  function Approving(w: World, id: Id, nonce: string): World
    requires id in w.db.proposals
  {
    var p := w.db.proposals[id];
    w.(db := GrantRow(w.db, id, "operator", None, None, nonce),
       grants := w.grants[nonce := Grant(TokenFor(w, id, nonce), p.payload, p.customerEmail)])
  }

  predicate CanApprove(sha: string -> string, db: Db, id: Id) {
    && IsPending(db, id)
    && db.proposals[id].payloadHash == HashPayload(sha, db.proposals[id].payload)
    && forall x | x in db.proposals :: db.proposals[x].expiresAt == 1
  }

  lemma ApproveOne(sha: string -> string, steps: seq<Step>, w: World, id: Id, nonce: string) returns (more: seq<Step>)
    requires Reached(sha, steps, w) && CanApprove(sha, w.db, id) && FreshNonce(w, nonce)
    ensures Reached(sha, more, Approving(w, id, nonce))
  {
    var step := ApproveStep(0, [], id, "operator", None, None, nonce, 0, 900);
    ApproveApplies(sha, w, id, nonce);
    more := Extend(sha, steps, w, step);
  }

  lemma NothingStale(db: Db)
    requires forall id | id in db.proposals :: db.proposals[id].expiresAt == 1
    ensures SweepOrder(db, 0, []) && ExpireStale(db, []) == db
  {
    assert ExpireStale(db, []).proposals == db.proposals;
    assert db.log + ExpiredEvents([]) == db.log;
  }

  lemma ApproveApplies(sha: string -> string, w: World, id: Id, nonce: string)
    requires CanApprove(sha, w.db, id) && FreshNonce(w, nonce)
    ensures var step := ApproveStep(0, [], id, "operator", None, None, nonce, 0, 900);
            Enabled(w, step) && Apply(sha, w, step) == Approving(w, id, nonce)
  {
    NothingStale(w.db);
    var p := w.db.proposals[id];
    assert HashPayload(sha, p.payload)[0] == PREFIX[0];
    assert MintForApproval(sha, id, p, "operator", nonce, 0, 900) == Success(TokenFor(w, id, nonce));
    assert ApproveProposal(sha, w.db, [], id, "operator", None, None, nonce, 0, 900)
        == Success((GrantRow(w.db, id, "operator", None, None, nonce), TokenFor(w, id, nonce)));
  }

  // ---- the gateway's side -----------------------------------------------------------------------

  function WithRequest(w: World, r: nat, q: Request): World {
    w.(requests := w.requests[r := q])
  }

  lemma ArriveOne(sha: string -> string, steps: seq<Step>, w: World, r: nat, c: Claims, key: string) returns (more: seq<Step>)
    requires Reached(sha, steps, w) && r !in w.requests && Minted(w, c)
    ensures Reached(sha, more, WithRequest(w, r, Request(c, key, 0, Arrived)))
  {
    more := Extend(sha, steps, w, ArriveStep(r, c, key, 0));
  }

  lemma ReadOnce(sha: string -> string, steps: seq<Step>, w: World, r: nat, q: Request) returns (more: seq<Step>)
    requires Reached(sha, steps, WithRequest(w, r, q)) && CanAdvance(q.pc)
    ensures Reached(sha, more, WithRequest(w, r, q.(pc := Advance(sha, w.db, q))))
  {
    var w' := WithRequest(w, r, q);
    ReadApplies(sha, w', r);
    more := Extend(sha, steps, w', ReadStep(r));
    assert w'.requests[r := q.(pc := Advance(sha, w.db, q))] == w.requests[r := q.(pc := Advance(sha, w.db, q))];
  }

  lemma ReadApplies(sha: string -> string, w: World, r: nat)
    requires r in w.requests && CanAdvance(w.requests[r].pc)
    ensures Enabled(w, ReadStep(r)) && Apply(sha, w, ReadStep(r)) == SetPc(w, r, Advance(sha, w.db, w.requests[r]))
  {
  }

  /** Where a request that gets past check 4 stands after its first three reads. */
  lemma Stages(sha: string -> string, db: Db, q: Request) returns (q1: Request, q2: Request, q3: Request)
    requires q.pc == Arrived && Holds(sha, db, q.claims, q.key, q.at, 2) && Holds(sha, db, q.claims, q.key, q.at, 3)
    requires Holds(sha, db, q.claims, q.key, q.at, 4)
    ensures q1 == q.(pc := Advance(sha, db, q)) && CanAdvance(q1.pc)
    ensures q2 == q1.(pc := Advance(sha, db, q1)) && CanAdvance(q2.pc)
    ensures q3 == q2.(pc := Advance(sha, db, q2)) && CanAdvance(q3.pc)
    ensures Undisturbed(sha, db, q)
         == var q4 := q3.(pc := Advance(sha, db, q3)); if q4.pc.Answered? then q4.pc else Advance(sha, db, q4)
    ensures q3.pc.Admitted?
  {
    q1 := q.(pc := Advance(sha, db, q));
    q2 := q1.(pc := Advance(sha, db, q1));
    q3 := q2.(pc := Advance(sha, db, q2));
  }

  /** The reads of a request nobody disturbs, when it gets past check 4. */
  lemma ReadAll(sha: string -> string, steps: seq<Step>, w: World, r: nat, q: Request) returns (more: seq<Step>)
    requires Reached(sha, steps, WithRequest(w, r, q)) && q.pc == Arrived
    requires Holds(sha, w.db, q.claims, q.key, q.at, 2) && Holds(sha, w.db, q.claims, q.key, q.at, 3)
    requires Holds(sha, w.db, q.claims, q.key, q.at, 4)
    ensures Reached(sha, more, WithRequest(w, r, q.(pc := Undisturbed(sha, w.db, q))))
  {
    var q1, q2, q3 := Stages(sha, w.db, q);
    more := ReadOnce(sha, steps, w, r, q);
    more := ReadOnce(sha, more, w, r, q1);
    more := ReadOnce(sha, more, w, r, q2);
    more := ReadOnce(sha, more, w, r, q3);
    var q4 := q3.(pc := Advance(sha, w.db, q3));
    LastStage(sha, w.db, q3);
    if !q4.pc.Answered? { more := ReadOnce(sha, more, w, r, q4); }
  }

  lemma LastStage(sha: string -> string, db: Db, q: Request)
    requires q.pc.Admitted?
    ensures var pc := Advance(sha, db, q); pc.Answered? || (pc.Matched? && CanAdvance(pc))
  {
  }

  /** An approved row, its token granted and alive. */
  ghost predicate Approved1(sha: string -> string, w: World, id: Id, payload: Json, email: string, c: Claims) {
    && id in w.db.proposals && w.db.proposals[id].status == Approved && w.db.proposals[id].expiresAt == 1
    && w.db.proposals[id].payload == payload && w.db.proposals[id].customerEmail == email
    && c.proposalId == id && c.payloadHash == HashPayload(sha, payload) && c.exp == 900
    && ApprovedBy(LatestApproval(w.db.approvals, id), c)
    && c.nonce in w.grants && w.grants[c.nonce].claims == c
  }

  lemma ApprovedPasses(sha: string -> string, w: World, id: Id, payload: Json, email: string, c: Claims, key: string)
    requires Approved1(sha, w, id, payload, email, c) && NonceUsable(NonceRowOf(w.db, c.nonce), key)
    ensures AllHold(sha, w.db, c, key, 0)
    ensures Undisturbed(sha, w.db, Request(c, key, 0, Arrived))
         == Verified(w.db.proposals[id], Look(w.db, FindExecution(w.db.executions, key)))
  {
    assert HashPayload(sha, payload)[0] == PREFIX[0];
    AllHoldCases(sha, w.db, c, key, 0);
    ReadsReachTheVerdict(sha, w.db, Request(c, key, 0, Arrived));
  }

  /** A fresh request with an approval's token is verified. */
  lemma VerifyOne(sha: string -> string, steps: seq<Step>, w: World, r: nat, id: Id, payload: Json, email: string,
                  c: Claims, key: string) returns (more: seq<Step>)
    requires Reached(sha, steps, w) && r !in w.requests
    requires Approved1(sha, w, id, payload, email, c) && NonceUsable(NonceRowOf(w.db, c.nonce), key)
    ensures Reached(sha, more, WithRequest(w, r, Request(c, key, 0,
              Verified(w.db.proposals[id], Look(w.db, FindExecution(w.db.executions, key))))))
  {
    more := ArriveOne(sha, steps, w, r, c, key);
    ApprovedPasses(sha, w, id, payload, email, c, key);
    AllHoldCases(sha, w.db, c, key, 0);
    more := ReadAll(sha, more, w, r, Request(c, key, 0, Arrived));
  }

  lemma ClaimOne(sha: string -> string, steps: seq<Step>, w: World, r: nat) returns (more: seq<Step>)
    requires Reached(sha, steps, w) && Claimable(w, r)
    ensures Reached(sha, more, ClaimedWorld(w, r))
  {
    ClaimWorldUnfolds(w, r);
    more := Extend(sha, steps, w, ClaimStep(r));
  }

  /** A claim that collides, and the answer it gets. */
  lemma LoseOne(sha: string -> string, steps: seq<Step>, w: World, r: nat) returns (more: seq<Step>, nonceTaken: bool)
    requires Reached(sha, steps, w) && CanClaim(w, r) && !Claimable(w, r)
    ensures var q := w.requests[r];
            Reached(sha, more, WithRequest(w, r, q.(pc := Answered(AnswerFromWinner(w.db, q.key, nonceTaken)))))
  {
    var q := w.requests[r];
    ClaimWorldUnfolds(w, r);
    var pc := ClaimWorld(w, r).requests[r].pc;
    nonceTaken := pc.nonceTaken;
    more := Extend(sha, steps, w, ClaimStep(r));
    assert SetPc(w, r, pc) == WithRequest(w, r, q.(pc := pc));
    more := ReadOnce(sha, more, w, r, q.(pc := pc));
  }

  lemma SendOne(sha: string -> string, steps: seq<Step>, w: World, r: nat, delivery: Delivery) returns (more: seq<Step>)
    requires Reached(sha, steps, w) && r in w.requests && w.requests[r].pc.Claimed? && Letter(w.requests[r].pc.p).Some?
    ensures Reached(sha, more, SendWorld(w, r, delivery))
  {
    more := Extend(sha, steps, w, SendStep(r, delivery));
  }

  lemma FinishOne(sha: string -> string, steps: seq<Step>, w: World, r: nat) returns (more: seq<Step>)
    requires Reached(sha, steps, w) && CanFinish(w, r)
    ensures Reached(sha, more, FinishWorld(w, r))
  {
    more := Extend(sha, steps, w, FinishStep(r));
  }

  // ---- a world with one approved letter ------------------------------------------------------------

  /** Nobody at the gateway yet. */
  predicate Unused(w: World) {
    && w.requests == map[] && w.outbox == [] && w.db.executions == [] && w.db.nonces == map[] && w.rewritten == {}
  }

  lemma QueuedIsApproved(sha: string -> string, w: World, id: Id, payload: Json, invoiceId: string, email: string, nonce: string)
    requires Unused(w) && id !in w.db.proposals
    requires forall a | a in w.db.approvals :: a.proposalId != id
    ensures var w' := Approving(Queue(sha, w, id, payload, invoiceId, email), id, nonce);
            Approved1(sha, w', id, payload, email, TokenFor(Queue(sha, w, id, payload, invoiceId, email), id, nonce)) && Unused(w')
  {
    var queued := Queue(sha, w, id, payload, invoiceId, email);
    var w' := Approving(queued, id, nonce);
    var a := Approval(id, Approve, "operator", None, None, Some(nonce));
    assert w'.db.approvals == w.db.approvals + [a];
    assert LatestApproval(w'.db.approvals, id) == Some(a);
  }

  lemma OneApproved(sha: string -> string, id: Id, payload: Json, email: string)
    returns (steps: seq<Step>, w: World, c: Claims)
    requires LetterPayload(payload, email)
    ensures Reached(sha, steps, w) && Unused(w) && Approved1(sha, w, id, payload, email, c)
    ensures w.db.proposals.Keys == {id} && c.nonce == "first" && w.grants.Keys == {"first"} && w.probes == {}
    ensures forall a | a in w.db.approvals :: a.proposalId == id
  {
    assert Reached(sha, [], START);
    steps := QueueOne(sha, [], START, id, payload, "invoice", email);
    var queued := Queue(sha, START, id, payload, "invoice", email);
    steps := ApproveOne(sha, steps, queued, id, "first");
    w, c := Approving(queued, id, "first"), TokenFor(queued, id, "first");
    QueuedIsApproved(sha, START, id, payload, "invoice", email, "first");
  }

  // ---- a letter goes out ------------------------------------------------------------------------------

  /** One message was handed over, for the only execution. */
  predicate HandedOnce(w: World, message: Message, status: ExecutionStatus) {
    |w.outbox| == 1 && w.outbox[0].message == message && w.outbox[0].executionId == 0
    && |w.db.executions| == 1 && w.db.executions[0].status == status
  }

  /** From an approved letter to its outcome. */
  lemma CarriedOut(sha: string -> string, steps: seq<Step>, w: World, id: Id, payload: Json, email: string, c: Claims,
                   subject: Json, body: Json, delivery: Delivery) returns (more: seq<Step>, w': World)
    requires Reached(sha, steps, w) && Unused(w) && Approved1(sha, w, id, payload, email, c)
    requires Field(payload, "subject") == Some(subject) && Field(payload, "body") == Some(body)
    ensures Reached(sha, more, w')
    ensures HandedOnce(w', Message(email, subject, body), if delivery.Accepted? then ExecSucceeded else ExecFailed)
    ensures id in w'.db.proposals && w'.db.proposals[id].status == (if delivery.Accepted? then Executed else Failed)
    ensures 0 in w'.requests
    ensures w'.requests[0].pc == Answered(if delivery.Accepted? then Done(0, delivery.result) else ReportedFailed(0))
  {
    more := VerifyOne(sha, steps, w, 0, id, payload, email, c, "key");
    var w1 := WithRequest(w, 0, Request(c, "key", 0, Verified(w.db.proposals[id], None)));
    more := ClaimOne(sha, more, w1, 0);
    var w2 := ClaimedWorld(w1, 0);
    more := SendOne(sha, more, w2, 0, delivery);
    var w3 := SendWorld(w2, 0, delivery);
    more := FinishOne(sha, more, w3, 0);
    w' := FinishWorld(w3, 0);
  }

  /** For every letter there is a run at whose end it has been approved, sent once, to its
      address, with its own subject and body, and its proposal is executed. */
  lemma EveryLetterCanBeSent(sha: string -> string, id: Id, payload: Json, email: string, subject: Json, body: Json,
                             result: Json) returns (steps: seq<Step>)
    requires LetterPayload(payload, email)
    requires Field(payload, "subject") == Some(subject) && Field(payload, "body") == Some(body)
    ensures Run(sha, steps).Some?
    ensures var w := Run(sha, steps).value;
            && HandedOnce(w, Message(email, subject, body), ExecSucceeded)
            && id in w.db.proposals && w.db.proposals[id].status == Executed
            && 0 in w.requests && w.requests[0].pc == Answered(Done(0, result))
  {
    var granted, w, c := OneApproved(sha, id, payload, email);
    var more, w' := CarriedOut(sha, granted, w, id, payload, email, c, subject, body, Accepted(result));
    steps := more;
  }

  /** For every letter there is a run in which it is handed over and its execution reported failed:
      the invoice sender, say, fails after the adapter has accepted it. */
  lemma EveryFailureCanHaveSent(sha: string -> string, id: Id, payload: Json, email: string, subject: Json, body: Json,
                                result: Json, error: string) returns (steps: seq<Step>)
    requires LetterPayload(payload, email)
    requires Field(payload, "subject") == Some(subject) && Field(payload, "body") == Some(body)
    ensures Run(sha, steps).Some?
    ensures var w := Run(sha, steps).value;
            && HandedOnce(w, Message(email, subject, body), ExecFailed)
            && id in w.db.proposals && w.db.proposals[id].status == Failed
            && 0 in w.requests && w.requests[0].pc == Answered(ReportedFailed(0))
  {
    var granted, w, c := OneApproved(sha, id, payload, email);
    var more, w' := CarriedOut(sha, granted, w, id, payload, email, c, subject, body, Undelivered(result, error));
    steps := more;
  }

  /** The recipient is not covered: for every letter and every other address there is a run in
      which one write to the e-mail column, after the approval, sends the letter there. */
  lemma EveryLetterCanBeMisdirected(sha: string -> string, id: Id, payload: Json, email: string, elsewhere: string,
                                    subject: Json, body: Json, result: Json) returns (steps: seq<Step>)
    requires LetterPayload(payload, email)
    requires Field(payload, "subject") == Some(subject) && Field(payload, "body") == Some(body)
    ensures Run(sha, steps).Some?
    ensures HandedOnce(Run(sha, steps).value, Message(elsewhere, subject, body), ExecSucceeded)
  {
    var granted, w, c := OneApproved(sha, id, payload, email);
    var rewritten := Extend(sha, granted, w, RewriteEmail(id, elsewhere));
    var w1 := RewriteEmailWorld(w, id, elsewhere);
    var more, w' := CarriedOut(sha, rewritten, w1, id, payload, elsewhere, c, subject, body, Accepted(result));
    steps := more;
  }

  // ---- a letter is lost ---------------------------------------------------------------------------------

  /** For every letter there is a run in which it is approved, claimed and never sent, while a
      retry of its request, its token still alive, is told that it was. */
  lemma EveryLetterCanBeLost(sha: string -> string, id: Id, payload: Json, email: string)
    returns (steps: seq<Step>, c: Claims)
    requires LetterPayload(payload, email)
    ensures Run(sha, steps).Some? && !IsExpired(c, 0) && c.proposalId !in Run(sha, steps).value.rewritten
    ensures ToldDoneUnsent(sha, Run(sha, steps).value, 0, c, "key", 0)
  {
    var granted, w, claims := OneApproved(sha, id, payload, email);
    c := claims;
    var verified := VerifyOne(sha, granted, w, 0, id, payload, email, c, "key");
    var w1 := WithRequest(w, 0, Request(c, "key", 0, Verified(w.db.proposals[id], None)));
    var claimed := ClaimOne(sha, verified, w1, 0);
    var w2 := ClaimedWorld(w1, 0);
    LostByCrash(sha, claimed, w2, c);
    steps := claimed + [CrashStep(0)];
  }

  lemma LostByCrash(sha: string -> string, steps: seq<Step>, w: World, c: Claims)
    requires Reached(sha, steps, w) && 0 in w.requests && w.requests[0].claims == c && w.requests[0].key == "key"
    requires w.requests[0].pc.Claimed? && w.requests[0].pc.executionId == 0 && w.rewritten == {}
    ensures Run(sha, steps + [CrashStep(0)]).Some? && Run(sha, steps + [CrashStep(0)]).value.rewritten == {}
    ensures ToldDoneUnsent(sha, Run(sha, steps + [CrashStep(0)]).value, 0, c, "key", 0)
  {
    CrashApplies(sha, w, 0);
    assert (steps + [CrashStep(0)])[..|steps|] == steps;
    assert [CrashStep(0)] + [] == [CrashStep(0)];
    CrashBeforeSendIsFinal(sha, steps, [], 0, 0);
  }
}
