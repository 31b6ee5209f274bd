/** What every step of the protocol keeps. */
module ProtocolInvariant {
  import opened Prelude
  import opened CanonicalJson
  import opened Claims
  import opened Store
  import opened Protocol

  // ---- proposals -----------------------------------------------------------------------

  predicate EmailAgrees(payload: Json, email: string) {
    Field(payload, "customer_email") == Some(Str(email))
  }

  ghost predicate ProposalOk(sha: string -> string, w: World, id: Id, p: Proposal) {
    && p.payload.Obj? && WellFormed(p.payload)
    && (id !in w.rewritten ==> p.payloadHash == HashPayload(sha, p.payload))
    && (id !in w.tainted && p.status == Pending ==> EmailAgrees(p.payload, p.customerEmail))
  }

  ghost predicate ProposalsOk(sha: string -> string, w: World) {
    forall id | id in w.db.proposals :: ProposalOk(sha, w, id, w.db.proposals[id])
  }

  // ---- approvals and grants ------------------------------------------------------------------

  predicate Decided(status: ProposalStatus) {
    status == Approved || status == Executed || status == Failed
  }

  predicate IsApproveOf(a: Approval, c: Claims) {
    a.decision == Approve && a.proposalId == c.proposalId && a.tokenNonce == Some(c.nonce) && a.actor == c.approver
  }

  /** Each approve record belongs to one grant and to a proposal that left the queue by it;
      no proposal has two. */
  ghost predicate ApprovalOk(w: World, a: Approval) {
    a.decision == Approve ==>
      && a.proposalId in w.db.proposals && Decided(w.db.proposals[a.proposalId].status)
      && a.tokenNonce.Some? && a.tokenNonce.value in w.grants
      && IsApproveOf(a, w.grants[a.tokenNonce.value].claims)
  }

  ghost predicate ApprovalsOk(w: World) {
    && (forall a | a in w.db.approvals :: ApprovalOk(w, a))
    && (forall i, j | 0 <= i < j < |w.db.approvals| ::
          w.db.approvals[i].decision == Approve && w.db.approvals[j].decision == Approve ==>
            w.db.approvals[i].proposalId != w.db.approvals[j].proposalId)
  }

  ghost predicate GrantOk(sha: string -> string, w: World, nonce: string, g: Grant) {
    var id := g.claims.proposalId;
    && g.claims.nonce == nonce
    && id in w.db.proposals && Decided(w.db.proposals[id].status)
    && g.payload.Obj? && WellFormed(g.payload)
    && g.claims.payloadHash == HashPayload(sha, g.payload)
    && (id !in w.tainted ==>
          EmailAgrees(g.payload, g.customerEmail) && w.db.proposals[id].customerEmail == g.customerEmail)
    && (id !in w.rewritten ==> w.db.proposals[id].payload == g.payload)
  }

  ghost predicate GrantsOk(sha: string -> string, w: World) {
    && (forall n | n in w.grants :: GrantOk(sha, w, n, w.grants[n]))
    && (forall c | c in w.probes :: c.nonce !in w.grants)
  }

  predicate HasApproval(approvals: seq<Approval>, c: Claims) {
    exists a | a in approvals :: IsApproveOf(a, c)
  }

  /** Signed by `approve`, with the approve record on file. */
  predicate Granted(w: World, c: Claims) {
    c.nonce in w.grants && w.grants[c.nonce].claims == c && HasApproval(w.db.approvals, c)
  }

  // ---- executions, nonces and the outbox -----------------------------------------------------

  ghost predicate ExecutionOk(w: World, e: nat)
    requires e < |w.db.executions| == |w.spent|
  {
    var n, x := w.spent[e], w.db.executions[e];
    && n in w.db.nonces && w.db.nonces[n] == NonceRow(x.proposalId, x.key)
    && n in w.grants && w.grants[n].claims.proposalId == x.proposalId && Granted(w, w.grants[n].claims)
  }

  /** Executions and consumed nonces are in bijection, and keys are unique. */
  ghost predicate ExecutionsOk(w: World) {
    && |w.claimants| == |w.spent| == |w.db.executions|
    && (forall e | 0 <= e < |w.spent| :: ExecutionOk(w, e))
    && (forall n | n in w.db.nonces :: n in w.spent)
    && (forall e, f | 0 <= e < f < |w.spent| ::
          w.spent[e] != w.spent[f] && w.db.executions[e].key != w.db.executions[f].key)
  }

  predicate StartedIn(log: seq<Event>, upTo: nat, e: nat, id: Id, key: string, payloadHash: string)
    requires upTo <= |log|
  {
    Event(Gateway, ExecutionStarted(e, key, payloadHash), id) in log[..upTo]
  }

  ghost predicate SentOk(sha: string -> string, w: World, s: Sent) {
    && s.executionId < |w.db.executions| == |w.spent|
    && s.key == w.db.executions[s.executionId].key
    && s.claims.nonce == w.spent[s.executionId]
    && Granted(w, s.claims)
    && s.logLength <= |w.db.log|
    && StartedIn(w.db.log, s.logLength, s.executionId, s.claims.proposalId, s.key, s.claims.payloadHash)
    && MessageOk(sha, w, s)
  }

  /** The message is the letter of a payload that hashes to the token's hash. */
  ghost predicate MessageOk(sha: string -> string, w: World, s: Sent) {
    && s.copy.payload.Obj? && WellFormed(s.copy.payload)
    && HashPayload(sha, s.copy.payload) == s.claims.payloadHash
    && Field(s.copy.payload, "subject") == Some(s.message.subject)
    && Field(s.copy.payload, "body") == Some(s.message.body)
    && s.message.to == s.copy.customerEmail
    && s.claims.proposalId in w.db.proposals
    && (s.claims.proposalId !in w.tainted ==>
          s.message.to == w.db.proposals[s.claims.proposalId].customerEmail)
  }

  ghost predicate OutboxOk(sha: string -> string, w: World) {
    && (forall s | s in w.outbox :: SentOk(sha, w, s))
    && (forall i, j | 0 <= i < j < |w.outbox| :: w.outbox[i].executionId != w.outbox[j].executionId)
  }

  // ---- requests --------------------------------------------------------------------------------

  /** A copy a request holds: still a dict, still addressed to the column's address. */
  ghost predicate CopyOk(w: World, id: Id, p: Proposal) {
    && id in w.db.proposals && p.payload.Obj? && WellFormed(p.payload)
    && (id !in w.tainted ==> p.customerEmail == w.db.proposals[id].customerEmail)
  }

  /** A copy that passed checks 5 and 6 against this request's claims. */
  ghost predicate CopyMatches(sha: string -> string, w: World, c: Claims, p: Proposal) {
    CopyOk(w, c.proposalId, p) && Granted(w, c) && HashPayload(sha, p.payload) == c.payloadHash
  }

  ghost predicate Owns(w: World, r: nat, q: Request, e: nat) {
    && e < |w.db.executions| == |w.spent| == |w.claimants|
    && w.claimants[e] == r
    && w.spent[e] == q.claims.nonce
    && w.db.executions[e].key == q.key
    && w.db.executions[e].proposalId == q.claims.proposalId
    && w.db.executions[e].status == ExecPending
  }

  ghost predicate RequestOk(sha: string -> string, w: World, r: nat, q: Request) {
    && Minted(w, q.claims)
    && match q.pc
       case ProposalSeen(p) => CopyOk(w, q.claims.proposalId, p)
       case Admitted(p, _) => CopyOk(w, q.claims.proposalId, p)
       case Matched(p, _) => CopyMatches(sha, w, q.claims, p)
       case Verified(p, _) => CopyMatches(sha, w, q.claims, p)
       case Claimed(p, e) =>
         && CopyMatches(sha, w, q.claims, p) && Owns(w, r, q, e)
         && (forall s | s in w.outbox :: s.executionId != e)
         && StartedIn(w.db.log, |w.db.log|, e, q.claims.proposalId, q.key, q.claims.payloadHash)
       case Attempted(e, _) => Owns(w, r, q, e)
       case _ => true
  }

  ghost predicate RequestsOk(sha: string -> string, w: World) {
    forall r | r in w.requests :: RequestOk(sha, w, r, w.requests[r])
  }

  // ---- the queue ---------------------------------------------------------------------------------

  predicate InvoicesOk(proposals: map<Id, Proposal>) {
    forall a, b | a in proposals && b in proposals && a != b ::
      proposals[a].status == Pending && proposals[b].status == Pending ==>
        proposals[a].invoiceId != proposals[b].invoiceId
  }

  // ---- the log ---------------------------------------------------------------------------------------

  datatype Summary = Summary(status: ProposalStatus, payloadHash: string)

  /** What one audited event says about the proposals, reading nothing but the log. */
  function ApplyEvent(m: map<Id, Summary>, event: Event): map<Id, Summary> {
    var id := event.subject;
    match event.kind
    case ProposalCreated(hash) => m[id := Summary(Pending, hash)]
    case ProposalEdited(_, hash) => if id in m then m[id := m[id].(payloadHash := hash)] else m
    case ProposalExpired => Move(m, id, Expired)
    case ApprovalGranted(_, _) => Move(m, id, Approved)
    case ApprovalRejected(_) => Move(m, id, Rejected)
    case ExecutionSucceeded(_) => Move(m, id, Executed)
    case ExecutionFailed(_) => Move(m, id, Failed)
    case _ => m
  }

  function Move(m: map<Id, Summary>, id: Id, status: ProposalStatus): map<Id, Summary> {
    if id in m then m[id := m[id].(status := status)] else m
  }

  function Replay(log: seq<Event>): map<Id, Summary> {
    if log == [] then map[] else ApplyEvent(Replay(log[..|log| - 1]), log[|log| - 1])
  }

  function Summaries(proposals: map<Id, Proposal>): map<Id, Summary> {
    map id | id in proposals :: Summary(proposals[id].status, proposals[id].payloadHash)
  }

  predicate LogOk(db: Db) {
    Replay(db.log) == Summaries(db.proposals)
  }

  ghost predicate Inv(sha: string -> string, w: World) {
    && ProposalsOk(sha, w)
    && ApprovalsOk(w)
    && GrantsOk(sha, w)
    && ExecutionsOk(w)
    && OutboxOk(sha, w)
    && RequestsOk(sha, w)
    && InvoicesOk(w.db.proposals)
    && LogOk(w.db)
  }
}
