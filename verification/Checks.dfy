/** gateway/verify.py: the seven checks, in order, and where the first failure stops them. */
module Checks {
  import opened Prelude
  import opened Claims
  import opened Store
  import opened Protocol
  import opened ApprovalToken

  const CHECK_NAMES: seq<string> := [
    "hmac_signature_valid", "token_not_expired", "nonce_unused", "proposal_is_approved",
    "approval_matches_approver", "payload_hash_matches", "idempotency_key_unused"]

  /** What arrives at the gateway. `spare` is the uuid a token without a nonce would take. */
  datatype Incoming = Incoming(
    rawToken: Option<string>,
    rawKey: Option<string>,
    bodyProposalId: string,
    bodyPayloadHash: string,
    at: Time,
    spare: string)

  datatype Verdict = Verdict(
    claims: Claims,
    proposal: Proposal,
    approval: Approval,
    key: string,
    checks: seq<string>,
    existing: Option<Seen>,
    bodyDisagreed: bool)

  datatype Refusal =
    | Refusal(code: string, httpStatus: int, failedCheck: Option<nat>, checksPassed: seq<string>)
    | Unhandled          // an exception neither ApiError nor Refusal: a 500

  /** `decode(raw_token or "", secret)`. */
  function Decoded(mac: Mac, secret: string, q: Incoming): Result<Claims, TokenError> {
    Decode(mac, q.rawToken.GetOr(""), secret, q.spare)
  }

  /** Whether one of checks 2 to 6 holds of the stored state, on its own terms: no check here
      looks at another's outcome. */
  predicate Holds(sha: string -> string, db: Db, c: Claims, key: string, at: Time, n: nat) {
    match n
    case 2 => !IsExpired(c, at)
    case 3 => NonceUsable(NonceRowOf(db, c.nonce), key)
    case 4 => c.proposalId in db.proposals
              && Executable(db.proposals[c.proposalId], Look(db, FindOwnExecution(db.executions, key, c.proposalId)), at)
    case 5 => ApprovedBy(LatestApproval(db.approvals, c.proposalId), c)
    case 6 => c.proposalId in db.proposals && LetterUnchanged(sha, db.proposals[c.proposalId], c)
    case _ => true
  }

  /** Check `n` is the first of 2 to 6 that fails. */
  predicate FirstFailure(sha: string -> string, db: Db, c: Claims, key: string, at: Time, n: nat) {
    2 <= n <= 6 && !Holds(sha, db, c, key, at, n) && forall k | 2 <= k < n :: Holds(sha, db, c, key, at, k)
  }

  predicate AllHold(sha: string -> string, db: Db, c: Claims, key: string, at: Time) {
    forall k | 2 <= k <= 6 :: Holds(sha, db, c, key, at, k)
  }

  /** The refusal code and the HTTP status of each check. */
  function CodeOf(n: nat): (string, int) {
    match n
    case 1 => ("invalid_signature", 401)
    case 2 => ("token_expired", 401)
    case 3 => ("token_replayed", 409)
    case 4 => ("not_approved", 403)
    case 5 => ("approval_mismatch", 403)
    case _ => ("payload_modified", 409)
  }

  function RefuseAt(n: nat, passed: seq<string>): Refusal {
    Refusal(CodeOf(n).0, CodeOf(n).1, Some(n), passed)
  }

  /** Approved here, and inside its deadline. */
  predicate Sendable(p: Proposal, at: Time) {
    p.status == Approved && at < p.expiresAt
  }

  /** The untrusted body's copies; recorded, never acted on. */
  predicate BodyDisagrees(q: Incoming, c: Claims) {
    || (q.bodyProposalId != "" && q.bodyProposalId != c.proposalId)
    || (q.bodyPayloadHash != "" && q.bodyPayloadHash != c.payloadHash)
  }

  /** What the stored state makes of authentic claims. A refusal names the first failing
      check and exactly the checks before it; a verdict carries all seven, the rows they
      were decided on, and the execution the key names, whoever's it is. */
  predicate StateOutcome(sha: string -> string, db: Db, c: Claims, key: string, q: Incoming, r: Result<Verdict, Refusal>) {
    match r
    case Failure(Refusal(_, _, Some(n), _)) =>
      FirstFailure(sha, db, c, key, q.at, n) && r == Failure(RefuseAt(n, CHECK_NAMES[..n - 1]))
    case Failure(_) => false
    case Success(v) =>
      && AllHold(sha, db, c, key, q.at)
      && v.claims == c && v.key == key && v.checks == CHECK_NAMES
      && c.proposalId in db.proposals && v.proposal == db.proposals[c.proposalId]
      && LatestApproval(db.approvals, c.proposalId) == Some(v.approval)
      && v.existing == Look(db, FindExecution(db.executions, key))
      && v.bodyDisagreed == BodyDisagrees(q, c)
  }

  /** The outcome of `verify_execution_request`. */
  predicate Outcome(sha: string -> string, mac: Mac, secret: string, db: Db, q: Incoming, r: Result<Verdict, Refusal>) {
    var key := Strip(q.rawKey.GetOr(""));
    if key == "" then r == Failure(Refusal("missing_idempotency_key", 400, None, []))
    else
      match Decoded(mac, secret, q)
      case Failure(InvalidSignature) => r == Failure(RefuseAt(1, []))
      case Failure(MalformedToken) => r == Failure(Refusal("malformed_token", 401, Some(1), []))
      case Failure(_) => r == Failure(Unhandled)
      case Success(c) => StateOutcome(sha, db, c, key, q, r)
  }

  lemma RefusalIsOutcome(sha: string -> string, db: Db, c: Claims, key: string, q: Incoming, n: nat)
    requires FirstFailure(sha, db, c, key, q.at, n)
    ensures StateOutcome(sha, db, c, key, q, Failure(RefuseAt(n, CHECK_NAMES[..n - 1])))
  {
  }

  /** The state and the request determine the outcome. */
  lemma OutcomeIsDetermined(sha: string -> string, db: Db, c: Claims, key: string, q: Incoming,
                            r: Result<Verdict, Refusal>, r': Result<Verdict, Refusal>)
    requires StateOutcome(sha, db, c, key, q, r) && StateOutcome(sha, db, c, key, q, r')
    ensures r == r'
  {
    if r.Failure? && r'.Failure? {
      var n, m := r.error.failedCheck.value, r'.error.failedCheck.value;
      assert FirstFailure(sha, db, c, key, q.at, n) && FirstFailure(sha, db, c, key, q.at, m);
      assert n == m;
    }
  }

  /** The outcome, but for the note that the body disagreed. */
  function WithoutNote(r: Result<Verdict, Refusal>): Result<Verdict, Refusal> {
    match r
    case Success(v) => Success(v.(bodyDisagreed := false))
    case Failure(e) => Failure(e)
  }

  /** Nothing in the request body is used in any decision: requests that differ only there come
      to the same outcome. */
  lemma BodyIsInert(sha: string -> string, mac: Mac, secret: string, db: Db, q: Incoming, q': Incoming,
                    r: Result<Verdict, Refusal>, r': Result<Verdict, Refusal>)
    requires q' == q.(bodyProposalId := q'.bodyProposalId, bodyPayloadHash := q'.bodyPayloadHash)
    requires Outcome(sha, mac, secret, db, q, r) && Outcome(sha, mac, secret, db, q', r')
    ensures WithoutNote(r) == WithoutNote(r')
  {
    var key := Strip(q.rawKey.GetOr(""));
    assert Decoded(mac, secret, q') == Decoded(mac, secret, q);
    if key != "" && Decoded(mac, secret, q).Success? {
      StateIgnoresBody(sha, db, Decoded(mac, secret, q).value, key, q, q', r, r');
    }
  }

  lemma StateIgnoresBody(sha: string -> string, db: Db, c: Claims, key: string, q: Incoming, q': Incoming,
                         r: Result<Verdict, Refusal>, r': Result<Verdict, Refusal>)
    requires q'.at == q.at && StateOutcome(sha, db, c, key, q, r) && StateOutcome(sha, db, c, key, q', r')
    ensures WithoutNote(r) == WithoutNote(r')
  {
    if r.Failure? && r'.Failure? {
      assert StateOutcome(sha, db, c, key, q, r');
      OutcomeIsDetermined(sha, db, c, key, q, r, r');
    }
  }

  // ---- one request, undisturbed ------------------------------------------------------------

  /** The five reads of a request between which nothing else happens. */
  function Undisturbed(sha: string -> string, db: Db, q: Request): Pc {
    var q1 := q.(pc := Advance(sha, db, q));
    var q2 := q1.(pc := Advance(sha, db, q1));
    var q3 := q2.(pc := Advance(sha, db, q2));
    var q4 := q3.(pc := Advance(sha, db, q3));
    if q4.pc.Answered? then q4.pc else Advance(sha, db, q4)
  }

  lemma ReadsCaseByCase(sha: string -> string, db: Db, q: Request)
    requires q.pc == Arrived
    ensures Undisturbed(sha, db, q)
         == if !Holds(sha, db, q.claims, q.key, q.at, 2) then Refuse(2)
            else if !Holds(sha, db, q.claims, q.key, q.at, 3) then Refuse(3)
            else if !Holds(sha, db, q.claims, q.key, q.at, 4) then Refuse(4)
            else if !Holds(sha, db, q.claims, q.key, q.at, 5) then Refuse(5)
            else if !Holds(sha, db, q.claims, q.key, q.at, 6) then Refuse(6)
            else Verified(db.proposals[q.claims.proposalId], Look(db, FindExecution(db.executions, q.key)))
  {
  }

  /** Read by read, the protocol's request reaches the verdict of the checks taken together:
      the first failing check, or all passed with the execution its key names. */
  lemma ReadsReachTheVerdict(sha: string -> string, db: Db, q: Request)
    requires q.pc == Arrived
    ensures forall n :: Undisturbed(sha, db, q) == Refuse(n) <==> FirstFailure(sha, db, q.claims, q.key, q.at, n)
    ensures AllHold(sha, db, q.claims, q.key, q.at) <==> Undisturbed(sha, db, q).Verified?
    ensures AllHold(sha, db, q.claims, q.key, q.at) ==>
              Undisturbed(sha, db, q) == Verified(db.proposals[q.claims.proposalId],
                                                  Look(db, FindExecution(db.executions, q.key)))
  {
    ReadsCaseByCase(sha, db, q);
    AllHoldCases(sha, db, q.claims, q.key, q.at);
    forall n ensures Undisturbed(sha, db, q) == Refuse(n) <==> FirstFailure(sha, db, q.claims, q.key, q.at, n) {
      FirstFailureCases(sha, db, q.claims, q.key, q.at, n);
    }
  }

  lemma AllHoldCases(sha: string -> string, db: Db, c: Claims, key: string, at: Time)
    ensures AllHold(sha, db, c, key, at) <==>
      Holds(sha, db, c, key, at, 2) && Holds(sha, db, c, key, at, 3) && Holds(sha, db, c, key, at, 4)
      && Holds(sha, db, c, key, at, 5) && Holds(sha, db, c, key, at, 6)
  {
  }

  lemma FirstFailureCases(sha: string -> string, db: Db, c: Claims, key: string, at: Time, n: nat)
    ensures FirstFailure(sha, db, c, key, at, n) <==>
      || (n == 2 && !Holds(sha, db, c, key, at, 2))
      || (n == 3 && Holds(sha, db, c, key, at, 2) && !Holds(sha, db, c, key, at, 3))
      || (n == 4 && Holds(sha, db, c, key, at, 2) && Holds(sha, db, c, key, at, 3) && !Holds(sha, db, c, key, at, 4))
      || (n == 5 && Holds(sha, db, c, key, at, 2) && Holds(sha, db, c, key, at, 3) && Holds(sha, db, c, key, at, 4)
          && !Holds(sha, db, c, key, at, 5))
      || (n == 6 && Holds(sha, db, c, key, at, 2) && Holds(sha, db, c, key, at, 3) && Holds(sha, db, c, key, at, 4)
          && Holds(sha, db, c, key, at, 5) && !Holds(sha, db, c, key, at, 6))
  {
  }
}
