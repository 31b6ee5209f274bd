/** The gateway's refusals spelled out: for each of the seven checks, when it refuses, with which
    code, which status and which names of checks already passed. Nothing here goes through the
    tables of codes and names that the verification itself uses. */
module Refusals {
  import opened Prelude
  import opened CanonicalJson
  import opened Claims
  import opened Store
  import opened Protocol
  import opened ApprovalToken
  import opened Checks

  // ---- the conditions, on the claims and the tables ----------------------------------------------

  predicate TokenExpired(c: Claims, at: Time) {
    at / 1_000_000 >= c.exp
  }

  /** The nonce was consumed under another key. */
  predicate NonceSpentElsewhere(db: Db, c: Claims, key: string) {
    c.nonce in db.nonces && db.nonces[c.nonce].key != key
  }

  /** The unique constraint on the executions' keys. */
  predicate KeysUnique(db: Db) {
    forall i, j | 0 <= i < j < |db.executions| :: db.executions[i].key != db.executions[j].key
  }

  predicate ExecutedUnder(db: Db, proposalId: Id, key: string) {
    exists x | x in db.executions :: x.proposalId == proposalId && x.key == key
  }

  /** No such proposal; or none that is approved and inside its deadline, and no execution of it
      under this key. */
  predicate NotApproved(db: Db, c: Claims, key: string, at: Time) {
    c.proposalId !in db.proposals
    || (var p := db.proposals[c.proposalId];
        !ExecutedUnder(db, c.proposalId, key) && (p.status != Approved || p.expiresAt <= at))
  }

  /** The approve record at `i` is the newest of its proposal. */
  predicate NewestApproval(db: Db, proposalId: Id, i: int) {
    && 0 <= i < |db.approvals| && db.approvals[i].proposalId == proposalId && db.approvals[i].decision == Approve
    && forall j | i < j < |db.approvals| :: db.approvals[j].proposalId != proposalId || db.approvals[j].decision != Approve
  }

  /** The newest approve record names the token's approver and its nonce. */
  predicate ApprovalNamesToken(db: Db, c: Claims) {
    exists i | 0 <= i < |db.approvals| :: NewestApproval(db, c.proposalId, i) && NamesToken(db.approvals[i], c)
  }

  predicate NamesToken(a: Approval, c: Claims) {
    a.actor == c.approver && a.tokenNonce == Some(c.nonce)
  }

  /** The letter as it is stored does not hash to what the token says. */
  predicate LetterModified(sha: string -> string, db: Db, c: Claims) {
    c.proposalId in db.proposals && HashPayload(sha, db.proposals[c.proposalId].payload) != c.payloadHash
  }

  // ---- they are what the checks ask -----------------------------------------------------------------

  lemma {:induction false} NewestIsLatest(approvals: seq<Approval>, db: Db, proposalId: Id)
    requires approvals <= db.approvals
    requires forall j | |approvals| <= j < |db.approvals| ::
               db.approvals[j].proposalId != proposalId || db.approvals[j].decision != Approve
    ensures match LatestApproval(approvals, proposalId)
            case None => forall i :: !NewestApproval(db, proposalId, i)
            case Some(a) => exists i :: NewestApproval(db, proposalId, i) && db.approvals[i] == a
    decreases |approvals|
  {
    if approvals != [] {
      var last := |approvals| - 1;
      if approvals[last].proposalId == proposalId && approvals[last].decision == Approve {
        assert NewestApproval(db, proposalId, last);
      } else {
        NewestIsLatest(approvals[..last], db, proposalId);
      }
    }
  }

  lemma OneNewest(db: Db, proposalId: Id, i: int, j: int)
    requires NewestApproval(db, proposalId, i) && NewestApproval(db, proposalId, j)
    ensures i == j
  {
  }

  lemma ApprovalCheck(db: Db, c: Claims)
    ensures ApprovedBy(LatestApproval(db.approvals, c.proposalId), c) <==> ApprovalNamesToken(db, c)
  {
    NewestIsLatest(db.approvals, db, c.proposalId);
    var a := LatestApproval(db.approvals, c.proposalId);
    if a.Some? {
      var i :| NewestApproval(db, c.proposalId, i) && db.approvals[i] == a.value;
      forall j | NewestApproval(db, c.proposalId, j) ensures j == i { OneNewest(db, c.proposalId, i, j); }
    }
  }

  lemma OwnExecutionCheck(db: Db, proposalId: Id, key: string)
    requires KeysUnique(db)
    ensures FindOwnExecution(db.executions, key, proposalId).Some? <==> ExecutedUnder(db, proposalId, key)
  {
    if ExecutedUnder(db, proposalId, key) {
      var x :| x in db.executions && x.proposalId == proposalId && x.key == key;
      var i :| 0 <= i < |db.executions| && db.executions[i] == x;
      assert FindExecution(db.executions, key) == Some(i);
    }
  }

  lemma ChecksInTheTables(sha: string -> string, db: Db, c: Claims, key: string, at: Time)
    requires KeysUnique(db)
    ensures Holds(sha, db, c, key, at, 2) <==> !TokenExpired(c, at)
    ensures Holds(sha, db, c, key, at, 3) <==> !NonceSpentElsewhere(db, c, key)
    ensures Holds(sha, db, c, key, at, 4) <==> !NotApproved(db, c, key, at)
    ensures Holds(sha, db, c, key, at, 5) <==> ApprovalNamesToken(db, c)
    ensures c.proposalId in db.proposals ==> (Holds(sha, db, c, key, at, 6) <==> !LetterModified(sha, db, c))
  {
    OwnExecutionCheck(db, c.proposalId, key);
    ApprovalCheck(db, c);
    if c.proposalId in db.proposals { assert HashPayload(sha, db.proposals[c.proposalId].payload)[0] == PREFIX[0]; }
  }

  // ---- the refusals -----------------------------------------------------------------------------------

  /** Which of checks 2 to 6 refuses authentic claims, and how, written out; nothing when all hold. */
  function RefusalFor(sha: string -> string, db: Db, c: Claims, key: string, at: Time): Option<Refusal> {
    if TokenExpired(c, at) then
      Some(Refusal("token_expired", 401, Some(2), ["hmac_signature_valid"]))
    else if NonceSpentElsewhere(db, c, key) then
      Some(Refusal("token_replayed", 409, Some(3), ["hmac_signature_valid", "token_not_expired"]))
    else if NotApproved(db, c, key, at) then
      Some(Refusal("not_approved", 403, Some(4), ["hmac_signature_valid", "token_not_expired", "nonce_unused"]))
    else if !ApprovalNamesToken(db, c) then
      Some(Refusal("approval_mismatch", 403, Some(5),
                   ["hmac_signature_valid", "token_not_expired", "nonce_unused", "proposal_is_approved"]))
    else if LetterModified(sha, db, c) then
      Some(Refusal("payload_modified", 409, Some(6),
                   ["hmac_signature_valid", "token_not_expired", "nonce_unused", "proposal_is_approved",
                    "approval_matches_approver"]))
    else None
  }

  lemma NamesPassed()
    ensures CHECK_NAMES[..1] == ["hmac_signature_valid"]
    ensures CHECK_NAMES[..2] == ["hmac_signature_valid", "token_not_expired"]
    ensures CHECK_NAMES[..3] == ["hmac_signature_valid", "token_not_expired", "nonce_unused"]
    ensures CHECK_NAMES[..4] == ["hmac_signature_valid", "token_not_expired", "nonce_unused", "proposal_is_approved"]
    ensures CHECK_NAMES[..5] == ["hmac_signature_valid", "token_not_expired", "nonce_unused", "proposal_is_approved",
                                 "approval_matches_approver"]
  {
  }

  lemma RefusesAsSaid(sha: string -> string, db: Db, c: Claims, key: string, q: Incoming, r: Result<Verdict, Refusal>)
    requires KeysUnique(db) && StateOutcome(sha, db, c, key, q, r)
    ensures match RefusalFor(sha, db, c, key, q.at)
            case Some(refusal) => r == Failure(refusal)
            case None => r.Success?
  {
    ChecksInTheTables(sha, db, c, key, q.at);
    NamesPassed();
    AllHoldCases(sha, db, c, key, q.at);
    if r.Failure? { FirstFailureCases(sha, db, c, key, q.at, r.error.failedCheck.value); }
  }

  /** Every answer of the verification, word for word. Before the token is read: no key, or only
      white space. At check 1: a signature that does not fit, or no token at all. */
  predicate AnsweredAsSaid(sha: string -> string, mac: Mac, secret: string, db: Db, q: Incoming, r: Result<Verdict, Refusal>) {
    var key := Strip(q.rawKey.GetOr(""));
    if key == "" then r == Failure(Refusal("missing_idempotency_key", 400, None, []))
    else
      match Decode(mac, q.rawToken.GetOr(""), secret, q.spare)
      case Failure(InvalidSignature) => r == Failure(Refusal("invalid_signature", 401, Some(1), []))
      case Failure(MalformedToken) => r == Failure(Refusal("malformed_token", 401, Some(1), []))
      case Failure(_) => r == Failure(Unhandled)
      case Success(c) =>
        match RefusalFor(sha, db, c, key, q.at)
        case Some(refusal) => r == Failure(refusal)
        case None => r.Success? && VerdictAsSaid(db, c, key, q, r.value)
  }

  /** A verdict carries the seven names, the rows it was decided on, the one execution under the key,
      if there is one, and whether the body's copies differ from the token's. */
  predicate VerdictAsSaid(db: Db, c: Claims, key: string, q: Incoming, v: Verdict) {
    && v.checks == ["hmac_signature_valid", "token_not_expired", "nonce_unused", "proposal_is_approved",
                    "approval_matches_approver", "payload_hash_matches", "idempotency_key_unused"]
    && v.claims == c && v.key == key && c.proposalId in db.proposals && v.proposal == db.proposals[c.proposalId]
    && (exists i | 0 <= i < |db.approvals| ::
          NewestApproval(db, c.proposalId, i) && db.approvals[i] == v.approval && NamesToken(v.approval, c))
    && (match v.existing
        case None => forall x | x in db.executions :: x.key != key
        case Some(seen) => seen.id < |db.executions| && seen.row == db.executions[seen.id] && seen.row.key == key)
    && (v.bodyDisagreed <==> (q.bodyProposalId != "" && q.bodyProposalId != c.proposalId)
                             || (q.bodyPayloadHash != "" && q.bodyPayloadHash != c.payloadHash))
  }

  lemma VerdictSpelledOut(sha: string -> string, db: Db, c: Claims, key: string, q: Incoming, v: Verdict)
    requires KeysUnique(db) && StateOutcome(sha, db, c, key, q, Success(v))
    ensures VerdictAsSaid(db, c, key, q, v)
  {
    NewestIsLatest(db.approvals, db, c.proposalId);
    AllHoldCases(sha, db, c, key, q.at);
    var i :| NewestApproval(db, c.proposalId, i) && db.approvals[i] == v.approval;
    assert NamesToken(db.approvals[i], c);
  }

  lemma EveryRefusal(sha: string -> string, mac: Mac, secret: string, db: Db, q: Incoming, r: Result<Verdict, Refusal>)
    requires KeysUnique(db) && Outcome(sha, mac, secret, db, q, r)
    ensures AnsweredAsSaid(sha, mac, secret, db, q, r)
  {
    var key := Strip(q.rawKey.GetOr(""));
    if key != "" && Decoded(mac, secret, q).Success? {
      var c := Decoded(mac, secret, q).value;
      RefusesAsSaid(sha, db, c, key, q, r);
      if r.Success? { VerdictSpelledOut(sha, db, c, key, q, r.value); }
    }
  }
}
