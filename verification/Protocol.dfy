/** The approval-to-send protocol: any number of gateway requests, interleaved with the
    operator, the sweeps, a demonstration probe and out-of-band writes.

    One step is one `session_scope` block (a transaction), one read of the gateway's
    verification, or one call of the mail adapter. A request keeps its own program counter
    and its own detached copies of the rows it has read, so everything else may happen
    between any two of its steps; it may also crash between any two.

    Assumed and nowhere proved: a transaction is atomic; a nonce is fresh (uuid4); a request
    that passes check 1 carries claims that were minted (see ApprovalToken). */
module Protocol {
  import opened Prelude
  import opened CanonicalJson
  import opened Claims
  import opened Store

  // ---- the gateway's side --------------------------------------------------------------

  /** A detached row: what a request saw, not what the table says now. */
  datatype Seen = Seen(id: nat, row: Execution)

  datatype Message = Message(to: string, subject: Json, body: Json)

  datatype Delivery =
    | Accepted(result: Json)
    | Undelivered(result: Json, error: string)

  datatype Answer =
    | Refused(failedCheck: nat)
    | Done(executionId: nat, result: Json)
    | AlreadyDone(seen: Seen)
    | ReportedFailed(executionId: nat)
    | ServerError
    | Crashed

  datatype Pc =
    | Arrived                                            // check 1 passed
    | NonceSeen                                          // checks 2 and 3 passed
    | ProposalSeen(p: Proposal)                          // inside check 4
    | Admitted(p: Proposal, own: Option<Seen>)           // check 4 passed
    | Matched(p: Proposal, own: Option<Seen>)            // checks 5 and 6 passed
    | Verified(p: Proposal, existing: Option<Seen>)      // check 7 recorded
    | LostRace(nonceTaken: bool)                         // the claim was rolled back
    | Claimed(p: Proposal, executionId: nat)             // committed, nothing sent yet
    | Attempted(executionId: nat, delivery: Delivery)    // the adapter has answered
    | Answered(answer: Answer)

  datatype Request = Request(claims: Claims, key: string, at: Time, pc: Pc)

  /** `ApprovalTokenClaims.is_expired` at a clock reading. */
  predicate IsExpired(c: Claims, at: Time) {
    at / 1_000_000 >= c.exp
  }

  function Look(db: Db, i: Option<nat>): Option<Seen>
    requires i.Some? ==> i.value < |db.executions|
  {
    match i
    case None => None
    case Some(n) => Some(Seen(n, db.executions[n]))
  }

  /** Check 3, given the nonce row that was read. */
  predicate NonceUsable(row: Option<NonceRow>, key: string) {
    row.None? || row.value.key == key
  }

  /** Check 4, given the proposal row and this request's own earlier execution. */
  predicate Executable(p: Proposal, own: Option<Seen>, at: Time) {
    own.Some? || (p.status == Approved && at < p.expiresAt)
  }

  /** Check 5, given the newest approve record. */
  predicate ApprovedBy(a: Option<Approval>, c: Claims) {
    a.Some? && a.value.actor == c.approver && a.value.tokenNonce == Some(c.nonce)
  }

  /** Check 6, on this process's own copy of the letter. */
  predicate LetterUnchanged(sha: string -> string, p: Proposal, c: Claims) {
    HashesEqual(HashPayload(sha, p.payload), c.payloadHash)
  }

  function NonceRowOf(db: Db, nonce: string): Option<NonceRow> {
    if nonce in db.nonces then Some(db.nonces[nonce]) else None
  }

  function Refuse(n: nat): Pc {
    Answered(Refused(n))
  }

  /** What `execute` answers when check 7 found an execution. */
  function AnswerFromRecord(seen: Seen): Answer {
    if seen.row.status == ExecFailed then ReportedFailed(seen.id) else AlreadyDone(seen)
  }

  /** `_answer_from_the_winner`. */
  function AnswerFromWinner(db: Db, key: string, nonceTaken: bool): Answer {
    match Look(db, FindExecution(db.executions, key))
    case Some(seen) => AlreadyDone(seen)
    case None => if nonceTaken then Refused(3) else ServerError
  }

  /** The next read of `verify_execution_request`, or the answer it leads to. */
  function Advance(sha: string -> string, db: Db, q: Request): Pc {
    match q.pc
    case Arrived =>
      if IsExpired(q.claims, q.at) then Refuse(2)
      else if !NonceUsable(NonceRowOf(db, q.claims.nonce), q.key) then Refuse(3)
      else NonceSeen
    case NonceSeen =>
      if q.claims.proposalId in db.proposals then ProposalSeen(db.proposals[q.claims.proposalId])
      else Refuse(4)
    case ProposalSeen(p) =>
      var own := Look(db, FindOwnExecution(db.executions, q.key, q.claims.proposalId));
      if Executable(p, own, q.at) then Admitted(p, own) else Refuse(4)
    case Admitted(p, own) =>
      if !ApprovedBy(LatestApproval(db.approvals, q.claims.proposalId), q.claims) then Refuse(5)
      else if !LetterUnchanged(sha, p, q.claims) then Refuse(6)
      else Matched(p, own)
    case Matched(p, own) =>
      Verified(p, if own.Some? then own else Look(db, FindExecution(db.executions, q.key)))
    case Verified(p, existing) =>
      if existing.Some? then Answered(AnswerFromRecord(existing.value)) else q.pc
    case LostRace(nonceTaken) =>
      Answered(AnswerFromWinner(db, q.key, nonceTaken))
    case _ => q.pc
  }

  predicate CanAdvance(pc: Pc) {
    || pc.Arrived? || pc.NonceSeen? || pc.ProposalSeen? || pc.Admitted? || pc.Matched? || pc.LostRace?
    || (pc.Verified? && pc.existing.Some?)
  }

  /** The one outward-facing moment: what the adapter is handed, when the letter has both
      parts; a missing part raises before the adapter is called. */
  function Letter(p: Proposal): Option<Message> {
    match (Field(p.payload, "subject"), Field(p.payload, "body"))
    case (Some(subject), Some(body)) => Some(Message(p.customerEmail, subject, body))
    case _ => None
  }

  // ---- the world -------------------------------------------------------------------------

  /** History: one call of the mail adapter, and the request's copy of the row it came from. */
  datatype Sent = Sent(executionId: nat, claims: Claims, key: string, message: Message, copy: Proposal, logLength: nat)

  /** History: what `approve` signed, and what the row held at that moment. */
  datatype Grant = Grant(claims: Claims, payload: Json, customerEmail: string)

  datatype World = World(
    db: Db,
    requests: map<nat, Request>,
    outbox: seq<Sent>,
    grants: map<string, Grant>,   // by nonce
    probes: set<Claims>,
    claimants: seq<nat>,          // the request that claimed each execution
    spent: seq<string>,           // the nonce each execution consumed
    rewritten: set<Id>,           // payload overwritten out of band, at any time
    tainted: set<Id>)             // ... while pending, or the e-mail column overwritten

  const START := World(EMPTY, map[], [], map[], {}, [], [], {}, {})

  datatype Step =
    | CreateStep(id: Id, runId: Id, payload: Json, invoiceId: string, email: string, deadline: Time)
    | RunStep(change: Housekeeping)
    | EditStep(sweptAt: Time, order: seq<Id>, id: Id, body: string, now: Time)
    | RejectStep(sweptAt: Time, order: seq<Id>, id: Id, actor: string, reason: string, now: Time)
    | ApproveStep(sweptAt: Time, order: seq<Id>, id: Id, actor: string, note: Option<string>,
                  editedBody: Option<string>, nonce: string, now: Time, ttl: int)
    | SweepStep(sweptAt: Time, order: seq<Id>)
    | SettleStep(runId: Id)
    | ProbeStep(id: Id, actor: string, nonce: string, now: Time, ttl: int)
    | RewritePayload(id: Id, payload: Json)
    | RewriteEmail(id: Id, email: string)
    | ArriveStep(r: nat, claims: Claims, key: string, at: Time)
    | ReadStep(r: nat)
    | ClaimStep(r: nat)
    | ConflictStep(r: nat)
    | SendStep(r: nat, delivery: Delivery)
    | FinishStep(r: nat)
    | RecordStep(subject: Id, code: string)
    | CrashStep(r: nat)

  predicate Minted(w: World, c: Claims) {
    (c.nonce in w.grants && w.grants[c.nonce].claims == c) || c in w.probes
  }

  predicate FreshNonce(w: World, nonce: string) {
    nonce != "" && nonce !in w.grants && forall c | c in w.probes :: c.nonce != nonce
  }

  /** A payload as the draft tool builds it: a dict whose e-mail is the one in the column. */
  predicate LetterPayload(payload: Json, email: string) {
    payload.Obj? && WellFormed(payload) && Field(payload, "customer_email") == Some(Str(email))
  }

  ghost predicate Enabled(w: World, step: Step) {
    match step
    case CreateStep(id, _, payload, _, email, _) => id !in w.db.proposals && LetterPayload(payload, email)
    case RunStep(change) => Housekept(w.db.runs, change)
    case EditStep(sweptAt, order, _, _, _) => SweepOrder(w.db, sweptAt, order)
    case RejectStep(sweptAt, order, _, _, _, _) => SweepOrder(w.db, sweptAt, order)
    case ApproveStep(sweptAt, order, _, _, _, _, nonce, _, _) =>
      SweepOrder(w.db, sweptAt, order) && FreshNonce(w, nonce)
    case SweepStep(sweptAt, order) => SweepOrder(w.db, sweptAt, order)
    case ProbeStep(_, _, nonce, _, _) => FreshNonce(w, nonce)
    case RewritePayload(id, payload) => id in w.db.proposals && payload.Obj? && WellFormed(payload)
    case RewriteEmail(id, _) => id in w.db.proposals
    case ArriveStep(r, claims, _, _) => r !in w.requests && Minted(w, claims)
    case ReadStep(r) => r in w.requests && CanAdvance(w.requests[r].pc)
    case ClaimStep(r) => CanClaim(w, r)
    case ConflictStep(r) => CanClaim(w, r)
    case SendStep(r, delivery) =>
      && r in w.requests && w.requests[r].pc.Claimed?
      && (Letter(w.requests[r].pc.p).None? ==> delivery.Undelivered?)
    case FinishStep(r) =>
      && r in w.requests && w.requests[r].pc.Attempted?
      && w.requests[r].pc.executionId < |w.db.executions|
      && w.requests[r].claims.proposalId in w.db.proposals
    case CrashStep(r) => r in w.requests
    case _ => true
  }

  predicate CanClaim(w: World, r: nat) {
    r in w.requests && w.requests[r].pc.Verified? && w.requests[r].pc.existing.None?
  }

  function SetPc(w: World, r: nat, pc: Pc): World
    requires r in w.requests
  {
    w.(requests := w.requests[r := w.requests[r].(pc := pc)])
  }

  function SetDb(w: World, r: Result<Db, Error>): World {
    match r
    case Success(db) => w.(db := db)
    case Failure(_) => w
  }

  /** Somebody writes a payload without the program: the stored hash stays as it was. */
  function RewritePayloadWorld(w: World, id: Id, payload: Json): World
    requires id in w.db.proposals
  {
    var p := w.db.proposals[id];
    w.(db := w.db.(proposals := w.db.proposals[id := p.(payload := payload)]),
       rewritten := w.rewritten + {id},
       tainted := if p.status == Pending then w.tainted + {id} else w.tainted)
  }

  function RewriteEmailWorld(w: World, id: Id, email: string): World
    requires id in w.db.proposals
  {
    w.(db := w.db.(proposals := w.db.proposals[id := w.db.proposals[id].(customerEmail := email)]),
       tainted := w.tainted + {id})
  }

  function ApproveWorld(sha: string -> string, w: World, step: Step): World
    requires step.ApproveStep?
  {
    match ApproveProposal(sha, w.db, step.order, step.id, step.actor, step.note, step.editedBody,
                          step.nonce, step.now, step.ttl)
    case Failure(_) => w
    case Success((db, claims)) =>
      var p := if step.id in db.proposals then db.proposals[step.id].payload else Null;
      var email := if step.id in db.proposals then db.proposals[step.id].customerEmail else "";
      w.(db := db, grants := w.grants[claims.nonce := Grant(claims, p, email)])
  }

  function ClaimWorld(w: World, r: nat): World
    requires CanClaim(w, r)
  {
    var q := w.requests[r];
    match ClaimExecution(w.db, q.claims, q.key)
    case Failure(e) => SetPc(w, r, LostRace(e == NonceTaken))
    case Success((db, e)) =>
      SetPc(w, r, Claimed(q.pc.p, e)).(
        db := db, claimants := w.claimants + [r], spent := w.spent + [q.claims.nonce])
  }

  function SendWorld(w: World, r: nat, delivery: Delivery): World
    requires r in w.requests && w.requests[r].pc.Claimed?
  {
    var q := w.requests[r];
    var moved := SetPc(w, r, Attempted(q.pc.executionId, delivery));
    match Letter(q.pc.p)
    case None => moved
    case Some(message) =>
      moved.(outbox := w.outbox + [Sent(q.pc.executionId, q.claims, q.key, message, q.pc.p, |w.db.log|)])
  }

  function FinishWorld(w: World, r: nat): World
    requires r in w.requests && w.requests[r].pc.Attempted?
    requires w.requests[r].pc.executionId < |w.db.executions|
    requires w.requests[r].claims.proposalId in w.db.proposals
  {
    var q := w.requests[r];
    var e := q.pc.executionId;
    match q.pc.delivery
    case Accepted(result) =>
      SetPc(w, r, Answered(Done(e, result))).(
        db := FinishExecution(w.db, e, q.claims.proposalId, true, result, None))
    case Undelivered(result, error) =>
      SetPc(w, r, Answered(ReportedFailed(e))).(
        db := FinishExecution(w.db, e, q.claims.proposalId, false, result, Some(error)))
  }

  ghost function Apply(sha: string -> string, w: World, step: Step): World
    requires Enabled(w, step)
  {
    match step
    case CreateStep(id, runId, payload, invoiceId, email, deadline) =>
      SetDb(w, CreateProposal(sha, w.db, id, runId, payload, invoiceId, email, deadline))
    case RunStep(change) => w.(db := Housekeep(w.db, change))
    case EditStep(_, order, id, body, now) => SetDb(w, SaveEdit(sha, w.db, order, id, body, now))
    case RejectStep(_, order, id, actor, reason, now) =>
      SetDb(w, RejectProposal(w.db, order, id, actor, reason, now))
    case ApproveStep(_, _, _, _, _, _, _, _, _) => ApproveWorld(sha, w, step)
    case SweepStep(_, order) => w.(db := ExpireStale(w.db, order))
    case SettleStep(runId) => w.(db := SettleRun(w.db, runId))
    case ProbeStep(id, actor, nonce, now, ttl) =>
      (match MintProbe(sha, w.db, id, actor, nonce, now, ttl)
       case Failure(_) => w
       case Success(claims) => w.(probes := w.probes + {claims}))
    case RewritePayload(id, payload) => RewritePayloadWorld(w, id, payload)
    case RewriteEmail(id, email) => RewriteEmailWorld(w, id, email)
    case ArriveStep(r, claims, key, at) =>
      w.(requests := w.requests[r := Request(claims, key, at, Arrived)])
    case ReadStep(r) => SetPc(w, r, Advance(sha, w.db, w.requests[r]))
    case ClaimStep(r) => ClaimWorld(w, r)
    case ConflictStep(r) => SetPc(w, r, LostRace(false))
    case SendStep(r, delivery) => SendWorld(w, r, delivery)
    case FinishStep(r) => FinishWorld(w, r)
    case RecordStep(subject, code) => w.(db := RecordRefusal(w.db, subject, code))
    case CrashStep(r) => SetPc(w, r, Answered(Crashed))
  }

  // ---- runs --------------------------------------------------------------------------------

  /** The world a list of steps leads to, if each was enabled when it was taken. */
  ghost function Run(sha: string -> string, steps: seq<Step>): Option<World> {
    if steps == [] then Some(START)
    else
      var last := |steps| - 1;
      match Run(sha, steps[..last])
      case None => None
      case Some(w) => if Enabled(w, steps[last]) then Some(Apply(sha, w, steps[last])) else None
  }
}
