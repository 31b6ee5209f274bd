/** The shared database: its tables, its constraints, and what each transaction does to it.

    Every `session_scope` block of the program is one function here, from the database
    before to the database after. A block that raises leaves no trace: `session_scope` rolls
    back, so its function returns a `Failure` and no database. Row ids handed out by the
    database (approvals, executions) are positions in a sequence. */
module Store {
  import opened Prelude
  import opened CanonicalJson
  import opened Claims

  type Id = string
  /** Microseconds since 1970-01-01T00:00:00Z. */
  type Time = int

  datatype RunStatus = Queued | Running | AwaitingApproval | Completed | RunFailed

  datatype ProposalStatus = Pending | Approved | Rejected | Executed | Failed | Expired

  datatype Proposal = Proposal(
    runId: Id,
    actionType: string,
    status: ProposalStatus,
    payload: Json,
    payloadHash: string,
    invoiceId: string,
    customerEmail: string,
    expiresAt: Time)

  datatype Decision = Approve | Reject

  datatype Approval = Approval(
    proposalId: Id,
    decision: Decision,
    actor: string,
    note: Option<string>,
    editedBody: Option<string>,
    tokenNonce: Option<string>)

  datatype ExecutionStatus = ExecPending | ExecSucceeded | ExecFailed

  datatype Execution = Execution(
    proposalId: Id,
    key: string,
    status: ExecutionStatus,
    result: Json,
    error: Option<string>)

  datatype NonceRow = NonceRow(proposalId: Id, key: string)

  datatype Actor = Agent | Operator | Gateway | System

  /** The audited facts, with the part of each event's detail the model reasons about. */
  datatype Kind =
    | SystemStarted
    | SchemaMigrated
    | RunStarted
    | RunCompleted
    | RunBroken
    | RunAbandoned
    | RunSettled
    | ProposalCreated(payloadHash: string)
    | ProposalEdited(previousHash: string, payloadHash: string)
    | ProposalExpired
    | ApprovalGranted(approver: string, payloadHash: string)
    | ApprovalRejected(rejectedBy: string)
    | TokenMinted(approver: string, nonce: string)
    | ExecutionStarted(executionId: nat, key: string, payloadHash: string)
    | ExecutionSucceeded(executionId: nat)
    | ExecutionFailed(executionId: nat)
    | ActionRefused(code: string)

  datatype Event = Event(actor: Actor, kind: Kind, subject: Id)

  datatype Db = Db(
    runs: map<Id, RunStatus>,
    proposals: map<Id, Proposal>,
    approvals: seq<Approval>,
    executions: seq<Execution>,
    nonces: map<string, NonceRow>,
    log: seq<Event>)

  const EMPTY := Db(map[], map[], [], [], map[], [])

  datatype Error =
    | ProposalNotFound
    | ProposalNotPending(status: ProposalStatus)
    | NoteRequired
    | PayloadHashDrift
    | DuplicatePendingProposal
    | ProbeNotPermitted
    | KeyTaken
    | NonceTaken

  // ---- queries -----------------------------------------------------------------------

  /** `select(Execution).where(idempotency_key == key)`. */
  function FindExecution(executions: seq<Execution>, key: string): (r: Option<nat>)
    ensures r.Some? ==> r.value < |executions| && executions[r.value].key == key
    ensures r.None? ==> forall i | 0 <= i < |executions| :: executions[i].key != key
    ensures r.Some? ==> forall i | r.value < i < |executions| :: executions[i].key != key
  {
    if executions == [] then None
    else
      var last := |executions| - 1;
      if executions[last].key == key then Some(last) else FindExecution(executions[..last], key)
  }

  /** The same query with `proposal_id == proposalId` added; keys are unique. */
  function FindOwnExecution(executions: seq<Execution>, key: string, proposalId: Id): (r: Option<nat>)
    ensures r.Some? ==> r.value < |executions|
    ensures r.Some? ==> executions[r.value].key == key && executions[r.value].proposalId == proposalId
  {
    match FindExecution(executions, key)
    case Some(i) => if executions[i].proposalId == proposalId then Some(i) else None
    case None => None
  }

  /** The newest approve record of a proposal. */
  function LatestApproval(approvals: seq<Approval>, proposalId: Id): (r: Option<Approval>)
    ensures r.Some? ==> r.value in approvals && r.value.proposalId == proposalId && r.value.decision == Approve
    ensures r.None? ==> forall a | a in approvals :: a.proposalId != proposalId || a.decision != Approve
  {
    if approvals == [] then None
    else
      var last := approvals[|approvals| - 1];
      if last.proposalId == proposalId && last.decision == Approve then Some(last)
      else LatestApproval(approvals[..|approvals| - 1], proposalId)
  }

  predicate IsPending(db: Db, id: Id) {
    id in db.proposals && db.proposals[id].status == Pending
  }

  predicate IsStale(db: Db, id: Id, now: Time) {
    IsPending(db, id) && db.proposals[id].expiresAt <= now
  }

  // ---- app/store/repositories.py -------------------------------------------------------

  /** An order in which the sweep may visit the stale rows; the query leaves it open. */
  ghost predicate SweepOrder(db: Db, now: Time, order: seq<Id>) {
    && (forall i, j | 0 <= i < j < |order| :: order[i] != order[j])
    && (forall id :: id in order <==> IsStale(db, id, now))
  }

  function ExpiredEvents(order: seq<Id>): seq<Event> {
    seq(|order|, i requires 0 <= i < |order| => Event(System, ProposalExpired, order[i]))
  }

  /** `expire_stale_proposals` over the given rows. */
  function ExpireStale(db: Db, order: seq<Id>): Db {
    db.(proposals := map id | id in db.proposals ::
          if id in order then db.proposals[id].(status := Expired) else db.proposals[id],
        log := db.log + ExpiredEvents(order))
  }

  predicate HasPending(db: Db, runId: Id) {
    exists id | id in db.proposals :: db.proposals[id].runId == runId && db.proposals[id].status == Pending
  }

  predicate Settles(db: Db, runId: Id) {
    runId in db.runs && db.runs[runId] == AwaitingApproval && !HasPending(db, runId)
  }

  /** `settle_run_if_decided`. */
  function SettleRun(db: Db, runId: Id): Db {
    if Settles(db, runId)
    then db.(runs := db.runs[runId := Completed], log := db.log + [Event(System, RunSettled, runId)])
    else db
  }

  /** What happens to runs, and to the services, around the proposals. */
  datatype Housekeeping =
    | RunCreated(runId: Id)
    | StatusSet(runId: Id, status: RunStatus)
    | RunsAbandoned(orphans: seq<Id>)
    | ServiceStarted(service: Id, migrated: bool)

  predicate IsOrphan(runs: map<Id, RunStatus>, runId: Id) {
    runId in runs && (runs[runId] == Queued || runs[runId] == Running)
  }

  /** A run's id is a fresh uuid, and a starting service owns none of the runs in flight; the order
      in which it finds them is open. */
  ghost predicate Housekept(runs: map<Id, RunStatus>, change: Housekeeping) {
    match change
    case RunCreated(runId) => runId !in runs
    case RunsAbandoned(orphans) =>
      && (forall i, j | 0 <= i < j < |orphans| :: orphans[i] != orphans[j])
      && (forall id :: id in orphans <==> IsOrphan(runs, id))
    case _ => true
  }

  function RunsAfter(runs: map<Id, RunStatus>, change: Housekeeping): map<Id, RunStatus> {
    match change
    case RunCreated(runId) => runs[runId := Queued]
    case StatusSet(runId, status) => if runId in runs then runs[runId := status] else runs
    case RunsAbandoned(orphans) => map id | id in runs :: if id in orphans then RunFailed else runs[id]
    case ServiceStarted(_, _) => runs
  }

  function HousekeepingEvents(runs: map<Id, RunStatus>, change: Housekeeping): seq<Event> {
    match change
    case RunCreated(runId) => [Event(Operator, RunStarted, runId)]
    case StatusSet(runId, status) =>
      if runId !in runs then []
      else if status == RunFailed then [Event(Agent, RunBroken, runId)]
      else if status == Completed || status == AwaitingApproval then [Event(Agent, RunCompleted, runId)]
      else []
    case RunsAbandoned(orphans) =>
      seq(|orphans|, i requires 0 <= i < |orphans| => Event(System, RunAbandoned, orphans[i]))
    case ServiceStarted(service, migrated) =>
      (if migrated then [Event(System, SchemaMigrated, service)] else []) + [Event(System, SystemStarted, service)]
  }

  /** `RunStore.create`, `set_status`, `abandon_orphaned_runs`, `init_schema_and_audit`. */
  function Housekeep(db: Db, change: Housekeeping): Db {
    db.(runs := RunsAfter(db.runs, change), log := db.log + HousekeepingEvents(db.runs, change))
  }

  /** The partial unique index: one pending proposal per invoice. */
  predicate InvoiceTaken(db: Db, invoiceId: string) {
    exists id | id in db.proposals :: db.proposals[id].invoiceId == invoiceId && db.proposals[id].status == Pending
  }

  /** `RunStore.create_proposal`; `id` is the row's fresh uuid. */
  function CreateProposal(sha: string -> string, db: Db, id: Id, runId: Id, payload: Json,
                          invoiceId: string, customerEmail: string, expiresAt: Time): Result<Db, Error>
  {
    if InvoiceTaken(db, invoiceId) then Failure(DuplicatePendingProposal)
    else
      var hash := HashPayload(sha, payload);
      var row := Proposal(runId, ACTION_TYPE, Pending, payload, hash, invoiceId, customerEmail, expiresAt);
      Success(db.(proposals := db.proposals[id := row],
                  log := db.log + [Event(Agent, ProposalCreated(hash), id)]))
  }

  const ACTION_TYPE := "send_collection_letter"

  // ---- app/services/proposals.py ---------------------------------------------------------

  /** `_load_pending`. */
  function LoadPending(db: Db, id: Id, now: Time): Result<Proposal, Error> {
    if id !in db.proposals then Failure(ProposalNotFound)
    else
      var p := db.proposals[id];
      if p.status != Pending then Failure(ProposalNotPending(p.status))
      else if p.expiresAt <= now then Failure(ProposalNotPending(Expired))
      else Success(p)
  }

  /** `payload = dict(payload); payload["body"] = body`. */
  function WithBody(payload: Json, body: string): Json {
    if payload.Obj? then Obj(Set(payload.members, "body", Str(body))) else payload
  }

  function Edited(sha: string -> string, p: Proposal, body: string): Proposal {
    var payload := WithBody(p.payload, body);
    p.(payload := payload, payloadHash := HashPayload(sha, payload))
  }

  /** Write an edited row and the event that says so. */
  function EditRow(sha: string -> string, db: Db, id: Id, body: string): Db
    requires id in db.proposals
  {
    var p := db.proposals[id];
    var q := Edited(sha, p, body);
    db.(proposals := db.proposals[id := q],
        log := db.log + [Event(Operator, ProposalEdited(p.payloadHash, q.payloadHash), id)])
  }

  /** `save_edit`: sweep, load, edit, in one transaction. */
  function SaveEdit(sha: string -> string, db: Db, order: seq<Id>, id: Id, body: string, now: Time): Result<Db, Error> {
    var swept := ExpireStale(db, order);
    match LoadPending(swept, id, now)
    case Failure(e) => Failure(e)
    case Success(_) => Success(EditRow(sha, swept, id, body))
  }

  function RejectRow(db: Db, id: Id, actor: string, note: string): Db
    requires id in db.proposals
  {
    db.(proposals := db.proposals[id := db.proposals[id].(status := Rejected)],
        approvals := db.approvals + [Approval(id, Reject, actor, Some(note), None, None)],
        log := db.log + [Event(Operator, ApprovalRejected(actor), id)])
  }

  /** `reject`: the decision, and then perhaps the run it was the last of. */
  function RejectProposal(db: Db, order: seq<Id>, id: Id, actor: string, note: string, now: Time): Result<Db, Error> {
    if Strip(note) == "" then Failure(NoteRequired)
    else
      var swept := ExpireStale(db, order);
      match LoadPending(swept, id, now)
      case Failure(e) => Failure(e)
      case Success(p) => Success(SettleRun(RejectRow(swept, id, actor, note), p.runId))
  }

  /** Whether approving with this text counts as an edit (app/services/proposals.py:177). */
  predicate NeedsEdit(p: Proposal, editedBody: Option<string>) {
    editedBody.Some? && Field(p.payload, "body") != Some(Str(editedBody.value))
  }

  /** The text the operator approves is stored before anything is signed. */
  function Prepare(sha: string -> string, db: Db, id: Id, editedBody: Option<string>): (r: Db)
    requires id in db.proposals
    ensures id in r.proposals
  {
    if NeedsEdit(db.proposals[id], editedBody) then EditRow(sha, db, id, editedBody.value) else db
  }

  /** `mint_for_approval`: the claims, hashed from the payload as it is now. */
  function MintForApproval(sha: string -> string, id: Id, p: Proposal, approver: string, nonce: string,
                           now: Time, ttl: int): Result<Claims, Error>
  {
    var recomputed := HashPayload(sha, p.payload);
    if !HashesEqual(recomputed, p.payloadHash) then Failure(PayloadHashDrift)
    else
      var issuedAt := now / 1_000_000;
      Success(Claims(id, recomputed, p.actionType, approver, nonce, issuedAt, issuedAt + ttl))
  }

  function GrantRow(db: Db, id: Id, actor: string, note: Option<string>, editedBody: Option<string>, nonce: string): Db
    requires id in db.proposals
  {
    var p := db.proposals[id];
    db.(proposals := db.proposals[id := p.(status := Approved)],
        approvals := db.approvals + [Approval(id, Approve, actor, note, editedBody, Some(nonce))],
        log := db.log + [Event(Operator, ApprovalGranted(actor, p.payloadHash), id),
                         Event(Operator, TokenMinted(actor, nonce), id)])
  }

  /** The transaction of `approve`: sweep, load, edit if the text differs, grant, mint. */
  function ApproveProposal(sha: string -> string, db: Db, order: seq<Id>, id: Id, actor: string,
                           note: Option<string>, editedBody: Option<string>, nonce: string,
                           now: Time, ttl: int): Result<(Db, Claims), Error>
  {
    var swept := ExpireStale(db, order);
    match LoadPending(swept, id, now)
    case Failure(e) => Failure(e)
    case Success(_) =>
      var ready := Prepare(sha, swept, id, editedBody);
      match MintForApproval(sha, id, ready.proposals[id], actor, nonce, now, ttl)
      case Failure(e) => Failure(e)
      case Success(claims) => Success((GrantRow(ready, id, actor, note, editedBody, nonce), claims))
  }

  /** `mint_probe_token_for_demonstration`: refused for the one status that could send. */
  function MintProbe(sha: string -> string, db: Db, id: Id, actor: string, nonce: string,
                     now: Time, ttl: int): Result<Claims, Error>
  {
    if id !in db.proposals then Failure(ProposalNotFound)
    else if db.proposals[id].status == Approved then Failure(ProbeNotPermitted)
    else
      var p := db.proposals[id];
      var issuedAt := now / 1_000_000;
      Success(Claims(id, HashPayload(sha, p.payload), p.actionType, actor, nonce, issuedAt, issuedAt + ttl))
  }

  // ---- gateway/executor.py -----------------------------------------------------------------

  /** `_claim`: the execution row, the consumed nonce and the started event, or nothing.
      Both the idempotency key and the nonce are unique. */
  function ClaimExecution(db: Db, c: Claims, key: string): Result<(Db, nat), Error> {
    if FindExecution(db.executions, key).Some? then Failure(KeyTaken)
    else if c.nonce in db.nonces then Failure(NonceTaken)
    else
      var e := |db.executions|;
      Success((db.(executions := db.executions + [Execution(c.proposalId, key, ExecPending, Null, None)],
                   nonces := db.nonces[c.nonce := NonceRow(c.proposalId, key)],
                   log := db.log + [Event(Gateway, ExecutionStarted(e, key, c.payloadHash), c.proposalId)]),
               e))
  }

  /** `_finish`: the outcome on the execution row and on the proposal, with its event. */
  function FinishExecution(db: Db, e: nat, proposalId: Id, succeeded: bool, result: Json, error: Option<string>): Db
    requires e < |db.executions| && proposalId in db.proposals
  {
    var row := db.executions[e].(status := if succeeded then ExecSucceeded else ExecFailed,
                                 result := result, error := error);
    db.(executions := db.executions[e := row],
        proposals := db.proposals[proposalId :=
          db.proposals[proposalId].(status := if succeeded then Executed else Failed)],
        log := db.log + [Event(Gateway, if succeeded then ExecutionSucceeded(e) else ExecutionFailed(e), proposalId)])
  }

  /** `record_refusal`. */
  function RecordRefusal(db: Db, subject: Id, code: string): Db {
    db.(log := db.log + [Event(Gateway, ActionRefused(code), subject)])
  }
}
