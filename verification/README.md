# Approval to send: a verified model

The system drafts collection letters with an agent, lets a human approve or reject each
one, and has a separate gateway send what was approved. This project models the part of it
that must never go wrong and proves what it promises.

* **The send protocol** (`Store`, `Protocol*`, `Checks`, `Refusals`, `Executor`, `Decisions`,
  `Transactions`, `Database`). A step machine over the shared database: any number of gateway
  requests, each with its own program counter and its own detached copies of rows, interleaved
  with creating, editing, approving, rejecting, expiring, probing, out-of-band writes and
  crashes. One step is one transaction, one read of the gateway's verification, or one call of
  the mail adapter. `Database` has the same transactions as methods of a class that updates its
  tables in place, each proved against the function of the store the machine uses, and
  `Executor` and `Checks` prove that running a request in one go is taking its steps one by one.
  `Transactions` and `Refusals` say in the tables, and in literal codes, what each of them does.
  `ProtocolKeys` says whose execution a key leads to and `ProtocolFate` whether a claimed letter
  can still be sent; `ProtocolWitness` and `ProtocolSurprises` build the runs that show the
  theorems are about something and the surprises are reachable.
* **The codecs under it** (`CanonicalJson`, `JsonRoundTrip`, `CanonicalOrder`, `Base64Url`, `Utf`,
  `ApprovalToken`, `Timestamps`, `Money`). Canonical JSON with its parser (escapes as in section
  7 of RFC 8259), unpadded base64url (section 5 of RFC 4648), the encodings `json.loads` accepts
  (UTF-8 as in section 3 of RFC 3629), the token codec, sortable timestamps and exact money.
  `CanonicalForm`, `TokenForm`, `UtfForm` and `MoneyForm` give each written form on its own terms,
  without the printer that is proved to produce it.
* **The hash-chained log** (`AuditChain`, `AuditLog`, `WriteConflict`, `LogChain`, `ChainForm`).
  Verification, tamper evidence, appending under contention, the bounded retry around it, and
  what one head hash pins down about the proposals.
* **The agent loop** (`Registry`, `WalkForm`, `DraftTool`, `LetterForm`, `Transcript`, `Dialogue`,
  `AgentLoop`, `Readback`, `Sweep`, `OperatorCap`, `LetterProvenance`). `Dialogue` says what a
  run must look like from the model's answers alone: what it is asked, what each tool answers,
  how it ends. Budgets, the grammar of the transcript, where every fact in a letter comes from,
  up to the message that was sent, and the read model that relies on the grammar.

`dafny verify dfyconfig.toml` verifies the whole project.

## Assumptions

* A `session_scope` block is atomic. Reads of one verification are *not* taken together.
* Ids and nonces handed out by uuid4 are fresh.
* A request that passes check 1 carries claims that `approve` or the probe minted
  (`ApprovalToken.OnlyMintedTokensVerify` says what that rests on).
* SHA-256 and HMAC (RFC 2104) are function parameters. Injectivity, a digest that is never
  empty, and a hash that is never the genesis placeholder are hypotheses of the lemmas that
  need them and of no other.
* `CreateStep` starts from a payload whose address is a text; `DraftTool.ColumnAgreesWithPayload`
  says exactly when the draft tool provides one.
* The model, the READ tools, the letter review, the mail adapter and the invoice sender are
  parameters or nondeterministic outcomes.

## Where the code and its documentation differ

The model follows the code; each point names the lemma or contract that states it.

* Check 7 asks only whether the key was used, not whether this request used it
  (gateway/verify.py:375-380, against its question on line 113), and neither does the path of a
  request that lost the race for the key (gateway/executor.py:249-261). A request is answered for
  its own proposal exactly when no request for another proposal has claimed under its key:
  `ProtocolKeys.AnsweredForItself`, over every run. The inputs: `ProtocolSurprises.KeyOfAnother`
  at check 7, `ProtocolSurprises.LostToAnother` with the key still unused at check 7.
* The losing path looks at no status (gateway/executor.py:255-262), so that a failed execution is
  told as already executed, which check 7 never does. Exactly when, over every run:
  `ProtocolKeys.LosingPathHidesFailure`; the run: `ProtocolSurprises.FailureToldAsDone`.
* "Already executed" (gateway/executor.py:157-172, gateway/api.py:88) is also said of a letter that
  is never sent. A claimed letter can still be sent exactly when its claimant stands right before
  the hand-over and the letter is whole: `ProtocolFate.SentOrAboutTo`; what each status that a
  request was shown means for it: `ProtocolFate.AlreadyDoneMeans`. The inputs: a crash after the
  claim (`ProtocolWitness.EveryLetterCanBeLost`, and for good: `ProtocolRetry.CrashBeforeSendIsFinal`);
  a letter without a subject, crash or not (`ProtocolSurprises.LostWithoutSubject`); and, of a letter
  not sent yet, no crash at all (`ProtocolSurprises.ToldBeforeSent`).
* The recipient is taken from a column no check covers (gateway/executor.py:186). It is the
  approved address exactly when the row the gateway read agrees with itself, its column with its
  own payload: `ProtocolTheorems.SentToApprovedAddressExactly`. That nothing enforces it:
  `ProtocolRetry.EmailColumnIsUnchecked`, and for every letter
  `ProtocolWitness.EveryLetterCanBeMisdirected`.
* Editing a field of the log does not always break the chain (shared/audit.py:3-6, because of
  line 92): `AuditChain.FalsyDetailUnseen`, `AuditChain.NullOverEmpty`.
* Money is rounded beyond 28 significant digits (shared/money.py:17-18 says never):
  exactly when in `Money.DisplayIsExact`, the first input in `Money.OneUnitIsLost`.
* `decode` documents two errors (shared/approval_token.py:101) and lets others through: on a
  non-ASCII token (line 115), and on signed bytes that are no text (line 120 catches only the
  JSON error), which the gateway answers with a 500. Exactly when it keeps to the two:
  `ApprovalToken.DecodeKeepsItsContract`; an input: `ApprovalToken.ByteFFEscapes`.
* A stale append repeats the id as well as the previous hash (`AuditLog.StaleRowCollides`), and
  only a conflict reported on a hash column is retried (shared/db.py:131-133), so whether a
  losing writer retries depends on which constraint the database names. It is a parameter of
  `WriteConflict.LogTable.RunInTransaction`, whose guarantee holds either way.
* A probe's token is not always refused at check 4 (app/approval/probe.py:66). It is refused at
  check 5 exactly when check 4 passes: while the proposal is approved, before its deadline and not
  yet executed, or under the key of its own execution. `ProtocolTheorems.ProbeIsRefused`, over
  every run; a probe that outlives the approval: `ProtocolSurprises.ProbePassesFour`.
* A failure of the invoice sender after the adapter has accepted the letter is recorded as a
  failed execution (gateway/executor.py:197-237). Success implies a message
  (`ProtocolAnswers.SuccessMeansOneMessage`); a failed execution has handed its message to the
  adapter exactly when the approved payload has a subject and a body
  (`ProtocolKeys.FailedMayHaveSent`), and for every letter there is such a run
  (`ProtocolWitness.EveryFailureCanHaveSent`).
* The expiry sweep inside a refused approve, edit or reject is rolled back with it
  (app/services/proposals.py:94-96): `Database.SharedDatabase.SaveEdit`.
* The draft tool enforces the configured proposal cap, not the one stored with the run
  (shared/models.py:71-73 against app/agent/loop.py:269-275). The operator's cap is kept exactly
  when it is at least the configured one: `OperatorCap.OperatorsCapKept`, in terms of the request
  `OperatorCap.AskedCapKept`; the input: `OperatorCap.OneLetterTooMany`.

## Model

| member | source | states |
|---|---|---|
| `Database.SharedDatabase.VerifyExecutionRequest` | gateway/verify.py:193-396 | For every stored state and every request, one answer, word for word under the unique constraint on keys: no key is refused before any check; a bad signature or a malformed token at check 1 with nothing passed; an error of the decoder that nothing catches is a 500; after that each of checks 2 to 6 refuses with its own code, status, number and names of the checks passed, under its own condition on the tables and the claims inside the token, never on the body; and a verdict carries all seven names. |
| `Database.SharedDatabase.VerifyState` | gateway/verify.py:254-325 | A refusal names the first failing check and carries exactly the names of the checks before it; a verdict carries all seven, the rows it was decided on and the execution its key names. |
| `Database.SharedDatabase.VerifyApproval` | gateway/verify.py:327-396 | The same for checks 5 to 7: approver and nonce of the newest approve record, the recomputed hash, and check 7, which never refuses. |
| `Refusals.EveryRefusal` | gateway/verify.py:193-396 | Every refusal in literals: which condition on the tables and the claims is refused with which code, status, check number and names of checks passed. |
| `Refusals.VerdictSpelledOut` | gateway/verify.py:371-396 | A verdict: the seven names in order, the stored proposal, the newest approve record, which names the token, the one execution under the key or none, and whether the body disagreed. |
| `Refusals.ChecksInTheTables` | gateway/verify.py:254-368 | What each of checks 2 to 6 asks, in terms of the claims and the tables alone. |
| `ProtocolTheorems.KeysStayUnique` | shared/models.py:177-188 | Every reachable state keeps the unique constraint under which the answers are spelled out. |
| `Checks.OutcomeIsDetermined` | gateway/verify.py:205-207 | State and request determine the outcome: two outcomes that meet the contract are equal, refusal by refusal and field by field. |
| `Checks.ReadsReachTheVerdict` | gateway/verify.py:193-396 | Reading the five pieces of state one at a time, undisturbed, gives the verdict of the checks taken together, refusal for refusal. |
| `Checks.BodyIsInert` | gateway/verify.py:23-27 | Requests that differ only in the body's copies come to the same outcome, up to the note that they disagreed. |
| `Database.SharedDatabase.Claim` | gateway/executor.py:50-86 | Execution row, nonce row and started event together, or, when the key or the nonce is taken, nothing at all. |
| `Database.SharedDatabase.Finish` | gateway/executor.py:89-121 | The outcome is written on the execution and on the proposal with its event, and nowhere else. |
| `Database.SharedDatabase.Execute` | gateway/executor.py:147-246 | A recorded execution is answered and nothing is written or sent; otherwise claim, at most one message, finish, with the answer of the outcome. |
| `Database.SharedDatabase.AnswerFromTheWinner` | gateway/executor.py:249-272 | A lost race is never answered as done: it is answered as already executed exactly when some row has the key, from the newest such row whatever its status or its proposal; with no such row as a replay if the nonce collided, and as an error if not. |
| `Transactions.ExecutesAsSaid` | gateway/executor.py:147-272 | The whole of `execute` in the tables: answered from the execution found; else from the newest row under the key; else refused if the nonce is gone; else claimed, handed over to the address in the column if the letter has a subject and a body, and recorded as it came out. |
| `Transactions.ClaimsOrCollides` | gateway/executor.py:50-86 | A claim collides with the key first, then with the nonce; otherwise the pending execution, the nonce and the event are added, each field as the request has it. |
| `Transactions.Finishes` | gateway/executor.py:89-121 | The status, the result and the error of the execution, the status of the proposal that goes with it, and the event that does. |
| `Executor.ExecuteIsItsSteps` | gateway/executor.py:147-246 | Executing a verdict in one go and taking the protocol's claim, send and finish steps give the same tables, messages and answer. |
| `Executor.ExecutingAgainSendsNothing` | gateway/executor.py:15-17 | A verdict executed any number of times hands over at most one message, and from the second time on writes nothing. |
| `Database.SharedDatabase.ExpireStaleProposals` | app/store/repositories.py:314-345 | Exactly the pending proposals at or past their deadline become expired, each with one event, whatever order the query returns them in. |
| `Database.SharedDatabase.SettleRunIfDecided` | app/store/repositories.py:199-243 | A run leaves awaiting_approval exactly when it is there and none of its own proposals is pending, stated on the tables. |
| `Database.SharedDatabase.SettleDecidedRuns` | app/store/repositories.py:246-265 | Expiry first, then each waiting run; the count is the number settled. |
| `Sweep.SweepSettlesEverything` | app/store/repositories.py:246-265 | In terms of the tables before the sweep: exactly the pending proposals at or past their deadline expire, and a run is completed exactly when it awaited approval and each of its own proposals was decided or past its deadline; nothing else changes, and afterwards no pending proposal is past its deadline and no run waits on an empty queue. |
| `Sweep.CountsTheSettled` | app/store/repositories.py:253-265 | The number reported is the number of runs the sweep completed. |
| `Transactions.SettlesExactly` | app/store/repositories.py:199-243 | What settling one run looks at and what it writes, in the tables. |
| `Transactions.SettlingIgnoresOtherRuns` | app/store/repositories.py:217-224 | Two databases that agree on a run and its own proposals settle it alike, whatever other runs have in the queue. |
| `Transactions.Expires` | app/store/repositories.py:314-345 | After a sweep the pending rows at or past their deadline are expired and the others untouched, with exactly one event for each. |
| `Transactions.Housekeeps` | app/store/repositories.py:268-311 | A starting service fails exactly the runs that are queued or running, with one event each; a status that ends a run is audited as a failure or as an end. |
| `Sweep.SecondSweepIsIdle` | app/store/repositories.py:211-211 | A second sweep at the same instant changes nothing, appends nothing and settles nothing. |
| `Database.SharedDatabase.CreateProposal` | app/store/repositories.py:131-196 | A row and its event, or a refusal when the invoice already has a pending proposal. |
| `Transactions.Creates` | app/store/repositories.py:131-196 | Refused exactly when some pending proposal is for the same invoice; else one new pending row whose hash is that of its payload, and its event. |
| `Database.SharedDatabase.LoadPending` | app/services/proposals.py:58-85 | A proposal is handed out exactly when it is pending and its deadline is still ahead; the refusals in order otherwise. |
| `Transactions.LoadsOrRefuses` | app/services/proposals.py:58-85 | With the sweep that precedes it, a decision is refused when the proposal is missing, decided, or past its deadline, each with its own error, and otherwise gets the row as it was before the sweep. |
| `Database.SharedDatabase.SaveEdit` | app/services/proposals.py:88-122 | The body is replaced, the hash recomputed and both hashes answered; a refusal leaves no trace, not even of the expiry sweep inside it. |
| `Transactions.SavesEdit` | app/services/proposals.py:88-122 | Refused when the proposal is missing, decided or past its deadline; else its body alone is replaced, the hash is that of the new payload, and one event names both hashes. |
| `Database.SharedDatabase.Reject` | app/services/proposals.py:125-157 | A note is required; the decision, the status, the event and perhaps the run, or nothing. |
| `Transactions.Rejects` | app/services/proposals.py:125-157 | A blank note first, then the proposal itself refuses; else the status, the record with the note, the event, and the run exactly when this was its last pending proposal. |
| `Database.SharedDatabase.Approve` | app/services/proposals.py:160-243 | Sweep, load, edit, grant and mint in one transaction, and any refusal rolls all of it back; what the transaction is, is said in the three rows below. |
| `Transactions.ApprovesAsDisplayed` | app/services/proposals.py:160-243 | Approving without a text, or with the very text on display, is no edit: payload and stored hash stay, the log gains the sweep and the two events of the grant, and the approval is refused as drifted exactly when the stored hash is not the payload's. |
| `Transactions.ApprovesAsEdited` | app/services/proposals.py:172-208 | Approving with another text replaces the body and re-hashes, with exactly one edit event before the two of the grant; the token is for the new hash, and drift is never reported. |
| `Transactions.ApprovesNothingElse` | app/services/proposals.py:58-85 | A proposal that is missing, decided or past its deadline is refused as such. |
| `Transactions.MintsProbe` | app/approval/probe.py:53-90 | A demonstration token is minted for every proposal that is there and not approved, and for no other; it carries the hash of the payload as it is. |
| `Database.SharedDatabase.Grant` | app/approval/token.py:35-67 | Refused exactly when the stored hash is not the payload's; else the token is for this proposal and this hash, in the approver's name, under the recorded nonce, from now until its lifetime is over, and the approve record, the status and both events are there with it. |
| `Decisions.ApprovesWhatWasRead` | app/services/proposals.py:5-8 | The submitted text is the stored text, nothing else of the payload changes, and the token is signed over exactly that payload, in the approver's name, under the recorded nonce, for exactly its lifetime. |
| `Decisions.EditChangesOnlyTheBody` | app/services/proposals.py:88-113 | Saving an edit changes the body and its hash and nothing else of any row; the event names the hash it replaced. |
| `Decisions.RejectionIsOnRecord` | app/services/proposals.py:125-157 | A rejection carries a non-blank note, leaves the rest of the queue and the other runs alone, and leaves its run not waiting on nothing. |
| `ProtocolGateway.EveryRunKeeps` | gateway/executor.py:50-246 | The invariant of the whole protocol holds at the end of every list of steps, for any number of requests, any interleaving with the operator, sweeps, probes and out-of-band writes, and a crash between any two steps of a request. |
| `ProtocolTheorems.AtMostOneSend` | gateway/executor.py:5-17 | In every run, two messages differ in nonce, in idempotency key and in proposal. |
| `ProtocolTheorems.OneExecutionPerProposal` | app/services/proposals.py:172-208 | A proposal has at most one execution, because approving it is one transaction on a pending row. |
| `ProtocolTheorems.ExecutionsMatchNonces` | gateway/executor.py:53-67 | Executions and consumed nonces are in bijection, row for row with the same proposal and key. |
| `ProtocolTheorems.SendIsOnRecordFirst` | gateway/executor.py:10-13 | Before every message, the started event of its execution was already committed. |
| `ProtocolTheorems.SentTextWasApproved` | gateway/verify.py:357-368 | Subject and body of every message are those of the payload when it was approved, whatever was written over the row since (hash taken to be collision-free). |
| `ProtocolTheorems.SentToApprovedAddressExactly` | gateway/executor.py:185-188 | In every run the recipient is the e-mail column of the row the gateway read, and it is the address that was approved exactly when that column agrees with that row's own payload (hash taken to be collision-free). |
| `ProtocolTheorems.SentToApprovedAddress` | gateway/executor.py:185-188 | In particular it is, unless the e-mail column was written over, or the payload while still pending. |
| `ProtocolRetry.EmailColumnIsUnchecked` | gateway/executor.py:185-186 | Writing over the e-mail column changes no check's outcome, and the letter goes to what was written. |
| `ProtocolTheorems.ProbeNeverSends` | app/approval/probe.py:53-90 | A probe's token never sends and never claims, in any run, even if its proposal is approved later. |
| `ProtocolTheorems.ProbeIsRefused` | app/approval/probe.py:60-67 | In every run, however long after its minting, an unexpired probe is first refused at check 4 exactly when check 4 does not pass, and at check 5 exactly when it does: while the proposal is approved, before its deadline and not yet executed, or when its own execution has the request's key. |
| `ProtocolSurprises.ProbePassesFour` | app/approval/probe.py:60-67 | For every letter there is a run in which a probe outlives the approval, passes check 4 under a key nobody has used, and is refused at check 5. |
| `ProtocolTheorems.LogDeterminesState` | shared/audit.py:13-14 | Folding the log alone gives every proposal's status and stored hash; and the stored hash is the payload's wherever nobody wrote out of band. |
| `LogChain.OneHeadOneState` | shared/audit.py:3-6 | Two reachable databases whose logs, with the rows of runs and services in them, verify as intact and report one head agree on the status and the stored hash of every proposal (hash taken to be collision-free). |
| `LogChain.EveryLogHasAChain` | shared/audit.py:103-147 | Every log of the protocol has an intact chain of rows that records it. |
| `ProtocolTheorems.OnePendingPerInvoice` | shared/models.py:123-130 | No reachable state has two pending proposals for one invoice. |
| `ProtocolTheorems.ApproveReportsDrift` | app/approval/token.py:49-55 | Approving reports drift exactly when the proposal can be decided, the submitted text is none or the one already in the payload, and the stored hash is not the payload's. |
| `ProtocolTheorems.NoDriftWithoutRewriting` | app/services/proposals.py:224-230 | Without an out-of-band write approving never reports drift. |
| `ProtocolStatus.NothingSentUnapproved` | gateway/verify.py:281-284 | Every message belongs to a proposal that was approved, by the approver and with the nonce of its token. |
| `ProtocolStatus.StatusIsTheOutcome` | gateway/executor.py:98-108 | In every run a proposal is executed exactly when an execution of it succeeded, and failed exactly when one failed. |
| `ProtocolStatus.StatusNeverReturns` | shared/models.py:110-111 | However a run goes on, rejected, expired, executed and failed are final, and approved only moves to its outcome. |
| `ProtocolLater.RunContinues` | gateway/verify.py:266-271 | From any moment to any later one no row, event, nonce, grant or message is lost, and a settled execution keeps its result. |
| `ProtocolAnswers.EveryRunAnswers` | gateway/executor.py:147-246 | In every run each answer given is true of the tables: done and already done name a row of that key, a reported failure a failed one; no execution succeeds without its message. |
| `ProtocolAnswers.SuccessMeansOneMessage` | gateway/executor.py:157-172 | A request told of success can point to the one message ever handed over under its key. |
| `ProtocolKeys.FailedMayHaveSent` | gateway/executor.py:181-237 | In every run the message of a failed execution had been handed to the adapter exactly when the approved payload has a subject and a body. |
| `ProtocolWitness.EveryFailureCanHaveSent` | gateway/executor.py:197-237 | For every letter there is a run in which it is handed over once and its execution reported as failed. |
| `ProtocolRetry.ReplayRefused` | gateway/verify.py:264-279 | From the commit of a claim on, for ever, the same unexpired token under another key is refused token_replayed with exactly two checks passed. |
| `ProtocolRetry.RetryFindsItsExecution` | gateway/verify.py:293-303 | From the commit of a claim on, the same token and key pass all seven checks at any unexpired time exactly when the stored letter still has the token's hash, and find that one execution, with its recorded result once it has one. |
| `ProtocolRetry.LateRequestsStayOnTrack` | gateway/verify.py:264-381 | The same without assuming that a request's reads happen together: a late request never claims and never sends; under the same key it ends with the recorded execution, under another at check 3. |
| `ProtocolRetry.OnlyTheClaimantActs` | gateway/executor.py:15-17 | Only the request that claimed an execution ever sends for it or settles it. |
| `ProtocolRetry.CrashBeforeSendIsFinal` | gateway/executor.py:157-172 | A crash between claim and send is final: the letter is never sent in any continuation, the execution stays pending, and a retry is answered as already executed. |
| `ProtocolFate.SentOrAboutTo` | gateway/executor.py:157-181 | In every run, for every execution: some continuation has its message exactly when it is there already, or its claimant stands right before the hand-over and the approved letter has a subject and a body (hash taken to be collision-free). |
| `ProtocolFate.AlreadyDoneMeans` | gateway/executor.py:157-172 | What a request told already executed can conclude, in every run: shown a success, the message was handed over; shown a failure, exactly if the approved letter was whole; and its letter is lost for good exactly when it was shown no success, nothing was handed over and the claimant is not about to. |
| `ProtocolSurprises.ToldBeforeSent` | gateway/executor.py:157-172 | For every letter there is a run, without a crash, in which a repeated request is told already executed while the first has only just claimed. |
| `ProtocolSurprises.LostWithoutSubject` | gateway/executor.py:181-188 | For every letter there is a run in which its payload is written over in the queue by one without a subject, the operator edits and approves it, its hand-over hands over nothing, and a repeated request is told already executed: lost for good, and pending for good if the first request then dies. |
| `ProtocolRetry.KeyOfAnotherProposal` | gateway/verify.py:371-381 | An approved, unsent letter whose request carries another proposal's key passes every check and finds that other execution; nothing is claimed. |
| `ProtocolRetry.WhoseAnswer` | gateway/verify.py:375-380 | What check 7 finds, in every run: a verified request goes on to claim exactly when no execution has its key, and finds another proposal's execution exactly when one under that key is another's. |
| `ProtocolKeys.AnsweredForItself` | gateway/executor.py:147-272 | In every run and by whichever path, check 7 or a lost race: an answer that speaks of an execution speaks of one of the request's own proposal exactly when no request for another proposal has claimed under the same key. |
| `ProtocolKeys.OwnKeyOwnAnswer` | gateway/verify.py:371-374 | A caller who never uses one key for two proposals is never answered for another. |
| `ProtocolKeys.LosingPathHidesFailure` | gateway/executor.py:147-262 | In every run, of the requests that are told about a failed execution, exactly those whose claim was once rolled back are told that it was already executed; check 7 never says so. |
| `ProtocolKeys.LosingPathLooksAtNoStatus` | gateway/executor.py:249-262 | In every reachable state the losing path says already executed exactly when some execution has the key, and says it of a failed one exactly when that one failed. |
| `ProtocolSurprises.KeyOfAnother` | gateway/verify.py:371-381 | For any two letters there is a run in which the second, approved and unsent, is told at check 7 of the first's execution. |
| `ProtocolSurprises.LostToAnother` | gateway/executor.py:249-262 | For any two letters there is a run in which the key is unused when the second is verified and its lost claim is answered with the first's execution. |
| `ProtocolSurprises.FailureToldAsDone` | gateway/executor.py:249-262 | For every letter there is a run in which one of two equal requests is told the execution failed, and the other, which lost the race to it, that it was already executed. |
| `ProtocolWitness.EveryLetterCanBeSent` | gateway/executor.py:3-8 | For every letter there is a run that ends with it approved, sent once with its own text to its own address, and executed: the theorems above are not about an empty set of runs. |
| `ProtocolWitness.EveryLetterCanBeMisdirected` | gateway/executor.py:185-188 | For every letter and every other address there is a run in which one write to the e-mail column after the approval sends it there. |
| `ProtocolWitness.EveryLetterCanBeLost` | gateway/executor.py:157-181 | For every letter there is a run in which it is claimed, never sent, and its retry, with a living token, told that it was executed. |
| `JsonRoundTrip.DocumentRoundTrip` | shared/hashing.py:29-37 | Parsing the printed text of any well-formed value gives it back, for every nesting depth and every escaped character, with and without ASCII escapes. |
| `JsonRoundTrip.OneDocument` | shared/approval_token.py:118-121 | White space around a document changes nothing; with anything else after it there is no document. |
| `CanonicalForm.LastValueWins` | shared/approval_token.py:118-121 | Of a repeated key the last value is the one that is read. |
| `CanonicalOrder.CanonicalTextIdentifies` | shared/hashing.py:29-37 | Two values have the same canonical text exactly when they are the same value: insertion order never matters, anything else always does. |
| `CanonicalOrder.CanonicalRoundTrip` | shared/hashing.py:29-37 | Parsing canonical text gives back the same value. |
| `CanonicalOrder.HashIdentifies` | shared/hashing.py:46-48 | With a collision-free hash, equal payload hashes mean the same payload, and conversely. |
| `CanonicalForm.CanonicalTextIs` | shared/hashing.py:29-37 | The text itself, in both directions: a text is the canonical one exactly when it has no white space around commas and colons, members in ascending order of their keys by code point at every depth, decimal integers without leading zeros, and strings whose characters stand for themselves but for quotes, backslashes and control characters. |
| `CanonicalForm.Prints` | shared/approval_token.py:92-94 | The same form with everything beyond ASCII escaped in UTF-16 units. |
| `Base64Url.PaddingRestored` | shared/approval_token.py:71-80 | The padding stripped on encoding is the padding recomputed from the length, for every byte length. |
| `Base64Url.RoundTrip` | shared/approval_token.py:71-80 | Decoding an encoded byte string gives it back. |
| `TokenForm.LettersAreBits` | shared/approval_token.py:71-72 | As many letters as hold all bits, and each stands for the next six of them, the missing ones being zeros. |
| `TokenForm.Alphabet` | shared/approval_token.py:71-72 | The letters in order: A to Z, a to z, 0 to 9, minus and underscore. |
| `TokenForm.ForeignSkipped` | shared/approval_token.py:75-80 | On decoding, characters of neither alphabet are passed over wherever they stand. |
| `TokenForm.LettersDecode` | shared/approval_token.py:75-80 | Of segments in the alphabet alone exactly those are refused whose length is one more than a multiple of four. |
| `ApprovalToken.TokenRoundTrip` | shared/approval_token.py:88-128 | Decoding a minted token gives its claims back, for all claims and every non-empty secret. |
| `ApprovalToken.MintedShape` | shared/approval_token.py:109-111 | A minted token splits at its dot into exactly two non-empty ASCII segments. |
| `TokenForm.MintsAsSaid` | shared/approval_token.py:83-95 | A token is the base64url of an ASCII text of exactly the seven named claims, a dot, and the base64url of the digest of that very first part. |
| `TokenForm.DecodesAsSaid` | shared/approval_token.py:98-128 | In order: not two non-empty parts is malformed; a signature that is not the digest of the first part is invalid; and only then is anything inside looked at. |
| `TokenForm.ClaimsAsSaid` | shared/approval_token.py:52-65 | Claims are accepted exactly from an object with no name but the seven, each of its type; only the nonce may be missing. |
| `TokenForm.SegmentAsSaid` | shared/approval_token.py:118-128 | Claims are read exactly from base64url bytes that are text and that text one JSON document. |
| `ApprovalToken.ChangedClaimRefused` | shared/approval_token.py:113-116 | Any changed claim under a kept signature is refused as a bad signature (MAC taken to be injective). |
| `ApprovalToken.OnlyMintedTokensVerify` | shared/approval_token.py:98-116 | If every signature in circulation is one that was minted, whatever is accepted was minted. |
| `ApprovalToken.DecodeKeepsItsContract` | shared/approval_token.py:98-128 | Decoding raises only its two documented errors exactly when the secret is set and a two-part token is ASCII and, if its signature verifies and its segment is base64, the bytes are text in the encoding they are taken for. |
| `ApprovalToken.ByteFFEscapes` | shared/approval_token.py:118-121 | The input: a correctly signed segment that spells the byte 0xFF. |
| `ApprovalToken.Utf8ClaimsAccepted` | shared/approval_token.py:118-126 | Claims signed as plain UTF-8, not escaped to ASCII, are accepted just the same. |
| `Utf.DecodesExactly` | shared/approval_token.py:119-119 | The bytes are decoded exactly when, in the encoding guessed from their first bytes, they are whole units, valid code points, or the UTF-8 of something. |
| `Utf.DecodesEncoded` | shared/approval_token.py:92-94 | Decoding the UTF-8 of any code points gives them back. |
| `UtfForm.PlainReadsBack` | shared/approval_token.py:118-121 | A text that begins like a JSON document is read back from UTF-8, UTF-16 and UTF-32, in either byte order, without a mark. |
| `UtfForm.Marked16` | shared/approval_token.py:118-121 | With the mark of UTF-16 any text is, unless it begins with NUL. |
| `UtfForm.Marked32` | shared/approval_token.py:118-121 | With the mark of UTF-32 any text is. |
| `UtfForm.Marked8` | shared/approval_token.py:118-121 | With the mark of UTF-8 any text is. |
| `AuditChain.VerifyChain` | shared/audit.py:176-224 | Intact exactly when every row is; otherwise the row named is the first bad one with the reason it is bad, and all rows before it form an intact chain. |
| `ChainForm.IntactAsSaid` | shared/audit.py:176-224 | Intact: numbered from one, each row naming the hash of the one before and the first the genesis hash, and each hash that of its row. |
| `ChainForm.FaultAsSaid` | shared/audit.py:196-219 | The reason given for a bad row: its number, else its link, else its content. |
| `ChainForm.HashesAsSaid` | shared/audit.py:57-94 | A row's hash is taken of the canonical text of eight named fields, a falsy detail counting as an empty one. |
| `AuditChain.RowHashIdentifies` | shared/audit.py:57-94 | A row's hash commits to every field, except that a falsy detail counts as an empty one. |
| `AuditChain.TamperEvidence` | shared/audit.py:3-6 | Two intact logs reporting the same head have the same length and the same rows, up to the falsy-detail rule (hash taken to be collision-free). |
| `AuditChain.EditIsSeen` | shared/audit.py:179-184 | Replacing any row by another goes unseen, head and all, exactly when the two rows agree in every field, up to the falsy-detail rule. |
| `AuditChain.FalsyDetailUnseen` | shared/audit.py:92-92 | Changing one detail goes unseen exactly when both count as the same under the falsy rule. |
| `AuditChain.NullOverEmpty` | shared/audit.py:92-92 | The concrete case: null written over an empty detail leaves the log intact. |
| `AuditChain.TruncationSeenByHead` | shared/audit.py:189-223 | Cutting the tail off leaves an intact log, and always changes the head. |
| `WriteConflict.LogTable.Append` | shared/audit.py:103-147 | One row on the tail that was read, inserted exactly when no row shares its id, its previous hash or its hash. |
| `ChainForm.NextRowAsSaid` | shared/audit.py:103-147 | The row built on a tail, field by field. |
| `AuditLog.StaleRowCollides` | shared/audit.py:15-18 | A row built on a stale tail repeats both the id and the previous hash of one existing row. |
| `AuditLog.NoFork` | shared/audit.py:15-18 | However many writers with however stale tails, the table is one intact chain at every moment. |
| `AuditLog.CommitsExactlyOnCurrentTail` | shared/audit.py:112-119 | A unit of work commits exactly when the tail it was built on is still the tail. |
| `AuditLog.CommitAppendsOrNothing` | shared/audit.py:13-18 | A refused unit changes nothing; an accepted one appends its own rows in order. |
| `AuditLog.RowsCarryFacts` | shared/audit.py:103-147 | The rows of a unit say what the caller asked to have recorded, in that order. |
| `WriteConflict.LogTable.Unit` | shared/db.py:78-89 | The appends of one unit are in together or not at all. |
| `WriteConflict.LogTable.Try` | shared/db.py:150-159 | What one attempt leaves in the log, and whether it is returned, retried or raised. |
| `WriteConflict.LogTable.RunInTransaction` | shared/db.py:140-160 | When it returns, the unit is in the log exactly once, on top of everything committed meanwhile; when it raises, not at all; and it stops at the first attempt that is not retried. |
| `ChainForm.EndsAsSaid` | shared/db.py:119-160 | When it stops: every attempt but the last was locked out or lost to a writer in a conflict on a hash; the last went through when the unit is returned, and was neither when an error is raised; and it gives up exactly when every attempt it has was worth another. |
| `Timestamps.ParseFormat` | shared/types.py:25-31 | Parsing a formatted instant gives it back. |
| `Timestamps.FormatShape` | shared/types.py:22-27 | The written form, field by field, with its marks. |
| `Timestamps.TextOrderIsTimeOrder` | shared/types.py:9-11 | For four-digit years, texts compare as their instants do, and are equal exactly when the instants are. |
| `Timestamps.SweepAgreesWithDeadlineTest` | app/services/proposals.py:75-75 | The database's comparison of texts and the service's comparison of instants decide every deadline alike. |
| `Timestamps.Epoch` | shared/types.py:22-27 | The clock of the store counts microseconds from midnight on 1 January 1970. |
| `Money.ReadDisplay` | shared/money.py:110-125 | From the display alone the currency and the minor units can be read back, rounded to 28 significant digits. |
| `Money.DisplayIdentifies` | shared/money.py:110-125 | No two currencies and amounts share a display, with or without symbols, although two currencies share a symbol. |
| `Money.DisplayIsExact` | shared/money.py:17-18 | The display is the exact amount exactly when the amount has at most 28 significant digits. |
| `Money.OneUnitIsLost` | shared/money.py:17-18 | The input: in every currency, one minor unit more than ten to the 28th is displayed without that unit, and every amount from zero up to ten to the 28th in full. |
| `Money.GroupShape` | shared/money.py:117-117 | Thousands separators stand at every fourth place from the right of the whole part, and nowhere else. |
| `Money.FiguresShape` | shared/money.py:110-117 | There is a decimal point exactly when the currency has minor digits, and it stands that many digits from the end. |
| `MoneyForm.DisplayAsSaid` | shared/money.py:110-125 | The display part by part: sign, symbol, whole units in groups of three without a leading zero, point and minor digits; or, without a symbol, figures, a space and the code in capitals. |
| `MoneyForm.NormalisesAsSaid` | shared/money.py:81-87 | A currency is taken exactly when, white space aside, it is three letters in any case; the code is those letters in lower case. |
| `MoneyForm.MinorDigits` | shared/money.py:30-53 | Which currencies have no minor digits and which have three; every other has two. |
| `MoneyForm.SymbolsOf` | shared/money.py:57-74 | The currencies with a symbol, and their symbols. |
| `MoneyForm.RoundedAsSaid` | shared/money.py:100-107 | Beyond 28 digits an amount is the nearest multiple of the last digit kept, and of two the even one. |
| `AgentLoop.RunAgent` | app/agent/loop.py:71-193 | For every behaviour of the model and the tools: each request to the model is the one before with its turn and, in one message, the answers to its calls; the run ends without an error exactly when the model's last reply wants no tools, and with one exactly for a spent turn or call budget, an unavailable or broken model, or a broken tool, with that message; the whole record and the summary follow from the model's answers; every answer on record is its own call's outcome; the three budgets and the rule of one pending letter per invoice hold; and the stored, audited and returned status agree, awaiting approval exactly on a normal finish with proposals. |
| `AgentLoop.TakeTurn` | app/agent/loop.py:106-131 | What a turn leaves on record, whole: thoughts, then messages, then each call directly followed by its answer, up to where the run was stopped; and the answers go back in one message. |
| `Dialogue.TurnOnRecord` | app/agent/loop.py:106-131 | The same, item by item: every thought, then every message, then call, answer, call, answer, and last the call that broke its tool. |
| `Dialogue.JoinIs` | app/agent/loop.py:184-193 | The summary is what the model said, piece after piece with a blank line between. |
| `AgentLoop.RunCalls` | app/agent/loop.py:120-131 | Each call is answered once and in order, with what its own tool answered, until the call budget is met or a tool breaks; on record are exactly those calls and answers, and the call of the broken tool. |
| `AgentLoop.ExecuteOne` | app/agent/loop.py:196-253 | The call, with its arguments, is put on record, and directly after it its answer under the same id and name, an error or a result as its tool gave it; a broken tool leaves the call as the last step. |
| `AgentLoop.Execute` | app/agent/tools/registry.py:102-122 | A READ call is answered with what its tool gives for exactly the model's arguments; the draft tool with the letter stored or the code of the rule broken; any other name is an unknown tool. Only READ results are harvested, and only the draft tool writes a proposal. |
| `AgentLoop.Fail` | app/agent/loop.py:133-178 | A budget leaves one last guardrail message, the other failures leave the transcript alone; all end as failed. |
| `AgentLoop.Finish` | app/agent/loop.py:180-193 | A normal finish awaits approval exactly when there are proposals. |
| `AgentLoop.RunStore.AppendStep` | app/store/repositories.py:94-121 | The next step takes the number after the largest. |
| `AgentLoop.RunStore.SetStatus` | app/store/repositories.py:73-90 | The status is stored, and audited when it ends the run. |
| `AgentLoop.RunStore.ProposeCollectionLetter` | app/agent/tools/draft_tools.py:48-175 | A proposal is stored exactly when all eight rules are kept, among them that both integer columns convert and that neither this run nor another has a pending letter for the invoice, and is then the letter over the facts on record; otherwise the refusal is that of the first rule broken and nothing is stored. |
| `Dialogue.ConversationGrows` | app/agent/loop.py:117-131 | A turn and its answers extend a conversation in which roles alternate and each call is answered once, in order. |
| `Dialogue.AnswerAt` | app/agent/loop.py:196-253 | Each answer of a transcript is the outcome of the call before it, with the facts and the proposals there were at that step. |
| `Dialogue.ReadAnswerAt` | app/agent/tools/registry.py:102-122 | In particular the answer to a READ call is what its tool returned, or failed with, on that call's own arguments. |
| `DraftTool.JudgedOnce` | app/agent/tools/draft_tools.py:55-121 | The rules determine the outcome of a draft call. |
| `LetterForm.JudgedAsSaid` | app/agent/tools/draft_tools.py:55-163 | The rules in order with their refusals: not read, not deliverable, one of three tones, rationale, cap, review, amount, days, duplicate; and the row that is stored when none applies. |
| `LetterForm.LetterSpelledOut` | app/agent/tools/draft_tools.py:123-141 | The fifteen names of a stored letter and where the value of each comes from. |
| `LetterForm.FactsSpelledOut` | app/agent/tools/registry.py:41-63 | The thirteen names of a fact set and the field of the row each is read from. |
| `LetterForm.ArgumentsSpelledOut` | app/agent/tools/draft_tools.py:48-54 | The arguments are admitted exactly when they are five texts under the five names. |
| `LetterForm.IntTexts` | app/agent/tools/draft_tools.py:149-151 | A text converts exactly when, white space and one sign aside, it is runs of digits joined by single underscores. |
| `DraftTool.TakenIsTheIndex` | shared/models.py:123-130 | With the run's own drafts and the other rows in the queue, the tool's duplicate rule refuses exactly when the store's partial index would. |
| `OperatorCap.OperatorsCapKept` | shared/models.py:71-73 | No run stores more letters than the operator chose exactly when the configured cap is no larger than the chosen one. |
| `OperatorCap.AskedCapKept` | app/runner.py:64-84 | In terms of the request: the cap holds exactly when none was asked for, or the one asked for is at least the configured one. |
| `OperatorCap.OneLetterTooMany` | app/agent/loop.py:269-275 | The input: with a configured cap above the chosen one, one deliverable invoice more than chosen, and a letter stored for each. |
| `DraftTool.PayloadFacts` | app/agent/tools/draft_tools.py:123-141 | Every fact in a payload is the fact on record for the invoice, never text the model supplied. |
| `DraftTool.PayloadFromRow` | app/agent/tools/registry.py:41-63 | From end to end, each fact of a stored letter is the field of that meaning in the row that was read. |
| `DraftTool.ColumnAgreesWithPayload` | app/agent/tools/draft_tools.py:148-148 | The stored e-mail column is the payload's address exactly when the address on record is a text. |
| `LetterProvenance.LettersKeepTheirFacts` | app/services/proposals.py:88-113 | However a run of the protocol goes on, a letter nobody writes over out of band keeps every fact it was drafted with; only its body can change. |
| `LetterProvenance.SentLetterIsWhatWasRead` | app/agent/tools/registry.py:7-11 | From end to end: each fact of the letter behind a message is the field of that meaning in the row the agent read for it, and unless the address was written over so is the recipient, whatever happened in between, as long as nobody wrote over the payload. |
| `Registry.ToolRegistry.HarvestFrom` | app/agent/tools/registry.py:124-143 | The facts kept are those of the rows found in the result, down to the depth the walk reaches. |
| `Registry.LastRowWins` | app/agent/tools/registry.py:124-129 | Of several rows about an invoice the last one's facts are kept. |
| `Registry.WalkDepth` | app/agent/tools/registry.py:131-143 | A row inside n lists is harvested exactly when n is at most 4. |
| `WalkForm.HarvestedExactly` | app/agent/tools/registry.py:66-143 | A value is harvested exactly when it is a dict with a text id, an amount and a number of days, and lies at most four levels deep in lists or dicts. |
| `WalkForm.OuterFirst` | app/agent/tools/registry.py:131-143 | Rows are met outer before inner, and items and values in their order. |
| `Transcript.AppendKeepsGrammar` | app/agent/loop.py:196-253 | Numbering, adjacency of call and answer, and at most a last unanswered call survive each step. |
| `Transcript.FactsAreLastRead` | app/agent/tools/registry.py:124-129 | The fact set of an invoice is the translation of the last row about it in any READ answer of the run. |
| `Transcript.DraftProvenance` | app/agent/tools/registry.py:7-11 | Every stored proposal was made by a draft call of the run from the last READ row about its invoice before that call. |
| `Readback.PaymentHistorySeenByTheAgent` | app/api/queries.py:341-396 | On any transcript the loop can leave, the one-pass scan returns the history of the last successful lookup of the customer. |
| `Readback.LastHistoryIsTheLast` | app/api/queries.py:346-352 | That history is the one in the last answer that carries one for the customer, and empty exactly when there is none. |

## Left out

- FastAPI routes, templates, streaming, health, settings and start-up guards: plumbing.
- Stripe, the model provider, SMTP and the outbox file: outcomes only.
- app/agent/guardrails.py: the letter review is an arbitrary function the draft tool obeys.
- `attempt_unapproved`'s report, and the row columns amount_due, currency and days_overdue beyond the errors of their conversion: they would add only easy members.
- AgentLoop.RunStore.ProposeCollectionLetter: the letter review is total here, where on odd facts it could raise; `int()` of floats, of texts with digits outside ASCII and of texts beyond the interpreter's length limit is not modelled.
- Liveness: the model says what a retry is answered, not that anybody retries. A failing `record_refusal` is not modelled; a step records a refusal or nothing.
- JSON floats, NaN, non-string keys and lone surrogates: payloads are null, booleans, integers, text, lists and string-keyed objects.
- Token claims of another JSON type that pydantic would convert.
- ApprovalToken.DecodeKeepsItsContract: two limits of the interpreter are not modelled, integers of more than 4300 digits and nesting beyond the recursion limit in a signed segment, both of which escape `decode` as well; nor are lone surrogates that a later duplicate key would override.
- Constant-time comparison and the length limits of text columns.
- Wording of error messages and log lines; tools answer the model with their error code. `_serialise`'s truncation at 20000 characters: the model is sent the result itself.
- Database failures inside the agent loop, and draft arguments that break the tool's strict schema in type rather than in name (both end in a failure here).
- Timestamps.ParseFormat: `parse_utc` also reads shorter fields than `format_utc` writes; only the written form is modelled. Years below 1000, which strftime does not pad, are not modelled.
- Money.ReadDisplay: currency codes of non-ASCII letters, and amounts beyond the exponent range of `Decimal`, are not modelled.
- AuditChain.VerifyChain: a row's timestamp is modelled by its canonical text, as it is read back.
- LogChain.OneHeadOneState: a row of the chain is tied to an event of the protocol by its name, its subject and the stored hash it sets; the other details of a row are free. `agent.tool.called` is in the catalogue and never written.
- DraftTool.ColumnAgreesWithPayload: `str()` of a list or a dict is not modelled exactly.
- SharedDatabase methods run one transaction at a time; interleaving is the subject of the `Protocol` modules.
