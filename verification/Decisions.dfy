/** app/services/proposals.py: what a human decision leaves on record. */
module Decisions {
  import opened Prelude
  import opened CanonicalJson
  import opened CanonicalOrder
  import opened Store
  import opened Protocol

  // ---- edit ------------------------------------------------------------------------------------

  /** Nothing of the row differs but the text of the letter and the hash over it. */
  predicate OnlyBodyChanged(sha: string -> string, p: Proposal, q: Proposal, body: string) {
    && q == p.(payload := q.payload, payloadHash := HashPayload(sha, q.payload))
    && q.payload.Obj? && Field(q.payload, "body") == Some(Str(body))
  }

  ghost predicate SameButForBody(v: Json, w: Json) {
    forall key :: key != "body" ==> Field(v, key) == Field(w, key)
  }

  lemma WithBodyChangesBody(payload: Json, body: string)
    requires payload.Obj?
    ensures Field(WithBody(payload, body), "body") == Some(Str(body)) && SameButForBody(WithBody(payload, body), payload)
  {
    SetGet(payload.members, "body", Str(body));
  }

  /** Saving an edit changes the body, its hash, and nothing else of any row the sweep kept;
      the event names the hash it replaced. */
  lemma EditChangesOnlyTheBody(sha: string -> string, db: Db, order: seq<Id>, id: Id, body: string, now: Time)
    requires SaveEdit(sha, db, order, id, body, now).Success?
    requires id in db.proposals && db.proposals[id].payload.Obj?
    ensures var db', swept := SaveEdit(sha, db, order, id, body, now).value, ExpireStale(db, order);
            && id in db'.proposals && id in swept.proposals
            && OnlyBodyChanged(sha, swept.proposals[id], db'.proposals[id], body)
            && SameButForBody(db'.proposals[id].payload, db.proposals[id].payload)
            && db'.proposals == swept.proposals[id := db'.proposals[id]]
            && db'.log == swept.log + [Event(Operator, ProposalEdited(db.proposals[id].payloadHash, db'.proposals[id].payloadHash), id)]
  {
    WithBodyChangesBody(db.proposals[id].payload, body);
  }

  // ---- approve ----------------------------------------------------------------------------------

  /** The operator approves what they read: the text they submitted is the text stored, the
      token is signed over exactly that payload, in their name, under the nonce on record, and
      lives for exactly its time. */
  lemma ApprovesWhatWasRead(sha: string -> string, db: Db, order: seq<Id>, id: Id, actor: string, note: Option<string>,
                            editedBody: Option<string>, nonce: string, now: Time, ttl: int, at: Time)
    requires ApproveProposal(sha, db, order, id, actor, note, editedBody, nonce, now, ttl).Success?
    requires id in db.proposals && db.proposals[id].payload.Obj?
    ensures var (db', c) := ApproveProposal(sha, db, order, id, actor, note, editedBody, nonce, now, ttl).value;
            && IsPending(ExpireStale(db, order), id) && now < db.proposals[id].expiresAt
            && id in db'.proposals && db'.proposals[id].status == Approved
            && db'.proposals[id].expiresAt == db.proposals[id].expiresAt
            && (editedBody.Some? ==> Field(db'.proposals[id].payload, "body") == Some(Str(editedBody.value)))
            && (editedBody.None? ==> db'.proposals[id].payload == db.proposals[id].payload)
            && SameButForBody(db'.proposals[id].payload, db.proposals[id].payload)
            && db'.proposals[id].payloadHash == c.payloadHash == HashPayload(sha, db'.proposals[id].payload)
            && c.proposalId == id && c.approver == actor && c.nonce == nonce
            && db'.approvals == db.approvals + [Approval(id, Approve, actor, note, editedBody, Some(nonce))]
            && (IsExpired(c, at) <==> at / 1_000_000 - now / 1_000_000 >= ttl)
  {
    var swept := ExpireStale(db, order);
    if NeedsEdit(swept.proposals[id], editedBody) {
      WithBodyChangesBody(db.proposals[id].payload, editedBody.value);
    }
  }

  // ---- reject -----------------------------------------------------------------------------------

  /** A rejection carries its note, leaves the rest of the queue alone, and settles its run if
      the run has nothing left to wait for. */
  lemma RejectionIsOnRecord(db: Db, order: seq<Id>, id: Id, actor: string, note: string, now: Time)
    requires RejectProposal(db, order, id, actor, note, now).Success?
    ensures var db', swept := RejectProposal(db, order, id, actor, note, now).value, ExpireStale(db, order);
            && Strip(note) != "" && IsPending(swept, id)
            && db'.proposals == swept.proposals[id := swept.proposals[id].(status := Rejected)]
            && db'.approvals == db.approvals + [Approval(id, Reject, actor, Some(note), None, None)]
            && !Settles(db', swept.proposals[id].runId)
            && (forall runId | runId in db.runs && runId != swept.proposals[id].runId ::
                  runId in db'.runs && db'.runs[runId] == db.runs[runId])
  {
    var swept := ExpireStale(db, order);
    var decided := RejectRow(swept, id, actor, note);
    var runId := swept.proposals[id].runId;
    assert SettleRun(decided, runId).proposals == decided.proposals;
    assert HasPending(SettleRun(decided, runId), runId) == HasPending(decided, runId);
  }
}
