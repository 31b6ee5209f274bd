/** What the protocol promises, in every run. */
module ProtocolTheorems {
  import opened Prelude
  import opened CanonicalJson
  import opened CanonicalOrder
  import opened Claims
  import opened Store
  import opened Protocol
  import opened ProtocolInvariant
  import opened ProtocolGateway
  import opened Checks
  import Refusals

  // ---- one approval, at most one send ----------------------------------------------------

  lemma OneExecutionPerProposal(sha: string -> string, w: World, e: nat, f: nat)
    requires Inv(sha, w) && e < |w.db.executions| && f < |w.db.executions|
    requires w.db.executions[e].proposalId == w.db.executions[f].proposalId
    ensures e == f
  {
    assert ExecutionOk(w, e) && ExecutionOk(w, f);
    var c, d := w.grants[w.spent[e]].claims, w.grants[w.spent[f]].claims;
    OneApproveRecord(w, c, d);
    assert GrantOk(sha, w, w.spent[e], w.grants[w.spent[e]]);
    assert GrantOk(sha, w, w.spent[f], w.grants[w.spent[f]]);
  }

  /** Because `approve` is one transaction on a pending row, a proposal has one approve
      record, hence one nonce that can pass check 5. */
  lemma OneApproveRecord(w: World, c: Claims, d: Claims)
    requires ApprovalsOk(w) && HasApproval(w.db.approvals, c) && HasApproval(w.db.approvals, d)
    requires c.proposalId == d.proposalId
    ensures c.nonce == d.nonce
  {
    var a :| a in w.db.approvals && IsApproveOf(a, c);
    var b :| b in w.db.approvals && IsApproveOf(b, d);
    var i :| 0 <= i < |w.db.approvals| && w.db.approvals[i] == a;
    var j :| 0 <= j < |w.db.approvals| && w.db.approvals[j] == b;
    assert i == j;
  }

  /** In every run, whatever the interleaving and whoever crashes, the mail adapter is called
      at most once per nonce, per idempotency key and per proposal. */
  lemma AtMostOneSend(sha: string -> string, steps: seq<Step>, i: nat, j: nat)
    requires Run(sha, steps).Some?
    requires i < j < |Run(sha, steps).value.outbox|
    ensures var s, t := Run(sha, steps).value.outbox[i], Run(sha, steps).value.outbox[j];
            && s.claims.nonce != t.claims.nonce && s.key != t.key
            && s.claims.proposalId != t.claims.proposalId
  {
    EveryRunKeeps(sha, steps);
    var w := Run(sha, steps).value;
    var s, t := w.outbox[i], w.outbox[j];
    assert SentOk(sha, w, s) && SentOk(sha, w, t);
    SentForItsProposal(sha, w, s);
    SentForItsProposal(sha, w, t);
    if s.claims.proposalId == t.claims.proposalId {
      OneExecutionPerProposal(sha, w, s.executionId, t.executionId);
    }
    if s.executionId < t.executionId || t.executionId < s.executionId {
      assert w.spent[s.executionId] != w.spent[t.executionId];
    }
  }

  lemma SentForItsProposal(sha: string -> string, w: World, s: Sent)
    requires Inv(sha, w) && s in w.outbox
    ensures s.executionId < |w.db.executions|
    ensures w.db.executions[s.executionId].proposalId == s.claims.proposalId
  {
    assert SentOk(sha, w, s);
    assert ExecutionOk(w, s.executionId);
  }

  /** Executions and consumed nonces are in bijection: each row of either table names exactly
      one row of the other, with the same proposal and the same key. */
  lemma ExecutionsMatchNonces(sha: string -> string, steps: seq<Step>)
    requires Run(sha, steps).Some?
    ensures var w := Run(sha, steps).value;
            && |w.spent| == |w.db.executions|
            && (forall e | 0 <= e < |w.spent| ::
                  w.spent[e] in w.db.nonces
                  && w.db.nonces[w.spent[e]] == NonceRow(w.db.executions[e].proposalId, w.db.executions[e].key))
            && (forall e, f | 0 <= e < f < |w.spent| :: w.spent[e] != w.spent[f])
            && (forall n :: n in w.db.nonces <==> n in w.spent)
  {
    EveryRunKeeps(sha, steps);
    var w := Run(sha, steps).value;
    forall e | 0 <= e < |w.spent|
      ensures w.spent[e] in w.db.nonces
              && w.db.nonces[w.spent[e]] == NonceRow(w.db.executions[e].proposalId, w.db.executions[e].key)
    {
      assert ExecutionOk(w, e);
    }
  }

  /** Before every send, the started event of its execution had been committed. */
  lemma SendIsOnRecordFirst(sha: string -> string, steps: seq<Step>, s: Sent)
    requires Run(sha, steps).Some? && s in Run(sha, steps).value.outbox
    ensures var w := Run(sha, steps).value;
            && s.logLength <= |w.db.log|
            && Event(Gateway, ExecutionStarted(s.executionId, s.key, s.claims.payloadHash), s.claims.proposalId)
               in w.db.log[..s.logLength]
  {
    EveryRunKeeps(sha, steps);
    assert SentOk(sha, Run(sha, steps).value, s);
  }

  // ---- what is sent is what was approved -----------------------------------------------------

  /** Subject and body of every send are those of the payload at the moment it was approved,
      whatever has been written over the row since. */
  lemma SentTextWasApproved(sha: string -> string, steps: seq<Step>, s: Sent)
    requires Injective(sha) && Run(sha, steps).Some? && s in Run(sha, steps).value.outbox
    ensures var w := Run(sha, steps).value;
            && s.claims.nonce in w.grants && w.grants[s.claims.nonce].claims == s.claims
            && SameValue(s.copy.payload, w.grants[s.claims.nonce].payload)
            && Field(w.grants[s.claims.nonce].payload, "subject").Some?
            && SameValue(s.message.subject, Field(w.grants[s.claims.nonce].payload, "subject").value)
            && Field(w.grants[s.claims.nonce].payload, "body").Some?
            && SameValue(s.message.body, Field(w.grants[s.claims.nonce].payload, "body").value)
  {
    EveryRunKeeps(sha, steps);
    var w := Run(sha, steps).value;
    assert SentOk(sha, w, s);
    var g := w.grants[s.claims.nonce];
    assert GrantOk(sha, w, s.claims.nonce, g);
    HashIdentifies(sha, s.copy.payload, g.payload);
    SameValueSameField(s.copy.payload, g.payload, "subject");
    SameValueSameField(s.copy.payload, g.payload, "body");
  }

  /** The recipient is the e-mail column of the row the gateway read, and it is the approved
      payload's address exactly when that row agrees with itself: its column with its own
      payload. Nothing the token signs covers the column. */
  lemma SentToApprovedAddressExactly(sha: string -> string, steps: seq<Step>, s: Sent)
    requires Injective(sha) && Run(sha, steps).Some? && s in Run(sha, steps).value.outbox
    ensures var w := Run(sha, steps).value;
            && s.claims.nonce in w.grants && s.message.to == s.copy.customerEmail
            && (EmailAgrees(w.grants[s.claims.nonce].payload, s.message.to)
                <==> EmailAgrees(s.copy.payload, s.copy.customerEmail))
  {
    EveryRunKeeps(sha, steps);
    SentTextWasApproved(sha, steps, s);
    var w := Run(sha, steps).value;
    var g := w.grants[s.claims.nonce];
    assert SentOk(sha, w, s) && GrantOk(sha, w, s.claims.nonce, g);
    SameAddress(s.copy.payload, g.payload, s.message.to);
  }

  lemma SameAddress(a: Json, b: Json, email: string)
    requires WellFormed(a) && WellFormed(b) && SameValue(a, b)
    ensures EmailAgrees(a, email) <==> EmailAgrees(b, email)
  {
    SameValueSameField(a, b, "customer_email");
  }

  /** In particular it is, unless somebody wrote over the e-mail column, or over the payload while
      it was still in the queue. */
  lemma SentToApprovedAddress(sha: string -> string, steps: seq<Step>, s: Sent)
    requires Run(sha, steps).Some? && s in Run(sha, steps).value.outbox
    requires s.claims.proposalId !in Run(sha, steps).value.tainted
    ensures var w := Run(sha, steps).value;
            && s.claims.nonce in w.grants
            && EmailAgrees(w.grants[s.claims.nonce].payload, s.message.to)
  {
    EveryRunKeeps(sha, steps);
    var w := Run(sha, steps).value;
    assert SentOk(sha, w, s);
    assert GrantOk(sha, w, s.claims.nonce, w.grants[s.claims.nonce]);
  }

  // ---- the probe -------------------------------------------------------------------------------

  /** A probe's token is never the token of a send, nor even of a claim, in any run. */
  lemma ProbeNeverSends(sha: string -> string, steps: seq<Step>, c: Claims)
    requires Run(sha, steps).Some? && c in Run(sha, steps).value.probes
    ensures var w := Run(sha, steps).value;
            && (forall s | s in w.outbox :: s.claims.nonce != c.nonce)
            && c.nonce !in w.db.nonces
  {
    EveryRunKeeps(sha, steps);
    var w := Run(sha, steps).value;
    forall s | s in w.outbox ensures s.claims.nonce != c.nonce {
      assert SentOk(sha, w, s);
    }
    forall e | 0 <= e < |w.spent| ensures w.spent[e] in w.grants {
      assert ExecutionOk(w, e);
    }
  }

  /** What check 4 asks of a token that has never been spent. */
  predicate PassesFour(db: Db, c: Claims, key: string, at: Time) {
    && c.proposalId in db.proposals
    && (FindOwnExecution(db.executions, key, c.proposalId).Some? || Sendable(db.proposals[c.proposalId], at))
  }

  /** Where a probe's token stops, in every run and however long after its minting: at check 4
      while the gateway reads a status that forbids it; at check 5, for want of an approve record
      with its nonce, once the proposal has been approved or its own key is used. */
  lemma ProbeIsRefused(sha: string -> string, steps: seq<Step>, c: Claims, key: string, at: Time)
    requires Run(sha, steps).Some? && c in Run(sha, steps).value.probes && !IsExpired(c, at)
    ensures var db := Run(sha, steps).value.db;
            && (FirstFailure(sha, db, c, key, at, 4) <==> !PassesFour(db, c, key, at))
            && (FirstFailure(sha, db, c, key, at, 5) <==> PassesFour(db, c, key, at))
  {
    EveryRunKeeps(sha, steps);
    ProbeNeverSends(sha, steps, c);
    var w := Run(sha, steps).value;
    NeverApproved(w, c);
    ProbeCases(sha, w.db, c, key, at);
  }

  /** No approve record carries a nonce that no approval has signed. */
  lemma NeverApproved(w: World, c: Claims)
    requires ApprovalsOk(w) && c.nonce !in w.grants
    ensures !ApprovedBy(LatestApproval(w.db.approvals, c.proposalId), c)
  {
    var a := LatestApproval(w.db.approvals, c.proposalId);
    if a.Some? { assert ApprovalOk(w, a.value); }
  }

  lemma ProbeCases(sha: string -> string, db: Db, c: Claims, key: string, at: Time)
    requires !IsExpired(c, at) && c.nonce !in db.nonces && !ApprovedBy(LatestApproval(db.approvals, c.proposalId), c)
    ensures FirstFailure(sha, db, c, key, at, 4) <==> !PassesFour(db, c, key, at)
    ensures FirstFailure(sha, db, c, key, at, 5) <==> PassesFour(db, c, key, at)
  {
    FirstFailureCases(sha, db, c, key, at, 4);
    FirstFailureCases(sha, db, c, key, at, 5);
  }

  // ---- the log -----------------------------------------------------------------------------------

  /** Folding the audit log, and reading nothing else, gives every proposal's status and
      stored hash; and the stored hash is the payload's wherever nobody wrote out of band. */
  lemma LogDeterminesState(sha: string -> string, steps: seq<Step>)
    requires Run(sha, steps).Some?
    ensures var w := Run(sha, steps).value;
            && Replay(w.db.log).Keys == w.db.proposals.Keys
            && (forall id | id in w.db.proposals ::
                  && Replay(w.db.log)[id].status == w.db.proposals[id].status
                  && Replay(w.db.log)[id].payloadHash == w.db.proposals[id].payloadHash
                  && (id !in w.rewritten ==>
                        Replay(w.db.log)[id].payloadHash == HashPayload(sha, w.db.proposals[id].payload)))
  {
    EveryRunKeeps(sha, steps);
    var w := Run(sha, steps).value;
    assert Replay(w.db.log).Keys == Summaries(w.db.proposals).Keys == w.db.proposals.Keys;
    forall id | id in w.db.proposals && id !in w.rewritten
      ensures w.db.proposals[id].payloadHash == HashPayload(sha, w.db.proposals[id].payload)
    {
      assert ProposalOk(sha, w, id, w.db.proposals[id]);
    }
  }

  /** At most one pending proposal per invoice, in every reachable state. */
  lemma OnePendingPerInvoice(sha: string -> string, steps: seq<Step>, a: Id, b: Id)
    requires Run(sha, steps).Some?
    requires IsPending(Run(sha, steps).value.db, a) && IsPending(Run(sha, steps).value.db, b)
    requires Run(sha, steps).value.db.proposals[a].invoiceId == Run(sha, steps).value.db.proposals[b].invoiceId
    ensures a == b
  {
    EveryRunKeeps(sha, steps);
  }

  /** Every reachable state keeps the unique constraint on keys, so what the verification answers is
      spelled out for all of them. */
  lemma KeysStayUnique(sha: string -> string, steps: seq<Step>)
    requires Run(sha, steps).Some?
    ensures Refusals.KeysUnique(Run(sha, steps).value.db)
  {
    EveryRunKeeps(sha, steps);
  }

  /** When `approve` reports drift: exactly when there is a proposal to decide, the text is none other
      than the one in its payload, and that payload no longer hashes to what is stored beside it. */
  lemma ApproveReportsDrift(sha: string -> string, db: Db, order: seq<Id>, id: Id, actor: string,
                            note: Option<string>, editedBody: Option<string>, nonce: string, now: Time, ttl: int)
    ensures ApproveProposal(sha, db, order, id, actor, note, editedBody, nonce, now, ttl) == Failure(PayloadHashDrift)
            <==> && id in db.proposals && db.proposals[id].status == Pending && id !in order && now < db.proposals[id].expiresAt
                 && (editedBody.None? || Field(db.proposals[id].payload, "body") == Some(Str(editedBody.value)))
                 && db.proposals[id].payloadHash != HashPayload(sha, db.proposals[id].payload)
  {
    var loaded := LoadPending(ExpireStale(db, order), id, now);
    if loaded.Success? {
      var ready := Prepare(sha, ExpireStale(db, order), id, editedBody).proposals[id];
      assert HashPayload(sha, ready.payload)[0] == PREFIX[0];
    }
  }

  /** So with no out-of-band write `approve` never reports drift. */
  lemma NoDriftWithoutRewriting(sha: string -> string, steps: seq<Step>, order: seq<Id>, id: Id, actor: string,
                                note: Option<string>, editedBody: Option<string>, nonce: string, now: Time, ttl: int)
    requires Run(sha, steps).Some? && id !in Run(sha, steps).value.rewritten
    ensures ApproveProposal(sha, Run(sha, steps).value.db, order, id, actor, note, editedBody, nonce, now, ttl)
         != Failure(PayloadHashDrift)
  {
    EveryRunKeeps(sha, steps);
    var w := Run(sha, steps).value;
    ApproveReportsDrift(sha, w.db, order, id, actor, note, editedBody, nonce, now, ttl);
    if id in w.db.proposals {
      assert ProposalOk(sha, w, id, w.db.proposals[id]);
    }
  }
}
