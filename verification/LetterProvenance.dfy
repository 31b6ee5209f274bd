/** From the row a READ tool returned to the letter that was sent. */
module LetterProvenance {
  import opened Prelude
  import opened CanonicalJson
  import opened CanonicalOrder
  import opened Store
  import opened Protocol
  import opened ProtocolInvariant
  import opened ProtocolGateway
  import opened ProtocolTheorems
  import opened ProtocolLater
  import opened Decisions
  import Registry
  import DraftTool
  import Transcript

  /** Every payload is still there, but perhaps for its body. */
  ghost predicate PayloadsKept(m: map<Id, Proposal>, m': map<Id, Proposal>) {
    forall id | id in m :: id in m' && SameButForBody(m'[id].payload, m[id].payload)
  }

  lemma PayloadsKeptTwice(a: map<Id, Proposal>, b: map<Id, Proposal>, c: map<Id, Proposal>)
    requires PayloadsKept(a, b) && PayloadsKept(b, c)
    ensures PayloadsKept(a, c)
  {
    forall id | id in a ensures id in c && SameButForBody(c[id].payload, a[id].payload) {
      assert SameButForBody(b[id].payload, a[id].payload) && SameButForBody(c[id].payload, b[id].payload);
    }
  }

  lemma SweepKeepsPayloads(db: Db, order: seq<Id>)
    ensures PayloadsKept(db.proposals, ExpireStale(db, order).proposals)
  {
  }

  lemma EditKeepsPayloads(sha: string -> string, db: Db, id: Id, body: string)
    requires id in db.proposals
    ensures PayloadsKept(db.proposals, EditRow(sha, db, id, body).proposals)
  {
    var payload := db.proposals[id].payload;
    if payload.Obj? { WithBodyChangesBody(payload, body); }
    assert SameButForBody(WithBody(payload, body), payload);
  }

  lemma SaveEditKeepsPayloads(sha: string -> string, db: Db, order: seq<Id>, id: Id, body: string, at: Time)
    ensures var r := SaveEdit(sha, db, order, id, body, at); r.Success? ==> PayloadsKept(db.proposals, r.value.proposals)
  {
    var swept := ExpireStale(db, order);
    SweepKeepsPayloads(db, order);
    if LoadPending(swept, id, at).Success? {
      EditKeepsPayloads(sha, swept, id, body);
      PayloadsKeptTwice(db.proposals, swept.proposals, EditRow(sha, swept, id, body).proposals);
    }
  }

  lemma RejectKeepsPayloads(db: Db, order: seq<Id>, id: Id, actor: string, note: string, at: Time)
    ensures var r := RejectProposal(db, order, id, actor, note, at); r.Success? ==> PayloadsKept(db.proposals, r.value.proposals)
  {
    var swept := ExpireStale(db, order);
    SweepKeepsPayloads(db, order);
    if LoadPending(swept, id, at).Success? {
      PayloadsKeptTwice(db.proposals, swept.proposals, RejectRow(swept, id, actor, note).proposals);
    }
  }

  lemma GrantKeepsPayloads(db: Db, id: Id, actor: string, note: Option<string>, editedBody: Option<string>, nonce: string)
    requires id in db.proposals
    ensures PayloadsKept(db.proposals, GrantRow(db, id, actor, note, editedBody, nonce).proposals)
  {
  }

  lemma ApproveKeepsPayloads(sha: string -> string, db: Db, order: seq<Id>, id: Id, actor: string, note: Option<string>,
                             editedBody: Option<string>, nonce: string, at: Time, ttl: int)
    ensures var r := ApproveProposal(sha, db, order, id, actor, note, editedBody, nonce, at, ttl);
            r.Success? ==> PayloadsKept(db.proposals, r.value.0.proposals)
  {
    var swept := ExpireStale(db, order);
    SweepKeepsPayloads(db, order);
    if LoadPending(swept, id, at).Success? {
      var ready := Prepare(sha, swept, id, editedBody);
      if NeedsEdit(swept.proposals[id], editedBody) { EditKeepsPayloads(sha, swept, id, editedBody.value); }
      PayloadsKeptTwice(db.proposals, swept.proposals, ready.proposals);
      GrantKeepsPayloads(ready, id, actor, note, editedBody, nonce);
      PayloadsKeptTwice(db.proposals, ready.proposals, GrantRow(ready, id, actor, note, editedBody, nonce).proposals);
    }
  }

  /** The same, but for the rows somebody has written over. */
  ghost predicate LettersKept(w: World, w': World) {
    forall id | id in w.db.proposals ::
      id in w'.db.proposals && (id !in w'.rewritten ==> SameButForBody(w'.db.proposals[id].payload, w.db.proposals[id].payload))
  }

  lemma ApplicationKeepsLetters(sha: string -> string, w: World, step: Step)
    requires Enabled(w, step) && Application(step)
    ensures LettersKept(w, Apply(sha, w, step))
  {
    match step
    case EditStep(_, order, id, body, now) => SaveEditKeepsPayloads(sha, w.db, order, id, body, now);
    case RejectStep(_, order, id, actor, reason, now) => RejectKeepsPayloads(w.db, order, id, actor, reason, now);
    case ApproveStep(_, order, id, actor, note, body, nonce, now, ttl) =>
      ApproveKeepsPayloads(sha, w.db, order, id, actor, note, body, nonce, now, ttl);
    case SweepStep(_, order) => SweepKeepsPayloads(w.db, order);
    case _ => OthersKeepLetters(sha, w, step);
  }

  lemma OthersKeepLetters(sha: string -> string, w: World, step: Step)
    requires Enabled(w, step) && Application(step)
    requires !step.EditStep? && !step.RejectStep? && !step.ApproveStep? && !step.SweepStep?
    ensures LettersKept(w, Apply(sha, w, step))
  {
    if step.RewritePayload? || step.RewriteEmail? {
      RewritesKeepLetters(sha, w, step);
    } else {
      AsideKeepsLetters(sha, w, step);
    }
  }

  lemma RewritesKeepLetters(sha: string -> string, w: World, step: Step)
    requires Enabled(w, step) && (step.RewritePayload? || step.RewriteEmail?)
    ensures LettersKept(w, Apply(sha, w, step))
  {
  }

  lemma AsideKeepsLetters(sha: string -> string, w: World, step: Step)
    requires Enabled(w, step)
    requires step.CreateStep? || step.RunStep? || step.SettleStep? || step.ProbeStep? || step.RecordStep?
    ensures LettersKept(w, Apply(sha, w, step))
  {
  }

  lemma GatewayKeepsLetters(sha: string -> string, w: World, step: Step)
    requires Enabled(w, step) && !Application(step)
    ensures LettersKept(w, Apply(sha, w, step))
  {
    match step
    case ClaimStep(r) => ClaimWorldUnfolds(w, r);
    case _ =>
  }

  lemma LettersKeptTwice(a: World, b: World, c: World)
    requires LettersKept(a, b) && LettersKept(b, c) && b.rewritten <= c.rewritten
    ensures LettersKept(a, c)
  {
    forall id | id in a.db.proposals && id !in c.rewritten
      ensures id in c.db.proposals && SameButForBody(c.db.proposals[id].payload, a.db.proposals[id].payload)
    {
      assert SameButForBody(b.db.proposals[id].payload, a.db.proposals[id].payload);
      assert SameButForBody(c.db.proposals[id].payload, b.db.proposals[id].payload);
    }
  }

  /** However a run goes on, a letter nobody writes over keeps every fact it was drafted with; only
      its body may be edited. */
  lemma {:induction false} LettersKeepTheirFacts(sha: string -> string, steps: seq<Step>, more: seq<Step>)
    requires Run(sha, steps).Some? && Run(sha, steps + more).Some?
    ensures LettersKept(Run(sha, steps).value, Run(sha, steps + more).value)
    decreases |more|
  {
    if more == [] {
      assert steps + more == steps;
    } else {
      var init, step := more[..|more| - 1], more[|more| - 1];
      assert (steps + more)[..|steps + more| - 1] == steps + init;
      LettersKeepTheirFacts(sha, steps, init);
      EveryRunKeeps(sha, steps + init);
      var w0, w := Run(sha, steps).value, Run(sha, steps + init).value;
      StepLater(sha, w, step);
      if Application(step) { ApplicationKeepsLetters(sha, w, step); } else { GatewayKeepsLetters(sha, w, step); }
      LettersKeptTwice(w0, w, Apply(sha, w, step));
    }
  }

  // ---- from end to end -------------------------------------------------------------------------

  /** The row of a proposal just as the draft tool stored it. */
  predicate StoredAs(w: World, id: Id, d: DraftTool.Draft) {
    id in w.db.proposals && w.db.proposals[id].payload == d.payload
  }

  /** Take any run of the agent and a proposal it drafted, stored in any run of the protocol; and
      any message that goes out for it, whatever happened in between, as long as nobody wrote over
      the payload. Every fact of the letter behind that message is the field of the last row the
      agent read about the invoice; and unless the address was written over too, so is the
      recipient. */
  lemma SentLetterIsWhatWasRead(sha: string -> string, steps: seq<Step>, more: seq<Step>, s: Sent,
                                entries: seq<Transcript.Entry>, d: DraftTool.Draft, n: nat, a: DraftTool.DraftArgs,
                                j: nat, k: nat, i: nat)
    requires Injective(sha) && Run(sha, steps).Some? && Run(sha, steps + more).Some?
    requires s in Run(sha, steps + more).value.outbox && s.claims.proposalId !in Run(sha, steps + more).value.rewritten
    requires Transcript.MadeBy(entries, d, n, a, j, k) && StoredAs(Run(sha, steps).value, s.claims.proposalId, d)
    requires i < |DraftTool.SOURCES|
    ensures var row := Registry.Walk(entries[j].record.result, 0)[k];
            var fact, source := DraftTool.SOURCES[i].0, DraftTool.SOURCES[i].1;
            && Field(s.copy.payload, fact).Some?
            && SameValue(Field(s.copy.payload, fact).value, Registry.GetOrNull(row, source))
            && (s.claims.proposalId !in Run(sha, steps + more).value.tainted ==>
                  Registry.GetOrNull(row, "customer_email") == Str(s.message.to))
  {
    var approved := ApprovedAsDrafted(sha, steps, more, s, d);
    MadeOfRow(entries, d, n, a, j, k);
    FactOfSent(Registry.Walk(entries[j].record.result, 0)[k], s.copy.payload, approved, d.payload, s.message.to, i);
  }

  /** Each fact of a payload is the row's field of that meaning. */
  predicate CarriesRow(payload: Json, row: Json) {
    forall i | 0 <= i < |DraftTool.SOURCES| ::
      Field(payload, DraftTool.SOURCES[i].0) == Some(Registry.GetOrNull(row, DraftTool.SOURCES[i].1))
  }

  lemma DraftCarriesRow(a: DraftTool.DraftArgs, row: Json, payload: Json)
    requires payload == DraftTool.Payload(a, Registry.LetterFacts(row))
    ensures CarriesRow(payload, row)
  {
    forall i | 0 <= i < |DraftTool.SOURCES|
      ensures Field(payload, DraftTool.SOURCES[i].0) == Some(Registry.GetOrNull(row, DraftTool.SOURCES[i].1))
    {
      DraftTool.PayloadFromRow(a, row, i);
    }
  }

  lemma MadeOfRow(entries: seq<Transcript.Entry>, d: DraftTool.Draft, n: nat, a: DraftTool.DraftArgs, j: nat, k: nat)
    requires Transcript.MadeBy(entries, d, n, a, j, k)
    ensures CarriesRow(d.payload, Registry.Walk(entries[j].record.result, 0)[k])
  {
    DraftCarriesRow(a, Registry.Walk(entries[j].record.result, 0)[k], d.payload);
  }

  lemma NoSourceIsTheBody(i: nat)
    requires i < |DraftTool.SOURCES|
    ensures DraftTool.SOURCES[i].0 != "body" && DraftTool.SOURCES[2].0 == DraftTool.SOURCES[2].1 == "customer_email"
  {
  }

  lemma KeptFact(approved: Json, drafted: Json, key: string)
    requires SameButForBody(approved, drafted) && key != "body"
    ensures Field(approved, key) == Field(drafted, key)
  {
  }

  lemma FactOfSent(row: Json, copy: Json, approved: Json, drafted: Json, to: string, i: nat)
    requires i < |DraftTool.SOURCES| && CarriesRow(drafted, row)
    requires WellFormed(copy) && WellFormed(approved) && SameValue(copy, approved) && SameButForBody(approved, drafted)
    ensures Field(copy, DraftTool.SOURCES[i].0).Some?
    ensures SameValue(Field(copy, DraftTool.SOURCES[i].0).value, Registry.GetOrNull(row, DraftTool.SOURCES[i].1))
    ensures EmailAgrees(approved, to) ==> Registry.GetOrNull(row, "customer_email") == Str(to)
  {
    NoSourceIsTheBody(i);
    KeptFact(approved, drafted, DraftTool.SOURCES[i].0);
    KeptFact(approved, drafted, DraftTool.SOURCES[2].0);
    SameFact(copy, approved, DraftTool.SOURCES[i].0);
  }

  /** The payload that was approved: the one sent, and the one drafted but for its body. */
  lemma ApprovedAsDrafted(sha: string -> string, steps: seq<Step>, more: seq<Step>, s: Sent, d: DraftTool.Draft)
    returns (approved: Json)
    requires Injective(sha) && Run(sha, steps).Some? && Run(sha, steps + more).Some?
    requires s in Run(sha, steps + more).value.outbox && s.claims.proposalId !in Run(sha, steps + more).value.rewritten
    requires StoredAs(Run(sha, steps).value, s.claims.proposalId, d)
    ensures WellFormed(approved) && WellFormed(s.copy.payload)
    ensures SameValue(s.copy.payload, approved) && SameButForBody(approved, d.payload)
    ensures s.claims.proposalId !in Run(sha, steps + more).value.tainted ==> EmailAgrees(approved, s.message.to)
  {
    var w' := Run(sha, steps + more).value;
    LettersKeepTheirFacts(sha, steps, more);
    EveryRunKeeps(sha, steps + more);
    SentTextWasApproved(sha, steps + more, s);
    approved := w'.grants[s.claims.nonce].payload;
    SentAndGranted(sha, w', s);
    if s.claims.proposalId !in w'.tainted { SentToApprovedAddress(sha, steps + more, s); }
  }

  lemma SentAndGranted(sha: string -> string, w: World, s: Sent)
    requires OutboxOk(sha, w) && GrantsOk(sha, w) && s in w.outbox
    ensures WellFormed(s.copy.payload) && s.claims.nonce in w.grants && WellFormed(w.grants[s.claims.nonce].payload)
    ensures s.claims.proposalId in w.db.proposals
    ensures s.claims.proposalId !in w.rewritten ==>
              w.db.proposals[s.claims.proposalId].payload == w.grants[s.claims.nonce].payload
  {
    assert SentOk(sha, w, s) && GrantOk(sha, w, s.claims.nonce, w.grants[s.claims.nonce]);
  }

  lemma SameFact(copy: Json, approved: Json, key: string)
    requires WellFormed(copy) && WellFormed(approved) && SameValue(copy, approved) && Field(approved, key).Some?
    ensures Field(copy, key).Some? && SameValue(Field(copy, key).value, Field(approved, key).value)
  {
    SameValueSameField(copy, approved, key);
  }
}
