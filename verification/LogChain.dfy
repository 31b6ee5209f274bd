/** The audit log as rows of the hash chain: what one head hash pins down. */
module LogChain {
  import opened Prelude
  import opened CanonicalJson
  import opened CanonicalOrder
  import opened Store
  import opened Protocol
  import opened ProtocolInvariant
  import opened ProtocolTheorems
  import opened AuditChain

  /** The event catalogue. */
  function NameOf(kind: Kind): string {
    match kind
    case SystemStarted => "system.started"
    case SchemaMigrated => "system.schema.migrated"
    case RunStarted => "run.started"
    case RunCompleted => "run.completed"
    case RunBroken => "run.failed"
    case RunAbandoned => "run.abandoned"
    case RunSettled => "run.settled"
    case ProposalCreated(_) => "proposal.created"
    case ProposalEdited(_, _) => "proposal.edited"
    case ProposalExpired => "proposal.expired"
    case ApprovalGranted(_, _) => "approval.granted"
    case ApprovalRejected(_) => "approval.rejected"
    case TokenMinted(_, _) => "approval.token.minted"
    case ExecutionStarted(_, _, _) => "action.execution.started"
    case ExecutionSucceeded(_) => "action.execution.succeeded"
    case ExecutionFailed(_) => "action.execution.failed"
    case ActionRefused(_) => "action.refused"
  }

  /** The stored hash an event sets, if it sets one. */
  function HashSet(kind: Kind): Option<string> {
    match kind
    case ProposalCreated(hash) => Some(hash)
    case ProposalEdited(_, hash) => Some(hash)
    case _ => None
  }

  /** A row of the table that records this event: its name, its subject and, where the event sets
      a stored hash, that hash in its detail. Whatever else the row holds is free. */
  predicate Records(row: Row, event: Event) {
    && row.event == NameOf(event.kind) && row.subjectId == event.subject && WellFormed(row.detail)
    && (HashSet(event.kind).Some? ==> Field(row.detail, "payload_hash") == Some(Str(HashSet(event.kind).value)))
  }

  predicate RecordsLog(rows: seq<Row>, log: seq<Event>) {
    |rows| == |log| && forall k | 0 <= k < |rows| :: Records(rows[k], log[k])
  }

  lemma NamesDiffer(a: Kind, b: Kind)
    requires NameOf(a) == NameOf(b)
    ensures HashSet(a).Some? <==> HashSet(b).Some?
    ensures HashSet(a) == HashSet(b) ==>
              forall m, subject, x, y :: ApplyEvent(m, Event(x, a, subject)) == ApplyEvent(m, Event(y, b, subject))
  {
  }

  /** Rows that verification cannot tell apart say the same about the proposals. */
  lemma SameRowSameEvent(r: Row, r': Row, e: Event, e': Event, m: map<Id, Summary>)
    requires SameRow(r, r') && Records(r, e) && Records(r', e')
    ensures ApplyEvent(m, e) == ApplyEvent(m, e')
  {
    NamesDiffer(e.kind, e'.kind);
    if HashSet(e.kind).Some? {
      SameValueSameField(r.detail, r'.detail, "payload_hash");
    }
    assert e == Event(e.actor, e.kind, e.subject) && e' == Event(e'.actor, e'.kind, e.subject);
  }

  lemma {:induction false} SameLogSameReplay(rows: seq<Row>, rows': seq<Row>, log: seq<Event>, log': seq<Event>)
    requires SameLog(rows, rows') && RecordsLog(rows, log) && RecordsLog(rows', log')
    ensures Replay(log) == Replay(log')
    decreases |log|
  {
    if log != [] {
      var n := |log| - 1;
      forall k | 0 <= k < n ensures SameRow(rows[..n][k], rows'[..n][k]) { assert SameRow(rows[k], rows'[k]); }
      SameLogSameReplay(rows[..n], rows'[..n], log[..n], log'[..n]);
      assert SameRow(rows[n], rows'[n]);
      SameRowSameEvent(rows[n], rows'[n], log[n], log'[n], Replay(log[..n]));
    }
  }

  lemma RecordedIsReadable(rows: seq<Row>, log: seq<Event>)
    requires RecordsLog(rows, log)
    ensures Readable(rows)
  {
    forall row | row in rows ensures WellFormed(row.detail) {
      var k :| 0 <= k < |rows| && rows[k] == row;
      assert Records(rows[k], log[k]);
    }
  }

  /** Two reachable databases whose logs verify as intact and report one head agree on every
      proposal: which there are, their status, and the hash stored beside each payload. */
  lemma OneHeadOneState(sha: string -> string, steps: seq<Step>, rows: seq<Row>, steps': seq<Step>, rows': seq<Row>)
    requires Injective(sha) && Run(sha, steps).Some? && Run(sha, steps').Some?
    requires RecordsLog(rows, Run(sha, steps).value.db.log) && RecordsLog(rows', Run(sha, steps').value.db.log)
    requires Intact(sha, rows) && Intact(sha, rows') && (rows == [] <==> rows' == []) && Head(rows) == Head(rows')
    ensures var m, m' := Run(sha, steps).value.db.proposals, Run(sha, steps').value.db.proposals;
            && m.Keys == m'.Keys
            && forall id | id in m :: m'[id].status == m[id].status && m'[id].payloadHash == m[id].payloadHash
  {
    var db, db' := Run(sha, steps).value.db, Run(sha, steps').value.db;
    RecordedIsReadable(rows, db.log);
    RecordedIsReadable(rows', db'.log);
    TamperEvidence(sha, rows, rows');
    SameLogSameReplay(rows, rows', db.log, db'.log);
    LogDeterminesState(sha, steps);
    LogDeterminesState(sha, steps');
  }

  // ---- such rows exist -----------------------------------------------------------------------------

  /** A row for an event, on top of the rows before it. */
  function RowFor(sha: string -> string, rows: seq<Row>, event: Event): Row {
    var detail := match HashSet(event.kind)
                  case Some(hash) => Obj([Member("payload_hash", Str(hash))])
                  case None => Obj([]);
    var draft := Row(|rows| + 1, "", "", NameOf(event.kind), "proposal", event.subject, detail, Head(rows), "");
    draft.(hash := RowHash(sha, draft))
  }

  /** Every log has an intact chain of rows that records it. */
  lemma {:induction false} EveryLogHasAChain(sha: string -> string, log: seq<Event>) returns (rows: seq<Row>)
    ensures RecordsLog(rows, log) && Intact(sha, rows)
    decreases |log|
  {
    if log == [] {
      rows := [];
    } else {
      var n := |log| - 1;
      var before := EveryLogHasAChain(sha, log[..n]);
      rows := before + [RowFor(sha, before, log[n])];
      RowForFits(sha, before, log[n]);
      OneMoreFits(sha, before, rows[n]);
      OneMoreRecorded(before, rows[n], log);
    }
  }

  lemma OneMoreFits(sha: string -> string, rows: seq<Row>, row: Row)
    requires Intact(sha, rows) && Fault(sha, rows + [row], |rows|).None?
    ensures Intact(sha, rows + [row])
  {
    assert (rows + [row])[..|rows|] == rows;
    PrefixIntact(sha, rows + [row], |rows|);
  }

  lemma OneMoreRecorded(rows: seq<Row>, row: Row, log: seq<Event>)
    requires log != [] && RecordsLog(rows, log[..|log| - 1]) && Records(row, log[|log| - 1])
    ensures RecordsLog(rows + [row], log)
  {
    forall k | 0 <= k < |log| ensures Records((rows + [row])[k], log[k]) {
      if k < |log| - 1 { assert Records(rows[k], log[..|log| - 1][k]); }
    }
  }

  lemma RowForFits(sha: string -> string, rows: seq<Row>, event: Event)
    ensures var row := RowFor(sha, rows, event); Records(row, event) && Fault(sha, rows + [row], |rows|).None?
  {
    var row := RowFor(sha, rows, event);
    assert (rows + [row])[..|rows|] == rows;
    assert RowHash(sha, row) == row.hash;
  }
}
