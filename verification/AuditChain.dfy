/** shared/audit.py: the hash-chained log, and what its verification proves. */
module AuditChain {
  import opened Prelude
  import opened CanonicalJson
  import opened CanonicalOrder

  /** A row as it is read back: `ts` is the canonical text of its instant. */
  datatype Row = Row(
    id: int,
    ts: string,
    actor: string,
    event: string,
    subjectType: string,
    subjectId: string,
    detail: Json,
    prevHash: string,
    hash: string)

  // ---- hashes ----------------------------------------------------------------------------

  /** The eight fields a row commits to. */
  function Content(row: Row, detail: Json): Json {
    Obj([Member("id", Num(row.id)), Member("ts", Str(row.ts)), Member("actor", Str(row.actor)),
         Member("event", Str(row.event)), Member("subject_type", Str(row.subjectType)),
         Member("subject_id", Str(row.subjectId)), Member("detail", detail),
         Member("prev_hash", Str(row.prevHash))])
  }

  /** `x or {}`. */
  function OrEmpty(detail: Json): Json {
    if Truthy(detail) then detail else Obj([])
  }

  /** `row_hash`: note the `detail or {}`. */
  function RowHash(sha: string -> string, row: Row): string {
    HashPayload(sha, Content(row, OrEmpty(row.detail)))
  }

  /** The seven plain fields agree, and so does the detail as it is hashed. */
  ghost predicate SameContent(a: Row, b: Row) {
    && a.id == b.id && a.ts == b.ts && a.actor == b.actor && a.event == b.event
    && a.subjectType == b.subjectType && a.subjectId == b.subjectId && a.prevHash == b.prevHash
    && SameValue(OrEmpty(a.detail), OrEmpty(b.detail))
  }

  lemma ContentKeys(row: Row, detail: Json)
    ensures DistinctKeys(Content(row, detail).members)
  {
  }

  lemma ContentField(row: Row, detail: Json, i: nat)
    requires i < 8
    ensures var m := Content(row, detail).members[i]; Field(Content(row, detail), m.key) == Some(m.value)
  {
    ContentKeys(row, detail);
    GetPresent(Content(row, detail).members, Content(row, detail).members[i]);
  }

  lemma ContentWellFormed(row: Row, detail: Json)
    requires WellFormed(detail)
    ensures WellFormed(Content(row, detail))
  {
    ContentKeys(row, detail);
  }

  const CONTENT_KEYS := ["id", "ts", "actor", "event", "subject_type", "subject_id", "detail", "prev_hash"]

  lemma ContentKeyed(row: Row, detail: Json, i: nat)
    requires i < 8
    ensures Content(row, detail).members[i].key == CONTENT_KEYS[i]
    ensures Field(Content(row, detail), CONTENT_KEYS[i]) == Some(Content(row, detail).members[i].value)
  {
    ContentField(row, detail, i);
  }

  lemma SameFieldOfContent(a: Row, da: Json, b: Row, db: Json, i: nat)
    requires i < 8 && WellFormed(da) && WellFormed(db) && SameValue(Content(a, da), Content(b, db))
    ensures SameValue(Content(a, da).members[i].value, Content(b, db).members[i].value)
  {
    ContentWellFormed(a, da);
    ContentWellFormed(b, db);
    ContentKeyed(a, da, i);
    ContentKeyed(b, db, i);
    SameFieldSameValue(Content(a, da), Content(b, db), CONTENT_KEYS[i]);
  }

  lemma SameFieldSameValue(v: Json, w: Json, key: string)
    requires WellFormed(v) && WellFormed(w) && SameValue(v, w) && Field(v, key).Some? && Field(w, key).Some?
    ensures SameValue(Field(v, key).value, Field(w, key).value)
  {
    SameValueSameField(v, w, key);
  }

  lemma SameObjectSameContent(a: Row, b: Row)
    requires WellFormed(a.detail) && WellFormed(b.detail)
    ensures SameValue(Content(a, OrEmpty(a.detail)), Content(b, OrEmpty(b.detail))) ==> SameContent(a, b)
  {
    var da, db := OrEmpty(a.detail), OrEmpty(b.detail);
    if SameValue(Content(a, da), Content(b, db)) {
      SameFieldOfContent(a, da, b, db, 0);
      SameFieldOfContent(a, da, b, db, 1);
      SameFieldOfContent(a, da, b, db, 2);
      SameFieldOfContent(a, da, b, db, 3);
      SameFieldOfContent(a, da, b, db, 4);
      SameFieldOfContent(a, da, b, db, 5);
      SameFieldOfContent(a, da, b, db, 6);
      SameFieldOfContent(a, da, b, db, 7);
    }
  }

  lemma SameContentSameObject(a: Row, b: Row)
    requires SameContent(a, b)
    ensures SameValue(Content(a, OrEmpty(a.detail)), Content(b, OrEmpty(b.detail)))
  {
    var ms, ns := Content(a, OrEmpty(a.detail)).members, Content(b, OrEmpty(b.detail)).members;
    assert forall i | 0 <= i < 8 :: ms[i].key == ns[i].key && SameValue(ms[i].value, ns[i].value);
    forall m | m in ms ensures HasSameMember(ns, m) {
      var i :| 0 <= i < 8 && ms[i] == m;
      assert ns[i] in ns;
    }
    forall n | n in ns ensures HasKey(ms, n.key) {
      var i :| 0 <= i < 8 && ns[i] == n;
      assert ms[i] in ms;
    }
  }

  /** What a row's hash commits to: every field, except that a falsy detail counts as `{}`. */
  lemma RowHashIdentifies(sha: string -> string, a: Row, b: Row)
    requires Injective(sha) && WellFormed(a.detail) && WellFormed(b.detail)
    ensures RowHash(sha, a) == RowHash(sha, b) <==> SameContent(a, b)
  {
    ContentWellFormed(a, OrEmpty(a.detail));
    ContentWellFormed(b, OrEmpty(b.detail));
    HashIdentifies(sha, Content(a, OrEmpty(a.detail)), Content(b, OrEmpty(b.detail)));
    SameObjectSameContent(a, b);
    if SameContent(a, b) { SameContentSameObject(a, b); }
  }

  // ---- the chain ---------------------------------------------------------------------------

  /** The hash the next row must name: the last row's, or the genesis hash. */
  function Head(rows: seq<Row>): string {
    if rows == [] then GENESIS_HASH else rows[|rows| - 1].hash
  }

  datatype Reason = WrongId | WrongLink | WrongContent

  /** Row `k`, judged only by itself and the rows before it. */
  function Fault(sha: string -> string, rows: seq<Row>, k: nat): Option<Reason>
    requires k < |rows|
  {
    if rows[k].id != k + 1 then Some(WrongId)
    else if rows[k].prevHash != Head(rows[..k]) then Some(WrongLink)
    else if RowHash(sha, rows[k]) != rows[k].hash then Some(WrongContent)
    else None
  }

  predicate Intact(sha: string -> string, rows: seq<Row>) {
    forall k | 0 <= k < |rows| :: Fault(sha, rows, k).None?
  }

  lemma FaultOfPrefix(sha: string -> string, rows: seq<Row>, n: nat, k: nat)
    requires k < n <= |rows|
    ensures Fault(sha, rows[..n], k) == Fault(sha, rows, k)
  {
    assert rows[..n][..k] == rows[..k];
  }

  lemma PrefixIntact(sha: string -> string, rows: seq<Row>, n: nat)
    requires n <= |rows|
    ensures Intact(sha, rows[..n]) <==> forall k | 0 <= k < n :: Fault(sha, rows, k).None?
  {
    forall k | 0 <= k < n ensures Fault(sha, rows[..n], k) == Fault(sha, rows, k) {
      FaultOfPrefix(sha, rows, n, k);
    }
  }

  lemma FirstBadRow(sha: string -> string, rows: seq<Row>, k: nat)
    requires k < |rows| && Fault(sha, rows, k).Some? && forall j | 0 <= j < k :: Fault(sha, rows, j).None?
    ensures !Intact(sha, rows) && Intact(sha, rows[..k])
  {
    PrefixIntact(sha, rows, k);
  }

  datatype ChainStatus = ChainStatus(
    intact: bool,
    length: nat,
    headHash: Option<string>,
    brokenAt: Option<int>,
    reason: Option<Reason>,
    checked: seq<int>)

  /** `verify_chain` over the rows in id order: intact exactly when every row is; otherwise the
      row named is the first bad one, and all rows before it form an intact chain. */
  method VerifyChain(sha: string -> string, rows: seq<Row>) returns (status: ChainStatus, ghost at: nat)
    ensures status.length == |rows|
    ensures status.intact <==> Intact(sha, rows)
    ensures status.intact ==>
              && status.headHash == (if rows == [] then None else Some(Head(rows)))
              && status.brokenAt == None && status.reason == None
              && status.checked == seq(|rows|, i => i + 1)
    ensures !status.intact ==>
              && at < |rows| && status.brokenAt == Some(rows[at].id)
              && status.reason == Fault(sha, rows, at) && status.reason.Some?
              && Intact(sha, rows[..at]) && status.headHash == None
  {
    at := 0;
    if rows == [] {
      return ChainStatus(true, 0, None, None, None, []), 0;
    }
    var expectedPrev, expectedId := GENESIS_HASH, 1;
    var checked: seq<int> := [];
    var i := 0;
    while i < |rows|
      invariant i <= |rows| && expectedId == i + 1
      invariant expectedPrev == Head(rows[..i])
      invariant forall k | 0 <= k < i :: Fault(sha, rows, k).None?
      invariant checked == seq(i, k => k + 1)
    {
      var row := rows[i];
      if Fault(sha, rows, i).Some? { FirstBadRow(sha, rows, i); }
      if row.id != expectedId {
        return ChainStatus(false, |rows|, None, Some(row.id), Some(WrongId), []), i;
      }
      if row.prevHash != expectedPrev {
        return ChainStatus(false, |rows|, None, Some(row.id), Some(WrongLink), []), i;
      }
      if RowHash(sha, row) != row.hash {
        return ChainStatus(false, |rows|, None, Some(row.id), Some(WrongContent), []), i;
      }
      expectedPrev := row.hash;
      expectedId := expectedId + 1;
      checked := checked + [row.id];
      i := i + 1;
    }
    assert rows[..i] == rows;
    return ChainStatus(true, |rows|, Some(rows[|rows| - 1].hash), None, None, checked), 0;
  }

  // ---- tamper evidence ------------------------------------------------------------------------

  predicate Readable(rows: seq<Row>) {
    forall row | row in rows :: WellFormed(row.detail)
  }

  ghost predicate SameRow(a: Row, b: Row) {
    SameContent(a, b) && a.hash == b.hash
  }

  ghost predicate SameLog(xs: seq<Row>, ys: seq<Row>) {
    |xs| == |ys| && forall k | 0 <= k < |xs| :: SameRow(xs[k], ys[k])
  }

  /** Two intact logs with the same length and head hash are identical row for row. */
  lemma {:induction false} SameHeadSameRows(sha: string -> string, xs: seq<Row>, ys: seq<Row>)
    requires Injective(sha) && Readable(xs) && Readable(ys) && Intact(sha, xs) && Intact(sha, ys)
    requires |xs| == |ys| && Head(xs) == Head(ys)
    ensures SameLog(xs, ys)
    decreases |xs|
  {
    if xs != [] {
      var n := |xs| - 1;
      LastRows(sha, xs, ys);
      PrefixIntact(sha, xs, n);
      PrefixIntact(sha, ys, n);
      SameHeadSameRows(sha, xs[..n], ys[..n]);
      forall k | 0 <= k < |xs| ensures SameRow(xs[k], ys[k]) {
        if k < n { assert SameRow(xs[..n][k], ys[..n][k]); }
      }
    }
  }

  lemma LastRows(sha: string -> string, xs: seq<Row>, ys: seq<Row>)
    requires Injective(sha) && Readable(xs) && Readable(ys) && Intact(sha, xs) && Intact(sha, ys)
    requires xs != [] && ys != [] && Head(xs) == Head(ys)
    ensures SameRow(xs[|xs| - 1], ys[|ys| - 1]) && |xs| == |ys|
    ensures Head(xs[..|xs| - 1]) == Head(ys[..|ys| - 1])
  {
    var a, b := xs[|xs| - 1], ys[|ys| - 1];
    assert Fault(sha, xs, |xs| - 1).None? && Fault(sha, ys, |ys| - 1).None?;
    assert a in xs && b in ys;
    RowHashIdentifies(sha, a, b);
  }

  /** The reported head alone identifies the log: an empty log reports none, and the ids are
      inside the hashes, so the length need not be compared. */
  lemma TamperEvidence(sha: string -> string, xs: seq<Row>, ys: seq<Row>)
    requires Injective(sha) && Readable(xs) && Readable(ys) && Intact(sha, xs) && Intact(sha, ys)
    requires (xs == [] <==> ys == []) && Head(xs) == Head(ys)
    ensures SameLog(xs, ys)
  {
    if xs != [] { LastRows(sha, xs, ys); }
    SameHeadSameRows(sha, xs, ys);
  }

  /** Replacing any one row is invisible, head and all, exactly when the row is the same. */
  lemma EditIsSeen(sha: string -> string, rows: seq<Row>, k: nat, row: Row)
    requires Injective(sha) && Readable(rows) && WellFormed(row.detail) && Intact(sha, rows) && k < |rows|
    ensures Intact(sha, rows[k := row]) && Head(rows[k := row]) == Head(rows) <==> SameRow(row, rows[k])
  {
    if Intact(sha, rows[k := row]) && Head(rows[k := row]) == Head(rows) { UnseenIsSame(sha, rows, k, row); }
    if SameRow(row, rows[k]) { SameIsUnseen(sha, rows, k, row); }
  }

  lemma UnseenIsSame(sha: string -> string, rows: seq<Row>, k: nat, row: Row)
    requires Injective(sha) && Readable(rows) && WellFormed(row.detail) && Intact(sha, rows) && k < |rows|
    requires Intact(sha, rows[k := row]) && Head(rows[k := row]) == Head(rows)
    ensures SameRow(row, rows[k])
  {
    var edited := rows[k := row];
    assert Readable(edited);
    TamperEvidence(sha, edited, rows);
    assert SameRow(edited[k], rows[k]);
  }

  lemma SameIsUnseen(sha: string -> string, rows: seq<Row>, k: nat, row: Row)
    requires Injective(sha) && Readable(rows) && WellFormed(row.detail) && Intact(sha, rows) && k < |rows|
    requires SameRow(row, rows[k])
    ensures Intact(sha, rows[k := row]) && Head(rows[k := row]) == Head(rows)
  {
    var edited := rows[k := row];
    RowHashIdentifies(sha, row, rows[k]);
    forall i | 0 <= i < |edited| ensures Fault(sha, edited, i).None? { SameFault(sha, rows, k, row, i); }
    SameHeads(edited, rows, k, |rows|);
    assert edited[..|rows|] == edited && rows[..|rows|] == rows;
  }

  lemma SameFault(sha: string -> string, rows: seq<Row>, k: nat, row: Row, i: nat)
    requires Intact(sha, rows) && k < |rows| && i < |rows|
    requires row.id == rows[k].id && row.prevHash == rows[k].prevHash && row.hash == rows[k].hash
    requires RowHash(sha, row) == RowHash(sha, rows[k])
    ensures Fault(sha, rows[k := row], i).None?
  {
    assert Fault(sha, rows, i).None?;
    SameHeads(rows[k := row], rows, k, i);
  }

  lemma SameHeads(edited: seq<Row>, rows: seq<Row>, k: nat, i: nat)
    requires k < |rows| == |edited| && i <= |rows| && edited == rows[k := edited[k]]
    requires edited[k].hash == rows[k].hash
    ensures Head(edited[..i]) == Head(rows[..i])
  {
  }

  /** The gap: a falsy detail written over another falsy detail (null over `{}`, say) changes
      the row and nothing that verification looks at. */
  lemma FalsyDetailUnseen(sha: string -> string, rows: seq<Row>, k: nat, detail: Json)
    requires Injective(sha) && Readable(rows) && WellFormed(detail) && Intact(sha, rows) && k < |rows|
    ensures Intact(sha, rows[k := rows[k].(detail := detail)])
            <==> SameValue(OrEmpty(detail), OrEmpty(rows[k].detail))
  {
    var row := rows[k].(detail := detail);
    EditIsSeen(sha, rows, k, row);
    SameHeads(rows[k := row], rows, k, |rows|);
    assert rows[k := row][..|rows|] == rows[k := row] && rows[..|rows|] == rows;
  }

  lemma NullOverEmpty(sha: string -> string, row: Row)
    requires Intact(sha, [row]) && row.detail == Obj([])
    ensures Intact(sha, [row.(detail := Null)]) && row.(detail := Null) != row
  {
    assert Fault(sha, [row], 0).None?;
    assert [row][..0] == [row.(detail := Null)][..0] == [];
  }

  /** Truncating the tail leaves an intact chain: only its length and its head tell. */
  lemma TruncationSeenByHead(sha: string -> string, rows: seq<Row>, n: nat)
    requires Injective(sha) && Readable(rows) && Intact(sha, rows) && 0 < n < |rows|
    ensures Intact(sha, rows[..n]) && Head(rows[..n]) != Head(rows)
  {
    PrefixIntact(sha, rows, n);
    if Head(rows[..n]) == Head(rows) {
      LastRows(sha, rows[..n], rows);
      assert false;
    }
  }

  /** No two rows of an intact log share a hash. */
  lemma HashesDiffer(sha: string -> string, rows: seq<Row>, i: nat, j: nat)
    requires Injective(sha) && Readable(rows) && Intact(sha, rows) && i < j < |rows|
    ensures rows[i].hash != rows[j].hash
  {
    assert Fault(sha, rows, i).None? && Fault(sha, rows, j).None?;
    assert rows[i] in rows && rows[j] in rows;
    RowHashIdentifies(sha, rows[i], rows[j]);
  }
}
