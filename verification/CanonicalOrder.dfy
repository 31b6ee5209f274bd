/** sort_keys=True: one text for every insertion order, and different texts for different values. */
module CanonicalOrder {
  import opened Prelude
  import opened CanonicalJson
  import opened JsonRoundTrip

  /** The same JSON value: dicts agree key by key, in whatever order their keys were inserted.
      Stated without reference to sorting or to text. */
  ghost predicate SameValue(a: Json, b: Json)
    decreases a
  {
    match (a, b)
    case (Arr(xs), Arr(ys)) =>
      |xs| == |ys| && forall i | 0 <= i < |xs| :: SameValue(xs[i], ys[i])
    case (Obj(ms), Obj(ns)) =>
      && (forall m | m in ms :: HasSameMember(ns, m))
      && (forall n | n in ns :: HasKey(ms, n.key))
    case _ => a == b
  }

  ghost predicate HasSameMember(ns: seq<Member>, m: Member)
    decreases m
  {
    exists n | n in ns :: n.key == m.key && SameValue(m.value, n.value)
  }

  predicate HasKey(ms: seq<Member>, key: string) {
    exists m | m in ms :: m.key == key
  }

  // ---- sorted member lists ---------------------------------------------------------

  predicate Sorted(ms: seq<Member>) {
    forall i, j | 0 <= i < j < |ms| :: TextLess(ms[i].key, ms[j].key)
  }

  lemma {:induction false} InsertElements(m: Member, ms: seq<Member>)
    ensures forall x :: x in Insert(m, ms) <==> x == m || x in ms
  {
    if ms != [] && !TextLess(m.key, ms[0].key) {
      InsertElements(m, ms[1..]);
    }
  }

  lemma {:induction false} InsertSorted(m: Member, ms: seq<Member>)
    requires Sorted(ms) && forall x | x in ms :: x.key != m.key
    ensures Sorted(Insert(m, ms))
  {
    if ms != [] {
      if TextLess(m.key, ms[0].key) {
        forall j | 1 <= j < |ms| ensures TextLess(m.key, ms[j].key) {
          TextLessTransitive(m.key, ms[0].key, ms[j].key);
        }
      } else {
        TextLessTotal(m.key, ms[0].key);
        InsertSorted(m, ms[1..]);
        InsertElements(m, ms[1..]);
        var rest := Insert(m, ms[1..]);
        forall j | 0 <= j < |rest| ensures TextLess(ms[0].key, rest[j].key) {
          assert rest[j] in rest;
        }
      }
    }
  }

  /** A strictly sorted list is determined by what is in it. */
  lemma {:induction false} SortedUnique(xs: seq<Member>, ys: seq<Member>)
    requires Sorted(xs) && Sorted(ys)
    requires forall m :: m in xs <==> m in ys
    ensures xs == ys
  {
    assert ys == [] || ys[0] in ys;
    assert xs == [] || xs[0] in xs;
    if xs != [] {
      assert xs[0] in ys;
      assert ys[0] in xs;
      var i :| 0 <= i < |ys| && ys[i] == xs[0];
      var j :| 0 <= j < |xs| && xs[j] == ys[0];
      if i > 0 && j > 0 {
        TextLessTransitive(xs[0].key, ys[0].key, xs[0].key);
        TextLessIrreflexive(xs[0].key);
      }
      assert xs[0] == ys[0];
      SortedTail(xs);
      SortedTail(ys);
      forall m ensures m in xs[1..] <==> m in ys[1..] {}
      SortedUnique(xs[1..], ys[1..]);
      assert xs == [xs[0]] + xs[1..] && ys == [ys[0]] + ys[1..];
    }
  }

  lemma SortedTail(xs: seq<Member>)
    requires Sorted(xs) && xs != []
    ensures Sorted(xs[1..]) && xs[0] !in xs[1..]
    ensures forall m :: m in xs <==> m == xs[0] || m in xs[1..]
  {
    TextLessIrreflexive(xs[0].key);
  }

  // ---- Canon -------------------------------------------------------------------------

  function CanonMember(m: Member): Member {
    Member(m.key, Canon(m.value))
  }

  lemma {:induction false} CanonMembersElements(ms: seq<Member>)
    ensures forall m | m in ms :: CanonMember(m) in CanonMembers(ms)
    ensures forall x | x in CanonMembers(ms) :: exists m | m in ms :: x == CanonMember(m)
  {
    if ms != [] {
      CanonMembersElements(ms[1..]);
      InsertElements(CanonMember(ms[0]), CanonMembers(ms[1..]));
      forall x | x in CanonMembers(ms) ensures exists m | m in ms :: x == CanonMember(m) {
        if x in CanonMembers(ms[1..]) {
          var m :| m in ms[1..] && x == CanonMember(m);
          assert m in ms;
        } else {
          assert ms[0] in ms;
        }
      }
    }
  }

  lemma {:induction false} CanonMembersSorted(ms: seq<Member>)
    requires DistinctKeys(ms)
    ensures Sorted(CanonMembers(ms))
  {
    if ms != [] {
      CanonMembersSorted(ms[1..]);
      CanonMembersElements(ms[1..]);
      InsertSorted(CanonMember(ms[0]), CanonMembers(ms[1..]));
    }
  }

  lemma {:induction false} CanonItemsAt(xs: seq<Json>)
    ensures |CanonItems(xs)| == |xs|
    ensures forall i | 0 <= i < |xs| :: CanonItems(xs)[i] == Canon(xs[i])
  {
    if xs != [] { CanonItemsAt(xs[1..]); }
  }

  lemma SortedDistinct(ms: seq<Member>)
    requires Sorted(ms)
    ensures DistinctKeys(ms)
  {
    forall i, j | 0 <= i < j < |ms| ensures ms[i].key != ms[j].key {
      TextLessIrreflexive(ms[i].key);
    }
  }

  lemma {:induction false} CanonWellFormed(v: Json)
    requires WellFormed(v)
    ensures WellFormed(Canon(v))
    decreases v
  {
    match v
    case Arr(xs) =>
      CanonItemsAt(xs);
      forall x | x in CanonItems(xs) ensures WellFormed(x) {
        var i :| 0 <= i < |xs| && x == CanonItems(xs)[i];
        CanonWellFormed(xs[i]);
      }
    case Obj(ms) =>
      CanonMembersSorted(ms);
      SortedDistinct(CanonMembers(ms));
      CanonMembersElements(ms);
      forall m | m in CanonMembers(ms) ensures WellFormed(m.value) {
        var n :| n in ms && m == CanonMember(n);
        CanonWellFormed(n.value);
      }
    case _ =>
  }

  // ---- the two directions ------------------------------------------------------------

  predicate SameKeyMember(ms: seq<Member>, a: Member, b: Member) {
    a in ms && b in ms && a.key == b.key
  }

  lemma DistinctKeysIdentify(ms: seq<Member>, a: Member, b: Member)
    requires DistinctKeys(ms) && SameKeyMember(ms, a, b)
    ensures a == b
  {
    var i :| 0 <= i < |ms| && ms[i] == a;
    var j :| 0 <= j < |ms| && ms[j] == b;
  }

  lemma CanonMembersEqual(ms: seq<Member>, ns: seq<Member>)
    requires DistinctKeys(ms) && DistinctKeys(ns)
    requires forall m | m in ms :: exists n | n in ns :: CanonMember(n) == CanonMember(m)
    requires forall n | n in ns :: HasKey(ms, n.key)
    ensures CanonMembers(ms) == CanonMembers(ns)
  {
    CanonMembersSorted(ms);
    CanonMembersSorted(ns);
    CanonMembersElements(ms);
    CanonMembersElements(ns);
    forall n | n in ns ensures CanonMember(n) in CanonMembers(ms) {
      var m :| m in ms && m.key == n.key;
      var k :| k in ns && CanonMember(k) == CanonMember(m);
      DistinctKeysIdentify(ns, k, n);
    }
    SortedUnique(CanonMembers(ms), CanonMembers(ns));
  }

  lemma {:induction false} SameValueGivesSameCanon(a: Json, b: Json)
    requires WellFormed(a) && WellFormed(b) && SameValue(a, b)
    ensures Canon(a) == Canon(b)
    decreases a, 1
  {
    match (a, b)
    case (Arr(xs), Arr(ys)) =>
      CanonItemsAt(xs);
      CanonItemsAt(ys);
      forall i | 0 <= i < |xs| ensures Canon(xs[i]) == Canon(ys[i]) {
        SameValueGivesSameCanon(xs[i], ys[i]);
      }
      assert CanonItems(xs) == CanonItems(ys);
    case (Obj(ms), Obj(ns)) =>
      forall m | m in ms ensures exists n | n in ns :: CanonMember(n) == CanonMember(m) {
        SameMemberGivesSameCanon(m, ns);
      }
      CanonMembersEqual(ms, ns);
    case _ =>
  }

  lemma {:induction false} SameMemberGivesSameCanon(m: Member, ns: seq<Member>)
    requires WellFormed(m.value) && (forall n | n in ns :: WellFormed(n.value))
    requires HasSameMember(ns, m)
    ensures exists n | n in ns :: CanonMember(n) == CanonMember(m)
    decreases m, 0
  {
    var n :| n in ns && n.key == m.key && SameValue(m.value, n.value);
    SameValueGivesSameCanon(m.value, n.value);
    assert CanonMember(n) == CanonMember(m);
  }

  lemma {:induction false} SameCanonGivesSameValue(a: Json, b: Json)
    requires Canon(a) == Canon(b)
    ensures SameValue(a, b)
    decreases a, 1
  {
    match (a, b)
    case (Arr(xs), Arr(ys)) =>
      CanonItemsAt(xs);
      CanonItemsAt(ys);
      forall i | 0 <= i < |xs| ensures SameValue(xs[i], ys[i]) {
        assert Canon(xs[i]) == CanonItems(xs)[i] == CanonItems(ys)[i];
        SameCanonGivesSameValue(xs[i], ys[i]);
      }
    case (Obj(ms), Obj(ns)) =>
      CanonMembersElements(ms);
      CanonMembersElements(ns);
      forall m | m in ms ensures HasSameMember(ns, m) {
        SameCanonGivesSameMember(m, ns);
      }
      forall n | n in ns ensures HasKey(ms, n.key) {
        var m :| m in ms && CanonMember(n) == CanonMember(m);
      }
    case _ =>
  }

  lemma {:induction false} SameCanonGivesSameMember(m: Member, ns: seq<Member>)
    requires CanonMember(m) in CanonMembers(ns)
    ensures HasSameMember(ns, m)
    decreases m, 0
  {
    CanonMembersElements(ns);
    var n :| n in ns && CanonMember(m) == CanonMember(n);
    SameCanonGivesSameValue(m.value, n.value);
  }

  /** Two values print alike exactly when they are the same value: the text does not depend
      on insertion order, and it never confuses two different values. */
  lemma CanonicalTextIdentifies(a: Json, b: Json)
    requires WellFormed(a) && WellFormed(b)
    ensures CanonicalText(a) == CanonicalText(b) <==> SameValue(a, b)
  {
    CanonWellFormed(a);
    CanonWellFormed(b);
    DocumentRoundTrip(false, Canon(a));
    DocumentRoundTrip(false, Canon(b));
    if CanonicalText(a) == CanonicalText(b) {
      SameCanonGivesSameValue(a, b);
    }
    if SameValue(a, b) {
      SameValueGivesSameCanon(a, b);
    }
  }

  /** Parsing canonical text gives back the value that was printed. */
  lemma CanonicalRoundTrip(v: Json)
    requires WellFormed(v)
    ensures Loads(CanonicalText(v)).Some? && SameValue(v, Loads(CanonicalText(v)).value)
  {
    CanonWellFormed(v);
    DocumentRoundTrip(false, Canon(v));
    CanonIdempotent(v);
    SameCanonGivesSameValue(v, Canon(v));
  }

  lemma {:induction false} CanonIdempotent(v: Json)
    requires WellFormed(v)
    ensures Canon(Canon(v)) == Canon(v)
    decreases v
  {
    match v
    case Arr(xs) =>
      CanonItemsAt(xs);
      CanonItemsAt(CanonItems(xs));
      forall i | 0 <= i < |xs| ensures Canon(Canon(xs[i])) == Canon(xs[i]) {
        CanonIdempotent(xs[i]);
      }
      assert CanonItems(CanonItems(xs)) == CanonItems(xs);
    case Obj(ms) =>
      var cs := CanonMembers(ms);
      CanonMembersSorted(ms);
      SortedDistinct(cs);
      CanonMembersSorted(cs);
      CanonMembersElements(ms);
      CanonMembersElements(cs);
      forall m | m in cs ensures CanonMember(m) == m {
        var n :| n in ms && m == CanonMember(n);
        CanonIdempotent(n.value);
      }
      SortedUnique(CanonMembers(cs), cs);
    case _ =>
  }

  // ---- hashing -------------------------------------------------------------------------

  /** SHA-256 taken to be collision-free; assumed only where a lemma says so. */
  ghost predicate Injective(sha: string -> string) {
    forall x, y :: sha(x) == sha(y) ==> x == y
  }

  /** What makes a payload hash mean one payload. */
  lemma HashIdentifies(sha: string -> string, a: Json, b: Json)
    requires Injective(sha) && WellFormed(a) && WellFormed(b)
    ensures HashPayload(sha, a) == HashPayload(sha, b) <==> SameValue(a, b)
  {
    CanonicalTextIdentifies(a, b);
    var x, y := sha(CanonicalText(a)), sha(CanonicalText(b));
    assert x == (PREFIX + x)[|PREFIX|..] && y == (PREFIX + y)[|PREFIX|..];
  }

  // ---- dict fields -----------------------------------------------------------------------

  lemma {:induction false} GetPresent(ms: seq<Member>, m: Member)
    requires DistinctKeys(ms) && m in ms
    ensures Get(ms, m.key) == Some(m.value)
  {
    if m != ms[0] { GetPresent(ms[1..], m); }
  }

  lemma {:induction false} GetFinds(ms: seq<Member>, key: string)
    requires Get(ms, key).Some?
    ensures Member(key, Get(ms, key).value) in ms
  {
    if ms[0].key != key { GetFinds(ms[1..], key); }
  }

  /** Equal dicts answer every lookup alike. */
  lemma SameValueSameField(a: Json, b: Json, key: string)
    requires WellFormed(a) && WellFormed(b) && SameValue(a, b)
    ensures Field(a, key).Some? <==> Field(b, key).Some?
    ensures Field(a, key).Some? ==> SameValue(Field(a, key).value, Field(b, key).value)
  {
    if Field(a, key).Some? {
      GetFinds(a.members, key);
      var m := Member(key, Field(a, key).value);
      assert HasSameMember(b.members, m);
      var n :| n in b.members && n.key == m.key && SameValue(m.value, n.value);
      GetPresent(b.members, n);
    } else if Field(b, key).Some? {
      GetFinds(b.members, key);
      var m :| m in a.members && m.key == key;
      GetPresent(a.members, m);
    }
  }

  /** Assigning one key leaves every other key alone and keeps the dict a dict. */
  lemma {:induction false} SetGet(ms: seq<Member>, key: string, v: Json)
    ensures forall k :: Get(Set(ms, key, v), k) == if k == key then Some(v) else Get(ms, k)
    ensures DistinctKeys(ms) ==> DistinctKeys(Set(ms, key, v))
    ensures forall m | m in Set(ms, key, v) :: m == Member(key, v) || m in ms
  {
    if ms != [] && ms[0].key != key {
      SetGet(ms[1..], key, v);
      var rest := Set(ms[1..], key, v);
      if DistinctKeys(ms) {
        forall j | 0 <= j < |rest| ensures rest[j].key != ms[0].key {
          assert rest[j] in rest;
        }
      }
    }
  }
}
