/** The canonical text written out, character by character and key by key, without the printer:
    which text a value has, and that the printer prints it. */
module CanonicalForm {
  import opened Prelude
  import opened CanonicalJson
  import opened CanonicalOrder
  import opened JsonRoundTrip

  // ---- the form ----------------------------------------------------------------------------------

  /** Order by code point at the first place where two strings differ; a prefix comes first. */
  ghost predicate Before(a: string, b: string) {
    exists k :: DifferAt(a, b, k)
  }

  predicate DifferAt(a: string, b: string, k: int) {
    0 <= k <= |a| && k < |b| && a[..k] == b[..k] && (k == |a| || a[k] < b[k])
  }

  /** A hexadecimal digit, in lower case. */
  predicate IsHexDigit(d: int, c: char) {
    (0 <= d < 10 && c as int == '0' as int + d) || (10 <= d < 16 && c as int == 'a' as int + d - 10)
  }

  /** A backslash, a `u`, and four hexadecimal digits. */
  predicate IsUnit(n: int, t: string) {
    && |t| == 6 && t[0] == '\\' && t[1] == 'u'
    && IsHexDigit(n / 4096, t[2]) && IsHexDigit(n / 256 % 16, t[3]) && IsHexDigit(n / 16 % 16, t[4]) && IsHexDigit(n % 16, t[5])
  }

  /** A character inside the quotes: itself, unless it is a quote, a backslash or a control
      character or, where only ASCII may be written, beyond '~'. */
  predicate IsPiece(ascii: bool, c: char, t: string) {
    var n := c as int;
    if c == '"' then t == "\\\""
    else if c == '\\' then t == "\\\\"
    else if n == 8 then t == "\\b"
    else if n == 9 then t == "\\t"
    else if n == 10 then t == "\\n"
    else if n == 12 then t == "\\f"
    else if n == 13 then t == "\\r"
    else if n < 32 || (ascii && 126 < n < 0x10000) then IsUnit(n, t)
    else if ascii && n >= 0x10000 then
      && |t| == 12 && IsUnit(0xD800 + (n - 0x10000) / 1024, t[..6]) && IsUnit(0xDC00 + (n - 0x10000) % 1024, t[6..])
    else t == [c]
  }

  ghost predicate IsQuoted(ascii: bool, s: string, t: string) {
    exists pieces :: QuotedBy(ascii, s, pieces, t)
  }

  predicate QuotedBy(ascii: bool, s: string, pieces: seq<string>, t: string) {
    && |pieces| == |s| && (forall i | 0 <= i < |s| :: IsPiece(ascii, s[i], pieces[i]))
    && t == "\"" + Joined("", pieces) + "\""
  }

  /** Decimal digits, without a zero in front. */
  predicate IsDecimal(n: int, t: string) {
    if n < 0 then t != "" && t[0] == '-' && AreDigits(-n, t[1..]) else AreDigits(n, t)
  }

  predicate AreDigits(n: nat, ds: string) {
    && ds != "" && (forall i | 0 <= i < |ds| :: '0' <= ds[i] <= '9')
    && (|ds| > 1 ==> ds[0] != '0') && DecimalValue(ds) == n
  }

  /** The text of a value: commas and colons with nothing around them, and the members of every dict
      in ascending order of their keys. */
  ghost predicate IsText(ascii: bool, v: Json, t: string)
    decreases v
  {
    match v
    case Null => t == "null"
    case Bool(b) => t == if b then "true" else "false"
    case Num(n) => IsDecimal(n, t)
    case Str(s) => IsQuoted(ascii, s, t)
    case Arr(items) => exists parts :: IsArray(ascii, items, parts, t)
    case Obj(ms) => exists order, parts :: IsObject(ascii, ms, order, parts, t)
  }

  ghost predicate IsArray(ascii: bool, items: seq<Json>, parts: seq<string>, t: string)
    decreases items
  {
    && |parts| == |items| && (forall i | 0 <= i < |items| :: IsText(ascii, items[i], parts[i]))
    && t == "[" + Joined(",", parts) + "]"
  }

  ghost predicate IsObject(ascii: bool, ms: seq<Member>, order: seq<Member>, parts: seq<string>, t: string)
    decreases ms
  {
    && Ascending(order) && (forall m :: m in order <==> m in ms)
    && |parts| == |order| && (forall i | 0 <= i < |order| :: order[i] in ms && IsMember(ascii, order[i], parts[i]))
    && t == "{" + Joined(",", parts) + "}"
  }

  ghost predicate IsMember(ascii: bool, m: Member, t: string)
    decreases m
  {
    exists key, value :: IsQuoted(ascii, m.key, key) && IsText(ascii, m.value, value) && t == key + ":" + value
  }

  ghost predicate Ascending(ms: seq<Member>) {
    forall i, j | 0 <= i < j < |ms| :: Before(ms[i].key, ms[j].key)
  }

  // ---- the order is the one the printer sorts by ---------------------------------------------------

  lemma {:induction false} LessIsBefore(a: string, b: string)
    ensures TextLess(a, b) <==> Before(a, b)
  {
    if a != "" && b != "" && a[0] == b[0] {
      LessIsBefore(a[1..], b[1..]);
      if k :| DifferAt(a[1..], b[1..], k) {
        assert a[..k + 1] == [a[0]] + a[1..][..k] && b[..k + 1] == [b[0]] + b[1..][..k];
        assert DifferAt(a, b, k + 1);
      }
      if k :| DifferAt(a, b, k) {
        assert k > 0;
        assert a[1..][..k - 1] == a[..k][1..] == b[..k][1..] == b[1..][..k - 1];
        assert DifferAt(a[1..], b[1..], k - 1);
      }
    } else if TextLess(a, b) {
      assert DifferAt(a, b, 0);
    } else if k :| DifferAt(a, b, k) {
      SameStart(a, b, k);
    }
  }

  lemma SameStart(a: string, b: string, k: int)
    requires DifferAt(a, b, k)
    ensures k == 0 || a[0] == b[0]
  {
    if k > 0 { assert a[0] == a[..k][0] == b[..k][0] == b[0]; }
  }

  lemma AscendingIsSorted(ms: seq<Member>)
    ensures Ascending(ms) <==> Sorted(ms)
  {
    forall i, j | 0 <= i < j < |ms| ensures Before(ms[i].key, ms[j].key) <==> TextLess(ms[i].key, ms[j].key) {
      LessIsBefore(ms[i].key, ms[j].key);
    }
  }

  // ---- the printer prints it -------------------------------------------------------------------------

  lemma HexIs(n: int)
    requires 0 <= n < 0x10000
    ensures IsUnit(n, "\\u" + Hex4(n))
  {
  }

  lemma PairIs(hi: int, lo: int)
    requires 0 <= hi < 0x10000 && 0 <= lo < 0x10000
    ensures var t := "\\u" + Hex4(hi) + "\\u" + Hex4(lo); |t| == 12 && IsUnit(hi, t[..6]) && IsUnit(lo, t[6..])
  {
    HexIs(hi);
    HexIs(lo);
    var first, second := "\\u" + Hex4(hi), "\\u" + Hex4(lo);
    var t := "\\u" + Hex4(hi) + "\\u" + Hex4(lo);
    assert t == first + second;
    assert t[..6] == first && t[6..] == second;
  }

  lemma EscapeIsPiece(ascii: bool, c: char)
    ensures IsPiece(ascii, c, Escape(ascii, c))
  {
    var n := c as int;
    if n < 0x10000 {
      HexIs(n);
    } else {
      PairIs(0xD800 + (n - 0x10000) / 1024, 0xDC00 + (n - 0x10000) % 1024);
    }
  }

  lemma {:induction false} EscapeAllJoins(ascii: bool, s: string, pieces: seq<string>)
    requires |pieces| == |s| && forall i | 0 <= i < |s| :: pieces[i] == Escape(ascii, s[i])
    ensures EscapeAll(ascii, s) == Joined("", pieces)
  {
    if s != "" {
      EscapeAllJoins(ascii, s[1..], pieces[1..]);
      assert |s| == 1 ==> EscapeAll(ascii, s) == pieces[0] + "" == pieces[0];
      assert pieces[0] + "" == pieces[0];
    }
  }

  lemma QuoteIsQuoted(ascii: bool, s: string)
    ensures IsQuoted(ascii, s, Quote(ascii, s))
  {
    var pieces := seq(|s|, i requires 0 <= i < |s| => Escape(ascii, s[i]));
    forall i | 0 <= i < |s| ensures IsPiece(ascii, s[i], pieces[i]) { EscapeIsPiece(ascii, s[i]); }
    EscapeAllJoins(ascii, s, pieces);
    assert QuotedBy(ascii, s, pieces, Quote(ascii, s));
  }

  lemma NumberIsDecimal(n: int)
    ensures IsDecimal(n, NumberText(n))
  {
    var m := if n < 0 then -n else n;
    DigitsRoundTrip(m);
    NoLeadingZero(m);
    if n < 0 { assert NumberText(n)[1..] == Digits(m); }
  }

  lemma {:induction false} NoLeadingZero(n: nat)
    ensures |Digits(n)| > 1 ==> Digits(n)[0] != '0'
  {
    DigitsRoundTrip(n);
  }

  lemma {:induction false} ItemsJoin(ascii: bool, xs: seq<Json>, parts: seq<string>)
    requires |parts| == |xs| && forall i | 0 <= i < |xs| :: parts[i] == Text(ascii, xs[i])
    ensures ItemsText(ascii, xs) == Joined(",", parts) + "]"
  {
    if |xs| > 1 {
      ItemsJoin(ascii, xs[1..], parts[1..]);
    }
  }

  lemma {:induction false} MembersJoin(ascii: bool, ms: seq<Member>, parts: seq<string>)
    requires |parts| == |ms| && forall i | 0 <= i < |ms| :: parts[i] == MemberText(ascii, ms[i])
    ensures MembersText(ascii, ms) == Joined(",", parts) + "}"
  {
    if |ms| > 1 {
      MembersJoin(ascii, ms[1..], parts[1..]);
    }
  }

  /** The members as they are, in the order in which the printer prints them. */
  function InOrder(ms: seq<Member>): seq<Member> {
    if ms == [] then [] else Insert(ms[0], InOrder(ms[1..]))
  }

  function CanonEach(ms: seq<Member>): seq<Member> {
    seq(|ms|, i requires 0 <= i < |ms| => CanonMember(ms[i]))
  }

  lemma {:induction false} InsertCanon(m: Member, ms: seq<Member>)
    ensures Insert(CanonMember(m), CanonEach(ms)) == CanonEach(Insert(m, ms))
  {
    if ms != [] && !TextLess(m.key, ms[0].key) {
      InsertCanon(m, ms[1..]);
      assert CanonEach(ms)[1..] == CanonEach(ms[1..]);
    }
  }

  lemma {:induction false} InOrderIs(ms: seq<Member>)
    requires DistinctKeys(ms)
    ensures Sorted(InOrder(ms)) && (forall m :: m in InOrder(ms) <==> m in ms)
    ensures CanonMembers(ms) == CanonEach(InOrder(ms))
  {
    if ms != [] {
      InOrderIs(ms[1..]);
      InsertElements(ms[0], InOrder(ms[1..]));
      InsertSorted(ms[0], InOrder(ms[1..]));
      InsertCanon(ms[0], InOrder(ms[1..]));
    }
  }

  lemma ArrayPrints(ascii: bool, items: seq<Json>)
    requires forall i | 0 <= i < |items| :: IsText(ascii, items[i], Text(ascii, Canon(items[i])))
    ensures IsText(ascii, Arr(items), Text(ascii, Canon(Arr(items))))
  {
    var parts := seq(|items|, i requires 0 <= i < |items| => Text(ascii, Canon(items[i])));
    CanonItemsAt(items);
    ItemsJoin(ascii, CanonItems(items), parts);
    assert IsArray(ascii, items, parts, Text(ascii, Canon(Arr(items))));
  }

  lemma MemberPrints(ascii: bool, m: Member)
    requires IsText(ascii, m.value, Text(ascii, Canon(m.value)))
    ensures IsMember(ascii, m, MemberText(ascii, CanonMember(m)))
  {
    QuoteIsQuoted(ascii, m.key);
  }

  lemma ObjectPrints(ascii: bool, ms: seq<Member>)
    requires DistinctKeys(ms) && forall m | m in ms :: IsText(ascii, m.value, Text(ascii, Canon(m.value)))
    ensures IsText(ascii, Obj(ms), Text(ascii, Canon(Obj(ms))))
  {
    var order := InOrder(ms);
    InOrderIs(ms);
    AscendingIsSorted(order);
    var parts := seq(|order|, i requires 0 <= i < |order| => MemberText(ascii, CanonMember(order[i])));
    forall i | 0 <= i < |order| ensures order[i] in ms && IsMember(ascii, order[i], parts[i]) {
      assert order[i] in order;
      MemberPrints(ascii, order[i]);
    }
    MembersJoin(ascii, CanonEach(order), parts);
    assert IsObject(ascii, ms, order, parts, Text(ascii, Canon(Obj(ms))));
  }

  lemma {:induction false} Prints(ascii: bool, v: Json)
    requires WellFormed(v)
    ensures IsText(ascii, v, Text(ascii, Canon(v)))
    decreases v
  {
    match v
    case Num(n) => NumberIsDecimal(n);
    case Str(s) => QuoteIsQuoted(ascii, s);
    case Arr(items) =>
      forall i | 0 <= i < |items| ensures IsText(ascii, items[i], Text(ascii, Canon(items[i]))) { Prints(ascii, items[i]); }
      ArrayPrints(ascii, items);
    case Obj(ms) =>
      forall m | m in ms ensures IsText(ascii, m.value, Text(ascii, Canon(m.value))) { Prints(ascii, m.value); }
      ObjectPrints(ascii, ms);
    case _ =>
  }

  // ---- and no value has two texts ----------------------------------------------------------------------

  lemma {:induction false} DigitsPositive(ds: string)
    requires ds != "" && forall i | 0 <= i < |ds| :: '0' <= ds[i] <= '9'
    ensures DecimalValue(ds) >= 0 && (ds[0] != '0' ==> DecimalValue(ds) > 0)
    decreases |ds|
  {
    if |ds| > 1 { DigitsPositive(ds[..|ds| - 1]); }
  }

  lemma LastDigit(n: nat, ds: string)
    requires AreDigits(n, ds)
    ensures var d := |ds| - 1;
            && DecimalValue(ds[..d]) == n / 10 && ds[d] == ('0' as int + n % 10) as char
            && (d == 0 <==> n < 10) && (d > 0 ==> AreDigits(n / 10, ds[..d]))
  {
    var d := |ds| - 1;
    if d > 0 { DigitsPositive(ds[..d]); }
  }

  lemma {:induction false} OneDecimal(n: nat, ds: string, es: string)
    requires AreDigits(n, ds) && AreDigits(n, es)
    ensures ds == es
    decreases |ds|
  {
    var d, e := |ds| - 1, |es| - 1;
    LastDigit(n, ds);
    LastDigit(n, es);
    assert ds == ds[..d] + [ds[d]] && es == es[..e] + [es[e]];
    if d > 0 { OneDecimal(n / 10, ds[..d], es[..e]); }
  }

  lemma OneQuoted(ascii: bool, s: string, t: string, u: string)
    requires IsQuoted(ascii, s, t) && IsQuoted(ascii, s, u)
    ensures t == u
  {
    var ps :| QuotedBy(ascii, s, ps, t);
    var qs :| QuotedBy(ascii, s, qs, u);
    forall i | 0 <= i < |s| ensures ps[i] == qs[i] { OnePiece(ascii, s[i], ps[i], qs[i]); }
    assert ps == qs;
  }

  lemma OnePiece(ascii: bool, c: char, t: string, u: string)
    requires IsPiece(ascii, c, t) && IsPiece(ascii, c, u)
    ensures t == u
  {
    if ascii && c as int >= 0x10000 { assert t == t[..6] + t[6..] && u == u[..6] + u[6..]; }
  }

  lemma OneNumber(n: int, t: string, u: string)
    requires IsDecimal(n, t) && IsDecimal(n, u)
    ensures t == u
  {
    if n < 0 {
      OneDecimal(-n, t[1..], u[1..]);
      assert t == [t[0]] + t[1..] && u == [u[0]] + u[1..];
    } else {
      OneDecimal(n, t, u);
    }
  }

  lemma {:induction false} OneText(ascii: bool, v: Json, t: string, u: string)
    requires WellFormed(v) && IsText(ascii, v, t) && IsText(ascii, v, u)
    ensures t == u
    decreases v, 1
  {
    match v
    case Num(n) => OneNumber(n, t, u);
    case Str(s) => OneQuoted(ascii, s, t, u);
    case Arr(items) =>
      var ps :| IsArray(ascii, items, ps, t);
      var qs :| IsArray(ascii, items, qs, u);
      forall i | 0 <= i < |items| ensures ps[i] == qs[i] { OneText(ascii, items[i], ps[i], qs[i]); }
      assert ps == qs;
    case Obj(ms) =>
      var xs, ps :| IsObject(ascii, ms, xs, ps, t);
      var ys, qs :| IsObject(ascii, ms, ys, qs, u);
      OneOrder(ascii, ms, xs, ps, t, ys, qs, u);
      forall i | 0 <= i < |xs| ensures ps[i] == qs[i] { OneMember(ascii, xs[i], ps[i], qs[i]); }
      assert ps == qs;
    case _ =>
  }

  lemma OneOrder(ascii: bool, ms: seq<Member>, xs: seq<Member>, ps: seq<string>, t: string,
                 ys: seq<Member>, qs: seq<string>, u: string)
    requires IsObject(ascii, ms, xs, ps, t) && IsObject(ascii, ms, ys, qs, u)
    ensures xs == ys
  {
    AscendingIsSorted(xs);
    AscendingIsSorted(ys);
    SortedUnique(xs, ys);
  }

  lemma {:induction false} OneMember(ascii: bool, m: Member, t: string, u: string)
    requires WellFormed(m.value) && IsMember(ascii, m, t) && IsMember(ascii, m, u)
    ensures t == u
    decreases m, 0
  {
    var k, x :| IsQuoted(ascii, m.key, k) && IsText(ascii, m.value, x) && t == k + ":" + x;
    var l, y :| IsQuoted(ascii, m.key, l) && IsText(ascii, m.value, y) && u == l + ":" + y;
    OneQuoted(ascii, m.key, k, l);
    OneText(ascii, m.value, x, y);
  }

  /** Canonical JSON is exactly this: real Unicode, nothing around the separators, keys in order. */
  lemma CanonicalTextIs(v: Json, t: string)
    requires WellFormed(v)
    ensures t == CanonicalText(v) <==> IsText(false, v, t)
  {
    Prints(false, v);
    if IsText(false, v, t) { OneText(false, v, t, CanonicalText(v)); }
  }

  /** A repeated key takes its last value. */
  lemma {:induction false} LastValueWins(ms: seq<Member>, key: string)
    ensures DistinctKeys(DictOf(ms))
    ensures match Get(DictOf(ms), key)
            case None => forall m | m in ms :: m.key != key
            case Some(v) => exists i | 0 <= i < |ms| :: ms[i] == Member(key, v) && forall j | i < j < |ms| :: ms[j].key != key
    decreases |ms|
  {
    if ms != [] {
      var init, last := ms[..|ms| - 1], ms[|ms| - 1];
      LastValueWins(init, key);
      SetGet(DictOf(init), last.key, last.value);
      if last.key == key {
        assert ms[|ms| - 1] == Member(key, last.value);
      } else if Get(DictOf(ms), key).Some? {
        var i :| 0 <= i < |init| && init[i] == Member(key, Get(DictOf(ms), key).value) && forall j | i < j < |init| :: init[j].key != key;
        assert ms[i] == init[i];
        forall j | i < j < |ms| ensures ms[j].key != key {
          if j < |init| { assert ms[j] == init[j]; }
        }
      }
    }
  }
}
