/** What canonical_json is for: the text determines the value, and the value the text. */
module JsonRoundTrip {
  import opened Prelude
  import opened CanonicalJson

  // ---- strings -------------------------------------------------------------------

  lemma HexDigitRoundTrip(d: int)
    requires 0 <= d < 16
    ensures HexValue(HexDigit(d)) == Some(d)
  {
  }

  lemma HexPlaces(n: int)
    requires 0 <= n < 0x10000
    ensures n == ((n / 4096 * 16 + n / 256 % 16) * 16 + n / 16 % 16) * 16 + n % 16
  {
    assert n / 256 / 16 == n / 4096;
    assert n / 16 / 16 == n / 256;
  }

  lemma ReadFourHexDigits(a: int, b: int, c: int, d: int, t: string)
    requires 0 <= a < 16 && 0 <= b < 16 && 0 <= c < 16 && 0 <= d < 16
    ensures ReadHex4([HexDigit(a), HexDigit(b), HexDigit(c), HexDigit(d)] + t)
         == Some(((a * 16 + b) * 16 + c) * 16 + d)
  {
    HexDigitRoundTrip(a);
    HexDigitRoundTrip(b);
    HexDigitRoundTrip(c);
    HexDigitRoundTrip(d);
  }

  lemma Hex4RoundTrip(n: int, t: string)
    requires 0 <= n < 0x10000
    ensures ReadHex4(Hex4(n) + t) == Some(n)
    ensures (Hex4(n) + t)[4..] == t
  {
    HexPlaces(n);
    ReadFourHexDigits(n / 4096, n / 256 % 16, n / 16 % 16, n % 16, t);
  }

  lemma UnicodeEscapeRoundTrip(n: int, t: string)
    requires 0 <= n < 0xD800 || 0xE000 <= n < 0x10000
    ensures ReadEscape("u" + Hex4(n) + t) == Some((n as char, t))
  {
    var s := "u" + Hex4(n) + t;
    assert s[1..] == Hex4(n) + t;
    Hex4RoundTrip(n, t);
    assert s[5..] == (Hex4(n) + t)[4..];
  }

  lemma ReadSurrogatePair(s: string, hi: int, lo: int, tail: string, t: string)
    requires 0xD800 <= hi < 0xDC00 && 0xDC00 <= lo < 0xE000
    requires |s| >= 5 && s[0] == 'u' && ReadHex4(s[1..]) == Some(hi) && s[5..] == "\\u" + tail
    requires ReadHex4(tail) == Some(lo) && tail[4..] == t
    ensures ReadEscape(s) == Some(((0x10000 + (hi - 0xD800) * 1024 + (lo - 0xDC00)) as char, t))
  {
    assert s[5..][0] == '\\' && s[5..][1] == 'u';
    assert s[7..] == s[5..][2..] == tail;
    assert s[11..] == s[7..][4..];
  }

  lemma SurrogatePairRoundTrip(n: int, t: string)
    requires 0x10000 <= n < 0x110000
    ensures ReadEscape("u" + Hex4(0xD800 + (n - 0x10000) / 1024)
                       + "\\u" + Hex4(0xDC00 + (n - 0x10000) % 1024) + t) == Some((n as char, t))
  {
    var hi, lo := 0xD800 + (n - 0x10000) / 1024, 0xDC00 + (n - 0x10000) % 1024;
    var rest := "\\u" + (Hex4(lo) + t);
    var s := "u" + Hex4(hi) + "\\u" + Hex4(lo) + t;
    assert s[1..] == Hex4(hi) + rest;
    Hex4RoundTrip(hi, rest);
    assert s[5..] == (Hex4(hi) + rest)[4..];
    Hex4RoundTrip(lo, t);
    ReadSurrogatePair(s, hi, lo, Hex4(lo) + t, t);
  }

  lemma EscapeRoundTrip(ascii: bool, c: char, t: string)
    ensures ReadChar(Escape(ascii, c) + t) == Some((c, t))
    ensures Escape(ascii, c) != "" && Escape(ascii, c)[0] != '"'
  {
    var n := c as int;
    var e := Escape(ascii, c);
    assert (e + t)[1..] == e[1..] + t;
    if c == '"' || c == '\\' || c == '\n' || c == '\r' || c == '\t' || n == 8 || n == 12 {
      assert (e[1..] + t)[1..] == t;
    } else if n < 32 || (ascii && 126 < n < 0x10000) {
      UnicodeEscapeRoundTrip(n, t);
      assert e[1..] + t == "u" + Hex4(n) + t;
    } else if ascii && n > 126 {
      SurrogatePairRoundTrip(n, t);
      assert e[1..] + t == "u" + Hex4(0xD800 + (n - 0x10000) / 1024)
                         + "\\u" + Hex4(0xDC00 + (n - 0x10000) % 1024) + t;
    } else {
      assert e == [c];
      assert (e + t)[1..] == t;
    }
  }

  /** Every string comes back from its quoted form, whatever it holds. */
  lemma {:induction false} StringRoundTrip(ascii: bool, s: string, rest: string)
    ensures ReadString(EscapeAll(ascii, s) + "\"" + rest) == Some((s, rest))
    decreases |s|
  {
    var text := EscapeAll(ascii, s) + "\"" + rest;
    if s == "" {
      assert text == "\"" + rest;
    } else {
      var tail := EscapeAll(ascii, s[1..]) + "\"" + rest;
      assert text == Escape(ascii, s[0]) + tail;
      EscapeRoundTrip(ascii, s[0], tail);
      assert text[0] == Escape(ascii, s[0])[0];
      StringRoundTrip(ascii, s[1..], rest);
      assert [s[0]] + s[1..] == s;
    }
  }

  // ---- integers ------------------------------------------------------------------

  lemma {:induction false} DigitsRoundTrip(n: nat)
    ensures |Digits(n)| > 0 && DigitRun(Digits(n)) == |Digits(n)|
    ensures DecimalValue(Digits(n)) == n
    ensures Digits(n)[0] == '0' ==> n == 0
    ensures forall i | 0 <= i < |Digits(n)| :: IsDigit(Digits(n)[i])
  {
    if n < 10 {
      assert Digits(n)[..0] == "" && DecimalValue("") == 0;
      assert DigitRun(Digits(n)[1..]) == 0;
    } else {
      DigitsRoundTrip(n / 10);
      var ds := Digits(n);
      assert ds[..|ds| - 1] == Digits(n / 10);
      AllDigitsRun(ds, "");
      assert ds + "" == ds;
    }
  }

  lemma {:induction false} AllDigitsRun(ds: string, rest: string)
    requires forall i | 0 <= i < |ds| :: IsDigit(ds[i])
    requires rest == "" || !IsDigit(rest[0])
    ensures DigitRun(ds + rest) == |ds|
  {
    if ds == "" {
      assert ds + rest == rest;
    } else {
      assert (ds + rest)[1..] == ds[1..] + rest;
      AllDigitsRun(ds[1..], rest);
    }
  }

  /** What may follow a value inside a document. */
  predicate Delimited(rest: string) {
    rest == "" || rest[0] == ',' || rest[0] == ']' || rest[0] == '}' || IsSpace(rest[0])
  }

  lemma NaturalRoundTrip(n: nat, rest: string)
    requires Delimited(rest)
    ensures ReadDigits(Digits(n) + rest) == Some((n, rest))
  {
    var ds := Digits(n);
    DigitsRoundTrip(n);
    AllDigitsRun(ds, rest);
    assert ds[0] == '0' ==> |ds| == 1;
    assert (ds + rest)[..|ds|] == ds && (ds + rest)[|ds|..] == rest;
  }

  lemma NumberStart(n: int)
    ensures NumberText(n)[0] == '-' || IsDigit(NumberText(n)[0])
  {
    DigitsRoundTrip(if n < 0 then -n else n);
  }

  lemma NumberRoundTrip(n: int, rest: string)
    requires Delimited(rest)
    ensures ReadNumber(NumberText(n) + rest) == Some((Num(n), rest))
  {
    var m := if n < 0 then -n else n;
    var t := Digits(m) + rest;
    NaturalRoundTrip(m, rest);
    DigitsRoundTrip(m);
    assert t[0] == Digits(m)[0];
    if n < 0 {
      assert NumberText(n) + rest == "-" + t;
      ReadSigned("-" + t, t, -n, rest);
    }
  }

  lemma ReadSigned(s: string, t: string, m: int, rest: string)
    requires s == "-" + t && ReadDigits(t) == Some((m, rest))
    ensures ReadNumber(s) == Some((Num(-m), rest))
  {
    assert s[1..] == t;
  }

  // ---- values --------------------------------------------------------------------

  lemma {:induction false} SetAppends(ms: seq<Member>, m: Member)
    requires forall x | x in ms :: x.key != m.key
    ensures Set(ms, m.key, m.value) == ms + [m]
  {
    if ms != [] {
      SetAppends(ms[1..], m);
      assert [ms[0]] + (ms[1..] + [m]) == ms + [m];
    }
  }

  lemma {:induction false} DictOfDistinct(ms: seq<Member>)
    requires DistinctKeys(ms)
    ensures DictOf(ms) == ms
  {
    if ms != [] {
      var init := ms[..|ms| - 1];
      DictOfDistinct(init);
      SetAppends(init, ms[|ms| - 1]);
      assert init + [ms[|ms| - 1]] == ms;
    }
  }

  lemma TextStart(ascii: bool, v: Json)
    ensures var t := Text(ascii, v); t != "" && !IsSpace(t[0]) && t[0] != ']' && t[0] != '}'
  {
    if v.Num? { NumberStart(v.n); }
  }

  // One step of each reader, so that the round trips below never unfold two at once.

  lemma ReadLastItem(s: string, v: Json, rest: string)
    requires ReadValue(s) == Some((v, "]" + rest))
    ensures ReadItems(s) == Some(([v], rest))
  {
    assert ("]" + rest)[1..] == rest;
  }

  lemma ReadNextItem(s: string, v: Json, t: string, vs: seq<Json>, rest: string)
    requires ReadValue(s) == Some((v, "," + t))
    requires Skip(t) == t && ReadItems(t) == Some((vs, rest))
    ensures ReadItems(s) == Some(([v] + vs, rest))
  {
    assert ("," + t)[1..] == t;
  }

  lemma ReadLastMember(s: string, m: Member, rest: string)
    requires ReadMember(s) == Some((m, "}" + rest))
    ensures ReadMembers(s) == Some(([m], rest))
  {
    assert ("}" + rest)[1..] == rest;
  }

  lemma ReadNextMember(s: string, m: Member, t: string, ms: seq<Member>, rest: string)
    requires ReadMember(s) == Some((m, "," + t))
    requires Skip(t) == t && ReadMembers(t) == Some((ms, rest))
    ensures ReadMembers(s) == Some(([m] + ms, rest))
  {
    assert ("," + t)[1..] == t;
  }

  lemma ReadKeyAndValue(s: string, q: string, key: string, t: string, v: Json, rest: string)
    requires s == "\"" + q && ReadString(q) == Some((key, ":" + t))
    requires Skip(t) == t && ReadValue(t) == Some((v, rest))
    ensures ReadMember(s) == Some((Member(key, v), rest))
  {
    assert s[1..] == q;
    assert (":" + t)[1..] == t;
  }

  lemma ReadArray(s: string, t: string, xs: seq<Json>, rest: string)
    requires s == "[" + t && t != "" && !IsSpace(t[0])
    requires if xs == [] then t == "]" + rest else t[0] != ']' && ReadItems(t) == Some((xs, rest))
    ensures ReadValue(s) == Some((Arr(xs), rest))
  {
    assert s[1..] == t;
    if xs == [] { assert t[1..] == rest; }
  }

  lemma ReadObject(s: string, t: string, ms: seq<Member>, rest: string)
    requires s == "{" + t && t != "" && !IsSpace(t[0]) && DistinctKeys(ms)
    requires if ms == [] then t == "}" + rest else t[0] != '}' && ReadMembers(t) == Some((ms, rest))
    ensures ReadValue(s) == Some((Obj(ms), rest))
  {
    assert s[1..] == t;
    DictOfDistinct(ms);
    if ms == [] { assert t[1..] == rest; }
  }

  lemma LiteralRoundTrip(ascii: bool, v: Json, rest: string)
    requires v.Null? || v.Bool?
    ensures ReadValue(Text(ascii, v) + rest) == Some((v, rest))
  {
    var s := Text(ascii, v) + rest;
    assert s[(if v == Bool(false) then 5 else 4)..] == rest;
  }

  lemma NumberValueRoundTrip(n: int, rest: string)
    requires Delimited(rest)
    ensures ReadValue(NumberText(n) + rest) == Some((Num(n), rest))
  {
    NumberStart(n);
    NumberRoundTrip(n, rest);
    assert (NumberText(n) + rest)[0] == NumberText(n)[0];
  }

  lemma TextValueRoundTrip(ascii: bool, x: string, rest: string)
    ensures ReadValue(Quote(ascii, x) + rest) == Some((Str(x), rest))
  {
    assert (Quote(ascii, x) + rest)[1..] == EscapeAll(ascii, x) + "\"" + rest;
    StringRoundTrip(ascii, x, rest);
  }

  lemma TextUnfolds(ascii: bool, v: Json, rest: string)
    ensures v.Arr? ==> Text(ascii, v) + rest == "[" + (ItemsText(ascii, v.items) + rest)
    ensures v.Obj? ==> Text(ascii, v) + rest == "{" + (MembersText(ascii, v.members) + rest)
    ensures v.Num? ==> Text(ascii, v) == NumberText(v.n)
    ensures v.Str? ==> Text(ascii, v) == Quote(ascii, v.s)
  {
  }

  /** Reading back the printed form of a value gives the value, in any context. */
  lemma {:induction false} ValueRoundTrip(ascii: bool, v: Json, rest: string)
    requires WellFormed(v) && Delimited(rest)
    ensures ReadValue(Text(ascii, v) + rest) == Some((v, rest))
    decreases v, 1
  {
    TextUnfolds(ascii, v, rest);
    match v
    case Arr(items) =>
      ArrayRoundTrip(ascii, items, rest);
    case Obj(ms) =>
      ObjectRoundTrip(ascii, ms, rest);
    case Num(n) =>
      NumberValueRoundTrip(n, rest);
    case Str(x) =>
      TextValueRoundTrip(ascii, x, rest);
    case _ =>
      LiteralRoundTrip(ascii, v, rest);
  }

  lemma {:induction false} ArrayRoundTrip(ascii: bool, items: seq<Json>, rest: string)
    requires (forall x | x in items :: WellFormed(x)) && Delimited(rest)
    ensures ReadValue("[" + (ItemsText(ascii, items) + rest)) == Some((Arr(items), rest))
    decreases items, 1
  {
    var t := ItemsText(ascii, items) + rest;
    if items != [] {
      ItemsTextStart(ascii, items);
      ItemsRoundTrip(ascii, items, rest);
    }
    ReadArray("[" + t, t, items, rest);
  }

  lemma {:induction false} ObjectRoundTrip(ascii: bool, ms: seq<Member>, rest: string)
    requires DistinctKeys(ms) && (forall m | m in ms :: WellFormed(m.value)) && Delimited(rest)
    ensures ReadValue("{" + (MembersText(ascii, ms) + rest)) == Some((Obj(ms), rest))
    decreases ms, 1
  {
    var t := MembersText(ascii, ms) + rest;
    if ms != [] {
      MembersTextStart(ascii, ms);
      MembersRoundTrip(ascii, ms, rest);
    }
    ReadObject("{" + t, t, ms, rest);
  }

  lemma ItemsTextStart(ascii: bool, xs: seq<Json>)
    requires xs != []
    ensures ItemsText(ascii, xs) != ""
    ensures ItemsText(ascii, xs)[0] != ']' && !IsSpace(ItemsText(ascii, xs)[0])
  {
    TextStart(ascii, xs[0]);
    assert ItemsText(ascii, xs)[0] == Text(ascii, xs[0])[0];
  }

  lemma ItemsTextLast(ascii: bool, x: Json, rest: string)
    ensures ItemsText(ascii, [x]) + rest == Text(ascii, x) + ("]" + rest)
  {
  }

  lemma ItemsTextNext(ascii: bool, xs: seq<Json>, rest: string)
    requires |xs| > 1
    ensures ItemsText(ascii, xs) + rest
         == Text(ascii, xs[0]) + ("," + (ItemsText(ascii, xs[1..]) + rest))
  {
  }

  lemma {:induction false} ItemsRoundTrip(ascii: bool, xs: seq<Json>, rest: string)
    requires xs != [] && forall x | x in xs :: WellFormed(x)
    ensures ReadItems(ItemsText(ascii, xs) + rest) == Some((xs, rest))
    decreases xs, 0
  {
    var x := xs[0];
    if |xs| == 1 {
      assert xs == [x];
      ValueRoundTrip(ascii, x, "]" + rest);
      ItemsTextLast(ascii, x, rest);
      ReadLastItem(ItemsText(ascii, xs) + rest, x, rest);
    } else {
      var t := ItemsText(ascii, xs[1..]) + rest;
      ValueRoundTrip(ascii, x, "," + t);
      ItemsTextStart(ascii, xs[1..]);
      ItemsRoundTrip(ascii, xs[1..], rest);
      ItemsTextNext(ascii, xs, rest);
      ReadNextItem(ItemsText(ascii, xs) + rest, x, t, xs[1..], rest);
      assert [x] + xs[1..] == xs;
    }
  }

  lemma MemberTextSplit(ascii: bool, m: Member, rest: string)
    ensures MemberText(ascii, m) + rest
         == "\"" + (EscapeAll(ascii, m.key) + "\"" + (":" + (Text(ascii, m.value) + rest)))
  {
  }

  lemma {:induction false} MemberRoundTrip(ascii: bool, m: Member, rest: string)
    requires WellFormed(m.value) && Delimited(rest)
    ensures ReadMember(MemberText(ascii, m) + rest) == Some((m, rest))
    decreases m, 0
  {
    var t := Text(ascii, m.value) + rest;
    StringRoundTrip(ascii, m.key, ":" + t);
    TextStart(ascii, m.value);
    ValueRoundTrip(ascii, m.value, rest);
    MemberTextSplit(ascii, m, rest);
    ReadKeyAndValue(MemberText(ascii, m) + rest, EscapeAll(ascii, m.key) + "\"" + (":" + t), m.key, t, m.value, rest);
  }

  lemma MembersTextStart(ascii: bool, ms: seq<Member>)
    requires ms != []
    ensures MembersText(ascii, ms) != "" && MembersText(ascii, ms)[0] == '"'
  {
    assert MemberText(ascii, ms[0])[0] == '"';
  }

  lemma MembersTextLast(ascii: bool, m: Member, rest: string)
    ensures MembersText(ascii, [m]) + rest == MemberText(ascii, m) + ("}" + rest)
  {
  }

  lemma MembersTextNext(ascii: bool, ms: seq<Member>, rest: string)
    requires |ms| > 1
    ensures MembersText(ascii, ms) + rest
         == MemberText(ascii, ms[0]) + ("," + (MembersText(ascii, ms[1..]) + rest))
  {
  }

  lemma {:induction false} MembersRoundTrip(ascii: bool, ms: seq<Member>, rest: string)
    requires ms != [] && forall m | m in ms :: WellFormed(m.value)
    ensures ReadMembers(MembersText(ascii, ms) + rest) == Some((ms, rest))
    decreases ms, 0
  {
    var m := ms[0];
    if |ms| == 1 {
      assert ms == [m];
      MemberRoundTrip(ascii, m, "}" + rest);
      MembersTextLast(ascii, m, rest);
      ReadLastMember(MembersText(ascii, ms) + rest, m, rest);
    } else {
      var t := MembersText(ascii, ms[1..]) + rest;
      MemberRoundTrip(ascii, m, "," + t);
      MembersTextStart(ascii, ms[1..]);
      MembersRoundTrip(ascii, ms[1..], rest);
      MembersTextNext(ascii, ms, rest);
      ReadNextMember(MembersText(ascii, ms) + rest, m, t, ms[1..], rest);
      assert [m] + ms[1..] == ms;
    }
  }

  /** `json.loads(json.dumps(v)) == v`, for every value and either `ensure_ascii`. */
  lemma DocumentRoundTrip(ascii: bool, v: Json)
    requires WellFormed(v)
    ensures Loads(Text(ascii, v)) == Some(v)
  {
    TextStart(ascii, v);
    assert Text(ascii, v) + "" == Text(ascii, v);
    ValueRoundTrip(ascii, v, "");
  }

  // ---- what a document may have around it ------------------------------------------------------

  predicate AllSpace(s: string) {
    forall i | 0 <= i < |s| :: s[i] == ' ' || s[i] == '\t' || s[i] == '\n' || s[i] == '\r'
  }

  lemma {:induction false} SkipsSpace(before: string, s: string)
    requires AllSpace(before) && (s == "" || !IsSpace(s[0]))
    ensures Skip(before + s) == s
  {
    if before == "" {
      assert before + s == s;
    } else {
      assert (before + s)[1..] == before[1..] + s;
      SkipsSpace(before[1..], s);
    }
  }

  lemma {:induction false} SkipLeavesNothing(s: string)
    ensures Skip(s) == "" <==> AllSpace(s)
  {
    if s != "" && IsSpace(s[0]) { SkipLeavesNothing(s[1..]); }
  }

  /** A document is one value with white space around it; with anything else after it, it is none. */
  lemma OneDocument(ascii: bool, v: Json, before: string, after: string)
    requires WellFormed(v) && AllSpace(before) && Delimited(after)
    ensures Loads(before + Text(ascii, v) + after) == if AllSpace(after) then Some(v) else None
  {
    var t := Text(ascii, v) + after;
    TextStart(ascii, v);
    assert before + Text(ascii, v) + after == before + t;
    SkipsSpace(before, t);
    ValueRoundTrip(ascii, v, after);
    SkipLeavesNothing(after);
  }
}
