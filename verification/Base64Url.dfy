/** Unpadded base64url (section 5 of RFC 4648), as `_b64encode` and `_b64decode` use it.

    The decoder is Python's `binascii.a2b_base64` in its default, lenient mode, which is
    what `urlsafe_b64decode` calls: characters outside the alphabet are skipped, and a
    complete pad ends the input. */
module Base64Url {
  import opened Prelude

  type Byte = x: int | 0 <= x < 256

  // ---- the alphabet ------------------------------------------------------------------

  function Letter(v: int): char
    requires 0 <= v < 64
  {
    if v < 26 then ('A' as int + v) as char
    else if v < 52 then ('a' as int + (v - 26)) as char
    else if v < 62 then ('0' as int + (v - 52)) as char
    else if v == 62 then '-'
    else '_'
  }

  /** `urlsafe_b64decode` maps '-' and '_' onto '+' and '/', which stay legal themselves. */
  function Value(c: char): (r: Option<int>)
    ensures r.Some? ==> 0 <= r.value < 64
  {
    if 'A' <= c <= 'Z' then Some(c as int - 'A' as int)
    else if 'a' <= c <= 'z' then Some(c as int - 'a' as int + 26)
    else if '0' <= c <= '9' then Some(c as int - '0' as int + 52)
    else if c == '-' || c == '+' then Some(62)
    else if c == '_' || c == '/' then Some(63)
    else None
  }

  // ---- encoding ----------------------------------------------------------------------

  /** `urlsafe_b64encode`: three bytes to four letters, the last group padded with '='. */
  function EncodePadded(raw: seq<Byte>): string {
    if |raw| == 0 then ""
    else if |raw| == 1 then
      [Letter(raw[0] / 4), Letter(raw[0] % 4 * 16), '=', '=']
    else if |raw| == 2 then
      [Letter(raw[0] / 4), Letter(raw[0] % 4 * 16 + raw[1] / 16), Letter(raw[1] % 16 * 4), '=']
    else Group(raw[0], raw[1], raw[2]) + EncodePadded(raw[3..])
  }

  function Group(a: Byte, b: Byte, c: Byte): (letters: string)
    ensures |letters| == 4
  {
    [Letter(a / 4), Letter(a % 4 * 16 + b / 16), Letter(b % 16 * 4 + c / 64), Letter(c % 64)]
  }

  /** `.rstrip("=")`. */
  function StripPad(s: string): string {
    if s != "" && s[|s| - 1] == '=' then StripPad(s[..|s| - 1]) else s
  }

  function Encode(raw: seq<Byte>): string {
    StripPad(EncodePadded(raw))
  }

  // ---- decoding ----------------------------------------------------------------------

  /** One pass of the decoder. `quad` letters of the current group have been read, `left` holds
      their bits that are not out yet, `pads` counts the '=' signs just seen. */
  function Scan(s: string, quad: int, left: int, pads: nat): (r: Option<seq<Byte>>)
    requires 0 <= quad < 4
    requires quad == 0 ==> left == 0
    requires quad == 1 ==> 0 <= left < 64
    requires quad == 2 ==> 0 <= left < 16
    requires quad == 3 ==> 0 <= left < 4
    decreases |s|
  {
    if s == "" then if quad == 0 then Some([]) else None
    else if s[0] == '=' then
      if quad >= 2 && quad + pads + 1 >= 4 then Some([])
      else Scan(s[1..], quad, left, if quad >= 2 then pads + 1 else pads)
    else
      match Value(s[0])
      case None => Scan(s[1..], quad, left, pads)
      case Some(v) =>
        if quad == 0 then Scan(s[1..], 1, v, 0)
        else if quad == 1 then Prepend(left * 4 + v / 16, Scan(s[1..], 2, v % 16, 0))
        else if quad == 2 then Prepend(left * 16 + v / 4, Scan(s[1..], 3, v % 4, 0))
        else Prepend(left * 64 + v, Scan(s[1..], 0, 0, 0))
  }

  function Prepend(b: Byte, rest: Option<seq<Byte>>): Option<seq<Byte>> {
    match rest
    case None => None
    case Some(bs) => Some([b] + bs)
  }

  /** How many '=' signs `"=" * (-len(segment) % 4)` puts back. */
  function PadLength(n: nat): nat {
    (4 - n % 4) % 4
  }

  function Pad(n: nat): string {
    seq(n, _ => '=')
  }

  /** `_b64decode`; nothing when the code raises `MalformedToken`. */
  function Decode(segment: string): Option<seq<Byte>> {
    Scan(segment + Pad(PadLength(|segment|)), 0, 0, 0)
  }

  // ---- round trip ----------------------------------------------------------------------

  /** A character of a stripped segment: neither pad nor separator, and printable ASCII. */
  predicate IsPlain(c: char) {
    c != '=' && c != '.' && 33 <= c as int < 127
  }

  predicate AllPlain(s: string) {
    forall i | 0 <= i < |s| :: IsPlain(s[i])
  }

  lemma LetterValue(v: int)
    requires 0 <= v < 64
    ensures Value(Letter(v)) == Some(v) && IsPlain(Letter(v))
  {
  }

  lemma ScanShort(raw: seq<Byte>)
    requires |raw| < 3
    ensures Scan(EncodePadded(raw), 0, 0, 0) == Some(raw)
  {
    if |raw| == 1 {
      ScanOne(raw[0]);
      assert raw == [raw[0]];
    } else if |raw| == 2 {
      ScanTwo(raw[0], raw[1]);
      assert raw == [raw[0], raw[1]];
    }
  }

  lemma {:induction false} ScanPadded(raw: seq<Byte>)
    ensures Scan(EncodePadded(raw), 0, 0, 0) == Some(raw)
  {
    if |raw| < 3 {
      ScanShort(raw);
    } else {
      ScanThree(raw[0], raw[1], raw[2], EncodePadded(raw[3..]));
      ScanPadded(raw[3..]);
      assert raw == [raw[0]] + ([raw[1]] + ([raw[2]] + raw[3..]));
    }
  }

  lemma ScanLetter(v: int, t: string, quad: int, left: int)
    requires 0 <= v < 64 && 0 <= quad < 4
    requires quad == 0 ==> left == 0
    requires quad == 1 ==> 0 <= left < 64
    requires quad == 2 ==> 0 <= left < 16
    requires quad == 3 ==> 0 <= left < 4
    ensures quad == 0 ==> Scan([Letter(v)] + t, 0, 0, 0) == Scan(t, 1, v, 0)
    ensures quad == 1 ==> Scan([Letter(v)] + t, 1, left, 0) == Prepend(left * 4 + v / 16, Scan(t, 2, v % 16, 0))
    ensures quad == 2 ==> Scan([Letter(v)] + t, 2, left, 0) == Prepend(left * 16 + v / 4, Scan(t, 3, v % 4, 0))
    ensures quad == 3 ==> Scan([Letter(v)] + t, 3, left, 0) == Prepend(left * 64 + v, Scan(t, 0, 0, 0))
  {
    LetterValue(v);
    assert ([Letter(v)] + t)[1..] == t;
  }

  /** Splitting a byte between two letters loses nothing. */
  lemma Bits(high: int, low: int)
    requires 0 <= high < 16 && 0 <= low < 16
    ensures (high * 16 + low) / 16 == high && (high * 16 + low) % 16 == low
    ensures low < 4 ==> (high * 4 + low) / 4 == high && (high * 4 + low) % 4 == low
    ensures high * 16 / 16 == high && high * 16 % 16 == 0 && high * 4 / 4 == high && high * 4 % 4 == 0
  {
  }

  lemma ScanOne(a: Byte)
    ensures Scan([Letter(a / 4), Letter(a % 4 * 16), '=', '='], 0, 0, 0) == Some([a])
  {
    var pad := "==";
    var t := [Letter(a % 4 * 16)] + pad;
    assert [Letter(a / 4), Letter(a % 4 * 16), '=', '='] == [Letter(a / 4)] + t;
    ScanLetter(a / 4, t, 0, 0);
    Bits(a % 4, 0);
    ScanSecond(a / 4, a % 4 * 16, pad, a);
    assert pad[1..] == "=";
    assert Scan("=", 2, 0, 1) == Some([]);
    assert Scan(pad, 2, 0, 0) == Scan("=", 2, 0, 1);
    assert [a] + [] == [a];
  }

  lemma ScanTwo(a: Byte, b: Byte)
    ensures Scan([Letter(a / 4), Letter(a % 4 * 16 + b / 16), Letter(b % 16 * 4), '='], 0, 0, 0) == Some([a, b])
  {
    var pad := "=";
    var u := [Letter(b % 16 * 4)] + pad;
    var t := [Letter(a % 4 * 16 + b / 16)] + u;
    assert [Letter(a / 4), Letter(a % 4 * 16 + b / 16), Letter(b % 16 * 4), '='] == [Letter(a / 4)] + t;
    ScanLetter(a / 4, t, 0, 0);
    Bits(a % 4, b / 16);
    Bits(b % 16, 0);
    ScanSecond(a / 4, a % 4 * 16 + b / 16, u, a);
    ScanThird(b / 16, b % 16 * 4, pad, b);
    assert Scan(pad, 3, 0, 0) == Some([]);
    assert [a] + ([b] + []) == [a, b];
  }

  lemma ScanThree(a: Byte, b: Byte, c: Byte, rest: string)
    ensures Scan(Group(a, b, c) + rest, 0, 0, 0)
         == Prepend(a, Prepend(b, Prepend(c, Scan(rest, 0, 0, 0))))
  {
    var x, y, z := a % 4 * 16 + b / 16, b % 16 * 4 + c / 64, c % 64;
    Bits(a % 4, b / 16);
    Bits(b % 16, c / 64);
    var v := [Letter(z)] + rest;
    var u := [Letter(y)] + v;
    var t := [Letter(x)] + u;
    assert Group(a, b, c) + rest == [Letter(a / 4)] + t;
    ScanLetter(a / 4, t, 0, 0);
    ScanSecond(a / 4, x, u, a);
    ScanThird(b / 16, y, v, b);
    ScanFourth(c / 64, z, rest, c);
  }

  lemma ScanSecond(left: int, x: int, t: string, a: Byte)
    requires 0 <= left < 64 && 0 <= x < 64 && left * 4 + x / 16 == a
    ensures Scan([Letter(x)] + t, 1, left, 0) == Prepend(a, Scan(t, 2, x % 16, 0))
  {
    ScanLetter(x, t, 1, left);
  }

  lemma ScanThird(left: int, y: int, t: string, b: Byte)
    requires 0 <= left < 16 && 0 <= y < 64 && left * 16 + y / 4 == b
    ensures Scan([Letter(y)] + t, 2, left, 0) == Prepend(b, Scan(t, 3, y % 4, 0))
  {
    ScanLetter(y, t, 2, left);
  }

  lemma ScanFourth(left: int, z: int, t: string, c: Byte)
    requires 0 <= left < 4 && 0 <= z < 64 && left * 64 + z == c
    ensures Scan([Letter(z)] + t, 3, left, 0) == Prepend(c, Scan(t, 0, 0, 0))
  {
    ScanLetter(z, t, 3, left);
  }

  function PadCount(n: nat): nat {
    (3 - n % 3) % 3
  }

  /** The last, incomplete group. */
  lemma ShortGroup(raw: seq<Byte>) returns (body: string)
    requires |raw| < 3
    ensures EncodePadded(raw) == body + Pad(PadCount(|raw|))
    ensures AllPlain(body) && |body| == if raw == [] then 0 else |raw| + 1
  {
    if |raw| == 0 {
      body := "";
    } else if |raw| == 1 {
      LetterValue(raw[0] / 4);
      LetterValue(raw[0] % 4 * 16);
      body := [Letter(raw[0] / 4), Letter(raw[0] % 4 * 16)];
      assert Pad(2) == "==";
    } else {
      LetterValue(raw[0] / 4);
      LetterValue(raw[0] % 4 * 16 + raw[1] / 16);
      LetterValue(raw[1] % 16 * 4);
      body := [Letter(raw[0] / 4), Letter(raw[0] % 4 * 16 + raw[1] / 16), Letter(raw[1] % 16 * 4)];
      assert Pad(1) == "=";
    }
  }

  /** The padded text is a run of alphabet letters and then exactly the pad. */
  lemma {:induction false} PaddedShape(raw: seq<Byte>) returns (body: string)
    ensures EncodePadded(raw) == body + Pad(PadCount(|raw|))
    ensures AllPlain(body) && (|body| + PadCount(|raw|)) % 4 == 0
    ensures raw == [] <==> body == ""
  {
    if |raw| < 3 {
      body := ShortGroup(raw);
    } else {
      var rest := PaddedShape(raw[3..]);
      var group := Group(raw[0], raw[1], raw[2]);
      GroupPlain(raw[0], raw[1], raw[2]);
      body := group + rest;
      PadPeriod(|raw|, |rest|);
      assert group + (rest + Pad(PadCount(|raw|))) == body + Pad(PadCount(|raw|));
    }
  }

  lemma PadPeriod(n: nat, m: nat)
    requires n >= 3
    ensures PadCount(n - 3) == PadCount(n) && (4 + m + PadCount(n)) % 4 == (m + PadCount(n)) % 4
  {
  }

  lemma GroupPlain(a: Byte, b: Byte, c: Byte)
    ensures AllPlain(Group(a, b, c))
  {
    LetterValue(a / 4);
    LetterValue(a % 4 * 16 + b / 16);
    LetterValue(b % 16 * 4 + c / 64);
    LetterValue(c % 64);
  }

  lemma {:induction false} StripPadExactly(s: string, k: nat)
    requires AllPlain(s)
    ensures StripPad(s + Pad(k)) == s
  {
    if k == 0 {
      assert s + Pad(0) == s;
    } else {
      assert (s + Pad(k))[..|s + Pad(k)| - 1] == s + Pad(k - 1);
      StripPadExactly(s, k - 1);
    }
  }

  /** Stripping the pad and putting back `-len % 4` signs restores the padded text, for every
      number of bytes; and what is left has no '=' and no '.'. */
  lemma PaddingRestored(raw: seq<Byte>)
    ensures Encode(raw) + Pad(PadLength(|Encode(raw)|)) == EncodePadded(raw)
    ensures AllPlain(Encode(raw))
    ensures raw == [] <==> Encode(raw) == ""
  {
    var body := PaddedShape(raw);
    StripPadExactly(body, PadCount(|raw|));
    PadRecomputed(|body|, PadCount(|raw|));
  }

  lemma PadRecomputed(n: nat, k: nat)
    requires (n + k) % 4 == 0 && k < 3
    ensures PadLength(n) == k
  {
    assert n % 4 == (4 - k) % 4;
  }

  /** `_b64decode(_b64encode(raw)) == raw`, for every byte string. */
  lemma RoundTrip(raw: seq<Byte>)
    ensures Decode(Encode(raw)) == Some(raw)
  {
    PaddingRestored(raw);
    ScanPadded(raw);
  }
}
