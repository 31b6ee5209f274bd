/** What `json.loads` makes of bytes: it guesses the encoding, then decodes, letting lone
    surrogates through (`surrogatepass`). */
module Utf {
  import opened Prelude
  import Base64Url

  type Byte = Base64Url.Byte

  /** A Unicode code point, surrogates included. */
  type Point = x: int | 0 <= x <= 0x10FFFF

  // ---- UTF-8 (section 3 of RFC 3629, but for surrogates) -----------------------------------

  function EncodePoint(p: Point): (bs: seq<Byte>)
    ensures 1 <= |bs| <= 4
  {
    if p < 0x80 then [p]
    else if p < 0x800 then [0xC0 + p / 64, 0x80 + p % 64]
    else if p < 0x10000 then [0xE0 + p / 4096, 0x80 + p / 64 % 64, 0x80 + p % 64]
    else [0xF0 + p / 262144, 0x80 + p / 4096 % 64, 0x80 + p / 64 % 64, 0x80 + p % 64]
  }

  function Encode(ps: seq<Point>): seq<Byte> {
    if ps == [] then [] else EncodePoint(ps[0]) + Encode(ps[1..])
  }

  function At(bs: seq<Byte>, i: nat): (n: int)
    requires i < |bs|
    ensures n == bs[i] && 0 <= n < 256
  {
    bs[i]
  }

  predicate IsTail(b: Byte) {
    0x80 <= b < 0xC0
  }

  /** One code point and how many bytes it took; nothing where the decoder raises. */
  function ReadPoint(bs: seq<Byte>): (r: Option<(Point, nat)>)
    ensures r.Some? ==> 1 <= r.value.1 <= |bs|
  {
    if bs == [] then None
    else if bs[0] < 0x80 then Some((bs[0], 1))
    else if 0xC2 <= bs[0] < 0xE0 && |bs| >= 2 && IsTail(bs[1]) then
      Some(((At(bs, 0) - 0xC0) * 64 + (At(bs, 1) - 0x80), 2))
    else if 0xE0 <= bs[0] < 0xF0 && |bs| >= 3 && IsTail(bs[1]) && IsTail(bs[2]) && (bs[0] == 0xE0 ==> bs[1] >= 0xA0) then
      Some((((At(bs, 0) - 0xE0) * 64 + (At(bs, 1) - 0x80)) * 64 + (At(bs, 2) - 0x80), 3))
    else if 0xF0 <= bs[0] < 0xF5 && |bs| >= 4 && IsTail(bs[1]) && IsTail(bs[2]) && IsTail(bs[3])
            && (bs[0] == 0xF0 ==> bs[1] >= 0x90) && (bs[0] == 0xF4 ==> bs[1] < 0x90) then
      Some(((((At(bs, 0) - 0xF0) * 64 + (At(bs, 1) - 0x80)) * 64 + (At(bs, 2) - 0x80)) * 64 + (At(bs, 3) - 0x80), 4))
    else None
  }

  function Points8(bs: seq<Byte>): Option<seq<Point>>
    decreases |bs|
  {
    if bs == [] then Some([])
    else
      match ReadPoint(bs)
      case None => None
      case Some((p, n)) =>
        match Points8(bs[n..])
        case None => None
        case Some(ps) => Some([p] + ps)
  }

  lemma ReadEncoded(p: Point, rest: seq<Byte>)
    ensures ReadPoint(EncodePoint(p) + rest) == Some((p, |EncodePoint(p)|))
  {
    assert p == p / 64 * 64 + p % 64;
    assert p / 64 == p / 64 / 64 * 64 + p / 64 % 64 && p / 64 / 64 == p / 4096;
    assert p / 4096 == p / 4096 / 64 * 64 + p / 4096 % 64 && p / 4096 / 64 == p / 262144;
  }

  lemma Digits64(a: int, x: int)
    requires 0 <= x < 64
    ensures (a * 64 + x) / 64 == a && (a * 64 + x) % 64 == x
  {
  }

  lemma EncodeRead2(bs: seq<Byte>)
    requires ReadPoint(bs).Some? && ReadPoint(bs).value.1 == 2
    ensures bs[..2] == EncodePoint(ReadPoint(bs).value.0)
  {
    Digits64(At(bs, 0) - 0xC0, At(bs, 1) - 0x80);
  }

  lemma EncodeRead3(bs: seq<Byte>)
    requires ReadPoint(bs).Some? && ReadPoint(bs).value.1 == 3
    ensures bs[..3] == EncodePoint(ReadPoint(bs).value.0)
  {
    var p := ReadPoint(bs).value.0;
    Digits64(At(bs, 0) - 0xE0, At(bs, 1) - 0x80);
    Digits64((At(bs, 0) - 0xE0) * 64 + (At(bs, 1) - 0x80), At(bs, 2) - 0x80);
    assert p / 4096 == p / 64 / 64;
  }

  lemma EncodeRead4(bs: seq<Byte>)
    requires ReadPoint(bs).Some? && ReadPoint(bs).value.1 == 4
    ensures bs[..4] == EncodePoint(ReadPoint(bs).value.0)
  {
    var p := ReadPoint(bs).value.0;
    var a := (At(bs, 0) - 0xF0) * 64 + (At(bs, 1) - 0x80);
    var b := a * 64 + (At(bs, 2) - 0x80);
    Digits64(At(bs, 0) - 0xF0, At(bs, 1) - 0x80);
    Digits64(a, At(bs, 2) - 0x80);
    Digits64(b, At(bs, 3) - 0x80);
    assert p / 4096 == p / 64 / 64 && p / 262144 == p / 64 / 64 / 64;
  }

  lemma EncodeRead(bs: seq<Byte>)
    requires ReadPoint(bs).Some?
    ensures bs[..ReadPoint(bs).value.1] == EncodePoint(ReadPoint(bs).value.0)
  {
    var n := ReadPoint(bs).value.1;
    if n == 2 { EncodeRead2(bs); } else if n == 3 { EncodeRead3(bs); } else if n == 4 { EncodeRead4(bs); }
  }

  lemma {:induction false} DecodesEncoded(ps: seq<Point>)
    ensures Points8(Encode(ps)) == Some(ps)
    decreases |ps|
  {
    if ps != [] {
      var head, rest := EncodePoint(ps[0]), Encode(ps[1..]);
      ReadEncoded(ps[0], rest);
      assert (head + rest)[|head|..] == rest;
      DecodesEncoded(ps[1..]);
      assert ps == [ps[0]] + ps[1..];
    }
  }

  lemma {:induction false} EncodesDecoded(bs: seq<Byte>)
    requires Points8(bs).Some?
    ensures Encode(Points8(bs).value) == bs
    decreases |bs|
  {
    if bs != [] {
      var (p, n) := ReadPoint(bs).value;
      var ps := Points8(bs[n..]).value;
      EncodeRead(bs);
      EncodesDecoded(bs[n..]);
      EncodeBoth(bs, n, p, ps);
    }
  }

  lemma EncodeBoth(bs: seq<Byte>, n: nat, p: Point, ps: seq<Point>)
    requires n <= |bs| && bs[..n] == EncodePoint(p) && bs[n..] == Encode(ps)
    ensures Encode([p] + ps) == bs
  {
    EncodeCons(p, ps);
    assert bs == bs[..n] + bs[n..];
  }

  lemma EncodeCons(p: Point, ps: seq<Point>)
    ensures Encode([p] + ps) == EncodePoint(p) + Encode(ps)
  {
    assert ([p] + ps)[1..] == ps;
  }

  // ---- UTF-16 and UTF-32 -----------------------------------------------------------------------

  function Unit16(bs: seq<Byte>, big: bool): Point
    requires |bs| >= 2
  {
    if big then At(bs, 0) * 256 + At(bs, 1) else At(bs, 1) * 256 + At(bs, 0)
  }

  predicate IsPair(bs: seq<Byte>, big: bool) {
    |bs| >= 4 && 0xD800 <= Unit16(bs, big) < 0xDC00 && 0xDC00 <= Unit16(bs[2..], big) < 0xE000
  }

  /** A pair of surrogates is one code point; a lone one passes. */
  function Points16(bs: seq<Byte>, big: bool): Option<seq<Point>>
    decreases |bs|
  {
    if bs == [] then Some([])
    else if |bs| == 1 then None
    else if IsPair(bs, big) then
      var p := 0x10000 + (Unit16(bs, big) - 0xD800) * 1024 + (Unit16(bs[2..], big) - 0xDC00);
      match Points16(bs[4..], big)
      case None => None
      case Some(ps) => Some([p] + ps)
    else
      match Points16(bs[2..], big)
      case None => None
      case Some(ps) => Some([Unit16(bs, big)] + ps)
  }

  function Unit32(bs: seq<Byte>, big: bool): int
    requires |bs| >= 4
  {
    if big then ((At(bs, 0) * 256 + At(bs, 1)) * 256 + At(bs, 2)) * 256 + At(bs, 3)
    else ((At(bs, 3) * 256 + At(bs, 2)) * 256 + At(bs, 1)) * 256 + At(bs, 0)
  }

  function Points32(bs: seq<Byte>, big: bool): Option<seq<Point>>
    decreases |bs|
  {
    if bs == [] then Some([])
    else if |bs| < 4 || Unit32(bs, big) > 0x10FFFF then None
    else
      match Points32(bs[4..], big)
      case None => None
      case Some(ps) => Some([Unit32(bs, big)] + ps)
  }

  lemma {:induction false} Points16Even(bs: seq<Byte>, big: bool)
    ensures Points16(bs, big).Some? <==> |bs| % 2 == 0
    decreases |bs|
  {
    if |bs| >= 2 {
      if IsPair(bs, big) { Points16Even(bs[4..], big); } else { Points16Even(bs[2..], big); }
    }
  }

  /** Every whole group of four bytes is a code point. */
  predicate Words32(bs: seq<Byte>, big: bool) {
    |bs| % 4 == 0 && forall i | 0 <= i < |bs| / 4 :: Unit32(bs[4 * i..], big) <= 0x10FFFF
  }

  lemma {:induction false} Points32Words(bs: seq<Byte>, big: bool)
    ensures Points32(bs, big).Some? <==> Words32(bs, big)
    decreases |bs|
  {
    if |bs| >= 4 {
      Points32Words(bs[4..], big);
      Words32Unfold(bs, big);
    }
  }

  lemma Words32Unfold(bs: seq<Byte>, big: bool)
    requires |bs| >= 4
    ensures Words32(bs, big) <==> Unit32(bs, big) <= 0x10FFFF && Words32(bs[4..], big)
  {
    assert bs[4 * 0..] == bs;
    forall i | 0 <= i < (|bs| - 4) / 4 ensures bs[4..][4 * i..] == bs[4 * (i + 1)..] {
    }
    if Unit32(bs, big) <= 0x10FFFF && Words32(bs[4..], big) {
      forall i | 0 <= i < |bs| / 4 ensures Unit32(bs[4 * i..], big) <= 0x10FFFF {
        if i > 0 { assert bs[4..][4 * (i - 1)..] == bs[4 * i..]; }
      }
    }
  }

  // ---- json.detect_encoding ----------------------------------------------------------------------

  datatype Encoding = Utf8(skip: nat) | Utf16(skip: nat, big: bool) | Utf32(skip: nat, big: bool)

  /** By byte-order mark, else by where the first zero bytes are. `skip` is the mark's length. */
  function Detect(bs: seq<Byte>): (e: Encoding)
    ensures e.skip <= |bs|
  {
    if [0, 0, 0xFE, 0xFF] <= bs then Utf32(4, true)
    else if [0xFF, 0xFE, 0, 0] <= bs then Utf32(4, false)
    else if [0xFE, 0xFF] <= bs then Utf16(2, true)
    else if [0xFF, 0xFE] <= bs then Utf16(2, false)
    else if [0xEF, 0xBB, 0xBF] <= bs then Utf8(3)
    else if |bs| >= 4 && bs[0] == 0 then (if bs[1] != 0 then Utf16(0, true) else Utf32(0, true))
    else if |bs| >= 4 && bs[1] == 0 then (if bs[2] != 0 || bs[3] != 0 then Utf16(0, false) else Utf32(0, false))
    else if |bs| == 2 && bs[0] == 0 then Utf16(0, true)
    else if |bs| == 2 && bs[1] == 0 then Utf16(0, false)
    else Utf8(0)
  }

  function Decode(bs: seq<Byte>): Option<seq<Point>> {
    match Detect(bs)
    case Utf8(skip) => Points8(bs[skip..])
    case Utf16(skip, big) => Points16(bs[skip..], big)
    case Utf32(skip, big) => Points32(bs[skip..], big)
  }

  /** In the encoding they will be taken for, the bytes spell code points: whole units of two or
      of four bytes, or the UTF-8 of something. */
  ghost predicate WellEncoded(bs: seq<Byte>) {
    match Detect(bs)
    case Utf8(skip) => exists ps :: Encode(ps) == bs[skip..]
    case Utf16(skip, _) => (|bs| - skip) % 2 == 0
    case Utf32(skip, big) => Words32(bs[skip..], big)
  }

  lemma DecodesExactly(bs: seq<Byte>)
    ensures Decode(bs).Some? <==> WellEncoded(bs)
  {
    match Detect(bs)
    case Utf8(skip) =>
      var body := bs[skip..];
      if Points8(body).Some? { EncodesDecoded(body); }
      if ps :| Encode(ps) == body { DecodesEncoded(ps); }
    case Utf16(skip, big) => Points16Even(bs[skip..], big);
    case Utf32(skip, big) => Points32Words(bs[skip..], big);
  }

  // ---- text -----------------------------------------------------------------------------------------

  function PointsOf(s: string): (ps: seq<Point>)
    ensures |ps| == |s|
  {
    seq(|s|, i requires 0 <= i < |s| => s[i] as int)
  }

  /** The text of code points without surrogates. */
  function TextOf(ps: seq<Point>): Option<string> {
    if exists p | p in ps :: 0xD800 <= p < 0xE000 then None
    else Some(seq(|ps|, i requires 0 <= i < |ps| => PointChar(ps[i])))
  }

  function PointChar(p: Point): char {
    if 0xD800 <= p < 0xE000 then '?' else p as char
  }

  lemma TextRoundTrip(s: string)
    ensures TextOf(PointsOf(s)) == Some(s)
  {
    forall p | p in PointsOf(s) ensures !(0xD800 <= p < 0xE000) {
      var i :| 0 <= i < |s| && PointsOf(s)[i] == p;
      assert p == s[i] as int;
    }
    assert forall i | 0 <= i < |s| :: PointChar(PointsOf(s)[i]) == s[i];
    assert TextOf(PointsOf(s)).value == s;
  }

  /** `s.encode("utf-8")`. */
  function Utf8Of(s: string): seq<Byte> {
    Encode(PointsOf(s))
  }

  /** A text that starts like a JSON object with a member is read back as it was written. */
  lemma ObjectTextDecodes(s: string)
    requires |s| >= 2 && s[0] == '{' && s[1] == '"'
    ensures Decode(Utf8Of(s)) == Some(PointsOf(s))
  {
    var ps, bs := PointsOf(s), Utf8Of(s);
    assert EncodePoint(ps[0]) == [0x7B] && EncodePoint(ps[1]) == [0x22];
    assert bs == [0x7B] + Encode(ps[1..]);
    assert Encode(ps[1..]) == [0x22] + Encode(ps[1..][1..]);
    assert bs[0] == 0x7B && bs[1] == 0x22;
    assert Detect(bs) == Utf8(0) && bs[0..] == bs;
    DecodesEncoded(ps);
  }
}
