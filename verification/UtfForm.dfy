/** Every text a JSON document may be sent as: written in UTF-8, UTF-16 or UTF-32, in either byte order,
    with a byte-order mark or without one, its bytes are taken for what they are and read back. */
module UtfForm {
  import opened Prelude
  import opened Utf

  /** A code point that is no surrogate. */
  predicate IsScalar(p: Point) {
    !(0xD800 <= p < 0xE000)
  }

  predicate AllScalar(ps: seq<Point>) {
    forall p | p in ps :: IsScalar(p)
  }

  function Two(n: int, big: bool): (bs: seq<Byte>)
    requires 0 <= n < 0x10000
    ensures |bs| == 2
  {
    if big then [n / 256, n % 256] else [n % 256, n / 256]
  }

  function Four(n: int, big: bool): (bs: seq<Byte>)
    requires 0 <= n <= 0x10FFFF
    ensures |bs| == 4
  {
    if big then [0, n / 65536, n / 256 % 256, n % 256] else [n % 256, n / 256 % 256, n / 65536, 0]
  }

  /** One code point in UTF-16: beyond the first plane, as a pair of surrogates. */
  function Write16(p: Point, big: bool): (bs: seq<Byte>)
    ensures |bs| == 2 || |bs| == 4
  {
    if p < 0x10000 then Two(p, big)
    else Two(0xD800 + (p - 0x10000) / 1024, big) + Two(0xDC00 + (p - 0x10000) % 1024, big)
  }

  function WriteAll16(ps: seq<Point>, big: bool): seq<Byte> {
    if ps == [] then [] else Write16(ps[0], big) + WriteAll16(ps[1..], big)
  }

  function WriteAll32(ps: seq<Point>, big: bool): seq<Byte> {
    if ps == [] then [] else Four(ps[0], big) + WriteAll32(ps[1..], big)
  }

  // ---- reading back ------------------------------------------------------------------------------

  lemma ReadTwo(n: int, big: bool, rest: seq<Byte>)
    requires 0 <= n < 0x10000
    ensures Unit16(Two(n, big) + rest, big) == n && (Two(n, big) + rest)[2..] == rest
  {
  }

  lemma ReadFour(n: int, big: bool, rest: seq<Byte>)
    requires 0 <= n <= 0x10FFFF
    ensures Unit32(Four(n, big) + rest, big) == n && (Four(n, big) + rest)[4..] == rest
  {
    assert n == (n / 65536 * 256 + n / 256 % 256) * 256 + n % 256;
  }

  lemma ReadOne16(p: Point, big: bool, rest: seq<Byte>, ps: seq<Point>)
    requires IsScalar(p) && Points16(rest, big) == Some(ps)
    ensures Points16(Write16(p, big) + rest, big) == Some([p] + ps)
  {
    var bs := Write16(p, big) + rest;
    if p < 0x10000 {
      ReadTwo(p, big, rest);
    } else {
      var hi, lo := 0xD800 + (p - 0x10000) / 1024, 0xDC00 + (p - 0x10000) % 1024;
      assert bs == Two(hi, big) + (Two(lo, big) + rest);
      ReadTwo(hi, big, Two(lo, big) + rest);
      ReadTwo(lo, big, rest);
      assert bs[4..] == bs[2..][2..];
    }
  }

  lemma {:induction false} ReadsBack16(ps: seq<Point>, big: bool)
    requires AllScalar(ps)
    ensures Points16(WriteAll16(ps, big), big) == Some(ps)
  {
    if ps != [] {
      ReadsBack16(ps[1..], big);
      ReadOne16(ps[0], big, WriteAll16(ps[1..], big), ps[1..]);
      assert [ps[0]] + ps[1..] == ps;
    }
  }

  lemma {:induction false} ReadsBack32(ps: seq<Point>, big: bool)
    ensures Points32(WriteAll32(ps, big), big) == Some(ps)
  {
    if ps != [] {
      ReadsBack32(ps[1..], big);
      ReadFour(ps[0], big, WriteAll32(ps[1..], big));
      assert [ps[0]] + ps[1..] == ps;
    }
  }

  // ---- which encoding it is ------------------------------------------------------------------------

  lemma MarkSkipped(mark: seq<Byte>, body: seq<Byte>)
    ensures (mark + body)[|mark|..] == body && mark <= mark + body
    ensures forall i | 0 <= i < |mark| :: (mark + body)[i] == mark[i]
    ensures forall i | 0 <= i < |body| :: (mark + body)[|mark| + i] == body[i]
  {
  }

  lemma Marked8(ps: seq<Point>)
    ensures Utf.Decode([0xEF, 0xBB, 0xBF] + Encode(ps)) == Some(ps)
  {
    var bs := [0xEF, 0xBB, 0xBF] + Encode(ps);
    MarkSkipped([0xEF, 0xBB, 0xBF], Encode(ps));
    assert bs[0] == 0xEF;
    assert Detect(bs) == Utf8(3);
    DecodesEncoded(ps);
  }

  /** Only a text that begins with NUL is taken for UTF-32 by its UTF-16 mark. */
  lemma Marked16(ps: seq<Point>, big: bool)
    requires AllScalar(ps) && (big || ps == [] || ps[0] != 0)
    ensures Utf.Decode((if big then [0xFE, 0xFF] else [0xFF, 0xFE]) + WriteAll16(ps, big)) == Some(ps)
  {
    var mark: seq<Byte> := if big then [0xFE, 0xFF] else [0xFF, 0xFE];
    var bs := mark + WriteAll16(ps, big);
    MarkSkipped(mark, WriteAll16(ps, big));
    assert bs[0] == mark[0] && bs[1] == mark[1];
    if !big && ps != [] { FirstTwo(ps); }
    assert Detect(bs) == Utf16(2, big);
    ReadsBack16(ps, big);
  }

  lemma FirstTwo(ps: seq<Point>)
    requires ps != [] && ps[0] != 0 && AllScalar(ps)
    ensures var bs := WriteAll16(ps, false); |bs| >= 2 && !(bs[0] == 0 && bs[1] == 0)
  {
    assert ps[0] in ps;
  }

  lemma Marked32(ps: seq<Point>, big: bool)
    ensures Utf.Decode((if big then [0, 0, 0xFE, 0xFF] else [0xFF, 0xFE, 0, 0]) + WriteAll32(ps, big)) == Some(ps)
  {
    var mark: seq<Byte> := if big then [0, 0, 0xFE, 0xFF] else [0xFF, 0xFE, 0, 0];
    var bs := mark + WriteAll32(ps, big);
    MarkSkipped(mark, WriteAll32(ps, big));
    assert bs[0] == mark[0] && bs[1] == mark[1] && bs[2] == mark[2] && bs[3] == mark[3];
    assert Detect(bs) == Utf32(4, big);
    ReadsBack32(ps, big);
  }

  /** JSON documents begin with two characters of ASCII, neither of them NUL. */
  predicate StartsPlain(ps: seq<Point>) {
    |ps| >= 2 && 0 < ps[0] < 128 && 0 < ps[1] < 128
  }

  lemma Plain8(ps: seq<Point>)
    requires StartsPlain(ps)
    ensures Detect(Encode(ps)) == Utf8(0)
  {
    var bs := Encode(ps);
    assert EncodePoint(ps[0]) == [ps[0]] && EncodePoint(ps[1]) == [ps[1]];
    assert bs == [ps[0]] + Encode(ps[1..]);
    assert Encode(ps[1..]) == [ps[1]] + Encode(ps[1..][1..]);
    assert bs[0] == ps[0] && bs[1] == ps[1];
  }

  lemma Plain16(ps: seq<Point>, big: bool)
    requires StartsPlain(ps)
    ensures Detect(WriteAll16(ps, big)) == Utf16(0, big)
  {
    var bs, more := WriteAll16(ps, big), WriteAll16(ps[1..], big);
    assert bs == Two(ps[0], big) + more;
    assert more == Two(ps[1], big) + WriteAll16(ps[1..][1..], big);
    assert bs[0] == (if big then 0 else ps[0]) && bs[1] == (if big then ps[0] else 0);
    assert bs[2] == more[0] && bs[3] == more[1];
  }

  lemma Plain32(ps: seq<Point>, big: bool)
    requires StartsPlain(ps)
    ensures Detect(WriteAll32(ps, big)) == Utf32(0, big)
  {
    var bs := WriteAll32(ps, big);
    assert bs == Four(ps[0], big) + WriteAll32(ps[1..], big);
    assert bs[0] == (if big then 0 else ps[0]) && bs[1] == 0 && bs[2] == 0 && bs[3] == if big then ps[0] else 0;
  }

  /** Without a mark, the zero bytes of the first two characters tell. */
  lemma PlainReadsBack(ps: seq<Point>, big: bool)
    requires AllScalar(ps) && StartsPlain(ps)
    ensures Utf.Decode(Encode(ps)) == Some(ps)
    ensures Utf.Decode(WriteAll16(ps, big)) == Some(ps)
    ensures Utf.Decode(WriteAll32(ps, big)) == Some(ps)
  {
    Plain8(ps);
    Plain16(ps, big);
    Plain32(ps, big);
    Whole(Encode(ps));
    Whole(WriteAll16(ps, big));
    Whole(WriteAll32(ps, big));
    DecodesEncoded(ps);
    ReadsBack16(ps, big);
    ReadsBack32(ps, big);
  }

  lemma Whole(bs: seq<Byte>)
    ensures bs[0..] == bs
  {
  }
}
