/** The token spelled out: which letters stand for which bits, what is signed, what a decoder takes and
    what it answers to everything else. */
module TokenForm {
  import opened Prelude
  import opened CanonicalJson
  import CanonicalOrder
  import opened CanonicalForm
  import opened Claims
  import opened ApprovalToken
  import Base64Url
  import Utf

  type Byte = Base64Url.Byte

  // ---- base64url, bit by bit ---------------------------------------------------------------------

  /** The last `n` bits of a number, the highest first. */
  function Binary(b: nat, n: nat): (bits: seq<int>)
    ensures |bits| == n
  {
    if n == 0 then [] else Binary(b / 2, n - 1) + [b % 2]
  }

  function Bits(raw: seq<Byte>): (bits: seq<int>)
    ensures |bits| == 8 * |raw|
  {
    if raw == [] then [] else Binary(raw[0], 8) + Bits(raw[1..])
  }

  /** Beyond the last bit there are zeros. */
  function At(bits: seq<int>, j: nat): int {
    if j < |bits| then bits[j] else 0
  }

  /** The six bits from bit `j` on, read as a number. */
  function Six(bits: seq<int>, j: nat): int {
    32 * At(bits, j) + 16 * At(bits, j + 1) + 8 * At(bits, j + 2) + 4 * At(bits, j + 3) + 2 * At(bits, j + 4) + At(bits, j + 5)
  }

  /** The alphabet: A to Z, a to z, 0 to 9, then '-' and '_'. */
  lemma Alphabet(v: int)
    requires 0 <= v < 63
    ensures Base64Url.Letter(0) == 'A' && Base64Url.Letter(25) == 'Z' && Base64Url.Letter(26) == 'a'
    ensures Base64Url.Letter(51) == 'z' && Base64Url.Letter(52) == '0' && Base64Url.Letter(61) == '9'
    ensures Base64Url.Letter(62) == '-' && Base64Url.Letter(63) == '_'
    ensures v != 25 && v != 51 && v != 61 && v != 62 ==> Base64Url.Letter(v + 1) as int == Base64Url.Letter(v) as int + 1
  {
  }

  lemma Halves(b: Byte)
    ensures b / 64 == 2 * (b / 128) + b / 64 % 2 && b / 32 == 2 * (b / 64) + b / 32 % 2
    ensures b / 16 == 2 * (b / 32) + b / 16 % 2 && b / 8 == 2 * (b / 16) + b / 8 % 2
    ensures b / 4 == 2 * (b / 8) + b / 4 % 2 && b / 2 == 2 * (b / 4) + b / 2 % 2 && b == 2 * (b / 2) + b % 2
    ensures b / 128 % 2 == b / 128
  {
  }

  /** How a byte is cut, after two, four and six of its bits. */
  lemma Cuts(b: Byte)
    ensures b / 4 == 32 * (b / 128 % 2) + 16 * (b / 64 % 2) + 8 * (b / 32 % 2) + 4 * (b / 16 % 2) + 2 * (b / 8 % 2) + b / 4 % 2
    ensures b / 16 == 8 * (b / 128 % 2) + 4 * (b / 64 % 2) + 2 * (b / 32 % 2) + b / 16 % 2
    ensures b / 64 == 2 * (b / 128 % 2) + b / 64 % 2
  {
    Halves(b);
  }

  lemma Rests(b: Byte)
    ensures b % 4 == 2 * (b / 2 % 2) + b % 2
    ensures b % 16 == 8 * (b / 8 % 2) + 4 * (b / 4 % 2) + 2 * (b / 2 % 2) + b % 2
    ensures b % 64 == 32 * (b / 32 % 2) + 16 * (b / 16 % 2) + 8 * (b / 8 % 2) + 4 * (b / 4 % 2) + 2 * (b / 2 % 2) + b % 2
  {
    Halves(b);
    assert b % 4 == b - 4 * (b / 4) && b % 16 == b - 16 * (b / 16) && b % 64 == b - 64 * (b / 64);
  }

  lemma ByteBits(b: Byte)
    ensures Binary(b, 8) == [b / 128 % 2, b / 64 % 2, b / 32 % 2, b / 16 % 2, b / 8 % 2, b / 4 % 2, b / 2 % 2, b % 2]
  {
    assert b / 2 / 2 == b / 4 && b / 4 / 2 == b / 8 && b / 8 / 2 == b / 16;
    assert b / 16 / 2 == b / 32 && b / 32 / 2 == b / 64 && b / 64 / 2 == b / 128;
    assert Binary(b / 128, 1) == [] + [b / 128 % 2];
    assert Binary(b / 32, 3) == Binary(b / 64, 2) + [b / 32 % 2];
    assert Binary(b / 8, 5) == Binary(b / 16, 4) + [b / 8 % 2];
    assert Binary(b / 2, 7) == Binary(b / 4, 6) + [b / 2 % 2];
  }

  lemma LaterBits(first: seq<int>, rest: seq<int>, j: nat)
    requires j >= |first|
    ensures Six(first + rest, j) == Six(rest, j - |first|)
  {
  }

  lemma FirstSix(a: Byte, rest: seq<int>)
    ensures Six(Binary(a, 8) + rest, 0) == a / 4
  {
    ByteBits(a);
    Cuts(a);
  }

  lemma SecondSix(a: Byte, b: Byte, rest: seq<int>)
    ensures Six(Binary(a, 8) + (Binary(b, 8) + rest), 6) == a % 4 * 16 + b / 16
  {
    ByteBits(a);
    ByteBits(b);
    Rests(a);
    Cuts(b);
  }

  lemma ThirdSix(b: Byte, c: Byte, rest: seq<int>)
    ensures Six(Binary(b, 8) + (Binary(c, 8) + rest), 4) == b % 16 * 4 + c / 64
  {
    ByteBits(b);
    ByteBits(c);
    Rests(b);
    Cuts(c);
  }

  lemma FourthSix(c: Byte, rest: seq<int>)
    ensures Six(Binary(c, 8) + rest, 2) == c % 64
  {
    ByteBits(c);
    Rests(c);
  }

  /** The letters of a whole group, and what comes after it. */
  lemma GroupBits(a: Byte, b: Byte, c: Byte, rest: seq<int>)
    ensures var bits := Binary(a, 8) + (Binary(b, 8) + (Binary(c, 8) + rest));
            && Six(bits, 0) == a / 4 && Six(bits, 6) == a % 4 * 16 + b / 16
            && Six(bits, 12) == b % 16 * 4 + c / 64 && Six(bits, 18) == c % 64
  {
    var z := Binary(c, 8) + rest;
    var y := Binary(b, 8) + z;
    FirstSix(a, y);
    SecondSix(a, b, z);
    LaterBits(Binary(a, 8), y, 12);
    ThirdSix(b, c, rest);
    LaterBits(Binary(a, 8), y, 18);
    LaterBits(Binary(b, 8), z, 10);
    FourthSix(c, rest);
  }

  lemma TwoBits(a: Byte, b: Byte)
    ensures var bits := Binary(a, 8) + Binary(b, 8);
            Six(bits, 0) == a / 4 && Six(bits, 6) == a % 4 * 16 + b / 16 && Six(bits, 12) == b % 16 * 4
  {
    FirstSix(a, Binary(b, 8));
    SecondSix(a, b, []);
    assert Binary(b, 8) + [] == Binary(b, 8);
    LaterBits(Binary(a, 8), Binary(b, 8), 12);
    LastFour(b);
  }

  lemma LastFour(b: Byte)
    ensures Six(Binary(b, 8), 4) == b % 16 * 4
  {
    ByteBits(b);
    Rests(b);
  }

  lemma OneBits(a: Byte)
    ensures Six(Binary(a, 8), 0) == a / 4 && Six(Binary(a, 8), 6) == a % 4 * 16
  {
    ByteBits(a);
    Cuts(a);
    Rests(a);
  }

  lemma OneByte(b: Byte, rest: seq<Byte>)
    ensures Bits([b] + rest) == Binary(b, 8) + Bits(rest)
  {
    assert ([b] + rest)[1..] == rest;
  }

  lemma ThreeBytes(raw: seq<Byte>)
    requires |raw| >= 3
    ensures Bits(raw) == Binary(raw[0], 8) + (Binary(raw[1], 8) + (Binary(raw[2], 8) + Bits(raw[3..])))
  {
    OneByte(raw[0], [raw[1]] + ([raw[2]] + raw[3..]));
    OneByte(raw[1], [raw[2]] + raw[3..]);
    OneByte(raw[2], raw[3..]);
    assert raw == [raw[0]] + ([raw[1]] + ([raw[2]] + raw[3..]));
  }

  lemma EncodeGroup(raw: seq<Byte>)
    requires |raw| >= 3
    ensures Base64Url.Encode(raw) == Base64Url.Group(raw[0], raw[1], raw[2]) + Base64Url.Encode(raw[3..])
  {
    Base64Url.PaddingRestored(raw);
    Base64Url.PaddingRestored(raw[3..]);
    var body := Base64Url.PaddedShape(raw[3..]);
    var group := Base64Url.Group(raw[0], raw[1], raw[2]);
    Base64Url.GroupPlain(raw[0], raw[1], raw[2]);
    var k := Base64Url.PadCount(|raw|);
    Base64Url.PadPeriod(|raw|, |body|);
    assert group + (body + Base64Url.Pad(k)) == (group + body) + Base64Url.Pad(k);
    Base64Url.StripPadExactly(group + body, k);
    Base64Url.StripPadExactly(body, k);
  }

  /** Letter `k` stands for the six bits from bit `6 * k` on. */
  predicate IsLetter(raw: seq<Byte>, k: nat) {
    var v := Six(Bits(raw), 6 * k);
    k < |Base64Url.Encode(raw)| && 0 <= v < 64 && Base64Url.Encode(raw)[k] == Base64Url.Letter(v)
  }

  lemma MakeLetter(raw: seq<Byte>, k: nat, v: int)
    requires v == Six(Bits(raw), 6 * k) && 0 <= v < 64
    requires k < |Base64Url.Encode(raw)| && Base64Url.Encode(raw)[k] == Base64Url.Letter(v)
    ensures IsLetter(raw, k)
  {
  }

  lemma FirstLetters(raw: seq<Byte>, k: nat)
    requires |raw| >= 3 && k < 4
    ensures IsLetter(raw, k)
  {
    EncodeGroup(raw);
    ThreeBytes(raw);
    GroupBits(raw[0], raw[1], raw[2], Bits(raw[3..]));
    if k == 0 {
      MakeLetter(raw, 0, raw[0] / 4);
    } else if k == 1 {
      MakeLetter(raw, 1, raw[0] % 4 * 16 + raw[1] / 16);
    } else if k == 2 {
      MakeLetter(raw, 2, raw[1] % 16 * 4 + raw[2] / 64);
    } else {
      MakeLetter(raw, 3, raw[2] % 64);
    }
  }

  lemma Regroup(x: seq<int>, y: seq<int>, z: seq<int>, rest: seq<int>)
    ensures x + (y + (z + rest)) == x + y + z + rest
  {
  }

  lemma BitsLater(raw: seq<Byte>, first: seq<int>, j: nat)
    requires |raw| >= 3 && j >= 24
    requires first == Binary(raw[0], 8) + Binary(raw[1], 8) + Binary(raw[2], 8)
    ensures Six(Bits(raw), j) == Six(Bits(raw[3..]), j - 24)
  {
    var rest := Bits(raw[3..]);
    assert Bits(raw) == first + rest by {
      ThreeBytes(raw);
      Regroup(Binary(raw[0], 8), Binary(raw[1], 8), Binary(raw[2], 8), rest);
    }
    LaterBits(first, rest, j);
  }

  lemma LaterLetter(raw: seq<Byte>, k: nat)
    requires |raw| >= 3 && k >= 4 && IsLetter(raw[3..], k - 4)
    ensures IsLetter(raw, k)
  {
    EncodeGroup(raw);
    BitsLater(raw, Binary(raw[0], 8) + Binary(raw[1], 8) + Binary(raw[2], 8), 6 * k);
    assert 6 * k - 24 == 6 * (k - 4);
    MakeLetter(raw, k, Six(Bits(raw[3..]), 6 * (k - 4)));
  }

  /** As many letters as it takes to hold all bits, each standing for the next six of them. */
  lemma {:induction false} LettersAreBits(raw: seq<Byte>)
    ensures |Base64Url.Encode(raw)| == (8 * |raw| + 5) / 6
    ensures forall k | 0 <= k < |Base64Url.Encode(raw)| :: IsLetter(raw, k)
    decreases |raw|
  {
    if |raw| >= 3 {
      EncodeGroup(raw);
      LettersAreBits(raw[3..]);
      forall k | 0 <= k < |Base64Url.Encode(raw)| ensures IsLetter(raw, k) {
        if k < 4 { FirstLetters(raw, k); } else { LaterLetter(raw, k); }
      }
    } else if |raw| == 2 {
      TwoLetters(raw[0], raw[1]);
      assert raw == [raw[0], raw[1]];
    } else if |raw| == 1 {
      OneLetter(raw[0]);
      assert raw == [raw[0]];
    }
  }

  lemma EncodeTwo(a: Byte, b: Byte)
    ensures Base64Url.Encode([a, b])
         == [Base64Url.Letter(a / 4), Base64Url.Letter(a % 4 * 16 + b / 16), Base64Url.Letter(b % 16 * 4)]
  {
    var body := Base64Url.ShortGroup([a, b]);
    Base64Url.StripPadExactly(body, 1);
    assert body == Base64Url.EncodePadded([a, b])[..3];
  }

  lemma TwoLetters(a: Byte, b: Byte)
    ensures |Base64Url.Encode([a, b])| == 3 && forall k | 0 <= k < 3 :: IsLetter([a, b], k)
  {
    EncodeTwo(a, b);
    OneByte(a, [b]);
    OneByte(b, []);
    assert [a, b] == [a] + [b] && [b] == [b] + [];
    assert Binary(b, 8) + Bits([]) == Binary(b, 8);
    TwoBits(a, b);
    MakeLetter([a, b], 0, a / 4);
    MakeLetter([a, b], 1, a % 4 * 16 + b / 16);
    MakeLetter([a, b], 2, b % 16 * 4);
  }

  lemma EncodeOne(a: Byte)
    ensures Base64Url.Encode([a]) == [Base64Url.Letter(a / 4), Base64Url.Letter(a % 4 * 16)]
  {
    var body := Base64Url.ShortGroup([a]);
    Base64Url.StripPadExactly(body, 2);
    assert body == Base64Url.EncodePadded([a])[..2];
  }

  lemma OneLetter(a: Byte)
    ensures |Base64Url.Encode([a])| == 2 && forall k | 0 <= k < 2 :: IsLetter([a], k)
  {
    EncodeOne(a);
    OneByte(a, []);
    assert [a] == [a] + [] && Binary(a, 8) + Bits([]) == Binary(a, 8);
    OneBits(a);
    MakeLetter([a], 0, a / 4);
    MakeLetter([a], 1, a % 4 * 16);
  }

  // ---- what is signed ----------------------------------------------------------------------------

  /** The seven claims under their names. */
  function Named(c: Claims): Json {
    Obj([Member("exp", Num(c.exp)), Member("iat", Num(c.iat)), Member("nonce", Str(c.nonce)),
         Member("approver", Str(c.approver)), Member("action_type", Str(c.actionType)),
         Member("payload_hash", Str(c.payloadHash)), Member("proposal_id", Str(c.proposalId))])
  }

  lemma SameClaims(c: Claims)
    ensures CanonicalOrder.SameValue(ClaimsJson(c), Named(c))
  {
    var ms, ns := ClaimsJson(c).members, Named(c).members;
    assert forall i | 0 <= i < 7 :: ms[i] == ns[6 - i];
    forall m | m in ms ensures CanonicalOrder.HasSameMember(ns, m) {
      var i :| 0 <= i < 7 && ms[i] == m;
      assert ns[6 - i] in ns && CanonicalOrder.SameValue(m.value, ns[6 - i].value);
    }
    forall n | n in ns ensures CanonicalOrder.HasKey(ms, n.key) {
      var i :| 0 <= i < 7 && ns[i] == n;
      assert ms[6 - i] in ms;
    }
  }

  lemma NamedWellFormed(c: Claims)
    ensures WellFormed(Named(c)) && WellFormed(ClaimsJson(c))
  {
    ClaimsJsonShape(c);
  }

  /** A token is the canonical text of its claims, escaped to ASCII, in base64url; a dot; and the
      digest of exactly that first part, in base64url. */
  lemma MintsAsSaid(mac: Mac, c: Claims, secret: string) returns (text: string)
    ensures IsText(true, Named(c), text) && IsAscii(text)
    ensures Mint(mac, c, secret)
         == if secret == "" then Failure(EmptySecret)
            else
              var segment := Base64Url.Encode(Utf.Utf8Of(text));
              Success(segment + "." + Base64Url.Encode(mac(secret, segment)))
  {
    text := Text(true, Canon(ClaimsJson(c)));
    NamedWellFormed(c);
    SameClaims(c);
    CanonicalOrder.SameValueGivesSameCanon(ClaimsJson(c), Named(c));
    Prints(true, Named(c));
    AsciiText(Canon(Named(c)));
  }

  lemma AsciiEscape(c: char)
    ensures IsAscii(Escape(true, c))
  {
  }

  lemma {:induction false} AsciiEscapes(s: string)
    ensures IsAscii(EscapeAll(true, s))
  {
    if s != "" {
      AsciiEscape(s[0]);
      AsciiEscapes(s[1..]);
    }
  }

  lemma {:induction false} AsciiDigits(n: nat)
    ensures IsAscii(Digits(n))
  {
    if n >= 10 { AsciiDigits(n / 10); }
  }

  lemma {:induction false} AsciiText(v: Json)
    ensures IsAscii(Text(true, v))
    decreases v, 1
  {
    match v
    case Num(n) => AsciiDigits(if n < 0 then -n else n);
    case Str(s) => AsciiEscapes(s);
    case Arr(items) => AsciiItems(items);
    case Obj(ms) => AsciiMembers(ms);
    case _ =>
  }

  lemma {:induction false} AsciiItems(xs: seq<Json>)
    ensures IsAscii(ItemsText(true, xs))
    decreases xs, 0
  {
    if xs != [] {
      AsciiText(xs[0]);
      if |xs| > 1 { AsciiItems(xs[1..]); }
    }
  }

  lemma AsciiJoin(a: string, b: string)
    requires IsAscii(a) && IsAscii(b)
    ensures IsAscii(a + b)
  {
  }

  lemma {:induction false} AsciiMembers(ms: seq<Member>)
    ensures IsAscii(MembersText(true, ms))
    decreases ms, 0
  {
    if ms != [] {
      AsciiEscapes(ms[0].key);
      AsciiText(ms[0].value);
      AsciiMember(ms[0]);
      if |ms| > 1 {
        AsciiMembers(ms[1..]);
        AsciiJoin(",", MembersText(true, ms[1..]));
        AsciiJoin(MemberText(true, ms[0]), "," + MembersText(true, ms[1..]));
      } else {
        AsciiJoin(MemberText(true, ms[0]), "}");
      }
    }
  }

  lemma AsciiMember(m: Member)
    requires IsAscii(EscapeAll(true, m.key)) && IsAscii(Text(true, m.value))
    ensures IsAscii(MemberText(true, m))
  {
  }

  // ---- what is accepted --------------------------------------------------------------------------

  predicate NoDot(s: string) {
    forall i | 0 <= i < |s| :: s[i] != '.'
  }

  lemma SplitFirst(raw: string)
    requires raw != ""
    ensures var rest := Split(raw[1..]);
            Split(raw) == if raw[0] == '.' then [""] + rest else [[raw[0]] + rest[0]] + rest[1..]
    ensures raw == [raw[0]] + raw[1..]
  {
  }

  lemma {:induction false} SplitParts(raw: string, a: string, b: string)
    requires Split(raw) == [a, b]
    ensures raw == a + "." + b && NoDot(a) && NoDot(b)
    decreases |raw|
  {
    var rest := Split(raw[1..]);
    SplitFirst(raw);
    assert Split(raw)[1..] == [b];
    if raw[0] == '.' {
      assert ([""] + rest)[1..] == rest;
      SplitWhole(raw[1..], b);
    } else {
      assert ([[raw[0]] + rest[0]] + rest[1..])[1..] == rest[1..];
      assert rest == [rest[0]] + rest[1..];
      SplitParts(raw[1..], rest[0], b);
      assert a == Split(raw)[0] == [raw[0]] + rest[0];
    }
  }

  lemma {:induction false} SplitWhole(raw: string, b: string)
    requires Split(raw) == [b]
    ensures raw == b && NoDot(b)
    decreases |raw|
  {
    if raw != "" {
      var rest := Split(raw[1..]);
      SplitFirst(raw);
      assert Split(raw)[1..] == [];
      assert raw[0] != '.';
      assert ([[raw[0]] + rest[0]] + rest[1..])[1..] == rest[1..];
      assert rest == [rest[0]] + rest[1..];
      SplitWhole(raw[1..], rest[0]);
      assert b == Split(raw)[0] == [raw[0]] + rest[0];
    }
  }

  /** The parsed claims: an object with no name but the seven, each with the value its type asks for;
      only the nonce may be missing. */
  predicate ReadAs(v: Json, spare: string, c: Claims) {
    && v.Obj?
    && (forall m | m in v.members ::
          || m.key == "proposal_id" || m.key == "payload_hash" || m.key == "action_type" || m.key == "approver"
          || m.key == "nonce" || m.key == "iat" || m.key == "exp")
    && Field(v, "proposal_id") == Some(Str(c.proposalId)) && Field(v, "payload_hash") == Some(Str(c.payloadHash))
    && Field(v, "action_type") == Some(Str(c.actionType)) && Field(v, "approver") == Some(Str(c.approver))
    && Field(v, "iat") == Some(Num(c.iat)) && Field(v, "exp") == Some(Num(c.exp))
    && (Field(v, "nonce") == Some(Str(c.nonce)) || (Field(v, "nonce") == None && c.nonce == spare))
  }

  lemma ClaimsAsSaid(v: Json, spare: string, c: Claims)
    ensures ClaimsOf(v, spare) == Some(c) <==> ReadAs(v, spare, c)
  {
    if ReadAs(v, spare, c) {
      assert forall m | m in v.members :: m.key in FIELDS;
    } else if ClaimsOf(v, spare) == Some(c) {
      assert forall m | m in v.members :: m.key in FIELDS;
    }
  }

  /** Two parts around one dot, neither of them empty. */
  predicate Parts(raw: string, segment: string, signature: string) {
    raw == segment + "." + signature && segment != "" && signature != "" && NoDot(segment) && NoDot(signature)
  }

  /** What a decoder says, in order: a token that is not two parts is malformed; then the signature
      must be the digest of the first part; and only then is anything inside looked at. */
  lemma DecodesAsSaid(mac: Mac, raw: string, secret: string, spare: string, segment: string, signature: string)
    requires secret != ""
    ensures (forall a, b :: !Parts(raw, a, b)) ==> Decode(mac, raw, secret, spare) == Failure(MalformedToken)
    ensures Parts(raw, segment, signature) ==>
              var r := Decode(mac, raw, secret, spare);
              if !IsAscii(segment) || !IsAscii(signature) then r == Failure(NotAscii)
              else if signature != Base64Url.Encode(mac(secret, segment)) then r == Failure(InvalidSignature)
              else forall c :: r == Success(c) <==> ReadSegment(segment, spare) == Read(c)
  {
    if Parts(raw, segment, signature) { SplitAtDot(segment, signature); }
    var parts := Split(raw);
    if |parts| == 2 && parts[0] != "" && parts[1] != "" {
      assert parts == [parts[0], parts[1]];
      SplitParts(raw, parts[0], parts[1]);
      assert Parts(raw, parts[0], parts[1]);
    }
  }

  /** Claims are read from base64url bytes that are text and that text one JSON document. */
  lemma SegmentAsSaid(segment: string, spare: string, c: Claims)
    ensures ReadSegment(segment, spare) == Read(c)
            <==> exists bytes, points, text, v :: SpellsDocument(segment, bytes, points, text, v) && ReadAs(v, spare, c)
  {
    if ReadSegment(segment, spare) == Read(c) {
      var bytes := Base64Url.Decode(segment).value;
      var points := Utf.Decode(bytes).value;
      var text := Utf.TextOf(points).value;
      ClaimsAsSaid(Loads(text).value, spare, c);
      assert SpellsDocument(segment, bytes, points, text, Loads(text).value);
    }
    if bytes, points, text, v :| SpellsDocument(segment, bytes, points, text, v) && ReadAs(v, spare, c) {
      ClaimsAsSaid(v, spare, c);
    }
  }

  predicate SpellsDocument(segment: string, bytes: seq<Byte>, points: seq<Utf.Point>, text: string, v: Json) {
    && Base64Url.Decode(segment) == Some(bytes) && Utf.Decode(bytes) == Some(points)
    && Utf.TextOf(points) == Some(text) && Loads(text) == Some(v)
  }

  // ---- what the decoder of base64url lets through ------------------------------------------------

  /** A character that stands for no bits: neither a letter of either alphabet nor a pad. */
  predicate IsForeign(c: char) {
    !('A' <= c <= 'Z') && !('a' <= c <= 'z') && !('0' <= c <= '9')
    && c != '-' && c != '_' && c != '+' && c != '/' && c != '='
  }

  predicate AllLetters(s: string) {
    forall i | 0 <= i < |s| :: !IsForeign(s[i]) && s[i] != '='
  }

  /** Foreign characters are passed over, wherever they stand. */
  lemma {:induction false} ForeignSkipped(a: string, c: char, b: string, quad: int, left: int, pads: nat)
    requires IsForeign(c) && 0 <= quad < 4
    requires quad == 0 ==> left == 0
    requires quad == 1 ==> 0 <= left < 64
    requires quad == 2 ==> 0 <= left < 16
    requires quad == 3 ==> 0 <= left < 4
    ensures Base64Url.Scan(a + [c] + b, quad, left, pads) == Base64Url.Scan(a + b, quad, left, pads)
    decreases |a|
  {
    if a == "" {
      assert (a + [c] + b)[1..] == b && a + b == b;
    } else {
      assert (a + [c] + b)[1..] == a[1..] + [c] + b && (a + b)[1..] == a[1..] + b;
      var v := Base64Url.Value(a[0]);
      if a[0] == '=' {
        ForeignSkipped(a[1..], c, b, quad, left, if quad >= 2 then pads + 1 else pads);
      } else if v.None? {
        ForeignSkipped(a[1..], c, b, quad, left, pads);
      } else {
        var next := if quad == 0 then v.value else if quad == 1 then v.value % 16 else if quad == 2 then v.value % 4 else 0;
        ForeignSkipped(a[1..], c, b, (quad + 1) % 4, next, 0);
      }
    }
  }

  /** Of texts in the alphabet alone, exactly those are refused that end one letter into a group. */
  lemma LettersDecode(s: string)
    requires AllLetters(s)
    ensures Base64Url.Decode(s).Some? <==> |s| % 4 != 1
  {
    LettersScan(s, Base64Url.PadLength(|s|), 0, 0, 0);
  }

  lemma {:induction false} LettersScan(s: string, k: nat, quad: int, left: int, pads: nat)
    requires AllLetters(s) && k < 4 && (quad + |s| + k) % 4 == 0 && 0 <= quad < 4 && pads == 0
    requires quad == 0 ==> left == 0
    requires quad == 1 ==> 0 <= left < 64
    requires quad == 2 ==> 0 <= left < 16
    requires quad == 3 ==> 0 <= left < 4
    ensures Base64Url.Scan(s + Base64Url.Pad(k), quad, left, pads).Some? <==> k != 3
    decreases |s|
  {
    var t := s + Base64Url.Pad(k);
    if s == "" {
      assert t == Base64Url.Pad(k);
      PadsScan(k, quad, left);
    } else {
      var v := Base64Url.Value(s[0]);
      assert t[1..] == s[1..] + Base64Url.Pad(k);
      var next := if quad == 0 then v.value else if quad == 1 then v.value % 16 else if quad == 2 then v.value % 4 else 0;
      LettersScan(s[1..], k, (quad + 1) % 4, next, 0);
    }
  }

  lemma PadsScan(k: nat, quad: int, left: int)
    requires k < 4 && (quad + k) % 4 == 0 && 0 <= quad < 4
    requires quad == 0 ==> left == 0
    requires quad == 1 ==> 0 <= left < 64
    requires quad == 2 ==> 0 <= left < 16
    requires quad == 3 ==> 0 <= left < 4
    ensures Base64Url.Scan(Base64Url.Pad(k), quad, left, 0).Some? <==> k != 3
  {
    if k == 1 {
      assert Base64Url.Pad(1) == "=";
    } else if k == 2 {
      assert Base64Url.Pad(2) == "==" && "=="[1..] == "=";
      assert Base64Url.Scan("=", 2, left, 1) == Some([]);
    } else if k == 3 {
      assert Base64Url.Pad(3) == "===" && "==="[1..] == "==" && "=="[1..] == "=" && "="[1..] == "";
      assert Base64Url.Scan("=", 1, left, 0) == Base64Url.Scan("", 1, left, 0);
      assert Base64Url.Scan("==", 1, left, 0) == Base64Url.Scan("=", 1, left, 0);
    }
  }
}
