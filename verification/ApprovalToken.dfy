/** shared/approval_token.py: claims, signed; signed claims, read back.

    `mac` stands for HMAC-SHA256 (RFC 2104) of a text under a secret. Only its digest
    length, and in two lemmas its injectivity, is ever assumed. */
module ApprovalToken {
  import opened Prelude
  import opened CanonicalJson
  import opened CanonicalOrder
  import opened JsonRoundTrip
  import opened Claims
  import Base64Url
  import Utf

  type Byte = Base64Url.Byte
  type Mac = (string, string) -> seq<Byte>

  datatype TokenError =
    | EmptySecret        // ValueError
    | MalformedToken
    | InvalidSignature
    | NotAscii           // two exceptions the documented ones do not cover
    | Undecodable

  // ---- bytes ---------------------------------------------------------------------------

  predicate IsAscii(s: string) {
    forall i | 0 <= i < |s| :: (s[i] as int) < 128
  }

  // ---- mint ------------------------------------------------------------------------------

  /** `claims.model_dump()`. */
  function ClaimsJson(c: Claims): Json {
    Obj([Member("proposal_id", Str(c.proposalId)), Member("payload_hash", Str(c.payloadHash)),
         Member("action_type", Str(c.actionType)), Member("approver", Str(c.approver)),
         Member("nonce", Str(c.nonce)), Member("iat", Num(c.iat)), Member("exp", Num(c.exp))])
  }

  /** A segment over the sorted claims; `ascii` is json.dumps' `ensure_ascii`. */
  function SegmentIn(ascii: bool, c: Claims): string {
    Base64Url.Encode(Utf.Utf8Of(Text(ascii, Canon(ClaimsJson(c)))))
  }

  /** The first segment of a token: the claims are escaped to ASCII. */
  function Segment(c: Claims): string {
    SegmentIn(true, c)
  }

  function Sign(mac: Mac, segment: string, secret: string): string {
    Base64Url.Encode(mac(secret, segment))
  }

  function Mint(mac: Mac, c: Claims, secret: string): Result<string, TokenError> {
    if secret == "" then Failure(EmptySecret)
    else Success(Segment(c) + "." + Sign(mac, Segment(c), secret))
  }

  // ---- decode ------------------------------------------------------------------------------

  /** `raw.split(".")`. */
  function Split(raw: string): (parts: seq<string>)
    ensures parts != []
  {
    if raw == "" then [""]
    else
      var rest := Split(raw[1..]);
      if raw[0] == '.' then [""] + rest else [[raw[0]] + rest[0]] + rest[1..]
  }

  const FIELDS := {"proposal_id", "payload_hash", "action_type", "approver", "nonce", "iat", "exp"}

  function TextField(v: Json, key: string): Option<string> {
    match Field(v, key)
    case Some(Str(s)) => Some(s)
    case _ => None
  }

  function NumField(v: Json, key: string): Option<int> {
    match Field(v, key)
    case Some(Num(n)) => Some(n)
    case _ => None
  }

  /** `ApprovalTokenClaims.model_validate`, `extra="forbid"`. A missing nonce takes the
      model's default, a fresh uuid; no minted token lacks one. */
  function ClaimsOf(v: Json, spare: string): Option<Claims> {
    if !v.Obj? || exists m | m in v.members :: m.key !in FIELDS then None
    else
      match (TextField(v, "proposal_id"), TextField(v, "payload_hash"), TextField(v, "action_type"),
             TextField(v, "approver"), NumField(v, "iat"), NumField(v, "exp"))
      case (Some(id), Some(hash), Some(action), Some(approver), Some(iat), Some(exp)) =>
        if Field(v, "nonce").None? then Some(Claims(id, hash, action, approver, spare, iat, exp))
        else
          (match TextField(v, "nonce")
           case Some(nonce) => Some(Claims(id, hash, action, approver, nonce, iat, exp))
           case None => None)
      case _ => None
  }

  /** `decode`. Nothing inside the token is read before the signature holds. */
  function Decode(mac: Mac, raw: string, secret: string, spare: string): Result<Claims, TokenError> {
    if secret == "" then Failure(EmptySecret)
    else
      var parts := Split(raw);
      if |parts| != 2 || parts[0] == "" || parts[1] == "" then Failure(MalformedToken)
      else if !IsAscii(parts[0]) || !IsAscii(parts[1]) then Failure(NotAscii)
      else if parts[1] != Sign(mac, parts[0], secret) then Failure(InvalidSignature)
      else
        match ReadSegment(parts[0], spare)
        case Read(c) => Success(c)
        case NotClaims => Failure(MalformedToken)
        case NotText => Failure(Undecodable)
  }

  datatype Reading = Read(claims: Claims) | NotClaims | NotText

  /** `json.loads` on the decoded bytes, and the claims in it. Bytes that are no text in the
      encoding they are taken for raise UnicodeDecodeError, which nothing here catches. */
  function ReadSegment(segment: string, spare: string): Reading {
    match Base64Url.Decode(segment)
    case None => NotClaims
    case Some(bytes) =>
      match Utf.Decode(bytes)
      case None => NotText
      case Some(points) => ReadText(Utf.TextOf(points), spare)
  }

  function ReadText(text: Option<string>, spare: string): Reading {
    match text
    case None => NotClaims
    case Some(t) =>
      match Loads(t)
      case None => NotClaims
      case Some(v) =>
        match ClaimsOf(v, spare)
        case None => NotClaims
        case Some(c) => Read(c)
  }

  // ---- the claims come back ------------------------------------------------------------------

  lemma ClaimsJsonShape(c: Claims)
    ensures WellFormed(ClaimsJson(c))
    ensures forall m | m in ClaimsJson(c).members :: m.key in FIELDS
  {
  }

  /** A sorted dict answers as the dict it was sorted from. */
  lemma CanonField(v: Json, m: Member)
    requires WellFormed(v) && v.Obj? && m in v.members && (m.value.Str? || m.value.Num?)
    ensures Field(Canon(v), m.key) == Some(m.value)
  {
    CanonWellFormed(v);
    CanonIdempotent(v);
    SameCanonGivesSameValue(v, Canon(v));
    GetPresent(v.members, m);
    SameValueSameField(v, Canon(v), m.key);
  }

  lemma ClaimField(c: Claims, i: nat)
    requires i < 7
    ensures var m := ClaimsJson(c).members[i]; Field(Canon(ClaimsJson(c)), m.key) == Some(m.value)
  {
    ClaimsJsonShape(c);
    CanonField(ClaimsJson(c), ClaimsJson(c).members[i]);
  }

  lemma CanonKeepsFields(c: Claims)
    ensures Canon(ClaimsJson(c)).Obj?
    ensures forall m | m in Canon(ClaimsJson(c)).members :: m.key in FIELDS
  {
    var ms := ClaimsJson(c).members;
    ClaimsJsonShape(c);
    CanonMembersElements(ms);
  }

  lemma ClaimsReadBack(c: Claims, spare: string)
    ensures ClaimsOf(Canon(ClaimsJson(c)), spare) == Some(c)
  {
    CanonKeepsFields(c);
    ClaimField(c, 0);
    ClaimField(c, 1);
    ClaimField(c, 2);
    ClaimField(c, 3);
    ClaimField(c, 4);
    ClaimField(c, 5);
    ClaimField(c, 6);
  }

  /** The text of the claims starts with a brace and the quote of its first key. */
  lemma ClaimsTextStart(ascii: bool, c: Claims)
    ensures var text := Text(ascii, Canon(ClaimsJson(c))); |text| >= 2 && text[0] == '{' && text[1] == '"'
  {
    CanonKeepsFields(c);
    ClaimField(c, 0);
    var ms := Canon(ClaimsJson(c)).members;
    assert ms != [];
    MemberTextStart(ascii, ms);
  }

  lemma MemberTextStart(ascii: bool, ms: seq<Member>)
    requires ms != []
    ensures MembersText(ascii, ms) != "" && MembersText(ascii, ms)[0] == '"'
  {
    assert Quote(ascii, ms[0].key)[0] == '"';
    assert MemberText(ascii, ms[0])[0] == '"';
  }

  lemma SegmentReadBack(ascii: bool, c: Claims, spare: string)
    ensures ReadSegment(SegmentIn(ascii, c), spare) == Read(c)
  {
    var v := Canon(ClaimsJson(c));
    var text := Text(ascii, v);
    ClaimsTextStart(ascii, c);
    Utf.ObjectTextDecodes(text);
    Utf.TextRoundTrip(text);
    Base64Url.RoundTrip(Utf.Utf8Of(text));
    ClaimsTextReadBack(ascii, c, spare);
  }

  lemma ClaimsTextReadBack(ascii: bool, c: Claims, spare: string)
    ensures ReadText(Some(Text(ascii, Canon(ClaimsJson(c)))), spare) == Read(c)
  {
    ClaimsJsonShape(c);
    CanonWellFormed(ClaimsJson(c));
    DocumentRoundTrip(ascii, Canon(ClaimsJson(c)));
    ClaimsReadBack(c, spare);
  }

  lemma {:induction false} SplitAtDot(a: string, b: string)
    requires forall i | 0 <= i < |a| :: a[i] != '.'
    requires forall i | 0 <= i < |b| :: b[i] != '.'
    ensures Split(a + "." + b) == [a, b]
  {
    var raw := a + "." + b;
    if a == "" {
      assert raw[1..] == b;
      SplitNoDot(b);
    } else {
      assert raw[1..] == a[1..] + "." + b;
      SplitAtDot(a[1..], b);
      assert [a[0]] + a[1..] == a;
    }
  }

  lemma {:induction false} SplitNoDot(b: string)
    requires forall i | 0 <= i < |b| :: b[i] != '.'
    ensures Split(b) == [b]
  {
    if b != "" {
      SplitNoDot(b[1..]);
      assert [b[0]] + b[1..] == b;
    }
  }

  lemma SegmentPlain(ascii: bool, c: Claims)
    ensures SegmentIn(ascii, c) != "" && Base64Url.AllPlain(SegmentIn(ascii, c))
  {
    var bytes := Utf.Utf8Of(Text(ascii, Canon(ClaimsJson(c))));
    ClaimsTextStart(ascii, c);
    assert bytes != [];
    Base64Url.PaddingRestored(bytes);
  }

  /** A digest is never empty (HMAC-SHA256: 32 bytes). */
  ghost predicate Digests(mac: Mac) {
    forall secret, text :: mac(secret, text) != []
  }

  /** A minted token is two non-empty base64url segments, and nothing else in it is a dot. */
  lemma MintedShape(mac: Mac, c: Claims, secret: string)
    requires Digests(mac) && secret != ""
    ensures var token := Mint(mac, c, secret).value;
            && Split(token) == [Segment(c), Sign(mac, Segment(c), secret)]
            && Segment(c) != "" && Sign(mac, Segment(c), secret) != "" && IsAscii(token)
  {
    SegmentPlain(true, c);
    Base64Url.PaddingRestored(mac(secret, Segment(c)));
    SplitAtDot(Segment(c), Sign(mac, Segment(c), secret));
  }

  /** `decode(mint(c, s), s) == c`, for all claims and every non-empty secret. */
  lemma TokenRoundTrip(mac: Mac, c: Claims, secret: string, spare: string)
    requires Digests(mac) && secret != ""
    ensures Mint(mac, c, secret).Success?
    ensures Decode(mac, Mint(mac, c, secret).value, secret, spare) == Success(c)
  {
    MintedShape(mac, c, secret);
    SegmentPlain(true, c);
    Base64Url.PaddingRestored(mac(secret, Segment(c)));
    SegmentReadBack(true, c, spare);
  }

  /** Different claims never share a segment, so never share what is signed. */
  lemma SegmentIdentifies(c: Claims, d: Claims)
    ensures Segment(c) == Segment(d) <==> c == d
  {
    SegmentReadBack(true, c, "");
    SegmentReadBack(true, d, "");
  }

  /** Keeping a signature and changing any claim is refused as a bad signature. */
  lemma ChangedClaimRefused(mac: Mac, c: Claims, d: Claims, secret: string, spare: string)
    requires Digests(mac) && secret != "" && c != d
    requires forall x, y :: mac(secret, x) == mac(secret, y) ==> x == y
    ensures Decode(mac, Segment(d) + "." + Sign(mac, Segment(c), secret), secret, spare) == Failure(InvalidSignature)
  {
    SegmentIdentifies(c, d);
    SegmentPlain(true, d);
    Base64Url.PaddingRestored(mac(secret, Segment(c)));
    Base64Url.RoundTrip(mac(secret, Segment(c)));
    Base64Url.RoundTrip(mac(secret, Segment(d)));
    SplitAtDot(Segment(d), Sign(mac, Segment(c), secret));
  }

  /** If every signature in circulation is one that `mint` made, an accepted token carries
      claims that were minted. */
  lemma OnlyMintedTokensVerify(mac: Mac, minted: set<Claims>, raw: string, secret: string, spare: string)
    requires forall segment :: Split(raw) == [segment, Sign(mac, segment, secret)] ==>
               exists c | c in minted :: segment == Segment(c)
    requires Decode(mac, raw, secret, spare).Success?
    ensures Decode(mac, raw, secret, spare).value in minted
  {
    var segment := Split(raw)[0];
    assert Split(raw) == [segment, Sign(mac, segment, secret)];
    var c :| c in minted && segment == Segment(c);
    SegmentReadBack(true, c, spare);
  }

  /** Claims signed as plain UTF-8, their text not escaped to ASCII, are accepted as well. */
  lemma Utf8ClaimsAccepted(mac: Mac, c: Claims, secret: string, spare: string)
    requires Digests(mac) && secret != ""
    ensures var segment := SegmentIn(false, c);
            Decode(mac, segment + "." + Sign(mac, segment, secret), secret, spare) == Success(c)
  {
    var segment := SegmentIn(false, c);
    SegmentPlain(false, c);
    Base64Url.PaddingRestored(mac(secret, segment));
    SplitAtDot(segment, Sign(mac, segment, secret));
    SegmentReadBack(false, c, spare);
  }

  // ---- which errors --------------------------------------------------------------------------------

  predicate TwoParts(raw: string) {
    |Split(raw)| == 2 && Split(raw)[0] != "" && Split(raw)[1] != ""
  }

  /** `decode` documents two exceptions. It keeps to them exactly when the secret is set and the
      token, if it has two non-empty parts, has ASCII parts and, if its signature holds, a segment
      whose bytes are text in the encoding they are taken for. */
  lemma DecodeKeepsItsContract(mac: Mac, raw: string, secret: string, spare: string)
    ensures var r, parts := Decode(mac, raw, secret, spare), Split(raw);
            (r.Success? || r.error == MalformedToken || r.error == InvalidSignature)
            <==> secret != ""
                 && (TwoParts(raw) ==>
                       && IsAscii(parts[0]) && IsAscii(parts[1])
                       && (parts[1] == Sign(mac, parts[0], secret) && Base64Url.Decode(parts[0]).Some? ==>
                             Utf.WellEncoded(Base64Url.Decode(parts[0]).value)))
  {
    if TwoParts(raw) && Base64Url.Decode(Split(raw)[0]).Some? {
      Utf.DecodesExactly(Base64Url.Decode(Split(raw)[0]).value);
    }
  }

  /** The input: a signed segment that spells the one byte 0xFF. */
  lemma ByteFFEscapes(mac: Mac, secret: string, spare: string)
    requires Digests(mac) && secret != ""
    ensures Decode(mac, "_w" + "." + Sign(mac, "_w", secret), secret, spare) == Failure(Undecodable)
  {
    var signature := Sign(mac, "_w", secret);
    Base64Url.PaddingRestored(mac(secret, "_w"));
    SplitAtDot("_w", signature);
    assert Base64Url.Encode([0xFF]) == "_w" by {
      assert Base64Url.EncodePadded([0xFF]) == "_w==";
      assert "_w=="[..3] == "_w=" && "_w="[..2] == "_w";
    }
    Base64Url.RoundTrip([0xFF]);
    assert Utf.Decode([0xFF]) == None;
  }
}
