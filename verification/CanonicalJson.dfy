/** shared/hashing.py: the one deterministic serialisation, and what it hashes to.

    A Python dict is modelled by its insertion-ordered list of members, so that "the text
    does not depend on insertion order" is something to prove. Dafny's `char` ranges over
    Unicode scalar values, so a lone surrogate is not a value of this model. */
module CanonicalJson {
  import opened Prelude

  datatype Json =
    | Null
    | Bool(b: bool)
    | Num(n: int)
    | Str(s: string)
    | Arr(items: seq<Json>)
    | Obj(members: seq<Member>)

  datatype Member = Member(key: string, value: Json)

  // ---- dicts ---------------------------------------------------------------------

  predicate DistinctKeys(ms: seq<Member>) {
    forall i, j | 0 <= i < j < |ms| :: ms[i].key != ms[j].key
  }

  /** Every dict at every depth has distinct keys, as a Python dict always does. */
  predicate WellFormed(v: Json) {
    match v
    case Arr(items) => forall x | x in items :: WellFormed(x)
    case Obj(ms) => DistinctKeys(ms) && forall m | m in ms :: WellFormed(m.value)
    case _ => true
  }

  /** `members.get(key)`. */
  function Get(ms: seq<Member>, key: string): Option<Json> {
    if ms == [] then None
    else if ms[0].key == key then Some(ms[0].value)
    else Get(ms[1..], key)
  }

  /** `v.get(key)` on a dict; nothing on any other value. */
  function Field(v: Json, key: string): Option<Json> {
    if v.Obj? then Get(v.members, key) else None
  }

  /** `members[key] = value`: in place when the key is there, appended when it is not. */
  function Set(ms: seq<Member>, key: string, value: Json): seq<Member> {
    if ms == [] then [Member(key, value)]
    else if ms[0].key == key then [Member(key, value)] + ms[1..]
    else [ms[0]] + Set(ms[1..], key, value)
  }

  /** `dict(pairs)`: a repeated key keeps its first place and takes its last value. */
  function DictOf(ms: seq<Member>): seq<Member> {
    if ms == [] then []
    else Set(DictOf(ms[..|ms| - 1]), ms[|ms| - 1].key, ms[|ms| - 1].value)
  }

  /** Python's truth value of a decoded JSON value. */
  predicate Truthy(v: Json) {
    match v
    case Null => false
    case Bool(b) => b
    case Num(n) => n != 0
    case Str(s) => s != ""
    case Arr(items) => items != []
    case Obj(ms) => ms != []
  }

  // ---- sort_keys=True ------------------------------------------------------------

  function Insert(m: Member, ms: seq<Member>): seq<Member> {
    if ms == [] || TextLess(m.key, ms[0].key) then [m] + ms
    else [ms[0]] + Insert(m, ms[1..])
  }

  /** The value with the members of every dict put in key order. */
  function Canon(v: Json): Json
    decreases v, 1
  {
    match v
    case Arr(items) => Arr(CanonItems(items))
    case Obj(ms) => Obj(CanonMembers(ms))
    case _ => v
  }

  function CanonItems(items: seq<Json>): seq<Json>
    decreases items, 0
  {
    if items == [] then [] else [Canon(items[0])] + CanonItems(items[1..])
  }

  function CanonMembers(ms: seq<Member>): seq<Member>
    decreases ms, 0
  {
    if ms == [] then []
    else Insert(Member(ms[0].key, Canon(ms[0].value)), CanonMembers(ms[1..]))
  }

  // ---- the printer ---------------------------------------------------------------

  function HexDigit(d: int): char
    requires 0 <= d < 16
  {
    if d < 10 then ('0' as int + d) as char else ('a' as int + (d - 10)) as char
  }

  function Hex4(n: int): string
    requires 0 <= n < 0x10000
  {
    [HexDigit(n / 4096), HexDigit(n / 256 % 16), HexDigit(n / 16 % 16), HexDigit(n % 16)]
  }

  /** One character inside a JSON string. `ascii` is json.dumps' `ensure_ascii`. */
  function Escape(ascii: bool, c: char): string {
    var n := c as int;
    if c == '"' then "\\\""
    else if c == '\\' then "\\\\"
    else if c == '\n' then "\\n"
    else if c == '\r' then "\\r"
    else if c == '\t' then "\\t"
    else if n == 8 then "\\b"
    else if n == 12 then "\\f"
    else if n < 32 then "\\u" + Hex4(n)
    else if ascii && n > 126 then
      if n < 0x10000 then "\\u" + Hex4(n)
      else "\\u" + Hex4(0xD800 + (n - 0x10000) / 1024) + "\\u" + Hex4(0xDC00 + (n - 0x10000) % 1024)
    else [c]
  }

  function EscapeAll(ascii: bool, s: string): string {
    if s == "" then "" else Escape(ascii, s[0]) + EscapeAll(ascii, s[1..])
  }

  function Quote(ascii: bool, s: string): string {
    "\"" + EscapeAll(ascii, s) + "\""
  }

  function Digits(n: nat): string {
    if n < 10 then [HexDigit(n)] else Digits(n / 10) + [HexDigit(n % 10)]
  }

  function NumberText(n: int): string {
    if n < 0 then "-" + Digits(-n) else Digits(n)
  }

  /** `json.dumps(v, separators=(",", ":"))`, members in the order they are listed. */
  function Text(ascii: bool, v: Json): string
    decreases v, 1
  {
    match v
    case Null => "null"
    case Bool(b) => if b then "true" else "false"
    case Num(n) => NumberText(n)
    case Str(s) => Quote(ascii, s)
    case Arr(items) => "[" + ItemsText(ascii, items)
    case Obj(ms) => "{" + MembersText(ascii, ms)
  }

  function ItemsText(ascii: bool, xs: seq<Json>): string
    decreases xs, 0
  {
    if xs == [] then "]"
    else Text(ascii, xs[0]) + if |xs| == 1 then "]" else "," + ItemsText(ascii, xs[1..])
  }

  function MemberText(ascii: bool, m: Member): string
    decreases m, 0
  {
    Quote(ascii, m.key) + ":" + Text(ascii, m.value)
  }

  function MembersText(ascii: bool, ms: seq<Member>): string
    decreases ms, 0
  {
    if ms == [] then "}"
    else MemberText(ascii, ms[0]) + if |ms| == 1 then "}" else "," + MembersText(ascii, ms[1..])
  }

  /** `canonical_json`: sorted keys, tight separators, real Unicode. */
  function CanonicalText(v: Json): string {
    Text(false, Canon(v))
  }

  const PREFIX := "sha256:"
  const GENESIS_HASH := "sha256:0000000000000000000000000000000000000000000000000000000000000000"

  /** `hash_payload`; `sha` stands for the hexadecimal SHA-256 of a text. */
  function HashPayload(sha: string -> string, v: Json): string {
    PREFIX + sha(CanonicalText(v))
  }

  /** `hashes_equal`: exact, and never true of an empty or missing hash. */
  predicate HashesEqual(left: string, right: string) {
    left != "" && right != "" && left == right
  }

  // ---- json.loads ----------------------------------------------------------------

  predicate IsSpace(c: char) {
    c == ' ' || c == '\t' || c == '\n' || c == '\r'
  }

  function Skip(s: string): (t: string)
    ensures |t| <= |s|
  {
    if s != "" && IsSpace(s[0]) then Skip(s[1..]) else s
  }

  predicate IsDigit(c: char) {
    '0' <= c <= '9'
  }

  function HexValue(c: char): (r: Option<int>)
    ensures r.Some? ==> 0 <= r.value < 16
  {
    if IsDigit(c) then Some(c as int - '0' as int)
    else if 'a' <= c <= 'f' then Some(c as int - 'a' as int + 10)
    else if 'A' <= c <= 'F' then Some(c as int - 'A' as int + 10)
    else None
  }

  function ReadHex4(s: string): (r: Option<int>)
    ensures r.Some? ==> |s| >= 4 && 0 <= r.value < 0x10000
  {
    if |s| < 4 then None
    else
      match (HexValue(s[0]), HexValue(s[1]), HexValue(s[2]), HexValue(s[3]))
      case (Some(a), Some(b), Some(c), Some(d)) => Some(((a * 16 + b) * 16 + c) * 16 + d)
      case _ => None
  }

  /** The part of an escape after the backslash. A surrogate must be half of a pair. */
  function ReadEscape(s: string): (r: Option<(char, string)>)
    ensures r.Some? ==> |r.value.1| < |s|
  {
    if s == "" then None
    else if s[0] == '"' then Some(('"', s[1..]))
    else if s[0] == '\\' then Some(('\\', s[1..]))
    else if s[0] == '/' then Some(('/', s[1..]))
    else if s[0] == 'b' then Some((8 as char, s[1..]))
    else if s[0] == 'f' then Some((12 as char, s[1..]))
    else if s[0] == 'n' then Some(('\n', s[1..]))
    else if s[0] == 'r' then Some(('\r', s[1..]))
    else if s[0] == 't' then Some(('\t', s[1..]))
    else if s[0] == 'u' then
      match ReadHex4(s[1..])
      case None => None
      case Some(hi) =>
        if hi < 0xD800 || 0xE000 <= hi then Some((hi as char, s[5..]))
        else if hi < 0xDC00 && |s| >= 7 && s[5] == '\\' && s[6] == 'u' then
          match ReadHex4(s[7..])
          case None => None
          case Some(lo) =>
            if 0xDC00 <= lo < 0xE000
            then Some(((0x10000 + (hi - 0xD800) * 1024 + (lo - 0xDC00)) as char, s[11..]))
            else None
        else None
    else None
  }

  function ReadChar(s: string): (r: Option<(char, string)>)
    ensures r.Some? ==> |r.value.1| < |s|
  {
    if s == "" || s[0] < ' ' then None
    else if s[0] == '\\' then ReadEscape(s[1..])
    else Some((s[0], s[1..]))
  }

  /** The rest of a string literal, its opening quote already read. */
  function ReadString(s: string): (r: Option<(string, string)>)
    ensures r.Some? ==> |r.value.1| < |s|
  {
    if s == "" then None
    else if s[0] == '"' then Some(("", s[1..]))
    else
      match ReadChar(s)
      case None => None
      case Some((c, t)) =>
        match ReadString(t)
        case None => None
        case Some((cs, rest)) => Some(([c] + cs, rest))
  }

  function DigitRun(s: string): (n: nat)
    ensures n <= |s|
  {
    if s != "" && IsDigit(s[0]) then 1 + DigitRun(s[1..]) else 0
  }

  function DecimalValue(ds: string): int {
    if ds == "" then 0
    else DecimalValue(ds[..|ds| - 1]) * 10 + (ds[|ds| - 1] as int - '0' as int)
  }

  /** Unsigned digits without a leading zero. A fraction or an exponent would make a float:
      outside the model. */
  function ReadDigits(t: string): (r: Option<(int, string)>)
    ensures r.Some? ==> |r.value.1| < |t|
  {
    var run := DigitRun(t);
    if run == 0 then None
    else
      var len := if t[0] == '0' then 1 else run;
      var rest := t[len..];
      if rest != "" && (rest[0] == '.' || rest[0] == 'e' || rest[0] == 'E') then None
      else Some((DecimalValue(t[..len]), rest))
  }

  function ReadNumber(s: string): (r: Option<(Json, string)>)
    ensures r.Some? ==> |r.value.1| < |s|
  {
    var negative := s != "" && s[0] == '-';
    match ReadDigits(if negative then s[1..] else s)
    case None => None
    case Some((value, rest)) => Some((Num(if negative then -value else value), rest))
  }

  function ReadValue(s: string): (r: Option<(Json, string)>)
    ensures r.Some? ==> |r.value.1| < |s|
    decreases |s|, 1
  {
    if s == "" then None
    else if s[0] == '"' then
      match ReadString(s[1..])
      case None => None
      case Some((text, rest)) => Some((Str(text), rest))
    else if s[0] == '[' then
      var t := Skip(s[1..]);
      if t != "" && t[0] == ']' then Some((Arr([]), t[1..]))
      else
        match ReadItems(t)
        case None => None
        case Some((xs, rest)) => Some((Arr(xs), rest))
    else if s[0] == '{' then
      var t := Skip(s[1..]);
      if t != "" && t[0] == '}' then Some((Obj([]), t[1..]))
      else
        match ReadMembers(t)
        case None => None
        case Some((ms, rest)) => Some((Obj(DictOf(ms)), rest))
    else if "null" <= s then Some((Null, s[4..]))
    else if "true" <= s then Some((Bool(true), s[4..]))
    else if "false" <= s then Some((Bool(false), s[5..]))
    else ReadNumber(s)
  }

  function ReadItems(s: string): (r: Option<(seq<Json>, string)>)
    ensures r.Some? ==> |r.value.1| < |s|
    decreases |s|, 2
  {
    match ReadValue(s)
    case None => None
    case Some((v, t)) =>
      var u := Skip(t);
      if u == "" then None
      else if u[0] == ']' then Some(([v], u[1..]))
      else if u[0] == ',' then
        match ReadItems(Skip(u[1..]))
        case None => None
        case Some((vs, rest)) => Some(([v] + vs, rest))
      else None
  }

  function ReadMember(s: string): (r: Option<(Member, string)>)
    ensures r.Some? ==> |r.value.1| < |s|
    decreases |s|, 2
  {
    if s == "" || s[0] != '"' then None
    else
      match ReadString(s[1..])
      case None => None
      case Some((key, t)) =>
        var u := Skip(t);
        if u == "" || u[0] != ':' then None
        else
          match ReadValue(Skip(u[1..]))
          case None => None
          case Some((v, rest)) => Some((Member(key, v), rest))
  }

  function ReadMembers(s: string): (r: Option<(seq<Member>, string)>)
    ensures r.Some? ==> |r.value.1| < |s|
    decreases |s|, 3
  {
    match ReadMember(s)
    case None => None
    case Some((m, t)) =>
      var u := Skip(t);
      if u == "" then None
      else if u[0] == '}' then Some(([m], u[1..]))
      else if u[0] == ',' then
        match ReadMembers(Skip(u[1..]))
        case None => None
        case Some((ms, rest)) => Some(([m] + ms, rest))
      else None
  }

  /** `json.loads` on the text of one document. */
  function Loads(s: string): Option<Json> {
    match ReadValue(Skip(s))
    case None => None
    case Some((v, rest)) => if Skip(rest) == "" then Some(v) else None
  }
}
