/** shared/money.py: the one string that may appear in a letter, and what can be read off it.

    `Decimal` keeps 28 significant digits (its default context), half to even: below that
    the display is exact, above it it is not, whatever its documentation says. */
module Money {
  import opened Prelude
  import opened CanonicalJson
  import opened JsonRoundTrip
  import opened Timestamps

  // ---- currency codes ------------------------------------------------------------------------

  function LowerChar(c: char): char {
    if 'A' <= c <= 'Z' then (c as int + 32) as char else c
  }

  function UpperChar(c: char): char {
    if 'a' <= c <= 'z' then (c as int - 32) as char else c
  }

  function Lower(s: string): string {
    if s == "" then "" else [LowerChar(s[0])] + Lower(s[1..])
  }

  function Upper(s: string): string {
    if s == "" then "" else [UpperChar(s[0])] + Upper(s[1..])
  }

  predicate IsCode(s: string) {
    |s| == 3 && 'a' <= s[0] <= 'z' && 'a' <= s[1] <= 'z' && 'a' <= s[2] <= 'z'
  }

  datatype MoneyError = CurrencyError

  /** `normalise`, over ASCII letters. */
  function Normalise(currency: string): (r: Result<string, MoneyError>)
    ensures r.Success? ==> IsCode(r.value)
  {
    var code := Lower(Strip(currency));
    if IsCode(code) then Success(code) else Failure(CurrencyError)
  }

  const ZERO_DECIMAL := {"bif", "clp", "djf", "gnf", "jpy", "kmf", "krw", "mga", "pyg", "rwf", "ugx", "vnd", "vuv",
                         "xaf", "xof", "xpf"}
  const THREE_DECIMAL := {"bhd", "jod", "kwd", "omr", "tnd"}

  function Exponent(code: string): (e: nat)
    ensures e == 0 || e == 2 || e == 3
  {
    if code in ZERO_DECIMAL then 0 else if code in THREE_DECIMAL then 3 else 2
  }

  function Symbol(code: string): Option<string> {
    match code
    case "usd" => Some("$")
    case "eur" => Some("€")
    case "gbp" => Some("£")
    case "jpy" => Some("¥")
    case "cny" => Some("¥")
    case "inr" => Some("₹")
    case "krw" => Some("₩")
    case "cad" => Some("CA$")
    case "aud" => Some("A$")
    case "nzd" => Some("NZ$")
    case "chf" => Some("CHF ")
    case "sek" => Some("SEK ")
    case "nok" => Some("NOK ")
    case "dkk" => Some("DKK ")
    case "pln" => Some("PLN ")
    case "brl" => Some("R$")
    case "mxn" => Some("MX$")
    case "zar" => Some("R")
    case "sgd" => Some("S$")
    case "hkd" => Some("HK$")
    case "aed" => Some("AED ")
    case _ => None
  }

  // ---- the default decimal context -------------------------------------------------------------

  const PRECISION := 28

  function Abs(n: int): nat {
    if n < 0 then -n else n
  }

  function Quotient(n: nat, d: nat): (q: nat)
    requires d > 0
  {
    n / d
  }

  function Remainder(n: nat, d: nat): (r: nat)
    requires d > 0
    ensures r < d && Quotient(n, d) * d + r == n
  {
    n % d
  }

  /** `n` to 28 significant digits, half to even. */
  function Rounded(n: nat): nat {
    var places := |Digits(n)|;
    if places <= PRECISION then n
    else Nearest(n, Pow10(places - PRECISION))
  }

  /** The multiple of `unit` nearest to `n`; of two, the even one. */
  function Nearest(n: nat, unit: nat): nat
    requires unit > 0
  {
    var q, r := Quotient(n, unit), Remainder(n, unit);
    if 2 * r > unit || (2 * r == unit && q % 2 == 1) then (q + 1) * unit else q * unit
  }

  function SignedRounded(n: int): int {
    if n < 0 then 0 - Rounded(-n) else Rounded(n)
  }

  // ---- format_amount ------------------------------------------------------------------------------

  /** A comma before every third digit from the right. */
  function Group(ds: string): string {
    if |ds| <= 3 then ds else Group(ds[..|ds| - 3]) + "," + ds[|ds| - 3..]
  }

  /** `f"{value:,.{places}f}"` of `v` minor units. */
  function Figures(v: nat, e: nat): string {
    Group(Digits(Quotient(v, Pow10(e)))) + if e == 0 then "" else "." + Pad(Remainder(v, Pow10(e)), e)
  }

  function FormatAmount(minor: int, currency: string, withSymbol: bool): Result<string, MoneyError> {
    match Normalise(currency)
    case Failure(e) => Failure(e)
    case Success(code) =>
      var sign := if SignedRounded(minor) < 0 then "-" else "";
      var figures := Figures(Abs(SignedRounded(minor)), Exponent(code));
      if withSymbol && Symbol(code).Some? then Success(sign + Symbol(code).value + figures)
      else Success(sign + figures + " " + Upper(code))
  }

  // ---- reading a display back ----------------------------------------------------------------------

  function OnlyDigits(s: string): string {
    if s == "" then "" else (if IsDigit(s[0]) then [s[0]] else "") + OnlyDigits(s[1..])
  }

  /** Everything before the first digit. */
  function BeforeDigits(s: string): string {
    if s == "" || IsDigit(s[0]) then "" else [s[0]] + BeforeDigits(s[1..])
  }

  /** The currency a symbol stands for; two share one, and differ by the decimal point. */
  function CodeOfSymbol(symbol: string, pointed: bool): string {
    match symbol
    case "$" => "usd"
    case "€" => "eur"
    case "£" => "gbp"
    case "¥" => if pointed then "cny" else "jpy"
    case "₹" => "inr"
    case "₩" => "krw"
    case "CA$" => "cad"
    case "A$" => "aud"
    case "NZ$" => "nzd"
    case "CHF " => "chf"
    case "SEK " => "sek"
    case "NOK " => "nok"
    case "DKK " => "dkk"
    case "PLN " => "pln"
    case "R$" => "brl"
    case "MX$" => "mxn"
    case "R" => "zar"
    case "S$" => "sgd"
    case "HK$" => "hkd"
    case _ => "aed"
  }

  /** The currency of a display without its sign. */
  function ReadCode(t: string): string {
    if t == "" || IsDigit(t[|t| - 1]) then CodeOfSymbol(BeforeDigits(t), '.' in t)
    else if |t| >= 3 then Lower(t[|t| - 3..]) else ""
  }

  function ReadUnsigned(t: string): (int, string) {
    (DecimalValue(OnlyDigits(t)), ReadCode(t))
  }

  /** Amount in minor units and currency, from nothing but the display. */
  function Read(s: string): (int, string) {
    if s != "" && s[0] == '-' then Negated(ReadUnsigned(s[1..])) else ReadUnsigned(s)
  }

  function Negated(r: (int, string)): (int, string) {
    (0 - r.0, r.1)
  }

  // ---- digits -------------------------------------------------------------------------------------

  predicate NoDigits(s: string) {
    forall i | 0 <= i < |s| :: !IsDigit(s[i])
  }

  predicate OnlyDigit(s: string) {
    forall i | 0 <= i < |s| :: IsDigit(s[i])
  }

  lemma {:induction false} OnlyDigitsConcat(a: string, b: string)
    ensures OnlyDigits(a + b) == OnlyDigits(a) + OnlyDigits(b)
  {
    if a == "" {
      assert a + b == b;
    } else {
      assert (a + b)[1..] == a[1..] + b;
      OnlyDigitsConcat(a[1..], b);
      var first := if IsDigit(a[0]) then [a[0]] else "";
      assert first + (OnlyDigits(a[1..]) + OnlyDigits(b)) == first + OnlyDigits(a[1..]) + OnlyDigits(b);
    }
  }

  lemma {:induction false} OnlyDigitsSame(s: string)
    requires OnlyDigit(s)
    ensures OnlyDigits(s) == s
  {
    if s != "" {
      OnlyDigitsSame(s[1..]);
      assert s == [s[0]] + s[1..];
    }
  }

  lemma {:induction false} OnlyDigitsNone(s: string)
    requires NoDigits(s)
    ensures OnlyDigits(s) == ""
  {
    if s != "" { OnlyDigitsNone(s[1..]); }
  }

  lemma {:induction false} BeforeDigitsOf(p: string, body: string)
    requires NoDigits(p) && body != "" && IsDigit(body[0])
    ensures BeforeDigits(p + body) == p
  {
    if p == "" {
      assert p + body == body;
    } else {
      assert (p + body)[1..] == p[1..] + body;
      BeforeDigitsOf(p[1..], body);
    }
  }

  lemma {:induction false} OnlyDigitsGroup(ds: string)
    requires OnlyDigit(ds)
    ensures OnlyDigits(Group(ds)) == ds
  {
    if |ds| <= 3 {
      OnlyDigitsSame(ds);
    } else {
      var k := |ds| - 3;
      OnlyDigitsGroup(ds[..k]);
      OnlyDigitsSame(ds[k..]);
      OnlyDigitsNone(",");
      OnlyDigitsConcat(Group(ds[..k]) + ",", ds[k..]);
      OnlyDigitsConcat(Group(ds[..k]), ",");
      assert ds[..k] + "" + ds[k..] == ds;
    }
  }

  /** The grouping is the usual one: a comma at every fourth place from the right, no other. */
  lemma {:induction false} GroupShape(ds: string, i: nat)
    requires OnlyDigit(ds) && i < |Group(ds)|
    ensures (Group(ds)[|Group(ds)| - 1 - i] == ',') <==> i % 4 == 3
    ensures ds != "" ==> IsDigit(Group(ds)[0])
  {
    if |ds| > 3 {
      var k := |ds| - 3;
      GroupStart(ds[..k]);
      if i >= 4 { GroupShape(ds[..k], i - 4); }
    }
  }

  lemma {:induction false} GroupStart(ds: string)
    requires ds != ""
    ensures Group(ds) != "" && Group(ds)[0] == ds[0] && Group(ds)[|Group(ds)| - 1] == ds[|ds| - 1]
  {
    if |ds| > 3 { GroupStart(ds[..|ds| - 3]); }
  }

  lemma {:induction false} GroupPointless(ds: string)
    requires OnlyDigit(ds)
    ensures '.' !in Group(ds)
  {
    if |ds| > 3 { GroupPointless(ds[..|ds| - 3]); }
  }

  lemma {:induction false} DecimalAppendsPad(ds: string, f: nat, e: nat)
    requires f < Pow10(e)
    ensures DecimalValue(ds + Pad(f, e)) == DecimalValue(ds) * Pow10(e) + f
  {
    if e == 0 {
      assert ds + Pad(f, e) == ds;
    } else {
      var s := ds + Pad(f, e);
      DecimalAppendsPad(ds, f / 10, e - 1);
      assert s[..|s| - 1] == ds + Pad(f / 10, e - 1);
      assert s[|s| - 1] == HexDigit(f % 10);
      ShiftOne(DecimalValue(ds), Pow10(e - 1));
    }
  }

  lemma ShiftOne(a: int, p: int)
    ensures a * p * 10 == a * (10 * p)
  {
  }

  // ---- figures ---------------------------------------------------------------------------------------

  lemma PrefixDigits(p: string, f: string)
    requires NoDigits(p)
    ensures OnlyDigits(p + f) == OnlyDigits(f)
  {
    OnlyDigitsConcat(p, f);
    OnlyDigitsNone(p);
    assert "" + OnlyDigits(f) == OnlyDigits(f);
  }

  lemma SuffixDigits(f: string, q: string)
    requires NoDigits(q)
    ensures OnlyDigits(f + q) == OnlyDigits(f)
  {
    OnlyDigitsConcat(f, q);
    OnlyDigitsNone(q);
    assert OnlyDigits(f) + "" == OnlyDigits(f);
  }

  lemma PointedDigits(whole: string, f: string)
    requires OnlyDigit(f)
    ensures OnlyDigits(whole + ("." + f)) == OnlyDigits(whole) + f
  {
    OnlyDigitsConcat(whole, "." + f);
    PrefixDigits(".", f);
    OnlyDigitsSame(f);
  }

  lemma FiguresDigits(v: nat, e: nat)
    ensures OnlyDigits(Figures(v, e)) == Digits(Quotient(v, Pow10(e))) + Pad(Remainder(v, Pow10(e)), e)
  {
    var ds, f := Digits(Quotient(v, Pow10(e))), Pad(Remainder(v, Pow10(e)), e);
    DigitsRoundTrip(Quotient(v, Pow10(e)));
    OnlyDigitsGroup(ds);
    if e > 0 {
      PadRoundTrip(Remainder(v, Pow10(e)), e);
      PointedDigits(Group(ds), f);
    } else {
      assert Group(ds) + "" == Group(ds) && ds + f == ds;
    }
  }

  lemma FiguresShape(v: nat, e: nat)
    ensures var s := Figures(v, e); s != "" && IsDigit(s[0]) && IsDigit(s[|s| - 1]) && ('.' in s <==> e > 0)
    ensures e > 0 ==> |Figures(v, e)| > e && Figures(v, e)[|Figures(v, e)| - 1 - e] == '.'
  {
    var ds := Digits(Quotient(v, Pow10(e)));
    DigitsRoundTrip(Quotient(v, Pow10(e)));
    GroupStart(ds);
    GroupPointless(ds);
    if e > 0 {
      PadRoundTrip(Remainder(v, Pow10(e)), e);
      assert Figures(v, e)[|Group(ds)|] == '.';
    }
  }

  lemma FiguresValue(v: nat, e: nat)
    ensures DecimalValue(OnlyDigits(Figures(v, e))) == v
  {
    FiguresDigits(v, e);
    DigitsRoundTrip(Quotient(v, Pow10(e)));
    DecimalAppendsPad(Digits(Quotient(v, Pow10(e))), Remainder(v, Pow10(e)), e);
  }

  // ---- codes and symbols -----------------------------------------------------------------------------

  lemma UpperLower(code: string)
    requires IsCode(code)
    ensures Lower(Upper(code)) == code && |Upper(code)| == 3 && NoDigits(Upper(code))
    ensures !IsDigit(Upper(code)[2]) && '-' !in Upper(code)
  {
    var u := [UpperChar(code[0]), UpperChar(code[1]), UpperChar(code[2])];
    assert Upper(code[3..]) == "";
    assert Upper(code[2..]) == [u[2]] && code[2..][1..] == code[3..];
    assert code[1..][1..] == code[2..] && Upper(code[1..]) == [u[1]] + [u[2]];
    assert Upper(code) == u;
    assert u[1..][1..] == u[2..] && u[2..][1..] == u[3..] && Lower(u[3..]) == "";
    assert Lower(u[2..]) == [code[2]] && Lower(u[1..]) == [code[1]] + [code[2]];
    assert Lower(u) == [code[0], code[1], code[2]] == code;
  }

  /** A symbol has no digit and no sign, and with the decimal point it names one currency. */
  lemma SymbolIdentifies(code: string)
    requires Symbol(code).Some?
    ensures NoDigits(Symbol(code).value) && Symbol(code).value != "" && '-' !in Symbol(code).value
    ensures '.' !in Symbol(code).value
    ensures CodeOfSymbol(Symbol(code).value, Exponent(code) > 0) == code
  {
  }

  // ---- what a display says ------------------------------------------------------------------------------

  /** The part of a display after its sign. */
  function Unsigned(v: nat, code: string, withSymbol: bool): string {
    if withSymbol && Symbol(code).Some? then Symbol(code).value + Figures(v, Exponent(code))
    else Figures(v, Exponent(code)) + " " + Upper(code)
  }

  lemma UnsignedDigits(v: nat, code: string, withSymbol: bool)
    requires IsCode(code)
    ensures DecimalValue(OnlyDigits(Unsigned(v, code, withSymbol))) == v
  {
    var figures := Figures(v, Exponent(code));
    FiguresValue(v, Exponent(code));
    if withSymbol && Symbol(code).Some? {
      SymbolIdentifies(code);
      PrefixDigits(Symbol(code).value, figures);
    } else {
      UpperLower(code);
      SuffixDigits(figures, " " + Upper(code));
      assert figures + " " + Upper(code) == figures + (" " + Upper(code));
    }
  }

  lemma SymbolDisplayCode(v: nat, code: string)
    requires Symbol(code).Some?
    ensures var t := Symbol(code).value + Figures(v, Exponent(code));
            t != "" && t[0] != '-' && ReadCode(t) == code
  {
    var figures, t := Figures(v, Exponent(code)), Symbol(code).value + Figures(v, Exponent(code));
    SymbolIdentifies(code);
    FiguresShape(v, Exponent(code));
    BeforeDigitsOf(Symbol(code).value, figures);
    assert t[|t| - 1] == figures[|figures| - 1];
    assert '.' in t <==> '.' in figures;
  }

  lemma CodeDisplayCode(v: nat, code: string)
    requires IsCode(code)
    ensures var t := Figures(v, Exponent(code)) + " " + Upper(code);
            t != "" && t[0] != '-' && ReadCode(t) == code
  {
    var t := Figures(v, Exponent(code)) + " " + Upper(code);
    UpperLower(code);
    FiguresShape(v, Exponent(code));
    assert t[|t| - 3..] == Upper(code);
  }

  lemma {:induction false} DigitsAtLeast(n: nat)
    requires n > 0
    ensures Pow10(|Digits(n)| - 1) <= n < Pow10(|Digits(n)|)
  {
    if n >= 10 { DigitsAtLeast(n / 10); }
  }

  lemma {:induction false} PowAscends(a: nat, b: nat)
    requires a <= b
    ensures Pow10(a) <= Pow10(b)
  {
    if a < b { PowAscends(a, b - 1); }
  }

  lemma UnsignedReads(v: nat, code: string, withSymbol: bool)
    requires IsCode(code)
    ensures var t := Unsigned(v, code, withSymbol); t != "" && t[0] != '-' && ReadUnsigned(t) == (v, code)
  {
    UnsignedDigits(v, code, withSymbol);
    if withSymbol && Symbol(code).Some? { SymbolDisplayCode(v, code); } else { CodeDisplayCode(v, code); }
  }

  /** Strip the sign, the symbol or the code and the separators, and the minor units are there,
      with their currency: `Read` undoes `format_amount`, up to 28 significant digits. */
  lemma ReadDisplay(minor: int, currency: string, withSymbol: bool)
    requires Normalise(currency).Success?
    ensures Read(FormatAmount(minor, currency, withSymbol).value) == (SignedRounded(minor), Normalise(currency).value)
  {
    var code, n := Normalise(currency).value, SignedRounded(minor);
    UnsignedReads(Abs(n), code, withSymbol);
    SignSplits(minor, currency, withSymbol);
    ReadSigned(Unsigned(Abs(n), code, withSymbol), n < 0);
  }

  lemma ReadSigned(t: string, negative: bool)
    requires t != "" && t[0] != '-'
    ensures Read(if negative then "-" + t else t) == if negative then Negated(ReadUnsigned(t)) else ReadUnsigned(t)
  {
    assert ("-" + t)[1..] == t;
  }

  lemma SignSplits(minor: int, currency: string, withSymbol: bool)
    requires Normalise(currency).Success?
    ensures var code := Normalise(currency).value;
            var t := Unsigned(Abs(SignedRounded(minor)), code, withSymbol);
            FormatAmount(minor, currency, withSymbol).value == (if SignedRounded(minor) < 0 then "-" + t else t)
  {
    var code := Normalise(currency).value;
    var figures := Figures(Abs(SignedRounded(minor)), Exponent(code));
    if SignedRounded(minor) < 0 {
      if withSymbol && Symbol(code).Some? {
        assert "-" + Symbol(code).value + figures == "-" + (Symbol(code).value + figures);
      } else {
        assert "-" + figures + " " + Upper(code) == "-" + (figures + " " + Upper(code));
      }
    } else {
      assert "" + figures == figures;
      if withSymbol && Symbol(code).Some? { assert "" + Symbol(code).value == Symbol(code).value; }
    }
  }

  /** No two amounts in any two currencies share a display, with or without symbols. */
  lemma DisplayIdentifies(a: int, x: string, b: int, y: string, withSymbol: bool, withSymbol': bool)
    requires Normalise(x).Success? && Normalise(y).Success?
    ensures FormatAmount(a, x, withSymbol) == FormatAmount(b, y, withSymbol') ==>
              Normalise(x) == Normalise(y) && SignedRounded(a) == SignedRounded(b)
    ensures withSymbol == withSymbol' && Normalise(x) == Normalise(y) && SignedRounded(a) == SignedRounded(b) ==>
              FormatAmount(a, x, withSymbol) == FormatAmount(b, y, withSymbol')
  {
    ReadDisplay(a, x, withSymbol);
    ReadDisplay(b, y, withSymbol');
  }

  // ---- exactly when nothing is lost ------------------------------------------------------------------------

  /** At most 28 significant digits: the digits past the 28th, if any, are zeros. */
  predicate Exact(n: nat) {
    var places := |Digits(n)|;
    places > PRECISION ==> Remainder(n, Pow10(places - PRECISION)) == 0
  }

  /** The display is the amount exactly when the amount has at most 28 significant digits. */
  lemma DisplayIsExact(minor: int, currency: string, withSymbol: bool)
    requires Normalise(currency).Success?
    ensures Read(FormatAmount(minor, currency, withSymbol).value).0 == minor <==> Exact(Abs(minor))
    ensures Abs(minor) < Pow10(PRECISION) ==> Exact(Abs(minor))
  {
    ReadDisplay(minor, currency, withSymbol);
    RoundedExact(Abs(minor));
    ShortIsExact(Abs(minor));
  }

  lemma ShortIsExact(n: nat)
    ensures n < Pow10(PRECISION) ==> Exact(n)
  {
    if n > 0 && |Digits(n)| > PRECISION {
      DigitsAtLeast(n);
      PowAscends(PRECISION, |Digits(n)| - 1);
    }
  }

  lemma RoundedExact(n: nat)
    ensures Rounded(n) == n <==> Exact(n)
  {
    var places := |Digits(n)|;
    if places > PRECISION {
      var unit := Pow10(places - PRECISION);
      var q, r := Quotient(n, unit), Remainder(n, unit);
      NextMultiple(q, unit);
    }
  }

  lemma NextMultiple(q: int, unit: int)
    ensures (q + 1) * unit == q * unit + unit
  {
  }

  lemma PlacesAt(n: nat, k: nat, p: nat)
    requires k > 0 && p == Pow10(k) && p <= n <= p + 1
    ensures |Digits(n)| == k + 1
  {
    var places := |Digits(n)|;
    DigitsAtLeast(n);
    if places <= k { PowAscends(places, k); }
    assert Pow10(k + 1) == 10 * p;
    if places > k + 1 { PowAscends(k + 1, places - 1); }
  }

  lemma NearestTen(p: nat, q: nat)
    requires p == 10 * q
    ensures Nearest(p, 10) == p && Nearest(p + 1, 10) == p
  {
    assert p / 10 == q && (p + 1) / 10 == q && p % 10 == 0 && (p + 1) % 10 == 1;
  }

  lemma RoundedOneOver(n: nat)
    requires |Digits(n)| == PRECISION + 1
    ensures Rounded(n) == Nearest(n, 10)
  {
    assert Pow10(1) == 10;
  }

  lemma RoundedAt(k: nat, p: nat, q: nat)
    requires k == PRECISION && p == Pow10(k) && p == 10 * q
    ensures Rounded(p) == p && Rounded(p + 1) == p
  {
    PlacesAt(p, k, p);
    PlacesAt(p + 1, k, p);
    RoundedOneOver(p);
    RoundedOneOver(p + 1);
    NearestTen(p, q);
  }

  lemma RoundedBelow(n: nat, k: nat, p: nat)
    requires k == PRECISION && p == Pow10(k) && n < p
    ensures Rounded(n) == n
  {
    if n > 0 {
      DigitsAtLeast(n);
      if |Digits(n)| > k { PowAscends(k, |Digits(n)| - 1); }
    }
  }

  lemma PowTenfold(k: nat) returns (q: nat)
    requires k > 0
    ensures q == Pow10(k - 1) && Pow10(k) == 10 * q
  {
    q := Pow10(k - 1);
  }

  lemma ReadRounded(minor: nat, currency: string, withSymbol: bool, rounded: nat)
    requires Normalise(currency).Success? && Rounded(minor) == rounded
    ensures Read(FormatAmount(minor, currency, withSymbol).value).0 == rounded
  {
    ReadDisplay(minor, currency, withSymbol);
  }

  lemma ShownInFull(minor: nat, currency: string, withSymbol: bool, k: nat, p: nat)
    requires Normalise(currency).Success? && k == PRECISION && p == Pow10(k) && minor <= p
    ensures Read(FormatAmount(minor, currency, withSymbol).value).0 == minor
  {
    RoundedUpTo(minor, k, p);
    ReadRounded(minor, currency, withSymbol, minor);
  }

  lemma RoundedUpTo(minor: nat, k: nat, p: nat)
    requires k == PRECISION && p == Pow10(k) && minor <= p
    ensures Rounded(minor) == minor && Rounded(p + 1) == p
  {
    var q := PowTenfold(k);
    RoundedAt(k, p, q);
    if minor < p { RoundedBelow(minor, k, p); }
  }

  /** The first amount that is not displayed: one minor unit more than ten to the 28th is shown
      without that unit, in every currency; everything up to it is shown in full. */
  lemma OneUnitIsLost(minor: nat, currency: string, withSymbol: bool, p: nat)
    requires Normalise(currency).Success? && p == Pow10(PRECISION)
    ensures Read(FormatAmount(p + 1, currency, withSymbol).value).0 == p
    ensures minor <= p ==> Read(FormatAmount(minor, currency, withSymbol).value).0 == minor
  {
    RoundedUpTo(0, PRECISION, p);
    ReadRounded(p + 1, currency, withSymbol, p);
    if minor <= p { ShownInFull(minor, currency, withSymbol, PRECISION, p); }
  }
}
