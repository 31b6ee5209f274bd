/** `format_amount` spelled out: which codes it takes, how many minor digits each currency has, how
    amounts beyond 28 digits are rounded, and where the sign, the symbol and the code stand. */
module MoneyForm {
  import opened Prelude
  import opened CanonicalJson
  import JsonRoundTrip
  import opened Timestamps
  import opened Money

  // ---- currency codes ------------------------------------------------------------------------------

  /** An ASCII letter, and the same letter in lower case. */
  predicate LowerOf(c: char, low: char) {
    ('A' <= c <= 'Z' && low as int == c as int + 32) || ('a' <= c <= 'z' && low == c)
  }

  /** White space aside, three letters, which the code has in lower case. */
  predicate Spells(left: string, word: string, right: string, code: string) {
    && IsBlank(left) && IsBlank(right) && |word| == 3 && |code| == 3
    && LowerOf(word[0], code[0]) && LowerOf(word[1], code[1]) && LowerOf(word[2], code[2])
  }

  ghost predicate Names(currency: string, code: string) {
    exists left, word, right :: Spells(left, word, right, code) && currency == left + word + right
  }

  lemma {:induction false} LowerEach(s: string)
    ensures |Lower(s)| == |s| && forall i | 0 <= i < |s| :: Lower(s)[i] == LowerChar(s[i])
  {
    if s != "" { LowerEach(s[1..]); }
  }

  /** A currency is taken exactly when it spells a code of three letters, in any case and with any
      white space around it; everything else is a currency error. */
  lemma NormalisesAsSaid(currency: string, code: string)
    ensures Normalise(currency) == Success(code) <==> Names(currency, code)
  {
    var word := Strip(currency);
    LowerEach(word);
    if Normalise(currency) == Success(code) {
      var left, right := StripSplits(currency);
      assert Spells(left, word, right, code);
    }
    if Names(currency, code) {
      var left, w, right :| Spells(left, w, right, code) && currency == left + w + right;
      StripIs(left, w, right);
      assert Lower(word) == code;
    }
  }

  // ---- the tables ------------------------------------------------------------------------------------

  lemma MinorDigits(code: string)
    ensures Exponent(code)
         == if || code == "bif" || code == "clp" || code == "djf" || code == "gnf" || code == "jpy" || code == "kmf"
               || code == "krw" || code == "mga" || code == "pyg" || code == "rwf" || code == "ugx" || code == "vnd"
               || code == "vuv" || code == "xaf" || code == "xof" || code == "xpf" then 0
            else if code == "bhd" || code == "jod" || code == "kwd" || code == "omr" || code == "tnd" then 3
            else 2
  {
  }

  /** The currencies with a symbol. */
  const SIGNS: map<string, string> := map[
    "usd" := "$", "eur" := "€", "gbp" := "£", "jpy" := "¥", "cny" := "¥", "inr" := "₹", "krw" := "₩",
    "cad" := "CA$", "aud" := "A$", "nzd" := "NZ$", "chf" := "CHF ", "sek" := "SEK ", "nok" := "NOK ",
    "dkk" := "DKK ", "pln" := "PLN ", "brl" := "R$", "mxn" := "MX$", "zar" := "R", "sgd" := "S$",
    "hkd" := "HK$", "aed" := "AED "]

  lemma SymbolsOf(code: string)
    ensures Symbol(code) == if code in SIGNS then Some(SIGNS[code]) else None
  {
  }

  // ---- rounding ----------------------------------------------------------------------------------------

  /** The multiple of `unit` that is nearest to `n`, and of two the even one. */
  predicate NearestTo(n: nat, unit: nat, q: nat) {
    && 2 * (q * unit - n) <= unit && 2 * (n - q * unit) <= unit
    && (2 * (q * unit - n) == unit || 2 * (n - q * unit) == unit ==> q % 2 == 0)
  }

  lemma NearestIs(n: nat, unit: nat) returns (q: nat)
    requires unit > 0
    ensures Nearest(n, unit) == q * unit && NearestTo(n, unit, q)
  {
    var k, r := Quotient(n, unit), Remainder(n, unit);
    NextMultiple(k, unit);
    q := if 2 * r > unit || (2 * r == unit && k % 2 == 1) then k + 1 else k;
  }

  /** An amount keeps its first 28 digits, the last of them rounded half to even. */
  lemma RoundedAsSaid(n: nat) returns (q: nat)
    ensures |Digits(n)| <= 28 ==> Rounded(n) == n
    ensures |Digits(n)| > 28 ==>
              var unit := Pow10(|Digits(n)| - 28); Rounded(n) == q * unit && NearestTo(n, unit, q)
  {
    q := 0;
    if |Digits(n)| > 28 { q := NearestIs(n, Pow10(|Digits(n)| - 28)); }
  }

  // ---- the whole display --------------------------------------------------------------------------------

  lemma {:induction false} UpperEach(s: string)
    ensures |Upper(s)| == |s| && forall i | 0 <= i < |s| :: Upper(s)[i] == UpperChar(s[i])
  {
    if s != "" { UpperEach(s[1..]); }
  }

  /** The digits of a whole number, with a comma after every third from the right. */
  predicate Grouped(ds: string, t: string) {
    && OnlyDigits(t) == ds && t != "" && IsDigit(t[0])
    && forall i | 0 <= i < |t| :: if i % 4 == 3 then t[|t| - 1 - i] == ',' else IsDigit(t[|t| - 1 - i])
  }

  lemma {:induction false} GroupDigits(ds: string, i: nat)
    requires OnlyDigit(ds) && i < |Group(ds)|
    ensures Group(ds)[i] == ',' || IsDigit(Group(ds)[i])
    decreases |ds|
  {
    if |ds| > 3 && i < |Group(ds[..|ds| - 3])| { GroupDigits(ds[..|ds| - 3], i); }
  }

  lemma GroupIsGrouped(ds: string)
    requires OnlyDigit(ds) && ds != ""
    ensures Grouped(ds, Group(ds))
  {
    var t := Group(ds);
    OnlyDigitsGroup(ds);
    GroupStart(ds);
    forall i | 0 <= i < |t| ensures if i % 4 == 3 then t[|t| - 1 - i] == ',' else IsDigit(t[|t| - 1 - i]) {
      GroupShape(ds, i);
      GroupDigits(ds, |t| - 1 - i);
    }
  }

  /** Whole units without a zero in front, in groups of three; then, after a point, as many minor
      digits as the currency has; together they are the amount. */
  ghost predicate Spelled(v: nat, e: nat, whole: string, fraction: string, figures: string) {
    && whole != "" && OnlyDigit(whole) && (|whole| > 1 ==> whole[0] != '0')
    && |fraction| == e && OnlyDigit(fraction) && DecimalValue(whole + fraction) == v
    && if e == 0 then Grouped(whole, figures)
       else exists grouped :: Grouped(whole, grouped) && figures == grouped + "." + fraction
  }

  lemma FiguresSpelled(v: nat, e: nat) returns (whole: string, fraction: string)
    ensures Spelled(v, e, whole, fraction, Figures(v, e))
  {
    whole, fraction := Digits(Quotient(v, Pow10(e))), Pad(Remainder(v, Pow10(e)), e);
    JsonRoundTrip.DigitsRoundTrip(Quotient(v, Pow10(e)));
    PadRoundTrip(Remainder(v, Pow10(e)), e);
    DecimalAppendsPad(whole, Remainder(v, Pow10(e)), e);
    GroupIsGrouped(whole);
    if e == 0 {
      assert Group(whole) + "" == Group(whole);
    } else {
      assert Figures(v, e) == Group(whole) + "." + fraction;
    }
  }

  /** Sign, symbol, figures; or, without a symbol, sign, figures, a space, and the code in capitals. */
  lemma DisplayAsSaid(minor: int, currency: string, withSymbol: bool, code: string)
    returns (figures: string, whole: string, fraction: string, capitals: string)
    requires Names(currency, code)
    ensures var n: int := if minor < 0 then 0 - Rounded(-minor) else Rounded(minor);
            && Spelled(if n < 0 then -n else n, Exponent(code), whole, fraction, figures)
            && |capitals| == 3 && (forall i | 0 <= i < 3 :: capitals[i] as int == code[i] as int - 32)
            && FormatAmount(minor, currency, withSymbol)
               == Success((if n < 0 then "-" else "")
                          + if withSymbol && code in SIGNS then SIGNS[code] + figures else figures + " " + capitals)
  {
    NormalisesAsSaid(currency, code);
    SymbolsOf(code);
    var n := SignedRounded(minor);
    figures, capitals := Figures(Abs(n), Exponent(code)), Upper(code);
    whole, fraction := FiguresSpelled(Abs(n), Exponent(code));
    UpperEach(code);
    SignSplits(minor, currency, withSymbol);
    var t := Unsigned(Abs(n), code, withSymbol);
    assert "" + t == t;
  }
}
