/** shared/types.py: one text per instant, and texts in the order of the instants. */
module Timestamps {
  import opened Prelude
  import opened CanonicalJson

  // ---- order of concatenations -------------------------------------------------------------

  lemma {:induction false} TextLessConcat(p: string, q: string, r: string, s: string)
    requires |p| == |q|
    ensures TextLess(p + r, q + s) <==> TextLess(p, q) || (p == q && TextLess(r, s))
  {
    if p == "" {
      assert p + r == r && q + s == s;
    } else {
      assert (p + r)[1..] == p[1..] + r && (q + s)[1..] == q[1..] + s;
      TextLessConcat(p[1..], q[1..], r, s);
      assert p == [p[0]] + p[1..] && q == [q[0]] + q[1..];
    }
  }

  // ---- zero-padded numbers -------------------------------------------------------------------

  function Pow10(w: nat): (p: nat)
    ensures p > 0
  {
    if w == 0 then 1 else 10 * Pow10(w - 1)
  }

  function Pad(n: nat, w: nat): (s: string)
    ensures |s| == w
  {
    if w == 0 then "" else Pad(n / 10, w - 1) + [HexDigit(n % 10)]
  }

  lemma {:induction false} PadRoundTrip(n: nat, w: nat)
    requires n < Pow10(w)
    ensures DecimalValue(Pad(n, w)) == n
    ensures forall i | 0 <= i < w :: IsDigit(Pad(n, w)[i])
  {
    if w > 0 {
      PadRoundTrip(n / 10, w - 1);
      assert Pad(n, w)[..w - 1] == Pad(n / 10, w - 1);
    }
  }

  lemma {:induction false} PadOrder(a: nat, b: nat, w: nat)
    requires a < Pow10(w) && b < Pow10(w)
    ensures TextLess(Pad(a, w), Pad(b, w)) <==> a < b
    ensures Pad(a, w) == Pad(b, w) <==> a == b
  {
    PadRoundTrip(a, w);
    PadRoundTrip(b, w);
    if w > 0 {
      PadOrder(a / 10, b / 10, w - 1);
      TextLessConcat(Pad(a / 10, w - 1), Pad(b / 10, w - 1), [HexDigit(a % 10)], [HexDigit(b % 10)]);
      DigitOrder(a % 10, b % 10);
    }
  }

  lemma DigitOrder(a: nat, b: nat)
    requires a < 10 && b < 10
    ensures TextLess([HexDigit(a)], [HexDigit(b)]) <==> a < b
  {
  }

  // ---- fixed-width fields ----------------------------------------------------------------------

  const WIDTHS := [4, 2, 2, 2, 2, 2, 6]
  const MARKS := "--T::.Z"

  predicate Fits(vs: seq<nat>, k: nat) {
    k <= 7 && |vs| == 7 - k && forall i | 0 <= i < |vs| :: vs[i] < Pow10(WIDTHS[k + i])
  }

  /** The fields from the `k`th on, each followed by its mark. */
  function Render(vs: seq<nat>, k: nat): string
    requires k <= 7 && |vs| == 7 - k
    decreases |vs|
  {
    if vs == [] then "" else Pad(vs[0], WIDTHS[k]) + [MARKS[k]] + Render(vs[1..], k + 1)
  }

  predicate LexLess(a: seq<nat>, b: seq<nat>)
    requires |a| == |b|
  {
    a != [] && (a[0] < b[0] || (a[0] == b[0] && LexLess(a[1..], b[1..])))
  }

  lemma {:induction false} RenderOrder(a: seq<nat>, b: seq<nat>, k: nat)
    requires Fits(a, k) && Fits(b, k)
    ensures TextLess(Render(a, k), Render(b, k)) <==> LexLess(a, b)
    decreases |a|
  {
    if a != [] {
      var w := WIDTHS[k];
      RenderOrder(a[1..], b[1..], k + 1);
      PadOrder(a[0], b[0], w);
      var x, y := Pad(a[0], w) + [MARKS[k]], Pad(b[0], w) + [MARKS[k]];
      TextLessConcat(x, y, Render(a[1..], k + 1), Render(b[1..], k + 1));
      TextLessConcat(Pad(a[0], w), Pad(b[0], w), [MARKS[k]], [MARKS[k]]);
      TextLessIrreflexive([MARKS[k]]);
      assert x == y ==> x[..w] == y[..w];
    }
  }

  predicate AllDigits(s: string) {
    forall c | c in s :: IsDigit(c)
  }

  /** The fields of a text in the fixed form, and nothing of any other text. */
  function Scan(s: string, k: nat): Option<seq<nat>>
    requires k <= 7
    decreases 7 - k
  {
    if k == 7 then (if s == "" then Some([]) else None)
    else
      var w := WIDTHS[k];
      if |s| <= w || !AllDigits(s[..w]) || s[w] != MARKS[k] || DecimalValue(s[..w]) < 0 then None
      else
        match Scan(s[w + 1..], k + 1)
        case None => None
        case Some(rest) => Some([DecimalValue(s[..w]) as nat] + rest)
  }

  lemma FirstField(p: string, mark: char, rest: string)
    ensures var s := p + [mark] + rest; s[..|p|] == p && s[|p|] == mark && s[|p| + 1..] == rest
  {
  }

  lemma ScanOne(p: string, k: nat, v: nat, rest: string, vs: seq<nat>)
    requires k < 7 && |p| == WIDTHS[k] && DecimalValue(p) == v && AllDigits(p)
    requires Scan(rest, k + 1) == Some(vs)
    ensures Scan(p + [MARKS[k]] + rest, k) == Some([v] + vs)
  {
    FirstField(p, MARKS[k], rest);
  }

  lemma {:induction false} ScanRender(vs: seq<nat>, k: nat)
    requires Fits(vs, k)
    ensures Scan(Render(vs, k), k) == Some(vs)
    decreases |vs|
  {
    if vs == [] {
      assert k == 7;
    } else {
      FitsRest(vs, k);
      ScanRender(vs[1..], k + 1);
      ScanField(vs[0], k, Render(vs[1..], k + 1), vs[1..]);
      assert [vs[0]] + vs[1..] == vs;
    }
  }

  lemma PadScans(v: nat, w: nat)
    requires v < Pow10(w)
    ensures DecimalValue(Pad(v, w)) == v && AllDigits(Pad(v, w))
  {
    PadRoundTrip(v, w);
  }

  lemma ScanField(v: nat, k: nat, rest: string, vs: seq<nat>)
    requires k < 7 && v < Pow10(WIDTHS[k]) && Scan(rest, k + 1) == Some(vs)
    ensures Scan(Pad(v, WIDTHS[k]) + [MARKS[k]] + rest, k) == Some([v] + vs)
  {
    PadScans(v, WIDTHS[k]);
    ScanOne(Pad(v, WIDTHS[k]), k, v, rest, vs);
  }

  lemma FitsRest(vs: seq<nat>, k: nat)
    requires Fits(vs, k) && vs != []
    ensures k < 7 && vs[0] < Pow10(WIDTHS[k]) && Fits(vs[1..], k + 1)
  {
    assert vs[0] < Pow10(WIDTHS[k + 0]);
    forall i | 0 <= i < |vs| - 1 ensures vs[1..][i] < Pow10(WIDTHS[k + 1 + i]) {
      assert vs[i + 1] < Pow10(WIDTHS[k + (i + 1)]);
    }
  }

  // ---- the calendar ------------------------------------------------------------------------------

  datatype Instant = Instant(year: nat, month: nat, day: nat, hour: nat, minute: nat, second: nat, micro: nat)

  predicate IsLeap(y: nat) {
    y % 4 == 0 && (y % 100 != 0 || y % 400 == 0)
  }

  function DaysInMonth(y: nat, m: nat): nat {
    if m == 2 then (if IsLeap(y) then 29 else 28)
    else if m == 4 || m == 6 || m == 9 || m == 11 then 30 else 31
  }

  /** What the datetime constructor accepts, from the first year strftime writes with four
      digits on. */
  predicate Valid(i: Instant) {
    && 1000 <= i.year <= 9999 && 1 <= i.month <= 12 && 1 <= i.day <= DaysInMonth(i.year, i.month)
    && i.hour < 24 && i.minute < 60 && i.second < 60 && i.micro < 1_000_000
  }

  function Fields(i: Instant): seq<nat> {
    [i.year, i.month, i.day, i.hour, i.minute, i.second, i.micro]
  }

  /** `format_utc`. */
  function FormatUtc(i: Instant): string {
    Render(Fields(i), 0)
  }

  /** `parse_utc`, on texts in that form. */
  function ParseUtc(s: string): Option<Instant> {
    match Scan(s, 0)
    case Some(v) =>
      if |v| != 7 then None
      else
        var i := Instant(v[0], v[1], v[2], v[3], v[4], v[5], v[6]);
        if Valid(i) then Some(i) else None
    case None => None
  }

  lemma FieldsFit(i: Instant)
    requires Valid(i)
    ensures Fits(Fields(i), 0)
  {
    assert Pow10(2) == 100;
    assert Pow10(4) == 100 * Pow10(2);
    assert Pow10(6) == 100 * Pow10(4);
  }

  lemma ParseFormat(i: Instant)
    requires Valid(i)
    ensures ParseUtc(FormatUtc(i)) == Some(i)
  {
    FieldsFit(i);
    ScanRender(Fields(i), 0);
  }

  lemma RenderOne(v: nat, vs: seq<nat>, k: nat)
    requires k < 7 && |vs| == 6 - k
    ensures Render([v] + vs, k) == Pad(v, WIDTHS[k]) + ([MARKS[k]] + Render(vs, k + 1))
  {
    assert ([v] + vs)[1..] == vs;
    MarkFirst(Pad(v, WIDTHS[k]), MARKS[k], Render(vs, k + 1));
  }

  lemma MarkFirst(p: string, mark: char, rest: string)
    ensures p + [mark] + rest == p + ([mark] + rest)
  {
  }

  lemma ClockShape(h: nat, mi: nat, se: nat, us: nat)
    ensures Render([h] + ([mi] + ([se] + ([us] + []))), 3)
         == Pad(h, 2) + (":" + (Pad(mi, 2) + (":" + (Pad(se, 2) + ("." + (Pad(us, 6) + ("Z" + "")))))))
  {
    RenderOne(us, [], 6);
    RenderOne(se, [us] + [], 5);
    RenderOne(mi, [se] + ([us] + []), 4);
    RenderOne(h, [mi] + ([se] + ([us] + [])), 3);
  }

  /** The form itself: zero-padded fields, each with its mark. */
  lemma FormatShape(i: Instant)
    ensures FormatUtc(i)
         == Pad(i.year, 4) + ("-" + (Pad(i.month, 2) + ("-" + (Pad(i.day, 2) + ("T" +
              (Pad(i.hour, 2) + (":" + (Pad(i.minute, 2) + (":" + (Pad(i.second, 2) + ("." + (Pad(i.micro, 6) + ("Z" + "")))))))))))))
  {
    var clock := [i.hour] + ([i.minute] + ([i.second] + ([i.micro] + [])));
    ClockShape(i.hour, i.minute, i.second, i.micro);
    RenderOne(i.day, clock, 2);
    RenderOne(i.month, [i.day] + clock, 1);
    RenderOne(i.year, [i.month] + ([i.day] + clock), 0);
    assert Fields(i) == [i.year] + ([i.month] + ([i.day] + clock));
  }

  // ---- chronological order ---------------------------------------------------------------------------

  /** Days from 1 January of year 1 to 1 January of year `y`. */
  function DaysBeforeYear(y: nat): int
    requires y >= 1
  {
    365 * (y - 1) + (y - 1) / 4 - (y - 1) / 100 + (y - 1) / 400
  }

  function DaysBeforeMonth(y: nat, m: nat): nat {
    if m <= 1 then 0 else DaysBeforeMonth(y, m - 1) + DaysInMonth(y, m - 1)
  }

  function DayNumber(i: Instant): int
    requires i.year >= 1 && i.day >= 1
  {
    DaysBeforeYear(i.year) + DaysBeforeMonth(i.year, i.month) + i.day - 1
  }

  function MicrosOfDay(i: Instant): nat {
    ((i.hour * 60 + i.minute) * 60 + i.second) * 1_000_000 + i.micro
  }

  const DAY := 86_400_000_000

  /** Days from 1 January of year 1 to 1 January 1970. */
  const EPOCH_DAY := 719_162

  /** Microseconds since 1970-01-01T00:00:00Z: the clock of the store. */
  function Micros(i: Instant): int
    requires i.year >= 1 && i.day >= 1
  {
    (DayNumber(i) - EPOCH_DAY) * DAY + MicrosOfDay(i)
  }

  /** The clock starts at midnight on 1 January 1970 and counts microseconds. */
  lemma Epoch(i: Instant)
    requires i.year == 1970 && i.month == 1 && i.day >= 1
    ensures Micros(i)
         == ((((i.day - 1) * 24 + i.hour) * 60 + i.minute) * 60 + i.second) * 1_000_000 + i.micro
  {
    assert DaysBeforeYear(1970) == EPOCH_DAY;
  }

  lemma Quarters(y: nat)
    requires y >= 1
    ensures y / 4 == (y - 1) / 4 + if y % 4 == 0 then 1 else 0
  {
  }

  lemma Hundreds(y: nat)
    requires y >= 1
    ensures y / 100 == (y - 1) / 100 + if y % 100 == 0 then 1 else 0
  {
  }

  lemma FourHundreds(y: nat)
    requires y >= 1
    ensures y / 400 == (y - 1) / 400 + if y % 400 == 0 then 1 else 0
  {
  }

  lemma LeapCenturies(y: nat)
    ensures y % 400 == 0 ==> y % 100 == 0
  {
    var q, r := y / 400, y % 400;
    assert y == 100 * (4 * q) + r;
  }

  lemma Centuries(y: nat)
    ensures y % 100 == 0 ==> y % 4 == 0
  {
    var q, r := y / 100, y % 100;
    assert y == 4 * (25 * q) + r;
  }

  lemma NextYear(y: nat)
    requires y >= 1
    ensures DaysBeforeYear(y + 1) == DaysBeforeYear(y) + (if IsLeap(y) then 366 else 365)
  {
    Quarters(y);
    Hundreds(y);
    FourHundreds(y);
    LeapCenturies(y);
    Centuries(y);
  }

  lemma {:induction false} YearsAscend(y: nat, z: nat)
    requires 1 <= y <= z
    ensures DaysBeforeYear(y) <= DaysBeforeYear(z)
    decreases z - y
  {
    if y < z {
      NextYear(z - 1);
      YearsAscend(y, z - 1);
    }
  }

  lemma {:induction false} MonthsAscend(y: nat, m: nat, n: nat)
    requires 1 <= m < n
    ensures DaysBeforeMonth(y, m) + DaysInMonth(y, m) <= DaysBeforeMonth(y, n)
    decreases n - m
  {
    if m + 1 < n { MonthsAscend(y, m, n - 1); }
  }

  lemma YearLength(y: nat)
    ensures DaysBeforeMonth(y, 12) + 31 == if IsLeap(y) then 366 else 365
  {
    var feb := DaysInMonth(y, 2);
    assert DaysBeforeMonth(y, 2) == 31;
    assert DaysBeforeMonth(y, 3) == 31 + feb;
    assert DaysBeforeMonth(y, 4) == 62 + feb;
    assert DaysBeforeMonth(y, 5) == 92 + feb;
    assert DaysBeforeMonth(y, 6) == 123 + feb;
    assert DaysBeforeMonth(y, 7) == 153 + feb;
    assert DaysBeforeMonth(y, 8) == 184 + feb;
    assert DaysBeforeMonth(y, 9) == 215 + feb;
    assert DaysBeforeMonth(y, 10) == 245 + feb;
    assert DaysBeforeMonth(y, 11) == 276 + feb;
    assert DaysBeforeMonth(y, 12) == 306 + feb;
  }

  lemma DayOfYear(i: Instant)
    requires Valid(i)
    ensures DaysBeforeMonth(i.year, i.month) + i.day <= (if IsLeap(i.year) then 366 else 365)
  {
    YearLength(i.year);
    if i.month < 12 { MonthsAscend(i.year, i.month, 12); }
  }

  predicate DateLess(a: Instant, b: Instant) {
    a.year < b.year || (a.year == b.year && (a.month < b.month || (a.month == b.month && a.day < b.day)))
  }

  predicate ClockLess(a: Instant, b: Instant) {
    a.hour < b.hour || (a.hour == b.hour && (a.minute < b.minute || (a.minute == b.minute &&
      (a.second < b.second || (a.second == b.second && a.micro < b.micro)))))
  }

  predicate SameDate(a: Instant, b: Instant) {
    a.year == b.year && a.month == b.month && a.day == b.day
  }

  lemma LaterDate(a: Instant, b: Instant)
    requires Valid(a) && Valid(b) && DateLess(a, b)
    ensures DayNumber(a) < DayNumber(b)
  {
    if a.year < b.year {
      DayOfYear(a);
      NextYear(a.year);
      YearsAscend(a.year + 1, b.year);
    } else if a.month < b.month {
      MonthsAscend(a.year, a.month, b.month);
    }
  }

  lemma LaterClock(a: Instant, b: Instant)
    requires Valid(a) && Valid(b)
    ensures ClockLess(a, b) <==> MicrosOfDay(a) < MicrosOfDay(b)
    ensures MicrosOfDay(a) < DAY
  {
  }

  lemma LexCons(x: nat, xs: seq<nat>, y: nat, ys: seq<nat>)
    requires |xs| == |ys|
    ensures LexLess([x] + xs, [y] + ys) <==> x < y || (x == y && LexLess(xs, ys))
  {
    assert ([x] + xs)[1..] == xs && ([y] + ys)[1..] == ys;
  }

  lemma LexClock(a: Instant, b: Instant)
    ensures LexLess([a.hour, a.minute, a.second, a.micro], [b.hour, b.minute, b.second, b.micro]) <==> ClockLess(a, b)
  {
    assert [a.hour, a.minute, a.second, a.micro] == [a.hour] + ([a.minute] + ([a.second] + ([a.micro] + [])));
    assert [b.hour, b.minute, b.second, b.micro] == [b.hour] + ([b.minute] + ([b.second] + ([b.micro] + [])));
    LexCons(a.micro, [], b.micro, []);
    LexCons(a.second, [a.micro] + [], b.second, [b.micro] + []);
    LexCons(a.minute, [a.second] + ([a.micro] + []), b.minute, [b.second] + ([b.micro] + []));
    LexCons(a.hour, [a.minute] + ([a.second] + ([a.micro] + [])), b.hour, [b.minute] + ([b.second] + ([b.micro] + [])));
  }

  lemma LexFields(a: Instant, b: Instant)
    ensures LexLess(Fields(a), Fields(b)) <==> DateLess(a, b) || (SameDate(a, b) && ClockLess(a, b))
  {
    var x, y := [a.hour, a.minute, a.second, a.micro], [b.hour, b.minute, b.second, b.micro];
    LexClock(a, b);
    assert Fields(a) == [a.year] + ([a.month] + ([a.day] + x));
    assert Fields(b) == [b.year] + ([b.month] + ([b.day] + y));
    LexCons(a.day, x, b.day, y);
    LexCons(a.month, [a.day] + x, b.month, [b.day] + y);
    LexCons(a.year, [a.month] + ([a.day] + x), b.year, [b.month] + ([b.day] + y));
  }

  lemma LexIsTime(a: Instant, b: Instant)
    requires Valid(a) && Valid(b)
    ensures LexLess(Fields(a), Fields(b)) <==> Micros(a) < Micros(b)
  {
    LexFields(a, b);
    LaterClock(a, b);
    LaterClock(b, a);
    if DateLess(a, b) {
      LaterDate(a, b);
    } else if DateLess(b, a) {
      LaterDate(b, a);
    }
  }

  /** String order is chronological order. */
  lemma TextOrderIsTimeOrder(a: Instant, b: Instant)
    requires Valid(a) && Valid(b)
    ensures TextLess(FormatUtc(a), FormatUtc(b)) <==> Micros(a) < Micros(b)
    ensures FormatUtc(a) == FormatUtc(b) <==> Micros(a) == Micros(b)
  {
    FieldsFit(a);
    FieldsFit(b);
    RenderOrder(Fields(a), Fields(b), 0);
    LexIsTime(a, b);
    RenderOrder(Fields(b), Fields(a), 0);
    LexIsTime(b, a);
    TextLessTotal(FormatUtc(a), FormatUtc(b));
    TextLessIrreflexive(FormatUtc(a));
  }

  /** The sweep asks the database for `expires_at <= now` on texts; `_load_pending` compares
      instants. They decide every deadline alike. */
  lemma SweepAgreesWithDeadlineTest(deadline: Instant, now: Instant)
    requires Valid(deadline) && Valid(now)
    ensures !TextLess(FormatUtc(now), FormatUtc(deadline)) <==> Micros(deadline) <= Micros(now)
  {
    TextOrderIsTimeOrder(now, deadline);
  }
}
