/** Small types shared by every module of the model. */
module Prelude {

  datatype Option<+T> = None | Some(value: T) {
    function GetOr(default: T): T {
      match this
      case Some(v) => v
      case None => default
    }
  }

  datatype Result<+T, +E> = Success(value: T) | Failure(error: E)

  /** Strict lexicographic order by code point: how Python orders `str` keys and how
      SQLite compares ASCII text. */
  predicate TextLess(a: string, b: string) {
    |b| > 0 && (|a| == 0 || a[0] < b[0] || (a[0] == b[0] && TextLess(a[1..], b[1..])))
  }

  lemma TextLessIrreflexive(a: string)
    ensures !TextLess(a, a)
  {
  }

  lemma TextLessTransitive(a: string, b: string, c: string)
    requires TextLess(a, b) && TextLess(b, c)
    ensures TextLess(a, c)
  {
  }

  lemma {:induction false} TextLessTotal(a: string, b: string)
    ensures TextLess(a, b) || a == b || TextLess(b, a)
  {
    if |a| > 0 && |b| > 0 && a[0] == b[0] {
      TextLessTotal(a[1..], b[1..]);
      if a[1..] == b[1..] {
        assert a == [a[0]] + a[1..] == [b[0]] + b[1..] == b;
      }
    }
  }

  // ---- str.strip() -----------------------------------------------------------------

  /** The characters Python's `str.isspace` accepts. */
  predicate IsWhitespace(c: char) {
    var n := c as int;
    || 9 <= n <= 13 || 28 <= n <= 32 || n == 0x85 || n == 0xA0 || n == 0x1680
    || 0x2000 <= n <= 0x200A || n == 0x2028 || n == 0x2029 || n == 0x202F || n == 0x205F || n == 0x3000
  }

  function StripLeft(s: string): string {
    if s != "" && IsWhitespace(s[0]) then StripLeft(s[1..]) else s
  }

  function StripRight(s: string): string {
    if s != "" && IsWhitespace(s[|s| - 1]) then StripRight(s[..|s| - 1]) else s
  }

  function Strip(s: string): string {
    StripRight(StripLeft(s))
  }

  predicate IsBlank(s: string) {
    forall i | 0 <= i < |s| :: IsWhitespace(s[i])
  }

  predicate Trimmed(t: string) {
    t == "" || (!IsWhitespace(t[0]) && !IsWhitespace(t[|t| - 1]))
  }

  /** What stripping leaves is inside the text, between nothing but white space, and neither begins
      nor ends with any. */
  lemma {:induction false} StripSplits(s: string) returns (left: string, right: string)
    ensures s == left + Strip(s) + right && IsBlank(left) && IsBlank(right) && Trimmed(Strip(s))
    decreases |s|
  {
    if s != "" && IsWhitespace(s[0]) {
      left, right := StripSplits(s[1..]);
      left := [s[0]] + left;
    } else {
      left := "";
      right := StripRightSplits(s);
    }
  }

  lemma {:induction false} StripRightSplits(s: string) returns (right: string)
    ensures s == StripRight(s) + right && IsBlank(right)
    ensures StripRight(s) != "" ==> !IsWhitespace(StripRight(s)[|StripRight(s)| - 1]) && StripRight(s)[0] == s[0]
    decreases |s|
  {
    if s != "" && IsWhitespace(s[|s| - 1]) {
      right := StripRightSplits(s[..|s| - 1]);
      right := right + [s[|s| - 1]];
    } else {
      right := "";
    }
  }

  /** And there is only one such part. */
  lemma {:induction false} StripIs(left: string, t: string, right: string)
    requires IsBlank(left) && IsBlank(right) && Trimmed(t)
    ensures Strip(left + t + right) == t
    decreases |left|
  {
    var s := left + t + right;
    if left != "" {
      assert s[1..] == left[1..] + t + right;
      StripIs(left[1..], t, right);
    } else if t == "" {
      BlankStrips(right);
      assert s == right;
    } else {
      assert s == t + right;
      StripRightIs(t, right);
    }
  }

  lemma {:induction false} BlankStrips(s: string)
    requires IsBlank(s)
    ensures StripLeft(s) == ""
  {
    if s != "" { BlankStrips(s[1..]); }
  }

  lemma {:induction false} StripRightIs(t: string, right: string)
    requires IsBlank(right) && (t == "" || !IsWhitespace(t[|t| - 1]))
    ensures StripRight(t + right) == t
    decreases |right|
  {
    var s := t + right;
    if right == "" {
      assert s == t;
    } else {
      assert s[..|s| - 1] == t + right[..|right| - 1];
      StripRightIs(t, right[..|right| - 1]);
    }
  }

  /** `separator.join(parts)`. */
  function Joined(separator: string, parts: seq<string>): string {
    if parts == [] then ""
    else if |parts| == 1 then parts[0]
    else parts[0] + separator + Joined(separator, parts[1..])
  }
}
