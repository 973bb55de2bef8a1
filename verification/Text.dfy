/** Text as SQLite compares it and as Go's fmt prints it. */
module Text {

  // ------------------------------------------------------------------ the order of TEXT columns

  /** SQLite's BINARY collation: lexicographic, a proper prefix first. */
  predicate TextLess(a: string, b: string) {
    if |b| == 0 then false
    else if |a| == 0 then true
    else a[0] < b[0] || (a[0] == b[0] && TextLess(a[1..], b[1..]))
  }

  lemma {:induction false} TextLessTotal(a: string, b: string)
    ensures TextLess(a, b) || a == b || TextLess(b, a)
    ensures TextLess(a, b) ==> a != b && !TextLess(b, a)
    decreases |a|
  {
    if |a| > 0 && |b| > 0 && a[0] == b[0] {
      TextLessTotal(a[1..], b[1..]);
      assert a == [a[0]] + a[1..] && b == [b[0]] + b[1..];
    }
  }

  lemma {:induction false} TextLessTransitive(a: string, b: string, c: string)
    requires TextLess(a, b) && TextLess(b, c)
    ensures TextLess(a, c)
    decreases |a|
  {
    if |a| > 0 && a[0] == b[0] == c[0] {
      TextLessTransitive(a[1..], b[1..], c[1..]);
    }
  }

  /** Fields of equal width decide first; what follows them only breaks ties. */
  lemma {:induction false} TextLessAppend(x: string, y: string, s: string, t: string)
    requires |x| == |y|
    ensures TextLess(x + s, y + t) <==> TextLess(x, y) || (x == y && TextLess(s, t))
    decreases |x|
  {
    if x == [] {
      assert x + s == s && y + t == t;
    } else {
      assert (x + s)[1..] == x[1..] + s && (y + t)[1..] == y[1..] + t;
      TextLessAppend(x[1..], y[1..], s, t);
      assert x == [x[0]] + x[1..] && y == [y[0]] + y[1..];
    }
  }

  // ------------------------------------------------------------------ digits

  function Pow10(n: nat): (p: nat)
    ensures p >= 1
  {
    if n == 0 then 1 else 10 * Pow10(n - 1)
  }

  predicate IsDigit(c: char) {
    '0' <= c <= '9'
  }

  function DigitValue(c: char): nat
    requires IsDigit(c)
  {
    (c - '0') as nat
  }

  function Digit(d: nat): (c: char)
    requires d < 10
    ensures IsDigit(c) && DigitValue(c) == d
  {
    '0' + (d as char)
  }

  predicate AllDigits(s: string) {
    forall i | 0 <= i < |s| :: IsDigit(s[i])
  }

  /** A decimal numeral of exactly `width` digits, zero-padded on the left. */
  function Pad(n: nat, width: nat): (s: string)
    ensures |s| == width && AllDigits(s)
  {
    if width == 0 then "" else Pad(n / 10, width - 1) + [Digit(n % 10)]
  }

  /** The digits read as the leading digits of a `width`-digit numeral. */
  function Value(s: string, width: nat): nat
    requires AllDigits(s) && |s| <= width
    decreases |s|
  {
    if s == [] then 0
    else DigitValue(s[0]) * Pow10(width - 1) + Value(s[1..], width - 1)
  }

  lemma {:induction false} ScaleStep(d: nat, e: nat, p: nat)
    requires d < e
    ensures d * p + p <= e * p
    decreases e
  {
    assert e * p == (e - 1) * p + p;
    if d < e - 1 {
      ScaleStep(d, e - 1, p);
    }
  }

  lemma {:induction false} ValueBound(s: string, width: nat)
    requires AllDigits(s) && |s| <= width
    ensures Value(s, width) < Pow10(width)
    decreases |s|
  {
    if s != [] {
      ValueBound(s[1..], width - 1);
      ScaleStep(DigitValue(s[0]), 10, Pow10(width - 1));
    }
  }

  lemma {:induction false} ValueSnoc(s: string, c: char, width: nat)
    requires AllDigits(s) && IsDigit(c) && |s| < width
    ensures AllDigits(s + [c])
    ensures Value(s + [c], width) == Value(s, width) + DigitValue(c) * Pow10(width - |s| - 1)
    decreases |s|
  {
    if s == [] {
      assert s + [c] == [c];
    } else {
      assert (s + [c])[1..] == s[1..] + [c];
      ValueSnoc(s[1..], c, width - 1);
    }
  }

  /** Reading a padded numeral back. */
  lemma {:induction false} ValuePad(n: nat, digits: nat, width: nat)
    requires n < Pow10(digits) && digits <= width
    ensures Value(Pad(n, digits), width) == n * Pow10(width - digits)
  {
    if digits > 0 {
      var q, r, p := n / 10, n % 10, Pow10(width - digits);
      assert n == 10 * q + r;
      calc {
        Value(Pad(n, digits), width);
        { ValueSnoc(Pad(q, digits - 1), Digit(r), width); }
        Value(Pad(q, digits - 1), width) + r * p;
        { ValuePad(q, digits - 1, width); assert Pow10(width - (digits - 1)) == 10 * p; }
        q * (10 * p) + r * p;
        { Distribute(q, r, p); }
        (10 * q + r) * p;
      }
    }
  }

  lemma Distribute(q: nat, r: nat, p: nat)
    ensures q * (10 * p) + r * p == (10 * q + r) * p
  {
  }

  lemma {:induction false} PadLess(a: nat, b: nat, width: nat)
    requires a < b < Pow10(width)
    ensures TextLess(Pad(a, width), Pad(b, width))
  {
    TextLessAppend(Pad(a / 10, width - 1), Pad(b / 10, width - 1), [Digit(a % 10)], [Digit(b % 10)]);
    if a / 10 < b / 10 {
      PadLess(a / 10, b / 10, width - 1);
    }
  }

  lemma PadInjective(a: nat, b: nat, width: nat)
    requires a < Pow10(width) && b < Pow10(width) && Pad(a, width) == Pad(b, width)
    ensures a == b
  {
    ValuePad(a, width, width);
    ValuePad(b, width, width);
  }

  // ------------------------------------------------------------------ trimming

  /** Unicode white space, the set strings.TrimSpace removes. */
  predicate IsSpace(c: char) {
    || c == ' ' || '\U{0009}' <= c <= '\U{000D}' || c == '\U{0085}' || c == '\U{00A0}'
    || c == '\U{1680}' || '\U{2000}' <= c <= '\U{200A}' || c == '\U{2028}' || c == '\U{2029}'
    || c == '\U{202F}' || c == '\U{205F}' || c == '\U{3000}'
  }

  function TrimSpace(s: string): string
    decreases |s|
  {
    if s != "" && IsSpace(s[0]) then TrimSpace(s[1..])
    else if s != "" && IsSpace(s[|s| - 1]) then TrimSpace(s[..|s| - 1])
    else s
  }

  /** The part of a text between its outermost characters that are no spaces: `i` spaces before it, nothing
      but spaces from `j` on. */
  predicate IsTrimmed(s: string, r: string, i: nat, j: nat) {
    && i <= j <= |s| && r == s[i..j]
    && (forall k | 0 <= k < i :: IsSpace(s[k]))
    && (forall k | j <= k < |s| :: IsSpace(s[k]))
    && (i == j || (!IsSpace(s[i]) && !IsSpace(s[j - 1])))
  }

  lemma {:induction false} TrimSpaceTrims(s: string) returns (i: nat, j: nat)
    ensures IsTrimmed(s, TrimSpace(s), i, j)
    decreases |s|
  {
    hide IsSpace;
    if s != "" && IsSpace(s[0]) {
      i, j := TrimSpaceTrims(s[1..]);
      i, j := i + 1, j + 1;
      assert forall k | 1 <= k < |s| :: s[k] == s[1..][k - 1];
    } else if s != "" && IsSpace(s[|s| - 1]) {
      i, j := TrimSpaceTrims(s[..|s| - 1]);
      assert forall k | 0 <= k < |s| - 1 :: s[k] == s[..|s| - 1][k];
    } else {
      i, j := 0, |s|;
    }
  }
}
