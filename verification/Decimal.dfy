/** Decimal rendering of the estimate's figures: an exact value is rounded to 18 fractional
    digits, printed, and stripped of its trailing zeros. */
module Decimal {
  import opened Basics

  /** v * 10^-k. */
  function Down(v: real, k: nat): real
    decreases k, v
  {
    if k == 0 then v else Down(v / 10.0, k - 1)
  }

  // ---- digit strings --------------------------------------------------------------

  predicate IsDigit(c: char) { '0' <= c <= '9' }

  predicate AllDigits(s: string) { forall i :: 0 <= i < |s| ==> IsDigit(s[i]) }

  function DigitChar(d: nat): (c: char)
    requires d < 10
    ensures IsDigit(c)
  {
    ('0' as int + d) as char
  }

  /** The number a digit string denotes. */
  function Value(s: string): nat
    requires AllDigits(s)
  {
    if s == "" then 0 else 10 * Value(s[..|s| - 1]) + (s[|s| - 1] as int - '0' as int)
  }

  /** Decimal digits of n without leading zeros. */
  function Digits(n: nat): (s: string)
    ensures s != "" && AllDigits(s)
    ensures Value(s) == n
  {
    if n < 10 then [DigitChar(n)] else Digits(n / 10) + [DigitChar(n % 10)]
  }

  lemma DigitOf(d: nat)
    requires d < 10
    ensures DigitChar(d) == "0123456789"[d]
  {}

  lemma {:induction false} NoSpareZero(n: nat)
    ensures Digits(n)[0] == '0' ==> |Digits(n)| == 1
    ensures Digits(n)[0] == '0' ==> n == 0
  {
    if n >= 10 {
      NoSpareZero(n / 10);
    }
  }

  /** n without its last k digits. */
  function Whole(n: nat, k: nat): nat {
    if k == 0 then n else Whole(n / 10, k - 1)
  }

  /** The last k digits of n, zeros included. */
  function Fixed(n: nat, k: nat): (s: string)
    ensures |s| == k && AllDigits(s)
  {
    if k == 0 then "" else Fixed(n / 10, k - 1) + [DigitChar(n % 10)]
  }

  lemma {:induction false} SplitDigits(n: nat, k: nat)
    ensures AllDigits(Digits(Whole(n, k)) + Fixed(n, k))
    ensures Value(Digits(Whole(n, k)) + Fixed(n, k)) == n
  {
    var w, f := Digits(Whole(n, k)), Fixed(n, k);
    if k == 0 {
      assert w + f == w;
    } else {
      SplitDigits(n / 10, k - 1);
      assert (w + f)[..|w + f| - 1] == w + Fixed(n / 10, k - 1);
    }
  }

  // ---- reading a decimal back -----------------------------------------------------

  /** Index of the first dot, or the length when there is none. */
  function DotIndex(s: string): (d: nat)
    ensures d <= |s|
    ensures d < |s| ==> s[d] == '.'
    ensures '.' !in s[..d]
  {
    if s == "" || s[0] == '.' then 0 else 1 + DotIndex(s[1..])
  }

  function ParseUnsigned(s: string): Option<real> {
    var d := DotIndex(s);
    var whole := s[..d];
    var frac := if d < |s| then s[d + 1..] else "";
    if AllDigits(whole) && AllDigits(frac) && |whole| + |frac| > 0 then
      Some(Down(Value(whole + frac) as real, |frac|))
    else None
  }

  /** The plain-decimal part of what Rat.SetString accepts: a sign, digits, a dot, digits. */
  function ParseDecimal(s: string): Option<real> {
    if s != "" && s[0] == '-' then
      match ParseUnsigned(s[1..])
      case Some(v) => Some(-v)
      case None => None
    else if s != "" && s[0] == '+' then ParseUnsigned(s[1..])
    else ParseUnsigned(s)
  }

  // ---- printing, at any precision k -------------------------------------------------

  /** r * 10^k, rounded to the nearest integer with halves up. */
  function Scaled(r: real, k: nat): nat
    requires r >= 0.0
    decreases k, r
  {
    if k == 0 then (r + 0.5).Floor else Scaled(10.0 * r, k - 1)
  }

  /** r rounded to k decimals, halves away from zero. */
  function Rounded(r: real, k: nat): real {
    if r >= 0.0 then Down(Scaled(r, k) as real, k) else -Down(Scaled(-r, k) as real, k)
  }

  /** Rat.FloatString: always k fractional digits. */
  function FloatString(r: real, k: nat): string {
    var n := Scaled(if r >= 0.0 then r else -r, k);
    (if r >= 0.0 then "" else "-") + Digits(Whole(n, k)) + "." + Fixed(n, k)
  }

  function DropZeros(s: string): string {
    if s != "" && s[|s| - 1] == '0' then DropZeros(s[..|s| - 1]) else s
  }

  /** What TrimDecimal returns: trailing zeros after a dot go, then a bare trailing dot. */
  function Trimmed(s: string): string {
    if '.' !in s then s
    else
      var z := DropZeros(s);
      if z != "" && z[|z| - 1] == '.' then z[..|z| - 1] else z
  }

  /** FloatString at k digits with its zeros trimmed. */
  function Printed(r: real, k: nat): string { Trimmed(FloatString(r, k)) }

  /** The figures of an estimate carry 18 digits. */
  function RatString(r: real): string { Printed(r, 18) }

  method ContainsDot(s: string) returns (found: bool)
    ensures found <==> '.' in s
  {
    for i := 0 to |s|
      invariant '.' !in s[..i]
    {
      if s[i] == '.' {
        return true;
      }
    }
    return false;
  }

  method TrimDecimal(s: string) returns (r: string)
    ensures r == Trimmed(s)
  {
    var dotted := ContainsDot(s);
    if !dotted {
      return s;
    }
    var end := |s|;
    assert s[..end] == s;
    while end > 0 && s[end - 1] == '0'
      invariant 0 <= end <= |s|
      invariant DropZeros(s[..end]) == DropZeros(s)
    {
      assert s[..end][..end - 1] == s[..end - 1];
      end := end - 1;
    }
    assert s[..end] == DropZeros(s);
    if end > 0 && s[end - 1] == '.' {
      assert s[..end][..end - 1] == s[..end - 1];
      end := end - 1;
    }
    return s[..end];
  }

  // ---- what the printer guarantees ------------------------------------------------

  lemma {:induction false} DropZerosSuffix(w: string, f: string)
    requires w != "" && w[|w| - 1] == '.'
    ensures DropZeros(w + f) == w + DropZeros(f)
  {
    if f == "" {
      assert w + f == w;
    } else if f[|f| - 1] == '0' {
      assert (w + f)[..|w + f| - 1] == w + f[..|f| - 1];
      DropZerosSuffix(w, f[..|f| - 1]);
    }
  }

  lemma {:induction false} DropZerosIsPrefix(f: string)
    ensures DropZeros(f) <= f
    ensures DropZeros(f) != "" ==> DropZeros(f)[|DropZeros(f)| - 1] != '0'
  {
    if f != "" && f[|f| - 1] == '0' {
      DropZerosIsPrefix(f[..|f| - 1]);
    }
  }

  /** Trimming "whole.frac" drops the zeros of frac, and the dot when nothing is left. */
  lemma TrimmedDecimal(w: string, f: string)
    requires AllDigits(f)
    ensures Trimmed(w + "." + f) == if DropZeros(f) == "" then w else w + "." + DropZeros(f)
  {
    hide DropZeros;
    var s, g := w + "." + f, DropZeros(f);
    var z := w + "." + g;
    assert s == (w + ".") + f && z == (w + ".") + g && s[|w|] == '.';
    DropZerosSuffix(w + ".", f);
    DropZerosIsPrefix(f);
    if g == "" {
      assert z[|z| - 1] == '.' && z[..|z| - 1] == w;
    } else {
      assert z[|z| - 1] == g[|g| - 1] == f[|g| - 1];
    }
  }

  /** Zeros at the end of the fraction do not change the number denoted. */
  lemma {:induction false} DropZerosKeepsValue(w: string, f: string)
    requires AllDigits(w) && AllDigits(f)
    ensures AllDigits(DropZeros(f)) && AllDigits(w + f) && AllDigits(w + DropZeros(f))
    ensures Down(Value(w + f) as real, |f|) == Down(Value(w + DropZeros(f)) as real, |DropZeros(f)|)
  {
    DropZerosIsPrefix(f);
    if f != "" && f[|f| - 1] == '0' {
      var g := f[..|f| - 1];
      DropZerosKeepsValue(w, g);
      assert (w + f)[..|w + f| - 1] == w + g;
      assert Value(w + f) as real / 10.0 == Value(w + g) as real;
    }
  }

  lemma ParseParts(w: string, g: string)
    requires AllDigits(w) && AllDigits(g) && w != ""
    ensures AllDigits(w + g)
    ensures ParseUnsigned(if g == "" then w else w + "." + g)
         == Some(Down(Value(w + g) as real, |g|))
  {
    if g == "" {
      NoDot(w, "");
      assert w + "" == w && w[..|w|] == w;
    } else {
      NoDot(w, "." + g);
      var s := w + "." + g;
      assert s == w + ("." + g);
      assert s[..|w|] == w && s[|w| + 1..] == g;
    }
  }

  lemma {:induction false} NoDot(w: string, t: string)
    requires AllDigits(w) && (t == "" || t[0] == '.')
    ensures DotIndex(w + t) == |w|
  {
    if w == "" {
      assert w + t == t;
    } else {
      assert (w + t)[1..] == w[1..] + t;
      NoDot(w[1..], t);
    }
  }

  /** The unsigned text printed for n units of 10^-k. */
  function Body(n: nat, k: nat): string {
    var w, g := Digits(Whole(n, k)), DropZeros(Fixed(n, k));
    if g == "" then w else w + "." + g
  }

  lemma BodyOfText(sign: string, n: nat, k: nat)
    ensures Trimmed(sign + Digits(Whole(n, k)) + "." + Fixed(n, k)) == sign + Body(n, k)
    ensures "" + Body(n, k) == Body(n, k)
  {
    hide Digits, Fixed, Whole, Trimmed, DropZeros, Value;
    TrimmedDecimal(sign + Digits(Whole(n, k)), Fixed(n, k));
  }

  lemma BodyOfPrinted(r: real, k: nat)
    ensures r >= 0.0 ==> Printed(r, k) == Body(Scaled(r, k), k)
    ensures r < 0.0 ==> Printed(r, k) == "-" + Body(Scaled(-r, k), k)
  {
    var n := Scaled(if r >= 0.0 then r else -r, k);
    var sign := if r >= 0.0 then "" else "-";
    assert FloatString(r, k) == sign + Digits(Whole(n, k)) + "." + Fixed(n, k);
    BodyOfText(sign, n, k);
  }

  lemma BodyValue(n: nat, k: nat)
    ensures Body(n, k) != "" && IsDigit(Body(n, k)[0])
    ensures ParseUnsigned(Body(n, k)) == Some(Down(n as real, k))
  {
    var w, f := Digits(Whole(n, k)), Fixed(n, k);
    DropZerosKeepsValue(w, f);
    SplitDigits(n, k);
    ParseParts(w, DropZeros(f));
  }

  lemma ParseSigned(b: string, v: real)
    requires b != "" && IsDigit(b[0]) && ParseUnsigned(b) == Some(v)
    ensures ParseDecimal(b) == Some(v) && ParseDecimal("-" + b) == Some(-v)
  {
    assert ("-" + b)[1..] == b;
  }

  /** A printed figure reads back as the value rounded to k decimals, for every value. */
  lemma PrintedValue(r: real, k: nat)
    ensures ParseDecimal(Printed(r, k)) == Some(Rounded(r, k))
  {
    BodyOfPrinted(r, k);
    var n := Scaled(if r >= 0.0 then r else -r, k);
    BodyValue(n, k);
    ParseSigned(Body(n, k), Down(n as real, k));
  }

  lemma {:induction false} DownTenth(v: real, k: nat)
    ensures Down(v / 10.0, k) == Down(v, k) / 10.0
    ensures Down(-v, k) == -Down(v, k)
    decreases k
  {
    if k > 0 {
      DownTenth(v / 10.0, k - 1);
      assert -v / 10.0 == -(v / 10.0);
    }
  }

  lemma {:induction false} DownMonotone(v: real, w: real, k: nat)
    requires v <= w
    ensures Down(v, k) <= Down(w, k)
    ensures Down(0.0, k) == 0.0
    decreases k
  {
    if k > 0 {
      DownMonotone(v / 10.0, w / 10.0, k - 1);
    }
  }

  lemma {:induction false} ScaledBounds(r: real, k: nat)
    requires r >= 0.0
    ensures r - Down(0.5, k) <= Down(Scaled(r, k) as real, k) <= r + Down(0.5, k)
    decreases k
  {
    if k > 0 {
      ScaledBounds(10.0 * r, k - 1);
      DownTenth(0.5, k - 1);
      DownTenth(Scaled(r, k) as real, k - 1);
    }
  }

  lemma {:induction false} ScaledExact(m: nat, k: nat)
    ensures Down(m as real, k) >= 0.0 && Scaled(Down(m as real, k), k) == m
  {
    DownMonotone(0.0, m as real, k);
    if k > 0 {
      ScaledExact(m, k - 1);
      DownTenth(m as real, k - 1);
      assert 10.0 * Down(m as real, k) == Down(m as real, k - 1);
    }
  }

  lemma {:induction false} ScaledMonotone(a: real, b: real, k: nat)
    requires 0.0 <= a <= b
    ensures Scaled(a, k) <= Scaled(b, k)
    decreases k
  {
    if k > 0 {
      ScaledMonotone(10.0 * a, 10.0 * b, k - 1);
    }
  }

  lemma RoundedMonotone(a: real, b: real, k: nat)
    requires a <= b
    ensures Rounded(a, k) <= Rounded(b, k)
  {
    if a >= 0.0 {
      ScaledMonotone(a, b, k);
      DownMonotone(Scaled(a, k) as real, Scaled(b, k) as real, k);
    } else if b < 0.0 {
      ScaledMonotone(-b, -a, k);
      DownMonotone(Scaled(-b, k) as real, Scaled(-a, k) as real, k);
    } else {
      DownMonotone(0.0, Scaled(b, k) as real, k);
      DownMonotone(0.0, Scaled(-a, k) as real, k);
    }
  }

  lemma RoundedExact(m: int, k: nat)
    ensures Rounded(Down(m as real, k), k) == Down(m as real, k)
  {
    DownTenth(m as real, k);
    if m >= 0 {
      ScaledExact(m, k);
    } else {
      ScaledExact(-m, k);
      assert Down((-m) as real, k) == -Down(m as real, k);
      if Down(m as real, k) >= 0.0 {
        assert Down(m as real, k) == 0.0;
        ScaledExact(0, k);
        DownMonotone(0.0, 0.0, k);
      }
    }
  }

  predicate IsUnits(r: real, m: int, k: nat) { r == Down(m as real, k) }

  /** r is an integer number of units of 10^-k. */
  ghost predicate IsMultiple(r: real, k: nat) { exists m: int :: IsUnits(r, m, k) }

  /** A figure printed at k digits is off by at most half a unit in the last place, and is exact
      precisely when the value is a multiple of 10^-k. */
  lemma PrinterAccuracy(r: real, k: nat) returns (p: real)
    ensures ParseDecimal(Printed(r, k)) == Some(p)
    ensures r - Down(0.5, k) <= p <= r + Down(0.5, k)
    ensures p == r <==> IsMultiple(r, k)
  {
    PrintedValue(r, k);
    p := Rounded(r, k);
    RoundedBounds(r, k);
  }

  lemma RoundedBounds(r: real, k: nat)
    ensures r - Down(0.5, k) <= Rounded(r, k) <= r + Down(0.5, k)
    ensures Rounded(r, k) == r <==> IsMultiple(r, k)
  {
    var n: int := Scaled(if r >= 0.0 then r else -r, k);
    ScaledBounds(if r >= 0.0 then r else -r, k);
    DownTenth(n as real, k);
    assert -(n as real) == (-n) as real;
    if Rounded(r, k) == r {
      assert IsUnits(r, if r >= 0.0 then n else -n, k);
    }
    if m :| IsUnits(r, m, k) {
      RoundedExact(m, k);
    }
  }

  /** Printing never swaps two values. */
  lemma PrinterMonotone(a: real, b: real, k: nat) returns (p: real, q: real)
    requires a <= b
    ensures ParseDecimal(Printed(a, k)) == Some(p) && ParseDecimal(Printed(b, k)) == Some(q)
    ensures p <= q
  {
    PrintedValue(a, k);
    PrintedValue(b, k);
    RoundedMonotone(a, b, k);
    p, q := Rounded(a, k), Rounded(b, k);
  }

  lemma RoundedZero(k: nat)
    ensures Rounded(0.0, k) == 0.0
  {
    DownMonotone(0.0, 0.0, k);
    ScaledExact(0, k);
  }

  lemma {:induction false} ScaledHalf(m: nat, k: nat)
    ensures Down(m as real + 0.5, k) > 0.0 && Scaled(Down(m as real + 0.5, k), k) == m + 1
  {
    var h := m as real + 0.5;
    if k > 0 {
      ScaledHalf(m, k - 1);
      DownTenth(h, k - 1);
      assert 10.0 * Down(h, k) == Down(h, k - 1);
    }
  }

  /** A value half way between two printable ones goes to the one further from zero. */
  lemma HalvesAwayFromZero(m: nat, k: nat)
    ensures var half := Down(m as real + 0.5, k); var away := Down((m + 1) as real, k);
            ParseDecimal(Printed(half, k)) == Some(away) && ParseDecimal(Printed(-half, k)) == Some(-away)
  {
    hide Printed, ParseDecimal;
    ScaledHalf(m, k);
    PrintedValue(Down(m as real + 0.5, k), k);
    PrintedValue(-Down(m as real + 0.5, k), k);
  }

  predicate AtMostOneDot(s: string) {
    forall i, j :: 0 <= i < j < |s| ==> !(s[i] == '.' && s[j] == '.')
  }

  /** A plain unsigned decimal: digits with at most one dot among them, no zero to spare in front and
      none behind the dot. */
  predicate Plain(b: string) {
    && b != "" && IsDigit(b[0]) && (b[0] == '0' ==> |b| == 1 || b[1] == '.')
    && AtMostOneDot(b) && (forall i :: 0 <= i < |b| ==> IsDigit(b[i]) || b[i] == '.')
    && ('.' in b ==> b[|b| - 1] != '0' && b[|b| - 1] != '.')
  }

  function Unsigned(s: string): string {
    if s != "" && s[0] == '-' then s[1..] else s
  }

  lemma PlainWhole(w: string)
    requires w != "" && AllDigits(w) && (w[0] == '0' ==> |w| == 1)
    ensures Plain(w)
  {}

  lemma PlainFraction(w: string, f: string)
    requires w != "" && AllDigits(w) && (w[0] == '0' ==> |w| == 1)
    requires f != "" && AllDigits(f) && f[|f| - 1] != '0'
    ensures Plain(w + "." + f)
  {
    var b := w + "." + f;
    assert b[|w|] == '.' && b[|b| - 1] == f[|f| - 1];
    assert forall i :: 0 <= i < |b| && i != |w| ==> IsDigit(b[i]);
  }

  /** A printed figure is a minus sign exactly for a negative value, and a plain decimal behind it: no
      superfluous zero in front, no trailing fractional zero and no bare dot. */
  lemma PrintedShape(r: real, k: nat)
    ensures Printed(r, k) != "" && (Printed(r, k)[0] == '-' <==> r < 0.0)
    ensures Plain(Unsigned(Printed(r, k)))
  {
    BodyOfPrinted(r, k);
    var n := Scaled(if r >= 0.0 then r else -r, k);
    var w, f := Digits(Whole(n, k)), Fixed(n, k);
    NoSpareZero(Whole(n, k));
    DropZerosIsPrefix(f);
    var g := DropZeros(f);
    if g == "" {
      PlainWhole(w);
    } else {
      PlainFraction(w, g);
    }
    assert ("-" + Body(n, k))[1..] == Body(n, k);
  }

  // ---- and nothing else is a printed figure ------------------------------------------

  lemma BeforeDot(b: string, d: nat)
    requires Plain(b) && d <= |b| && '.' !in b[..d]
    ensures AllDigits(b[..d])
  {
    assert forall i :: 0 <= i < d ==> b[i] == b[..d][i];
  }

  lemma AfterDot(b: string, d: nat)
    requires Plain(b) && d < |b| && b[d] == '.'
    ensures AllDigits(b[d + 1..]) && b[d + 1..] != "" && b[|b| - 1] != '0'
  {
    assert '.' in b;
    var f := b[d + 1..];
    assert forall i :: 0 <= i < |f| ==> f[i] == b[d + 1 + i];
  }

  /** Around its dot, if it has one. */
  lemma PlainParts(b: string) returns (w: string, f: string)
    requires Plain(b)
    ensures w != "" && AllDigits(w) && (w[0] == '0' ==> |w| == 1)
    ensures AllDigits(f) && (f != "" ==> f[|f| - 1] != '0')
    ensures b == if f == "" then w else w + "." + f
    ensures AllDigits(w + f) && ParseUnsigned(b) == Some(Down(Value(w + f) as real, |f|))
  {
    hide ParseUnsigned, Value, Down;
    var d := DotIndex(b);
    w, f := b[..d], "";
    BeforeDot(b, d);
    assert d > 0;
    if d < |b| {
      AfterDot(b, d);
      f := b[d + 1..];
      assert b == w + "." + f;
    } else {
      assert b == w;
    }
    hide Plain, AllDigits;
    ParseParts(w, f);
  }

  lemma {:induction false} ValueInjective(x: string, y: string)
    requires |x| == |y| && AllDigits(x) && AllDigits(y) && Value(x) == Value(y)
    ensures x == y
  {
    if x != "" {
      ValueInjective(x[..|x| - 1], y[..|y| - 1]);
      assert x == x[..|x| - 1] + [x[|x| - 1]] && y == y[..|y| - 1] + [y[|y| - 1]];
    }
  }

  lemma {:induction false} ZeroInFront(x: string)
    requires AllDigits(x)
    ensures AllDigits("0" + x) && Value("0" + x) == Value(x)
  {
    if x == "" {
      assert "0" + x == "0" && "0"[..0] == "";
    } else {
      ZeroInFront(x[..|x| - 1]);
      assert ("0" + x)[..|x|] == "0" + x[..|x| - 1];
    }
  }

  lemma {:induction false} Pad(x: string, n: nat) returns (z: string)
    requires AllDigits(x) && |x| <= n
    ensures |z| == n && AllDigits(z) && Value(z) == Value(x) && (if |x| < n then z[0] == '0' else z == x)
    decreases n
  {
    if |x| == n {
      z := x;
    } else {
      var y := Pad(x, n - 1);
      ZeroInFront(y);
      z := "0" + y;
    }
  }

  /** Digit strings of one value differ by zeros in front only. */
  lemma LongerHasZero(x: string, y: string)
    requires AllDigits(x) && AllDigits(y) && Value(x) == Value(y) && |x| <= |y|
    ensures if |x| < |y| then y[0] == '0' else x == y
  {
    var z := Pad(x, |y|);
    ValueInjective(z, y);
  }

  /** The same value with more decimals ends in a zero. */
  lemma {:induction false} Raise(a: nat, k: nat, m: nat) returns (c: nat)
    requires k <= m
    ensures Down(a as real, k) == Down(c as real, m) && (if k < m then c % 10 == 0 else c == a)
    decreases m - k
  {
    if k == m {
      c := a;
    } else {
      assert (10 * a) as real / 10.0 == a as real;
      c := Raise(10 * a, k + 1, m);
    }
  }

  lemma {:induction false} DownInjective(v: real, w: real, k: nat)
    requires Down(v, k) == Down(w, k)
    ensures v == w
    decreases k
  {
    if k > 0 {
      DownInjective(v / 10.0, w / 10.0, k - 1);
    }
  }

  lemma SameDecimals(x: string, k: nat, y: string, m: nat)
    requires AllDigits(x) && AllDigits(y) && y != "" && k <= m
    requires Down(Value(x) as real, k) == Down(Value(y) as real, m)
    ensures if k < m then y[|y| - 1] == '0' else Value(x) == Value(y)
  {
    var c := Raise(Value(x), k, m);
    DownInjective(c as real, Value(y) as real, m);
  }

  /** x is the digits of a plain decimal, the last k of them behind the dot. */
  predicate PlainDigits(x: string, k: nat) {
    && AllDigits(x) && k < |x| && (x[0] == '0' ==> |x| == k + 1) && (k > 0 ==> x[|x| - 1] != '0')
  }

  /** Two such of one value are the same. */
  lemma SameDigits(x: string, k: nat, y: string, m: nat)
    requires PlainDigits(x, k) && PlainDigits(y, m) && k <= m
    requires Down(Value(x) as real, k) == Down(Value(y) as real, m)
    ensures x == y && k == m
  {
    hide Value, Down, AllDigits;
    SameDecimals(x, k, y, m);
    if |x| <= |y| {
      LongerHasZero(x, y);
    } else {
      LongerHasZero(y, x);
    }
  }

  /** The digits of a plain decimal say all of it. */
  lemma DigitsOfPlain(b: string) returns (x: string, k: nat)
    requires Plain(b)
    ensures PlainDigits(x, k) && ParseUnsigned(b) == Some(Down(Value(x) as real, k))
    ensures b == if k == 0 then x else x[..|x| - k] + "." + x[|x| - k..]
  {
    hide Plain, ParseUnsigned, Value, Down;
    var w, f := PlainParts(b);
    x, k := w + f, |f|;
    assert x[0] == w[0] && (f != "" ==> x[|x| - 1] == f[|f| - 1]);
    assert x[..|x| - k] == w && x[|x| - k..] == f;
    if f == "" {
      assert x == w;
    }
  }

  /** Plain decimals of one value are one string. */
  lemma PlainUnique(a: string, b: string)
    requires Plain(a) && Plain(b) && ParseUnsigned(a) == ParseUnsigned(b)
    ensures a == b
  {
    hide Plain, ParseUnsigned, Value, Down, AllDigits;
    var x, k := DigitsOfPlain(a);
    var y, m := DigitsOfPlain(b);
    if k <= m {
      SameDigits(x, k, y, m);
    } else {
      SameDigits(y, m, x, k);
    }
  }

  /** s is v at k decimals: its sign, a plain decimal behind it, and its rounded value. */
  predicate Figure(s: string, v: real, k: nat) {
    && s != "" && (s[0] == '-' <==> v < 0.0) && Plain(Unsigned(s))
    && ParseDecimal(s) == Some(Rounded(v, k))
  }

  /** So what is printed is a figure, and the only one there is. */
  lemma PrintedUnique(r: real, k: nat, s: string)
    ensures Figure(s, r, k) <==> s == Printed(r, k)
  {
    PrintedShape(r, k);
    PrintedValue(r, k);
    var p := Printed(r, k);
    hide Printed, Rounded, ParseUnsigned;
    if Figure(s, r, k) {
      assert IsDigit(Unsigned(s)[0]) && IsDigit(Unsigned(p)[0]);
      PlainUnique(Unsigned(s), Unsigned(p));
      assert s[0] == '-' ==> s == "-" + s[1..] && p == "-" + p[1..];
    }
  }

  /** Trimming a decimal twice is trimming it once. */
  lemma TrimIdempotent(s: string)
    requires AtMostOneDot(s)
    ensures Trimmed(Trimmed(s)) == Trimmed(s)
  {
    DropZerosIsPrefix(s);
    var z := DropZeros(s);
    if '.' in s && !(z != "" && z[|z| - 1] == '.') {
      assert DropZeros(z) == z;
    }
  }
}
