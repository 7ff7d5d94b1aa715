/**
 * The JavaScript built-ins the component relies on, with the meaning the
 * ECMAScript standard gives them, over exact (unbounded) numbers:
 * `parseFloat`, `Math.round`, `String.prototype.slice(0, n)` and
 * `Array.prototype.join`.
 */
module Js {
  import opened Common

  predicate IsDigit(c: char) { '0' <= c <= '9' }

  predicate AllDigits(s: string) { forall i :: 0 <= i < |s| ==> IsDigit(s[i]) }

  function Pow10(n: nat): (r: nat)
    ensures r >= 1
  {
    if n == 0 then 1 else 10 * Pow10(n - 1)
  }

  /** The value of a string of decimal digits, most significant first. */
  function DigitsValue(ds: string): (v: nat)
    requires AllDigits(ds)
    ensures v < Pow10(|ds|)
  {
    if ds == [] then 0
    else DigitsValue(ds[..|ds| - 1]) * 10 + (ds[|ds| - 1] as int - '0' as int)
  }

  /** Appending a digit multiplies the value by ten and adds the digit. */
  lemma DigitsValueSnoc(ds: string, c: char)
    requires AllDigits(ds) && IsDigit(c)
    ensures AllDigits(ds + [c])
    ensures DigitsValue(ds + [c]) == DigitsValue(ds) * 10 + (c as int - '0' as int)
  {
    assert (ds + [c])[..|ds|] == ds;
  }

  /** The WhiteSpace and LineTerminator code points of ECMAScript, which `parseFloat` skips. */
  predicate IsJsSpace(c: char) {
    c == '\t' || c == '\n' || c == '\U{B}' || c == '\U{C}' || c == '\r' || c == ' '
    || c == '\U{A0}' || c == '\U{1680}' || ('\U{2000}' <= c <= '\U{200A}')
    || c == '\U{2028}' || c == '\U{2029}' || c == '\U{202F}' || c == '\U{205F}'
    || c == '\U{3000}' || c == '\U{FEFF}'
  }

  /** `s` without its leading white space. */
  function TrimStart(s: string): string
  {
    s[LeadingSpaces(s)..]
  }

  /** The number of white-space characters at the start of `s`. */
  function LeadingSpaces(s: string): (n: nat)
    ensures n <= |s|
    ensures forall i :: 0 <= i < n ==> IsJsSpace(s[i])
    ensures n == |s| || !IsJsSpace(s[n])
  {
    if s != [] && IsJsSpace(s[0]) then 1 + LeadingSpaces(s[1..]) else 0
  }

  /** The longest prefix of `s` made of decimal digits. */
  function LeadingDigits(s: string): (ds: string)
    ensures ds <= s && AllDigits(ds)
    ensures |ds| == |s| || !IsDigit(s[|ds|])
  {
    if s != [] && IsDigit(s[0]) then [s[0]] + LeadingDigits(s[1..]) else []
  }

  /**
   * The exponent written by an ExponentPart (`e`, an optional sign, digits)
   * at the start of `s`; 0 when `s` does not start with a complete one,
   * in which case `parseFloat` stops before the `e`.
   */
  function ExponentOf(s: string): int
  {
    if |s| >= 2 && (s[0] == 'e' || s[0] == 'E') then
      var signed := s[1] == '+' || s[1] == '-';
      var ds := LeadingDigits(if signed then s[2..] else s[1..]);
      if ds == [] then 0
      else if s[1] == '-' then -(DigitsValue(ds) as int)
      else DigitsValue(ds)
    else 0
  }

  /** `m` times ten to the power `e`. */
  function Scale(m: real, e: int): (r: real)
    ensures m > 0.0 ==> r > 0.0
    ensures m < 0.0 ==> r < 0.0
    decreases if e >= 0 then e else -e
  {
    if e == 0 then m
    else if e > 0 then Scale(m, e - 1) * 10.0
    else Scale(m, e + 1) / 10.0
  }

  /** For a non-negative exponent, scaling is multiplication by the power of ten. */
  lemma {:induction false} ScaleByPow10(m: real, e: nat)
    ensures Scale(m, e) == m * Pow10(e) as real
  {
    if e > 0 {
      ScaleByPow10(m, e - 1);
      assert Pow10(e) as real == 10.0 * Pow10(e - 1) as real;
    }
  }

  /**
   * `parseFloat(s)`: the value of the longest prefix of `s`, after its
   * leading white space, that is a StrDecimalLiteral (an optional sign,
   * digits with an optional fraction, an optional exponent); `None` stands
   * for `NaN`, the result when no such prefix exists.
   */
  function ParseFloat(s: string): Option<real>
  {
    ParseSigned(TrimStart(s))
  }

  function ParseSigned(t: string): Option<real>
  {
    if |t| > 0 && t[0] == '-' then Negate(ParseUnsigned(t[1..]))
    else if |t| > 0 && t[0] == '+' then ParseUnsigned(t[1..])
    else ParseUnsigned(t)
  }

  function Negate(r: Option<real>): Option<real>
  {
    match r
    case Some(v) => Some(-v)
    case None => None
  }

  /** Digits, then an optional fraction, then an optional exponent. */
  function ParseUnsigned(u: string): Option<real>
  {
    var whole := LeadingDigits(u);
    var rest := u[|whole|..];
    if |rest| > 0 && rest[0] == '.' then
      var frac := LeadingDigits(rest[1..]);
      Mantissa(whole, frac, rest[1 + |frac|..])
    else
      Mantissa(whole, [], rest)
  }

  /** The number `whole.frac`, scaled by the exponent at the start of `tail`; `NaN` without digits. */
  function Mantissa(whole: string, frac: string, tail: string): Option<real>
    requires AllDigits(whole) && AllDigits(frac)
  {
    if whole == [] && frac == [] then None
    else Some(Scale(DecimalValue(whole, frac), ExponentOf(tail)))
  }

  /** The number written `whole.frac` in decimal notation. */
  function DecimalValue(whole: string, frac: string): real
    requires AllDigits(whole) && AllDigits(frac)
  {
    DigitsValue(whole) as real + Fraction(DigitsValue(frac), |frac|)
  }

  /** `digits` units of the `places`-th decimal place. */
  function Fraction(digits: nat, places: nat): real
  {
    if places == 0 then digits as real else Fraction(digits, places - 1) / 10.0
  }

  /** `Math.round(x)`: the integer nearest to `x`, halves rounded up. */
  function MathRound(x: real): (n: int)
    ensures x - 0.5 < n as real <= x + 0.5
  {
    (x + 0.5).Floor
  }

  /** `s.slice(0, n)` for a non-negative `n`. */
  function SlicePrefix(s: string, n: nat): (r: string)
    ensures r <= s
    ensures |r| == if |s| < n then |s| else n
  {
    if |s| < n then s else s[..n]
  }

  /** `parts.join(sep)`. */
  function Join(parts: seq<string>, sep: string): (r: string)
    ensures |parts| == 0 ==> r == ""
    ensures |parts| > 0 ==> |r| + |sep| == Offset(parts, sep, |parts|)
  {
    if |parts| == 0 then ""
    else if |parts| == 1 then parts[0]
    else parts[0] + sep + Join(parts[1..], sep)
  }

  /** Where the `i`-th part starts in `Join(parts, sep)`. */
  function Offset(parts: seq<string>, sep: string, i: nat): nat
    requires i <= |parts|
  {
    if i == 0 then 0 else |parts[0]| + |sep| + Offset(parts[1..], sep, i - 1)
  }

  /** The summed lengths of the parts. */
  function TotalLength(parts: seq<string>): nat
  {
    if parts == [] then 0 else |parts[0]| + TotalLength(parts[1..])
  }

  /** The `i`-th part starts after the first `i` parts and `i` separators. */
  lemma {:induction false} OffsetLength(parts: seq<string>, sep: string, i: nat)
    requires i <= |parts|
    ensures Offset(parts, sep, i) == TotalLength(parts[..i]) + i * |sep|
  {
    if i > 0 {
      OffsetLength(parts[1..], sep, i - 1);
      assert parts[..i][1..] == parts[1..][..i - 1];
    }
  }

  /** A joined string is its parts and one separator fewer than parts. */
  lemma JoinLength(parts: seq<string>, sep: string)
    requires parts != []
    ensures |Join(parts, sep)| == TotalLength(parts) + (|parts| - 1) * |sep|
  {
    OffsetLength(parts, sep, |parts|);
    assert parts[..|parts|] == parts;
  }

  /**
   * The layout of a joined string: the `i`-th part sits at `Offset(i)`, and
   * a separator follows it unless it is the last part. Together with the
   * length given by `Join`'s contract this determines the string.
   */
  lemma JoinLayout(parts: seq<string>, sep: string, i: nat)
    requires i < |parts|
    ensures Offset(parts, sep, i) + |parts[i]| <= |Join(parts, sep)|
    ensures Join(parts, sep)[Offset(parts, sep, i)..Offset(parts, sep, i) + |parts[i]|] == parts[i]
    ensures i + 1 < |parts| ==>
      && Offset(parts, sep, i) + |parts[i]| + |sep| <= |Join(parts, sep)|
      && Join(parts, sep)[Offset(parts, sep, i) + |parts[i]|..Offset(parts, sep, i) + |parts[i]| + |sep|] == sep
  {
    JoinPart(parts, sep, i);
    if i + 1 < |parts| {
      JoinSeparator(parts, sep, i);
    }
  }

  /** The `i`-th part sits at `Offset(i)`. */
  lemma {:induction false} JoinPart(parts: seq<string>, sep: string, i: nat)
    requires i < |parts|
    ensures Offset(parts, sep, i) + |parts[i]| <= |Join(parts, sep)|
    ensures Join(parts, sep)[Offset(parts, sep, i)..Offset(parts, sep, i) + |parts[i]|] == parts[i]
  {
    if |parts| == 1 {
      assert Join(parts, sep) == parts[0];
    } else {
      var head, tail := parts[0] + sep, Join(parts[1..], sep);
      assert Join(parts, sep) == head + tail;
      if i == 0 {
        assert (head + tail)[..|parts[0]|] == parts[0];
      } else {
        JoinPart(parts[1..], sep, i - 1);
        var a := Offset(parts[1..], sep, i - 1);
        assert parts[1..][i - 1] == parts[i];
        SliceOfSuffix(head, tail, a, a + |parts[i]|);
      }
    }
  }

  /** A separator follows every part but the last. */
  lemma {:induction false} JoinSeparator(parts: seq<string>, sep: string, i: nat)
    requires i + 1 < |parts|
    ensures Offset(parts, sep, i) + |parts[i]| + |sep| <= |Join(parts, sep)|
    ensures Join(parts, sep)[Offset(parts, sep, i) + |parts[i]|..Offset(parts, sep, i) + |parts[i]| + |sep|] == sep
  {
    var head, tail := parts[0] + sep, Join(parts[1..], sep);
    assert Join(parts, sep) == head + tail;
    if i == 0 {
      assert (head + tail)[|parts[0]|..|head|] == sep;
    } else {
      JoinSeparator(parts[1..], sep, i - 1);
      var b := Offset(parts[1..], sep, i - 1) + |parts[i]|;
      assert parts[1..][i - 1] == parts[i];
      SliceOfSuffix(head, tail, b, b + |sep|);
    }
  }

  lemma SliceOfSuffix(x: string, y: string, a: nat, b: nat)
    requires a <= b <= |y|
    ensures (x + y)[|x| + a..|x| + b] == y[a..b]
  {
  }

  /** Digits followed by anything that is not a digit: the digits are what `LeadingDigits` takes. */
  lemma {:induction false} LeadingDigitsOf(ds: string, rest: string)
    requires AllDigits(ds)
    requires rest == [] || !IsDigit(rest[0])
    ensures LeadingDigits(ds + rest) == ds
  {
    if ds != [] {
      assert (ds + rest)[1..] == ds[1..] + rest;
      LeadingDigitsOf(ds[1..], rest);
    } else {
      assert ds + rest == rest;
    }
  }

  /** A non-empty digit string parses to the number it writes. */
  lemma ParseFloatOfDigits(ds: string)
    requires ds != [] && AllDigits(ds)
    ensures ParseFloat(ds) == Some(DigitsValue(ds) as real)
  {
    ParseFloatOfUnsigned(ds);
    ParseUnsignedOfWhole(ds);
    MantissaOf(ds, [], []);
    DecimalValueOfWhole(ds);
  }

  lemma DecimalValueOfWhole(ds: string)
    requires AllDigits(ds)
    ensures DecimalValue(ds, []) == DigitsValue(ds) as real
  {
    assert DigitsValue([]) == 0;
    assert Fraction(0, 0) == 0.0;
  }


  /** `w.f` parses to the number it writes, the whole part `w` possibly empty. */
  lemma ParseFloatOfDecimal(w: string, f: string)
    requires AllDigits(w) && AllDigits(f) && f != []
    ensures ParseFloat(w + ['.'] + f) == Some(DecimalValue(w, f))
  {
    var s := w + (['.'] + f);
    assert w + ['.'] + f == s;
    assert s[0] == if w == [] then '.' else w[0];
    ParseFloatOfUnsigned(s);
    ParseUnsignedOfDecimal(w, f);
    MantissaOf(w, f, []);
  }

  /** Text that starts with a digit or a point is read as an unsigned number. */
  lemma ParseFloatOfUnsigned(s: string)
    requires s != [] && (IsDigit(s[0]) || s[0] == '.')
    ensures ParseFloat(s) == ParseUnsigned(s)
  {
    assert !IsJsSpace(s[0]);
  }

  /** A digit string is read whole, with nothing left for a fraction or an exponent. */
  lemma ParseUnsignedOfWhole(ds: string)
    requires ds != [] && AllDigits(ds)
    ensures ParseUnsigned(ds) == Mantissa(ds, [], [])
  {
    LeadingDigitsOf(ds, []);
    assert ds + [] == ds;
  }

  /** Digits, a point and fraction digits are read as whole and fraction parts. */
  lemma ParseUnsignedOfDecimal(w: string, f: string)
    requires AllDigits(w) && AllDigits(f) && f != []
    ensures ParseUnsigned(w + (['.'] + f)) == Mantissa(w, f, [])
  {
    var s := w + (['.'] + f);
    LeadingDigitsOf(w, ['.'] + f);
    assert s[|w|..] == ['.'] + f;
    assert (['.'] + f)[1..] == f;
    LeadingDigitsOf(f, []);
    assert f + [] == f;
  }

  /** Without an exponent, `Mantissa` is the number `whole.frac` writes. */
  lemma MantissaOf(whole: string, frac: string, tail: string)
    requires AllDigits(whole) && AllDigits(frac) && (whole != [] || frac != [])
    requires tail == [] || (tail[0] != 'e' && tail[0] != 'E')
    ensures Mantissa(whole, frac, tail) == Some(DecimalValue(whole, frac))
  {
    assert ExponentOf(tail) == 0;
  }

  /** A leading minus sign negates the number that follows it. */
  lemma ParseFloatOfNegated(s: string, t: string)
    requires s == ['-'] + t && t != [] && (IsDigit(t[0]) || t[0] == '.')
    ensures ParseFloat(s) == Negate(ParseFloat(t))
  {
    assert s[1..] == t;
    assert TrimStart(t) == t;
  }

  /** Text that starts with no digit, point, sign or white space is `NaN`. */
  lemma ParseFloatOfNonNumeric(s: string)
    requires s == [] || (!IsJsSpace(s[0]) && !IsDigit(s[0]) && s[0] != '.' && s[0] != '+' && s[0] != '-')
    ensures ParseFloat(s) == None
  {
    TrimStartOfNonSpace(s);
    ParseUnsignedOfNonNumeric(s);
  }

  lemma TrimStartOfNonSpace(s: string)
    requires s == [] || !IsJsSpace(s[0])
    ensures TrimStart(s) == s
  {
  }

  lemma ParseUnsignedOfNonNumeric(s: string)
    requires s == [] || (!IsDigit(s[0]) && s[0] != '.')
    ensures ParseUnsigned(s) == None
  {
    assert LeadingDigits(s) == [];
  }

  /** `0.f` parses to the fraction it writes. */
  lemma ParseFloatOfFraction(s: string, f: string, digits: nat)
    requires s == ['0', '.'] + f && f != [] && AllDigits(f) && DigitsValue(f) == digits
    ensures ParseFloat(s) == Some(Fraction(digits, |f|))
  {
    var w := ['0'];
    assert s == w + ['.'] + f;
    ParseFloatOfDecimal(w, f);
    DecimalValueOfZeroPoint(w, f, digits);
  }

  lemma DecimalValueOfZeroPoint(w: string, f: string, digits: nat)
    requires w == ['0'] && AllDigits(f) && DigitsValue(f) == digits
    ensures AllDigits(w) && DecimalValue(w, f) == Fraction(digits, |f|)
  {
    DigitsValueOfDigit(w, '0');
  }

  lemma DigitsValueOfDigit(s: string, a: char)
    requires s == [a] && IsDigit(a)
    ensures AllDigits(s) && DigitsValue(s) == a as int - '0' as int
  {
    assert s[..0] == [];
  }

  lemma DigitsValueOfTwo(s: string, a: char, b: char)
    requires s == [a, b] && IsDigit(a) && IsDigit(b)
    ensures AllDigits(s) && DigitsValue(s) == (a as int - '0' as int) * 10 + (b as int - '0' as int)
  {
    assert s == [a] + [b];
    DigitsValueOfDigit([a], a);
    DigitsValueSnoc([a], b);
  }

  lemma DigitsValueOfThree(s: string, a: char, b: char, c: char)
    requires s == [a, b, c] && IsDigit(a) && IsDigit(b) && IsDigit(c)
    ensures AllDigits(s) && DigitsValue(s) ==
      (a as int - '0' as int) * 100 + (b as int - '0' as int) * 10 + (c as int - '0' as int)
  {
    assert s == [a, b] + [c];
    DigitsValueOfTwo([a, b], a, b);
    DigitsValueSnoc([a, b], c);
  }

  lemma DigitsValueOfFour(s: string, a: char, b: char, c: char, d: char)
    requires s == [a, b, c, d] && IsDigit(a) && IsDigit(b) && IsDigit(c) && IsDigit(d)
    ensures AllDigits(s) && DigitsValue(s) ==
      (a as int - '0' as int) * 1000 + (b as int - '0' as int) * 100
      + (c as int - '0' as int) * 10 + (d as int - '0' as int)
  {
    assert s == [a, b, c] + [d];
    DigitsValueOfThree([a, b, c], a, b, c);
    DigitsValueSnoc([a, b, c], d);
  }
}
