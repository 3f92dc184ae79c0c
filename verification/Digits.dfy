/** Decimal numerals: `strconv.Atoi` and `strconv.ParseFloat` on unsigned numerals, and `%0wd`. */
module Digits {
  import opened Wrappers
  import opened Text

  predicate IsDigit(c: char) {
    '0' <= c <= '9'
  }

  predicate AllDigits(s: string) {
    forall i :: 0 <= i < |s| ==> IsDigit(s[i])
  }

  /** The number a digit string denotes. */
  function Value(s: string): nat
    requires AllDigits(s)
  {
    if s == [] then 0 else 10 * Value(s[..|s| - 1]) + (s[|s| - 1] - '0') as int
  }

  function Power10(n: nat): (p: nat)
    ensures p >= 1
  {
    if n == 0 then 1 else 10 * Power10(n - 1)
  }

  function Quotient(n: real, q: real): real
    requires q > 0.0
  {
    n / q
  }

  /** What `w` digits with value `n` are worth behind the point. */
  function Fraction(n: nat, w: nat): real {
    Quotient(n as real, Power10(w) as real)
  }

  /** The number with digits `a` before its point and `b` behind it. */
  function Decimal(a: string, b: string): real
    requires AllDigits(a) && AllDigits(b)
  {
    Value(a) as real + Fraction(Value(b), |b|)
  }

  function ParseNat(s: string): Option<nat> {
    if s != [] && AllDigits(s) then Some(Value(s)) else None
  }

  /** `digits`, `digits.digits`, `digits.` or `.digits`, as an exact number. */
  function ParseDecimal(s: string): Option<real> {
    var parts := SplitOn(s, '.');
    if |parts| == 1 && parts[0] != [] && AllDigits(parts[0]) then
      Some(Value(parts[0]) as real)
    else if |parts| == 2 && AllDigits(parts[0]) && AllDigits(parts[1]) && parts[0] + parts[1] != [] then
      Some(Decimal(parts[0], parts[1]))
    else None
  }

  /** `fmt.Sprintf("%0wd", n)`. */
  function Pad(n: nat, w: nat): (s: string)
    ensures |s| >= w && AllDigits(s) && Value(s) == n
    ensures n < Power10(w) ==> |s| == w
    decreases n, w
  {
    if n == 0 && w == 0 then []
    else
      var s := Pad(n / 10, if w == 0 then 0 else w - 1) + ['0' + (n % 10) as char];
      assert s[..|s| - 1] == Pad(n / 10, if w == 0 then 0 else w - 1);
      s
  }

  lemma PadParses(n: nat, w: nat)
    requires w > 0
    ensures ParseNat(Pad(n, w)) == Some(n)
  {
  }

  /** A numeral is one or more of the ten digits and nothing else. */
  lemma ParseNatIff(s: string)
    ensures ParseNat(s).Some? <==> |s| >= 1 && forall i :: 0 <= i < |s| ==> '0' <= s[i] <= '9'
  {
  }

  lemma {:induction false} ValueOfDigitFirst(d: char, s: string)
    requires IsDigit(d) && AllDigits(s)
    ensures AllDigits([d] + s) && Value([d] + s) == (d - '0') as int * Power10(|s|) + Value(s)
  {
    var t := [d] + s;
    if s != [] {
      var init := s[..|s| - 1];
      assert t[..|t| - 1] == [d] + init && t[|t| - 1] == s[|s| - 1];
      ValueOfDigitFirst(d, init);
      ValueStep(t);
      ValueStep(s);
      hide Value;
      TensShift((d - '0') as int, Power10(|init|));
    } else {
      assert t[..0] == [] && Power10(0) == 1;
    }
  }

  lemma ValueStep(s: string)
    requires s != [] && AllDigits(s)
    ensures var n := |s| - 1; Value(s) == 10 * Value(s[..n]) + (s[n] - '0') as int
  {
  }

  lemma TensShift(v: int, p: int)
    ensures v * (10 * p) == 10 * (v * p)
  {
  }

  lemma ParseDecimalOf(a: string, b: string)
    requires AllDigits(a) && AllDigits(b) && a + b != []
    ensures ParseDecimal(a + ['.'] + b) == Some(Decimal(a, b))
  {
    hide Decimal, SplitOn, ParseDecimal;
    SplitOnConcat(a, b, '.');
    NoSeparatorInDigits(a, '.');
    NoSeparatorInDigits(b, '.');
    assert SplitOn(a + ['.'] + b, '.') == [a, b];
    DecimalOfParts(a + ['.'] + b, a, b);
  }

  lemma DecimalOfParts(s: string, a: string, b: string)
    requires SplitOn(s, '.') == [a, b] && AllDigits(a) && AllDigits(b) && a + b != []
    ensures ParseDecimal(s) == Some(Decimal(a, b))
  {
    hide Decimal, Value, SplitOn;
  }

  /** A numeral with nothing after its point is the whole number before it. */
  lemma PointAtEnd(a: string)
    requires AllDigits(a) && a != []
    ensures ParseDecimal(a + ['.']) == Some(ParseNat(a).value as real)
  {
    ParseDecimalOf(a, []);
    assert a + ['.'] + [] == a + ['.'];
  }

  /** Moving the point one digit to the right multiplies by ten, whatever digits stand before and after it. */
  lemma PointMoves(a: string, d: char, b: string)
    requires AllDigits(a) && IsDigit(d) && AllDigits(b)
    ensures var x, y := ParseDecimal(a + ['.'] + ([d] + b)), ParseDecimal((a + [d]) + ['.'] + b);
      x.Some? && y.Some? && y.value == 10.0 * x.value
  {
    hide ParseDecimal, Decimal;
    ParseDecimalOf(a, [d] + b);
    ParseDecimalOf(a + [d], b);
    DecimalsScale(a, d, b);
  }

  lemma DecimalsScale(a: string, d: char, b: string)
    requires AllDigits(a) && IsDigit(d) && AllDigits(b)
    ensures Decimal(a + [d], b) == 10.0 * Decimal(a, [d] + b)
  {
    hide Fraction;
    ValueOfDigitFirst(d, b);
    assert (a + [d])[..|a|] == a;
    TenTimes(Value(a), (d - '0') as int, Value(b), |b|);
  }

  lemma TenTimes(a: nat, d: int, b: nat, w: nat)
    requires d * Power10(w) + b >= 0
    ensures (10 * a + d) as real + Fraction(b, w) == 10.0 * (a as real + Fraction(d * Power10(w) + b, w + 1))
  {
    FractionShifted(d, b, w);
    hide Fraction, Power10;
    assert (10 * a + d) as real == 10.0 * a as real + d as real;
  }

  lemma FractionShifted(d: int, b: nat, w: nat)
    requires d * Power10(w) + b >= 0
    ensures 10.0 * Fraction(d * Power10(w) + b, w + 1) == d as real + Fraction(b, w)
  {
    hide Quotient;
    var p := Power10(w);
    assert Power10(w + 1) == 10 * p;
    RealOf(d, p, b);
    Divided(d as real, b as real, p as real, (d * p + b) as real, (10 * p) as real);
  }

  lemma RealOf(d: int, p: nat, b: nat)
    ensures (d * p + b) as real == d as real * p as real + b as real
  {
  }

  lemma Divided(d: real, b: real, q: real, n: real, tens: real)
    requires q > 0.0 && n == d * q + b && tens == 10.0 * q
    ensures 10.0 * Quotient(n, tens) == d + Quotient(b, q)
  {
    hide Quotient;
    var u, z := Quotient(b, q), Quotient(n, tens);
    QuotientTimes(b, q);
    QuotientTimes(n, tens);
    Distribute(10.0 * z, d + u, q);
    assert z * tens == 10.0 * z * q;
    assert (d + u) * q == d * q + u * q;
    NoFactor(10.0 * z - (d + u), q);
  }

  lemma QuotientTimes(n: real, q: real)
    requires q > 0.0
    ensures Quotient(n, q) * q == n
  {
  }

  lemma Distribute(x: real, y: real, q: real)
    ensures (x - y) * q == x * q - y * q
  {
  }

  lemma NoFactor(x: real, q: real)
    requires x * q == 0.0 && q > 0.0
    ensures x == 0.0
  {
  }

  lemma NoSeparatorInDigits(s: string, sep: char)
    requires AllDigits(s) && !IsDigit(sep)
    ensures SplitOn(s, sep) == [s]
  {
    assert sep !in s;
    SplitOnAbsent(s, sep);
  }
}
