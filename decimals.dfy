/**
  Arbitrary-precision decimal numbers as the money package uses them through
  its decimal library: a big-integer coefficient `value` and a 32-bit
  exponent `exp`, standing for value * 10^exp. Arithmetic first brings both
  operands to the smaller exponent; text is plain positional notation; the
  binary form is the exponent's 4 big-endian bytes followed by the
  coefficient in big-integer gob form.
*/
module Decimals {
  import opened Wrappers
  import opened Binary
  import opened Positional
  import Text

  datatype Decimal = Decimal(value: int, exp: Int32)

  /** The zero value of a decimal. */
  const Zero: Decimal := Decimal(0, 0)

  /** Why the decimal library refused an input. */
  datatype DecimalError =
    | TooManyDots(input: string)
    | Syntax(input: string)
    | FractionTooLong(input: string)
    | BinaryTooShort(length: nat)
    | UnsupportedGobVersion(version: int)

  function Pow10(n: nat): (r: nat)
    ensures r >= 1
  {
    if n == 0 then 1 else 10 * Pow10(n - 1)
  }

  lemma {:induction false} Pow10Add(a: nat, b: nat)
    ensures Pow10(a + b) == Pow10(a) * Pow10(b)
    decreases a
  {
    if a > 0 {
      Pow10Add(a - 1, b);
      assert Pow10(a + b) == 10 * Pow10(a - 1 + b);
    }
  }

  /** The coefficient of `d` when it is written with the exponent `e`: d == Rescaled(d, e) * 10^e. */
  function Rescaled(d: Decimal, e: int): int
    requires e <= d.exp
  {
    d.value * Pow10(d.exp - e)
  }

  /** Rescaling further down multiplies by the power of ten in between. */
  lemma RescaledChain(d: Decimal, e1: int, e2: int)
    requires e2 <= e1 <= d.exp
    ensures Rescaled(d, e2) == Rescaled(d, e1) * Pow10(e1 - e2)
  {
    Pow10Add(d.exp - e1, e1 - e2);
    assert d.exp - e2 == (d.exp - e1) + (e1 - e2);
  }

  function MinExp(a: Decimal, b: Decimal): Int32
  {
    if a.exp <= b.exp then a.exp else b.exp
  }

  function Sgn(x: int): int
  {
    if x < 0 then -1 else if x == 0 then 0 else 1
  }

  lemma ScaleSgn(x: int, y: int, p: int)
    requires p >= 1
    ensures Sgn(x * p - y * p) == Sgn(x - y)
  {
    assert x * p - y * p == (x - y) * p;
    if x - y > 0 {
      assert (x - y) * p >= x - y;
    } else if x - y < 0 {
      assert (x - y) * p <= x - y;
    }
  }

  /**
    `Decimal.Cmp`: -1, 0 or +1 as `a` is below, equal to or above `b`. The
    answer is the same at every common scale, so it compares the numbers
    and not their representations.
  */
  function Cmp(a: Decimal, b: Decimal): (r: int)
    ensures r == -1 || r == 0 || r == 1
    ensures forall e: int | e <= a.exp && e <= b.exp :: Sgn(Rescaled(a, e) - Rescaled(b, e)) == r
  {
    var m := MinExp(a, b);
    var r := Sgn(Rescaled(a, m) - Rescaled(b, m));
    assert forall e: int | e <= a.exp && e <= b.exp :: Sgn(Rescaled(a, e) - Rescaled(b, e)) == r by {
      forall e: int | e <= a.exp && e <= b.exp
        ensures Sgn(Rescaled(a, e) - Rescaled(b, e)) == r
      {
        RescaledChain(a, m, e);
        RescaledChain(b, m, e);
        ScaleSgn(Rescaled(a, m), Rescaled(b, m), Pow10(m - e));
      }
    }
    r
  }

  /** `Decimal.Equal`: the two stand for the same number, whatever their exponents. */
  predicate Equal(a: Decimal, b: Decimal)
  {
    Cmp(a, b) == 0
  }

  /** Comparison is antisymmetric. */
  lemma CmpAntisymmetric(a: Decimal, b: Decimal)
    ensures Cmp(b, a) == -Cmp(a, b)
  {
    var m := MinExp(a, b);
    assert Sgn(Rescaled(a, m) - Rescaled(b, m)) == Cmp(a, b);
    assert Sgn(Rescaled(b, m) - Rescaled(a, m)) == Cmp(b, a);
  }

  /** `Decimal.Add`: exact sum at the smaller of the two exponents. */
  function Add(a: Decimal, b: Decimal): (r: Decimal)
    ensures r.exp == MinExp(a, b)
    ensures forall e: int | e <= r.exp :: Rescaled(r, e) == Rescaled(a, e) + Rescaled(b, e)
  {
    var m := MinExp(a, b);
    var r := Decimal(Rescaled(a, m) + Rescaled(b, m), m);
    forall e: int | e <= m
      ensures Rescaled(r, e) == Rescaled(a, e) + Rescaled(b, e)
    {
      RescaledCombination(a, b, m, e, 1);
    }
    r
  }

  /** `Decimal.Sub`: exact difference at the smaller of the two exponents. */
  function Sub(a: Decimal, b: Decimal): (r: Decimal)
    ensures r.exp == MinExp(a, b)
    ensures forall e: int | e <= r.exp :: Rescaled(r, e) == Rescaled(a, e) - Rescaled(b, e)
  {
    var m := MinExp(a, b);
    var r := Decimal(Rescaled(a, m) - Rescaled(b, m), m);
    forall e: int | e <= m
      ensures Rescaled(r, e) == Rescaled(a, e) - Rescaled(b, e)
    {
      RescaledCombination(a, b, m, e, -1);
    }
    r
  }

  /** A sum or difference formed at a common exponent `m` stays one at every lower exponent. */
  lemma RescaledCombination(a: Decimal, b: Decimal, m: int, e: int, sign: int)
    requires e <= m <= a.exp && m <= b.exp && m == MinExp(a, b)
    requires sign == 1 || sign == -1
    ensures Rescaled(Decimal(Rescaled(a, m) + sign * Rescaled(b, m), m as Int32), e)
         == Rescaled(a, e) + sign * Rescaled(b, e)
  {
    var p := Pow10(m - e);
    RescaledChain(a, m, e);
    RescaledChain(b, m, e);
    var x, y := Rescaled(a, m), Rescaled(b, m);
    if sign == 1 {
      assert (x + y) * p == x * p + y * p;
    } else {
      assert (x - y) * p == x * p - y * p;
    }
  }

  /** `Decimal.Neg`: the same number with the opposite sign. */
  function Neg(d: Decimal): (r: Decimal)
    ensures Add(d, r).value == 0
  {
    Decimal(-d.value, d.exp)
  }

  /** `Decimal.Abs`. */
  function Abs(d: Decimal): (r: Decimal)
    ensures r.value >= 0 && r.exp == d.exp
    ensures r == d || r == Neg(d)
  {
    Decimal(if d.value < 0 then -d.value else d.value, d.exp)
  }

  /** `Decimal.Sign`: the sign of the number, which is its comparison with zero. */
  function Sign(d: Decimal): (r: int)
    ensures r == Cmp(d, Zero)
  {
    assert Rescaled(Zero, MinExp(d, Zero)) == 0;
    assert Sgn(Rescaled(d, MinExp(d, Zero))) == Sgn(d.value);
    Sgn(d.value)
  }

  /** Whether the exponent sum of a product fits in an int32 (the library panics otherwise). */
  predicate MulDefined(a: Decimal, b: Decimal)
  {
    -0x8000_0000 <= a.exp + b.exp < 0x8000_0000
  }

  /** `Decimal.Mul`: the exact product. */
  function Mul(a: Decimal, b: Decimal): (r: Decimal)
    requires MulDefined(a, b)
    ensures r.exp == a.exp + b.exp
    ensures forall e1: int, e2: int | e1 <= a.exp && e2 <= b.exp ::
      Rescaled(r, e1 + e2) == Rescaled(a, e1) * Rescaled(b, e2)
  {
    var r := Decimal(a.value * b.value, a.exp + b.exp);
    forall e1: int, e2: int | e1 <= a.exp && e2 <= b.exp
      ensures Rescaled(r, e1 + e2) == Rescaled(a, e1) * Rescaled(b, e2)
    {
      RescaledProduct(a, b, e1, e2);
    }
    r
  }

  lemma RescaledProduct(a: Decimal, b: Decimal, e1: int, e2: int)
    requires MulDefined(a, b) && e1 <= a.exp && e2 <= b.exp
    ensures Rescaled(Decimal(a.value * b.value, (a.exp + b.exp) as Int32), e1 + e2)
         == Rescaled(a, e1) * Rescaled(b, e2)
  {
    var p, q := Pow10(a.exp - e1), Pow10(b.exp - e2);
    Pow10Add(a.exp - e1, b.exp - e2);
    assert a.exp + b.exp - (e1 + e2) == (a.exp - e1) + (b.exp - e2);
    MulRearrange(a.value, b.value, p, q);
  }

  lemma MulRearrange(x: int, y: int, p: int, q: int)
    ensures (x * y) * (p * q) == (x * p) * (y * q)
  {
  }

  // ---- Text -------------------------------------------------------------

  predicate IsDigit(c: char)
  {
    '0' <= c <= '9'
  }

  predicate AllDigits(s: string)
  {
    forall i | 0 <= i < |s| :: IsDigit(s[i])
  }

  function DigitChars(ds: seq<int>): (s: string)
    requires forall i | 0 <= i < |ds| :: 0 <= ds[i] < 10
    ensures |s| == |ds| && AllDigits(s)
  {
    seq(|ds|, i requires 0 <= i < |ds| => ('0' as int + ds[i]) as char)
  }

  function DigitValues(s: string): (ds: seq<int>)
    requires AllDigits(s)
    ensures |ds| == |s|
  {
    seq(|s|, i requires 0 <= i < |s| => s[i] as int - '0' as int)
  }

  /** The decimal digits of `n`, "0" for zero. */
  function NatString(n: nat): (s: string)
    ensures |s| >= 1 && AllDigits(s)
  {
    if n == 0 then "0" else DigitChars(ToDigits(n, 10))
  }

  /** A string of `n` zero digits. */
  function ZeroChars(n: nat): (s: string)
    ensures |s| == n && AllDigits(s)
  {
    seq(n, _ => '0')
  }

  /** Reading the digits of NatString(n) gives `n` back. */
  lemma NatStringValue(n: nat)
    ensures FromDigits(DigitValues(NatString(n)), 10) == n
  {
    if n == 0 {
      assert DigitValues("0") == [0];
      assert FromDigits([0], 10) == FromDigits([], 10) * 10 + 0;
    } else {
      var ds := ToDigits(n, 10);
      assert DigitValues(DigitChars(ds)) == ds;
      FromToDigits(n, 10);
    }
  }

  /** The absolute value of an integer. */
  function Magnitude(v: int): nat
  {
    if v < 0 then -v else v
  }

  /** The sign written in front of an integer's digits: "-" for negatives, nothing otherwise. */
  function SignText(v: int): string
  {
    if v < 0 then "-" else ""
  }

  /** `big.Int.String` in base ten. */
  function IntString(i: int): string
  {
    SignText(i) + NatString(Magnitude(i))
  }

  /** The digits of `n`, with zeros in front so that there are more than `k` of them. */
  function Padded(n: nat, k: nat): (p: string)
    ensures |p| > k && AllDigits(p)
  {
    var digits := NatString(n);
    if |digits| > k then digits else ZeroChars(k - |digits| + 1) + digits
  }

  lemma PaddedValue(n: nat, k: nat)
    ensures FromDigits(DigitValues(Padded(n, k)), 10) == n
  {
    var digits := NatString(n);
    NatStringValue(n);
    if |digits| <= k {
      var z := ZeroChars(k - |digits| + 1);
      assert DigitValues(Padded(n, k)) == DigitValues(z) + DigitValues(digits);
      FromDigitsLeadingZeros(DigitValues(z), DigitValues(digits), 10);
    }
  }

  /** How many digits a decimal with a negative exponent shows after the point. */
  function FractionDigits(d: Decimal): nat
    requires d.exp < 0
  {
    -(d.exp as int)
  }

  /**
    `Decimal.String`: the number in plain positional notation, with exactly
    -exp digits after the point when the exponent is negative and no point
    otherwise.
  */
  function String(d: Decimal): string
  {
    if d.exp >= 0 then IntString(Rescaled(d, 0))
    else PointText(SignText(d.value), Padded(Magnitude(d.value), FractionDigits(d)), FractionDigits(d))
  }

  /** `sign`, the digits of `padded` but its last `k`, a point, and those `k` digits. */
  function PointText(sign: string, padded: string, k: nat): string
    requires AllDigits(padded) && |padded| > k
  {
    sign + padded[..|padded| - k] + "." + padded[|padded| - k..]
  }

  /** Every character of `s` is a digit or a minus sign, or, if `point` allows it, a point. */
  predicate NumberText(s: string, point: bool)
  {
    forall j | 0 <= j < |s| :: s[j] == '-' || IsDigit(s[j]) || (point && s[j] == '.')
  }

  lemma NumberTextAppend(a: string, b: string, point: bool)
    requires NumberText(a, point) && NumberText(b, point)
    ensures NumberText(a + b, point)
  {
    assert forall j | |a| <= j < |a + b| :: (a + b)[j] == b[j - |a|];
  }

  lemma DigitsNumberText(s: string, point: bool)
    requires AllDigits(s)
    ensures NumberText(s, point)
  {
  }

  /**
    The text of a decimal consists of digits, a leading minus and at most a
    point, and it has a point exactly when the exponent is negative.
  */
  lemma StringShape(d: Decimal)
    ensures NumberText(String(d), true)
    ensures '.' in String(d) <==> d.exp < 0
  {
    if d.exp >= 0 {
      var v := Rescaled(d, 0);
      DigitsNumberText(NatString(Magnitude(v)), false);
      NumberTextAppend(SignText(v), NatString(Magnitude(v)), false);
      assert String(d) == SignText(v) + NatString(Magnitude(v));
    } else {
      PointTextShape(SignText(d.value), Padded(Magnitude(d.value), FractionDigits(d)), FractionDigits(d));
    }
  }

  lemma PointTextShape(sign: string, padded: string, k: nat)
    requires AllDigits(padded) && |padded| > k
    requires NumberText(sign, false)
    ensures NumberText(PointText(sign, padded, k), true)
    ensures '.' in PointText(sign, padded, k)
  {
    var ip, fp := padded[..|padded| - k], padded[|padded| - k..];
    DigitsNumberText(ip, true);
    DigitsNumberText(fp, true);
    NumberTextAppend(sign, ip, true);
    NumberTextAppend(sign + ip, ".", true);
    NumberTextAppend(sign + ip + ".", fp, true);
    assert PointText(sign, padded, k)[|sign + ip|] == '.';
  }

  /** `big.Int.SetString(s, 10)`: an optional sign followed by at least one digit. */
  function ParseInt(s: string): Option<int>
  {
    if |s| > 0 && (s[0] == '-' || s[0] == '+') then
      (if |s| > 1 && AllDigits(s[1..])
       then Some(if s[0] == '-' then -FromDigits(DigitValues(s[1..]), 10) else FromDigits(DigitValues(s[1..]), 10))
       else None)
    else if |s| > 0 && AllDigits(s) then Some(FromDigits(DigitValues(s), 10))
    else None
  }

  /**
    `NewFromString` for plain notation: the digits around at most one point
    form the coefficient, and the number of digits after the point is the
    negated exponent.
  */
  function FromString(s: string): (r: Result<Decimal, DecimalError>)
    ensures Text.Count(s, '.') > 1 ==> r == Failure(TooManyDots(s))
    ensures r.Success? ==> r.value.exp <= 0
  {
    var parts := Text.Split(s, '.');
    Text.SplitCount(s, '.');
    if |parts| > 2 then Failure(TooManyDots(s))
    else
      var intString := if |parts| == 1 then s else parts[0] + parts[1];
      var fracLen := if |parts| == 1 then 0 else |parts[1]|;
      match ParseInt(intString)
      case None => Failure(Syntax(s))
      case Some(v) =>
        if fracLen > 0x8000_0000 then Failure(FractionTooLong(s))
        else Success(Decimal(v, -fracLen))
  }

  /** The representation with exponent min(exp, 0) of the same number: what reading the text back gives. */
  function Canonical(d: Decimal): (c: Decimal)
    ensures Equal(c, d)
    ensures d.exp <= 0 ==> c == d
  {
    var c := if d.exp >= 0 then Decimal(Rescaled(d, 0), 0) else d;
    assert Rescaled(c, MinExp(c, d)) == Rescaled(d, MinExp(c, d));
    c
  }

  lemma IntStringParses(i: int)
    ensures ParseInt(IntString(i)) == Some(i)
  {
    NatStringValue(Magnitude(i));
    IntegerDigitsParse(i, NatString(Magnitude(i)));
  }

  /** Reading back the text of a decimal gives the same number, exactly in its canonical form. */
  lemma StringRoundTrip(d: Decimal)
    ensures FromString(String(d)) == Success(Canonical(d))
    ensures Equal(Canonical(d), d)
  {
    if d.exp >= 0 {
      StringShape(d);
      Text.SplitNone(String(d), '.');
      IntStringParses(Rescaled(d, 0));
    } else {
      FractionRoundTrip(d);
    }
  }

  lemma FractionRoundTrip(d: Decimal)
    requires d.exp < 0
    ensures FromString(String(d)) == Success(d)
  {
    var k := FractionDigits(d);
    var padded := Padded(Magnitude(d.value), k);
    assert String(d) == PointText(SignText(d.value), padded, k);
    PaddedValue(Magnitude(d.value), k);
    IntegerDigitsParse(d.value, padded);
    PointTextParses(SignText(d.value), padded, k, d.value);
  }

  lemma PointTextParses(sign: string, padded: string, k: nat, v: int)
    requires AllDigits(padded) && |padded| > k && k <= 0x8000_0000
    requires '.' !in sign
    requires ParseInt(sign + padded) == Some(v)
    ensures FromString(PointText(sign, padded, k)) == Success(Decimal(v, -(k as int)))
  {
    var ip, fp := padded[..|padded| - k], padded[|padded| - k..];
    var s := PointText(sign, padded, k);
    assert s == (sign + ip) + ['.'] + fp;
    assert '.' !in ip;
    assert '.' !in fp;
    Text.SplitPair(sign + ip, fp, '.');
    assert (sign + ip) + fp == sign + padded by {
      assert ip + fp == padded;
    }
    FromStringOfPair(s, sign + ip, fp, v);
  }

  lemma FromStringOfPair(s: string, a: string, b: string, v: int)
    requires Text.Split(s, '.') == [a, b]
    requires ParseInt(a + b) == Some(v)
    requires |b| <= 0x8000_0000
    ensures FromString(s) == Success(Decimal(v, -|b|))
  {
  }

  lemma IntegerDigitsParse(v: int, digits: string)
    requires AllDigits(digits) && |digits| > 0
    requires FromDigits(DigitValues(digits), 10) == Magnitude(v)
    ensures ParseInt(SignText(v) + digits) == Some(v)
  {
    assert IsDigit(digits[0]);
    if v < 0 {
      var t := "-" + digits;
      assert t[0] == '-' && t[1..] == digits;
    } else {
      assert digits[0] != '-' && digits[0] != '+';
      assert "" + digits == digits;
    }
  }

  // ---- Binary -----------------------------------------------------------

  /** The format version that big integers write in their gob form. */
  const IntGobVersion: int := 1

  /** `big.Int.GobEncode`: a version-and-sign byte, then the magnitude's bytes, most significant first. */
  function GobEncodeInt(v: int): (b: seq<Byte>)
    ensures |b| >= 1
  {
    var mag := ToDigits(if v < 0 then -v else v, 0x100);
    [IntGobVersion * 2 + (if v < 0 then 1 else 0)] + mag
  }

  /** `big.Int.GobDecode`: an empty buffer is zero, and only the known version is accepted. */
  function GobDecodeInt(b: seq<Byte>): Result<int, DecimalError>
  {
    if b == [] then Success(0)
    else if b[0] / 2 != IntGobVersion then Failure(UnsupportedGobVersion(b[0] / 2))
    else
      var m := FromDigits(b[1..], 0x100);
      Success(if b[0] % 2 == 1 then -m else m)
  }

  lemma GobRoundTrip(v: int)
    ensures GobDecodeInt(GobEncodeInt(v)) == Success(v)
  {
    var b := GobEncodeInt(v);
    FromToDigits(if v < 0 then -v else v, 0x100);
    assert b[1..] == ToDigits(if v < 0 then -v else v, 0x100);
  }

  /** `Decimal.MarshalBinary`: the exponent's 4 bytes, then the coefficient in gob form. */
  function MarshalBinary(d: Decimal): (b: seq<Byte>)
    ensures |b| >= 5
  {
    EncodeInt32(d.exp) + GobEncodeInt(d.value)
  }

  /**
    `Decimal.UnmarshalBinary` on a receiver holding `prior`: the receiver's
    new contents and the error. The exponent is stored and the coefficient
    reset before the coefficient is decoded, so a bad coefficient leaves
    zero with the new exponent behind.
  */
  function UnmarshalBinary(prior: Decimal, data: seq<Byte>): (r: (Decimal, Option<DecimalError>))
    ensures |data| < 4 ==> r == (prior, Some(BinaryTooShort(|data|)))
    ensures r.1.None? ==> r.0.exp == DecodeInt32(data[..4])
  {
    if |data| < 4 then (prior, Some(BinaryTooShort(|data|)))
    else
      var exp := DecodeInt32(data[..4]);
      match GobDecodeInt(data[4..])
      case Failure(e) => (Decimal(0, exp), Some(e))
      case Success(v) => (Decimal(v, exp), None)
  }

  /** Decoding the binary form of a decimal restores it exactly, whatever the receiver held. */
  lemma BinaryRoundTrip(prior: Decimal, d: Decimal)
    ensures UnmarshalBinary(prior, MarshalBinary(d)) == (d, None)
  {
    var b := MarshalBinary(d);
    assert b[..4] == EncodeInt32(d.exp);
    assert b[4..] == GobEncodeInt(d.value);
    Int32RoundTrip(d.exp);
    GobRoundTrip(d.value);
  }
}
