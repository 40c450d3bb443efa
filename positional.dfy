/**
  Positional notation: the digits of a natural number in a base, most
  significant first. Decimal text and the magnitude bytes of big integers
  are both written this way.
*/
module Positional {

  /** The digits of `n` in `base`, most significant first, without leading zeros (none for 0). */
  function ToDigits(n: nat, base: nat): (ds: seq<int>)
    requires base >= 2
    ensures forall i | 0 <= i < |ds| :: 0 <= ds[i] < base
    ensures |ds| > 0 <==> n > 0
    ensures |ds| > 0 ==> ds[0] > 0
    decreases n
  {
    if n == 0 then []
    else
      DivLess(n, base);
      ToDigits(n / base, base) + [n % base]
  }

  /** Dividing a positive number by a base of at least two makes it smaller. */
  lemma DivLess(n: nat, base: nat)
    requires base >= 2 && n > 0
    ensures n / base < n
  {
    var q, r := n / base, n % base;
    assert n == q * base + r;
    assert q * base >= q * 2 by {
      MulMono(q, base);
    }
  }

  lemma MulMono(q: nat, base: nat)
    requires base >= 2
    ensures q * base >= q * 2
  {
    assert q * base == q * 2 + q * (base - 2);
  }

  /** The number whose digits in `base` are `ds`, most significant first. */
  function FromDigits(ds: seq<int>, base: nat): int
    decreases |ds|
  {
    if ds == [] then 0 else FromDigits(ds[..|ds| - 1], base) * base + ds[|ds| - 1]
  }

  /**
    Reading back the digits of `n` gives `n`, in the two bases used here:
    ten for text and 256 for bytes.
  */
  lemma {:induction false} FromToDigits(n: nat, base: nat)
    requires base == 10 || base == 256
    ensures FromDigits(ToDigits(n, base), base) == n
    decreases n
  {
    if n > 0 {
      DivLess(n, base);
      var q, r := n / base, n % base;
      var ds := ToDigits(n, base);
      assert FromDigits(ds, base) == FromDigits(ToDigits(q, base), base) * base + r by {
        assert ds == ToDigits(q, base) + [r];
        assert ds[..|ds| - 1] == ToDigits(q, base);
      }
      FromToDigits(q, base);
      assert n == q * base + r;
    }
  }

  /** Leading zero digits do not change the number. */
  lemma {:induction false} FromDigitsLeadingZeros(zs: seq<int>, ds: seq<int>, base: nat)
    requires forall i | 0 <= i < |zs| :: zs[i] == 0
    ensures FromDigits(zs + ds, base) == FromDigits(ds, base)
    decreases |ds|
  {
    if ds == [] {
      FromDigitsZeros(zs, base);
      assert zs + ds == zs;
    } else {
      FromDigitsLeadingZeros(zs, ds[..|ds| - 1], base);
      assert (zs + ds)[..|zs + ds| - 1] == zs + ds[..|ds| - 1];
    }
  }

  lemma {:induction false} FromDigitsZeros(zs: seq<int>, base: nat)
    requires forall i | 0 <= i < |zs| :: zs[i] == 0
    ensures FromDigits(zs, base) == 0
    decreases |zs|
  {
    if zs != [] {
      FromDigitsZeros(zs[..|zs| - 1], base);
    }
  }

  /** A sequence of `n` zero digits. */
  function Zeros(n: nat): (zs: seq<int>)
    ensures |zs| == n
    ensures forall i | 0 <= i < n :: zs[i] == 0
  {
    seq(n, _ => 0)
  }
}
