/**
  Arithmetic and comparison of monetary values. Two values combine only
  when they carry the same currency instance (or both none); the amounts
  are then combined exactly by the decimal library.
*/
module ValueMath {
  import opened Wrappers
  import opened Currencies
  import opened Errors
  import opened Values
  import Decimals

  /** `Equal`: false whenever the currencies differ, otherwise whether the amounts are the same number. */
  predicate Equal(v: Value, comp: Value)
  {
    v.currency == comp.currency && Decimals.Equal(v.amount, comp.amount)
  }

  /** Two amounts stand for the same number exactly when they agree at every common scale. */
  lemma EqualMeansSameNumber(v: Value, comp: Value)
    ensures Equal(v, comp) <==>
      v.currency == comp.currency &&
      forall e: int | e <= v.amount.exp && e <= comp.amount.exp ::
        Decimals.Rescaled(v.amount, e) == Decimals.Rescaled(comp.amount, e)
  {
    var m := Decimals.MinExp(v.amount, comp.amount) as int;
    assert Decimals.Sgn(Decimals.Rescaled(v.amount, m) - Decimals.Rescaled(comp.amount, m)) ==
      Decimals.Cmp(v.amount, comp.amount);
  }

  /** `Equal` is reflexive. */
  lemma EqualReflexive(v: Value)
    ensures Equal(v, v)
  {
    assert Decimals.Sgn(Decimals.Rescaled(v.amount, v.amount.exp) - Decimals.Rescaled(v.amount, v.amount.exp)) == 0;
  }

  /** `Equal` is symmetric. */
  lemma EqualSymmetric(v: Value, comp: Value)
    ensures Equal(v, comp) <==> Equal(comp, v)
  {
    Decimals.CmpAntisymmetric(v.amount, comp.amount);
  }

  /** `Equal` is transitive, so it is an equivalence. */
  lemma EqualTransitive(a: Value, b: Value, c: Value)
    requires Equal(a, b) && Equal(b, c)
    ensures Equal(a, c)
  {
    var e := Min3(a.amount.exp, b.amount.exp, c.amount.exp);
    EqualMeansSameNumber(a, b);
    EqualMeansSameNumber(b, c);
    EqualMeansSameNumber(a, c);
    assert Decimals.Rescaled(a.amount, e) == Decimals.Rescaled(b.amount, e) == Decimals.Rescaled(c.amount, e);
    assert Decimals.Sgn(Decimals.Rescaled(a.amount, e) - Decimals.Rescaled(c.amount, e)) == Decimals.Cmp(a.amount, c.amount);
  }

  function Min3(x: int, y: int, z: int): (m: int)
    ensures m <= x && m <= y && m <= z
  {
    if x <= y && x <= z then x else if y <= z then y else z
  }

  /**
    The comparison the checked operations share: the error for values of
    different currencies, otherwise the sign of the difference of the amounts.
  */
  function Compare(v: Value, comp: Value): (r: Result<int, Error>)
    ensures r.Failure? <==> v.currency != comp.currency
    ensures r.Failure? ==> r.error == DifferentCurrencies(v.currency, comp.currency)
    ensures r.Success? ==> -1 <= r.value <= 1
    ensures r.Success? ==> forall e: int | e <= v.amount.exp && e <= comp.amount.exp ::
      Decimals.Sgn(Decimals.Rescaled(v.amount, e) - Decimals.Rescaled(comp.amount, e)) == r.value
  {
    if v.currency != comp.currency then Failure(DifferentCurrencies(v.currency, comp.currency))
    else Success(Decimals.Cmp(v.amount, comp.amount))
  }

  /** The variant of `Equal` with an error: an error for different currencies, otherwise `Equal`. */
  function EqualChecked(v: Value, comp: Value): (r: Result<bool, Error>)
    ensures r.Failure? <==> v.currency != comp.currency
    ensures r.Success? ==> (r.value <==> Equal(v, comp))
  {
    var c :- Compare(v, comp);
    Success(c == 0)
  }

  /** `GreaterThan`: an error for different currencies, otherwise whether `v` is the larger number. */
  function GreaterThan(v: Value, comp: Value): (r: Result<bool, Error>)
    ensures r.Failure? <==> v.currency != comp.currency
    ensures r.Success? ==> (r.value <==> Compare(v, comp).value > 0)
  {
    var c :- Compare(v, comp);
    Success(c > 0)
  }

  /** `GreaterThanOrEqual`: an error for different currencies, otherwise whether `v` is not the smaller number. */
  function GreaterThanOrEqual(v: Value, comp: Value): (r: Result<bool, Error>)
    ensures r.Failure? <==> v.currency != comp.currency
    ensures r.Success? ==> (r.value <==> Compare(v, comp).value >= 0)
  {
    var c :- Compare(v, comp);
    Success(c >= 0)
  }

  /** `LessThan`: an error for different currencies, otherwise whether `v` is the smaller number. */
  function LessThan(v: Value, comp: Value): (r: Result<bool, Error>)
    ensures r.Failure? <==> v.currency != comp.currency
    ensures r.Success? ==> (r.value <==> Compare(v, comp).value < 0)
  {
    var c :- Compare(v, comp);
    Success(c < 0)
  }

  /** `LessThanOrEqual`: an error for different currencies, otherwise whether `v` is not the larger number. */
  function LessThanOrEqual(v: Value, comp: Value): (r: Result<bool, Error>)
    ensures r.Failure? <==> v.currency != comp.currency
    ensures r.Success? ==> (r.value <==> Compare(v, comp).value <= 0)
  {
    var c :- Compare(v, comp);
    Success(c <= 0)
  }

  /**
    With a shared currency the comparisons follow the order of the numbers,
    read at any common scale.
  */
  lemma OrderFollowsAmounts(v: Value, comp: Value, e: int)
    requires v.currency == comp.currency
    requires e <= v.amount.exp && e <= comp.amount.exp
    ensures GreaterThan(v, comp) == Success(Decimals.Rescaled(v.amount, e) > Decimals.Rescaled(comp.amount, e))
    ensures GreaterThanOrEqual(v, comp) == Success(Decimals.Rescaled(v.amount, e) >= Decimals.Rescaled(comp.amount, e))
    ensures LessThan(v, comp) == Success(Decimals.Rescaled(v.amount, e) < Decimals.Rescaled(comp.amount, e))
    ensures LessThanOrEqual(v, comp) == Success(Decimals.Rescaled(v.amount, e) <= Decimals.Rescaled(comp.amount, e))
    ensures EqualChecked(v, comp) == Success(Decimals.Rescaled(v.amount, e) == Decimals.Rescaled(comp.amount, e))
  {
    assert Decimals.Sgn(Decimals.Rescaled(v.amount, e) - Decimals.Rescaled(comp.amount, e)) == Compare(v, comp).value;
  }

  /**
    The comparisons are consistent with each other: swapping the operands
    swaps greater and less, and "or equal" adds exactly the equal case.
  */
  lemma OrderDuality(v: Value, comp: Value)
    requires v.currency == comp.currency
    ensures GreaterThan(v, comp) == LessThan(comp, v)
    ensures GreaterThanOrEqual(v, comp) == LessThanOrEqual(comp, v)
    ensures GreaterThanOrEqual(v, comp).value == (GreaterThan(v, comp).value || EqualChecked(v, comp).value)
    ensures LessThan(v, comp).value == !GreaterThanOrEqual(v, comp).value
  {
    Decimals.CmpAntisymmetric(v.amount, comp.amount);
  }

  /** `Add`: the exact sum in the shared currency, or an error for different currencies. */
  function Add(v: Value, v2: Value): (r: Result<Value, Error>)
    ensures r.Failure? <==> v.currency != v2.currency
    ensures r.Failure? ==> r.error == DifferentCurrencies(v.currency, v2.currency)
    ensures r.Success? ==> r.value.currency == v.currency && r.value.amount.exp == Decimals.MinExp(v.amount, v2.amount)
    ensures r.Success? ==> forall e: int | e <= v.amount.exp && e <= v2.amount.exp ::
      Decimals.Rescaled(r.value.amount, e) == Decimals.Rescaled(v.amount, e) + Decimals.Rescaled(v2.amount, e)
  {
    if v.currency != v2.currency then Failure(DifferentCurrencies(v.currency, v2.currency))
    else Success(Value(Decimals.Add(v.amount, v2.amount), v.currency))
  }

  /** `Sub`: the exact difference in the shared currency, or an error for different currencies. */
  function Sub(v: Value, v2: Value): (r: Result<Value, Error>)
    ensures r.Failure? <==> v.currency != v2.currency
    ensures r.Failure? ==> r.error == DifferentCurrencies(v.currency, v2.currency)
    ensures r.Success? ==> r.value.currency == v.currency && r.value.amount.exp == Decimals.MinExp(v.amount, v2.amount)
    ensures r.Success? ==> forall e: int | e <= v.amount.exp && e <= v2.amount.exp ::
      Decimals.Rescaled(r.value.amount, e) == Decimals.Rescaled(v.amount, e) - Decimals.Rescaled(v2.amount, e)
  {
    if v.currency != v2.currency then Failure(DifferentCurrencies(v.currency, v2.currency))
    else Success(Value(Decimals.Sub(v.amount, v2.amount), v.currency))
  }

  /** Subtracting what was added gives back a value equal to the original. */
  lemma AddThenSub(v: Value, v2: Value)
    requires v.currency == v2.currency
    ensures Sub(Add(v, v2).value, v2).Success?
    ensures Equal(Sub(Add(v, v2).value, v2).value, v)
  {
    var s := Add(v, v2).value;
    var d := Sub(s, v2).value;
    var e := d.amount.exp as int;
    assert e <= v.amount.exp && e <= v2.amount.exp && e <= s.amount.exp;
    assert Decimals.Rescaled(d.amount, e) == Decimals.Rescaled(v.amount, e);
    EqualMeansSameNumber(d, v);
    assert Decimals.Sgn(Decimals.Rescaled(d.amount, e) - Decimals.Rescaled(v.amount, e)) == Decimals.Cmp(d.amount, v.amount);
  }

  /**
    `Mul`: the exact product. At most one factor may carry a currency, and
    the product keeps it; two factors with currencies are an error, even the
    same one. The decimal library panics when the exponents' sum leaves the
    32-bit range, which callers must avoid.
  */
  function Mul(v: Value, v2: Value): (r: Result<Value, Error>)
    requires Decimals.MulDefined(v.amount, v2.amount)
    ensures r.Failure? <==> v.currency != null && v2.currency != null
    ensures r.Failure? ==> r.error == CurrencyProduct(v.currency, v2.currency)
    ensures r.Success? ==> r.value.currency == (if v.currency != null then v.currency else v2.currency)
    ensures r.Success? ==> r.value.amount.exp == v.amount.exp + v2.amount.exp
    ensures r.Success? ==> forall e1: int, e2: int | e1 <= v.amount.exp && e2 <= v2.amount.exp ::
      Decimals.Rescaled(r.value.amount, e1 + e2) == Decimals.Rescaled(v.amount, e1) * Decimals.Rescaled(v2.amount, e2)
  {
    if v.currency != null && v2.currency != null then Failure(CurrencyProduct(v.currency, v2.currency))
    else
      var cur := if v.currency != null then v.currency else v2.currency;
      Success(Value(Decimals.Mul(v.amount, v2.amount), cur))
  }

  /** `Abs`: the magnitude in the same currency. */
  function Abs(v: Value): (r: Value)
    ensures r.currency == v.currency
    ensures Sign(r) >= 0
    ensures r == v || r == Neg(v)
  {
    Value(Decimals.Abs(v.amount), v.currency)
  }

  /** `Neg`: the opposite number in the same currency. */
  function Neg(v: Value): (r: Value)
    ensures r.currency == v.currency
    ensures Sign(r) == -Sign(v)
    ensures Add(v, r).Success? && IsZero(Add(v, r).value)
  {
    Value(Decimals.Neg(v.amount), v.currency)
  }

  /** `Sign`: -1, 0 or 1, the amount's comparison with zero; the currency plays no part. */
  function Sign(v: Value): (r: int)
    ensures r == -1 || r == 0 || r == 1
    ensures r == Decimals.Cmp(v.amount, Decimals.Zero)
  {
    Decimals.Sign(v.amount)
  }

  /** `IsPositive`. */
  predicate IsPositive(v: Value)
  {
    Sign(v) == 1
  }

  /** `IsNegative`. */
  predicate IsNegative(v: Value)
  {
    Sign(v) == -1
  }

  /** `IsZero`. */
  predicate IsZero(v: Value)
  {
    Sign(v) == 0
  }

  /**
    The sign predicates split every value into exactly one of three cases,
    read off the coefficient, and they do not depend on the currency.
  */
  lemma SignCases(v: Value, other: Currency?)
    ensures IsPositive(v) <==> v.amount.value > 0
    ensures IsNegative(v) <==> v.amount.value < 0
    ensures IsZero(v) <==> v.amount.value == 0
    ensures Sign(v) == Sign(Value(v.amount, other))
  {
  }

  /** `Neg` is its own inverse, and `Abs` is idempotent. */
  lemma NegAbsLaws(v: Value)
    ensures Neg(Neg(v)) == v
    ensures Abs(Abs(v)) == Abs(v)
    ensures Abs(Neg(v)) == Abs(v)
  {
  }

  /** Values of different currencies are never equal, and every checked operation refuses them. */
  lemma CurrencyGate(v: Value, comp: Value)
    requires v.currency != comp.currency
    ensures !Equal(v, comp)
    ensures EqualChecked(v, comp).Failure? && GreaterThan(v, comp).Failure? && LessThan(v, comp).Failure?
    ensures GreaterThanOrEqual(v, comp).Failure? && LessThanOrEqual(v, comp).Failure?
    ensures Add(v, comp).Failure? && Sub(v, comp).Failure?
  {
  }
}
