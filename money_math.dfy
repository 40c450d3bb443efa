/**
  `Sum` over monetary values: every value must carry the currency of the
  first, and the amounts are added exactly, one after the other.
*/
module MoneyMath {
  import opened Wrappers
  import opened Errors
  import opened Values
  import Decimals

  /**
    What summing `first` and `values` gives: the values are taken in order;
    the first one whose currency is not `first`'s ends the sum with an error
    naming both currencies; otherwise the running total grows by each amount.
  */
  function SumSpec(first: Value, values: seq<Value>): (r: Result<Value, Error>)
    ensures r.Success? ==> r.value.currency == first.currency
    decreases |values|
  {
    if values == [] then Success(first)
    else
      var prev := SumSpec(first, values[..|values| - 1]);
      var last := values[|values| - 1];
      if prev.Failure? then prev
      else if last.currency != first.currency then Failure(DifferentCurrencies(first.currency, last.currency))
      else Success(Value(Decimals.Add(prev.value.amount, last.amount), first.currency))
  }

  /** Once a prefix has failed, the longer input fails in the same way. */
  lemma {:induction false} SumSpecStops(first: Value, values: seq<Value>, k: nat)
    requires k <= |values|
    requires SumSpec(first, values[..k]).Failure?
    ensures SumSpec(first, values) == SumSpec(first, values[..k])
    decreases |values|
  {
    if k < |values| {
      assert values[..|values| - 1][..k] == values[..k];
      SumSpecStops(first, values[..|values| - 1], k);
    } else {
      assert values[..k] == values;
    }
  }

  /** `e` is a scale at which `first` and every value can be read as an integer. */
  predicate Below(e: int, first: Value, values: seq<Value>)
  {
    e <= first.amount.exp && forall k | 0 <= k < |values| :: e <= values[k].amount.exp
  }

  /** The amounts of `values` added up at scale `e`. */
  function ScaledTotal(values: seq<Value>, e: int): int
    requires forall k | 0 <= k < |values| :: e <= values[k].amount.exp
    decreases |values|
  {
    if values == [] then 0
    else ScaledTotal(values[..|values| - 1], e) + Decimals.Rescaled(values[|values| - 1].amount, e)
  }

  /** The sum succeeds exactly when every value has `first`'s currency (nil matching only nil). */
  lemma {:induction false} SumSucceeds(first: Value, values: seq<Value>)
    ensures SumSpec(first, values).Success? <==> forall k | 0 <= k < |values| :: values[k].currency == first.currency
    decreases |values|
  {
    if values != [] {
      var init := values[..|values| - 1];
      assert forall k | 0 <= k < |init| :: init[k] == values[k];
      SumSucceeds(first, init);
    }
  }

  /** A successful sum is exact: at any common scale its amount is `first`'s plus all the others'. */
  lemma {:induction false} SumExact(first: Value, values: seq<Value>, e: int)
    requires Below(e, first, values)
    requires SumSpec(first, values).Success?
    ensures e <= SumSpec(first, values).value.amount.exp
    ensures Decimals.Rescaled(SumSpec(first, values).value.amount, e) ==
      Decimals.Rescaled(first.amount, e) + ScaledTotal(values, e)
    decreases |values|
  {
    if values != [] {
      var init := values[..|values| - 1];
      assert forall k | 0 <= k < |init| :: init[k] == values[k];
      SumExact(first, init, e);
    }
  }

  /**
    A failing sum reports the first value whose currency differs, together
    with `first`'s currency.
  */
  lemma {:induction false} SumFirstMismatch(first: Value, values: seq<Value>, k: nat)
    requires k < |values| && values[k].currency != first.currency
    requires forall j | 0 <= j < k :: values[j].currency == first.currency
    ensures SumSpec(first, values) == Failure(DifferentCurrencies(first.currency, values[k].currency))
    decreases |values|
  {
    var init := values[..|values| - 1];
    if k < |values| - 1 {
      assert forall j | 0 <= j <= k :: init[j] == values[j];
      SumFirstMismatch(first, init, k);
    } else {
      assert forall j | 0 <= j < |init| :: init[j] == values[j];
      SumSucceeds(first, init);
    }
  }

  /**
    `Sum`: the total of `first` and `values` in `first`'s currency, or the
    error for the first value of another currency.
  */
  method Sum(first: Value, values: seq<Value>) returns (r: Result<Value, Error>)
    ensures r == SumSpec(first, values)
    ensures values == [] ==> r == Success(first)
  {
    var total := first.amount;
    var i := 0;
    while i < |values|
      invariant 0 <= i <= |values|
      invariant SumSpec(first, values[..i]) == Success(Value(total, first.currency))
    {
      var value := values[i];
      assert values[..i + 1][..i] == values[..i];
      if first.currency != value.currency {
        r := Failure(DifferentCurrencies(first.currency, value.currency));
        SumSpecStops(first, values, i + 1);
        return;
      }
      total := Decimals.Add(total, value.amount);
      i := i + 1;
    }
    assert values[..i] == values;
    r := Success(Value(total, first.currency));
  }

  /** `MustSum`: `Sum` for values known to share `first`'s currency. */
  method MustSum(first: Value, values: seq<Value>) returns (v: Value)
    requires forall k | 0 <= k < |values| :: values[k].currency == first.currency
    ensures Success(v) == SumSpec(first, values)
  {
    SumSucceeds(first, values);
    var r := Sum(first, values);
    v := r.value;
  }
}
