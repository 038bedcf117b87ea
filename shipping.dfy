/**
  The standalone shipping quote: the same cart figures as order creation, but the subtotal
  is not rounded, a missing size is not replaced by 750 ml and there is no free shipping.
*/
module Shipping {
  import opened Common
  import opened Pricing
  import Paypal

  /** The reply `{ resumen, calculo: { subtotal, costo_envio, total } }`. */
  datatype Quote = Quote(resumen: Features, subtotal: int, costoEnvio: int, total: int)

  /** The estimator's inputs on the quote path: every size must be given. */
  function QuoteFeatures(items: seq<CartItem>): Features {
    Features(
      |items|,
      NumItemsTotal(items),
      DeclaredVolume(items),
      AverageUnitPrice(Subtotal(items), NumItemsTotal(items)))
  }

  /**
    `calcularCostoEnvio`: `items` is `None` when missing or not an array; `estimator` stands
    for the shipping microservice (`None` is its null result).
  */
  function CalcularCostoEnvio(items: Option<seq<CartItem>>, estimator: Features -> Option<int>)
    : (r: Result<Quote, ApiError>)
    ensures items.None? || items.value == [] ==> r == Failure(InvalidInput)
    ensures items.Some? && items.value != [] ==>
      (r == Failure(EstimatorUnavailable) <==> estimator(QuoteFeatures(items.value)).None?)
    ensures r.Success? <==> items.Some? && items.value != [] && estimator(QuoteFeatures(items.value)).Some?
    ensures r.Success? ==>
      && r.value.resumen == QuoteFeatures(items.value)
      && r.value.subtotal == Subtotal(items.value)
      && r.value.costoEnvio == estimator(QuoteFeatures(items.value)).value
      && r.value.total == r.value.subtotal + r.value.costoEnvio
  {
    if items.None? || items.value == [] then Failure(InvalidInput)
    else
      var subtotal := Subtotal(items.value);
      var features := QuoteFeatures(items.value);
      var cost := estimator(features);
      if cost.None? then Failure(EstimatorUnavailable)
      else Success(Quote(features, subtotal, cost.value, subtotal + cost.value))
  }

  /**
    Both paths send the estimator the same figures when every size is given; when one is
    missing the order path counts 750 ml for it and the quote path sends NaN.
  */
  lemma QuoteAndOrderFeatures(items: seq<CartItem>)
    ensures (forall k :: 0 <= k < |items| ==> items[k].sizeMl.Some?) ==>
      QuoteFeatures(items) == Paypal.OrderFeatures(items)
    ensures (exists k :: 0 <= k < |items| && items[k].sizeMl.None?) ==>
      QuoteFeatures(items).tamanoTotalMl.None? && Paypal.OrderFeatures(items).tamanoTotalMl.Some?
    ensures QuoteFeatures(items).(tamanoTotalMl := None) == Paypal.OrderFeatures(items).(tamanoTotalMl := None)
  {
  }

  /**
    The quote has no free-shipping rule: above the threshold it still reports the
    estimator's cost and fails when the estimator does, where order creation charges 0.
  */
  lemma QuoteHasNoFreeShipping(items: seq<CartItem>, estimator: Features -> Option<int>)
    requires items != []
    requires Subtotal(items) >= Paypal.FREE_SHIPPING_THRESHOLD
    ensures Paypal.OrderShipping(items, estimator) == Some(0)
    ensures estimator(QuoteFeatures(items)).None? ==>
      CalcularCostoEnvio(Some(items), estimator) == Failure(EstimatorUnavailable)
    ensures estimator(QuoteFeatures(items)).Some? ==>
      CalcularCostoEnvio(Some(items), estimator).value.costoEnvio == estimator(QuoteFeatures(items)).value
  {
  }

  /** Like the order path, the quote does not depend on the order in which items are listed. */
  lemma {:induction false} QuoteIgnoresItemOrder(a: seq<CartItem>, b: seq<CartItem>, estimator: Features -> Option<int>)
    requires multiset(a) == multiset(b)
    ensures CalcularCostoEnvio(Some(a), estimator) == CalcularCostoEnvio(Some(b), estimator)
  {
    assert |a| == |multiset(a)| == |multiset(b)| == |b|;
    SumOfPermutation(a, b, LineAmount);
    SumOfPermutation(a, b, Quantity);
    SumOfPermutation(a, b, VolumeOr750);
    assert (forall k :: 0 <= k < |a| ==> a[k].sizeMl.Some?) <==> (forall k :: 0 <= k < |b| ==> b[k].sizeMl.Some?) by {
      forall k | 0 <= k < |a| && a[k].sizeMl.None? ensures exists j :: 0 <= j < |b| && b[j].sizeMl.None? {
        assert a[k] in multiset(b);
      }
      forall k | 0 <= k < |b| && b[k].sizeMl.None? ensures exists j :: 0 <= j < |a| && a[j].sizeMl.None? {
        assert b[k] in multiset(a);
      }
    }
  }
}
