/**
  The cart arithmetic shared by order creation and the standalone shipping quote:
  sums over the client's items and the feature vector sent to the shipping estimator.
  Amounts are integer cents, so rounding a sum to two decimals changes nothing.
*/
module Pricing {
  import opened Common

  /** An item as the client sends it: `{ id, name, price, quantity, size_ml? }`. */
  datatype CartItem = CartItem(id: int, name: string, price: int, quantity: int, sizeMl: Option<int>)

  /**
    The estimator's inputs `num_productos`, `num_items_total`, `tamano_total_ml` and
    `precio_unitario_prom`; `None` stands for a value that is not a finite number (NaN).
  */
  datatype Features = Features(
    numProductos: nat,
    numItemsTotal: int,
    tamanoTotalMl: Option<int>,
    precioUnitarioProm: Option<int>)

  /** `items.reduce((sum, i) => sum + f(i), 0)`. */
  function SumOf(items: seq<CartItem>, f: CartItem -> int): int {
    if items == [] then 0 else SumOf(items[..|items| - 1], f) + f(items[|items| - 1])
  }

  function LineAmount(i: CartItem): int {
    i.price * i.quantity
  }

  function Quantity(i: CartItem): int {
    i.quantity
  }

  /** The volume of a line when a missing size counts as a 750 ml bottle (`size_ml ?? 750`). */
  function VolumeOr750(i: CartItem): int {
    i.sizeMl.GetOr(750) * i.quantity
  }

  function Subtotal(items: seq<CartItem>): int {
    SumOf(items, LineAmount)
  }

  function NumItemsTotal(items: seq<CartItem>): int {
    SumOf(items, Quantity)
  }

  function VolumeWithDefault(items: seq<CartItem>): int {
    SumOf(items, VolumeOr750)
  }

  /**
    `items.reduce((sum, i) => sum + i.size_ml * i.quantity, 0)` with no default size:
    one missing size turns the whole sum into NaN.
  */
  function DeclaredVolume(items: seq<CartItem>): (v: Option<int>)
    ensures v.Some? <==> forall k :: 0 <= k < |items| ==> items[k].sizeMl.Some?
    ensures v.Some? ==> v.value == VolumeWithDefault(items)
  {
    if items == [] then Some(0)
    else
      var last := items[|items| - 1];
      var init := DeclaredVolume(items[..|items| - 1]);
      if init.Some? && last.sizeMl.Some? then Some(init.value + last.sizeMl.value * last.quantity)
      else None
  }

  lemma {:induction false} SumOfAppend(a: seq<CartItem>, b: seq<CartItem>, f: CartItem -> int)
    ensures SumOf(a + b, f) == SumOf(a, f) + SumOf(b, f)
    decreases |b|
  {
    if b == [] {
      assert a + b == a;
    } else {
      assert (a + b)[..|a + b| - 1] == a + b[..|b| - 1];
      SumOfAppend(a, b[..|b| - 1], f);
    }
  }

  /** A sum over the items does not depend on the order in which the client lists them. */
  lemma {:induction false} SumOfPermutation(a: seq<CartItem>, b: seq<CartItem>, f: CartItem -> int)
    requires multiset(a) == multiset(b)
    ensures SumOf(a, f) == SumOf(b, f)
    decreases |a|
  {
    if a != [] {
      var x := a[|a| - 1];
      assert x in multiset(b);
      var k :| 0 <= k < |b| && b[k] == x;
      var rest := b[..k] + b[k + 1..];
      assert b == b[..k] + [x] + b[k + 1..];
      assert a == a[..|a| - 1] + [x];
      assert multiset(b) == multiset(b[..k]) + multiset{x} + multiset(b[k + 1..]);
      assert multiset(rest) == multiset(b[..k]) + multiset(b[k + 1..]);
      assert multiset(a) == multiset(a[..|a| - 1]) + multiset{x};
      assert multiset(a[..|a| - 1]) == multiset(a) - multiset{x};
      assert multiset(rest) == multiset(b) - multiset{x};
      SumOfPermutation(a[..|a| - 1], rest, f);
      SumOfAppend(b[..k] + [x], b[k + 1..], f);
      SumOfAppend(b[..k], [x], f);
      SumOfAppend(b[..k], b[k + 1..], f);
      assert SumOf([x], f) == f(x) by {
        assert [x][..0] == [];
      }
    }
  }

  /**
    `parseFloat((a / b).toFixed(2))` in cents: `a / b` rounded to the nearest whole number,
    halves away from zero (`toFixed` rounds the magnitude and keeps the sign).
  */
  function RoundDiv(a: int, b: int): (r: int)
    requires b != 0
    ensures 2 * Abs(a) - Abs(b) < 2 * Abs(r) * Abs(b) <= 2 * Abs(a) + Abs(b)
    ensures (a < 0) == (b < 0) ==> r >= 0
    ensures (a < 0) != (b < 0) ==> r <= 0
  {
    var q := (2 * Abs(a) + Abs(b)) / (2 * Abs(b));
    NearestQuotient(Abs(a), Abs(b));
    if (a < 0) != (b < 0) then -q else q
  }

  lemma NearestQuotient(m: nat, n: nat)
    requires n > 0
    ensures var q := (2 * m + n) / (2 * n); q >= 0 && 2 * m - n < 2 * q * n <= 2 * m + n
  {
    var d := 2 * n;
    var q := (2 * m + n) / d;
    var rem := (2 * m + n) % d;
    assert q * d + rem == 2 * m + n && 0 <= rem < d;
    assert 2 * q * n == q * d;
  }

  /** The average unit price; dividing by zero units gives NaN or Infinity, here `None`. */
  function AverageUnitPrice(subtotal: int, units: int): (r: Option<int>)
    ensures r.None? <==> units == 0
  {
    if units == 0 then None else Some(RoundDiv(subtotal, units))
  }
}
