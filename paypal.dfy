/**
  Order creation and payment capture through the payment gateway.

  Creating an order recomputes the subtotal and the shipping cost on the server, checks the
  client's total against them and builds the gateway's order request. Capturing an order
  reads the captured amount from the gateway's answer and then, as one transaction, records
  the order, its sales rows and the stock decrements and empties the user's cart.
*/
module Paypal {
  import opened Common
  import opened Decimal
  import opened Pricing
  import opened Database

  /** Orders whose subtotal reaches 500.00 ship for free. */
  const FREE_SHIPPING_THRESHOLD: int := 50000

  /** The largest accepted gap between the client's total and the recomputed one: 0.01. */
  const TOLERANCE: int := 1

  // ---------------------------------------------------------------------------------------
  // Creating the order

  /**
    The request body `{ items, total }`: `items` is `None` when it is missing or not an
    array, `total` is `None` when it is not a number.
  */
  datatype OrderRequest = OrderRequest(items: Option<seq<CartItem>>, total: Option<int>)

  /** One entry of the gateway request's `items`: name, `unit_amount.value`, quantity, sku. */
  datatype GatewayItem = GatewayItem(name: string, unitAmount: string, quantity: string, sku: string)

  /**
    The purchase unit sent to the gateway: `amount.value` is `value`, its breakdown holds
    `item_total` and `shipping`; every amount is in `currencyCode`.
  */
  datatype PaymentRequest = PaymentRequest(
    intent: string,
    currencyCode: string,
    value: string,
    itemTotal: string,
    shipping: string,
    items: seq<GatewayItem>)

  /** A successful creation: the request sent and the order id the gateway answered with. */
  datatype CreatedOrder = CreatedOrder(request: PaymentRequest, orderId: string)

  /** The estimator's inputs on the order path, where a missing size counts as 750 ml. */
  function OrderFeatures(items: seq<CartItem>): Features {
    Features(
      |items|,
      NumItemsTotal(items),
      Some(VolumeWithDefault(items)),
      AverageUnitPrice(Subtotal(items), NumItemsTotal(items)))
  }

  /** The shipping cost: 0 from the threshold on, otherwise the estimator's answer (`None` is null). */
  function OrderShipping(items: seq<CartItem>, estimator: Features -> Option<int>): Option<int> {
    if Subtotal(items) < FREE_SHIPPING_THRESHOLD then estimator(OrderFeatures(items)) else Some(0)
  }

  predicate WithinTolerance(expected: int, total: int) {
    Abs(expected - total) <= TOLERANCE
  }

  function GatewayItemOf(i: CartItem): GatewayItem {
    GatewayItem(i.name, FormatCents(i.price), IntToString(i.quantity), IntToString(i.id))
  }

  function PaymentRequestFor(items: seq<CartItem>, subtotal: int, shipping: int, total: int): PaymentRequest {
    PaymentRequest(
      "CAPTURE",
      "USD",
      FormatCents(total),
      FormatCents(subtotal),
      FormatCents(shipping),
      seq(|items|, k requires 0 <= k < |items| => GatewayItemOf(items[k])))
  }

  lemma GatewayItemsReadBack(items: seq<CartItem>, g: seq<GatewayItem>)
    requires g == seq(|items|, k requires 0 <= k < |items| => GatewayItemOf(items[k]))
    ensures forall k :: 0 <= k < |items| ==>
      ParseCents(g[k].unitAmount) == Some(items[k].price) && g[k].sku == IntToString(items[k].id)
  {
    forall k | 0 <= k < |items|
      ensures ParseCents(g[k].unitAmount) == Some(items[k].price)
    {
      ParseFormatRoundTrip(items[k].price);
    }
  }

  /**
    `crearOrdenPaypal`. `estimator` stands for the shipping microservice and `gateway` for
    the order id the gateway returns (`None` when the call throws).
  */
  function CrearOrdenPaypal(req: OrderRequest, estimator: Features -> Option<int>, gateway: Option<string>)
    : (r: Result<CreatedOrder, ApiError>)
    ensures req.items.None? || req.total.None? ==> r == Failure(InvalidInput)
    ensures req.items.Some? && req.total.Some? ==>
      (r == Failure(EstimatorUnavailable) <==> OrderShipping(req.items.value, estimator).None?)
    ensures req.items.Some? && req.total.Some? && OrderShipping(req.items.value, estimator).Some? ==>
      (r == Failure(TotalMismatch) <==>
         !WithinTolerance(Subtotal(req.items.value) + OrderShipping(req.items.value, estimator).value, req.total.value))
    ensures r.Success? <==>
      && req.items.Some? && req.total.Some?
      && OrderShipping(req.items.value, estimator).Some?
      && WithinTolerance(Subtotal(req.items.value) + OrderShipping(req.items.value, estimator).value, req.total.value)
      && gateway.Some?
    ensures
      (&& req.items.Some? && req.total.Some? && OrderShipping(req.items.value, estimator).Some?
       && WithinTolerance(Subtotal(req.items.value) + OrderShipping(req.items.value, estimator).value, req.total.value)
       && gateway.None?)
      ==> r == Failure(Internal)
    ensures r.Success? ==>
      var items := req.items.value;
      var request := r.value.request;
      && r.value.orderId == gateway.value
      && request.intent == "CAPTURE" && request.currencyCode == "USD"
      && ParseCents(request.value) == Some(req.total.value)
      && ParseCents(request.itemTotal) == Some(Subtotal(items))
      && ParseCents(request.shipping) == OrderShipping(items, estimator)
      && |request.items| == |items|
      && (forall k :: 0 <= k < |items| ==>
            && request.items[k].name == items[k].name
            && ParseCents(request.items[k].unitAmount) == Some(items[k].price)
            && request.items[k].quantity == IntToString(items[k].quantity)
            && request.items[k].sku == IntToString(items[k].id))
  {
    if req.items.None? || req.total.None? then Failure(InvalidInput)
    else
      var items, total := req.items.value, req.total.value;
      var subtotal := Subtotal(items);
      var shipping := OrderShipping(items, estimator);
      if shipping.None? then Failure(EstimatorUnavailable)
      else if !WithinTolerance(subtotal + shipping.value, total) then Failure(TotalMismatch)
      else if gateway.None? then Failure(Internal)
      else
        var request := PaymentRequestFor(items, subtotal, shipping.value, total);
        ParseFormatRoundTrip(total);
        ParseFormatRoundTrip(subtotal);
        ParseFormatRoundTrip(shipping.value);
        GatewayItemsReadBack(items, request.items);
        Success(CreatedOrder(request, gateway.value))
  }

  /** From the threshold on the estimator is not consulted: its answer cannot change the outcome. */
  lemma FreeShippingIgnoresEstimator(
    items: seq<CartItem>, total: Option<int>, e1: Features -> Option<int>, e2: Features -> Option<int>, gateway: Option<string>)
    requires Subtotal(items) >= FREE_SHIPPING_THRESHOLD
    ensures CrearOrdenPaypal(OrderRequest(Some(items), total), e1, gateway)
         == CrearOrdenPaypal(OrderRequest(Some(items), total), e2, gateway)
    ensures OrderShipping(items, e1) == Some(0)
  {
  }

  /** A malformed request is answered before the estimator or the gateway is used. */
  lemma InvalidRequestUsesNoService(
    req: OrderRequest, e1: Features -> Option<int>, e2: Features -> Option<int>, g1: Option<string>, g2: Option<string>)
    requires req.items.None? || req.total.None?
    ensures CrearOrdenPaypal(req, e1, g1) == CrearOrdenPaypal(req, e2, g2) == Failure(InvalidInput)
  {
  }

  /**
    Listing the same items in another order changes neither the figures sent to the
    estimator nor whether the order is accepted, nor any amount of the request.
  */
  lemma {:induction false} OrderOutcomeIgnoresItemOrder(
    a: seq<CartItem>, b: seq<CartItem>, total: int, estimator: Features -> Option<int>, gateway: Option<string>)
    requires multiset(a) == multiset(b)
    ensures OrderFeatures(a) == OrderFeatures(b)
    ensures
      var ra := CrearOrdenPaypal(OrderRequest(Some(a), Some(total)), estimator, gateway);
      var rb := CrearOrdenPaypal(OrderRequest(Some(b), Some(total)), estimator, gateway);
      && ra.Success? == rb.Success?
      && (ra.Failure? ==> ra == rb)
      && (ra.Success? ==>
            && ra.value.request.value == rb.value.request.value
            && ra.value.request.itemTotal == rb.value.request.itemTotal
            && ra.value.request.shipping == rb.value.request.shipping)
  {
    SumOfPermutation(a, b, LineAmount);
    SumOfPermutation(a, b, Quantity);
    SumOfPermutation(a, b, VolumeOr750);
    assert |a| == |multiset(a)| == |multiset(b)| == |b|;
    assert OrderFeatures(a) == OrderFeatures(b);
    assert OrderShipping(a, estimator) == OrderShipping(b, estimator);
  }

  /**
    The gateway is asked to charge the client's `total`, not the recomputed one: the two
    may differ by the tolerance.
  */
  lemma GrandValueIsClientTotal(items: seq<CartItem>, gateway: string)
    requires Subtotal(items) >= FREE_SHIPPING_THRESHOLD
    ensures
      var r := CrearOrdenPaypal(OrderRequest(Some(items), Some(Subtotal(items) + 1)), _ => None, Some(gateway));
      r.Success? && r.value.request.value != FormatCents(Subtotal(items))
  {
    var r := CrearOrdenPaypal(OrderRequest(Some(items), Some(Subtotal(items) + 1)), _ => None, Some(gateway));
    ParseFormatRoundTrip(Subtotal(items));
    assert ParseCents(r.value.request.value) == Some(Subtotal(items) + 1);
  }

  /** An empty item list is not turned away: with a matching estimate the order is created. */
  lemma EmptyItemListAccepted(cost: int, total: int, gateway: string)
    requires WithinTolerance(cost, total)
    ensures OrderFeatures([]).precioUnitarioProm.None?
    ensures CrearOrdenPaypal(OrderRequest(Some([]), Some(total)), _ => Some(cost), Some(gateway)).Success?
  {
  }

  /**
    One bottle of Malbec at 250.00, two units, 750 ml: the subtotal reaches 500.00, so
    shipping is free; a total of 500.00 is accepted and 510.00 is turned away.
  */
  lemma MalbecExample(estimator: Features -> Option<int>, gateway: string)
    ensures
      var items := [CartItem(1, "Malbec", 25000, 2, Some(750))];
      && Subtotal(items) == 50000
      && OrderFeatures(items) == Features(1, 2, Some(1500), Some(25000))
      && OrderShipping(items, estimator) == Some(0)
      && CrearOrdenPaypal(OrderRequest(Some(items), Some(50000)), estimator, Some(gateway)).Success?
      && CrearOrdenPaypal(OrderRequest(Some(items), Some(51000)), estimator, Some(gateway)) == Failure(TotalMismatch)
  {
    var items := [CartItem(1, "Malbec", 25000, 2, Some(750))];
    assert items[..0] == [];
    assert Subtotal(items) == 50000;
    assert NumItemsTotal(items) == 2;
    assert VolumeWithDefault(items) == 1500;
    assert RoundDiv(50000, 2) == 25000;
  }

  // ---------------------------------------------------------------------------------------
  // Capturing the payment

  /**
    A purchase unit of the gateway's capture answer: `captureAmounts[i]` is
    `payments.captures[i].amount.value` (`None` when absent) and `amount` is `amount.value`.
  */
  datatype PurchaseUnit = PurchaseUnit(captureAmounts: seq<Option<string>>, amount: Option<string>)

  datatype CaptureResponse = CaptureResponse(purchaseUnits: seq<PurchaseUnit>)

  /** The reply of a successful capture: the new order's id, the gateway order id, the amount. */
  datatype CaptureReceipt = CaptureReceipt(pedidoId: nat, orderId: string, total: int)

  /** A JavaScript value that `||` keeps: present and not the empty string. */
  predicate Truthy(v: Option<string>) {
    v.Some? && v.value != ""
  }

  function FirstCaptureAmount(pu: PurchaseUnit): Option<string> {
    if |pu.captureAmounts| > 0 then pu.captureAmounts[0] else None
  }

  /** `pu.payments?.captures?.[0]?.amount?.value || pu.amount?.value || "0"`. */
  function CapturedText(pu: PurchaseUnit): string {
    if Truthy(FirstCaptureAmount(pu)) then FirstCaptureAmount(pu).value
    else if Truthy(pu.amount) then pu.amount.value
    else "0"
  }

  /**
    The captured amount in cents. Without a purchase unit the handler fails on an undefined
    value; a text `parseFloat` reads as NaN is an invalid amount.
  */
  function CapturedAmount(resp: CaptureResponse): (r: Result<int, ApiError>)
    ensures r == Failure(Internal) <==> resp.purchaseUnits == []
    ensures r == Failure(InvalidCaptureAmount) <==>
      resp.purchaseUnits != [] && StartsWithNoNumber(CapturedText(resp.purchaseUnits[0]))
    ensures r.Success? ==> Some(r.value) == ParseCents(CapturedText(resp.purchaseUnits[0]))
  {
    if resp.purchaseUnits == [] then Failure(Internal)
    else
      var parsed := ParseCents(CapturedText(resp.purchaseUnits[0]));
      if parsed.None? then Failure(InvalidCaptureAmount) else Success(parsed.value)
  }

  /** The first capture's amount wins when present, whatever the purchase unit's amount says. */
  lemma CapturedAmountPrefersCapture(c: int, rest: seq<Option<string>>, amount: Option<string>, others: seq<PurchaseUnit>)
    ensures CapturedAmount(CaptureResponse([PurchaseUnit([Some(FormatCents(c))] + rest, amount)] + others)) == Success(c)
  {
    ParseFormatRoundTrip(c);
  }

  /** Without a usable capture amount the purchase unit's amount is taken. */
  lemma CapturedAmountFallsBack(c: int, captures: seq<Option<string>>, others: seq<PurchaseUnit>)
    requires captures == [] || !Truthy(captures[0])
    ensures CapturedAmount(CaptureResponse([PurchaseUnit(captures, Some(FormatCents(c)))] + others)) == Success(c)
  {
    ParseFormatRoundTrip(c);
  }

  /** Without either amount the capture counts as 0.00. */
  lemma CapturedAmountDefaultsToZero(captures: seq<Option<string>>, amount: Option<string>, others: seq<PurchaseUnit>)
    requires captures == [] || !Truthy(captures[0])
    requires !Truthy(amount)
    ensures CapturedAmount(CaptureResponse([PurchaseUnit(captures, amount)] + others)) == Success(0)
  {
    assert LeadingDigits("0") == "0";
    assert DigitsValue("0") == 0 by { assert "0"[..0] == ""; }
  }

  /** The user's cart rows in table order: `carrito.findMany({ where: { usuarioId } })`. */
  function CartOf(carrito: seq<CartRow>, u: nat): (rows: seq<CartRow>)
    ensures forall row :: row in rows <==> row in carrito && row.usuarioId == u
  {
    if carrito == [] then []
    else
      var last := carrito[|carrito| - 1];
      CartOf(carrito[..|carrito| - 1], u) + (if last.usuarioId == u then [last] else [])
  }

  /** The cart rows left by `carrito.deleteMany({ where: { usuarioId } })`. */
  function WithoutUser(carrito: seq<CartRow>, u: nat): (rows: seq<CartRow>)
    ensures forall row :: row in rows <==> row in carrito && row.usuarioId != u
  {
    if carrito == [] then []
    else
      var last := carrito[|carrito| - 1];
      WithoutUser(carrito[..|carrito| - 1], u) + (if last.usuarioId != u then [last] else [])
  }

  lemma {:induction false} CartOfAppend(a: seq<CartRow>, b: seq<CartRow>, v: nat)
    ensures CartOf(a + b, v) == CartOf(a, v) + CartOf(b, v)
    decreases |b|
  {
    if b == [] {
      assert a + b == a;
    } else {
      assert (a + b)[..|a + b| - 1] == a + b[..|b| - 1];
      CartOfAppend(a, b[..|b| - 1], v);
    }
  }

  /** Emptying one user's cart leaves that user nothing and every other cart exactly as it was. */
  lemma {:induction false} WithoutUserFrame(carrito: seq<CartRow>, u: nat, v: nat)
    ensures CartOf(WithoutUser(carrito, u), v) == if v == u then [] else CartOf(carrito, v)
    decreases |carrito|
  {
    if carrito != [] {
      var init, last := carrito[..|carrito| - 1], carrito[|carrito| - 1];
      WithoutUserFrame(init, u, v);
      CartOfAppend(WithoutUser(init, u), if last.usuarioId != u then [last] else [], v);
      assert [last][..0] == [];
    }
  }

  predicate ProductsKnown(rows: seq<CartRow>, productos: map<nat, Producto>) {
    forall k :: 0 <= k < |rows| ==> rows[k].productoId in productos
  }

  /** The detail lines of the new order: one per cart row, at the catalogue's current price. */
  function OrderLines(rows: seq<CartRow>, productos: map<nat, Producto>): seq<LineaPedido>
    requires ProductsKnown(rows, productos)
  {
    seq(|rows|, k requires 0 <= k < |rows| =>
      LineaPedido(rows[k].productoId, rows[k].cantidad, productos[rows[k].productoId].precio))
  }

  function SaleOf(row: CartRow, u: nat, productos: map<nat, Producto>): Sale
    requires row.productoId in productos
  {
    var precio := productos[row.productoId].precio;
    Sale(row.productoId, u, row.cantidad, precio, precio * row.cantidad)
  }

  /** The sales rows the capture inserts, one per cart row, in cart order. */
  function SalesRows(rows: seq<CartRow>, u: nat, productos: map<nat, Producto>): (s: seq<Sale>)
    requires ProductsKnown(rows, productos)
  {
    if rows == [] then []
    else SalesRows(rows[..|rows| - 1], u, productos) + [SaleOf(rows[|rows| - 1], u, productos)]
  }

  /** Each sales row copies its cart row and charges the catalogue price times the quantity. */
  lemma {:induction false} SalesRowsMatchCart(rows: seq<CartRow>, u: nat, productos: map<nat, Producto>)
    requires ProductsKnown(rows, productos)
    ensures |SalesRows(rows, u, productos)| == |rows|
    ensures forall k :: 0 <= k < |rows| ==>
      var s := SalesRows(rows, u, productos)[k];
      && s.productoId == rows[k].productoId && s.usuarioId == u && s.cantidad == rows[k].cantidad
      && s.precioUnitario == productos[rows[k].productoId].precio
      && s.total == s.precioUnitario * s.cantidad
    decreases |rows|
  {
    if rows != [] {
      SalesRowsMatchCart(rows[..|rows| - 1], u, productos);
    }
  }

  /** The units of product `id` over the cart rows. */
  function QuantityFor(rows: seq<CartRow>, id: nat): int {
    if rows == [] then 0
    else
      var last := rows[|rows| - 1];
      QuantityFor(rows[..|rows| - 1], id) + (if last.productoId == id then last.cantidad else 0)
  }

  /** The catalogue after `stock: { decrement: cantidad }` for every cart row, with no floor. */
  function Decremented(productos: map<nat, Producto>, rows: seq<CartRow>): (p: map<nat, Producto>)
    requires ProductsKnown(rows, productos)
    ensures p.Keys == productos.Keys
  {
    if rows == [] then productos
    else
      var before := Decremented(productos, rows[..|rows| - 1]);
      var last := rows[|rows| - 1];
      before[last.productoId := before[last.productoId].(stock := before[last.productoId].stock - last.cantidad)]
  }

  /**
    Every product loses exactly the units its cart rows sum to and keeps every other field;
    a product in no row keeps its stock.
  */
  lemma {:induction false} DecrementedStock(productos: map<nat, Producto>, rows: seq<CartRow>, id: nat)
    requires ProductsKnown(rows, productos)
    requires id in productos
    ensures Decremented(productos, rows)[id] == productos[id].(stock := productos[id].stock - QuantityFor(rows, id))
    decreases |rows|
  {
    if rows != [] {
      DecrementedStock(productos, rows[..|rows| - 1], id);
    }
  }

  /**
    `capturarOrdenPaypal` for the signed-in user `usuarioId`. `capture` is the gateway's
    capture answer (`None` when the call throws) and `now` the order date.
  */
  method CapturarOrdenPaypal(db: Store, usuarioId: nat, orderId: string, capture: Option<CaptureResponse>, now: int)
    returns (r: Result<CaptureReceipt, ApiError>)
    requires db.Valid()
    modifies db
    ensures db.Valid()
    ensures r.Failure? ==> unchanged(db)
    ensures orderId == "" ==> r == Failure(InvalidInput)
    ensures orderId != "" && capture.None? ==> r == Failure(Internal)
    ensures orderId != "" && capture.Some? && CapturedAmount(capture.value).Failure? ==>
      r == Failure(CapturedAmount(capture.value).error)
    ensures orderId != "" && capture.Some? && CapturedAmount(capture.value).Success? ==>
      var rows := CartOf(old(db.carrito), usuarioId);
      && (rows == [] ==> r == Failure(EmptyCart))
      && (rows != [] && !ProductsKnown(rows, old(db.productos)) ==> r == Failure(Internal))
      && (rows != [] && ProductsKnown(rows, old(db.productos)) ==> r.Success?)
    ensures r.Success? ==>
      && orderId != "" && capture.Some? && CapturedAmount(capture.value).Success?
      && var amount := CapturedAmount(capture.value).value;
         var rows := CartOf(old(db.carrito), usuarioId);
         var id := |old(db.pedidos)| + 1;
      && rows != [] && ProductsKnown(rows, old(db.productos))
      && r.value == CaptureReceipt(id, orderId, amount)
      && db.pedidos == old(db.pedidos) + [Pedido(id, usuarioId, now, EnProceso, amount, OrderLines(rows, old(db.productos)))]
      && db.sales == old(db.sales) + SalesRows(rows, usuarioId, old(db.productos))
      && db.productos == Decremented(old(db.productos), rows)
      && db.carrito == WithoutUser(old(db.carrito), usuarioId)
      && db.nextProductoId == old(db.nextProductoId)
      && db.imagenes == old(db.imagenes) && db.promociones == old(db.promociones)
      && db.reviews == old(db.reviews) && db.reviewImages == old(db.reviewImages)
  {
    if orderId == "" {
      return Failure(InvalidInput);
    }
    if capture.None? {
      return Failure(Internal);
    }
    var captured := CapturedAmount(capture.value);
    if captured.Failure? {
      return Failure(captured.error);
    }
    var amount := captured.value;
    var rows := CartOf(db.carrito, usuarioId);
    if rows == [] {
      return Failure(EmptyCart);
    }
    // Reading `ci.producto.precio` fails on a row whose product is gone, before any write.
    if exists k | 0 <= k < |rows| :: rows[k].productoId !in db.productos {
      return Failure(Internal);
    }

    var id := Transaction(db, usuarioId, rows, amount, now);
    return Success(CaptureReceipt(id, orderId, amount));
  }

  /**
    The body of `prisma.$transaction`: the order with its lines, then the sales rows, the
    stock decrements and the emptied cart, all applied together.
  */
  method Transaction(db: Store, usuarioId: nat, rows: seq<CartRow>, amount: int, now: int) returns (id: nat)
    requires db.Valid()
    requires rows == CartOf(db.carrito, usuarioId)
    requires ProductsKnown(rows, db.productos)
    modifies db
    ensures db.Valid()
    ensures id == |old(db.pedidos)| + 1
    ensures db.pedidos == old(db.pedidos) + [Pedido(id, usuarioId, now, EnProceso, amount, OrderLines(rows, old(db.productos)))]
    ensures db.sales == old(db.sales) + SalesRows(rows, usuarioId, old(db.productos))
    ensures db.productos == Decremented(old(db.productos), rows)
    ensures db.carrito == WithoutUser(old(db.carrito), usuarioId)
    ensures db.nextProductoId == old(db.nextProductoId)
    ensures db.imagenes == old(db.imagenes) && db.promociones == old(db.promociones)
    ensures db.reviews == old(db.reviews) && db.reviewImages == old(db.reviewImages)
  {
    id := |db.pedidos| + 1;
    db.pedidos := db.pedidos + [Pedido(id, usuarioId, now, EnProceso, amount, OrderLines(rows, db.productos))];
    InsertSales(db, usuarioId, rows);
    DecrementStock(db, rows);
    db.carrito := WithoutUser(db.carrito, usuarioId);
  }

  /** `for (const ci of carritoItems) await tx.sales.create(...)`. */
  method InsertSales(db: Store, usuarioId: nat, rows: seq<CartRow>)
    requires ProductsKnown(rows, db.productos)
    modifies db`sales
    ensures db.sales == old(db.sales) + SalesRows(rows, usuarioId, db.productos)
  {
    for k := 0 to |rows|
      invariant ProductsKnown(rows[..k], db.productos)
      invariant db.sales == old(db.sales) + SalesRows(rows[..k], usuarioId, db.productos)
    {
      assert rows[..k + 1][..k] == rows[..k];
      db.sales := db.sales + [SaleOf(rows[k], usuarioId, db.productos)];
    }
    assert rows[..|rows|] == rows;
  }

  /** `for (const ci of carritoItems) await tx.productos.update({ data: { stock: { decrement } } })`. */
  method DecrementStock(db: Store, rows: seq<CartRow>)
    requires ProductsKnown(rows, db.productos)
    modifies db`productos
    ensures db.productos == Decremented(old(db.productos), rows)
  {
    for k := 0 to |rows|
      invariant ProductsKnown(rows[..k], old(db.productos))
      invariant db.productos == Decremented(old(db.productos), rows[..k])
    {
      assert rows[..k + 1][..k] == rows[..k];
      var p := db.productos[rows[k].productoId];
      db.productos := db.productos[rows[k].productoId := p.(stock := p.stock - rows[k].cantidad)];
    }
    assert rows[..|rows|] == rows;
  }

  /** A capture reporting "42.00" is read as 4200 cents. */
  lemma CapturedFortyTwo()
    ensures CapturedAmount(CaptureResponse([PurchaseUnit([Some("42.00")], None)])) == Success(4200)
  {
    assert FormatCents(4200) == "42.00" by {
      assert NatDigits(42) == NatDigits(4) + [DigitChar(2)];
    }
    CapturedAmountPrefersCapture(4200, [], None, []);
    assert [Some("42.00")] + [] == [Some("42.00")];
  }
}
