# Wine shop backend: order, capture, review and catalogue rules in Dafny

This project models the business rules of four Express controllers of a wine shop backend
that stores its data through Prisma:

- **Order creation** (`crearOrdenPaypal`). The server recomputes the subtotal and the
  four-figure feature vector the shipping estimator receives. It applies free shipping
  from 500.00 on, checks the client's total against subtotal plus shipping within 0.01,
  and builds the payment gateway's order request.
- **Payment capture** (`capturarOrdenPaypal`). The captured amount is read through a
  fallback chain. Then one atomic transaction records the order with one line per cart
  row, adds one sales row per cart row, decrements stock with no floor and empties only
  this user's cart.
- **Shipping quote** (`calcularCostoEnvio`). It computes the same figures, but with no
  750 ml default size and no free-shipping rule.
- **Reviews** (`obtenerElegiblesParaResena`, `crearResena`). The first lists the products
  of a user's received orders that the user has not reviewed, one entry per product. The
  second refuses a duplicate review, defaults the predicted rating to 3 and stores one
  image row per upload.
- **Catalogue** (`crearProducto`, `actualizarProducto`, `eliminarProducto`,
  `crearPromocion`, `obtenerProductosBajoStock`, `obtenerProductosConYSinDescuento`).
  These cover create defaults and partial updates, where price and size ignore a 0 but
  stock does not. They also cover image replace-or-append, cascade delete, promotion
  defaults, the low-stock query and the split of the catalogue by active promotion.

How the model represents the system:

- Money is integer cents. Rounding a sum to two decimals is then the identity, the
  tolerance is 1 cent and the free-shipping threshold is 50000.
- Dates are integers on one clock.
- The database is a `Database.Store` object whose fields are the tables. Products are a
  map from id to row; the other tables are sequences in listing order.
- `toFixed(2)` is `Decimal.FormatCents` and `parseFloat` is `Decimal.ParseCents`, and
  the two are proved to round-trip.
- The shipping estimator is a function parameter `Features -> Option<int>`. "Not
  consulted" is stated as "the outcome does not depend on it".
- The gateway's order id, its capture answer, the rating prediction and the uploaded
  file urls are inputs of the operations.

Behaviour of the code worth noting:

- **Dedup.** Duplicate eligible entries are merged with `acc[id] = cur`, so the *last*
  entry pushed for a product is the one kept. `Object.values` lists integer keys in
  increasing order, so the list comes out sorted by product id. All entries for one
  product are equal, so which one is kept does not change the answer.
- **Review submission.** `crearResena` refuses only a second review of the same product
  by the same user; any other product id is accepted.
- **Rating.** The stored rating is whatever the prediction returns, or 3 when there is
  none; the handler applies no range.
- **Stock and empty orders.** A capture decrements stock with no floor, so it may go
  negative. Order creation accepts an empty item list.

## Model

| member | source | states |
|---|---|---|
| Pricing.SumOfPermutation | src/controllers/Paypal.controller.js:55-65 | A sum over the items (amount, quantity, volume) is the same for any reordering of the items |
| Pricing.DeclaredVolume | src/controllers/Shipping.controller.js:20 | The volume without default size is a number exactly when every item declares its size, and then equals the volume counted with the 750 ml default |
| Pricing.RoundDiv | src/controllers/Paypal.controller.js:66 | The quotient rounded to the nearest integer, halves away from zero, with the sign of the quotient |
| Pricing.AverageUnitPrice | src/controllers/Paypal.controller.js:66 | The average unit price is NaN/Infinity (None) exactly when there are no units |
| Decimal.DigitsRoundTrip | src/controllers/Paypal.controller.js:119-120 | Reading back the decimal digits of a natural number gives the number |
| Decimal.IntToStringInjective | src/controllers/Paypal.controller.js:119-120 | Different ids and quantities give different `toString` texts, so the sku identifies the item |
| Decimal.ParseCents | src/controllers/Paypal.controller.js:167-175 | `parseFloat` gives NaN exactly when no digit starts the text after an optional sign (and point) |
| Decimal.ParseFormatRoundTrip | src/controllers/Paypal.controller.js:107-117 | `parseFloat(x.toFixed(2))` gives back x for every amount in cents |
| Paypal.GatewayItemsReadBack | src/controllers/Paypal.controller.js:113-121 | Each gateway line reads back as its item's unit price and carries the item id as sku |
| Paypal.OrderFeatures | src/controllers/Paypal.controller.js:59-66 | Definition of the estimator's inputs on the order path; its properties are stated by Paypal.OrderOutcomeIgnoresItemOrder and Shipping.QuoteAndOrderFeatures |
| Paypal.OrderShipping | src/controllers/Paypal.controller.js:68-86 | Definition of the shipping cost (0 from the threshold on, else the estimate); its properties are stated by Paypal.FreeShippingIgnoresEstimator and Shipping.QuoteHasNoFreeShipping |
| Paypal.CrearOrdenPaypal | src/controllers/Paypal.controller.js:45-142 | 400 on a malformed body; 500 exactly when a needed estimate is null; 400 exactly when the total is off by more than a cent; 500 when the gateway call fails; otherwise the gateway order with value = client total, item_total = subtotal, shipping = shipping cost, one line per item in order with its name, unit price, quantity and id |
| Paypal.FreeShippingIgnoresEstimator | src/controllers/Paypal.controller.js:68-86 | From subtotal 500.00 on shipping is 0 and the estimator's answer cannot change the outcome |
| Paypal.InvalidRequestUsesNoService | src/controllers/Paypal.controller.js:50-52 | A malformed body gives 400 whatever the estimator and the gateway would do |
| Paypal.OrderOutcomeIgnoresItemOrder | src/controllers/Paypal.controller.js:55-96 | Reordering the items changes neither the estimator's inputs, nor acceptance, nor the request's amounts |
| Paypal.GrandValueIsClientTotal | src/controllers/Paypal.controller.js:88-107 | A total one cent above the recomputed one is accepted and sent to the gateway as is, not the recomputed total |
| Paypal.EmptyItemListAccepted | src/controllers/Paypal.controller.js:50-66 | An empty item list passes validation; its average unit price is NaN and the order can be created |
| Paypal.MalbecExample | src/controllers/Paypal.controller.js:55-96 | Two 250.00 bottles: subtotal 500.00, features (1, 2, 1500, 250.00), free shipping, 500.00 accepted, 510.00 rejected |
| Paypal.CapturedAmount | src/controllers/Paypal.controller.js:166-175 | No purchase unit is an internal error; the amount is invalid exactly when its text is NaN; otherwise it is the parsed text of the fallback chain |
| Paypal.CapturedText | src/controllers/Paypal.controller.js:167-172 | Definition of the `||` chain of capture amount, unit amount and "0"; its properties are stated by Paypal.CapturedAmountPrefersCapture, Paypal.CapturedAmountFallsBack and Paypal.CapturedAmountDefaultsToZero |
| Paypal.CapturedAmountPrefersCapture | src/controllers/Paypal.controller.js:167-172 | The first capture's amount is taken when present |
| Paypal.CapturedAmountFallsBack | src/controllers/Paypal.controller.js:167-172 | Without a usable capture amount the purchase unit's amount is taken |
| Paypal.CapturedFortyTwo | src/controllers/Paypal.controller.js:167-175 | A capture reporting "42.00" is read as 4200 cents |
| Paypal.CapturedAmountDefaultsToZero | src/controllers/Paypal.controller.js:167-172 | Without either amount the capture is 0.00 |
| Paypal.CartOf | src/controllers/Paypal.controller.js:178-181 | The rows read are exactly the user's cart rows |
| Paypal.WithoutUser | src/controllers/Paypal.controller.js:229 | The cart left holds exactly the other users' rows |
| Paypal.WithoutUserFrame | src/controllers/Paypal.controller.js:229 | After emptying, the user's cart is empty and every other user's cart is unchanged |
| Paypal.OrderLines | src/controllers/Paypal.controller.js:197-203 | Definition of the order's detail lines, one per cart row at the catalogue price; the order written with them is stated by Paypal.Transaction |
| Paypal.SalesRows | src/controllers/Paypal.controller.js:207-218 | Definition of the sales rows; their contents are stated by Paypal.SalesRowsMatchCart |
| Paypal.QuantityFor | src/controllers/Paypal.controller.js:220-226 | Definition of the total quantity decremented for one product; its effect is stated by Paypal.DecrementedStock |
| Paypal.SalesRowsMatchCart | src/controllers/Paypal.controller.js:207-218 | One sales row per cart row, same product, user and quantity, at the catalogue price, total = price × quantity |
| Paypal.Decremented | src/controllers/Paypal.controller.js:220-226 | Decrementing keeps the set of products |
| Paypal.DecrementedStock | src/controllers/Paypal.controller.js:220-226 | Every product loses exactly the units its cart rows sum to, with no floor, and keeps its other fields; products in no row keep their stock |
| Paypal.InsertSales | src/controllers/Paypal.controller.js:207-218 | The loop appends exactly the sales rows of the cart |
| Paypal.DecrementStock | src/controllers/Paypal.controller.js:220-226 | The loop leaves the catalogue decremented by the cart |
| Paypal.Transaction | src/controllers/Paypal.controller.js:189-232 | Order with id next, status EN_PROCESO, the captured total and one line per cart row at the current price; sales rows; decrements; user's cart emptied; nothing else changes |
| Paypal.CapturarOrdenPaypal | src/controllers/Paypal.controller.js:150-248 | 400 without orderId; error on a failed capture or invalid amount; 404 on an empty cart; every failure leaves the store unchanged; success applies the whole transaction |
| Shipping.CalcularCostoEnvio | src/controllers/Shipping.controller.js:4-69 | 400 when items are missing or empty; 500 exactly when the estimate is null; otherwise resumen = the four features, subtotal unrounded, total = subtotal + cost |
| Shipping.QuoteFeatures | src/controllers/Shipping.controller.js:16-21 | Definition of the estimator's inputs on the quote path; its properties are stated by Shipping.QuoteAndOrderFeatures and Shipping.QuoteIgnoresItemOrder |
| Shipping.QuoteAndOrderFeatures | src/controllers/Shipping.controller.js:16-21 | With every size declared the quote sends the same features as order creation; with one missing the quote's volume is NaN and the order's is not; the other three always agree |
| Shipping.QuoteHasNoFreeShipping | src/controllers/Shipping.controller.js:24-44 | Above the threshold the quote still reports, or fails on, the estimator's answer while order creation charges 0 |
| Shipping.QuoteIgnoresItemOrder | src/controllers/Shipping.controller.js:15-46 | Reordering the items does not change the quote |
| Review.ReviewedIds | src/controllers/Review.controller.js:8-14 | The ids are exactly the products the user has a review for |
| Review.FirstImageUrl | src/controllers/Review.controller.js:41 | The url is the url of the product's first image in table order, or null when that url is empty or the product has no image |
| Review.ReceivedLines | src/controllers/Review.controller.js:17-28 | The lines are exactly those of the user's orders in state RECIBIDO_CLIENTE |
| Review.EntryOf | src/controllers/Review.controller.js:38-42 | Definition of the entry a product contributes; that every listed entry is its product's entry is stated by Review.EligibleSound |
| Review.Candidates | src/controllers/Review.controller.js:31-45 | An entry for exactly the lines whose product is not reviewed, built from the product |
| Review.Put | src/controllers/Review.controller.js:49-51 | Storing an entry keeps ids increasing, holds the new entry and keeps every entry of another id |
| Review.Dedup | src/controllers/Review.controller.js:48-53 | The result has increasing, so distinct, ids, holds only pushed entries and one for every pushed id |
| Review.DedupKeepsLast | src/controllers/Review.controller.js:48-53 | The entry kept for an id is the last one pushed for it |
| Review.PushLines | src/controllers/Review.controller.js:33-44 | The inner loop pushes the entries of one order's lines, or fails on a line whose product is gone |
| Review.CollectCandidates | src/controllers/Review.controller.js:31-45 | The nested loops produce the candidate list exactly when every received line's product exists |
| Review.EligibleIsCandidateId | src/controllers/Review.controller.js:30-45 | A product id is among the candidates exactly when it is in a received order and not reviewed |
| Review.EligibleSound | src/controllers/Review.controller.js:30-53 | Every entry of the deduplicated list is an eligible product, with its own name and first image |
| Review.EligibleComplete | src/controllers/Review.controller.js:30-53 | Every eligible product has an entry in the deduplicated list |
| Review.ObtenerElegiblesParaResena | src/controllers/Review.controller.js:4-56 | Sorted, duplicate-free, sound and complete list of eligible products; an internal error when a received line's product is gone |
| Review.ImagesOfMembers | src/controllers/Review.controller.js:104-109 | The images read back are exactly the rows keyed to the review |
| Review.ImageRows | src/controllers/Review.controller.js:95-99 | One image row per uploaded file, in order, keyed to the review |
| Review.ImagesOfNewReview | src/controllers/Review.controller.js:94-109 | Reading back the new review's images gives exactly the rows just created |
| Review.InsertReview | src/controllers/Review.controller.js:84-101 | Writing a review and its image rows appends exactly them and keeps the store consistent |
| Review.CrearResena | src/controllers/Review.controller.js:60-112 | A duplicate gives 400 with nothing written; otherwise one review with the next id and the predicted rating or 3, and one image row per file, returned with its images |
| Catalogo.ImagesOfProductMembers | src/controllers/Producto.controller.js:105-108 | The images included are exactly the product's rows |
| Catalogo.WithoutProductImages | src/controllers/Producto.controller.js:91 | Deleting a product's images keeps exactly the other products' rows |
| Catalogo.ImageRowsFor | src/controllers/Producto.controller.js:32-34 | One image row per uploaded file, in order, for the product |
| Catalogo.WithoutProductImagesEffect | src/controllers/Producto.controller.js:90-92 | After the delete the product has no image and every other product keeps its list |
| Catalogo.FreshIdImages | src/controllers/Producto.controller.js:24-39 | A new product's images are exactly the rows created with it |
| Catalogo.ProductoNuevo | src/controllers/Producto.controller.js:24-31 | Definition of the row written on creation; its defaults are stated by Catalogo.ProductoNuevoDefaults |
| Catalogo.ProductoNuevoDefaults | src/controllers/Producto.controller.js:24-31 | A missing description is "", a missing price, size or stock is 0, a given one is kept |
| Catalogo.CrearProducto | src/controllers/Producto.controller.js:6-49 | Product stored under a fresh id with the defaults, one image row per file, returned with its images |
| Catalogo.ApplyUpdate | src/controllers/Producto.controller.js:70-82 | Definition of the partial update; its properties are stated by Catalogo.ApplyUpdateFields, Catalogo.ApplyUpdateLaws and Catalogo.ZeroPriceCannotBeSet |
| Catalogo.ApplyUpdateFields | src/controllers/Producto.controller.js:70-82 | A field not sent is unchanged; a sent one is written, for price and size only when not 0, for stock even when 0 |
| Catalogo.ApplyUpdateLaws | src/controllers/Producto.controller.js:70-82 | An empty update changes nothing; applying the same update twice equals applying it once |
| Catalogo.ZeroPriceCannotBeSet | src/controllers/Producto.controller.js:76-80 | Sending 0 leaves price and size as they were but sets stock to 0 |
| Catalogo.UpdatedImages | src/controllers/Producto.controller.js:88-102 | Definition of the image table after an update; its effect is stated by Catalogo.UpdatedImagesEffect |
| Catalogo.UpdatedImagesEffect | src/controllers/Producto.controller.js:88-102 | The product's images become the uploads, after its old images unless removeOldImages is "true"; every other product keeps its images |
| Catalogo.ActualizarProducto | src/controllers/Producto.controller.js:55-121 | 404 with nothing changed for a missing id; otherwise the partial update and the image replace-or-append, returned with its images |
| Catalogo.EliminarProducto | src/controllers/Producto.controller.js:127-151 | 404 with nothing changed for a missing id; otherwise exactly that product and its images are removed |
| Catalogo.DeleteCascade | src/controllers/Producto.controller.js:140-144 | After the delete the id is gone, it has no image and every other product keeps its row and images |
| Catalogo.CrearPromocion | src/controllers/Producto.controller.js:249-291 | 404 with nothing changed for a missing product; otherwise one row with descripcion "" , descuento 0 and activo true by default |
| Catalogo.Catalogue | src/controllers/Producto.controller.js:340 | The listed rows are exactly the stored products with id below n, by increasing id |
| Catalogo.LowStock | src/controllers/Producto.controller.js:341 | Exactly the rows with stock at most 3 |
| Catalogo.LowStockLength | src/controllers/Producto.controller.js:341 | The filter keeps every row exactly when all have stock at most 3 |
| Catalogo.InsertByStock | src/controllers/Producto.controller.js:345 | Inserting keeps the list ordered by stock and adds exactly the row |
| Catalogo.SortByStock | src/controllers/Producto.controller.js:345 | The result is ordered by stock and a permutation of the input |
| Catalogo.ObtenerProductosBajoStock | src/controllers/Producto.controller.js:338-352 | Ordered by non-decreasing stock, a permutation of the low-stock rows, holding exactly the rows with stock at most 3 |
| Catalogo.LowStockOfCatalogue | src/controllers/Producto.controller.js:340-346 | Over the listing of ids below n, the query returns exactly the stored products with id below n and stock at most 3 |
| Catalogo.WholeStoreListing | src/controllers/Producto.controller.js:340-346 | When n is the store's next product id, the listing holds every stored product and the query exactly those with stock at most 3 |
| Catalogo.Activa | src/controllers/Producto.controller.js:299 | Definition of an active promotion (active flag, started, not ended, an open end counting as not ended); used by Catalogo.FirstActive, Catalogo.ConDescuento and Catalogo.SinDescuento |
| Catalogo.FirstActive | src/controllers/Producto.controller.js:303-310 | None exactly when the product has no active promotion; otherwise its first active one in table order |
| Catalogo.ConDescuento | src/controllers/Producto.controller.js:296-312 | Exactly the products with an active promotion, each with its first active promotion |
| Catalogo.SinDescuento | src/controllers/Producto.controller.js:315-321 | Exactly the products with no active promotion |
| Catalogo.ObtenerProductosConYSinDescuento | src/controllers/Producto.controller.js:293-332 | Definition of the reply as the pair of both queries at one instant; its properties are stated by Catalogo.DiscountPartition and Catalogo.DiscountListsDisjoint |
| Catalogo.DiscountPartition | src/controllers/Producto.controller.js:293-332 | Together the two lists hold every catalogue row exactly once |
| Catalogo.DiscountListsDisjoint | src/controllers/Producto.controller.js:296-321 | No row is in both lists, and each "with" row carries one active promotion of its own |

## Left out

- The payment gateway SDK, the shipping, rating and recommendation microservices and the
  file upload are foreign calls. Their results are parameters: an estimator function, the
  gateway's order id, its capture answer, the predicted rating and the uploaded urls.
- Floating point is not modelled. Amounts are cents, so binary rounding artefacts of
  `toFixed`, `parseFloat` and the 0.01 comparison are out of scope.
- Decimal.ParseCents: reads the text up to its second decimal and drops further digits.
  It does not skip leading whitespace and does not read exponents or `Infinity`.
- The request's `application_context` (return and cancel urls from the environment) is
  not part of the modelled request.
- Paypal.CrearOrdenPaypal: an estimator answer that lacks the field (`undefined`) is
  modelled like `null`. The order path fails either way.
- Paypal.CrearOrdenPaypal: items are taken to carry numeric `price`, `quantity` and
  `id`. A missing or non-numeric field makes the subtotal NaN in the code, which skips
  the estimator, passes the total check and then either throws (500) or sends "NaN"
  to the gateway; a string quantity turns the unit count into a string concatenation.
  That path is not modelled.
- Shipping.CalcularCostoEnvio: items are taken to carry numeric `price` and
  `quantity`; the NaN subtotal and string-concatenated unit count that other values
  give in the code are not modelled.
- Shipping.CalcularCostoEnvio: an estimator answer that lacks the field (`undefined`)
  is modelled like `null`. In the code the quote would then answer 200 with a NaN total.
- Every `new Date()` read of the promotion query and the order date is one `now`
  parameter.
- Database.Store.Valid: keeps product ids, product images, order and review ids and
  review images consistent. It states no foreign keys for carts, order lines,
  promotions or reviews, because the schema is not part of this model.
- Catalogo.EliminarProducto: the product is removed even when promotions, carts or order
  lines still refer to it. Whether the database would refuse that depends on the schema.
- Numeric form fields of product creation, update and promotion creation, and the
  `productoId` and `rating` of `crearResena` (`Number(...)` of a body field or of the
  prediction), arrive already converted, and a value that is not a number (`Number(x)`
  is NaN) is not modelled. A multipart string "0" is truthy in JavaScript and would be written by an
  update; the model takes numeric fields, where 0 is falsy.
- Catalogo.ObtenerProductosBajoStock: the query's `include: { imagenes: true }` is not
  attached to the rows. Rows of equal stock keep their listing order, which the database
  leaves unspecified.
- Catalogo.Catalogue: the queries' listing order is taken to be increasing id.
- `obtenerProductoPorId`, `obtenerProductosAdmin` and `obtenerProductosRecomendados` are
  plain reads or an external call with no rule of their own.
- Concurrency is not modelled. This covers concurrent captures on the same stock and the
  read-then-write duplicate review check.
- Express routing, logging and the exact response bodies are not modelled beyond status
  codes and returned fields.
- Pricing.DeclaredVolume: an item's size is either given or absent. An explicit
  `"size_ml": null` is not a separate case: the quote would count it as 0 ml
  (`null * q` is 0) where the model's absent size makes the volume NaN, and the order
  path counts it as 750 ml like an absent size.
- Review.Dedup: the `reduce` accumulator object is modelled as a fold producing the
  sorted `Object.values` list, not as an object mutated in place.
- Review.ObtenerElegiblesParaResena: the handler has no `try`, so a detail line whose
  product is gone rejects the request. That is modelled as an internal error with nothing
  returned.
