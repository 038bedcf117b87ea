/**
  Reviews: which received products a user may still review, and submitting a review with a
  predicted rating and its images.
*/
module Review {
  import opened Common
  import opened Database

  /** An entry of the eligible list: `{ productoId, name, imageUrl }` (`None` is null). */
  datatype Elegible = Elegible(productoId: nat, name: string, imageUrl: Option<string>)

  /** The ids of the products `u` already reviewed, in table order. */
  function ReviewedIds(reviews: seq<Review>, u: nat): (ids: seq<nat>)
    ensures forall id :: id in ids <==> exists k :: 0 <= k < |reviews| && reviews[k].usuarioId == u && reviews[k].productoId == id
  {
    if reviews == [] then []
    else
      var last := reviews[|reviews| - 1];
      ReviewedIds(reviews[..|reviews| - 1], u) + (if last.usuarioId == u then [last.productoId] else [])
  }

  /** No image of product `id` comes before position `k`. */
  predicate NoImageBefore(imagenes: seq<Imagen>, id: nat, k: int) {
    forall j :: 0 <= j < k && j < |imagenes| ==> imagenes[j].productoId != id
  }

  /** `prod.imagenes?.[0]?.imageUrl || null`: the product's first image, unless its url is empty. */
  function FirstImageUrl(imagenes: seq<Imagen>, id: nat): (url: Option<string>)
    ensures url.Some? ==> url.value != "" && exists k :: 0 <= k < |imagenes| && imagenes[k] == Imagen(id, url.value)
    ensures (forall k :: 0 <= k < |imagenes| ==> imagenes[k].productoId != id) ==> url.None?
    ensures forall k :: 0 <= k < |imagenes| && imagenes[k].productoId == id && NoImageBefore(imagenes, id, k) ==>
      url == (if imagenes[k].imageUrl == "" then None else Some(imagenes[k].imageUrl))
  {
    if imagenes == [] then None
    else if imagenes[0].productoId == id then
      (if imagenes[0].imageUrl == "" then None else Some(imagenes[0].imageUrl))
    else
      var url := FirstImageUrl(imagenes[1..], id);
      assert url.Some? ==> exists k :: 0 <= k < |imagenes| && imagenes[k] == Imagen(id, url.value) by {
        if url.Some? {
          var k :| 0 <= k < |imagenes[1..]| && imagenes[1..][k] == Imagen(id, url.value);
          assert imagenes[k + 1] == Imagen(id, url.value);
        }
      }
      url
  }

  /** The entry a product contributes. */
  function EntryOf(productos: map<nat, Producto>, imagenes: seq<Imagen>, id: nat): Elegible
    requires id in productos
  {
    Elegible(id, productos[id].name, FirstImageUrl(imagenes, id))
  }

  /** The order's status is `RECIBIDO_CLIENTE` and it belongs to `u`. */
  predicate ReceivedBy(p: Pedido, u: nat) {
    p.usuarioId == u && p.estado == RecibidoCliente
  }

  /** The detail lines of `u`'s received orders, order by order. */
  function ReceivedLines(pedidos: seq<Pedido>, u: nat): (lines: seq<LineaPedido>)
    ensures forall l :: l in lines <==> exists i :: 0 <= i < |pedidos| && ReceivedBy(pedidos[i], u) && l in pedidos[i].detalle
  {
    if pedidos == [] then []
    else
      var init, last := pedidos[..|pedidos| - 1], pedidos[|pedidos| - 1];
      var lines := ReceivedLines(init, u) + (if ReceivedBy(last, u) then last.detalle else []);
      assert forall l :: l in lines <==> exists i :: 0 <= i < |pedidos| && ReceivedBy(pedidos[i], u) && l in pedidos[i].detalle by {
        forall l | l in lines ensures exists i :: 0 <= i < |pedidos| && ReceivedBy(pedidos[i], u) && l in pedidos[i].detalle {
          if l in ReceivedLines(init, u) {
            var i :| 0 <= i < |init| && ReceivedBy(init[i], u) && l in init[i].detalle;
            assert pedidos[i] == init[i];
          } else {
            assert pedidos[|pedidos| - 1] == last;
          }
        }
        forall l, i | 0 <= i < |pedidos| && ReceivedBy(pedidos[i], u) && l in pedidos[i].detalle ensures l in lines {
          if i < |init| {
            assert init[i] == pedidos[i];
          }
        }
      }
      lines
  }

  predicate LinesKnown(lines: seq<LineaPedido>, productos: map<nat, Producto>) {
    forall k :: 0 <= k < |lines| ==> lines[k].productoId in productos
  }

  /** The `elegibles` array: an entry for every line whose product `reviewed` does not hold. */
  function Candidates(lines: seq<LineaPedido>, reviewed: seq<nat>, productos: map<nat, Producto>, imagenes: seq<Imagen>)
    : (c: seq<Elegible>)
    requires LinesKnown(lines, productos)
    ensures forall e :: e in c <==>
      exists k :: 0 <= k < |lines| && lines[k].productoId !in reviewed && e == EntryOf(productos, imagenes, lines[k].productoId)
  {
    if lines == [] then []
    else
      var init, last := lines[..|lines| - 1], lines[|lines| - 1];
      var c := Candidates(init, reviewed, productos, imagenes)
        + (if last.productoId in reviewed then [] else [EntryOf(productos, imagenes, last.productoId)]);
      assert forall k :: 0 <= k < |init| ==> init[k] == lines[k];
      c
  }

  /** Product ids strictly increase along the list, so none appears twice. */
  predicate StrictlyIncreasing(s: seq<Elegible>) {
    forall i, j :: 0 <= i < j < |s| ==> s[i].productoId < s[j].productoId
  }

  /**
    `acc[cur.productoId] = cur` on an object whose keys are product ids. JavaScript lists
    integer keys in increasing order, so `Object.values(acc)` is kept sorted by id; a later
    entry replaces an earlier one with the same id.
  */
  function Put(acc: seq<Elegible>, e: Elegible): (r: seq<Elegible>)
    requires StrictlyIncreasing(acc)
    ensures StrictlyIncreasing(r)
    ensures e in r
    ensures forall x :: x in r ==> x == e || (x in acc && x.productoId != e.productoId)
    ensures forall x :: x in acc && x.productoId != e.productoId ==> x in r
  {
    if acc == [] then [e]
    else if e.productoId < acc[0].productoId then [e] + acc
    else if e.productoId == acc[0].productoId then [e] + acc[1..]
    else
      var rest := Put(acc[1..], e);
      assert forall x :: x in rest ==> acc[0].productoId < x.productoId;
      [acc[0]] + rest
  }

  /** `Object.values(elegibles.reduce(...))`. */
  function Dedup(s: seq<Elegible>): (r: seq<Elegible>)
    ensures StrictlyIncreasing(r)
    ensures forall x :: x in r ==> x in s
    ensures forall x :: x in s ==> exists y :: y in r && y.productoId == x.productoId
  {
    if s == [] then []
    else
      var init, last := s[..|s| - 1], s[|s| - 1];
      assert forall x :: x in s ==> x in init || x == last;
      Put(Dedup(init), last)
  }

  /** The entry kept for a product is the last one pushed for it. */
  lemma {:induction false} DedupKeepsLast(s: seq<Elegible>, k: nat)
    requires k < |s|
    requires forall m :: k < m < |s| ==> s[m].productoId != s[k].productoId
    ensures s[k] in Dedup(s)
    decreases |s|
  {
    if k < |s| - 1 {
      DedupKeepsLast(s[..|s| - 1], k);
    }
  }

  /** Product `id` is in one of `u`'s received orders and `u` has not reviewed it. */
  predicate EligibleIn(pedidos: seq<Pedido>, reviews: seq<Review>, u: nat, id: nat) {
    && (exists i, l :: 0 <= i < |pedidos| && ReceivedBy(pedidos[i], u) && l in pedidos[i].detalle && l.productoId == id)
    && id !in ReviewedIds(reviews, u)
  }

  predicate Eligible(db: Store, u: nat, id: nat)
    reads db
  {
    EligibleIn(db.pedidos, db.reviews, u, id)
  }

  /**
    `obtenerElegiblesParaResena` for the signed-in user `u`. A detail line whose product is
    gone makes the handler throw (`prod.id` of null); that is `Failure(Internal)`.
  */
  method ObtenerElegiblesParaResena(db: Store, u: nat) returns (r: Result<seq<Elegible>, ApiError>)
    ensures r.Success? <==> LinesKnown(ReceivedLines(db.pedidos, u), db.productos)
    ensures r.Failure? ==> r.error == Internal
    ensures r.Success? ==>
      r.value == Dedup(Candidates(ReceivedLines(db.pedidos, u), ReviewedIds(db.reviews, u), db.productos, db.imagenes))
    ensures r.Success? ==> StrictlyIncreasing(r.value)
    ensures r.Success? ==> forall e :: e in r.value ==>
      Eligible(db, u, e.productoId) && e.productoId in db.productos && e == EntryOf(db.productos, db.imagenes, e.productoId)
    ensures r.Success? ==> forall id :: Eligible(db, u, id) ==> exists e :: e in r.value && e.productoId == id
  {
    var reviewed := ReviewedIds(db.reviews, u);
    var collected := CollectCandidates(db, u, reviewed);
    if collected.None? {
      return Failure(Internal);
    }
    EligibleSound(db.pedidos, db.reviews, db.productos, db.imagenes, u);
    EligibleComplete(db.pedidos, db.reviews, db.productos, db.imagenes, u);
    r := Success(Dedup(collected.value));
  }

  /** The nested `forEach` over the received orders and their lines, filling `elegibles`. */
  method CollectCandidates(db: Store, u: nat, reviewed: seq<nat>) returns (elegibles: Option<seq<Elegible>>)
    ensures elegibles.Some? <==> LinesKnown(ReceivedLines(db.pedidos, u), db.productos)
    ensures elegibles.Some? ==>
      elegibles.value == Candidates(ReceivedLines(db.pedidos, u), reviewed, db.productos, db.imagenes)
  {
    var acc: seq<Elegible> := [];
    var i := 0;
    while i < |db.pedidos|
      invariant 0 <= i <= |db.pedidos|
      invariant LinesKnown(ReceivedLines(db.pedidos[..i], u), db.productos)
      invariant acc == Candidates(ReceivedLines(db.pedidos[..i], u), reviewed, db.productos, db.imagenes)
    {
      assert db.pedidos[..i + 1][..i] == db.pedidos[..i];
      ghost var before := ReceivedLines(db.pedidos[..i], u);
      assert ReceivedLines(db.pedidos[..i + 1], u) == before + (if ReceivedBy(db.pedidos[i], u) then db.pedidos[i].detalle else []);
      if ReceivedBy(db.pedidos[i], u) {
        var pushed := PushLines(db, u, i, reviewed, before, acc);
        if pushed.None? {
          return None;
        }
        acc := pushed.value;
      } else {
        assert before + [] == before;
      }
      i := i + 1;
    }
    assert db.pedidos[..i] == db.pedidos;
    return Some(acc);
  }

  /** The inner `forEach` over one received order's lines. */
  method PushLines(db: Store, u: nat, i: nat, reviewed: seq<nat>, ghost before: seq<LineaPedido>, elegibles: seq<Elegible>)
    returns (out: Option<seq<Elegible>>)
    requires i < |db.pedidos| && ReceivedBy(db.pedidos[i], u)
    requires LinesKnown(before, db.productos)
    requires elegibles == Candidates(before, reviewed, db.productos, db.imagenes)
    ensures out.None? ==> !LinesKnown(ReceivedLines(db.pedidos, u), db.productos)
    ensures out.Some? ==>
      && LinesKnown(before + db.pedidos[i].detalle, db.productos)
      && out.value == Candidates(before + db.pedidos[i].detalle, reviewed, db.productos, db.imagenes)
  {
    var detalle := db.pedidos[i].detalle;
    var acc := elegibles;
    assert before + detalle[..0] == before;
    for j := 0 to |detalle|
      invariant LinesKnown(before + detalle[..j], db.productos)
      invariant acc == Candidates(before + detalle[..j], reviewed, db.productos, db.imagenes)
    {
      var item := detalle[j];
      if item.productoId !in db.productos {
        assert item in db.pedidos[i].detalle;
        ghost var lines := ReceivedLines(db.pedidos, u);
        assert item in lines;
        ghost var k :| 0 <= k < |lines| && lines[k] == item;
        return None;
      }
      ghost var next := before + detalle[..j + 1];
      assert next[..|next| - 1] == before + detalle[..j];
      assert next[|next| - 1] == item;
      assert LinesKnown(next, db.productos) by {
        forall k | 0 <= k < |next| ensures next[k].productoId in db.productos {
          if k < |next| - 1 {
            assert next[k] == (before + detalle[..j])[k];
          }
        }
      }
      if item.productoId !in reviewed {
        acc := acc + [EntryOf(db.productos, db.imagenes, item.productoId)];
      }
    }
    assert detalle[..|detalle|] == detalle;
    return Some(acc);
  }

  /** Every entry of the deduplicated list is an eligible product, built from its own row. */
  lemma EligibleSound(pedidos: seq<Pedido>, reviews: seq<Review>, productos: map<nat, Producto>, imagenes: seq<Imagen>, u: nat)
    requires LinesKnown(ReceivedLines(pedidos, u), productos)
    ensures forall e :: e in Dedup(Candidates(ReceivedLines(pedidos, u), ReviewedIds(reviews, u), productos, imagenes)) ==>
      EligibleIn(pedidos, reviews, u, e.productoId) && e.productoId in productos && e == EntryOf(productos, imagenes, e.productoId)
  {
    var lines := ReceivedLines(pedidos, u);
    var reviewed := ReviewedIds(reviews, u);
    var c := Candidates(lines, reviewed, productos, imagenes);
    forall e | e in Dedup(c)
      ensures EligibleIn(pedidos, reviews, u, e.productoId) && e.productoId in productos && e == EntryOf(productos, imagenes, e.productoId)
    {
      assert e in c;
      var k :| 0 <= k < |lines| && lines[k].productoId !in reviewed && e == EntryOf(productos, imagenes, lines[k].productoId);
      assert lines[k] in lines;
      var i :| 0 <= i < |pedidos| && ReceivedBy(pedidos[i], u) && lines[k] in pedidos[i].detalle;
    }
  }

  /** Every eligible product has an entry in the deduplicated list. */
  lemma EligibleComplete(pedidos: seq<Pedido>, reviews: seq<Review>, productos: map<nat, Producto>, imagenes: seq<Imagen>, u: nat)
    requires LinesKnown(ReceivedLines(pedidos, u), productos)
    ensures forall id :: EligibleIn(pedidos, reviews, u, id) ==>
      exists e :: e in Dedup(Candidates(ReceivedLines(pedidos, u), ReviewedIds(reviews, u), productos, imagenes)) && e.productoId == id
  {
    var lines := ReceivedLines(pedidos, u);
    var reviewed := ReviewedIds(reviews, u);
    var c := Candidates(lines, reviewed, productos, imagenes);
    forall id | EligibleIn(pedidos, reviews, u, id) ensures exists e :: e in Dedup(c) && e.productoId == id {
      var i, l :| 0 <= i < |pedidos| && ReceivedBy(pedidos[i], u) && l in pedidos[i].detalle && l.productoId == id;
      assert l in lines;
      var k :| 0 <= k < |lines| && lines[k] == l;
      var x := EntryOf(productos, imagenes, id);
      assert x in c;
    }
  }

  /** The ids of the candidate list are exactly the eligible products. */
  lemma EligibleIsCandidateId(pedidos: seq<Pedido>, reviews: seq<Review>, productos: map<nat, Producto>, imagenes: seq<Imagen>, u: nat)
    requires LinesKnown(ReceivedLines(pedidos, u), productos)
    ensures forall id :: EligibleIn(pedidos, reviews, u, id) <==>
      exists e :: e in Candidates(ReceivedLines(pedidos, u), ReviewedIds(reviews, u), productos, imagenes) && e.productoId == id
  {
    var lines := ReceivedLines(pedidos, u);
    var reviewed := ReviewedIds(reviews, u);
    var c := Candidates(lines, reviewed, productos, imagenes);
    forall id | EligibleIn(pedidos, reviews, u, id) ensures exists e :: e in c && e.productoId == id {
      var i, l :| 0 <= i < |pedidos| && ReceivedBy(pedidos[i], u) && l in pedidos[i].detalle && l.productoId == id;
      assert l in lines;
      var k :| 0 <= k < |lines| && lines[k] == l;
      assert EntryOf(productos, imagenes, id) in c;
    }
    forall id | (exists e :: e in c && e.productoId == id) ensures EligibleIn(pedidos, reviews, u, id) {
      var e :| e in c && e.productoId == id;
      var k :| 0 <= k < |lines| && lines[k].productoId !in reviewed && e == EntryOf(productos, imagenes, lines[k].productoId);
      assert lines[k] in lines;
    }
  }

  /** The reply of `crearResena`: the review and its images. */
  datatype ReviewConImagenes = ReviewConImagenes(review: Review, images: seq<ReviewImage>)

  predicate HasReview(reviews: seq<Review>, u: nat, productoId: nat) {
    exists k :: 0 <= k < |reviews| && reviews[k].usuarioId == u && reviews[k].productoId == productoId
  }

  /** The `ReviewImage` rows of one review, in table order. */
  function ImagesOf(rows: seq<ReviewImage>, reviewId: nat): seq<ReviewImage> {
    if rows == [] then []
    else
      var last := rows[|rows| - 1];
      ImagesOf(rows[..|rows| - 1], reviewId) + (if last.reviewId == reviewId then [last] else [])
  }

  /** One image row per uploaded file, in upload order, keyed to the review. */
  function ImageRows(reviewId: nat, files: seq<string>): (rows: seq<ReviewImage>)
    ensures |rows| == |files|
    ensures forall k :: 0 <= k < |files| ==> rows[k] == ReviewImage(reviewId, files[k])
  {
    seq(|files|, k requires 0 <= k < |files| => ReviewImage(reviewId, files[k]))
  }

  /** The images read back are exactly the rows keyed to the review. */
  lemma {:induction false} ImagesOfMembers(rows: seq<ReviewImage>, reviewId: nat)
    ensures forall x :: x in ImagesOf(rows, reviewId) <==> x in rows && x.reviewId == reviewId
    decreases |rows|
  {
    if rows != [] {
      var init, last := rows[..|rows| - 1], rows[|rows| - 1];
      ImagesOfMembers(init, reviewId);
      assert rows == init + [last];
    }
  }

  lemma {:induction false} ImagesOfAppend(a: seq<ReviewImage>, b: seq<ReviewImage>, reviewId: nat)
    ensures ImagesOf(a + b, reviewId) == ImagesOf(a, reviewId) + ImagesOf(b, reviewId)
    decreases |b|
  {
    if b == [] {
      assert a + b == a;
    } else {
      assert (a + b)[..|a + b| - 1] == a + b[..|b| - 1];
      ImagesOfAppend(a, b[..|b| - 1], reviewId);
    }
  }

  /** Rows keyed to an id nobody used yet: reading back that id yields exactly the new rows. */
  lemma {:induction false} ImagesOfNewReview(before: seq<ReviewImage>, reviewId: nat, files: seq<string>)
    requires forall k :: 0 <= k < |before| ==> before[k].reviewId < reviewId
    ensures ImagesOf(before + ImageRows(reviewId, files), reviewId) == ImageRows(reviewId, files)
  {
    ImagesOfAppend(before, ImageRows(reviewId, files), reviewId);
    ImagesOfNoneMatching(before, reviewId);
    ImagesOfAllMatching(ImageRows(reviewId, files), reviewId);
  }

  lemma {:induction false} ImagesOfNoneMatching(rows: seq<ReviewImage>, reviewId: nat)
    requires forall k :: 0 <= k < |rows| ==> rows[k].reviewId != reviewId
    ensures ImagesOf(rows, reviewId) == []
    decreases |rows|
  {
    if rows != [] {
      ImagesOfNoneMatching(rows[..|rows| - 1], reviewId);
    }
  }

  lemma {:induction false} ImagesOfAllMatching(rows: seq<ReviewImage>, reviewId: nat)
    requires forall k :: 0 <= k < |rows| ==> rows[k].reviewId == reviewId
    ensures ImagesOf(rows, reviewId) == rows
    decreases |rows|
  {
    if rows != [] {
      var init, last := rows[..|rows| - 1], rows[|rows| - 1];
      assert forall k :: 0 <= k < |init| ==> init[k] == rows[k];
      ImagesOfAllMatching(init, reviewId);
      assert ImagesOf(rows, reviewId) == ImagesOf(init, reviewId) + [last];
      assert rows == init + [last];
    }
  }

  lemma ReviewAppendNumbered(reviews: seq<Review>, review: Review)
    requires ReviewsNumbered(reviews) && review.id == |reviews| + 1
    ensures ReviewsNumbered(reviews + [review])
  {
    var all := reviews + [review];
    forall i | 0 <= i < |all| ensures all[i].id == i + 1 {
      if i < |reviews| {
        assert all[i] == reviews[i];
      }
    }
  }

  lemma ReviewImagesAppendKnown(images: seq<ReviewImage>, n: nat, rows: seq<ReviewImage>)
    requires ReviewImagesKnown(images, n)
    requires forall k :: 0 <= k < |rows| ==> rows[k].reviewId == n + 1
    ensures ReviewImagesKnown(images + rows, n + 1)
  {
    var all := images + rows;
    forall i | 0 <= i < |all| ensures 1 <= all[i].reviewId <= n + 1 {
      if i < |images| {
        assert all[i] == images[i];
      } else {
        assert all[i] == rows[i - |images|];
      }
    }
  }

  /**
    `crearResena` for the signed-in user `u`. `prediction` is the rating service's
    `redondeado` (`None` when the call fails or the field is missing or null); `files` are
    the uploaded images' urls.
  */
  method CrearResena(db: Store, u: nat, productoId: nat, comment: string, prediction: Option<int>, files: seq<string>)
    returns (r: Result<ReviewConImagenes, ApiError>)
    requires db.Valid()
    modifies db`reviews, db`reviewImages
    ensures db.Valid()
    ensures HasReview(old(db.reviews), u, productoId) ==> r == Failure(DuplicateReview) && unchanged(db)
    ensures !HasReview(old(db.reviews), u, productoId) ==>
      var id := |old(db.reviews)| + 1;
      var review := Review(id, u, productoId, comment, if prediction.Some? then prediction.value else 3);
      && db.reviews == old(db.reviews) + [review]
      && db.reviewImages == old(db.reviewImages) + ImageRows(id, files)
      && r == Success(ReviewConImagenes(review, ImageRows(id, files)))
  {
    if HasReview(db.reviews, u, productoId) {
      return Failure(DuplicateReview);
    }
    var rating := 3;
    if prediction.Some? {
      rating := prediction.value;
    }
    var review := Review(|db.reviews| + 1, u, productoId, comment, rating);
    ghost var beforeImages := db.reviewImages;
    assert forall k :: 0 <= k < |beforeImages| ==> beforeImages[k].reviewId < review.id;
    InsertReview(db, review, files);
    ImagesOfNewReview(beforeImages, review.id, files);
    r := Success(ReviewConImagenes(review, ImagesOf(db.reviewImages, review.id)));
  }

  /** `Review.create`, then `ReviewImage.createMany` when files came. */
  method InsertReview(db: Store, review: Review, files: seq<string>)
    requires db.Valid()
    requires review.id == |db.reviews| + 1
    modifies db`reviews, db`reviewImages
    ensures db.Valid()
    ensures db.reviews == old(db.reviews) + [review]
    ensures db.reviewImages == old(db.reviewImages) + ImageRows(review.id, files)
  {
    ghost var before, beforeImages := db.reviews, db.reviewImages;
    db.reviews := db.reviews + [review];
    var rows := ImageRows(review.id, files);
    if |files| > 0 {
      db.reviewImages := db.reviewImages + rows;
    } else {
      assert beforeImages + rows == beforeImages;
    }
    ReviewAppendNumbered(before, review);
    ReviewImagesAppendKnown(beforeImages, |before|, rows);
  }
}
