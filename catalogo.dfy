/**
  The product catalogue: creating, updating and deleting products with their images,
  creating promotions, and the low-stock and active-promotion queries.
*/
module Catalogo {
  import opened Common
  import opened Database

  // ---------------------------------------------------------------------------------------
  // Product images
  // ---------------------------------------------------------------------------------------

  /** A product with the images `include: { imagenes: true }` attaches to it. */
  datatype ProductoConImagenes = ProductoConImagenes(id: nat, producto: Producto, imagenes: seq<Imagen>)

  /** The image rows of product `id`, in table order. */
  function ImagesOfProduct(imagenes: seq<Imagen>, id: nat): seq<Imagen> {
    if imagenes == [] then []
    else
      var last := imagenes[|imagenes| - 1];
      ImagesOfProduct(imagenes[..|imagenes| - 1], id) + (if last.productoId == id then [last] else [])
  }

  /** `deleteMany({ where: { productoId: id } })` on the image table. */
  function WithoutProductImages(imagenes: seq<Imagen>, id: nat): (rest: seq<Imagen>)
    ensures forall x :: x in rest <==> x in imagenes && x.productoId != id
  {
    if imagenes == [] then []
    else
      var last := imagenes[|imagenes| - 1];
      WithoutProductImages(imagenes[..|imagenes| - 1], id) + (if last.productoId == id then [] else [last])
  }

  /** One image row per uploaded file, in upload order, for product `id`. */
  function ImageRowsFor(id: nat, urls: seq<string>): (rows: seq<Imagen>)
    ensures |rows| == |urls|
    ensures forall k :: 0 <= k < |urls| ==> rows[k] == Imagen(id, urls[k])
  {
    seq(|urls|, k requires 0 <= k < |urls| => Imagen(id, urls[k]))
  }

  /** The rows read back are exactly the product's rows. */
  lemma {:induction false} ImagesOfProductMembers(imagenes: seq<Imagen>, id: nat)
    ensures forall x :: x in ImagesOfProduct(imagenes, id) <==> x in imagenes && x.productoId == id
    decreases |imagenes|
  {
    if imagenes != [] {
      var init, last := imagenes[..|imagenes| - 1], imagenes[|imagenes| - 1];
      ImagesOfProductMembers(init, id);
      assert imagenes == init + [last];
    }
  }

  lemma {:induction false} ImagesOfProductAppend(a: seq<Imagen>, b: seq<Imagen>, id: nat)
    ensures ImagesOfProduct(a + b, id) == ImagesOfProduct(a, id) + ImagesOfProduct(b, id)
    decreases |b|
  {
    if b == [] {
      assert a + b == a;
    } else {
      assert (a + b)[..|a + b| - 1] == a + b[..|b| - 1];
      ImagesOfProductAppend(a, b[..|b| - 1], id);
    }
  }

  lemma {:induction false} ImagesOfProductNone(imagenes: seq<Imagen>, id: nat)
    requires forall k :: 0 <= k < |imagenes| ==> imagenes[k].productoId != id
    ensures ImagesOfProduct(imagenes, id) == []
    decreases |imagenes|
  {
    if imagenes != [] {
      ImagesOfProductNone(imagenes[..|imagenes| - 1], id);
    }
  }

  lemma {:induction false} ImagesOfProductAll(rows: seq<Imagen>, id: nat)
    requires forall k :: 0 <= k < |rows| ==> rows[k].productoId == id
    ensures ImagesOfProduct(rows, id) == rows
    decreases |rows|
  {
    if rows != [] {
      var init, last := rows[..|rows| - 1], rows[|rows| - 1];
      assert forall k :: 0 <= k < |init| ==> init[k] == rows[k];
      ImagesOfProductAll(init, id);
      assert ImagesOfProduct(rows, id) == ImagesOfProduct(init, id) + [last];
      assert rows == init + [last];
    }
  }

  /**
    Deleting one product's images removes all of them and leaves every other product's
    image list exactly as it was.
  */
  lemma {:induction false} WithoutProductImagesEffect(imagenes: seq<Imagen>, id: nat, other: nat)
    ensures ImagesOfProduct(WithoutProductImages(imagenes, id), id) == []
    ensures other != id ==> ImagesOfProduct(WithoutProductImages(imagenes, id), other) == ImagesOfProduct(imagenes, other)
    decreases |imagenes|
  {
    var rest := WithoutProductImages(imagenes, id);
    assert forall k :: 0 <= k < |rest| ==> rest[k].productoId != id by {
      forall k | 0 <= k < |rest| ensures rest[k].productoId != id {
        assert rest[k] in rest;
      }
    }
    ImagesOfProductNone(rest, id);
    if imagenes != [] {
      var init, last := imagenes[..|imagenes| - 1], imagenes[|imagenes| - 1];
      WithoutProductImagesEffect(init, id, other);
      ImagesOfProductAppend(WithoutProductImages(init, id), if last.productoId == id then [] else [last], other);
    }
  }

  /** Appending rows for a product that is in the catalogue keeps every image attached to a product. */
  lemma ImagesKnownAppend(imagenes: seq<Imagen>, rows: seq<Imagen>, before: map<nat, Producto>, after: map<nat, Producto>, id: nat)
    requires ImagesKnown(imagenes, before)
    requires before.Keys <= after.Keys && id in after
    requires forall k :: 0 <= k < |rows| ==> rows[k].productoId == id
    ensures ImagesKnown(imagenes + rows, after)
  {
    var all := imagenes + rows;
    forall i | 0 <= i < |all| ensures all[i].productoId in after {
      if i < |imagenes| {
        assert all[i] == imagenes[i];
      } else {
        assert all[i] == rows[i - |imagenes|];
      }
    }
  }

  /** An id past every existing product has no images yet, so its images are exactly the new rows. */
  lemma FreshIdImages(imagenes: seq<Imagen>, rows: seq<Imagen>, productos: map<nat, Producto>, id: nat)
    requires ImagesKnown(imagenes, productos) && ProductIdsBelow(productos, id)
    requires forall k :: 0 <= k < |rows| ==> rows[k].productoId == id
    ensures ImagesOfProduct(imagenes + rows, id) == rows
  {
    assert forall k :: 0 <= k < |imagenes| ==> imagenes[k].productoId != id;
    ImagesOfProductAppend(imagenes, rows, id);
    ImagesOfProductNone(imagenes, id);
    ImagesOfProductAll(rows, id);
    assert [] + rows == rows;
  }

  // ---------------------------------------------------------------------------------------
  // crearProducto
  // ---------------------------------------------------------------------------------------

  /**
    The form fields of `crearProducto`: `None` is a field that was not sent (or is empty);
    numbers are already converted by `Number(...)`.
  */
  datatype NuevoProducto = NuevoProducto(
    name: string,
    description: Option<string>,
    precio: Option<int>,
    sabor: string,
    tamano: Option<int>,
    stock: Option<int>)

  /** The row `crearProducto` writes: `description || ""` and `x ? Number(x) : 0` for the numbers. */
  function ProductoNuevo(f: NuevoProducto): Producto {
    Producto(f.name, f.description.GetOr(""), f.precio.GetOr(0), f.sabor, f.tamano.GetOr(0), f.stock.GetOr(0))
  }

  /** A product written with no description, price, size or stock has "" and zeros there. */
  lemma ProductoNuevoDefaults(f: NuevoProducto)
    ensures f.description.None? || f.description == Some("") ==> ProductoNuevo(f).description == ""
    ensures f.precio.None? ==> ProductoNuevo(f).precio == 0
    ensures f.tamano.None? ==> ProductoNuevo(f).tamano == 0
    ensures f.stock.None? ==> ProductoNuevo(f).stock == 0
    ensures f.description.Some? ==> ProductoNuevo(f).description == f.description.value
    ensures f.precio.Some? ==> ProductoNuevo(f).precio == f.precio.value
    ensures f.tamano.Some? ==> ProductoNuevo(f).tamano == f.tamano.value
    ensures f.stock.Some? ==> ProductoNuevo(f).stock == f.stock.value
    ensures ProductoNuevo(f).name == f.name && ProductoNuevo(f).sabor == f.sabor
  {
  }

  /** `crearProducto`: `urls` are the uploaded files' paths. */
  method CrearProducto(db: Store, f: NuevoProducto, urls: seq<string>) returns (r: ProductoConImagenes)
    requires db.Valid()
    modifies db`productos, db`nextProductoId, db`imagenes
    ensures db.Valid()
    ensures r.id == old(db.nextProductoId) && r.id !in old(db.productos)
    ensures db.productos == old(db.productos)[r.id := ProductoNuevo(f)]
    ensures db.nextProductoId == old(db.nextProductoId) + 1
    ensures db.imagenes == old(db.imagenes) + ImageRowsFor(r.id, urls)
    ensures r.producto == ProductoNuevo(f)
    ensures r.imagenes == ImagesOfProduct(db.imagenes, r.id) == ImageRowsFor(r.id, urls)
  {
    var id := db.nextProductoId;
    ghost var before := db.imagenes;
    db.productos := db.productos[id := ProductoNuevo(f)];
    db.nextProductoId := id + 1;
    var rows := ImageRowsFor(id, urls);
    if |urls| > 0 {
      db.imagenes := db.imagenes + rows;
    } else {
      assert before + rows == before;
    }
    ImagesKnownAppend(before, rows, old(db.productos), db.productos, id);
    FreshIdImages(before, rows, old(db.productos), id);
    r := ProductoConImagenes(id, ProductoNuevo(f), ImagesOfProduct(db.imagenes, id));
  }

  // ---------------------------------------------------------------------------------------
  // actualizarProducto
  // ---------------------------------------------------------------------------------------

  /** The body fields of `actualizarProducto`; `None` is `undefined`. */
  datatype Cambios = Cambios(
    name: Option<string>,
    description: Option<string>,
    precio: Option<int>,
    sabor: Option<string>,
    tamano: Option<int>,
    stock: Option<int>)

  /** A supplied number that JavaScript treats as true: present and not 0. */
  predicate Supplied(v: Option<int>) {
    v.Some? && v.value != 0
  }

  /**
    The `data` of `Productos.update`: `undefined` leaves a column alone. Price and size are
    written only when truthy (`precio ? Number(precio) : undefined`); stock whenever it is
    not `undefined`, 0 included.
  */
  function ApplyUpdate(p: Producto, c: Cambios): Producto {
    Producto(
      c.name.GetOr(p.name),
      c.description.GetOr(p.description),
      if c.precio.Some? && c.precio.value != 0 then c.precio.value else p.precio,
      c.sabor.GetOr(p.sabor),
      if c.tamano.Some? && c.tamano.value != 0 then c.tamano.value else p.tamano,
      c.stock.GetOr(p.stock))
  }

  /** A column that is not sent keeps its value; one that is sent (and truthy, for price and size) is written. */
  lemma ApplyUpdateFields(p: Producto, c: Cambios)
    ensures c.name.None? ==> ApplyUpdate(p, c).name == p.name
    ensures c.description.None? ==> ApplyUpdate(p, c).description == p.description
    ensures c.sabor.None? ==> ApplyUpdate(p, c).sabor == p.sabor
    ensures !Supplied(c.precio) ==> ApplyUpdate(p, c).precio == p.precio
    ensures !Supplied(c.tamano) ==> ApplyUpdate(p, c).tamano == p.tamano
    ensures c.stock.None? ==> ApplyUpdate(p, c).stock == p.stock
    ensures c.name.Some? ==> ApplyUpdate(p, c).name == c.name.value
    ensures c.description.Some? ==> ApplyUpdate(p, c).description == c.description.value
    ensures c.sabor.Some? ==> ApplyUpdate(p, c).sabor == c.sabor.value
    ensures Supplied(c.precio) ==> ApplyUpdate(p, c).precio == c.precio.value
    ensures Supplied(c.tamano) ==> ApplyUpdate(p, c).tamano == c.tamano.value
    ensures c.stock.Some? ==> ApplyUpdate(p, c).stock == c.stock.value
  {
  }

  /** Sending nothing changes nothing, and applying the same changes twice is applying them once. */
  lemma ApplyUpdateLaws(p: Producto, c: Cambios)
    ensures ApplyUpdate(p, Cambios(None, None, None, None, None, None)) == p
    ensures ApplyUpdate(ApplyUpdate(p, c), c) == ApplyUpdate(p, c)
  {
  }

  /** A price or size of 0 cannot be written through the update, but a stock of 0 can. */
  lemma ZeroPriceCannotBeSet(p: Producto)
    requires p.precio != 0 && p.tamano != 0
    ensures var q := ApplyUpdate(p, Cambios(None, None, Some(0), None, Some(0), Some(0)));
      q.precio == p.precio && q.tamano == p.tamano && q.stock == 0
  {
  }

  /** The image table after the update: the old rows, or the others' rows only, then the uploads. */
  function UpdatedImages(imagenes: seq<Imagen>, id: nat, removeOldImages: Option<string>, urls: seq<string>): seq<Imagen> {
    (if removeOldImages == Some("true") then WithoutProductImages(imagenes, id) else imagenes) + ImageRowsFor(id, urls)
  }

  /**
    After the update the product's images are the new uploads, preceded by its old images
    unless `removeOldImages` is "true"; every other product keeps its images.
  */
  lemma UpdatedImagesEffect(imagenes: seq<Imagen>, id: nat, removeOldImages: Option<string>, urls: seq<string>, other: nat)
    ensures ImagesOfProduct(UpdatedImages(imagenes, id, removeOldImages, urls), id) ==
      (if removeOldImages == Some("true") then [] else ImagesOfProduct(imagenes, id)) + ImageRowsFor(id, urls)
    ensures other != id ==>
      ImagesOfProduct(UpdatedImages(imagenes, id, removeOldImages, urls), other) == ImagesOfProduct(imagenes, other)
  {
    var kept := if removeOldImages == Some("true") then WithoutProductImages(imagenes, id) else imagenes;
    var rows := ImageRowsFor(id, urls);
    UpdatedImagesOwn(imagenes, kept, id, removeOldImages == Some("true"), rows);
    if other != id {
      UpdatedImagesOther(imagenes, kept, id, removeOldImages == Some("true"), rows, other);
    }
  }

  lemma UpdatedImagesOwn(imagenes: seq<Imagen>, kept: seq<Imagen>, id: nat, remove: bool, rows: seq<Imagen>)
    requires kept == if remove then WithoutProductImages(imagenes, id) else imagenes
    requires forall k :: 0 <= k < |rows| ==> rows[k].productoId == id
    ensures ImagesOfProduct(kept + rows, id) == (if remove then [] else ImagesOfProduct(imagenes, id)) + rows
  {
    ImagesOfProductAppend(kept, rows, id);
    ImagesOfProductAll(rows, id);
    if remove {
      WithoutProductImagesEffect(imagenes, id, id);
      assert [] + rows == rows;
    }
  }

  lemma UpdatedImagesOther(imagenes: seq<Imagen>, kept: seq<Imagen>, id: nat, remove: bool, rows: seq<Imagen>, other: nat)
    requires other != id
    requires kept == if remove then WithoutProductImages(imagenes, id) else imagenes
    requires forall k :: 0 <= k < |rows| ==> rows[k].productoId == id
    ensures ImagesOfProduct(kept + rows, other) == ImagesOfProduct(imagenes, other)
  {
    ImagesOfProductAppend(kept, rows, other);
    ImagesOfProductNone(rows, other);
    assert ImagesOfProduct(kept, other) + [] == ImagesOfProduct(kept, other);
    if remove {
      WithoutProductImagesEffect(imagenes, id, other);
    }
  }

  /**
    `actualizarProducto` on product `id`. A missing id makes `update` throw `P2025`, answered
    404 before any image is touched.
  */
  method ActualizarProducto(db: Store, id: nat, c: Cambios, removeOldImages: Option<string>, urls: seq<string>)
    returns (r: Result<ProductoConImagenes, ApiError>)
    requires db.Valid()
    modifies db`productos, db`imagenes
    ensures db.Valid()
    ensures id !in old(db.productos) ==> r == Failure(NotFound) && unchanged(db)
    ensures id in old(db.productos) ==>
      && db.productos == old(db.productos)[id := ApplyUpdate(old(db.productos)[id], c)]
      && db.imagenes == UpdatedImages(old(db.imagenes), id, removeOldImages, urls)
      && r == Success(ProductoConImagenes(id, db.productos[id], ImagesOfProduct(db.imagenes, id)))
  {
    if id !in db.productos {
      return Failure(NotFound);
    }
    ghost var before := db.imagenes;
    db.productos := db.productos[id := ApplyUpdate(db.productos[id], c)];
    if removeOldImages.Some? && removeOldImages.value == "true" {
      db.imagenes := WithoutProductImages(db.imagenes, id);
    }
    ghost var kept := db.imagenes;
    var rows := ImageRowsFor(id, urls);
    if |urls| > 0 {
      db.imagenes := db.imagenes + rows;
    } else {
      assert kept + rows == kept;
    }
    assert ImagesKnown(kept, old(db.productos)) by {
      forall i | 0 <= i < |kept| ensures kept[i].productoId in old(db.productos) {
        assert kept[i] in kept;
      }
    }
    ImagesKnownAppend(kept, rows, old(db.productos), db.productos, id);
    r := Success(ProductoConImagenes(id, db.productos[id], ImagesOfProduct(db.imagenes, id)));
  }

  // ---------------------------------------------------------------------------------------
  // eliminarProducto
  // ---------------------------------------------------------------------------------------

  /** `eliminarProducto`: the product's images are deleted, then the product. */
  method EliminarProducto(db: Store, id: nat) returns (r: Result<(), ApiError>)
    requires db.Valid()
    modifies db`productos, db`imagenes
    ensures db.Valid()
    ensures id !in old(db.productos) ==> r == Failure(NotFound) && unchanged(db)
    ensures id in old(db.productos) ==>
      && r == Success(())
      && db.productos == old(db.productos) - {id}
      && db.imagenes == WithoutProductImages(old(db.imagenes), id)
  {
    if id !in db.productos {
      return Failure(NotFound);
    }
    ghost var before := db.imagenes;
    db.imagenes := WithoutProductImages(db.imagenes, id);
    db.productos := db.productos - {id};
    assert ImagesKnown(db.imagenes, db.productos) by {
      forall i | 0 <= i < |db.imagenes| ensures db.imagenes[i].productoId in db.productos {
        assert db.imagenes[i] in db.imagenes;
        assert db.imagenes[i] in before;
      }
    }
    r := Success(());
  }

  /**
    After a delete no image of the product is left, every other product keeps its row and
    its images, and the deleted id is no longer in the catalogue.
  */
  lemma DeleteCascade(productos: map<nat, Producto>, imagenes: seq<Imagen>, id: nat, other: nat)
    requires id in productos
    ensures id !in productos - {id}
    ensures ImagesOfProduct(WithoutProductImages(imagenes, id), id) == []
    ensures other != id && other in productos ==> (productos - {id})[other] == productos[other]
    ensures other != id ==> ImagesOfProduct(WithoutProductImages(imagenes, id), other) == ImagesOfProduct(imagenes, other)
  {
    WithoutProductImagesEffect(imagenes, id, other);
  }

  // ---------------------------------------------------------------------------------------
  // crearPromocion
  // ---------------------------------------------------------------------------------------

  /**
    The body of `crearPromocion`, dates already on the integer clock; `fechaFin`, `descuento`
    and `activo` are `None` when not sent (a falsy end date or a descuento that is 0 or not a
    number count as not sent).
  */
  datatype NuevaPromocion = NuevaPromocion(
    titulo: string,
    descripcion: Option<string>,
    fechaInicio: int,
    fechaFin: Option<int>,
    descuento: Option<int>,
    productoId: nat,
    activo: Option<bool>)

  /** `crearPromocion`: the product must exist; then one promotion row is appended. */
  method CrearPromocion(db: Store, d: NuevaPromocion) returns (r: Result<Promocion, ApiError>)
    requires db.Valid()
    modifies db`promociones
    ensures db.Valid()
    ensures d.productoId !in db.productos ==> r == Failure(NotFound) && unchanged(db)
    ensures d.productoId in db.productos ==>
      && r.Success?
      && db.promociones == old(db.promociones) + [r.value]
      && r.value.productoId == d.productoId
      && r.value.titulo == d.titulo
      && r.value.fechaInicio == d.fechaInicio
      && r.value.fechaFin == d.fechaFin
      && r.value.descripcion == (if d.descripcion.Some? then d.descripcion.value else "")
      && r.value.descuento == (if d.descuento.Some? then d.descuento.value else 0)
      && r.value.activo == (d.activo != Some(false))
  {
    if d.productoId !in db.productos {
      return Failure(NotFound);
    }
    var promo := Promocion(
      d.titulo, d.descripcion.GetOr(""), d.fechaInicio, d.fechaFin,
      d.descuento.GetOr(0), d.activo.GetOr(true), d.productoId);
    db.promociones := db.promociones + [promo];
    r := Success(promo);
  }

  // ---------------------------------------------------------------------------------------
  // Catalogue queries
  // ---------------------------------------------------------------------------------------

  /** A catalogue row as `findMany` returns it: the id with the columns. */
  datatype ProductRow = ProductRow(id: nat, producto: Producto)

  /** The products with ids below `n`, by increasing id: the order the queries list them in. */
  function Catalogue(productos: map<nat, Producto>, n: nat): (rows: seq<ProductRow>)
    ensures forall r :: r in rows <==> r.id < n && r.id in productos && r.producto == productos[r.id]
    ensures forall i, j :: 0 <= i < j < |rows| ==> rows[i].id < rows[j].id
  {
    if n == 0 then []
    else
      var init := Catalogue(productos, n - 1);
      init + (if n - 1 in productos then [ProductRow(n - 1, productos[n - 1])] else [])
  }

  /** `where: { stock: { lte: 3 } }`. */
  function LowStock(rows: seq<ProductRow>): (r: seq<ProductRow>)
    ensures forall x :: x in r <==> x in rows && x.producto.stock <= 3
  {
    if rows == [] then []
    else
      var last := rows[|rows| - 1];
      LowStock(rows[..|rows| - 1]) + (if last.producto.stock <= 3 then [last] else [])
  }

  lemma {:induction false} LowStockLength(rows: seq<ProductRow>)
    ensures |LowStock(rows)| <= |rows|
    ensures |LowStock(rows)| == |rows| <==> forall k :: 0 <= k < |rows| ==> rows[k].producto.stock <= 3
    decreases |rows|
  {
    if rows != [] {
      var init := rows[..|rows| - 1];
      LowStockLength(init);
      if |LowStock(rows)| == |rows| {
        forall k | 0 <= k < |rows| ensures rows[k].producto.stock <= 3 {
          if k < |init| {
            assert rows[k] == init[k];
          }
        }
      } else {
        assert |LowStock(rows)| < |rows|;
      }
    }
  }

  predicate SortedByStock(s: seq<ProductRow>) {
    forall i, j :: 0 <= i < j < |s| ==> s[i].producto.stock <= s[j].producto.stock
  }

  /** Inserts `x` after every row whose stock is not above its own, keeping equal stocks in order. */
  function InsertByStock(x: ProductRow, s: seq<ProductRow>): (r: seq<ProductRow>)
    requires SortedByStock(s)
    ensures SortedByStock(r)
    ensures multiset(r) == multiset(s) + multiset{x}
  {
    if s == [] then [x]
    else if x.producto.stock < s[0].producto.stock then
      ConsSorted(x, s);
      [x] + s
    else
      var rest := InsertByStock(x, s[1..]);
      assert s == [s[0]] + s[1..];
      assert forall k :: 0 <= k < |rest| ==> s[0].producto.stock <= rest[k].producto.stock by {
        forall k | 0 <= k < |rest| ensures s[0].producto.stock <= rest[k].producto.stock {
          assert rest[k] in multiset(rest);
        }
      }
      ConsSorted(s[0], rest);
      [s[0]] + rest
  }

  /** A row no larger in stock than every row of a sorted list may go in front of it. */
  lemma ConsSorted(h: ProductRow, rest: seq<ProductRow>)
    requires SortedByStock(rest)
    requires forall k :: 0 <= k < |rest| ==> h.producto.stock <= rest[k].producto.stock
    ensures SortedByStock([h] + rest)
  {
    var r := [h] + rest;
    forall i, j | 0 <= i < j < |r| ensures r[i].producto.stock <= r[j].producto.stock {
      assert r[j] == rest[j - 1];
      if i > 0 {
        assert r[i] == rest[i - 1];
      }
    }
  }

  /** `orderBy: { stock: 'asc' }`, rows of equal stock left in listing order. */
  function SortByStock(s: seq<ProductRow>): (r: seq<ProductRow>)
    ensures SortedByStock(r)
    ensures multiset(r) == multiset(s)
  {
    if s == [] then []
    else
      assert s == s[..|s| - 1] + [s[|s| - 1]];
      InsertByStock(s[|s| - 1], SortByStock(s[..|s| - 1]))
  }

  /** `obtenerProductosBajoStock`: the rows with stock at most 3, by non-decreasing stock. */
  function ObtenerProductosBajoStock(rows: seq<ProductRow>): (r: seq<ProductRow>)
    ensures SortedByStock(r)
    ensures multiset(r) == multiset(LowStock(rows))
    ensures forall x :: x in r <==> x in rows && x.producto.stock <= 3
  {
    var low := LowStock(rows);
    var sorted := SortByStock(low);
    assert forall x :: x in sorted <==> x in low by {
      forall x ensures x in sorted <==> x in low {
        assert x in sorted <==> x in multiset(sorted);
        assert x in low <==> x in multiset(low);
      }
    }
    sorted
  }

  /** Over the whole catalogue the low-stock list holds exactly the products with stock at most 3. */
  lemma LowStockOfCatalogue(productos: map<nat, Producto>, n: nat)
    ensures forall r :: r in ObtenerProductosBajoStock(Catalogue(productos, n)) <==>
      r.id < n && r.id in productos && r.producto == productos[r.id] && r.producto.stock <= 3
  {
  }

  /**
    With `n` the store's next product id, every stored product has an id below `n`, so the
    listing is the whole table and the low-stock query covers every product.
  */
  lemma WholeStoreListing(productos: map<nat, Producto>, n: nat)
    requires ProductIdsBelow(productos, n)
    ensures forall r :: r in Catalogue(productos, n) <==> r.id in productos && r.producto == productos[r.id]
    ensures forall r :: r in ObtenerProductosBajoStock(Catalogue(productos, n)) <==>
      r.id in productos && r.producto == productos[r.id] && r.producto.stock <= 3
  {
    LowStockOfCatalogue(productos, n);
  }

  /** `activo: true, fechaInicio: { lte: now }, OR: [{ fechaFin: null }, { fechaFin: { gte: now } }]`. */
  predicate Activa(p: Promocion, now: int) {
    p.activo && p.fechaInicio <= now && (p.fechaFin.None? || p.fechaFin.value >= now)
  }

  predicate HasActivePromo(promos: seq<Promocion>, id: nat, now: int) {
    exists k :: 0 <= k < |promos| && promos[k].productoId == id && Activa(promos[k], now)
  }

  predicate NoneActiveBefore(promos: seq<Promocion>, id: nat, now: int, k: nat)
    requires k <= |promos|
  {
    forall j :: 0 <= j < k ==> !(promos[j].productoId == id && Activa(promos[j], now))
  }

  /** `promociones: { where: <active>, take: 1 }`: the product's first active promotion. */
  function FirstActive(promos: seq<Promocion>, id: nat, now: int): (p: Option<Promocion>)
    ensures p.None? <==> !HasActivePromo(promos, id, now)
    ensures p.Some? ==> p.value in promos && p.value.productoId == id && Activa(p.value, now)
    ensures p.Some? ==> exists k :: 0 <= k < |promos| && promos[k] == p.value && NoneActiveBefore(promos, id, now, k)
  {
    if promos == [] then None
    else if promos[0].productoId == id && Activa(promos[0], now) then
      assert promos[0] in promos;
      Some(promos[0])
    else
      var p := FirstActive(promos[1..], id, now);
      assert HasActivePromo(promos, id, now) <==> HasActivePromo(promos[1..], id, now) by {
        if HasActivePromo(promos, id, now) {
          var k :| 0 <= k < |promos| && promos[k].productoId == id && Activa(promos[k], now);
          assert promos[1..][k - 1] == promos[k];
        }
        if HasActivePromo(promos[1..], id, now) {
          var k :| 0 <= k < |promos[1..]| && promos[1..][k].productoId == id && Activa(promos[1..][k], now);
          assert promos[k + 1] == promos[1..][k];
        }
      }
      assert p.Some? ==> exists k :: 0 <= k < |promos| && promos[k] == p.value && NoneActiveBefore(promos, id, now, k) by {
        if p.Some? {
          var k :| 0 <= k < |promos[1..]| && promos[1..][k] == p.value && NoneActiveBefore(promos[1..], id, now, k);
          assert promos[k + 1] == p.value;
          forall j | 0 <= j < k + 1 ensures !(promos[j].productoId == id && Activa(promos[j], now)) {
            if j > 0 {
              assert promos[j] == promos[1..][j - 1];
            }
          }
        }
      }
      p
  }

  /** A product listed with its one active promotion. */
  datatype ConPromocion = ConPromocion(row: ProductRow, promocion: Promocion)

  /** The first query: products with `some` active promotion, each carrying the first one. */
  function ConDescuento(rows: seq<ProductRow>, promos: seq<Promocion>, now: int): (c: seq<ConPromocion>)
    ensures forall x :: x in c ==>
      && x.row in rows && HasActivePromo(promos, x.row.id, now)
      && Some(x.promocion) == FirstActive(promos, x.row.id, now)
    ensures forall r :: r in rows && HasActivePromo(promos, r.id, now) ==>
      ConPromocion(r, FirstActive(promos, r.id, now).value) in c
  {
    if rows == [] then []
    else
      var last := rows[|rows| - 1];
      var first := FirstActive(promos, last.id, now);
      ConDescuento(rows[..|rows| - 1], promos, now) + (if first.Some? then [ConPromocion(last, first.value)] else [])
  }

  /** The second query: products with `none` active promotion. */
  function SinDescuento(rows: seq<ProductRow>, promos: seq<Promocion>, now: int): (s: seq<ProductRow>)
    ensures forall r :: r in s <==> r in rows && !HasActivePromo(promos, r.id, now)
  {
    if rows == [] then []
    else
      var last := rows[|rows| - 1];
      SinDescuento(rows[..|rows| - 1], promos, now) + (if HasActivePromo(promos, last.id, now) then [] else [last])
  }

  function RowsOf(c: seq<ConPromocion>): (rows: seq<ProductRow>)
    ensures |rows| == |c|
    ensures forall k :: 0 <= k < |c| ==> rows[k] == c[k].row
  {
    seq(|c|, k requires 0 <= k < |c| => c[k].row)
  }

  /** The reply of `obtenerProductosConYSinDescuento`, both queries at the same instant `now`. */
  function ObtenerProductosConYSinDescuento(rows: seq<ProductRow>, promos: seq<Promocion>, now: int)
    : (seq<ConPromocion>, seq<ProductRow>)
  {
    (ConDescuento(rows, promos, now), SinDescuento(rows, promos, now))
  }

  /** The two lists split the catalogue: every row lands in exactly one of them, once. */
  lemma {:induction false} DiscountPartition(rows: seq<ProductRow>, promos: seq<Promocion>, now: int)
    ensures var (con, sin) := ObtenerProductosConYSinDescuento(rows, promos, now);
      multiset(RowsOf(con)) + multiset(sin) == multiset(rows)
    decreases |rows|
  {
    if rows != [] {
      var init, last := rows[..|rows| - 1], rows[|rows| - 1];
      DiscountPartition(init, promos, now);
      var conInit, sinInit := ConDescuento(init, promos, now), SinDescuento(init, promos, now);
      var first := FirstActive(promos, last.id, now);
      assert rows == init + [last];
      assert multiset(rows) == multiset(init) + multiset{last};
      if first.Some? {
        var x := ConPromocion(last, first.value);
        assert ConDescuento(rows, promos, now) == conInit + [x];
        assert SinDescuento(rows, promos, now) == sinInit;
        RowsOfAppend(conInit, x);
        assert multiset(RowsOf(conInit + [x])) == multiset(RowsOf(conInit)) + multiset{last};
      } else {
        assert ConDescuento(rows, promos, now) == conInit;
        assert SinDescuento(rows, promos, now) == sinInit + [last];
        assert multiset(sinInit + [last]) == multiset(sinInit) + multiset{last};
      }
    }
  }

  lemma RowsOfAppend(c: seq<ConPromocion>, x: ConPromocion)
    ensures RowsOf(c + [x]) == RowsOf(c) + [x.row]
  {
  }

  /** A product is in neither list twice over: the "with" list never holds a row the "without" list holds. */
  lemma DiscountListsDisjoint(rows: seq<ProductRow>, promos: seq<Promocion>, now: int)
    ensures var (con, sin) := ObtenerProductosConYSinDescuento(rows, promos, now);
      forall x :: x in con ==> x.row !in sin && Activa(x.promocion, now) && x.promocion.productoId == x.row.id
  {
  }
}
