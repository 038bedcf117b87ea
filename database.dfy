/**
  The database tables the four handlers read and write, as one object whose fields are the
  tables. Products are keyed by id; the other tables are sequences of rows in the order the
  database lists them.
*/
module Database {
  import opened Common

  /** A row of `Productos` (prices in cents). */
  datatype Producto = Producto(
    name: string,
    description: string,
    precio: int,
    sabor: string,
    tamano: int,
    stock: int)

  /** A row of `ImagenesProductos`. */
  datatype Imagen = Imagen(productoId: nat, imageUrl: string)

  /** A row of `Promocion`; dates are instants on an integer clock. */
  datatype Promocion = Promocion(
    titulo: string,
    descripcion: string,
    fechaInicio: int,
    fechaFin: Option<int>,
    descuento: int,
    activo: bool,
    productoId: nat)

  /** A row of `Carrito`: one product line of one user's live cart. */
  datatype CartRow = CartRow(usuarioId: nat, productoId: nat, cantidad: int)

  /** The order states the handlers name; every other state is `OtroEstado`. */
  datatype Estado = EnProceso | RecibidoCliente | OtroEstado(nombre: OtherStateName)

  /** A state name other than the two the handlers name. */
  type OtherStateName = s: string | s != "EN_PROCESO" && s != "RECIBIDO_CLIENTE" witness ""

  /** A row of `detallePedido`. */
  datatype LineaPedido = LineaPedido(productoId: nat, cantidad: int, precioUnitario: int)

  /** A row of `Pedidos` with its detail lines. */
  datatype Pedido = Pedido(
    id: nat,
    usuarioId: nat,
    fechaPedido: int,
    estado: Estado,
    total: int,
    detalle: seq<LineaPedido>)

  /** A row of `Sales`. */
  datatype Sale = Sale(productoId: nat, usuarioId: nat, cantidad: int, precioUnitario: int, total: int)

  /** A row of `Review`. */
  datatype Review = Review(id: nat, usuarioId: nat, productoId: nat, comment: string, rating: int)

  /** A row of `ReviewImage`. */
  datatype ReviewImage = ReviewImage(reviewId: nat, url: string)

  predicate ProductIdsBelow(productos: map<nat, Producto>, next: nat) {
    forall id :: id in productos ==> id < next
  }

  predicate ImagesKnown(imagenes: seq<Imagen>, productos: map<nat, Producto>) {
    forall i :: 0 <= i < |imagenes| ==> imagenes[i].productoId in productos
  }

  predicate OrdersNumbered(pedidos: seq<Pedido>) {
    forall i :: 0 <= i < |pedidos| ==> pedidos[i].id == i + 1
  }

  predicate ReviewsNumbered(reviews: seq<Review>) {
    forall i :: 0 <= i < |reviews| ==> reviews[i].id == i + 1
  }

  predicate ReviewImagesKnown(reviewImages: seq<ReviewImage>, reviewCount: nat) {
    forall i :: 0 <= i < |reviewImages| ==> 1 <= reviewImages[i].reviewId <= reviewCount
  }

  class Store {
    var productos: map<nat, Producto>
    var nextProductoId: nat
    var imagenes: seq<Imagen>
    var promociones: seq<Promocion>
    var carrito: seq<CartRow>
    var pedidos: seq<Pedido>
    var sales: seq<Sale>
    var reviews: seq<Review>
    var reviewImages: seq<ReviewImage>

    /**
      The invariants the handlers keep. Auto-increment keys: every product id was handed out before `nextProductoId`, orders
      and reviews are numbered 1, 2, ... in insertion order; every product image belongs to
      an existing product and every review image to an existing review.
    */
    ghost predicate Valid()
      reads this
    {
      && ProductIdsBelow(productos, nextProductoId)
      && ImagesKnown(imagenes, productos)
      && OrdersNumbered(pedidos)
      && ReviewsNumbered(reviews)
      && ReviewImagesKnown(reviewImages, |reviews|)
    }

    constructor ()
      ensures Valid()
      ensures productos == map[] && nextProductoId == 1
      ensures imagenes == [] && promociones == [] && carrito == []
      ensures pedidos == [] && sales == [] && reviews == [] && reviewImages == []
    {
      productos := map[];
      nextProductoId := 1;
      imagenes := [];
      promociones := [];
      carrito := [];
      pedidos := [];
      sales := [];
      reviews := [];
      reviewImages := [];
    }
  }
}
