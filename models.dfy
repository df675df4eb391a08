/** The rows of the shop (core/models.py): products, orders (`Pedido`) and
    order lines (`DetallePedido`), with the two quantities the engine keeps
    in step: an order's total, the sum of its lines' subtotals, and the units
    of a product reserved in open carts.  Prices are integer cents. */
module Models {
  import opened Ledger
  import opened Roles

  type ProductoId = nat
  type PedidoId = nat
  type DetalleId = nat

  datatype Option<T> = None | Some(value: T)

  /** The three states of `Pedido.estado`. */
  datatype Estado = Carrito | Pendiente | Entregado

  /** A product: its catalogue price and its stock.  The stock is a plain
      integer: the warehouse overwrite stores whatever it is given. */
  datatype Producto = Producto(precio: int, stock: int)

  datatype Pedido = Pedido(usuario: UserId, estado: Estado, total: int, cajeroEncargado: Option<UserId>)

  datatype DetallePedido = DetallePedido(pedido: PedidoId, producto: ProductoId, cantidad: int, precioUnitario: int)

  /** A new order: in the cart, with total 0 and no cashier. */
  function NuevoPedido(u: UserId): (p: Pedido)
    ensures p.usuario == u && p.estado == Carrito
    ensures p.total == 0 && p.cajeroEncargado.None?
  {
    Pedido(u, Carrito, 0, None)
  }

  /** A new line of order o for product p: one unit, at price `precio`. */
  function NuevoDetalle(o: PedidoId, p: ProductoId, precio: int): (d: DetallePedido)
    ensures d.pedido == o && d.producto == p
    ensures d.cantidad == 1 && d.precioUnitario == precio
    ensures Subtotal(d) == precio
  {
    DetallePedido(o, p, 1, precio)
  }

  /** `DetallePedido.subtotal`. */
  function Subtotal(d: DetallePedido): (r: int)
    ensures d.cantidad == 1 ==> r == d.precioUnitario
    ensures d.cantidad == 0 || d.precioUnitario == 0 ==> r == 0
    ensures d.cantidad >= 0 && d.precioUnitario >= 0 ==> r >= 0
  {
    d.cantidad * d.precioUnitario
  }

  type Productos = map<ProductoId, Producto>
  type Pedidos = map<PedidoId, Pedido>
  type Detalles = map<DetalleId, DetallePedido>

  // ---------------------------------------------------------------------
  // Order totals

  /** What line d contributes to the total of order o. */
  function Aporte(d: DetallePedido, o: PedidoId): int
  {
    if d.pedido == o then Subtotal(d) else 0
  }

  /** Every line's contribution to the total of order o. */
  function Aportes(lines: Detalles, o: PedidoId): map<DetalleId, int>
  {
    map k | k in lines :: Aporte(lines[k], o)
  }

  /** The sum of the subtotals of the lines of order o: the value
      `calcular_total` stores. */
  ghost function TotalDe(lines: Detalles, o: PedidoId): int
  {
    Sum(Aportes(lines, o))
  }

  /** Whether order o has at least one line (`detallepedido_set.exists()`). */
  predicate TieneDetalles(lines: Detalles, o: PedidoId)
  {
    exists k :: k in lines && lines[k].pedido == o
  }

  /** An order with no lines totals 0. */
  lemma TotalSinDetalles(lines: Detalles, o: PedidoId)
    requires !TieneDetalles(lines, o)
    ensures TotalDe(lines, o) == 0
  {
    SumZero(Aportes(lines, o));
  }

  /** Writing line k moves the total of order o by the change in k's
      contribution. */
  lemma TotalTrasEscribir(lines: Detalles, k: DetalleId, x: DetallePedido, o: PedidoId)
    ensures TotalDe(lines[k := x], o)
         == TotalDe(lines, o) - (if k in lines then Aporte(lines[k], o) else 0) + Aporte(x, o)
  {
    assert Aportes(lines[k := x], o) == Aportes(lines, o)[k := Aporte(x, o)];
    SumUpdate(Aportes(lines, o), k, Aporte(x, o));
  }

  /** Deleting line k takes its contribution out of the total of order o. */
  lemma TotalTrasBorrar(lines: Detalles, k: DetalleId, o: PedidoId)
    ensures TotalDe(lines - {k}, o) == TotalDe(lines, o) - (if k in lines then Aporte(lines[k], o) else 0)
  {
    assert Aportes(lines - {k}, o) == Aportes(lines, o) - {k};
    SumDelete(Aportes(lines, o), k);
  }

  /** One more, or one fewer, unit on line k of order o moves that order's
      total by exactly the line's unit price. */
  lemma TotalPorUnidad(lines: Detalles, k: DetalleId, o: PedidoId)
    requires k in lines && lines[k].pedido == o
    ensures TotalDe(lines[k := lines[k].(cantidad := lines[k].cantidad + 1)], o)
         == TotalDe(lines, o) + lines[k].precioUnitario
    ensures TotalDe(lines[k := lines[k].(cantidad := lines[k].cantidad - 1)], o)
         == TotalDe(lines, o) - lines[k].precioUnitario
  {
    var d := lines[k];
    SubtotalLineal(d, d.cantidad + 1);
    TotalTrasEscribir(lines, k, d.(cantidad := d.cantidad + 1), o);
    SubtotalLineal(d, d.cantidad - 1);
    TotalTrasEscribir(lines, k, d.(cantidad := d.cantidad - 1), o);
  }

  /** Subtotals are linear in the quantity. */
  lemma SubtotalLineal(d: DetallePedido, n: int)
    ensures Subtotal(d.(cantidad := n)) - Subtotal(d) == (n - d.cantidad) * d.precioUnitario
  {
  }

  /** Changing or deleting a line of order c leaves every other order's
      total as it was. */
  lemma OtrosTotalesIntactos(lines: Detalles, lines': Detalles, k: DetalleId, c: PedidoId)
    requires k in lines ==> lines[k].pedido == c
    requires lines' == lines - {k} || (k in lines' && lines'[k].pedido == c && lines' == lines[k := lines'[k]])
    ensures forall o :: o != c ==> TotalDe(lines', o) == TotalDe(lines, o)
  {
    forall o | o != c
      ensures TotalDe(lines', o) == TotalDe(lines, o)
    {
      if lines' == lines - {k} {
        TotalTrasBorrar(lines, k, o);
      } else {
        TotalTrasEscribir(lines, k, lines'[k], o);
      }
    }
  }

  // ---------------------------------------------------------------------
  // Stock reserved in carts

  /** The units that line d holds of product p while its order is a cart. */
  function EnCarrito(orders: Pedidos, d: DetallePedido, p: ProductoId): int
  {
    if d.producto == p && d.pedido in orders && orders[d.pedido].estado == Carrito then d.cantidad else 0
  }

  function EnCarritos(orders: Pedidos, lines: Detalles, p: ProductoId): map<DetalleId, int>
  {
    map k | k in lines :: EnCarrito(orders, lines[k], p)
  }

  /** The units of product p sitting in cart orders, across all users. */
  ghost function Reservado(orders: Pedidos, lines: Detalles, p: ProductoId): int
  {
    Sum(EnCarritos(orders, lines, p))
  }

  /** Writing line k moves the reservation of product p by the change in
      k's reserved units. */
  lemma ReservadoTrasEscribir(orders: Pedidos, lines: Detalles, k: DetalleId, x: DetallePedido, p: ProductoId)
    ensures Reservado(orders, lines[k := x], p)
         == Reservado(orders, lines, p) - (if k in lines then EnCarrito(orders, lines[k], p) else 0) + EnCarrito(orders, x, p)
  {
    assert EnCarritos(orders, lines[k := x], p) == EnCarritos(orders, lines, p)[k := EnCarrito(orders, x, p)];
    SumUpdate(EnCarritos(orders, lines, p), k, EnCarrito(orders, x, p));
  }

  /** Deleting line k takes its reserved units of p out of the reservation. */
  lemma ReservadoTrasBorrar(orders: Pedidos, lines: Detalles, k: DetalleId, p: ProductoId)
    ensures Reservado(orders, lines - {k}, p)
         == Reservado(orders, lines, p) - (if k in lines then EnCarrito(orders, lines[k], p) else 0)
  {
    assert EnCarritos(orders, lines - {k}, p) == EnCarritos(orders, lines, p) - {k};
    SumDelete(EnCarritos(orders, lines, p), k);
  }

  /** Which orders exist and which are carts matters to the reservation only
      through the orders that lines point to. */
  ghost predicate MismosCarritos(orders: Pedidos, orders': Pedidos, lines: Detalles)
  {
    forall k :: k in lines ==>
      ((lines[k].pedido in orders && orders[lines[k].pedido].estado == Carrito)
        <==> (lines[k].pedido in orders' && orders'[lines[k].pedido].estado == Carrito))
  }

  /** Changing orders that no line's cart status depends on (a new empty
      order, a total rewritten, an empty order deleted) leaves every
      reservation as it was. */
  lemma ReservadoMismosCarritos(orders: Pedidos, orders': Pedidos, lines: Detalles, p: ProductoId)
    requires MismosCarritos(orders, orders', lines)
    ensures Reservado(orders', lines, p) == Reservado(orders, lines, p)
  {
    assert EnCarritos(orders', lines, p) == EnCarritos(orders, lines, p);
  }

  // ---------------------------------------------------------------------
  // The sum in `calcular_total`

  /** Sums the subtotals of the lines of order o, one line at a time. */
  method SumarSubtotales(lines: Detalles, o: PedidoId) returns (total: int)
    ensures total == TotalDe(lines, o)
    ensures !TieneDetalles(lines, o) ==> total == 0
  {
    total := 0;
    var porSumar := lines.Keys;
    ghost var aportes := Aportes(lines, o);
    assert aportes.Keys == porSumar;
    while porSumar != {}
      invariant porSumar <= lines.Keys
      invariant total + SumOver(aportes, porSumar) == TotalDe(lines, o)
      invariant !TieneDetalles(lines, o) ==> total == 0
      decreases porSumar
    {
      var k :| k in porSumar;
      SumOverRemove(aportes, porSumar, k);
      if lines[k].pedido == o {
        total := total + Subtotal(lines[k]);
      }
      porSumar := porSumar - {k};
    }
  }
}
