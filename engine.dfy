/** The cart, order and stock engine behind the shop's page handlers
    (core/views.py), stated on a snapshot of the database: its invariants,
    the row lookups the handlers make, the row updates they are built from,
    and for each handler the state it leaves, with the lemmas that the
    handlers keep the invariants, conserve stock and move orders forward
    only. */
module Engine {
  import opened Ledger
  import opened Roles
  import opened Models

  /** The database: one map per table, keyed by primary key, and the next
      auto-increment keys of the two tables the engine inserts into. */
  datatype BaseDeDatos = BaseDeDatos(
    productos: Productos,
    pedidos: Pedidos,
    detalles: Detalles,
    siguientePedido: nat,
    siguienteDetalle: nat)

  predicate EsCarritoDe(p: Pedido, u: UserId)
  {
    p.usuario == u && p.estado == Carrito
  }

  // ---------------------------------------------------------------------
  // Invariants

  /** Every line points at an existing order and product and holds at least
      one unit. */
  ghost predicate ReferenciasValidas(t: BaseDeDatos)
  {
    forall k :: k in t.detalles ==>
      && t.detalles[k].pedido in t.pedidos
      && t.detalles[k].producto in t.productos
      && t.detalles[k].cantidad >= 1
  }

  /** Keys handed out so far are below the auto-increment counters. */
  ghost predicate ClavesEmitidas(t: BaseDeDatos)
  {
    && (forall o :: o in t.pedidos ==> o < t.siguientePedido)
    && (forall k :: k in t.detalles ==> k < t.siguienteDetalle)
  }

  /** A user has at most one order in the cart. */
  ghost predicate UnCarritoPorUsuario(pedidos: Pedidos)
  {
    forall a, b ::
      (a in pedidos && b in pedidos && pedidos[a].estado == Carrito && pedidos[b].estado == Carrito
       && pedidos[a].usuario == pedidos[b].usuario) ==> a == b
  }

  /** An order has at most one line per product. */
  ghost predicate UnDetallePorProducto(detalles: Detalles)
  {
    forall a, b ::
      (a in detalles && b in detalles && detalles[a].pedido == detalles[b].pedido
       && detalles[a].producto == detalles[b].producto) ==> a == b
  }

  /** The invariants about which rows exist. */
  ghost predicate Coherente(t: BaseDeDatos)
  {
    && ReferenciasValidas(t)
    && ClavesEmitidas(t)
    && UnCarritoPorUsuario(t.pedidos)
    && UnDetallePorProducto(t.detalles)
  }

  /** Every order outside `salvo` stores the sum of its lines' subtotals. */
  ghost predicate TotalesAlDia(t: BaseDeDatos, salvo: set<PedidoId>)
  {
    forall o {:trigger TotalDe(t.detalles, o)} :: o in t.pedidos && o !in salvo ==> t.pedidos[o].total == TotalDe(t.detalles, o)
  }

  /** Every cart order outside `salvo` has at least one line. */
  ghost predicate CarritosNoVacios(t: BaseDeDatos, salvo: set<PedidoId>)
  {
    forall o {:trigger TieneDetalles(t.detalles, o)} :: o in t.pedidos && o !in salvo && t.pedidos[o].estado == Carrito ==> TieneDetalles(t.detalles, o)
  }

  /** What holds between requests: the rows are coherent, every total is
      current, and no empty cart persists. */
  ghost predicate Consistente(t: BaseDeDatos)
  {
    Coherente(t) && TotalesAlDia(t, {}) && CarritosNoVacios(t, {})
  }

  /** Shelf stock plus stock reserved in carts: what adding to and removing
      from carts conserves. */
  ghost function Existencias(t: BaseDeDatos, q: ProductoId): int
    requires q in t.productos
  {
    t.productos[q].stock + Reservado(t.pedidos, t.detalles, q)
  }

  /** The order of the states: carrito, then pendiente, then entregado. */
  function Rango(e: Estado): (n: nat)
    ensures n <= 2
    ensures n == 0 <==> e == Carrito
    ensures n == 2 <==> e == Entregado
  {
    match e
    case Carrito => 0
    case Pendiente => 1
    case Entregado => 2
  }

  /** No order moves back towards the cart, and only cart orders are ever
      deleted. */
  ghost predicate SinRetroceso(antes: Pedidos, despues: Pedidos)
  {
    forall o :: o in antes ==>
      if o in despues then Rango(antes[o].estado) <= Rango(despues[o].estado) else antes[o].estado == Carrito
  }

  // ---------------------------------------------------------------------
  // Lookups

  /** The user's cart order, if there is one
      (`Pedido.objects.filter(usuario=u, estado='carrito').first()`, and the
      lookup half of `get_or_create`). */
  function CarritoDe(pedidos: Pedidos, u: UserId): (r: Option<PedidoId>)
    requires UnCarritoPorUsuario(pedidos)
    ensures r.Some? ==> r.value in pedidos && EsCarritoDe(pedidos[r.value], u)
    ensures r.None? ==> forall o :: o in pedidos ==> !EsCarritoDe(pedidos[o], u)
  {
    if exists o :: o in pedidos && EsCarritoDe(pedidos[o], u) then
      var o :| o in pedidos && EsCarritoDe(pedidos[o], u); Some(o)
    else
      None
  }

  /** The line of order o for product p, if there is one. */
  function DetalleDe(detalles: Detalles, o: PedidoId, p: ProductoId): (r: Option<DetalleId>)
    requires UnDetallePorProducto(detalles)
    ensures r.Some? ==> r.value in detalles && detalles[r.value].pedido == o && detalles[r.value].producto == p
    ensures r.None? ==> forall k :: k in detalles ==> !(detalles[k].pedido == o && detalles[k].producto == p)
  {
    if exists k :: k in detalles && detalles[k].pedido == o && detalles[k].producto == p then
      var k :| k in detalles && detalles[k].pedido == o && detalles[k].producto == p; Some(k)
    else
      None
  }

  /** Whether line k belongs to a cart order of user u (the filter of the
      `get_object_or_404` in `eliminar_del_carrito`). */
  predicate DetalleEnCarritoDe(t: BaseDeDatos, k: DetalleId, u: UserId)
  {
    k in t.detalles && t.detalles[k].pedido in t.pedidos && EsCarritoDe(t.pedidos[t.detalles[k].pedido], u)
  }

  // ---------------------------------------------------------------------
  // Row updates

  /** `Pedido.objects.get_or_create(usuario=u, estado='carrito')`: the
      user's cart order, created empty under the next key if missing. */
  function ObtenerCarrito(t: BaseDeDatos, u: UserId): (r: (BaseDeDatos, PedidoId))
    requires UnCarritoPorUsuario(t.pedidos)
    ensures r.1 in r.0.pedidos && EsCarritoDe(r.0.pedidos[r.1], u)
    ensures CarritoDe(t.pedidos, u).Some? ==> r == (t, CarritoDe(t.pedidos, u).value)
    ensures CarritoDe(t.pedidos, u).None? ==>
      && r.1 == t.siguientePedido
      && r.0 == t.(pedidos := t.pedidos[r.1 := NuevoPedido(u)], siguientePedido := r.1 + 1)
  {
    match CarritoDe(t.pedidos, u)
    case Some(c) => (t, c)
    case None =>
      var c := t.siguientePedido;
      (t.(pedidos := t.pedidos[c := NuevoPedido(u)], siguientePedido := c + 1), c)
  }

  /** `DetallePedido.objects.get_or_create(pedido=c, producto=p, defaults=
      {'precio_unitario': precio})`: the line, created with one unit at the
      product's current price if missing; the flag says whether it was
      created. */
  function ObtenerDetalle(t: BaseDeDatos, c: PedidoId, p: ProductoId): (r: (BaseDeDatos, DetalleId, bool))
    requires UnDetallePorProducto(t.detalles) && p in t.productos
    ensures r.1 in r.0.detalles && r.0.detalles[r.1].pedido == c && r.0.detalles[r.1].producto == p
    ensures r.0.productos == t.productos && r.0.pedidos == t.pedidos
    ensures r.0.siguientePedido == t.siguientePedido
    ensures !r.2 ==> r.0 == t
  {
    match DetalleDe(t.detalles, c, p)
    case Some(k) => (t, k, false)
    case None =>
      var k := t.siguienteDetalle;
      (t.(detalles := t.detalles[k := NuevoDetalle(c, p, t.productos[p].precio)], siguienteDetalle := k + 1), k, true)
  }

  /** `producto.stock = n; producto.save()`. */
  function ConStock(t: BaseDeDatos, p: ProductoId, n: int): BaseDeDatos
    requires p in t.productos
  {
    t.(productos := t.productos[p := t.productos[p].(stock := n)])
  }

  /** `item.cantidad = n; item.save()`. */
  function ConCantidad(t: BaseDeDatos, k: DetalleId, n: int): BaseDeDatos
    requires k in t.detalles
  {
    t.(detalles := t.detalles[k := t.detalles[k].(cantidad := n)])
  }

  /** `item.delete()`. */
  function BorrarDetalle(t: BaseDeDatos, k: DetalleId): BaseDeDatos
  {
    t.(detalles := t.detalles - {k})
  }

  /** `pedido.delete()`. */
  function BorrarPedido(t: BaseDeDatos, o: PedidoId): BaseDeDatos
  {
    t.(pedidos := t.pedidos - {o})
  }

  /** `Pedido.calcular_total`: store the sum of the order's subtotals. */
  ghost function RecalcularTotal(t: BaseDeDatos, o: PedidoId): BaseDeDatos
    requires o in t.pedidos
  {
    t.(pedidos := t.pedidos[o := t.pedidos[o].(total := TotalDe(t.detalles, o))])
  }

  /** `pedido.estado = e` (and, on dispatch, the cashier) with `save()`. */
  function ConEstado(t: BaseDeDatos, o: PedidoId, e: Estado, cajero: Option<UserId>): BaseDeDatos
    requires o in t.pedidos
  {
    t.(pedidos := t.pedidos[o := t.pedidos[o].(estado := e, cajeroEncargado := cajero)])
  }

  // ---------------------------------------------------------------------
  // What each step keeps

  /** Creating an empty cart order changes no reservation. */
  lemma ObtenerCarritoReserva(t: BaseDeDatos, u: UserId, q: ProductoId)
    requires Coherente(t)
    ensures var t1 := ObtenerCarrito(t, u).0;
      Reservado(t1.pedidos, t1.detalles, q) == Reservado(t.pedidos, t.detalles, q)
  {
    var t1 := ObtenerCarrito(t, u).0;
    assert MismosCarritos(t.pedidos, t1.pedidos, t.detalles);
    ReservadoMismosCarritos(t.pedidos, t1.pedidos, t.detalles, q);
  }

  /** Creating the line of a cart order reserves its one unit. */
  lemma ObtenerDetalleReserva(t: BaseDeDatos, c: PedidoId, p: ProductoId, q: ProductoId)
    requires Coherente(t) && c in t.pedidos && t.pedidos[c].estado == Carrito && p in t.productos
    ensures var (t1, k, creado) := ObtenerDetalle(t, c, p);
      Reservado(t1.pedidos, t1.detalles, q) == Reservado(t.pedidos, t.detalles, q) + (if creado && q == p then 1 else 0)
  {
    var (t1, k, creado) := ObtenerDetalle(t, c, p);
    if creado {
      assert k !in t.detalles;
      ReservadoTrasEscribir(t.pedidos, t.detalles, k, t1.detalles[k], q);
    }
  }

  /** Setting the quantity of a line of a cart order moves the reservation
      of its product by the change in quantity. */
  lemma ConCantidadReserva(t: BaseDeDatos, k: DetalleId, n: int, q: ProductoId)
    requires k in t.detalles && t.detalles[k].pedido in t.pedidos && t.pedidos[t.detalles[k].pedido].estado == Carrito
    ensures var t1 := ConCantidad(t, k, n);
      Reservado(t1.pedidos, t1.detalles, q)
      == Reservado(t.pedidos, t.detalles, q) + (if q == t.detalles[k].producto then n - t.detalles[k].cantidad else 0)
  {
    var t1 := ConCantidad(t, k, n);
    ReservadoTrasEscribir(t.pedidos, t.detalles, k, t1.detalles[k], q);
  }

  /** Deleting a line of a cart order releases its units. */
  lemma BorrarDetalleReserva(t: BaseDeDatos, k: DetalleId, q: ProductoId)
    requires k in t.detalles && t.detalles[k].pedido in t.pedidos && t.pedidos[t.detalles[k].pedido].estado == Carrito
    ensures var t1 := BorrarDetalle(t, k);
      Reservado(t1.pedidos, t1.detalles, q)
      == Reservado(t.pedidos, t.detalles, q) - (if q == t.detalles[k].producto then t.detalles[k].cantidad else 0)
  {
    ReservadoTrasBorrar(t.pedidos, t.detalles, k, q);
  }

  /** Deleting an order no line points at changes no reservation. */
  lemma BorrarPedidoReserva(t: BaseDeDatos, c: PedidoId, q: ProductoId)
    requires !TieneDetalles(t.detalles, c)
    ensures var t1 := BorrarPedido(t, c);
      Reservado(t1.pedidos, t1.detalles, q) == Reservado(t.pedidos, t.detalles, q)
  {
    var t1 := BorrarPedido(t, c);
    assert MismosCarritos(t.pedidos, t1.pedidos, t.detalles);
    ReservadoMismosCarritos(t.pedidos, t1.pedidos, t.detalles, q);
  }

  /** Recomputing a total changes no reservation. */
  lemma RecalcularTotalReserva(t: BaseDeDatos, c: PedidoId, q: ProductoId)
    requires c in t.pedidos
    ensures var t1 := RecalcularTotal(t, c);
      Reservado(t1.pedidos, t1.detalles, q) == Reservado(t.pedidos, t.detalles, q)
  {
    var t1 := RecalcularTotal(t, c);
    assert MismosCarritos(t.pedidos, t1.pedidos, t.detalles);
    ReservadoMismosCarritos(t.pedidos, t1.pedidos, t.detalles, q);
  }

  lemma ObtenerCarritoCoherente(t: BaseDeDatos, u: UserId)
    requires Coherente(t)
    ensures Coherente(ObtenerCarrito(t, u).0)
  {
  }

  lemma ObtenerCarritoMantiene(t: BaseDeDatos, u: UserId)
    requires Consistente(t)
    ensures var (t1, c) := ObtenerCarrito(t, u);
      && Coherente(t1) && TotalesAlDia(t1, {}) && CarritosNoVacios(t1, {c})
      && MismosCarritos(t.pedidos, t1.pedidos, t.detalles)
      && SinRetroceso(t.pedidos, t1.pedidos)
  {
    var (t1, c) := ObtenerCarrito(t, u);
    if CarritoDe(t.pedidos, u).None? {
      assert c !in t.pedidos;
      assert !TieneDetalles(t.detalles, c);
      TotalSinDetalles(t.detalles, c);
    }
  }

  lemma ObtenerDetalleMantiene(t: BaseDeDatos, c: PedidoId, p: ProductoId)
    requires Coherente(t) && c in t.pedidos && t.pedidos[c].estado == Carrito && p in t.productos
    requires TotalesAlDia(t, {c}) && CarritosNoVacios(t, {c})
    ensures var (t1, k, creado) := ObtenerDetalle(t, c, p);
      && Coherente(t1) && TotalesAlDia(t1, {c}) && CarritosNoVacios(t1, {c})
      && (creado ==> t1.detalles == t.detalles[k := NuevoDetalle(c, p, t.productos[p].precio)])
  {
    var (t1, k, creado) := ObtenerDetalle(t, c, p);
    if creado {
      assert k !in t.detalles;
      OtrosTotalesIntactos(t.detalles, t1.detalles, k, c);
      forall o | o in t1.pedidos && o != c && t1.pedidos[o].estado == Carrito
        ensures TieneDetalles(t1.detalles, o)
      {
        assert TieneDetalles(t.detalles, o);
        var w :| w in t.detalles && t.detalles[w].pedido == o;
        assert w in t1.detalles && t1.detalles[w].pedido == o;
      }
    }
  }

  lemma ConCantidadMantiene(t: BaseDeDatos, k: DetalleId, n: int)
    requires Coherente(t) && k in t.detalles && n >= 1
    requires TotalesAlDia(t, {t.detalles[k].pedido}) && CarritosNoVacios(t, {t.detalles[k].pedido})
    ensures var t1 := ConCantidad(t, k, n);
      && Coherente(t1)
      && TotalesAlDia(t1, {t.detalles[k].pedido}) && CarritosNoVacios(t1, {t.detalles[k].pedido})
  {
    var t1 := ConCantidad(t, k, n);
    var c := t.detalles[k].pedido;
    OtrosTotalesIntactos(t.detalles, t1.detalles, k, c);
    forall o | o in t1.pedidos && o != c && t1.pedidos[o].estado == Carrito
      ensures TieneDetalles(t1.detalles, o)
    {
      assert TieneDetalles(t.detalles, o);
      var w :| w in t.detalles && t.detalles[w].pedido == o;
      assert w in t1.detalles && t1.detalles[w].pedido == o;
    }
  }

  lemma BorrarDetalleMantiene(t: BaseDeDatos, k: DetalleId)
    requires Coherente(t) && k in t.detalles
    requires TotalesAlDia(t, {t.detalles[k].pedido}) && CarritosNoVacios(t, {})
    ensures var t1 := BorrarDetalle(t, k);
      && Coherente(t1)
      && TotalesAlDia(t1, {t.detalles[k].pedido}) && CarritosNoVacios(t1, {t.detalles[k].pedido})
  {
    var t1 := BorrarDetalle(t, k);
    var c := t.detalles[k].pedido;
    OtrosTotalesIntactos(t.detalles, t1.detalles, k, c);
    forall o | o in t1.pedidos && o != c && t1.pedidos[o].estado == Carrito
      ensures TieneDetalles(t1.detalles, o)
    {
      assert TieneDetalles(t.detalles, o);
      var w :| w in t.detalles && t.detalles[w].pedido == o;
      assert w in t1.detalles && t1.detalles[w].pedido == o;
    }
  }

  lemma RecalcularTotalMantiene(t: BaseDeDatos, c: PedidoId, salvo: set<PedidoId>)
    requires Coherente(t) && c in t.pedidos
    requires TotalesAlDia(t, {c}) && CarritosNoVacios(t, salvo)
    ensures var t1 := RecalcularTotal(t, c);
      && Coherente(t1) && TotalesAlDia(t1, {}) && CarritosNoVacios(t1, salvo)
      && MismosCarritos(t.pedidos, t1.pedidos, t.detalles)
      && SinRetroceso(t.pedidos, t1.pedidos)
  {
  }

  lemma BorrarPedidoMantiene(t: BaseDeDatos, c: PedidoId)
    requires Coherente(t) && TotalesAlDia(t, {}) && CarritosNoVacios(t, {c})
    requires c in t.pedidos && t.pedidos[c].estado == Carrito && !TieneDetalles(t.detalles, c)
    ensures var t1 := BorrarPedido(t, c);
      && Consistente(t1)
      && MismosCarritos(t.pedidos, t1.pedidos, t.detalles)
      && SinRetroceso(t.pedidos, t1.pedidos)
  {
    var t1 := BorrarPedido(t, c);
    forall k | k in t1.detalles
      ensures t1.detalles[k].pedido in t1.pedidos
    {
      assert t.detalles[k].pedido != c;
    }
  }

  /** Moving an order out of the cart keeps every invariant. */
  lemma ConEstadoMantiene(t: BaseDeDatos, o: PedidoId, e: Estado, cajero: Option<UserId>)
    requires Consistente(t) && o in t.pedidos && e != Carrito
    ensures var t1 := ConEstado(t, o, e, cajero);
      && Consistente(t1)
      && (Rango(t.pedidos[o].estado) <= Rango(e) ==> SinRetroceso(t.pedidos, t1.pedidos))
  {
  }

  // ---------------------------------------------------------------------
  // The handlers

  datatype RespuestaAgregar = ProductoNoEncontrado | Agotado | Agregado(quedan: int)
  datatype RespuestaEliminar = DetalleNoEncontrado | UnidadQuitada | DetalleEliminado
  datatype RespuestaConfirmar = Realizado | CarritoVacio
  datatype RespuestaDespachar = DespachoDenegado | PedidoNoEncontrado | Despachado
  datatype RespuestaStock = StockDenegado | StockNoEncontrado | StockSinCambios | StockActualizado(valor: int)
  datatype RespuestaFactura = FacturaNoEncontrada | FacturaNoEntregada | FacturaLista

  /** `agregar_al_carrito`: user u takes one unit of product p. */
  ghost function Agregar(t: BaseDeDatos, u: UserId, p: ProductoId): (r: (BaseDeDatos, RespuestaAgregar))
    requires Coherente(t)
    ensures r.1.Agregado? <==> p in t.productos && t.productos[p].stock > 0
    ensures !r.1.Agregado? ==> r.0 == t
  {
    if p !in t.productos then (t, ProductoNoEncontrado)
    else if t.productos[p].stock <= 0 then (t, Agotado)
    else
      var (t1, c) := ObtenerCarrito(t, u);
      var (t2, k, creado) := ObtenerDetalle(t1, c, p);
      var t3 := ConStock(t2, p, t2.productos[p].stock - 1);
      var t4 := if creado then t3 else ConCantidad(t3, k, t3.detalles[k].cantidad + 1);
      (RecalcularTotal(t4, c), Agregado(t3.productos[p].stock))
  }

  /** Writing a product's stock touches no order and no line, so every
      invariant that held still holds. */
  lemma ConStockMantiene(t: BaseDeDatos, p: ProductoId, n: int, salvo: set<PedidoId>)
    requires Coherente(t) && p in t.productos
    requires TotalesAlDia(t, salvo) && CarritosNoVacios(t, salvo)
    ensures var t1 := ConStock(t, p, n);
      && Coherente(t1) && TotalesAlDia(t1, salvo) && CarritosNoVacios(t1, salvo)
      && t1.pedidos == t.pedidos && t1.detalles == t.detalles
  {
  }

  /** Adding keeps every invariant and moves no order backwards. */
  lemma AgregarMantiene(t: BaseDeDatos, u: UserId, p: ProductoId)
    requires Consistente(t)
    ensures Consistente(Agregar(t, u, p).0)
    ensures SinRetroceso(t.pedidos, Agregar(t, u, p).0.pedidos)
  {
    if p in t.productos && t.productos[p].stock > 0 {
      var (t1, c) := ObtenerCarrito(t, u);
      ObtenerCarritoMantiene(t, u);
      var (t2, k, creado) := ObtenerDetalle(t1, c, p);
      var t3 := ConStock(t2, p, t2.productos[p].stock - 1);
      var t4 := if creado then t3 else ConCantidad(t3, k, t3.detalles[k].cantidad + 1);
      ObtenerDetalleMantiene(t1, c, p);
      ConStockMantiene(t2, p, t2.productos[p].stock - 1, {c});
      if !creado {
        ConCantidadMantiene(t3, k, t3.detalles[k].cantidad + 1);
      }
      assert k in t4.detalles && t4.detalles[k].pedido == c;
      assert TieneDetalles(t4.detalles, c);
      assert t4.pedidos == t1.pedidos;
      RecalcularTotalMantiene(t4, c, {});
      assert Agregar(t, u, p).0 == RecalcularTotal(t4, c);
    }
  }

  /** Adding conserves shelf-plus-cart stock of every product: the unit
      that leaves the shelf is the unit that enters the cart. */
  lemma AgregarConserva(t: BaseDeDatos, u: UserId, p: ProductoId, q: ProductoId)
    requires Coherente(t) && q in t.productos
    ensures q in Agregar(t, u, p).0.productos
    ensures Existencias(Agregar(t, u, p).0, q) == Existencias(t, q)
  {
    if p in t.productos && t.productos[p].stock > 0 {
      var (t1, c) := ObtenerCarrito(t, u);
      var (t2, k, creado) := ObtenerDetalle(t1, c, p);
      var t3 := ConStock(t2, p, t2.productos[p].stock - 1);
      var t4 := if creado then t3 else ConCantidad(t3, k, t3.detalles[k].cantidad + 1);
      ObtenerCarritoReserva(t, u, q);
      assert Coherente(t1) by { ObtenerCarritoCoherente(t, u); }
      ObtenerDetalleReserva(t1, c, p, q);
      if !creado {
        ConCantidadReserva(t3, k, t3.detalles[k].cantidad + 1, q);
      }
      RecalcularTotalReserva(t4, c, q);
    }
  }

  /** Adding a product that is missing or out of stock changes nothing. */
  lemma AgregarSinStock(t: BaseDeDatos, u: UserId, p: ProductoId)
    requires Coherente(t)
    requires p !in t.productos || t.productos[p].stock <= 0
    ensures Agregar(t, u, p).0 == t
    ensures Agregar(t, u, p).1 == if p in t.productos then Agotado else ProductoNoEncontrado
  {
  }

  /** The tables adding leaves, statement by statement: the cart found or
      created, the line found or created, one unit off the shelf. */
  lemma AgregarTablas(t: BaseDeDatos, u: UserId, p: ProductoId)
    requires Coherente(t)
    requires p in t.productos && t.productos[p].stock > 0
    ensures var (t1, c) := ObtenerCarrito(t, u);
      var (t', r) := Agregar(t, u, p);
      && r == Agregado(t.productos[p].stock - 1)
      && t'.productos == t.productos[p := t.productos[p].(stock := t.productos[p].stock - 1)]
      && t'.pedidos == t1.pedidos[c := t1.pedidos[c].(total := TotalDe(t'.detalles, c))]
      && match DetalleDe(t.detalles, c, p)
         case Some(k) =>
           t'.detalles == t.detalles[k := t.detalles[k].(cantidad := t.detalles[k].cantidad + 1)]
         case None =>
           t'.detalles == t.detalles[t.siguienteDetalle := NuevoDetalle(c, p, t.productos[p].precio)]
  {
    ObtenerCarritoCoherente(t, u);
  }

  /** Adding a product in stock takes exactly one unit from its stock into
      the user's one cart order, created if missing: the cart's line for the
      product is created with one unit at the current price, or gains one
      unit and keeps the price it was created with. */
  lemma AgregarUnaUnidad(t: BaseDeDatos, u: UserId, p: ProductoId)
    requires Coherente(t)
    requires p in t.productos && t.productos[p].stock > 0
    ensures UnCarritoPorUsuario(Agregar(t, u, p).0.pedidos)
    ensures var (t', r) := Agregar(t, u, p);
      && r == Agregado(t.productos[p].stock - 1)
      && t'.productos == t.productos[p := t.productos[p].(stock := t.productos[p].stock - 1)]
      && CarritoDe(t'.pedidos, u).Some?
      && var c := CarritoDe(t'.pedidos, u).value;
         && (CarritoDe(t.pedidos, u).Some? ==> c == CarritoDe(t.pedidos, u).value)
         && (CarritoDe(t.pedidos, u).None? ==> c == t.siguientePedido && c !in t.pedidos)
         && t'.pedidos[c].total == TotalDe(t'.detalles, c)
         && t'.pedidos.Keys == t.pedidos.Keys + {c}
         && (forall o :: o in t.pedidos && o != c ==> t'.pedidos[o] == t.pedidos[o])
         && match DetalleDe(t.detalles, c, p)
            case Some(k) =>
              t'.detalles == t.detalles[k := t.detalles[k].(cantidad := t.detalles[k].cantidad + 1)]
            case None =>
              && t.siguienteDetalle !in t.detalles
              && t'.detalles == t.detalles[t.siguienteDetalle := NuevoDetalle(c, p, t.productos[p].precio)]
  {
    var (t1, c) := ObtenerCarrito(t, u);
    ObtenerCarritoCoherente(t, u);
    AgregarTablas(t, u, p);
    var t' := Agregar(t, u, p).0;
    assert UnCarritoPorUsuario(t'.pedidos);
    assert c in t'.pedidos && EsCarritoDe(t'.pedidos[c], u);
    assert CarritoDe(t'.pedidos, u) == Some(c);
    if CarritoDe(t.pedidos, u).None? {
      assert DetalleDe(t.detalles, c, p).None? by {
        assert forall k :: k in t.detalles ==> t.detalles[k].pedido != c;
      }
    }
  }

  /** Adding to an existing cart raises its total by exactly one unit
      price: the price captured on the line, or the product's current price
      for a new line. */
  lemma AgregarSubeTotal(t: BaseDeDatos, u: UserId, p: ProductoId)
    requires Coherente(t) && TotalesAlDia(t, {})
    requires p in t.productos && t.productos[p].stock > 0 && CarritoDe(t.pedidos, u).Some?
    ensures var c := CarritoDe(t.pedidos, u).value;
      var t' := Agregar(t, u, p).0;
      && c in t'.pedidos
      && t'.pedidos[c].total == t.pedidos[c].total + match DetalleDe(t.detalles, c, p)
           case Some(k) => t.detalles[k].precioUnitario
           case None => t.productos[p].precio
  {
    var c := CarritoDe(t.pedidos, u).value;
    AgregarUnaUnidad(t, u, p);
    assert t.pedidos[c].total == TotalDe(t.detalles, c);
    match DetalleDe(t.detalles, c, p) {
      case Some(k) =>
        TotalPorUnidad(t.detalles, k, c);
      case None =>
        TotalTrasEscribir(t.detalles, t.siguienteDetalle, NuevoDetalle(c, p, t.productos[p].precio), c);
    }
  }

  /** The first half of `eliminar_del_carrito` on line k: its unit goes
      back to the shelf, then the line loses one unit if it has more than
      one and is deleted otherwise. */
  function QuitarUnidad(t: BaseDeDatos, k: DetalleId): (r: (BaseDeDatos, RespuestaEliminar))
    requires k in t.detalles && t.detalles[k].producto in t.productos
    ensures r.1 == UnidadQuitada <==> t.detalles[k].cantidad > 1
    ensures r.1 == DetalleEliminado <==> t.detalles[k].cantidad <= 1
    ensures r.0.pedidos == t.pedidos && r.0.productos.Keys == t.productos.Keys
  {
    var item := t.detalles[k];
    var t1 := ConStock(t, item.producto, t.productos[item.producto].stock + 1);
    if item.cantidad > 1 then (ConCantidad(t1, k, item.cantidad - 1), UnidadQuitada)
    else (BorrarDetalle(t1, k), DetalleEliminado)
  }

  /** The second half: the cart's total is recomputed, and a cart left with
      no line is deleted. */
  ghost function CerrarCarrito(t: BaseDeDatos, c: PedidoId): (r: BaseDeDatos)
    requires c in t.pedidos
    ensures r.productos == t.productos && r.detalles == t.detalles
  {
    var t1 := RecalcularTotal(t, c);
    if TieneDetalles(t1.detalles, c) then t1 else BorrarPedido(t1, c)
  }

  /** `eliminar_del_carrito`: user u returns one unit of line k. */
  ghost function Eliminar(t: BaseDeDatos, u: UserId, k: DetalleId): (r: (BaseDeDatos, RespuestaEliminar))
    requires Coherente(t)
    ensures r.1 == DetalleNoEncontrado <==> !DetalleEnCarritoDe(t, k, u)
    ensures r.1 == DetalleNoEncontrado ==> r.0 == t
  {
    if !DetalleEnCarritoDe(t, k, u) then (t, DetalleNoEncontrado)
    else
      var (t1, r) := QuitarUnidad(t, k);
      match CarritoDe(t1.pedidos, u)
      case None => (t1, r)
      case Some(c) => (CerrarCarrito(t1, c), r)
  }

  lemma QuitarUnidadMantiene(t: BaseDeDatos, k: DetalleId)
    requires Consistente(t) && k in t.detalles
    ensures var t1 := QuitarUnidad(t, k).0;
      && Coherente(t1) && TotalesAlDia(t1, {t.detalles[k].pedido}) && CarritosNoVacios(t1, {t.detalles[k].pedido})
      && t1.pedidos == t.pedidos
  {
    var item := t.detalles[k];
    var t1 := ConStock(t, item.producto, t.productos[item.producto].stock + 1);
    if item.cantidad > 1 {
      ConCantidadMantiene(t1, k, item.cantidad - 1);
    } else {
      BorrarDetalleMantiene(t1, k);
    }
  }

  lemma QuitarUnidadReserva(t: BaseDeDatos, k: DetalleId, q: ProductoId)
    requires Coherente(t) && k in t.detalles && t.pedidos[t.detalles[k].pedido].estado == Carrito && q in t.productos
    ensures var t1 := QuitarUnidad(t, k).0;
      q in t1.productos && Existencias(t1, q) == Existencias(t, q)
  {
    var item := t.detalles[k];
    var t1 := ConStock(t, item.producto, t.productos[item.producto].stock + 1);
    if item.cantidad > 1 {
      ConCantidadReserva(t1, k, item.cantidad - 1, q);
    } else {
      BorrarDetalleReserva(t1, k, q);
    }
  }

  lemma CerrarCarritoMantiene(t: BaseDeDatos, c: PedidoId)
    requires Coherente(t) && c in t.pedidos && t.pedidos[c].estado == Carrito
    requires TotalesAlDia(t, {c}) && CarritosNoVacios(t, {c})
    ensures Consistente(CerrarCarrito(t, c))
    ensures SinRetroceso(t.pedidos, CerrarCarrito(t, c).pedidos)
  {
    var t1 := RecalcularTotal(t, c);
    RecalcularTotalMantiene(t, c, {c});
    if !TieneDetalles(t1.detalles, c) {
      BorrarPedidoMantiene(t1, c);
      assert forall o :: o in t1.pedidos ==> t1.pedidos[o].estado == t.pedidos[o].estado;
    }
  }

  lemma CerrarCarritoReserva(t: BaseDeDatos, c: PedidoId, q: ProductoId)
    requires c in t.pedidos && q in t.productos
    ensures q in CerrarCarrito(t, c).productos
    ensures Existencias(CerrarCarrito(t, c), q) == Existencias(t, q)
  {
    var t1 := RecalcularTotal(t, c);
    RecalcularTotalReserva(t, c, q);
    if !TieneDetalles(t1.detalles, c) {
      BorrarPedidoReserva(t1, c, q);
    }
  }

  /** Removing keeps every invariant and moves no order backwards; in
      particular a cart left without lines is deleted. */
  lemma EliminarMantiene(t: BaseDeDatos, u: UserId, k: DetalleId)
    requires Consistente(t)
    ensures Consistente(Eliminar(t, u, k).0)
    ensures SinRetroceso(t.pedidos, Eliminar(t, u, k).0.pedidos)
  {
    if DetalleEnCarritoDe(t, k, u) {
      var c := t.detalles[k].pedido;
      var t1 := QuitarUnidad(t, k).0;
      QuitarUnidadMantiene(t, k);
      assert CarritoDe(t1.pedidos, u) == Some(c);
      CerrarCarritoMantiene(t1, c);
    }
  }

  /** Removing conserves shelf-plus-cart stock of every product: the unit
      that leaves the cart is the unit that returns to the shelf, whether
      the line loses one unit or is deleted. */
  lemma EliminarConserva(t: BaseDeDatos, u: UserId, k: DetalleId, q: ProductoId)
    requires Coherente(t) && q in t.productos
    ensures q in Eliminar(t, u, k).0.productos
    ensures Existencias(Eliminar(t, u, k).0, q) == Existencias(t, q)
  {
    if DetalleEnCarritoDe(t, k, u) {
      var c := t.detalles[k].pedido;
      var t1 := QuitarUnidad(t, k).0;
      QuitarUnidadReserva(t, k, q);
      assert t1.pedidos == t.pedidos;
      assert CarritoDe(t1.pedidos, u) == Some(c);
      CerrarCarritoReserva(t1, c, q);
    }
  }

  /** Removing a unit of a line in the user's cart returns exactly one unit
      to the product's stock, and the line loses one unit if it had more
      than one and is deleted otherwise. */
  lemma EliminarDevuelveUna(t: BaseDeDatos, u: UserId, k: DetalleId)
    requires Coherente(t) && DetalleEnCarritoDe(t, k, u)
    ensures var (t', r) := Eliminar(t, u, k);
      var item := t.detalles[k];
      && t'.productos == t.productos[item.producto := t.productos[item.producto].(stock := t.productos[item.producto].stock + 1)]
      && (item.cantidad > 1 ==> r == UnidadQuitada && t'.detalles == t.detalles[k := item.(cantidad := item.cantidad - 1)])
      && (item.cantidad <= 1 ==> item.cantidad == 1 && r == DetalleEliminado && t'.detalles == t.detalles - {k})
  {
    var t1 := QuitarUnidad(t, k).0;
    assert CarritoDe(t1.pedidos, u) == Some(t.detalles[k].pedido);
  }

  /** Closing the user's cart leaves it with lines and a current total,
      changed in nothing else, or deletes it and leaves the user without a
      cart. */
  lemma CerrarCarritoEfecto(t: BaseDeDatos, c: PedidoId, u: UserId)
    requires UnCarritoPorUsuario(t.pedidos) && c in t.pedidos && EsCarritoDe(t.pedidos[c], u)
    ensures UnCarritoPorUsuario(CerrarCarrito(t, c).pedidos)
    ensures var t' := CerrarCarrito(t, c);
      && (TieneDetalles(t'.detalles, c) ==>
            c in t'.pedidos && EsCarritoDe(t'.pedidos[c], u) && t'.pedidos[c].total == TotalDe(t'.detalles, c))
      && (!TieneDetalles(t'.detalles, c) ==> c !in t'.pedidos && CarritoDe(t'.pedidos, u).None?)
      && (c in t'.pedidos ==> t'.pedidos[c] == t.pedidos[c].(total := TotalDe(t'.detalles, c)))
      && t'.pedidos.Keys <= t.pedidos.Keys
      && (forall o :: o in t.pedidos && o != c ==> o in t'.pedidos && t'.pedidos[o] == t.pedidos[o])
  {
    var t1 := RecalcularTotal(t, c);
    assert UnCarritoPorUsuario(t1.pedidos);
    if !TieneDetalles(t1.detalles, c) {
      CarritoBorrado(t1.pedidos, t1.pedidos - {c}, c, u);
    }
  }

  /** After a removal from the user's cart, the cart either still has
      lines and a current total, changed in nothing else, or no longer
      exists and the user has no cart. */
  lemma EliminarCierraCarrito(t: BaseDeDatos, u: UserId, k: DetalleId)
    requires Coherente(t) && DetalleEnCarritoDe(t, k, u)
    ensures UnCarritoPorUsuario(Eliminar(t, u, k).0.pedidos)
    ensures var t' := Eliminar(t, u, k).0;
      var c := t.detalles[k].pedido;
      && (TieneDetalles(t'.detalles, c) ==>
            c in t'.pedidos && EsCarritoDe(t'.pedidos[c], u) && t'.pedidos[c].total == TotalDe(t'.detalles, c))
      && (!TieneDetalles(t'.detalles, c) ==> c !in t'.pedidos && CarritoDe(t'.pedidos, u).None?)
      && (c in t'.pedidos ==> t'.pedidos[c] == t.pedidos[c].(total := TotalDe(t'.detalles, c)))
      && t'.pedidos.Keys <= t.pedidos.Keys
      && (forall o :: o in t.pedidos && o != c ==> o in t'.pedidos && t'.pedidos[o] == t.pedidos[o])
  {
    var c := t.detalles[k].pedido;
    var t1 := QuitarUnidad(t, k).0;
    assert t1.pedidos == t.pedidos;
    assert CarritoDe(t1.pedidos, u) == Some(c);
    CerrarCarritoEfecto(t1, c, u);
  }

  /** A removal that leaves the cart in place lowers its total by exactly
      the line's unit price. */
  lemma EliminarBajaTotal(t: BaseDeDatos, u: UserId, k: DetalleId)
    requires Coherente(t) && TotalesAlDia(t, {}) && DetalleEnCarritoDe(t, k, u)
    ensures var c := t.detalles[k].pedido;
      var t' := Eliminar(t, u, k).0;
      c in t'.pedidos ==> t'.pedidos[c].total == t.pedidos[c].total - t.detalles[k].precioUnitario
  {
    var c := t.detalles[k].pedido;
    var item := t.detalles[k];
    EliminarDevuelveUna(t, u, k);
    EliminarCierraCarrito(t, u, k);
    assert t.pedidos[c].total == TotalDe(t.detalles, c);
    if item.cantidad > 1 {
      TotalPorUnidad(t.detalles, k, c);
    } else {
      TotalTrasBorrar(t.detalles, k, c);
    }
  }

  /** Deleting the user's one cart order leaves the user without a cart. */
  lemma CarritoBorrado(pedidos: Pedidos, pedidos': Pedidos, c: PedidoId, u: UserId)
    requires UnCarritoPorUsuario(pedidos) && c in pedidos && EsCarritoDe(pedidos[c], u)
    requires pedidos' == pedidos - {c}
    ensures UnCarritoPorUsuario(pedidos') && CarritoDe(pedidos', u).None?
  {
  }

  /** A line that is missing, another user's, or not in a cart is not
      found, and nothing changes. */
  lemma EliminarAjeno(t: BaseDeDatos, u: UserId, k: DetalleId)
    requires Coherente(t) && !DetalleEnCarritoDe(t, k, u)
    ensures Eliminar(t, u, k) == (t, DetalleNoEncontrado)
  {
  }

  /** `confirmar_pedido`: the user's cart order, if it exists and has
      lines, becomes pending. */
  function Confirmar(t: BaseDeDatos, u: UserId): (r: (BaseDeDatos, RespuestaConfirmar))
    requires Coherente(t)
    ensures r.1 == CarritoVacio ==> r.0 == t
    ensures r.0.productos == t.productos && r.0.detalles == t.detalles && r.0.pedidos.Keys == t.pedidos.Keys
  {
    match CarritoDe(t.pedidos, u)
    case Some(c) =>
      if TieneDetalles(t.detalles, c) then (ConEstado(t, c, Pendiente, t.pedidos[c].cajeroEncargado), Realizado)
      else (t, CarritoVacio)
    case None => (t, CarritoVacio)
  }

  /** Checkout succeeds exactly when the user has a cart order with at
      least one line: that order alone becomes pending and the user is left
      without a cart.  Otherwise nothing changes.  Where no empty cart
      persists, success is exactly having a cart. */
  lemma ConfirmarEfecto(t: BaseDeDatos, u: UserId)
    requires Coherente(t)
    ensures UnCarritoPorUsuario(Confirmar(t, u).0.pedidos)
    ensures var (t', r) := Confirmar(t, u);
      && (r == Realizado <==> CarritoDe(t.pedidos, u).Some? && TieneDetalles(t.detalles, CarritoDe(t.pedidos, u).value))
      && (CarritosNoVacios(t, {}) ==> (r == Realizado <==> CarritoDe(t.pedidos, u).Some?))
      && (r == Realizado ==>
            var c := CarritoDe(t.pedidos, u).value;
            && t' == t.(pedidos := t.pedidos[c := t.pedidos[c].(estado := Pendiente)])
            && CarritoDe(t'.pedidos, u).None?)
      && (r == CarritoVacio ==> t' == t)
  {
    match CarritoDe(t.pedidos, u)
    case Some(c) =>
      if TieneDetalles(t.detalles, c) {
        CarritoCerrado(t.pedidos, c, u, Pendiente, t.pedidos[c].cajeroEncargado);
      }
    case None =>
  }

  /** Moving the user's one cart order out of the cart leaves the user
      without a cart. */
  lemma CarritoCerrado(pedidos: Pedidos, c: PedidoId, u: UserId, e: Estado, cajero: Option<UserId>)
    requires UnCarritoPorUsuario(pedidos) && c in pedidos && EsCarritoDe(pedidos[c], u) && e != Carrito
    ensures var pedidos' := pedidos[c := pedidos[c].(estado := e, cajeroEncargado := cajero)];
      UnCarritoPorUsuario(pedidos') && CarritoDe(pedidos', u).None?
  {
  }

  lemma ConfirmarMantiene(t: BaseDeDatos, u: UserId)
    requires Consistente(t)
    ensures Consistente(Confirmar(t, u).0)
    ensures SinRetroceso(t.pedidos, Confirmar(t, u).0.pedidos)
  {
    var c := CarritoDe(t.pedidos, u);
    if c.Some? && TieneDetalles(t.detalles, c.value) {
      ConEstadoMantiene(t, c.value, Pendiente, t.pedidos[c.value].cajeroEncargado);
    }
  }

  /** `despachar_pedido`: a cashier, an admin or a superuser marks order o
      delivered and is stamped as its cashier.  The order's current state
      is not looked at. */
  function Despachar(t: BaseDeDatos, a: Usuario, o: PedidoId): (r: (BaseDeDatos, RespuestaDespachar))
    ensures r.1 == Despachado <==> PuedeDespachar(a) && o in t.pedidos
    ensures r.1 != Despachado ==> r.0 == t
    ensures r.0.productos == t.productos && r.0.detalles == t.detalles && r.0.pedidos.Keys == t.pedidos.Keys
  {
    if !PuedeDespachar(a) then (t, DespachoDenegado)
    else if o !in t.pedidos then (t, PedidoNoEncontrado)
    else (ConEstado(t, o, Entregado, Some(a.id)), Despachado)
  }

  /** Dispatch by anyone else changes nothing; otherwise the order, whatever
      its state (a cart or an order already delivered included), ends
      delivered, stamped with the dispatcher, with owner and total kept, and
      its owner may now download its invoice. */
  lemma DespacharEfecto(t: BaseDeDatos, a: Usuario, o: PedidoId)
    ensures !PuedeDespachar(a) ==> Despachar(t, a, o) == (t, DespachoDenegado)
    ensures PuedeDespachar(a) && o !in t.pedidos ==> Despachar(t, a, o) == (t, PedidoNoEncontrado)
    ensures PuedeDespachar(a) && o in t.pedidos ==>
      var (t', r) := Despachar(t, a, o);
      && r == Despachado
      && t'.productos == t.productos && t'.detalles == t.detalles
      && t'.pedidos.Keys == t.pedidos.Keys
      && (forall x :: x in t.pedidos && x != o ==> t'.pedidos[x] == t.pedidos[x])
      && t'.pedidos[o].estado == Entregado && t'.pedidos[o].cajeroEncargado == Some(a.id)
      && t'.pedidos[o].usuario == t.pedidos[o].usuario && t'.pedidos[o].total == t.pedidos[o].total
      && GuardaFactura(t'.pedidos, t.pedidos[o].usuario, o) == FacturaLista
  {
  }

  /** Dispatching twice re-stamps the cashier: the last dispatcher wins. */
  lemma DespachoRepetido(t: BaseDeDatos, a: Usuario, b: Usuario, o: PedidoId)
    requires PuedeDespachar(a) && PuedeDespachar(b) && o in t.pedidos
    ensures var t2 := Despachar(Despachar(t, a, o).0, b, o);
      t2.1 == Despachado && t2.0.pedidos[o].estado == Entregado && t2.0.pedidos[o].cajeroEncargado == Some(b.id)
  {
  }

  lemma DespacharMantiene(t: BaseDeDatos, a: Usuario, o: PedidoId)
    requires Consistente(t)
    ensures Consistente(Despachar(t, a, o).0)
    ensures SinRetroceso(t.pedidos, Despachar(t, a, o).0.pedidos)
  {
    if PuedeDespachar(a) && o in t.pedidos {
      ConEstadoMantiene(t, o, Entregado, Some(a.id));
    }
  }

  /** `actualizar_stock`: a warehouse worker, admin or superuser overwrites
      the stock of product p with the submitted value; no value (an empty
      field, or a request that is not a POST) changes nothing.  The value is
      not checked against zero. */
  function ActualizarStock(t: BaseDeDatos, v: Visitante, p: ProductoId, nuevo: Option<int>): (r: (BaseDeDatos, RespuestaStock))
    ensures !r.1.StockActualizado? ==> r.0 == t
    ensures r.0.pedidos == t.pedidos && r.0.detalles == t.detalles && r.0.productos.Keys == t.productos.Keys
  {
    if !CheckBodeguero(v) then (t, StockDenegado)
    else if p !in t.productos then (t, StockNoEncontrado)
    else match nuevo
      case None => (t, StockSinCambios)
      case Some(n) => (ConStock(t, p, n), StockActualizado(n))
  }

  /** The overwrite keeps every invariant, touches one product only, and
      does not reconcile with the units reserved in carts: the product's
      shelf-plus-cart stock moves by the difference between the new and the
      old shelf value. */
  lemma ActualizarStockEfecto(t: BaseDeDatos, v: Visitante, p: ProductoId, nuevo: Option<int>)
    requires Consistente(t)
    ensures Consistente(ActualizarStock(t, v, p, nuevo).0)
    ensures var (t', r) := ActualizarStock(t, v, p, nuevo);
      && t'.pedidos == t.pedidos && t'.detalles == t.detalles && t'.productos.Keys == t.productos.Keys
      && (r.StockActualizado? <==> CheckBodeguero(v) && p in t.productos && nuevo.Some?)
      && (r.StockActualizado? ==>
            && nuevo == Some(r.valor)
            && t'.productos[p] == t.productos[p].(stock := nuevo.value)
            && Existencias(t', p) == Existencias(t, p) - t.productos[p].stock + nuevo.value)
      && (!r.StockActualizado? ==> t' == t)
  {
  }

  /** The guard of `descargar_factura`: the order must exist and belong to
      the requesting user (otherwise a not-found response), and it must
      have been delivered (otherwise an error message). */
  function GuardaFactura(pedidos: Pedidos, u: UserId, o: PedidoId): (r: RespuestaFactura)
    ensures r == FacturaNoEncontrada <==> o !in pedidos || pedidos[o].usuario != u
    ensures r == FacturaLista <==> o in pedidos && pedidos[o].usuario == u && pedidos[o].estado == Entregado
  {
    if o !in pedidos || pedidos[o].usuario != u then FacturaNoEncontrada
    else if pedidos[o].estado != Entregado then FacturaNoEntregada
    else FacturaLista
  }
}
