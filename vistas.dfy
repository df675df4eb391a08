/** The page handlers of core/views.py as methods of one object that holds
    the shop's tables.  Each method updates the rows in the order the
    handler does; its contract says that the tables and the response it
    leaves are those of the handler's specification in `Engine`, and that
    the invariants of `Engine.Consistente` still hold. */
module Vistas {
  import opened Roles
  import opened Models
  import opened Engine

  class Tienda {
    var productos: Productos
    var pedidos: Pedidos
    var detalles: Detalles
    var siguientePedido: nat
    var siguienteDetalle: nat

    /** The tables as a value. */
    ghost function Tablas(): BaseDeDatos
      reads this
    {
      BaseDeDatos(productos, pedidos, detalles, siguientePedido, siguienteDetalle)
    }

    ghost predicate Valid()
      reads this
    {
      Consistente(Tablas())
    }

    /** A shop with the given catalogue and no orders yet. */
    constructor (catalogo: Productos)
      ensures Valid()
      ensures Tablas() == BaseDeDatos(catalogo, map[], map[], 0, 0)
    {
      productos := catalogo;
      pedidos := map[];
      detalles := map[];
      siguientePedido := 0;
      siguienteDetalle := 0;
    }

    /** `Pedido.calcular_total`: sum the subtotals of order o's lines and
        store the sum as its total. */
    method CalcularTotal(o: PedidoId)
      requires o in pedidos
      modifies this`pedidos
      ensures Tablas() == RecalcularTotal(old(Tablas()), o)
      ensures pedidos[o].total == TotalDe(detalles, o)
    {
      var total := SumarSubtotales(detalles, o);
      pedidos := pedidos[o := pedidos[o].(total := total)];
    }

    /** `agregar_al_carrito`. */
    method AgregarAlCarrito(u: Usuario, p: ProductoId) returns (r: RespuestaAgregar)
      requires Valid()
      modifies this
      ensures Valid()
      ensures (Tablas(), r) == Agregar(old(Tablas()), u.id, p)
    {
      ghost var t := Tablas();
      if p !in productos {
        return ProductoNoEncontrado;
      }
      if productos[p].stock <= 0 {
        return Agotado;
      }
      // Pedido.objects.get_or_create(usuario=..., estado='carrito')
      var c: PedidoId;
      match CarritoDe(pedidos, u.id) {
        case Some(o) =>
          c := o;
        case None =>
          c := siguientePedido;
          pedidos := pedidos[c := NuevoPedido(u.id)];
          siguientePedido := siguientePedido + 1;
      }
      ghost var t1 := Tablas();
      assert (t1, c) == ObtenerCarrito(t, u.id);
      // DetallePedido.objects.get_or_create(pedido=..., producto=..., defaults=...)
      var k: DetalleId;
      var creado: bool;
      match DetalleDe(detalles, c, p) {
        case Some(d) =>
          k, creado := d, false;
        case None =>
          k, creado := siguienteDetalle, true;
          detalles := detalles[k := NuevoDetalle(c, p, productos[p].precio)];
          siguienteDetalle := siguienteDetalle + 1;
      }
      ghost var t2 := Tablas();
      assert (t2, k, creado) == ObtenerDetalle(t1, c, p);
      productos := productos[p := productos[p].(stock := productos[p].stock - 1)];
      var quedan := productos[p].stock;
      ghost var t3 := Tablas();
      assert t3 == ConStock(t2, p, t2.productos[p].stock - 1);
      if !creado {
        detalles := detalles[k := detalles[k].(cantidad := detalles[k].cantidad + 1)];
      }
      ghost var t4 := Tablas();
      assert t4 == if creado then t3 else ConCantidad(t3, k, t3.detalles[k].cantidad + 1);
      CalcularTotal(c);
      r := Agregado(quedan);
      assert (Tablas(), r) == Agregar(t, u.id, p);
      AgregarMantiene(t, u.id, p);
    }

    /** `eliminar_del_carrito`. */
    method EliminarDelCarrito(u: Usuario, k: DetalleId) returns (r: RespuestaEliminar)
      requires Valid()
      modifies this
      ensures Valid()
      ensures (Tablas(), r) == Eliminar(old(Tablas()), u.id, k)
    {
      ghost var t := Tablas();
      if !(k in detalles && detalles[k].pedido in pedidos && EsCarritoDe(pedidos[detalles[k].pedido], u.id)) {
        return DetalleNoEncontrado;
      }
      var item := detalles[k];
      var q := item.producto;
      productos := productos[q := productos[q].(stock := productos[q].stock + 1)];
      if item.cantidad > 1 {
        detalles := detalles[k := item.(cantidad := item.cantidad - 1)];
        r := UnidadQuitada;
      } else {
        detalles := detalles - {k};
        r := DetalleEliminado;
      }
      ghost var t1 := Tablas();
      assert (t1, r) == QuitarUnidad(t, k);
      // Pedido.objects.filter(usuario=..., estado='carrito').first()
      var pedido := CarritoDe(pedidos, u.id);
      if pedido.Some? {
        var c := pedido.value;
        CalcularTotal(c);
        if !TieneDetalles(detalles, c) {
          pedidos := pedidos - {c};
        }
        assert Tablas() == CerrarCarrito(t1, c);
      }
      EliminarMantiene(t, u.id, k);
    }

    /** `confirmar_pedido`. */
    method ConfirmarPedido(u: Usuario) returns (r: RespuestaConfirmar)
      requires Valid()
      modifies this
      ensures Valid()
      ensures (Tablas(), r) == Confirmar(old(Tablas()), u.id)
    {
      ghost var t := Tablas();
      var pedido := CarritoDe(pedidos, u.id);
      if pedido.Some? && TieneDetalles(detalles, pedido.value) {
        var c := pedido.value;
        pedidos := pedidos[c := pedidos[c].(estado := Pendiente)];
        r := Realizado;
      } else {
        r := CarritoVacio;
      }
      ConfirmarMantiene(t, u.id);
    }

    /** `despachar_pedido`. */
    method DespacharPedido(a: Usuario, o: PedidoId) returns (r: RespuestaDespachar)
      requires Valid()
      modifies this
      ensures Valid()
      ensures (Tablas(), r) == Despachar(old(Tablas()), a, o)
    {
      ghost var t := Tablas();
      if !PuedeDespachar(a) {
        return DespachoDenegado;
      }
      if o !in pedidos {
        return PedidoNoEncontrado;
      }
      pedidos := pedidos[o := pedidos[o].(estado := Entregado)];
      pedidos := pedidos[o := pedidos[o].(cajeroEncargado := Some(a.id))];
      r := Despachado;
      assert Tablas() == ConEstado(t, o, Entregado, Some(a.id));
      DespacharMantiene(t, a, o);
    }

    /** `actualizar_stock`; `nuevo` is the submitted value, `None` when the
        request is not a POST or the field is empty. */
    method ActualizarStock(v: Visitante, p: ProductoId, nuevo: Option<int>) returns (r: RespuestaStock)
      requires Valid()
      modifies this
      ensures Valid()
      ensures (Tablas(), r) == Engine.ActualizarStock(old(Tablas()), v, p, nuevo)
    {
      ghost var t := Tablas();
      if !CheckBodeguero(v) {
        return StockDenegado;
      }
      if p !in productos {
        return StockNoEncontrado;
      }
      if nuevo.Some? {
        productos := productos[p := productos[p].(stock := nuevo.value)];
        r := StockActualizado(productos[p].stock);
      } else {
        r := StockSinCambios;
      }
      ActualizarStockEfecto(t, v, p, nuevo);
    }

    /** The guard of `descargar_factura`, read from the current tables. */
    method DescargarFactura(u: Usuario, o: PedidoId) returns (r: RespuestaFactura)
      ensures r == GuardaFactura(pedidos, u.id, o)
      ensures r == FacturaLista ==> pedidos[o].estado == Entregado
    {
      if o !in pedidos || pedidos[o].usuario != u.id {
        return FacturaNoEncontrada;
      }
      if pedidos[o].estado != Entregado {
        return FacturaNoEntregada;
      }
      return FacturaLista;
    }
  }
}
