/** Runs of requests: what the handlers of core/views.py guarantee when they
    are served one after another, each on the tables the previous one
    left. */
module Sesion {
  import opened Roles
  import opened Models
  import opened Engine

  /** One request to a state-changing handler. */
  datatype Peticion =
    | PideAgregar(u: UserId, p: ProductoId)
    | PideEliminar(u: UserId, k: DetalleId)
    | PideConfirmar(u: UserId)
    | PideDespacho(a: Usuario, o: PedidoId)
    | PideStock(v: Visitante, p: ProductoId, nuevo: Option<int>)

  /** The tables after serving one request. */
  ghost function Atender(t: BaseDeDatos, x: Peticion): (t': BaseDeDatos)
    requires Consistente(t)
    ensures Consistente(t')
    ensures SinRetroceso(t.pedidos, t'.pedidos)
    ensures t'.productos.Keys == t.productos.Keys
  {
    match x
    case PideAgregar(u, p) =>
      AgregarMantiene(t, u, p);
      AgregarClaves(t, u, p);
      Agregar(t, u, p).0
    case PideEliminar(u, k) =>
      EliminarMantiene(t, u, k);
      EliminarClaves(t, u, k);
      Eliminar(t, u, k).0
    case PideConfirmar(u) =>
      ConfirmarMantiene(t, u);
      Confirmar(t, u).0
    case PideDespacho(a, o) =>
      DespacharMantiene(t, a, o);
      Despachar(t, a, o).0
    case PideStock(v, p, nuevo) =>
      ActualizarStockEfecto(t, v, p, nuevo);
      ActualizarStock(t, v, p, nuevo).0
  }

  lemma AgregarClaves(t: BaseDeDatos, u: UserId, p: ProductoId)
    requires Coherente(t)
    ensures Agregar(t, u, p).0.productos.Keys == t.productos.Keys
  {
    if p in t.productos && t.productos[p].stock > 0 {
      var (t1, c) := ObtenerCarrito(t, u);
      ObtenerCarritoCoherente(t, u);
    }
  }

  lemma EliminarClaves(t: BaseDeDatos, u: UserId, k: DetalleId)
    requires Coherente(t)
    ensures Eliminar(t, u, k).0.productos.Keys == t.productos.Keys
  {
  }

  /** The cashier stamp is written by dispatch alone: any other request
      leaves the stamp of every order it does not delete as it was, and no
      request clears a stamp. */
  lemma AtenderCajero(t: BaseDeDatos, x: Peticion)
    requires Consistente(t)
    ensures var t' := Atender(t, x);
      forall o :: o in t.pedidos && o in t'.pedidos ==>
        && (!x.PideDespacho? ==> t'.pedidos[o].cajeroEncargado == t.pedidos[o].cajeroEncargado)
        && (t.pedidos[o].cajeroEncargado.Some? ==> t'.pedidos[o].cajeroEncargado.Some?)
  {
    match x
    case PideAgregar(u, p) =>
      if p in t.productos && t.productos[p].stock > 0 {
        AgregarTablas(t, u, p);
        AgregarUnaUnidad(t, u, p);
      }
    case PideEliminar(u, k) =>
      if DetalleEnCarritoDe(t, k, u) {
        EliminarCierraCarrito(t, u, k);
      }
    case PideConfirmar(u) =>
      ConfirmarEfecto(t, u);
    case PideDespacho(a, o) =>
      DespacharEfecto(t, a, o);
    case PideStock(v, p, nuevo) =>
  }

  /** The tables after serving a run of requests in order.  Every state in
      between is consistent, so each handler's specification applies. */
  ghost function AtenderTodas(t: BaseDeDatos, xs: seq<Peticion>): (t': BaseDeDatos)
    requires Consistente(t)
    ensures Consistente(t')
    ensures t'.productos.Keys == t.productos.Keys
    decreases |xs|
  {
    if xs == [] then t else AtenderTodas(Atender(t, xs[0]), xs[1..])
  }

  /** "No order moves back" composes. */
  lemma SinRetrocesoTransitivo(a: Pedidos, b: Pedidos, c: Pedidos)
    requires SinRetroceso(a, b) && SinRetroceso(b, c)
    ensures SinRetroceso(a, c)
  {
    forall o | o in a
      ensures if o in c then Rango(a[o].estado) <= Rango(c[o].estado) else a[o].estado == Carrito
    {
      if o in b && o !in c {
        assert Rango(b[o].estado) == 0;
      }
    }
  }

  /** Over any run of requests no order moves back towards the cart, and
      only cart orders disappear: a pending order stays pending or is
      delivered, and a delivered order stays delivered. */
  lemma {:induction false} AtenderTodasSinRetroceso(t: BaseDeDatos, xs: seq<Peticion>)
    requires Consistente(t)
    ensures SinRetroceso(t.pedidos, AtenderTodas(t, xs).pedidos)
    decreases |xs|
  {
    if xs == [] {
      assert forall o :: o in t.pedidos ==> Rango(t.pedidos[o].estado) <= Rango(t.pedidos[o].estado);
    } else {
      var t1 := Atender(t, xs[0]);
      AtenderTodasSinRetroceso(t1, xs[1..]);
      SinRetrocesoTransitivo(t.pedidos, t1.pedidos, AtenderTodas(t1, xs[1..]).pedidos);
    }
  }

  /** Requests that only move units between shelves and carts. */
  predicate SoloCarrito(xs: seq<Peticion>)
  {
    forall i :: 0 <= i < |xs| ==> xs[i].PideAgregar? || xs[i].PideEliminar?
  }

  /** Over any run of add and remove requests, by any users, each product's
      shelf stock plus the units of it in carts stays what it was. */
  lemma {:induction false} AtenderTodasConserva(t: BaseDeDatos, xs: seq<Peticion>, q: ProductoId)
    requires Consistente(t) && SoloCarrito(xs) && q in t.productos
    ensures Existencias(AtenderTodas(t, xs), q) == Existencias(t, q)
    decreases |xs|
  {
    if xs != [] {
      var t1 := Atender(t, xs[0]);
      match xs[0] {
        case PideAgregar(u, p) => AgregarConserva(t, u, p, q);
        case PideEliminar(u, k) => EliminarConserva(t, u, k, q);
      }
      assert SoloCarrito(xs[1..]) by {
        forall i | 0 <= i < |xs[1..]| ensures xs[1..][i].PideAgregar? || xs[1..][i].PideEliminar? {
          assert xs[1..][i] == xs[i + 1];
        }
      }
      AtenderTodasConserva(t1, xs[1..], q);
    }
  }
}
