# BitBites cart, order and stock engine in Dafny

This project models the bookkeeping behind the BitBites snack shop, a Django application. It covers:

- the handlers that move stock between shelves and carts (`agregar_al_carrito`, `eliminar_del_carrito`);
- the handlers that move an order through its states (`confirmar_pedido`, `despachar_pedido`);
- the warehouse stock overwrite (`actualizar_stock`) and the guard of the invoice download (`descargar_factura`);
- order totals (`Pedido.calcular_total`, `DetallePedido.subtotal`);
- the role gates (`check_admin`, `check_bodeguero`, the inline cashier gate) and the role routing of `home`.

Files and modules:

- `ledger.dfy` (`Ledger`): the sum of an integer-valued map. It has lemmas for taking one entry out, overwriting one entry and deleting one entry.
- `roles.dfy` (`Roles`): the four roles, the visitor (anonymous or signed in), the gates, and `home`.
- `models.dfy` (`Models`): the rows. `TotalDe` is an order's total as the sum of its lines' subtotals. `Reservado` is the units of a product held in cart orders. `SumarSubtotales` is the loop that sums the subtotals.
- `engine.dfy` (`Engine`): the database as a value `BaseDeDatos`, with one map per table and the auto-increment counters. It has:
  - the invariants;
  - the row lookups and row updates the handlers are built from, one function per ORM statement;
  - one specification function per handler, with lemmas about it.
- `vistas.dfy` (`Vistas`): the class `Tienda`, which holds the tables as fields. It has one method per handler, updating the fields in the order the handler does. Each method is proved to leave exactly the tables and the response of its specification function, and to keep the invariants.
- `sesion.dfy` (`Sesion`): runs of requests. Over any sequence of handled requests the invariants hold and no order moves back. Over any sequence of add and remove requests, every product's shelf-plus-cart stock (`Engine.Existencias`) is conserved. A request other than dispatch never changes an order's cashier stamp, and no request clears one.

The invariants between requests (`Engine.Consistente`) are kept by every handler modelled here. They are not kept by the application as a whole, because `eliminar_producto` (core/views.py:85-90), which is left out, can break the last two (see "Left out"). The invariants are:

- every line points at an existing order and an existing product, and holds at least one unit;
- keys are below the counters;
- a user has at most one cart order;
- an order has at most one line per product;
- every order's total is the sum of its lines' subtotals;
- no cart order without lines persists.

The conserved quantity is `Engine.Existencias`: a product's shelf stock plus the units of it sitting in cart orders of all users.

Money is integer cents. Stock is an unbounded integer. The cart, checkout, dispatch and invoice handlers are decorated with `login_required` (framework behaviour), so they take the signed-in user. `actualizar_stock` carries only `@solo_bodeguero` (core/views.py:118), and `home` (core/views.py:14) has no decorator at all; these two, and the two decorators, take a visitor that may be anonymous.

Behaviour of the code that the model keeps as written:

- **Dispatch.** `despachar_pedido` (core/views.py:228-231) looks up the order by id alone and never looks at its state. A cart order is therefore delivered directly, skipping the pending state, and an order that is already delivered is re-stamped with the new cashier. `Engine.DespacharEfecto` and `Engine.DespachoRepetido` state this behaviour.
- **Stock.** The overwrite in `actualizar_stock` (core/views.py:122-125) stores whatever integer is submitted, negative values included. `Engine.ActualizarStock` accepts any integer, and `Engine.ActualizarStockEfecto` states that the overwrite moves shelf-plus-cart stock by the difference.
- **Cashier gate.** The inline gate of `despachar_pedido` (core/views.py:226) admits cashiers, admins and also any superuser, whatever their role; so does `Roles.PuedeDespachar`.

## Model

| member | source | states |
|---|---|---|
| Ledger.SumOverRemove | core/models.py:51 | The sum of the lines' values does not depend on the order in which lines are taken: any one of them can be taken out first. |
| Ledger.SumZero | core/models.py:51 | A sum of zeros (including the empty sum) is 0. |
| Ledger.SumUpdate | core/models.py:51 | Overwriting or inserting one entry moves the sum by exactly the change in that entry. |
| Ledger.SumDelete | core/models.py:51 | Deleting one entry takes exactly its value out of the sum. |
| Roles.NuevoUsuario | core/models.py:11-12 | A new user's role defaults to client: such a user passes neither decorator nor the cashier gate, and `home` sends them to the catalogue. |
| Roles.CheckAdmin | core/decorators.py:3-4 | Passing `check_admin` requires a signed-in user and implies passing `check_bodeguero`. |
| Roles.CheckBodeguero | core/decorators.py:6-7 | Passing `check_bodeguero` requires a signed-in user; a signed-in non-superuser cashier or client fails it. |
| Roles.PuedeDespachar | core/views.py:226 | Everyone who passes `check_admin` passes the cashier gate; a warehouse worker who is not a superuser does not. |
| Roles.GateTable | core/decorators.py:3-7 | A superuser passes every gate. Otherwise `check_admin` admits exactly admins, `check_bodeguero` exactly warehouse workers and admins, and the cashier gate exactly cashiers and admins. |
| Roles.AnonimoNoPasa | core/decorators.py:4-7 | An anonymous visitor passes neither decorator. |
| Roles.Home | core/views.py:14-28 | The public page is shown exactly to anonymous visitors, and the admin dashboard exactly to those who pass `check_admin`. Every other signed-in user is sent to a panel whose own gate admits them. The fallback page is never reached. |
| Models.NuevoPedido | core/models.py:36-48 | A new order belongs to its user, is in the cart state, totals 0 and has no cashier. |
| Models.NuevoDetalle | core/models.py:55-59 | A new line belongs to its order and product, holds one unit at the given price, and its subtotal is that price. |
| Models.Subtotal | core/models.py:61-63 | A one-unit line's subtotal is its unit price; a line with no units or a zero price contributes 0; a non-negative quantity and price give a non-negative subtotal. |
| Models.TotalPorUnidad | core/models.py:50-63 | One more, or one fewer, unit on a line moves its order's total by exactly the line's unit price. |
| Models.TotalSinDetalles | core/models.py:50-53 | An order with no lines totals 0. |
| Models.TotalTrasEscribir | core/models.py:50-53 | Writing one line moves an order's total by the change in that line's contribution. |
| Models.TotalTrasBorrar | core/models.py:50-53 | Deleting one line takes its contribution out of an order's total. |
| Models.OtrosTotalesIntactos | core/models.py:50-53 | Changing or deleting a line of one order leaves every other order's total as it was. |
| Models.ReservadoTrasEscribir | core/views.py:155-156 | Writing one line moves the units of a product held in carts by the change in that line's reserved units. |
| Models.ReservadoTrasBorrar | core/views.py:184 | Deleting one line releases exactly its reserved units. |
| Models.ReservadoMismosCarritos | core/views.py:188-193 | Changing orders without changing which lines sit in cart orders changes no reservation. |
| Models.SumarSubtotales | core/models.py:50-51 | The loop's result is the sum of the subtotals of the order's lines, and 0 when the order has none. |
| Engine.Rango | core/models.py:31-35 | The three states are ordered cart, pending, delivered; rank 0 is exactly the cart and rank 2 exactly delivered. |
| Engine.CarritoDe | core/views.py:164 | The lookup returns a cart order of the user when one exists, and none exactly when the user has no cart order. |
| Engine.DetalleDe | core/views.py:145-148 | The lookup returns the line of the order for the product when one exists, and none exactly when there is no such line. |
| Engine.ObtenerCarrito | core/views.py:144 | `get_or_create` of the cart yields a cart order of the user. When the user has a cart, the tables are left exactly as they were; otherwise the only change is a new cart order of the user (`NuevoPedido`) under the next order key, and the counter moves past it. |
| Engine.ObtenerDetalle | core/views.py:145-148 | `get_or_create` of the line yields the line of that order and product; when it finds one, nothing changes. That an existing line is found and a missing one created under the next key, with one unit at the current price, is stated by `Engine.AgregarTablas`. |
| Engine.ConStock | core/views.py:151-152 | No contract of its own; specified by `Engine.ConStockMantiene`, and its effect on shelf-plus-cart stock by `Engine.AgregarConserva`, `Engine.QuitarUnidadReserva` and `Engine.ActualizarStockEfecto`. |
| Engine.ConStockMantiene | core/views.py:151-152 | Writing a product's stock leaves orders and lines as they were and keeps every invariant that held. |
| Engine.ConCantidad | core/views.py:155-156 | No contract of its own; specified by `Engine.ConCantidadReserva` (the reservation moves by the change) and `Engine.ConCantidadMantiene` (invariants kept outside the line's order). |
| Engine.BorrarDetalle | core/views.py:184 | No contract of its own; specified by `Engine.BorrarDetalleReserva` (the line's units are released) and `Engine.BorrarDetalleMantiene`. |
| Engine.BorrarPedido | core/views.py:193 | No contract of its own; specified by `Engine.BorrarPedidoReserva` (no reservation changes) and `Engine.BorrarPedidoMantiene`. |
| Engine.RecalcularTotal | core/models.py:50-53 | No contract of its own; specified by `Engine.RecalcularTotalMantiene` (every total current again), `Engine.RecalcularTotalReserva`, and `Vistas.Tienda.CalcularTotal`, whose summing loop is proved to produce it. |
| Engine.ConEstado | core/views.py:202-203 | No contract of its own; specified by `Engine.ConEstadoMantiene` (invariants kept, no order moves back when the state does not drop). |
| Engine.ObtenerCarritoReserva | core/views.py:144 | Creating an empty cart order changes no reservation. |
| Engine.ObtenerDetalleReserva | core/views.py:145-148 | Creating the line of a cart reserves its one unit; finding it reserves nothing. |
| Engine.ConCantidadReserva | core/views.py:155-156 | Setting a cart line's quantity moves its product's reservation by the change. |
| Engine.BorrarDetalleReserva | core/views.py:184 | Deleting a cart line releases its units. |
| Engine.BorrarPedidoReserva | core/views.py:193 | Deleting an order without lines changes no reservation. |
| Engine.RecalcularTotalReserva | core/models.py:50-53 | Recomputing a total changes no reservation. |
| Engine.ObtenerCarritoMantiene | core/views.py:144 | Getting or creating the cart keeps every invariant. The only exception is that the new cart may still be empty; no order moves back. |
| Engine.ObtenerDetalleMantiene | core/views.py:145-148 | Getting or creating the line keeps the invariants outside the cart being filled. A created line is one unit at the current price. |
| Engine.ConCantidadMantiene | core/views.py:155-156 | Changing a line's quantity to a positive value keeps the invariants outside the line's order. |
| Engine.BorrarDetalleMantiene | core/views.py:184 | Deleting a line keeps the invariants outside the line's order. |
| Engine.RecalcularTotalMantiene | core/models.py:50-53 | After `calcular_total` every total is current again. |
| Engine.BorrarPedidoMantiene | core/views.py:192-193 | Deleting the empty cart restores every invariant, and only a cart order disappears. |
| Engine.ConEstadoMantiene | core/views.py:202-203 | Moving an order out of the cart keeps every invariant. No order moves back when the new state does not rank below the old one. |
| Engine.Agregar | core/views.py:137-160 | Adding succeeds exactly for an existing product with stock above 0; any other answer leaves the tables unchanged. Specified further by `Engine.AgregarTablas`, `Engine.AgregarUnaUnidad`, `Engine.AgregarSubeTotal`, `Engine.AgregarMantiene` and `Engine.AgregarConserva`. |
| Engine.AgregarTablas | core/views.py:144-158 | A successful add reports the new stock, takes one unit off the product, stores the cart's recomputed total, and either adds one unit to the existing line or creates the line under the next key. |
| Engine.AgregarMantiene | core/views.py:137-160 | Adding keeps every invariant, including one cart per user, and moves no order back. |
| Engine.AgregarConserva | core/views.py:151-156 | Adding conserves every product's shelf-plus-cart stock. |
| Engine.AgregarSinStock | core/views.py:138-142 | On tables that satisfy the structural invariants, adding a missing product, or one with stock at or below 0, changes nothing and answers not-found or out-of-stock. |
| Engine.AgregarUnaUnidad | core/views.py:144-158 | On tables that satisfy the structural invariants, adding a product in stock takes exactly one unit off its stock and reports the new stock. It uses the user's existing cart, or a new one under the next key, and leaves the cart's total current. It either creates the line with one unit at the current price, or adds one unit to it with its price unchanged. Every other order is left exactly as it was, and the only order that may appear is the cart. |
| Engine.AgregarSubeTotal | core/views.py:144-158 | Adding to an existing cart whose total was current raises its total by exactly one unit price: the price captured on the line, or the product's current price for a new line. |
| Engine.QuitarUnidad | core/views.py:171-185 | The first half of a removal answers "one unit removed" exactly when the line held more than one unit, and "line deleted" otherwise; it leaves orders untouched. Specified further by `Engine.EliminarDevuelveUna` (one unit back on the shelf, and the line decremented or deleted), `Engine.QuitarUnidadMantiene` and `Engine.QuitarUnidadReserva`. |
| Engine.CerrarCarrito | core/views.py:188-193 | Closing the cart touches neither products nor lines. Specified further by `Engine.CerrarCarritoEfecto`, `Engine.CerrarCarritoMantiene` and `Engine.CerrarCarritoReserva`. |
| Engine.QuitarUnidadMantiene | core/views.py:174-185 | Returning the unit and shrinking or deleting the line keeps the invariants outside the line's order. |
| Engine.QuitarUnidadReserva | core/views.py:174-185 | Returning the unit and shrinking or deleting the line conserves every product's shelf-plus-cart stock. |
| Engine.CerrarCarritoMantiene | core/views.py:188-193 | Recomputing the cart's total, and deleting the cart if it has no lines left, restores every invariant and moves no order back. |
| Engine.CerrarCarritoReserva | core/views.py:188-193 | Closing the cart changes no product's shelf-plus-cart stock. |
| Engine.Eliminar | core/views.py:168-195 | Removal answers not-found exactly when the line is missing, belongs to another user or is not in a cart, and then changes nothing. Specified further by `Engine.EliminarDevuelveUna`, `Engine.EliminarCierraCarrito`, `Engine.EliminarBajaTotal`, `Engine.EliminarMantiene` and `Engine.EliminarConserva`. |
| Engine.EliminarMantiene | core/views.py:168-195 | Removing keeps every invariant and moves no order back. |
| Engine.EliminarConserva | core/views.py:174-193 | Removing conserves every product's shelf-plus-cart stock. |
| Engine.EliminarDevuelveUna | core/views.py:170-185 | Removing from one's own cart returns exactly one unit to the product's stock. It decrements the line if it held more than one unit, and otherwise deletes it (it held exactly one). |
| Engine.CerrarCarritoEfecto | core/views.py:188-193 | After closing, the user's cart still has lines and a current total and is otherwise unchanged (`calcular_total` writes only the total), or it is deleted and the user has no cart. No order appears, and every other order is left exactly as it was. |
| Engine.EliminarCierraCarrito | core/views.py:188-193 | After a removal the user's cart either still has lines and a current total and is otherwise unchanged, owner and cashier stamp included, or no longer exists and the user has no cart order. No order appears, and every other order is left exactly as it was. |
| Engine.EliminarBajaTotal | core/views.py:170-193 | A removal from a cart whose total was current, when the cart survives, lowers its total by exactly the line's unit price. |
| Engine.EliminarAjeno | core/views.py:170 | A line that is missing, belongs to another user, or is not in a cart is not found, and nothing changes. |
| Engine.CarritoBorrado | core/views.py:192-193 | Deleting a user's cart order leaves the user without a cart. |
| Engine.Confirmar | core/views.py:198-209 | Checkout never touches products or lines and never adds or deletes an order; an empty-cart answer leaves the tables unchanged. Specified further by `Engine.ConfirmarEfecto` and `Engine.ConfirmarMantiene`. |
| Engine.ConfirmarEfecto | core/views.py:199-207 | On tables that satisfy the structural invariants, checkout succeeds exactly when the user has a cart order with at least one line; that order alone becomes pending, after which the user has no cart. Otherwise nothing changes. When no empty cart exists, success is exactly having a cart. |
| Engine.CarritoCerrado | core/views.py:201-203 | Moving a user's cart order out of the cart leaves the user without a cart. |
| Engine.ConfirmarMantiene | core/views.py:198-209 | Checkout keeps every invariant and moves no order back. |
| Engine.Despachar | core/views.py:225-234 | Dispatch succeeds exactly when the gate passes and the order exists, and otherwise changes nothing; it never touches products or lines, nor adds or deletes an order. Specified further by `Engine.DespacharEfecto`, `Engine.DespachoRepetido` and `Engine.DespacharMantiene`. |
| Engine.DespacharEfecto | core/views.py:225-231 | A dispatcher who fails the cashier gate changes nothing, and a missing order is not found. Otherwise the order becomes delivered whatever its state, is stamped with the dispatcher and keeps its owner and total, while nothing else changes. Its owner may then download the invoice. |
| Engine.DespachoRepetido | core/views.py:228-231 | Dispatching twice leaves the order delivered and stamped with the second dispatcher. |
| Engine.DespacharMantiene | core/views.py:225-234 | Dispatch keeps every invariant and moves no order back. |
| Engine.ActualizarStock | core/views.py:118-127 | Any answer other than "updated" leaves the tables unchanged; orders and lines never change, and no product appears or disappears. Specified further by `Engine.ActualizarStockEfecto`. |
| Engine.ActualizarStockEfecto | core/views.py:118-127 | The overwrite keeps every invariant and happens exactly for a gate-passing user, an existing product and a submitted value. It stores that value as is, even when negative, touches nothing else, and moves the product's shelf-plus-cart stock by the difference. |
| Engine.GuardaFactura | core/views.py:239-243 | The invoice is not found exactly when the order is missing or belongs to someone else. It is produced exactly when the order is the user's own and delivered. |
| Vistas.Tienda.CalcularTotal | core/models.py:50-53 | Stores the sum of the order's line subtotals as its total and changes nothing else. |
| Vistas.Tienda.AgregarAlCarrito | core/views.py:137-160 | The tables and the response are those of `Engine.Agregar`, and the invariants hold afterwards. |
| Vistas.Tienda.EliminarDelCarrito | core/views.py:168-195 | The tables and the response are those of `Engine.Eliminar`, and the invariants hold afterwards. |
| Vistas.Tienda.ConfirmarPedido | core/views.py:198-209 | The tables and the response are those of `Engine.Confirmar`, and the invariants hold afterwards. |
| Vistas.Tienda.DespacharPedido | core/views.py:225-234 | The tables and the response are those of `Engine.Despachar`, and the invariants hold afterwards. |
| Vistas.Tienda.ActualizarStock | core/views.py:119-127 | The tables and the response are those of `Engine.ActualizarStock`, and the invariants hold afterwards. |
| Vistas.Tienda.DescargarFactura | core/views.py:238-243 | Answers as `Engine.GuardaFactura` does on the current orders; a produced invoice is for a delivered order. |
| Sesion.Atender | core/views.py:137-234 | Serving any one request keeps every invariant, moves no order back and deletes no product. |
| Sesion.AtenderCajero | core/views.py:229-231 | The cashier stamp is written by dispatch alone: any other request leaves the stamp of every order it does not delete unchanged, and no request turns a stamp back to none. |
| Sesion.AtenderTodas | core/views.py:137-234 | Serving any run of requests keeps every invariant and deletes no product. |
| Sesion.SinRetrocesoTransitivo | core/models.py:31-35 | "No order moves back, and only cart orders disappear" composes over consecutive steps. |
| Sesion.AtenderTodasSinRetroceso | core/views.py:198-234 | Over any run of requests no order moves back towards the cart, and only cart orders disappear. |
| Sesion.AtenderTodasConserva | core/views.py:151-184 | Over any run of add and remove requests by any users, every product's shelf stock plus its units in carts stays what it was. |

## Left out

- PDF layout of `descargar_factura` (core/views.py:245-296). It is drawn by a foreign library from the order's lines and total, which the model has, plus the order date (core/views.py:262), the customer's names, username and email (core/views.py:268-270) and the product names (core/views.py:284), which are left out; only the guard is modelled.
- Login, registration, staff creation and product creation (core/views.py:31-82) and core/forms.py. They are wrappers over the framework's authentication and form machinery. The forms restrict the role to the four `ROLES` values, which is why `Roles.Rol` is a closed datatype.
- Product deletion `eliminar_producto` (core/views.py:85-90). It is not part of this model. Its cascade deletes every line of the product, in cart, pending and delivered orders alike, without recomputing any total. The units in carts vanish from shelf-plus-cart stock, the totals of the affected orders go stale (`Engine.TotalesAlDia` no longer holds), and a cart whose only line was for that product is left with no lines (`Engine.CarritosNoVacios` no longer holds). `Engine.Consistente` is therefore an invariant of the handlers modelled here, not of the whole application.
- The range of `IntegerField` for `Producto.stock` and `DetallePedido.cantidad`. The model stores any integer, while the database refuses a value out of range when it is saved (core/views.py:124-125); such a request ends in a framework error page.
- The read-only listings: `historial_global`, `lista_clientes_admin`, `historial_detalle_cliente`, `panel_bodeguero`, `catalogo`, `ver_carrito`, `mis_pedidos`, `panel_cajero`. They are queries plus rendering, and they change no state.
- Order dates (`fecha`) and every ordering by them. They are supplied by the clock, used for sorting listings and printed on the invoice (core/views.py:262).
- bitbites/urls.py. It is routing configuration.
- Flash messages, redirects and templates. They are presentation; each handler's outcome is the response datatype instead.
- `int()` failing on a non-numeric stock value (core/views.py:124). That is a framework error page, not handler behaviour. `nuevo` is `None` for a request that is not a POST or has an empty field.
- Concurrent requests. Each handler is modelled as running alone on the tables the previous one left; races on `Producto.stock` are left to the database.
- Decimal arithmetic. Prices and totals are integer cents, so `DecimalField` rounding and digit limits are not modelled.
- Names, descriptions, categories, emails and other text fields. Nothing in the engine depends on them; the invoice prints some of them, and its layout is left out.
- Which cart order `.first()` returns when a user has several. The invariant `UnCarritoPorUsuario` guarantees a user never has more than one, so `Engine.CarritoDe` requires it.
- Roles.Home: the fallback branch (core/views.py:27-28) is kept as written, but the contract states that it is never reached, because every user holds one of the four roles.
