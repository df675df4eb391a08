/** Users, their roles, and the predicates that gate pages by role:
    `check_admin` and `check_bodeguero` (core/decorators.py), the inline
    cashier gate of the cashier views, and the role-based landing page of
    `home` (core/views.py). */
module Roles {

  type UserId = nat

  /** The four values of ROLES (core/models.py). */
  datatype Rol = Cliente | Cajero | Bodeguero | Admin

  /** The role a new user gets when none is given. */
  const RolPorDefecto: Rol := Cliente

  datatype Usuario = Usuario(id: UserId, rol: Rol, esSuperusuario: bool)

  /** A user registered without a role: the default role and no superuser
      flag.  Such a user passes neither decorator nor the cashier gate, and
      `home` sends them to the catalogue. */
  function NuevoUsuario(id: UserId): (u: Usuario)
    ensures u.id == id && u.rol == Cliente && !u.esSuperusuario
    ensures !CheckAdmin(Autenticado(u)) && !CheckBodeguero(Autenticado(u)) && !PuedeDespachar(u)
    ensures Home(Autenticado(u)) == Catalogo
  {
    Usuario(id, RolPorDefecto, false)
  }

  /** Who makes a request: nobody signed in, or a signed-in user. */
  datatype Visitante = Anonimo | Autenticado(usuario: Usuario)

  /** `check_admin`: signed in, and an admin or a superuser. */
  function CheckAdmin(v: Visitante): (ok: bool)
    ensures ok ==> v.Autenticado?
    ensures ok ==> CheckBodeguero(v)
  {
    v.Autenticado? && (v.usuario.rol == Admin || v.usuario.esSuperusuario)
  }

  /** `check_bodeguero`: signed in, and a warehouse worker, an admin or a
      superuser. */
  function CheckBodeguero(v: Visitante): (ok: bool)
    ensures ok ==> v.Autenticado?
    ensures v.Autenticado? && !v.usuario.esSuperusuario && v.usuario.rol in {Cajero, Cliente} ==> !ok
  {
    v.Autenticado? && (v.usuario.rol == Bodeguero || v.usuario.rol == Admin || v.usuario.esSuperusuario)
  }

  /** The inline gate of the cashier views: a cashier, an admin or a
      superuser.  The views behind it already require a signed-in user. */
  function PuedeDespachar(u: Usuario): (ok: bool)
    ensures CheckAdmin(Autenticado(u)) ==> ok
    ensures u.rol == Bodeguero && !u.esSuperusuario ==> !ok
  {
    u.rol in {Cajero, Admin} || u.esSuperusuario
  }

  /** For each gate, the roles it admits: a superuser passes every gate, and
      otherwise the gate depends on the role alone. */
  lemma GateTable(u: Usuario)
    ensures u.esSuperusuario ==>
      CheckAdmin(Autenticado(u)) && CheckBodeguero(Autenticado(u)) && PuedeDespachar(u)
    ensures !u.esSuperusuario ==>
      && (CheckAdmin(Autenticado(u)) <==> u.rol == Admin)
      && (CheckBodeguero(Autenticado(u)) <==> u.rol in {Bodeguero, Admin})
      && (PuedeDespachar(u) <==> u.rol in {Cajero, Admin})
  {
  }

  /** An anonymous visitor passes neither decorator. */
  lemma AnonimoNoPasa()
    ensures !CheckAdmin(Anonimo) && !CheckBodeguero(Anonimo)
  {
  }

  /** The pages `home` sends a visitor to. */
  datatype Destino =
    | HomePublico      // the public landing page
    | DashboardAdmin   // the admin dashboard
    | PanelCajero      // the cashier panel
    | PanelBodeguero   // the warehouse panel
    | Catalogo         // the catalogue
    | BienvenidaStaff  // the fallback page for any other role

  /** `home`: anonymous visitors see the public page; signed-in users are
      routed by role, admins and superusers first.  Every signed-in user lands
      on a page whose own gate admits them, and the fallback page is never
      reached because every user holds one of the four roles. */
  function Home(v: Visitante): (d: Destino)
    ensures d == HomePublico <==> v.Anonimo?
    ensures d == DashboardAdmin <==> CheckAdmin(v)
    ensures d == PanelCajero ==> PuedeDespachar(v.usuario)
    ensures d == PanelBodeguero ==> CheckBodeguero(v)
    ensures d == Catalogo ==> v.Autenticado? && v.usuario.rol == Cliente
    ensures d != BienvenidaStaff
  {
    if v.Anonimo? then HomePublico
    else
      var u := v.usuario;
      if u.rol == Admin || u.esSuperusuario then DashboardAdmin
      else if u.rol == Cajero then PanelCajero
      else if u.rol == Bodeguero then PanelBodeguero
      else if u.rol == Cliente then Catalogo
      else BienvenidaStaff
  }
}
