/** The route guard and the route table of the application shell (src/App.tsx):
    what the screen shows for a requested path, given the session. */
module Routing {
  import opened Types

  /** The two role names that the routes ask for (src/types/index.ts). */
  const Admin := "Admin"
  const Caissier := "caissier"

  datatype Screen = LoginForm | Dashboard | ProductsPage | PosPage

  /** What a route element evaluates to: the loading spinner, a `<Navigate replace>`
      to a path, or a screen. */
  datatype Decision = Spinner | Redirect(to: string) | Render(screen: Screen)

  /** What the guard reads from the session store. */
  datatype GuardState = GuardState(isLoading: bool, user: Option<User>)

  /** `requiredRole && user.typeUser !== requiredRole`: an absent or empty
      required role (both falsy) lets any signed-in user through. */
  predicate RoleMismatch(user: User, requiredRole: Option<string>)
  {
    requiredRole.Some? && requiredRole.value != "" && user.typeUser != requiredRole.value
  }

  /** `ProtectedRoute`: spinner while loading, the login page without a user,
      home for a user of the wrong role, and the children otherwise. */
  function ProtectedRoute(s: GuardState, requiredRole: Option<string>, child: Screen): (d: Decision)
    ensures s.isLoading <==> d == Spinner
    ensures d == Redirect("/login") <==> !s.isLoading && s.user.None?
    ensures d == Redirect("/") <==> !s.isLoading && s.user.Some? && RoleMismatch(s.user.value, requiredRole)
    ensures d == Render(child) <==> !s.isLoading && s.user.Some? && !RoleMismatch(s.user.value, requiredRole)
    ensures d in {Spinner, Redirect("/login"), Redirect("/"), Render(child)}
  {
    if s.isLoading then Spinner
    else if s.user.None? then Redirect("/login")
    else if RoleMismatch(s.user.value, requiredRole) then Redirect("/")
    else Render(child)
  }

  /** A row of the `<Routes>` table: a plain `<Navigate to="/">`, or a screen
      nested under a layout route guarded by a role. */
  datatype RouteEntry = NavigateHome | Guarded(role: string, screen: Screen)

  /** The route table, matched on the exact path; `*` catches everything else. */
  function Match(path: string): (e: RouteEntry)
    ensures e.Guarded? ==> path in {"/", "/produits", "/caisse"}
    ensures e.Guarded? && e.role == Admin <==> path == "/" || path == "/produits"
    ensures e.Guarded? && e.role == Caissier <==> path == "/caisse"
  {
    if path == "/login" then NavigateHome
    else if path == "/" then Guarded(Admin, Dashboard)
    else if path == "/produits" then Guarded(Admin, ProductsPage)
    else if path == "/caisse" then Guarded(Caissier, PosPage)
    else NavigateHome
  }

  /** The role a screen is reached with. */
  function RoleFor(screen: Screen): string
  {
    match screen
    case PosPage => Caissier
    case _ => Admin
  }

  /** `AppRoutes`: spinner while loading, the login form on every path without a
      user, and the route table otherwise. A screen other than the login form
      is only ever rendered for a user holding the role it is filed under, and
      every redirect goes home. */
  function AppRoutes(path: string, s: GuardState): (d: Decision)
    ensures s.isLoading <==> d == Spinner
    ensures !s.isLoading && s.user.None? <==> d == Render(LoginForm)
    ensures d.Render? && d.screen != LoginForm ==>
      s.user.Some? && s.user.value.typeUser == RoleFor(d.screen) && Match(path) == Guarded(RoleFor(d.screen), d.screen)
    ensures d.Redirect? ==> d.to == "/"
  {
    if s.isLoading then Spinner
    else if s.user.None? then Render(LoginForm)
    else match Match(path)
      case NavigateHome => Redirect("/")
      case Guarded(role, screen) => ProtectedRoute(s, Some(role), screen)
  }

  /** An administrator reaches the dashboard, the products page, and home from
      any other path, which renders the dashboard. */
  lemma AdminRoutes(path: string, u: User)
    requires u.typeUser == Admin
    ensures AppRoutes("/", GuardState(false, Some(u))) == Render(Dashboard)
    ensures AppRoutes("/produits", GuardState(false, Some(u))) == Render(ProductsPage)
    ensures path != "/" && path != "/produits" ==> AppRoutes(path, GuardState(false, Some(u))) == Redirect("/")
  {
  }

  /** A cashier reaches the checkout screen, and every other path sends them
      home; home is filed under the administrator's role, so it sends them home
      again: the decision at "/" is a fixed point, never a render. */
  lemma CashierRoutes(path: string, u: User)
    requires u.typeUser == Caissier
    ensures AppRoutes("/caisse", GuardState(false, Some(u))) == Render(PosPage)
    ensures path != "/caisse" ==> AppRoutes(path, GuardState(false, Some(u))) == Redirect("/")
    ensures AppRoutes("/", GuardState(false, Some(u))) == Redirect("/")
  {
  }

  /** What the screen settles on when each `<Navigate>` is followed, at most
      `steps` times. */
  function Settle(path: string, s: GuardState, steps: nat): Decision
    decreases steps
  {
    var d := AppRoutes(path, s);
    if d.Redirect? && steps > 0 then Settle(d.to, s, steps - 1) else d
  }

  /** The cashier's redirect at "/" never reaches a screen, however many times
      it is followed. */
  lemma {:induction false} CashierHomeNeverSettles(u: User, steps: nat)
    requires u.typeUser == Caissier
    ensures Settle("/", GuardState(false, Some(u)), steps) == Redirect("/")
  {
    if steps > 0 {
      CashierHomeNeverSettles(u, steps - 1);
    }
  }

  /** For an administrator one redirect is enough: every path settles on a screen. */
  lemma AdminAlwaysSettles(path: string, u: User)
    requires u.typeUser == Admin
    ensures Settle(path, GuardState(false, Some(u)), 1).Render?
  {
  }

  /** A signed-in user whose role is neither name renders nothing at all. */
  lemma OtherRoleRendersNothing(path: string, u: User)
    requires u.typeUser != Admin && u.typeUser != Caissier
    ensures AppRoutes(path, GuardState(false, Some(u))) == Redirect("/")
  {
  }
}
