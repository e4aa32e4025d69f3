/**
 * The view selector of the root component and the role guard on the admin
 * console. `setView` takes any of the seven view names; which screen is then
 * drawn depends on the view and, for the admin console, on the user's role.
 */
module Navigation {
  import opened Wrappers

  datatype View = Home | Shop | Cart | Orders | Login | Account | Admin

  /** The user object returned by the login endpoint, as far as the client reads it. */
  datatype User = User(name: string, email: string, role: string)

  /** What the page shows under the navigation bar. */
  datatype Screen = HomePage | ShopPage | CartPage | LoginForm | AdminConsole | OrdersPage | Blank

  /** `user?.role === 'admin'`: false when nobody is logged in. */
  predicate IsAdmin(user: Option<User>)
    ensures user.None? ==> !IsAdmin(user)
    ensures IsAdmin(user) ==> user.value.role == "admin"
  {
    user.Some? && user.value.role == "admin"
  }

  /** The screen the render branches select for a view and a user. */
  function Rendered(view: View, user: Option<User>): (s: Screen)
    ensures s == AdminConsole <==> view == Admin && IsAdmin(user)
    ensures s == Blank <==> view == Account || (view == Admin && !IsAdmin(user))
  {
    match view
    case Home => HomePage
    case Shop => ShopPage
    case Cart => CartPage
    case Login => LoginForm
    case Admin => if IsAdmin(user) then AdminConsole else Blank
    case Orders => OrdersPage
    case Account => Blank
  }

  /** Outside the admin view, who is logged in does not change what is drawn. */
  lemma OnlyAdminViewDependsOnUser(view: View, u: Option<User>, u': Option<User>)
    requires view != Admin
    ensures Rendered(view, u) == Rendered(view, u')
  {
  }
}
