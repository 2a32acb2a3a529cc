/** The route guard: what a protected route shows for a given authentication state. */
module ProtectedRoute {
  import opened Wrappers
  import opened AuthContext

  /** Spinner, redirect to login (remembering where from), redirect elsewhere, or the page itself. */
  datatype Decision = Spinner | ToLogin(from: string) | Redirect(to: string) | Children

  const UserHome := "/user-dashboard"
  const Home := "/"

  function DefaultRoles(): seq<string> {
    ["admin", "user"]
  }

  /** The decision of the guard, in the order the source tests its inputs. */
  function Decide(loading: bool, isAuthenticated: bool, user: Option<User>,
                  allowedRoles: Option<seq<string>>, location: string): (d: Decision)
    ensures loading ==> d == Spinner
    ensures !loading && !isAuthenticated ==> d == ToLogin(location)
    ensures d.Redirect? ==> user.Some? && user.value.role !in allowedRoles.GetOr(DefaultRoles())
    ensures d.Redirect? ==> (d.to == UserHome <==> user.value.role == "user")
    ensures !loading && isAuthenticated && user.Some? && user.value.role !in allowedRoles.GetOr(DefaultRoles()) ==>
      d == Redirect(if user.value.role == "user" then UserHome else Home)
    ensures !loading && isAuthenticated && (user.None? || user.value.role in allowedRoles.GetOr(DefaultRoles())) ==>
      d == Children
  {
    var roles := allowedRoles.GetOr(DefaultRoles());
    if loading then Spinner
    else if !isAuthenticated then ToLogin(location)
    else if user.Some? && user.value.role !in roles then
      (if user.value.role == "user" then Redirect(UserHome) else Redirect(Home))
    else Children
  }

  /** With the provider's own value, the page is shown exactly to a loaded user of an allowed role. */
  lemma ChildrenIff(user: Option<User>, loading: bool, allowedRoles: Option<seq<string>>, location: string)
    ensures var v := ValueOf(user, loading);
      Decide(v.loading, v.isAuthenticated, v.user, allowedRoles, location) == Children
      <==> !loading && user.Some? && user.value.role in allowedRoles.GetOr(DefaultRoles())
  {
  }

  /** With the default roles every signed-in admin or user gets the page. */
  lemma DefaultRolesAdmitBoth(u: User, location: string)
    requires u.role == "admin" || u.role == "user"
    ensures Decide(false, true, Some(u), None, location) == Children
  {
    assert u.role in DefaultRoles();
  }

  /** A user on an admin-only route is sent to the user dashboard, any other role to the home page. */
  lemma AdminOnlyRoute(u: User, location: string)
    requires u.role != "admin"
    ensures Decide(false, true, Some(u), Some(["admin"]), location)
      == (if u.role == "user" then Redirect(UserHome) else Redirect(Home))
  {
  }
}
