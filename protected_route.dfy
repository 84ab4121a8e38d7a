/** The route guard: while the auth slice is loading it shows the loader,
    a signed-out visitor is sent to the login page, a signed-in user whose
    role is not among the route's allowed roles is sent home, and everyone
    else sees the protected page. */
module ProtectedRoute {
  import opened Text
  import opened Js
  import opened AuthSlice

  datatype Outcome = ShowLoader | RedirectTo(path: string) | ShowChildren

  /** The guard's decision. `allowedRoles.includes(role)` compares with SameValueZero, which on
      these values is equality. */
  function Decide(loading: bool, isAuthenticated: bool, role: JsValue, allowedRoles: seq<JsValue>): (r: Outcome)
    ensures loading ==> r == ShowLoader
    ensures !loading && !isAuthenticated ==> r == RedirectTo("/login")
    ensures !loading && isAuthenticated && |allowedRoles| > 0 && role !in allowedRoles ==> r == RedirectTo("/")
    ensures r == ShowChildren <==> !loading && isAuthenticated && (|allowedRoles| == 0 || role in allowedRoles)
  {
    if loading then ShowLoader
    else if !isAuthenticated then RedirectTo("/login")
    else if |allowedRoles| > 0 && role !in allowedRoles then RedirectTo("/")
    else ShowChildren
  }

  /** A route with no role list admits every signed-in user, whatever the role. */
  lemma OpenRouteAdmitsAnyRole(isAuthenticated: bool, role: JsValue, other: JsValue)
    requires isAuthenticated
    ensures Decide(false, isAuthenticated, role, []) == Decide(false, isAuthenticated, other, []) == ShowChildren
  {
  }

  /** Adding roles to the allowed list never turns an admitted user away. */
  lemma MoreRolesAdmitMore(loading: bool, isAuthenticated: bool, role: JsValue, roles: seq<JsValue>, extra: seq<JsValue>)
    requires |roles| > 0
    requires Decide(loading, isAuthenticated, role, roles) == ShowChildren
    ensures Decide(loading, isAuthenticated, role, roles + extra) == ShowChildren
  {
    assert role in roles + extra;
  }

  /** Right after a log-out every protected page either waits for the loader or sends the visitor
      to the login page. */
  method GuardAfterLogout(store: AuthStore, allowedRoles: seq<JsValue>) returns (r: Outcome)
    modifies store`user, store`token, store`isAuthenticated, store`role, store`error, store`savedToken, store`savedUser
    ensures r == ShowLoader || r == RedirectTo("/login")
    ensures r == ShowLoader <==> store.loading
  {
    store.Logout();
    r := Decide(store.loading, store.isAuthenticated, store.role, allowedRoles);
  }

  /** A doctor who has just logged in reaches a doctor-only page. */
  method DoctorReachesDoctorPages(store: AuthStore, payload: JsValue) returns (r: Outcome)
    requires LoginRole(payload) == Some("doctor")
    modifies store
    ensures r == ShowChildren
  {
    var threw := store.LoginSuccess(payload);
    r := Decide(store.loading, store.isAuthenticated, store.role, [Str("doctor")]);
  }
}
