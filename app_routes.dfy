/**
 * The route table of Frontend/src/App.jsx. The protected pages are wrapped in the gate of
 * Frontend/src/components/ProtectedRoute.jsx and given a `role` prop; that gate reads only
 * `allowedRoles`, so as wired the declared role is never consulted.
 */
module AppRoutes {
  import opened Wrappers
  import opened Records
  import opened Ui
  import RouteGuard
  import RoleGuard

  /** A route: a public page, or a page behind the gate with the role it declares. */
  datatype Access = Public | Gated(declaredRole: string)

  datatype Route = Route(path: string, access: Access)

  /** The routes, in declaration order. */
  const Routes: seq<Route> := [
    Route("/", Public),
    Route("/signup", Public),
    Route("/unauthorized", Public),
    Route("/manager-dashboard", Gated("manager")),
    Route("/feedback-history", Gated("manager")),
    Route("/employee-dashboard", Gated("employee")),
    Route("/request-feedback", Gated("employee")),
    Route("/anonymous-feedback", Gated("employee"))
  ]

  /** The first route with the path, as the router matches it. */
  function Lookup(routes: seq<Route>, path: string): (r: Option<Access>)
    ensures r.None? <==> forall i :: 0 <= i < |routes| ==> routes[i].path != path
    ensures r.Some? ==> exists i :: 0 <= i < |routes| && routes[i] == Route(path, r.value)
  {
    if routes == [] then None
    else if routes[0].path == path then Some(routes[0].access)
    else
      var r := Lookup(routes[1..], path);
      r
  }

  /** Among several routes with the same path, the first one wins. */
  lemma {:induction false} LookupFirst(routes: seq<Route>, path: string, i: int)
    requires 0 <= i < |routes| && routes[i].path == path
    requires forall j :: 0 <= j < i ==> routes[j].path != path
    ensures Lookup(routes, path) == Some(routes[i].access)
  {
    if i > 0 {
      LookupFirst(routes[1..], path, i - 1);
    }
  }

  /** The three public pages are not gated; the others declare the role of their audience. */
  lemma TableAccess()
    ensures Lookup(Routes, "/") == Some(Public)
    ensures Lookup(Routes, "/signup") == Some(Public)
    ensures Lookup(Routes, "/unauthorized") == Some(Public)
    ensures Lookup(Routes, "/manager-dashboard") == Some(Gated("manager"))
    ensures Lookup(Routes, "/feedback-history") == Some(Gated("manager"))
    ensures Lookup(Routes, "/employee-dashboard") == Some(Gated("employee"))
    ensures Lookup(Routes, "/request-feedback") == Some(Gated("employee"))
    ensures Lookup(Routes, "/anonymous-feedback") == Some(Gated("employee"))
  {
  }

  /** What a visit to a path yields as wired: the `role` prop reaches a gate that ignores it. */
  function WiredAccess(path: string, user: Option<User>): Option<Decision> {
    match Lookup(Routes, path)
    case None => None
    case Some(Public) => Some(Render)
    case Some(Gated(_)) => Some(RoleGuard.Decide(user, None))
  }

  /** As wired, every signed-in user renders every page, whatever its declared role. */
  lemma WiredIgnoresRole(path: string, user: Option<User>)
    requires Lookup(Routes, path).Some?
    ensures user.Some? ==> WiredAccess(path, user) == Some(Render)
    ensures user.None? && Lookup(Routes, path).value.Gated? ==> WiredAccess(path, user) == Some(Redirect("/"))
  {
  }

  /** The input that shows it: an employee opens the manager dashboard. */
  lemma EmployeeOpensManagerDashboard()
    ensures WiredAccess("/manager-dashboard", Some(User(Some("t"), Some("E1"), Some("employee"), None))) == Some(Render)
  {
    TableAccess();
  }

  /** The evident intent: the declared role restricts the page, as `allowedRoles={[role]}` would. */
  function IntendedAccess(path: string, user: Option<User>): Option<Decision> {
    match Lookup(Routes, path)
    case None => None
    case Some(Public) => Some(Render)
    case Some(Gated(role)) => Some(RoleGuard.Decide(user, Some([role])))
  }

  /**
   * With the intended wiring a gated page renders exactly for a signed-in user of its
   * declared role, and the single-role gate would decide the same.
   */
  lemma IntendedEnforcesRole(path: string, user: Option<User>)
    requires Lookup(Routes, path).Some? && Lookup(Routes, path).value.Gated?
    ensures var role := Lookup(Routes, path).value.declaredRole;
            (IntendedAccess(path, user) == Some(Render) <==> user.Some? && user.value.role == Some(role)) &&
            IntendedAccess(path, user) == Some(RouteGuard.Decide(user, Some(role)))
  {
    var role := Lookup(Routes, path).value.declaredRole;
    var i :| 0 <= i < |Routes| && Routes[i] == Route(path, Gated(role));
    assert role != "";
    RoleGuard.GatesAgree(user, role);
  }

  /** With the intended wiring the employee of the example is turned away. */
  lemma EmployeeTurnedAway()
    ensures IntendedAccess("/manager-dashboard", Some(User(Some("t"), Some("E1"), Some("employee"), None))) ==
              Some(Redirect("/unauthorized"))
  {
    var user := Some(User(Some("t"), Some("E1"), Some("employee"), None));
    IntendedEnforcesRole("/manager-dashboard", user);
    assert "employee"[0] != "manager"[0];
  }
}
