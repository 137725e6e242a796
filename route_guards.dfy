/**
 * The single-role gate of Frontend/src/routes/ProtectedRoute.jsx: a decision over the current
 * user and an optional required role.
 */
module RouteGuard {
  import opened Wrappers
  import opened Records
  import opened Ui

  /**
   * No user goes to the login page; a required role the user does not have goes to
   * "/unauthorized"; everything else renders.
   */
  function Decide(user: Option<User>, role: Option<string>): (d: Decision)
    ensures d == Redirect("/") <==> user.None?
    ensures d == Redirect("/unauthorized") <==> user.Some? && Truthy(role) && user.value.role != role
    ensures d == Render <==> user.Some? && (!Truthy(role) || user.value.role == role)
  {
    if user.None? then Redirect("/")
    else if Truthy(role) && user.value.role != role then Redirect("/unauthorized")
    else Render
  }

  /** The decision depends on the user only through their presence and their role. */
  lemma OnlyRoleMatters(u: User, v: User, role: Option<string>)
    requires u.role == v.role
    ensures Decide(Some(u), role) == Decide(Some(v), role)
  {
  }
}

/**
 * The list-of-roles gate of Frontend/src/components/ProtectedRoute.jsx, and its effect that
 * restores the user from the "user" key.
 */
module RoleGuard {
  import opened Wrappers
  import opened Records
  import opened Storage
  import opened Ui
  import RouteGuard
  import AuthContext

  /** `allowedRoles.includes(user.role)`: an absent role is in no list of strings. */
  predicate Allowed(allowedRoles: seq<string>, role: Option<string>) {
    role.Some? && role.value in allowedRoles
  }

  /**
   * No user goes to the login page; a given list (even an empty one) that does not hold the
   * user's role goes to "/unauthorized"; without a list every user renders.
   */
  function Decide(user: Option<User>, allowedRoles: Option<seq<string>>): (d: Decision)
    ensures d == Redirect("/") <==> user.None?
    ensures d == Redirect("/unauthorized") <==>
              user.Some? && allowedRoles.Some? && !Allowed(allowedRoles.value, user.value.role)
    ensures d == Render <==> user.Some? && (allowedRoles.None? || Allowed(allowedRoles.value, user.value.role))
  {
    if user.None? then Redirect("/")
    else if allowedRoles.Some? && !Allowed(allowedRoles.value, user.value.role) then Redirect("/unauthorized")
    else Render
  }

  /**
   * The two gates agree: requiring one role is allowing the list holding just that role, and
   * requiring none is giving no list.
   */
  lemma GatesAgree(user: Option<User>, role: string)
    requires role != ""
    ensures RouteGuard.Decide(user, Some(role)) == Decide(user, Some([role]))
    ensures RouteGuard.Decide(user, None) == Decide(user, None)
  {
  }

  /** What the gate's effect does with the stored "user" text when no user is set. */
  datatype Restore = NoChange | SetUser(user: User) | Throws

  /** `JSON.parse(localStorage.getItem("user"))`, with no guard against malformed text. */
  function RestoreOf(items: Items): (r: Restore)
    requires AuthContext.UserEntryTyped(items)
    ensures r.Throws? <==> Get(items, UserKey).Some? && Get(items, UserKey).value.Text?
    ensures r.SetUser? <==> Get(items, UserKey).Some? && Get(items, UserKey).value.UserObject?
  {
    match Get(items, UserKey)
    case None => NoChange
    case Some(UserObject(u)) => SetUser(u)
    case Some(JsonNull) => NoChange
    case Some(Text(_)) => Throws
  }

  /**
   * Where the two restorations part: on any text that is not JSON, including "" and
   * "undefined", the provider's start-up recovers with no user while this effect throws; on
   * every well-formed entry they restore the same user.
   */
  lemma RestoreContrast(items: Items)
    requires AuthContext.UserEntryTyped(items)
    ensures Get(items, UserKey).Some? && Get(items, UserKey).value.Text? ==>
              RestoreOf(items).Throws? && AuthContext.HydratedUser(items).None?
    ensures !RestoreOf(items).Throws? ==>
              AuthContext.HydratedUser(items) == (if RestoreOf(items).SetUser? then Some(RestoreOf(items).user) else None)
  {
  }

  /**
   * The hydration effect: with no current user, sets the provider's user from storage.
   * Returns whether the effect threw (nothing is set then).
   */
  method HydrateEffect(auth: AuthContext.AuthProvider, store: LocalStorage) returns (threw: bool)
    requires AuthContext.UserEntryTyped(store.items)
    modifies auth
    ensures threw <==> old(auth.user).None? && RestoreOf(store.items).Throws?
    ensures auth.user == if old(auth.user).None? && RestoreOf(store.items).SetUser?
                         then Some(RestoreOf(store.items).user) else old(auth.user)
  {
    threw := false;
    if auth.user.None? {
      var restore := RestoreOf(store.items);
      match restore {
        case NoChange =>
        case SetUser(u) => auth.user := Some(u);
        case Throws => threw := true;
      }
    }
  }
}
