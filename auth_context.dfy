/**
 * The session state machine of Frontend/src/context/AuthContext.jsx: the current user, restored
 * from the "user" key on start-up, set by login and cleared by logout, together with the role
 * id keys "managerId" and "employeeId".
 */
module AuthContext {
  import opened Wrappers
  import opened Records
  import opened Storage

  /** `user?.role === "manager"`. */
  predicate IsManager(user: Option<User>) {
    user.Some? && user.value.role == Some("manager")
  }

  /** `user?.role === "employee"`. */
  predicate IsEmployee(user: Option<User>) {
    user.Some? && user.value.role == Some("employee")
  }

  /** No user is both, and without a user neither holds. */
  lemma RolesExclusive(user: Option<User>)
    ensures !(IsManager(user) && IsEmployee(user))
    ensures user.None? ==> !IsManager(user) && !IsEmployee(user)
  {
  }

  /** What the "user" key may hold: the application only ever writes a user object there. */
  predicate UserEntryTyped(items: Items) {
    match Get(items, UserKey)
    case None => true
    case Some(v) => v.UserObject? || v.JsonNull? || v.Text?
  }

  /** How the start-up effect treats the stored text. */
  datatype Restore =
    | Skip               // absent, "" or the text "undefined": nothing happens
    | Parsed(user: Option<User>) // JSON.parse succeeds: the user is set to the result
    | Malformed          // JSON.parse throws: the key is removed

  function RestoreOf(items: Items): (r: Restore)
    requires UserEntryTyped(items)
    ensures Get(items, UserKey).None? ==> r == Skip
    ensures Get(items, UserKey) == Some(Text("")) || Get(items, UserKey) == Some(Text("undefined")) ==> r == Skip
    ensures r.Parsed? <==> Get(items, UserKey).Some? && !Get(items, UserKey).value.Text?
  {
    match Get(items, UserKey)
    case None => Skip
    case Some(UserObject(u)) => Parsed(Some(u))
    case Some(JsonNull) => Parsed(None)
    case Some(Text(raw)) => if raw == "" || raw == "undefined" then Skip else Malformed
  }

  /** The user after start-up, from an initial `null`. */
  function HydratedUser(items: Items): (u: Option<User>)
    requires UserEntryTyped(items)
    ensures u.Some? <==> Get(items, UserKey).Some? && Get(items, UserKey).value.UserObject?
  {
    match RestoreOf(items)
    case Parsed(u) => u
    case _ => None
  }

  /** The store after start-up: only a malformed "user" is removed. */
  function HydratedItems(items: Items): (r: Items)
    requires UserEntryTyped(items)
    ensures RestoreOf(items).Malformed? ==> r == items - {UserKey} && UserKey !in r
    ensures !RestoreOf(items).Malformed? ==> r == items
  {
    if RestoreOf(items).Malformed? then items - {UserKey} else items
  }

  /** A second start-up changes nothing more: hydration is idempotent. */
  lemma HydrateIdempotent(items: Items)
    requires UserEntryTyped(items)
    ensures UserEntryTyped(HydratedItems(items))
    ensures HydratedItems(HydratedItems(items)) == HydratedItems(items)
    ensures HydratedUser(HydratedItems(items)) == HydratedUser(items)
  {
  }

  /** `localStorage.setItem(key, id)` stores `String(id)`, which is "undefined" when the id is absent. */
  function IdText(id: Option<string>): Stored {
    Text(OrElse(id, "undefined"))
  }

  /** The store after login. */
  function LoginItems(items: Items, userData: User): (r: Items)
    ensures Get(r, UserKey) == Some(UserObject(userData))
    ensures userData.role == Some("manager") ==>
              Get(r, ManagerIdKey) == Some(IdText(userData.id)) && Get(r, EmployeeIdKey) == Get(items, EmployeeIdKey)
    ensures userData.role == Some("employee") ==>
              Get(r, EmployeeIdKey) == Some(IdText(userData.id)) && Get(r, ManagerIdKey) == Get(items, ManagerIdKey)
    ensures userData.role != Some("manager") && userData.role != Some("employee") ==>
              Get(r, ManagerIdKey) == Get(items, ManagerIdKey) && Get(r, EmployeeIdKey) == Get(items, EmployeeIdKey)
    ensures forall k :: k in items && k != UserKey && k != ManagerIdKey && k != EmployeeIdKey ==> k in r && r[k] == items[k]
    ensures forall k :: k in r ==> k in items || k == UserKey || k == ManagerIdKey || k == EmployeeIdKey
  {
    var withUser := items[UserKey := UserObject(userData)];
    if userData.role == Some("manager") then withUser[ManagerIdKey := IdText(userData.id)]
    else if userData.role == Some("employee") then withUser[EmployeeIdKey := IdText(userData.id)]
    else withUser
  }

  /** The store after logout. */
  function LogoutItems(items: Items): (r: Items)
    ensures UserKey !in r && ManagerIdKey !in r && EmployeeIdKey !in r
    ensures forall k :: k in items && k != UserKey && k != ManagerIdKey && k != EmployeeIdKey ==> k in r && r[k] == items[k]
    ensures forall k :: k in r ==> k in items
  {
    items - {UserKey, ManagerIdKey, EmployeeIdKey}
  }

  /** A reload after login restores the same user. */
  lemma LoginThenHydrate(items: Items, userData: User)
    ensures UserEntryTyped(LoginItems(items, userData))
    ensures HydratedUser(LoginItems(items, userData)) == Some(userData)
    ensures HydratedItems(LoginItems(items, userData)) == LoginItems(items, userData)
  {
  }

  /** A reload after logout restores no user, and so no role. */
  lemma LogoutThenHydrate(items: Items)
    ensures UserEntryTyped(LogoutItems(items))
    ensures HydratedUser(LogoutItems(items)) == None
    ensures !IsManager(HydratedUser(LogoutItems(items))) && !IsEmployee(HydratedUser(LogoutItems(items)))
  {
  }

  /** The provider's state: the current user. */
  class AuthProvider {
    var user: Option<User>

    constructor()
      ensures user == None
    {
      user := None;
    }

    /** The start-up effect. */
    method Hydrate(store: LocalStorage)
      requires UserEntryTyped(store.items)
      modifies this, store
      ensures store.items == HydratedItems(old(store.items))
      ensures user == match RestoreOf(old(store.items))
                      case Parsed(u) => u
                      case _ => old(user)
    {
      var restore := RestoreOf(store.items);
      match restore {
        case Skip =>
        case Parsed(u) => user := u;
        case Malformed => store.RemoveItem(UserKey);
      }
    }

    /** login: persists the user and its role id key, then sets the user. */
    method Login(store: LocalStorage, userData: User)
      modifies this, store
      ensures store.items == LoginItems(old(store.items), userData)
      ensures user == Some(userData)
    {
      store.SetItem(UserKey, UserObject(userData));
      if userData.role == Some("manager") {
        store.SetItem(ManagerIdKey, IdText(userData.id));
      } else if userData.role == Some("employee") {
        store.SetItem(EmployeeIdKey, IdText(userData.id));
      }
      user := Some(userData);
    }

    /** logout: removes the three keys and clears the user. */
    method Logout(store: LocalStorage)
      modifies this, store
      ensures store.items == LogoutItems(old(store.items))
      ensures user == None && !IsManager(user) && !IsEmployee(user)
    {
      store.RemoveItem(UserKey);
      store.RemoveItem(ManagerIdKey);
      store.RemoveItem(EmployeeIdKey);
      user := None;
    }
  }
}
