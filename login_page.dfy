/**
 * The login page of Frontend/src/pages/Login.jsx: the form is checked for an employee id and a
 * password, posted, and on success the session `{token, id, role}` is stored and handed to the
 * provider; the destination follows the role chosen in the form.
 */
module LoginPage {
  import opened Wrappers
  import opened Records
  import opened Storage
  import opened Ui
  import AuthContext
  import BackendAuth
  import AppRoutes

  datatype Form = Form(emp_id: string, password: string, role: string)

  const EmptyForm: Form := Form("", "", "employee")

  /** The page's only check: an employee id and a password; the role is not checked. */
  predicate Filled(f: Form) {
    f.emp_id != "" && f.password != ""
  }

  /** What the login call gives back: the 200 body, or an error with its status and message if any. */
  datatype Reply =
    | LoggedIn(token: Option<string>, id: Option<string>, role: Option<string>)
    | Rejected(status: Option<int>, message: Option<string>)

  /** The stored session: exactly the three keys of the reply, and no email. */
  function SessionOf(token: Option<string>, id: Option<string>, role: Option<string>): (u: User)
    ensures u.token == token && u.id == id && u.role == role && u.email == None
  {
    User(token, id, role, None)
  }

  /** The destination by the form's role, whatever role the reply carries. */
  function Destination(role: string): (d: string)
    ensures role == "manager" <==> d == "/manager-dashboard"
    ensures d == "/manager-dashboard" || d == "/employee-dashboard"
  {
    if role == "manager" then "/manager-dashboard" else "/employee-dashboard"
  }

  /** The toast shown when the server rejects without a message. */
  const LoginFallback := "Login failed. Please try again."

  /** The page's state. */
  class Page {
    var form: Form
    var loading: bool

    constructor()
      ensures form == EmptyForm && !loading
    {
      form := EmptyForm;
      loading := false;
    }

    method HandleChange(f: Form)
      modifies this
      ensures form == f && loading == old(loading)
    {
      form := f;
    }

    /**
     * handleSubmit: an unfilled form makes no call and changes nothing. On success the session
     * is written to "user" and passed to the provider's login. A 403 sends the visitor to
     * "/unauthorized"; any other error only shows a message. No session is written on error,
     * and loading is false after the call.
     */
    method HandleSubmit(store: LocalStorage, auth: AuthContext.AuthProvider, reply: Reply)
      returns (notice: Notice, destination: Option<string>)
      modifies this, store, auth
      ensures form == old(form)
      ensures !Filled(form) ==>
                notice == Failure("Please fill in all fields") && destination == None &&
                store.items == old(store.items) && auth.user == old(auth.user) && loading == old(loading)
      ensures Filled(form) ==> !loading
      ensures Filled(form) && reply.LoggedIn? ==>
                var session := SessionOf(reply.token, reply.id, reply.role);
                store.items == AuthContext.LoginItems(old(store.items), session) &&
                auth.user == Some(session) &&
                notice == Success("Login successful") && destination == Some(Destination(form.role))
      ensures Filled(form) && reply.Rejected? ==>
                store.items == old(store.items) && auth.user == old(auth.user) &&
                (reply.status == Some(403) ==>
                   notice == Failure("Role mismatch. Redirecting to unauthorized...") && destination == Some("/unauthorized")) &&
                (reply.status != Some(403) ==> notice == Failure(MessageOr(reply.message, LoginFallback)) && destination == None)
    {
      if !Filled(form) {
        return Failure("Please fill in all fields"), None;
      }
      loading := true;
      match reply {
        case LoggedIn(token, id, role) =>
          var session := SessionOf(token, id, role);
          store.SetItem(UserKey, UserObject(session));
          auth.Login(store, session);
          notice := Success("Login successful");
          destination := Some(Destination(form.role));
        case Rejected(status, message) =>
          if status == Some(403) {
            notice := Failure("Role mismatch. Redirecting to unauthorized...");
            destination := Some("/unauthorized");
          } else {
            notice := Failure(MessageOr(message, LoginFallback));
            destination := None;
          }
      }
      loading := false;
    }
  }

  /** The reply the page receives from the server's login decision. */
  function ReplyOf(r: BackendAuth.LoginReply): Reply {
    if r.session.Some? then LoggedIn(Some(r.session.value.token), Some(r.session.value.id), Some(r.session.value.role))
    else Rejected(Some(r.status), Some(r.message))
  }

  /**
   * Against the server's decision the form's role and the session's role agree on success,
   * so choosing the destination by the form's role is the same as choosing it by the session's;
   * and a manager or an employee lands on a page the intended route gate lets them see.
   */
  lemma LoginLandsOnOwnDashboard(
    f: Form, rows: map<string, BackendAuth.UserRow>, nextId: nat, hash: string -> string, token: string)
    requires Filled(f)
    requires BackendAuth.TableValid(rows, nextId)
    requires BackendAuth.Login(rows, hash, BackendAuth.LoginRequest(Some(f.emp_id), Some(f.password), Some(f.role)), token).status == 200
    ensures var reply := ReplyOf(BackendAuth.Login(rows, hash, BackendAuth.LoginRequest(Some(f.emp_id), Some(f.password), Some(f.role)), token));
            reply.LoggedIn? && reply.role == Some(f.role) && reply.id == Some(f.emp_id) &&
            (f.role == "manager" || f.role == "employee" ==>
               AppRoutes.IntendedAccess(Destination(f.role), Some(SessionOf(reply.token, reply.id, reply.role))) == Some(Ui.Render))
  {
    var req := BackendAuth.LoginRequest(Some(f.emp_id), Some(f.password), Some(f.role));
    BackendAuth.SessionIdentity(rows, nextId, hash, req, token);
    var reply := ReplyOf(BackendAuth.Login(rows, hash, req, token));
    var session := SessionOf(reply.token, reply.id, reply.role);
    AppRoutes.TableAccess();
    if f.role == "manager" {
      AppRoutes.IntendedEnforcesRole("/manager-dashboard", Some(session));
    } else if f.role == "employee" {
      AppRoutes.IntendedEnforcesRole("/employee-dashboard", Some(session));
    }
  }

  /**
   * The page does not check the role; the server does. The premise is not reachable through
   * the page itself, whose role starts as "employee" and whose select offers only "manager" and
   * "employee": this describes what the server answers if an empty role were sent.
   */
  lemma EmptyRoleRejectedByServer(f: Form, rows: map<string, BackendAuth.UserRow>, hash: string -> string, token: string)
    requires Filled(f) && f.role == ""
    ensures ReplyOf(BackendAuth.Login(rows, hash, BackendAuth.LoginRequest(Some(f.emp_id), Some(f.password), Some(f.role)), token)) ==
              Rejected(Some(400), Some("Missing credentials"))
  {
  }
}
