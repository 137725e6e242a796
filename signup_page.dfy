/**
 * The sign-up page of Frontend/src/pages/Signup.jsx: a five-field form checked for empty fields,
 * then for password length, before the registration call; the call's reply is a parameter.
 */
module SignupPage {
  import opened Wrappers
  import opened Records
  import opened Ui
  import BackendAuth

  datatype Form = Form(name: string, emp_id: string, password: string, department: string, role: string)

  /** The initial form: every field empty except the role, which defaults to "employee". */
  const EmptyForm: Form := Form("", "", "", "", "employee")

  /** The minimum password length. */
  const MinPasswordLength: nat := 6

  /** The outcome of the two checks, in the order they run. */
  datatype Check = MissingField | ShortPassword | Ready

  predicate AnyEmpty(f: Form) {
    f.name == "" || f.emp_id == "" || f.password == "" || f.department == "" || f.role == ""
  }

  function Validate(f: Form): (r: Check)
    ensures r == MissingField <==> AnyEmpty(f)
    ensures r == ShortPassword <==> !AnyEmpty(f) && |f.password| < MinPasswordLength
    ensures r == Ready <==> !AnyEmpty(f) && |f.password| >= MinPasswordLength
  {
    if AnyEmpty(f) then MissingField
    else if |f.password| < MinPasswordLength then ShortPassword
    else Ready
  }

  /** The body registerUser posts: the five form fields, each present. */
  function RequestOf(f: Form): (r: BackendAuth.SignupRequest)
    ensures BackendAuth.AllPresent(r)
    ensures r.emp_id == Some(f.emp_id) && r.password == Some(f.password) && r.role == Some(f.role)
  {
    BackendAuth.SignupRequest(Some(f.name), Some(f.emp_id), Some(f.password), Some(f.role), Some(f.department))
  }

  /** What the registration call gives back: success, or an error whose body may carry a message. */
  datatype Reply = Registered | Refused(message: Option<string>)

  /** The toast shown when the server refuses without a message. */
  const SignupFallback := "Signup failed. Try again."

  /** The page's state. */
  class Page {
    var form: Form
    var loading: bool

    constructor()
      ensures form == EmptyForm && !loading
    {
      form := EmptyForm;
      loading := false;
    }

    method HandleChange(f: Form)
      modifies this
      ensures form == f && loading == old(loading)
    {
      form := f;
    }

    /**
     * handleSubmit: a refused form shows its message and makes no call (`sent` is None);
     * otherwise the form is posted, success navigates to "/" and failure shows the server's
     * message or the fallback. Loading is false once a call has been made.
     */
    method HandleSubmit(reply: Reply) returns (notice: Notice, sent: Option<BackendAuth.SignupRequest>, destination: Option<string>)
      modifies this
      ensures form == old(form)
      ensures Validate(form) == MissingField ==>
                notice == Failure("All fields are required") && sent == None && destination == None &&
                loading == old(loading)
      ensures Validate(form) == ShortPassword ==>
                notice == Failure("Password must be at least 6 characters") && sent == None &&
                destination == None && loading == old(loading)
      ensures Validate(form) == Ready ==> sent == Some(RequestOf(form)) && !loading
      ensures Validate(form) == Ready && reply.Registered? ==>
                notice == Success("Signup successful") && destination == Some("/")
      ensures Validate(form) == Ready && reply.Refused? ==>
                notice == Failure(MessageOr(reply.message, SignupFallback)) && destination == None
    {
      match Validate(form) {
        case MissingField =>
          return Failure("All fields are required"), None, None;
        case ShortPassword =>
          return Failure("Password must be at least 6 characters"), None, None;
        case Ready =>
      }
      loading := true;
      sent := Some(RequestOf(form));
      if reply.Registered? {
        notice := Success("Signup successful");
        destination := Some("/");
      } else {
        notice := Failure(MessageOr(reply.message, SignupFallback));
        destination := None;
      }
      loading := false;
    }
  }

  /**
   * The empty-field check runs first: a form told its password is short has every field
   * filled, and an empty password, the shortest of all, is reported as a missing field.
   */
  lemma MissingBeforeShort(f: Form)
    ensures Validate(f) == ShortPassword ==> !AnyEmpty(f)
    ensures f.password == "" ==> Validate(f) == MissingField
  {
  }

  /**
   * Every request the page sends passes the server's presence check, and a user it
   * registers can then log in with the same employee id, password and role.
   */
  lemma AcceptedFormRegisters(f: Form, rows: map<string, BackendAuth.UserRow>, id: nat, hash: string -> string, token: string)
    requires Validate(f) == Ready
    ensures BackendAuth.AllPresent(RequestOf(f))
    ensures var after := rows[f.emp_id := BackendAuth.SignedUp(RequestOf(f), id, hash)];
            BackendAuth.Login(after, hash, BackendAuth.LoginRequest(Some(f.emp_id), Some(f.password), Some(f.role)), token) ==
              BackendAuth.LoginReply(200, "", Some(BackendAuth.Session(token, f.emp_id, f.role)))
  {
    BackendAuth.SignupThenLogin(rows, RequestOf(f), id, hash, token);
  }
}
