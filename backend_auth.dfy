/**
 * The credential endpoints of backend/auth.py over the users table: signup inserts a user
 * under a unique employee id with a hashed password; login decides between 400, 401, 403
 * and 200. The hash is a parameter: any deterministic function of the password.
 */
module BackendAuth {
  import opened Wrappers

  /** A row of the users table; `id` is the auto-increment key, `emp_id` is unique. */
  datatype UserRow = UserRow(
    id: nat, name: string, emp_id: string, password: string, role: string, department: string)

  /** The JSON body of POST /signup: each key may be missing. */
  datatype SignupRequest = SignupRequest(
    name: Option<string>, emp_id: Option<string>, password: Option<string>,
    role: Option<string>, department: Option<string>)

  /** `all(field in data for field in required)`: a presence test, so empty strings pass. */
  predicate AllPresent(r: SignupRequest) {
    r.name.Some? && r.emp_id.Some? && r.password.Some? && r.role.Some? && r.department.Some?
  }

  datatype Reply = Reply(status: int, message: string)

  /** The JSON body of POST /login. */
  datatype LoginRequest = LoginRequest(emp_id: Option<string>, password: Option<string>, role: Option<string>)

  /** The 200 body: `{token, id, role}`. */
  datatype Session = Session(token: string, id: string, role: string)

  datatype LoginReply = LoginReply(status: int, message: string, session: Option<Session>)

  /** Python truthiness of an optional string. */
  predicate Given(s: Option<string>) {
    s.Some? && s.value != ""
  }

  /**
   * The login decision: missing credentials, then unknown user or wrong password, then a role
   * other than the stored one, then success with the employee id and the stored role.
   * `token` stands for the JWT the server would issue.
   */
  function Login(rows: map<string, UserRow>, hash: string -> string, req: LoginRequest, token: string): (r: LoginReply)
    ensures r.status == 400 <==> !Given(req.emp_id) || !Given(req.password) || !Given(req.role)
    ensures r.status == 401 <==>
              Given(req.emp_id) && Given(req.password) && Given(req.role) &&
              (req.emp_id.value !in rows || rows[req.emp_id.value].password != hash(req.password.value))
    ensures r.status == 403 ==> req.emp_id.value in rows && rows[req.emp_id.value].password == hash(req.password.value)
    ensures r.status == 200 <==> r.session.Some?
    ensures r.status in {200, 400, 401, 403}
    ensures r.session.Some? ==>
              req.emp_id.value in rows && rows[req.emp_id.value].password == hash(req.password.value) &&
              r.session.value == Session(token, rows[req.emp_id.value].emp_id, req.role.value) &&
              rows[req.emp_id.value].role == req.role.value
  {
    if !Given(req.emp_id) || !Given(req.password) || !Given(req.role) then
      LoginReply(400, "Missing credentials", None)
    else if req.emp_id.value !in rows || rows[req.emp_id.value].password != hash(req.password.value) then
      LoginReply(401, "Invalid credentials", None)
    else if rows[req.emp_id.value].role != req.role.value then
      LoginReply(403, "Role mismatch", None)
    else
      var user := rows[req.emp_id.value];
      LoginReply(200, "", Some(Session(token, user.emp_id, user.role)))
  }

  /**
   * Every row is filed under its own employee id (the UNIQUE column), row ids are below the
   * next auto-increment value, and no two rows share a row id.
   */
  predicate TableValid(rows: map<string, UserRow>, nextId: nat) {
    (forall k :: k in rows ==> rows[k].emp_id == k && rows[k].id < nextId) &&
    (forall k1, k2 :: k1 in rows && k2 in rows && k1 != k2 ==> rows[k1].id != rows[k2].id)
  }

  /**
   * In a well-formed table the session of a 200 carries the employee id that was asked for
   * (not the numeric row id) and the role that was asked for.
   */
  lemma SessionIdentity(rows: map<string, UserRow>, nextId: nat, hash: string -> string, req: LoginRequest, token: string)
    requires TableValid(rows, nextId)
    requires Login(rows, hash, req, token).status == 200
    ensures Login(rows, hash, req, token).session == Some(Session(token, req.emp_id.value, req.role.value))
  {
  }

  /** The row a successful signup inserts. */
  function SignedUp(req: SignupRequest, id: nat, hash: string -> string): UserRow
    requires AllPresent(req)
  {
    UserRow(id, req.name.value, req.emp_id.value, hash(req.password.value), req.role.value, req.department.value)
  }

  /** The users table. */
  class UsersTable {
    var rows: map<string, UserRow>
    var nextId: nat

    predicate Valid()
      reads this
    {
      TableValid(rows, nextId)
    }

    constructor()
      ensures rows == map[] && Valid()
    {
      rows := map[];
      nextId := 1;
    }

    /**
     * POST /signup: 400 when a key is missing, 409 when the employee id exists, otherwise the
     * user is stored with the hash of the password and 201 is returned. The table changes
     * only on 201.
     */
    method Signup(req: SignupRequest, hash: string -> string) returns (reply: Reply)
      requires Valid()
      modifies this
      ensures Valid()
      ensures !AllPresent(req) ==>
                reply == Reply(400, "Missing fields") && rows == old(rows) && nextId == old(nextId)
      ensures AllPresent(req) && req.emp_id.value in old(rows) ==>
                reply == Reply(409, "User already exists") && rows == old(rows) && nextId == old(nextId)
      ensures AllPresent(req) && req.emp_id.value !in old(rows) ==>
                reply == Reply(201, "User registered successfully") &&
                rows == old(rows)[req.emp_id.value := SignedUp(req, old(nextId), hash)] &&
                nextId == old(nextId) + 1
    {
      if !AllPresent(req) {
        return Reply(400, "Missing fields");
      }
      if req.emp_id.value in rows {
        return Reply(409, "User already exists");
      }
      rows := rows[req.emp_id.value := SignedUp(req, nextId, hash)];
      nextId := nextId + 1;
      reply := Reply(201, "User registered successfully");
    }
  }

  /**
   * A user who signed up with non-empty credentials can log in with the same employee id,
   * password and role, and gets back that employee id and role.
   */
  lemma SignupThenLogin(rows: map<string, UserRow>, req: SignupRequest, id: nat, hash: string -> string, token: string)
    requires AllPresent(req) && Given(req.emp_id) && Given(req.password) && Given(req.role)
    ensures var after := rows[req.emp_id.value := SignedUp(req, id, hash)];
            Login(after, hash, LoginRequest(req.emp_id, req.password, req.role), token) ==
              LoginReply(200, "", Some(Session(token, req.emp_id.value, req.role.value)))
  {
  }

  /** 401 comes before 403: a wrong password is reported as such whatever role is asked for. */
  lemma WrongPasswordHidesRole(rows: map<string, UserRow>, hash: string -> string, empId: string, password: string, role: string, token: string)
    requires empId != "" && password != "" && role != ""
    requires empId in rows && rows[empId].password != hash(password)
    ensures Login(rows, hash, LoginRequest(Some(empId), Some(password), Some(role)), token).status == 401
  {
  }

  /** 403 means the credentials were right: only the role was wrong. */
  lemma RoleMismatchMeansValidCredentials(rows: map<string, UserRow>, hash: string -> string, req: LoginRequest, token: string)
    requires Login(rows, hash, req, token).status == 403
    ensures Given(req.emp_id) && Given(req.password) && Given(req.role)
    ensures req.emp_id.value in rows && rows[req.emp_id.value].password == hash(req.password.value)
    ensures rows[req.emp_id.value].role != req.role.value
  {
  }

  /** The login outcome does not depend on the password itself, only on its hash. */
  lemma OnlyHashMatters(rows: map<string, UserRow>, hash: string -> string, empId: Option<string>, p: string, q: string, role: Option<string>, token: string)
    requires p != "" && q != "" && hash(p) == hash(q)
    ensures Login(rows, hash, LoginRequest(empId, Some(p), role), token) ==
              Login(rows, hash, LoginRequest(empId, Some(q), role), token)
  {
  }
}
