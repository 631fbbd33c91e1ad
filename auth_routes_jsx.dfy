/**
 * server/routes/auth.jsx: registration of admins and students, and a second
 * login handler. This login has no presence check, and its password check
 * runs inside the `db.query` callback, where a throwing `bcrypt.compare`
 * becomes a rejection nobody catches: this handler sends no reply, and what
 * then happens to the process depends on the Node version and on any
 * `unhandledRejection` handler.
 */
module AuthRoutesJsx {
  import opened Js
  import opened Jwt
  import opened Store
  import opened Http
  import opened Bcrypt
  import AuthRoutes

  /** This file's own copy of the login `switch (role)`. */
  function RoleDispatch(role: Value): (d: Option<AuthRoutes.UserStore>)
    ensures d.Some? <==> AuthRoutes.IsRole(role)
  {
    if role == Str("admin") then Some(AuthRoutes.UserStore(Admins, "id"))
    else if role == Str("instructor") then Some(AuthRoutes.UserStore(Instructors, "instructor_id"))
    else if role == Str("student") then Some(AuthRoutes.UserStore(Students, "student_id"))
    else None
  }

  /** The copy dispatches exactly as server/routes/auth.js does. */
  lemma DispatchMatchesAuthJs(role: Value)
    ensures RoleDispatch(role) == AuthRoutes.RoleDispatch(role)
  {
  }

  /** The login decision chain of this file: role first, then the lookup. */
  function LoginOutcome(body: Object, db: Db, compare: Comparer, env: Option<string>): (r: Response)
    ensures !r.Profile?
    ensures !AuthRoutes.IsRole(Field(body, "role")) ==> r == Rejected(400, "Invalid role")
    ensures AuthRoutes.IsRole(Field(body, "role")) && db.Down? ==> r == Rejected(500, "Server error")
    ensures r.Rejected? && r.status == 401 ==> r.message == "Invalid credentials"
    ensures r.Rejected? ==> r.status in {400, 401, 500}
    ensures r.Silent? <==>
              && AuthRoutes.IsRole(Field(body, "role")) && db.Up?
              && var rows := Where(RowsOf(db, RoleDispatch(Field(body, "role")).value.table), "email", Field(body, "email"));
                 rows != [] && compare(Field(body, "password"), Field(rows[0], "password")).None?
    ensures r.LoggedIn? ==>
              && AuthRoutes.IsRole(Field(body, "role"))
              && "password" !in r.user
              && Field(r.user, "role") == Field(body, "role")
              && r.token.claims.role == Field(body, "role")
              && r.token.expiresIn == "1h"
              && r.token.secret == SecretOrDefault(env)
    ensures AuthRoutes.IsRole(Field(body, "role")) && db.Up? ==>
              var rows := Where(RowsOf(db, RoleDispatch(Field(body, "role")).value.table), "email", Field(body, "email"));
              && (rows == [] ==> r == Rejected(401, "Invalid credentials"))
              && (rows != [] ==>
                    var ok := compare(Field(body, "password"), Field(rows[0], "password"));
                    && (ok == Some(false) ==> r == Rejected(401, "Invalid credentials"))
                    && (ok == Some(true) ==> r.LoggedIn?))
    ensures r.LoggedIn? ==>
              && db.Up?
              && var store := RoleDispatch(Field(body, "role")).value;
                 var rows := Where(RowsOf(db, store.table), "email", Field(body, "email"));
                 && rows != []
                 && compare(Field(body, "password"), Field(rows[0], "password")) == Some(true)
                 && r.token.claims.id == Field(rows[0], store.idField)
                 && r.user == AuthRoutes.Sanitize(rows[0], Field(body, "role"))
  {
    var email, password, role := Field(body, "email"), Field(body, "password"), Field(body, "role");
    match RoleDispatch(role)
    case None => Rejected(400, "Invalid role")
    case Some(store) =>
      match Run(db, Lookup(store.table, "email", email))
      case Failed => Rejected(500, "Server error")
      case Rows(rows) =>
        if rows == [] then Rejected(401, "Invalid credentials")
        else match compare(password, Field(rows[0], "password"))
          case None => Silent
          case Some(false) => Rejected(401, "Invalid credentials")
          case Some(true) =>
            var user := rows[0] - {"password"};
            LoggedIn(Token(Claims(Field(user, store.idField), role), SecretOrDefault(env), "1h"), user["role" := role])
  }

  /** The handler as written. The only lookup happens once the role is known. */
  method Login(body: Object, db: Db, compare: Comparer, env: Option<string>) returns (response: Response, lookups: seq<Lookup>)
    ensures response == LoginOutcome(body, db, compare, env)
    ensures lookups == [] <==> !AuthRoutes.IsRole(Field(body, "role"))
    ensures lookups != [] ==>
              lookups == [Lookup(RoleDispatch(Field(body, "role")).value.table, "email", Field(body, "email"))]
  {
    var email, password, role := Field(body, "email"), Field(body, "password"), Field(body, "role");
    var dispatch := RoleDispatch(role);
    if dispatch.None? {
      return Rejected(400, "Invalid role"), [];
    }
    var table, idField := dispatch.value.table, dispatch.value.idField;
    lookups := [Lookup(table, "email", email)];
    var results := Run(db, lookups[0]);
    if results.Failed? {
      return Rejected(500, "Server error"), lookups;
    }
    if |results.rows| == 0 {
      return Rejected(401, "Invalid credentials"), lookups;
    }
    var user := results.rows[0];
    var isValidPassword := compare(password, Field(user, "password"));
    if isValidPassword.None? {
      return Silent, lookups;
    }
    if !isValidPassword.value {
      return Rejected(401, "Invalid credentials"), lookups;
    }
    user := user - {"password"};
    var token := Token(Claims(Field(user, idField), role), SecretOrDefault(env), "1h");
    response := LoggedIn(token, user["role" := role]);
  }

  /** Without a presence check, a body with a valid role but no email reaches
      the store, matches no row (NULL equals nothing) and gets 401. */
  lemma MissingEmailIsInvalidCredentials(body: Object, db: Db, compare: Comparer, env: Option<string>)
    requires AuthRoutes.IsRole(Field(body, "role")) && db.Up?
    requires "email" !in body || body["email"] == Null
    ensures LoginOutcome(body, db, compare, env) == Rejected(401, "Invalid credentials")
  {
    WhereNullKey(RowsOf(db, RoleDispatch(Field(body, "role")).value.table), "email", Field(body, "email"));
  }

  /** On a complete body and a password check that does not throw, both login
      handlers answer alike, except that a store error is "Server error" in both. */
  lemma AgreesWithAuthJs(body: Object, db: Db, compare: Comparer, env: Option<string>)
    requires AuthRoutes.Present(body)
    requires forall p: Value, h: Value :: compare(p, h).Some?
    ensures LoginOutcome(body, db, compare, env) == AuthRoutes.LoginChain(body, db, compare, env, AuthRoutes.RoleDispatch)
  {
  }

  /** `POST /register/admin`: hash the password, insert the hash. */
  function RegisterAdmin(body: Object, hash: Hasher, insertFails: bool): (r: Effect)
    ensures r.statement.None? <==> hash(Field(body, "password")).None?
    ensures r.statement.None? ==> r.reply == Reply(500, "Server error")
    ensures r.statement.Some? ==>
              && r.statement.value.Insert? && r.statement.value.into == Admins
              && Bound(r.statement.value, "password") == Some(Str(hash(Field(body, "password")).value))
              && Bound(r.statement.value, "email") == Some(Field(body, "email"))
              && r.reply == (if insertFails then Reply(500, "Error registering admin")
                       else Reply(201, "Admin registered successfully"))
  {
    match hash(Field(body, "password"))
    case None => Effect(None, Reply(500, "Server error"))
    case Some(h) =>
      var statement := Insert(Admins, ["email", "password", "name"],
                              [Field(body, "email"), Str(h), Field(body, "name")]);
      Effect(Some(statement),
             if insertFails then Reply(500, "Error registering admin")
             else Reply(201, "Admin registered successfully"))
  }

  /** `POST /register/student`: hash the password, insert the hash with the student number. */
  function RegisterStudent(body: Object, hash: Hasher, insertFails: bool): (r: Effect)
    ensures r.statement.None? <==> hash(Field(body, "password")).None?
    ensures r.statement.None? ==> r.reply == Reply(500, "Server error")
    ensures r.statement.Some? ==>
              && r.statement.value.Insert? && r.statement.value.into == Students
              && Bound(r.statement.value, "password") == Some(Str(hash(Field(body, "password")).value))
              && Bound(r.statement.value, "student_id") == Some(Field(body, "studentId"))
              && r.reply == (if insertFails then Reply(500, "Error registering student")
                       else Reply(201, "Student registered successfully"))
  {
    match hash(Field(body, "password"))
    case None => Effect(None, Reply(500, "Server error"))
    case Some(h) =>
      var statement := Insert(Students, ["student_id", "email", "password", "name"],
                              [Field(body, "studentId"), Field(body, "email"), Str(h), Field(body, "name")]);
      Effect(Some(statement),
             if insertFails then Reply(500, "Error registering student")
             else Reply(201, "Student registered successfully"))
  }

  /** Neither registration stores anything in the password column but the
      hasher's output: the plaintext is stored only if the hasher returns it. */
  lemma RegistrationStoresOnlyTheHash(body: Object, hash: Hasher, insertFails: bool)
    requires forall v: Value :: hash(v).Some? ==> Str(hash(v).value) != v
    ensures RegisterAdmin(body, hash, insertFails).statement.Some? ==>
              Bound(RegisterAdmin(body, hash, insertFails).statement.value, "password") != Some(Field(body, "password"))
    ensures RegisterStudent(body, hash, insertFails).statement.Some? ==>
              Bound(RegisterStudent(body, hash, insertFails).statement.value, "password") != Some(Field(body, "password"))
  {
  }
}
