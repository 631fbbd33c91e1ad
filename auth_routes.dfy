/**
 * `POST /api/auth/login` and `GET /api/auth/verify` of server/routes/auth.js.
 *
 * Login checks that email, password and role are present, maps the role to
 * its user table and the column whose value goes into the token, looks the
 * user up by email, checks the password with bcrypt (an oracle here), and
 * issues a one-hour token. Verify decodes a bearer token, maps the role
 * claim to a table and looks the user up by column `id`.
 */
module AuthRoutes {
  import opened Js
  import opened Jwt
  import opened Store
  import opened Http
  import opened Bcrypt

  /** Where a role's users live, and which of their columns becomes the token's `id` claim. */
  datatype UserStore = UserStore(table: Table, idField: string)

  type Dispatch = Value -> Option<UserStore>

  predicate IsRole(v: Value)
  {
    v == Str("admin") || v == Str("instructor") || v == Str("student")
  }

  /** The login `switch (role)`: the table and the id column, or `None` for the
      `default` branch ("Invalid role"). */
  function RoleDispatch(role: Value): (d: Option<UserStore>)
    ensures d.Some? <==> IsRole(role)
    ensures d.Some? ==> d.value.table in {Admins, Instructors, Students}
    ensures d.Some? ==> (d.value.idField == "id" <==> role == Str("admin"))
  {
    if role == Str("admin") then Some(UserStore(Admins, "id"))
    else if role == Str("instructor") then Some(UserStore(Instructors, "instructor_id"))
    else if role == Str("student") then Some(UserStore(Students, "student_id"))
    else None
  }

  /** The verify `switch (decoded.role)`: only the table. */
  function VerifyTable(role: Value): (t: Option<Table>)
    ensures t.Some? <==> IsRole(role)
  {
    if role == Str("admin") then Some(Admins)
    else if role == Str("instructor") then Some(Instructors)
    else if role == Str("student") then Some(Students)
    else None
  }

  /** Login and verify agree on which table holds each role's users. */
  lemma DispatchTablesAgree(role: Value)
    ensures RoleDispatch(role).Some? <==> VerifyTable(role).Some?
    ensures RoleDispatch(role).Some? ==> VerifyTable(role) == Some(RoleDispatch(role).value.table)
  {
  }

  /** `!email || !password || !role` is false. */
  predicate Present(body: Object)
  {
    Truthy(Field(body, "email")) && Truthy(Field(body, "password")) && Truthy(Field(body, "role"))
  }

  /** `delete user.password` followed by `{ ...user, role }`. */
  function Sanitize(u: Row, role: Value): Row
  {
    (u - {"password"})["role" := role]
  }

  /** The login decision chain of server/routes/auth.js, for a given role
      dispatch (the one the source has is `RoleDispatch`). */
  function LoginChain(body: Object, db: Db, compare: Comparer, env: Option<string>, dispatch: Dispatch): (r: Response)
    ensures r.Rejected? || r.LoggedIn?
    ensures !Present(body) ==> r == Rejected(400, "Please provide email, password and role")
    ensures Present(body) && dispatch(Field(body, "role")).None? ==> r == Rejected(400, "Invalid role")
    ensures r.Rejected? && r.status == 401 ==> r.message == "Invalid credentials"
    ensures r.Rejected? ==> r.status in {400, 401, 500}
    ensures db.Down? && Present(body) && dispatch(Field(body, "role")).Some? ==> r == Rejected(500, "Server error")
    ensures db.Up? && Present(body) && dispatch(Field(body, "role")).Some? ==>
              var rows := Where(RowsOf(db, dispatch(Field(body, "role")).value.table), "email", Field(body, "email"));
              && (rows == [] ==> r == Rejected(401, "Invalid credentials"))
              && (rows != [] ==>
                    var ok := compare(Field(body, "password"), Field(rows[0], "password"));
                    && (ok.None? ==> r == Rejected(500, "Server error"))
                    && (ok == Some(false) ==> r == Rejected(401, "Invalid credentials"))
                    && (ok == Some(true) ==> r.LoggedIn?))
    ensures r.LoggedIn? ==>
              && dispatch(Field(body, "role")).Some?
              && "password" !in r.user
              && Field(r.user, "role") == Field(body, "role")
              && r.token.claims.role == Field(body, "role")
              && r.token.expiresIn == "1h"
              && r.token.secret == SecretOrDefault(env)
  {
    var email, password, role := Field(body, "email"), Field(body, "password"), Field(body, "role");
    if !Present(body) then Rejected(400, "Please provide email, password and role")
    else match dispatch(role)
      case None => Rejected(400, "Invalid role")
      case Some(store) =>
        match Run(db, Lookup(store.table, "email", email))
        case Failed => Rejected(500, "Server error")
        case Rows(rows) =>
          if rows == [] then Rejected(401, "Invalid credentials")
          else match compare(password, Field(rows[0], "password"))
            case None => Rejected(500, "Server error")
            case Some(false) => Rejected(401, "Invalid credentials")
            case Some(true) =>
              var user := rows[0] - {"password"};
              LoggedIn(Token(Claims(Field(user, store.idField), role), SecretOrDefault(env), "1h"), user["role" := role])
  }

  /** The handler as written, step by step: the presence check, the role
      switch, the lookup, the password check, `delete user.password`, signing. */
  method Login(body: Object, db: Db, compare: Comparer, env: Option<string>) returns (response: Response, lookups: seq<Lookup>)
    ensures response == LoginChain(body, db, compare, env, RoleDispatch)
    ensures lookups == [] <==> !Present(body) || !IsRole(Field(body, "role"))
    ensures lookups != [] ==>
              lookups == [Lookup(RoleDispatch(Field(body, "role")).value.table, "email", Field(body, "email"))]
  {
    var email, password, role := Field(body, "email"), Field(body, "password"), Field(body, "role");
    if !Truthy(email) || !Truthy(password) || !Truthy(role) {
      return Rejected(400, "Please provide email, password and role"), [];
    }
    var dispatch := RoleDispatch(role);
    if dispatch.None? {
      return Rejected(400, "Invalid role"), [];
    }
    var table, idField := dispatch.value.table, dispatch.value.idField;
    lookups := [Lookup(table, "email", email)];
    var results := Run(db, lookups[0]);
    if results.Failed? {
      return Rejected(500, "Server error"), lookups;
    }
    if |results.rows| == 0 {
      return Rejected(401, "Invalid credentials"), lookups;
    }
    var user := results.rows[0];
    var isValidPassword := compare(password, Field(user, "password"));
    if isValidPassword.None? {
      return Rejected(500, "Server error"), lookups;
    }
    if !isValidPassword.value {
      return Rejected(401, "Invalid credentials"), lookups;
    }
    user := user - {"password"};
    var token := Token(Claims(Field(user, idField), role), SecretOrDefault(env), "1h");
    response := LoggedIn(token, user["role" := role]);
  }

  /** An unknown email and a wrong password are indistinguishable: both, and
      nothing else, give 401 "Invalid credentials". */
  lemma CredentialFailuresAlike(body: Object, db: Db, compare: Comparer, env: Option<string>)
    requires Present(body) && IsRole(Field(body, "role")) && db.Up?
    ensures var rows := Where(RowsOf(db, RoleDispatch(Field(body, "role")).value.table), "email", Field(body, "email"));
            LoginChain(body, db, compare, env, RoleDispatch) == Rejected(401, "Invalid credentials") <==>
              (rows == [] || compare(Field(body, "password"), Field(rows[0], "password")) == Some(false))
  {
  }

  /** A successful login speaks for the first row with that email, whose
      password matched: the claim `id` is that row's id column, and the user
      sent back is that row without its password, plus the requested role. */
  lemma LoginIdentifiesRow(body: Object, db: Db, compare: Comparer, env: Option<string>, dispatch: Dispatch)
    requires LoginChain(body, db, compare, env, dispatch).LoggedIn?
    ensures db.Up? && dispatch(Field(body, "role")).Some?
    ensures var store := dispatch(Field(body, "role")).value;
            var rows := Where(RowsOf(db, store.table), "email", Field(body, "email"));
            var r := LoginChain(body, db, compare, env, dispatch);
            && rows != []
            && rows[0] in RowsOf(db, store.table)
            && SqlEquals(Field(rows[0], "email"), Field(body, "email"))
            && compare(Field(body, "password"), Field(rows[0], "password")) == Some(true)
            && r.user == Sanitize(rows[0], Field(body, "role"))
            && (store.idField != "password" ==> r.token.claims.id == Field(rows[0], store.idField))
  {
  }

  /** The verify decision chain: extract and decode the token, map the role
      claim to a table, look the user up by `id`. Every exception, a store
      failure included, is caught as 401 "Invalid token". */
  function VerifyOutcome(header: Option<string>, decode: Decoder, db: Db, env: Option<string>): (r: Response)
    ensures r.Rejected? || r.Profile?
    ensures r == Rejected(401, "No token provided") <==> ExtractToken(header).None?
    ensures r.Rejected? ==> r.status in {400, 401, 404}
    ensures db.Down? ==> r.Rejected? && (r.status == 401 || r == Rejected(400, "Invalid role"))
    ensures r == Rejected(400, "Invalid role") ==>
              Authenticate(header, decode, Some(SecretOrDefault(env))).Decoded? &&
              !IsRole(Authenticate(header, decode, Some(SecretOrDefault(env))).claims.role)
    ensures r.Profile? ==>
              && Authenticate(header, decode, Some(SecretOrDefault(env))).Decoded?
              && "password" !in r.user
              && Field(r.user, "role") == Authenticate(header, decode, Some(SecretOrDefault(env))).claims.role
              && IsRole(Field(r.user, "role"))
    ensures var a := Authenticate(header, decode, Some(SecretOrDefault(env)));
            && (a.BadToken? ==> r == Rejected(401, "Invalid token"))
            && (a.Decoded? && !IsRole(a.claims.role) ==> r == Rejected(400, "Invalid role"))
            && (a.Decoded? && IsRole(a.claims.role) && db.Down? ==> r == Rejected(401, "Invalid token"))
            && (a.Decoded? && IsRole(a.claims.role) && db.Up? ==>
                  var rows := Where(RowsOf(db, VerifyTable(a.claims.role).value), "id", a.claims.id);
                  && (rows == [] <==> r == Rejected(404, "User not found"))
                  && (rows != [] ==> r == Profile(Sanitize(rows[0], a.claims.role)) &&
                                     SqlEquals(Field(rows[0], "id"), a.claims.id)))
  {
    match Authenticate(header, decode, Some(SecretOrDefault(env)))
    case NoToken => Rejected(401, "No token provided")
    case BadToken => Rejected(401, "Invalid token")
    case Decoded(c) =>
      match VerifyTable(c.role)
      case None => Rejected(400, "Invalid role")
      case Some(table) =>
        match Run(db, Lookup(table, "id", c.id))
        case Failed => Rejected(401, "Invalid token")
        case Rows(rows) =>
          if rows == [] then Rejected(404, "User not found")
          else Profile(Sanitize(rows[0], c.role))
  }

  /** The verify handler as written. It queries the store at most once, always by column `id`. */
  method Verify(header: Option<string>, decode: Decoder, db: Db, env: Option<string>) returns (response: Response, lookups: seq<Lookup>)
    ensures response == VerifyOutcome(header, decode, db, env)
    ensures |lookups| <= 1
    ensures lookups != [] ==>
              lookups[0].column == "id" &&
              Authenticate(header, decode, Some(SecretOrDefault(env))).Decoded? &&
              lookups[0].value == Authenticate(header, decode, Some(SecretOrDefault(env))).claims.id
  {
    lookups := [];
    var token := ExtractToken(header);
    if token.None? {
      return Rejected(401, "No token provided"), lookups;
    }
    var decoded := decode(token.value, Some(SecretOrDefault(env)));
    if decoded.None? {
      return Rejected(401, "Invalid token"), lookups;
    }
    var table := VerifyTable(decoded.value.role);
    if table.None? {
      return Rejected(400, "Invalid role"), lookups;
    }
    lookups := [Lookup(table.value, "id", decoded.value.id)];
    var user := Run(db, lookups[0]);
    if user.Failed? {
      return Rejected(401, "Invalid token"), lookups;
    }
    if |user.rows| == 0 {
      return Rejected(404, "User not found"), lookups;
    }
    var profile := user.rows[0] - {"password"};
    response := Profile(profile["role" := decoded.value.role]);
  }

  /** A user table as the schema builds it: every row has a non-NULL `id`,
      and no two rows share one. */
  predicate KeyedById(rows: seq<Row>)
  {
    UniqueKey(rows, "id") && forall x :: x in rows ==> Field(x, "id") != Undefined && Field(x, "id") != Null
  }

  /** The library round trip the server relies on: the encoded token is a
      single word and decodes, under its own secret, to its claims. */
  predicate Faithful(decode: Decoder, encode: Encoder, token: Token)
  {
    encode(token) != "" && ' ' !in encode(token) && decode(encode(token), Some(token.secret)) == Some(token.claims)
  }

  /** When the dispatch puts the row's `id` into the token, presenting the
      token to verify lands on the very row that logged in, and verify sends
      back exactly the user that login sent back. */
  lemma {:induction false} RoundTripById(body: Object, db: Db, compare: Comparer, env: Option<string>, dispatch: Dispatch,
                                         decode: Decoder, encode: Encoder)
    requires LoginChain(body, db, compare, env, dispatch).LoggedIn?
    requires dispatch(Field(body, "role")).Some? && dispatch(Field(body, "role")).value.idField == "id"
    requires VerifyTable(Field(body, "role")) == Some(dispatch(Field(body, "role")).value.table)
    requires db.Up? && KeyedById(RowsOf(db, dispatch(Field(body, "role")).value.table))
    requires Faithful(decode, encode, LoginChain(body, db, compare, env, dispatch).token)
    ensures var r := LoginChain(body, db, compare, env, dispatch);
            VerifyOutcome(Some("Bearer " + encode(r.token)), decode, db, env) == Profile(r.user)
  {
    var r := LoginChain(body, db, compare, env, dispatch);
    var role := Field(body, "role");
    var table := dispatch(role).value.table;
    var all := RowsOf(db, table);
    LoginIdentifiesRow(body, db, compare, env, dispatch);
    var u := Where(all, "email", Field(body, "email"))[0];
    var i :| 0 <= i < |all| && all[i] == u;
    var t := encode(r.token);
    assert "Bearer" + " " + t + "" == "Bearer " + t;
    SchemeWordIgnored("Bearer", t, "");
    WhereUniqueKey(all, "id", i);
  }

  /** For admins the source's dispatch uses `id`, so the round trip holds. */
  lemma AdminRoundTrip(body: Object, db: Db, compare: Comparer, env: Option<string>, decode: Decoder, encode: Encoder)
    requires Field(body, "role") == Str("admin")
    requires LoginChain(body, db, compare, env, RoleDispatch).LoggedIn?
    requires db.Up? && KeyedById(RowsOf(db, Admins))
    requires Faithful(decode, encode, LoginChain(body, db, compare, env, RoleDispatch).token)
    ensures var r := LoginChain(body, db, compare, env, RoleDispatch);
            VerifyOutcome(Some("Bearer " + encode(r.token)), decode, db, env) == Profile(r.user)
  {
    RoundTripById(body, db, compare, env, RoleDispatch, decode, encode);
  }

  /** Instructor rows have no `instructor_id` column (the schema's
      instructors table has id, email, password, name, department). */
  predicate InstructorSchema(rows: seq<Row>)
  {
    forall x :: x in rows ==> "instructor_id" !in x
  }

  /** Student rows have an INT `id` and a VARCHAR `student_id`. */
  predicate StudentSchema(rows: seq<Row>)
  {
    forall x :: x in rows ==> Field(x, "id").Num? && Field(x, "student_id").Str?
  }

  /** As written, an instructor's token carries no `id` at all, and verify
      answers 404 for it even though the instructor exists. */
  lemma InstructorTokenFindsNoRow(body: Object, db: Db, compare: Comparer, env: Option<string>, decode: Decoder, encode: Encoder)
    requires Field(body, "role") == Str("instructor")
    requires LoginChain(body, db, compare, env, RoleDispatch).LoggedIn?
    requires db.Up? && InstructorSchema(RowsOf(db, Instructors))
    requires Faithful(decode, encode, LoginChain(body, db, compare, env, RoleDispatch).token)
    ensures var r := LoginChain(body, db, compare, env, RoleDispatch);
            && r.token.claims.id == Undefined
            && VerifyOutcome(Some("Bearer " + encode(r.token)), decode, db, env) == Rejected(404, "User not found")
  {
    var r := LoginChain(body, db, compare, env, RoleDispatch);
    assert r.token.claims == Claims(Undefined, Str("instructor")) by {
      LoginIdentifiesRow(body, db, compare, env, RoleDispatch);
    }
    var t := encode(r.token);
    assert "Bearer" + " " + t + "" == "Bearer " + t;
    SchemeWordIgnored("Bearer", t, "");
    NullIdNotFound(Some("Bearer " + t), decode, db, env);
  }

  /** A token whose claims decode with a known role but no `id` finds no row. */
  lemma NullIdNotFound(header: Option<string>, decode: Decoder, db: Db, env: Option<string>)
    requires db.Up?
    requires var a := Authenticate(header, decode, Some(SecretOrDefault(env)));
             a.Decoded? && IsRole(a.claims.role) && a.claims.id == Undefined
    ensures VerifyOutcome(header, decode, db, env) == Rejected(404, "User not found")
  {
    var a := Authenticate(header, decode, Some(SecretOrDefault(env)));
    WhereNullKey(RowsOf(db, VerifyTable(a.claims.role).value), "id", Undefined);
  }

  /** As written, a student's token carries the external `student_id`
      string, which is no row's `id`: verify answers 404. */
  lemma StudentTokenFindsNoRow(body: Object, db: Db, compare: Comparer, env: Option<string>, decode: Decoder, encode: Encoder)
    requires Field(body, "role") == Str("student")
    requires LoginChain(body, db, compare, env, RoleDispatch).LoggedIn?
    requires db.Up? && StudentSchema(RowsOf(db, Students))
    requires Faithful(decode, encode, LoginChain(body, db, compare, env, RoleDispatch).token)
    ensures var r := LoginChain(body, db, compare, env, RoleDispatch);
            && r.token.claims.id.Str?
            && VerifyOutcome(Some("Bearer " + encode(r.token)), decode, db, env) == Rejected(404, "User not found")
  {
    var r := LoginChain(body, db, compare, env, RoleDispatch);
    var all := RowsOf(db, Students);
    LoginIdentifiesRow(body, db, compare, env, RoleDispatch);
    var t := encode(r.token);
    assert "Bearer" + " " + t + "" == "Bearer " + t;
    SchemeWordIgnored("Bearer", t, "");
  }

  /** The evidently intended dispatch: every role puts the row's primary key `id` into the token. */
  function CorrectedDispatch(role: Value): (d: Option<UserStore>)
    ensures d.Some? <==> IsRole(role)
    ensures d.Some? ==> d.value.idField == "id" && VerifyTable(role) == Some(d.value.table)
  {
    match RoleDispatch(role)
    case None => None
    case Some(store) => Some(UserStore(store.table, "id"))
  }

  /** With the corrected dispatch the login-then-verify round trip holds for every role. */
  lemma CorrectedRoundTrip(body: Object, db: Db, compare: Comparer, env: Option<string>, decode: Decoder, encode: Encoder)
    requires LoginChain(body, db, compare, env, CorrectedDispatch).LoggedIn?
    requires db.Up? && KeyedById(RowsOf(db, CorrectedDispatch(Field(body, "role")).value.table))
    requires Faithful(decode, encode, LoginChain(body, db, compare, env, CorrectedDispatch).token)
    ensures var r := LoginChain(body, db, compare, env, CorrectedDispatch);
            VerifyOutcome(Some("Bearer " + encode(r.token)), decode, db, env) == Profile(r.user)
  {
    RoundTripById(body, db, compare, env, CorrectedDispatch, decode, encode);
  }
}
