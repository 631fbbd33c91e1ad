/**
 * server/routes/admin.js: the `verifyAdmin` gate, the router table saying
 * which routes it guards, and the two handlers that create accounts with a
 * fixed default password.
 */
module AdminRoutes {
  import opened Js
  import opened Jwt
  import opened Store
  import opened Http
  import opened Bcrypt

  /** `verifyAdmin(req, res, next)`: 401 without a token or with one the
      library rejects, 403 for another role; an admin's claim `id` becomes
      `req.adminId` and nothing else on the request changes. */
  method VerifyAdmin(req: Request, decode: Decoder, env: Option<string>) returns (reply: Option<Reply>, next: bool)
    modifies req`adminId
    ensures var g := Gate(req.authorization, decode, Some(SecretOrDefault(env)), "admin");
            && (g.Missing? ==> reply == Some(Reply(401, "No token provided")))
            && (g.Invalid? ==> reply == Some(Reply(401, "Invalid token")))
            && (g.Forbidden? ==> reply == Some(Reply(403, "Not authorized")))
            && (next <==> g.Admitted?)
            && (reply.None? <==> next)
            && req.adminId == (if g.Admitted? then Some(g.claims.id) else old(req.adminId))
  {
    match Gate(req.authorization, decode, Some(SecretOrDefault(env)), "admin")
    case Missing => reply, next := Some(Reply(401, "No token provided")), false;
    case Invalid => reply, next := Some(Reply(401, "Invalid token")), false;
    case Forbidden => reply, next := Some(Reply(403, "Not authorized")), false;
    case Admitted(claims) =>
      req.adminId := Some(claims.id);
      reply, next := None, true;
  }

  /** The router, in registration order. */
  const Routes: seq<Route> := [
    Route(Get, "/dashboard", []),
    Route(Get, "/instructors", [AdminGate]),
    Route(Post, "/instructors", [AdminGate]),
    Route(Put, "/instructors/:id", [AdminGate]),
    Route(Delete, "/instructors/:id", [AdminGate]),
    Route(Get, "/students", [AdminGate]),
    Route(Post, "/students", [AdminGate]),
    Route(Put, "/students/:id", [AdminGate]),
    Route(Delete, "/students/:id", [AdminGate]),
    Route(Get, "/statistics", [AdminGate]),
    Route(Get, "/courses", [AdminGate]),
    Route(Post, "/courses", [AdminGate]),
    Route(Put, "/courses/:id", [AdminGate]),
    Route(Delete, "/courses/:id", [AdminGate])
  ]

  /** Every route but `GET /dashboard` runs `verifyAdmin` first, and only it. */
  lemma OnlyDashboardIsOpen(i: nat)
    requires i < |Routes|
    ensures Routes[i].guards == if Routes[i].path == "/dashboard" then [] else [AdminGate]
    ensures Routes[i].path == "/dashboard" ==> Routes[i].verb == Get
  {
  }

  /** The password every admin-created account starts with. */
  const DefaultPassword: string := "changeme123"

  /** `POST /instructors`: the instructor is stored with the hash of the
      default password, whatever the body says. */
  function CreateInstructor(body: Object, hash: Hasher, insertFails: bool): (r: Effect)
    ensures r.statement.None? <==> hash(Str(DefaultPassword)).None?
    ensures r.statement.Some? ==>
              && r.statement.value.Insert? && r.statement.value.into == Instructors
              && Bound(r.statement.value, "password") == Some(Str(hash(Str(DefaultPassword)).value))
              && |r.statement.value.columns| == 4
              && Bound(r.statement.value, "name") == Some(Field(body, "name"))
              && Bound(r.statement.value, "email") == Some(Field(body, "email"))
              && Bound(r.statement.value, "department") == Some(Field(body, "department"))
    ensures r.reply == if r.statement.Some? && !insertFails then Reply(201, "Instructor created successfully")
                       else Reply(500, "Error creating instructor")
  {
    match hash(Str(DefaultPassword))
    case None => Effect(None, Reply(500, "Error creating instructor"))
    case Some(h) =>
      var statement := Insert(Instructors, ["name", "email", "password", "department"],
                              [Field(body, "name"), Field(body, "email"), Str(h), Field(body, "department")]);
      Effect(Some(statement),
             if insertFails then Reply(500, "Error creating instructor")
             else Reply(201, "Instructor created successfully"))
  }

  /** `POST /students`: likewise, with the student number from the body. */
  function CreateStudent(body: Object, hash: Hasher, insertFails: bool): (r: Effect)
    ensures r.statement.None? <==> hash(Str(DefaultPassword)).None?
    ensures r.statement.Some? ==>
              && r.statement.value.Insert? && r.statement.value.into == Students
              && Bound(r.statement.value, "password") == Some(Str(hash(Str(DefaultPassword)).value))
              && |r.statement.value.columns| == 4
              && Bound(r.statement.value, "student_id") == Some(Field(body, "studentId"))
              && Bound(r.statement.value, "name") == Some(Field(body, "name"))
              && Bound(r.statement.value, "email") == Some(Field(body, "email"))
    ensures r.reply == if r.statement.Some? && !insertFails then Reply(201, "Student created successfully")
                       else Reply(500, "Error creating student")
  {
    match hash(Str(DefaultPassword))
    case None => Effect(None, Reply(500, "Error creating student"))
    case Some(h) =>
      var statement := Insert(Students, ["student_id", "name", "email", "password"],
                              [Field(body, "studentId"), Field(body, "name"), Field(body, "email"), Str(h)]);
      Effect(Some(statement),
             if insertFails then Reply(500, "Error creating student")
             else Reply(201, "Student created successfully"))
  }

  /** A password in the body is ignored: two bodies that differ only there
      give the same statement. */
  lemma CreatedPasswordIgnoresBody(body: Object, password: Value, hash: Hasher, insertFails: bool)
    ensures CreateInstructor(body["password" := password], hash, insertFails) == CreateInstructor(body, hash, insertFails)
    ensures CreateStudent(body["password" := password], hash, insertFails) == CreateStudent(body, hash, insertFails)
  {
  }
}
