/**
 * server/routes/admin.jsx: a `verifyAdmin` identical in text to the one in
 * admin.js, in a file that never imports `jwt`. Its `jwt.verify` call throws
 * a ReferenceError inside the `try`, so every request that carries a token is
 * answered 401 "Invalid token", and none of the four guarded handlers runs.
 */
module AdminRoutesJsx {
  import opened Js
  import opened Jwt
  import opened Store
  import opened Http
  import opened Bcrypt

  /** The gate's decision for this file: the admin gate over the unbound decoder. */
  function AdminGateOutcome(header: Option<string>, env: Option<string>): (g: GateOutcome)
    ensures g == (if ExtractToken(header).None? then Missing else Invalid)
  {
    UnboundNeverAdmits(header, Some(SecretOrDefault(env)), "admin");
    Gate(header, Unbound, Some(SecretOrDefault(env)), "admin")
  }

  /** `verifyAdmin` as it runs here: the token check comes first, and the
      `jwt.verify` call then throws inside the `try`. It always answers, with
      what the admin gate decides, never calls `next`, and never sets
      `req.adminId`. */
  method VerifyAdmin(req: Request, env: Option<string>) returns (reply: Option<Reply>, next: bool)
    modifies req`adminId
    ensures AdminGateOutcome(req.authorization, env).Missing? ==> reply == Some(Reply(401, "No token provided"))
    ensures AdminGateOutcome(req.authorization, env).Invalid? ==> reply == Some(Reply(401, "Invalid token"))
    ensures reply.Some? && reply.value.status == 401
    ensures !next
    ensures req.adminId == old(req.adminId)
  {
    var token := ExtractToken(req.authorization);
    if token.None? {
      return Some(Reply(401, "No token provided")), false;
    }
    // `jwt` is not bound in this file: the call throws a ReferenceError.
    reply, next := Some(Reply(401, "Invalid token")), false;
  }

  const Routes: seq<Route> := [
    Route(Post, "/register-instructor", [AdminGate]),
    Route(Post, "/register-course", [AdminGate]),
    Route(Get, "/instructors", [AdminGate]),
    Route(Get, "/courses", [AdminGate])
  ]

  /** A handler runs when every gate in front of it admits the request. */
  predicate HandlerRuns(route: Route, header: Option<string>, env: Option<string>)
  {
    forall k :: 0 <= k < |route.guards| ==> route.guards[k] == AdminGate && AdminGateOutcome(header, env).Admitted?
  }

  /** All four routes are guarded, so no handler of this file ever runs. */
  lemma NoHandlerRuns(i: nat, header: Option<string>, env: Option<string>)
    requires i < |Routes|
    ensures Routes[i].guards == [AdminGate]
    ensures !HandlerRuns(Routes[i], header, env)
  {
    assert Routes[i].guards[0] == AdminGate;
  }

  /** `POST /register-instructor`: the supplied password is stored only as its hash. */
  function RegisterInstructor(body: Object, hash: Hasher, insertFails: bool): (r: Effect)
    ensures r.statement.None? <==> hash(Field(body, "password")).None?
    ensures r.statement.None? ==> r.reply == Reply(500, "Server error")
    ensures r.statement.Some? ==>
              && r.statement.value.Insert? && r.statement.value.into == Instructors
              && |r.statement.value.columns| == 4
              && Bound(r.statement.value, "password") == Some(Str(hash(Field(body, "password")).value))
              && Bound(r.statement.value, "name") == Some(Field(body, "name"))
              && Bound(r.statement.value, "email") == Some(Field(body, "email"))
              && Bound(r.statement.value, "department") == Some(Field(body, "department"))
              && r.reply == (if insertFails then Reply(500, "Error registering instructor")
                             else Reply(201, "Instructor registered successfully"))
  {
    match hash(Field(body, "password"))
    case None => Effect(None, Reply(500, "Server error"))
    case Some(h) =>
      var statement := Insert(Instructors, ["name", "email", "password", "department"],
                              [Field(body, "name"), Field(body, "email"), Str(h), Field(body, "department")]);
      Effect(Some(statement),
             if insertFails then Reply(500, "Error registering instructor")
             else Reply(201, "Instructor registered successfully"))
  }

  /** `POST /register-course`: the course as the body gives it. */
  function RegisterCourse(body: Object, insertFails: bool): (r: Effect)
    ensures r.statement.Some? && r.statement.value.Insert? && r.statement.value.into == Courses
    ensures |r.statement.value.columns| == 4
    ensures Bound(r.statement.value, "course_code") == Some(Field(body, "courseCode"))
    ensures Bound(r.statement.value, "course_name") == Some(Field(body, "courseName"))
    ensures Bound(r.statement.value, "credits") == Some(Field(body, "credits"))
    ensures Bound(r.statement.value, "department") == Some(Field(body, "department"))
    ensures r.reply == if insertFails then Reply(500, "Error registering course")
                       else Reply(201, "Course registered successfully")
  {
    var statement := Insert(Courses, ["course_code", "course_name", "credits", "department"],
                            [Field(body, "courseCode"), Field(body, "courseName"), Field(body, "credits"), Field(body, "department")]);
    Effect(Some(statement),
           if insertFails then Reply(500, "Error registering course")
           else Reply(201, "Course registered successfully"))
  }
}
