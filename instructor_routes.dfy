/**
 * server/routes/instructor.js: a router that registers
 * `instructorAuthMiddleware` before its two routes, so that Express runs the
 * middleware ahead of each of them, and a `stats` handler scoped by the
 * caller's claim id.
 */
module InstructorRoutes {
  import opened Js
  import opened Jwt
  import opened Store
  import opened Http
  import Middleware

  /** One registration on the router, in the order the file makes them. */
  datatype Layer = Use(guard: Guard) | Handle(route: Route)

  const Layers: seq<Layer> := [
    Use(InstructorMiddleware),
    Handle(Route(Get, "/stats", [])),
    Handle(Route(Get, "/dashboard", []))
  ]

  /** The gates a request for the route registered at `i` passes through:
      every `use` registered before it, then the route's own. */
  function Chain(layers: seq<Layer>, i: nat): (gs: seq<Guard>)
    requires i < |layers| && layers[i].Handle?
    ensures |gs| == |UsedBefore(layers, i)| + |layers[i].route.guards|
    ensures gs[..|UsedBefore(layers, i)|] == UsedBefore(layers, i)
    ensures gs[|UsedBefore(layers, i)|..] == layers[i].route.guards
    ensures forall k :: 0 <= k < |layers[i].route.guards| ==> layers[i].route.guards[k] in gs
  {
    UsedBefore(layers, i) + layers[i].route.guards
  }

  function UsedBefore(layers: seq<Layer>, i: nat): (gs: seq<Guard>)
    requires i <= |layers|
    ensures forall k :: 0 <= k < i && layers[k].Use? ==> layers[k].guard in gs
    ensures forall g :: g in gs ==> exists k :: 0 <= k < i && layers[k] == Use(g)
  {
    if i == 0 then []
    else
      var before := UsedBefore(layers, i - 1);
      if layers[i - 1].Use? then before + [layers[i - 1].guard] else before
  }

  /** Both routes, `/dashboard` included, sit behind exactly the instructor middleware. */
  lemma {:induction false} MiddlewareGuardsEveryRoute(i: nat)
    requires i < |Layers| && Layers[i].Handle?
    ensures Chain(Layers, i) == [InstructorMiddleware]
  {
    assert UsedBefore(Layers, 0) == [];
    assert UsedBefore(Layers, 1) == [InstructorMiddleware];
    if i == 2 {
      assert UsedBefore(Layers, 2) == [InstructorMiddleware];
    }
  }

  /** The three aggregate queries, each bound to the caller's claim id. The
      active-courses query compares `status` with the literal `'active'` in
      its SQL text; here that literal is the second filter's value. The
      first and third read `course_enrollments` joined with `courses`: their
      `instructor_id` filter is a column of the joined courses, and the
      third's `grade IS NOT NULL` condition is not recorded. */
  function StatsQueries(user: Claims): (qs: seq<Statement>)
    ensures |qs| == 3
    ensures forall k :: 0 <= k < 3 ==> qs[k].Select? && |qs[k].params| >= 1 && qs[k].params[0] == user.id
  {
    [Select(CourseEnrollments, ["instructor_id"], [user.id]),
     Select(Courses, ["instructor_id", "status"], [user.id, Str("active")]),
     Select(CourseEnrollments, ["instructor_id"], [user.id])]
  }

  /** `GET /stats`: the first failed await, or a missing first row, ends in 500;
      otherwise each aggregate defaults to `0` when it is falsy. */
  function Stats(user: Claims, students: QueryResult, courses: QueryResult, grades: QueryResult): (r: Served)
    ensures r.statements == StatsQueries(user)[..(if students.Failed? then 1 else if courses.Failed? then 2 else 3)]
    ensures r.answer.Status? <==>
              FirstField(students, "total").None? || FirstField(courses, "total").None? || FirstField(grades, "average").None?
    ensures r.answer.Status? ==> r.answer.reply == Reply(500, "Error fetching instructor statistics")
    ensures !r.answer.Listing?
    ensures r.answer.Json? ==>
              && r.answer.body.Keys == {"totalStudents", "activeCourses", "averageGrade"}
              && r.answer.body["totalStudents"] == Or(Field(students.rows[0], "total"), Num(0.0))
              && r.answer.body["activeCourses"] == Or(Field(courses.rows[0], "total"), Num(0.0))
              && r.answer.body["averageGrade"] == Or(Field(grades.rows[0], "average"), Num(0.0))
  {
    var qs := StatsQueries(user);
    var failure := Status(Reply(500, "Error fetching instructor statistics"));
    if students.Failed? then Served(qs[..1], failure)
    else if courses.Failed? then Served(qs[..2], failure)
    else if grades.Failed? || students.rows == [] || courses.rows == [] || grades.rows == [] then Served(qs, failure)
    else
      Served(qs, Json(map[
        "totalStudents" := Or(Field(students.rows[0], "total"), Num(0.0)),
        "activeCourses" := Or(Field(courses.rows[0], "total"), Num(0.0)),
        "averageGrade" := Or(Field(grades.rows[0], "average"), Num(0.0))]))
  }

  /** A `null` aggregate (no enrollments, no graded rows) is reported as `0`. */
  lemma NullAggregatesReportZero(user: Claims, students: QueryResult, courses: QueryResult, grades: QueryResult)
    requires students.Rows? && courses.Rows? && grades.Rows?
    requires students.rows != [] && courses.rows != [] && grades.rows != []
    requires Field(students.rows[0], "total") == Null && Field(grades.rows[0], "average") == Null
    ensures Stats(user, students, courses, grades).answer ==
            Json(map["totalStudents" := Num(0.0),
                     "activeCourses" := Or(Field(courses.rows[0], "total"), Num(0.0)),
                     "averageGrade" := Num(0.0)])
  {
  }

  /** `GET /dashboard`. */
  const Dashboard: Answer := Json(map["message" := Str("Instructor dashboard")])

  /** A request for the route registered at `i`, run through the router: the
      middleware answers unless it admits an instructor, and only then does
      the route's handler run, with the claims the middleware stored. */
  method Serve(req: Request, i: nat, decode: Decoder, env: Option<string>,
               students: QueryResult, courses: QueryResult, grades: QueryResult) returns (answer: Answer, statements: seq<Statement>)
    requires i < |Layers| && Layers[i].Handle?
    modifies req`user
    ensures var g := Gate(req.authorization, decode, StrictSecret(env), "instructor");
            && (g.Missing? ==> answer == Status(Reply(401, "No token, authorization denied")) && statements == [])
            && (g.Invalid? ==> answer == Status(Reply(401, "Token is not valid")) && statements == [])
            && (g.Forbidden? ==> answer == Status(Reply(403, "Access denied. Not an instructor.")) && statements == [])
            && (g.Admitted? && i == 1 ==>
                  Served(statements, answer) == Stats(g.claims, students, courses, grades))
            && (g.Admitted? && i == 2 ==> answer == Dashboard && statements == [])
    ensures var a := Authenticate(req.authorization, decode, StrictSecret(env));
            req.user == (if a.Decoded? then Some(a.claims) else old(req.user))
  {
    var reply, next := Middleware.InstructorAuthMiddleware(req, decode, env);
    if !next {
      return Status(reply.value), [];
    }
    if i == 1 {
      var served := Stats(req.user.value, students, courses, grades);
      answer, statements := served.answer, served.statements;
    } else {
      answer, statements := Dashboard, [];
    }
  }
}
