/**
 * server/routes/student.jsx: the `verifyStudent` gate and four student
 * routes. The gate as written admits a student token and records its claim
 * id in `req.studentId`, which the handlers use to scope their queries; but
 * the file never imports `jwt`, so in this file every token ends in 401.
 */
module StudentRoutesJsx {
  import opened Js
  import opened Jwt
  import opened Store
  import opened Http

  /** `verifyStudent(req, res, next)` as written, over a given decoder: the
      student gate's outcome, with the claim id recorded on admission. */
  method VerifyStudent(req: Request, decode: Decoder, env: Option<string>) returns (reply: Option<Reply>, next: bool)
    modifies req`studentId
    ensures var g := Gate(req.authorization, decode, Some(SecretOrDefault(env)), "student");
            && (g.Missing? ==> reply == Some(Reply(401, "No token provided")))
            && (g.Invalid? ==> reply == Some(Reply(401, "Invalid token")))
            && (g.Forbidden? ==> reply == Some(Reply(403, "Not authorized")))
            && (next <==> g.Admitted?)
            && (reply.None? <==> next)
            && req.studentId == (if g.Admitted? then Some(g.claims.id) else old(req.studentId))
  {
    var token := ExtractToken(req.authorization);
    if token.None? {
      return Some(Reply(401, "No token provided")), false;
    }
    var decoded := decode(token.value, Some(SecretOrDefault(env)));
    if decoded.None? {
      return Some(Reply(401, "Invalid token")), false;
    }
    if decoded.value.role != Str("student") {
      return Some(Reply(403, "Not authorized")), false;
    }
    req.studentId := Some(decoded.value.id);
    reply, next := None, true;
  }

  const Routes: seq<Route> := [
    Route(Get, "/available-courses", [StudentGate]),
    Route(Post, "/register-course", [StudentGate]),
    Route(Get, "/my-courses", [StudentGate]),
    Route(Get, "/course-marks/:offeredCourseId", [StudentGate])
  ]

  /** `currentMonth < 6 ? 'Spring' : 'Fall'`, on the 0-based month of `Date.getMonth`. */
  function Semester(month: int): (s: string)
    requires 0 <= month < 12
    ensures s == "Spring" <==> month < 6
    ensures s == "Fall" <==> month >= 6
  {
    if month < 6 then "Spring" else "Fall"
  }

  /** January to June is the spring term, July to December the fall term:
      the term changes once in the year, and never back. */
  lemma SemesterSplitsTheYear(m: int, n: int)
    requires 0 <= m <= n < 12
    ensures Semester(m) == "Fall" ==> Semester(n) == "Fall"
    ensures Semester(n) == "Spring" ==> Semester(m) == "Spring"
  {
  }

  /** `GET /available-courses`: the offerings of the current term and year. */
  function AvailableCourses(year: int, month: int, result: QueryResult): (r: Served)
    requires 0 <= month < 12
    ensures r.statements == [Select(OfferedCourses, ["semester", "year"], [Str(Semester(month)), Num(year as real)])]
    ensures r.answer == if result.Failed? then Status(Reply(500, "Server error")) else Listing(result.rows)
  {
    Served([Select(OfferedCourses, ["semester", "year"], [Str(Semester(month)), Num(year as real)])],
           if result.Failed? then Status(Reply(500, "Server error")) else Listing(result.rows))
  }

  /** `POST /register-course`: the registration is made for the gate's student
      id; the body supplies only the offering. */
  function RegisterCourse(studentId: Value, body: Object, insertFails: bool): (r: Effect)
    ensures r.statement.Some? && r.statement.value.Insert? && r.statement.value.into == StudentCourses
    ensures Bound(r.statement.value, "student_id") == Some(studentId)
    ensures Bound(r.statement.value, "offered_course_id") == Some(Field(body, "offeredCourseId"))
    ensures r.reply == if insertFails then Reply(500, "Error registering for course")
                       else Reply(201, "Course registration successful")
  {
    var statement := Insert(StudentCourses, ["student_id", "offered_course_id"], [studentId, Field(body, "offeredCourseId")]);
    Effect(Some(statement),
           if insertFails then Reply(500, "Error registering for course")
           else Reply(201, "Course registration successful"))
  }

  /** A student id in the body changes nothing. */
  lemma RegisterCourseIgnoresBodyStudent(studentId: Value, body: Object, id: Value, insertFails: bool)
    ensures RegisterCourse(studentId, body["studentId" := id]["student_id" := id], insertFails) ==
            RegisterCourse(studentId, body, insertFails)
  {
  }

  /** `GET /my-courses`: the caller's enrollments, filtered by the gate's id alone. */
  function MyCourses(studentId: Value, result: QueryResult): (r: Served)
    ensures r.statements == [Select(StudentCourses, ["student_id"], [studentId])]
    ensures r.answer == if result.Failed? then Status(Reply(500, "Server error")) else Listing(result.rows)
  {
    Served([Select(StudentCourses, ["student_id"], [studentId])],
           if result.Failed? then Status(Reply(500, "Server error")) else Listing(result.rows))
  }

  /** `GET /course-marks/:offeredCourseId`: the caller's marks in the offering
      the path names, filtered by the gate's id first. */
  function CourseMarks(studentId: Value, params: Object, result: QueryResult): (r: Served)
    ensures r.statements == [Select(StudentMarks, ["student_id", "offered_course_id"], [studentId, Field(params, "offeredCourseId")])]
    ensures r.answer == if result.Failed? then Status(Reply(500, "Server error")) else Listing(result.rows)
  {
    Served([Select(StudentMarks, ["student_id", "offered_course_id"], [studentId, Field(params, "offeredCourseId")])],
           if result.Failed? then Status(Reply(500, "Server error")) else Listing(result.rows))
  }

  /** The handler of route `i`, run for the student id the gate recorded. */
  function Handler(i: nat, studentId: Value, body: Object, params: Object,
                   year: int, month: int, insertFails: bool, result: QueryResult): (r: Served)
    requires i < |Routes|
    requires 0 <= month < 12
    ensures |r.statements| == 1
    ensures i == 1 ==> Bound(r.statements[0], "student_id") == Some(studentId)
    ensures i >= 2 ==> && r.statements[0].Select? && |r.statements[0].params| >= 1 && |r.statements[0].filters| >= 1
                       && r.statements[0].filters[0] == "student_id" && r.statements[0].params[0] == studentId
  {
    if i == 0 then AvailableCourses(year, month, result)
    else if i == 1 then
      var e := RegisterCourse(studentId, body, insertFails);
      Served([e.statement.value], Status(e.reply))
    else if i == 2 then MyCourses(studentId, result)
    else CourseMarks(studentId, params, result)
  }

  /** A request for route `i` through the gate and then the handler: the
      gate answers unless it admits a student, and the handler then runs with
      the claim id the gate recorded. */
  method Dispatch(req: Request, i: nat, decode: Decoder, env: Option<string>,
                  year: int, month: int, insertFails: bool, result: QueryResult)
    returns (answer: Answer, statements: seq<Statement>)
    requires i < |Routes|
    requires 0 <= month < 12
    modifies req`studentId
    ensures var g := Gate(req.authorization, decode, Some(SecretOrDefault(env)), "student");
            && (g.Missing? ==> answer == Status(Reply(401, "No token provided")) && statements == [])
            && (g.Invalid? ==> answer == Status(Reply(401, "Invalid token")) && statements == [])
            && (g.Forbidden? ==> answer == Status(Reply(403, "Not authorized")) && statements == [])
            && (g.Admitted? ==>
                  Served(statements, answer) == Handler(i, g.claims.id, req.body, req.params, year, month, insertFails, result))
            && req.studentId == (if g.Admitted? then Some(g.claims.id) else old(req.studentId))
  {
    var reply, next := VerifyStudent(req, decode, env);
    if !next {
      return Status(reply.value), [];
    }
    var served := Handler(i, req.studentId.value, req.body, req.params, year, month, insertFails, result);
    answer, statements := served.answer, served.statements;
  }

  /** The router of this file, where `jwt` is unbound: a request with a
      token gets 401 "Invalid token", one without gets 401 "No token
      provided", and no handler runs: no statement is issued and
      `req.studentId` never changes. */
  method Serve(req: Request, i: nat, env: Option<string>, year: int, month: int, insertFails: bool, result: QueryResult)
    returns (answer: Answer, statements: seq<Statement>)
    requires i < |Routes|
    requires 0 <= month < 12
    modifies req`studentId
    ensures answer == Status(Reply(401, if ExtractToken(req.authorization).None? then "No token provided" else "Invalid token"))
    ensures statements == []
    ensures req.studentId == old(req.studentId)
  {
    UnboundNeverAdmits(req.authorization, Some(SecretOrDefault(env)), "student");
    answer, statements := Dispatch(req, i, Unbound, env, year, month, insertFails, result);
  }
}
