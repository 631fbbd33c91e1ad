/**
 * server/routes/instructor.jsx: the `verifyInstructor` gate and the five
 * instructor routes behind it. The gate stores the decoded claims in
 * `req.user`; a handler runs only once it has, and which queries it scopes
 * by the caller's claim id is a fact about its statements below.
 */
module InstructorRoutesJsx {
  import opened Js
  import opened Jwt
  import opened Store
  import opened Http

  /** `verifyInstructor(req, res, next)`: 401 without a token or with one the
      library rejects, 403 for another role; an instructor's claims become
      `req.user`, which changes in no other case. */
  method VerifyInstructor(req: Request, decode: Decoder, env: Option<string>) returns (reply: Option<Reply>, next: bool)
    modifies req`user
    ensures var g := Gate(req.authorization, decode, Some(SecretOrDefault(env)), "instructor");
            && (g.Missing? ==> reply == Some(Reply(401, "No token provided")))
            && (g.Invalid? ==> reply == Some(Reply(401, "Invalid token")))
            && (g.Forbidden? ==> reply == Some(Reply(403, "Not authorized")))
            && (next <==> g.Admitted?)
            && (reply.None? <==> next)
            && req.user == (if g.Admitted? then Some(g.claims) else old(req.user))
  {
    var token := ExtractToken(req.authorization);
    if token.None? {
      return Some(Reply(401, "No token provided")), false;
    }
    var decoded := decode(token.value, Some(SecretOrDefault(env)));
    if decoded.None? {
      return Some(Reply(401, "Invalid token")), false;
    }
    if decoded.value.role != Str("instructor") {
      return Some(Reply(403, "Not authorized")), false;
    }
    req.user := decoded;
    reply, next := None, true;
  }

  const Routes: seq<Route> := [
    Route(Post, "/offer-course", [InstructorGate]),
    Route(Get, "/courses", [InstructorGate]),
    Route(Post, "/post-marks", [InstructorGate]),
    Route(Get, "/course-students/:offeredCourseId", [InstructorGate]),
    Route(Get, "/stats", [InstructorGate])
  ]

  /** Each of the five routes runs `verifyInstructor` first, and only it. */
  lemma EveryRouteGated(i: nat)
    requires i < |Routes|
    ensures Routes[i].guards == [InstructorGate]
  {
  }

  /** `POST /offer-course`: the course is offered under the caller's claim id;
      the body's own fields supply only the course, semester and year. */
  function OfferCourse(user: Claims, body: Object, insertFails: bool): (r: Effect)
    ensures r.statement.Some? && r.statement.value.Insert? && r.statement.value.into == OfferedCourses
    ensures Bound(r.statement.value, "instructor_id") == Some(user.id)
    ensures Bound(r.statement.value, "course_id") == Some(Field(body, "courseId"))
    ensures r.reply == if insertFails then Reply(500, "Error offering course")
                       else Reply(201, "Course offered successfully")
  {
    var statement := Insert(OfferedCourses, ["course_id", "instructor_id", "semester", "year"],
                            [Field(body, "courseId"), user.id, Field(body, "semester"), Field(body, "year")]);
    Effect(Some(statement),
           if insertFails then Reply(500, "Error offering course")
           else Reply(201, "Course offered successfully"))
  }

  /** Whatever instructor id the body names, the offer is made under the token's. */
  lemma OfferCourseIgnoresBodyInstructor(user: Claims, body: Object, id: Value, insertFails: bool)
    ensures OfferCourse(user, body["instructorId" := id]["instructor_id" := id], insertFails) ==
            OfferCourse(user, body, insertFails)
  {
  }

  /** `GET /courses`: the caller's offered courses, filtered by the claim id alone. */
  function Courses(user: Claims, result: QueryResult): (r: Served)
    ensures r.statements == [Select(OfferedCourses, ["instructor_id"], [user.id])]
    ensures r.answer == if result.Failed? then Status(Reply(500, "Server error")) else Listing(result.rows)
  {
    Served([Select(OfferedCourses, ["instructor_id"], [user.id])],
           if result.Failed? then Status(Reply(500, "Server error")) else Listing(result.rows))
  }

  /** `POST /post-marks`: the marks row exactly as the body gives it. */
  function PostMarks(user: Claims, body: Object, insertFails: bool): (r: Effect)
    ensures r.statement.Some? && r.statement.value.Insert? && r.statement.value.into == StudentMarks
    ensures |r.statement.value.columns| == 5
    ensures Bound(r.statement.value, "activity_type") == Some(Field(body, "activityType"))
    ensures Bound(r.statement.value, "total_marks") == Some(Field(body, "totalMarks"))
    ensures Bound(r.statement.value, "offered_course_id") == Some(Field(body, "offeredCourseId"))
    ensures Bound(r.statement.value, "student_id") == Some(Field(body, "studentId"))
    ensures Bound(r.statement.value, "marks") == Some(Field(body, "marks"))
    ensures r.reply == if insertFails then Reply(500, "Error posting marks")
                       else Reply(201, "Marks posted successfully")
  {
    var statement := Insert(StudentMarks, ["offered_course_id", "student_id", "activity_type", "marks", "total_marks"],
                            [Field(body, "offeredCourseId"), Field(body, "studentId"), Field(body, "activityType"),
                             Field(body, "marks"), Field(body, "totalMarks")]);
    Effect(Some(statement),
           if insertFails then Reply(500, "Error posting marks")
           else Reply(201, "Marks posted successfully"))
  }

  /** `GET /course-students/:offeredCourseId`: the roster of the course the
      path names, filtered by that id alone. */
  function CourseStudents(user: Claims, params: Object, result: QueryResult): (r: Served)
    ensures r.statements == [Select(StudentCourses, ["offered_course_id"], [Field(params, "offeredCourseId")])]
    ensures r.answer == if result.Failed? then Status(Reply(500, "Server error")) else Listing(result.rows)
  {
    Served([Select(StudentCourses, ["offered_course_id"], [Field(params, "offeredCourseId")])],
           if result.Failed? then Status(Reply(500, "Server error")) else Listing(result.rows))
  }

  /** Neither `post-marks` nor `course-students` checks that the course
      belongs to the caller: any two instructors get the same statement. */
  lemma NoOwnershipCheck(a: Claims, b: Claims, body: Object, params: Object, insertFails: bool, result: QueryResult)
    ensures PostMarks(a, body, insertFails) == PostMarks(b, body, insertFails)
    ensures CourseStudents(a, params, result) == CourseStudents(b, params, result)
  {
  }

  /** The three aggregate queries of `GET /stats`, in the order they are awaited.
      The third reads `student_marks` joined with `offered_courses`; its
      `instructor_id` filter is a column of the joined offerings, not of the marks. */
  function StatsQueries(user: Claims): (qs: seq<Statement>)
    ensures |qs| == 3
    ensures forall k :: 0 <= k < 3 ==> qs[k].Select? && qs[k].params == [user.id]
  {
    [Select(OfferedCourses, ["instructor_id"], [user.id]),
     Select(OfferedCourses, ["instructor_id"], [user.id]),
     Select(StudentMarks, ["instructor_id"], [user.id])]
  }

  /** `GET /stats`: each await stops the handler at the first failed query;
      once all three have answered, a missing first row throws as well, and
      every aggregate that is `null` or `0` is reported as `0`. */
  function Stats(user: Claims, students: QueryResult, courses: QueryResult, grades: QueryResult): (r: Served)
    ensures r.statements == StatsQueries(user)[..(if students.Failed? then 1 else if courses.Failed? then 2 else 3)]
    ensures r.answer.Status? <==>
              FirstField(students, "count").None? || FirstField(courses, "count").None? || FirstField(grades, "average").None?
    ensures r.answer.Status? ==> r.answer.reply == Reply(500, "Error fetching statistics")
    ensures !r.answer.Listing?
    ensures r.answer.Json? ==>
              && r.answer.body.Keys == {"totalStudents", "totalCourses", "averageGrade"}
              && r.answer.body["totalStudents"] == Or(Field(students.rows[0], "count"), Num(0.0))
              && r.answer.body["totalCourses"] == Or(Field(courses.rows[0], "count"), Num(0.0))
              && r.answer.body["averageGrade"] == Or(Field(grades.rows[0], "average"), Num(0.0))
  {
    var qs := StatsQueries(user);
    if students.Failed? then Served(qs[..1], Status(Reply(500, "Error fetching statistics")))
    else if courses.Failed? then Served(qs[..2], Status(Reply(500, "Error fetching statistics")))
    else if grades.Failed? || students.rows == [] || courses.rows == [] || grades.rows == [] then
      Served(qs, Status(Reply(500, "Error fetching statistics")))
    else
      Served(qs, Json(map[
        "totalStudents" := Or(Field(students.rows[0], "count"), Num(0.0)),
        "totalCourses" := Or(Field(courses.rows[0], "count"), Num(0.0)),
        "averageGrade" := Or(Field(grades.rows[0], "average"), Num(0.0))]))
  }

  /** Every figure `stats` reports is truthy or the number `0`: a `null`,
      `NaN` or `0` aggregate never reaches the client as such. */
  lemma StatsNeverFalsy(user: Claims, students: QueryResult, courses: QueryResult, grades: QueryResult, key: string)
    requires Stats(user, students, courses, grades).answer.Json?
    requires key in Stats(user, students, courses, grades).answer.body
    ensures var v := Stats(user, students, courses, grades).answer.body[key];
            Truthy(v) || v == Num(0.0)
  {
  }
}
