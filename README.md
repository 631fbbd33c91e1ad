# University Management System: authentication, access gates, client routing and grade colours

This Dafny project models the logic of a university management system whose server is Express over MySQL and whose client is React. It covers four parts.

- **The bearer-token gates.** There are five of them:
  - `verifyAdmin` in `server/routes/admin.js` and again in `server/routes/admin.jsx`;
  - `verifyInstructor` in `server/routes/instructor.jsx`;
  - `verifyStudent` in `server/routes/student.jsx`;
  - `authMiddleware` / `instructorAuthMiddleware` in `server/middleware/auth.js`.

  Each takes the second space-separated piece of the `Authorization` header, asks the JWT library to decode it, and checks the `role` claim. Each then answers 401/401/403, or admits the request and records the claims or the id on the request. The model also covers the routers these gates guard, and which request fields feed each handler's SQL statement.
- **The authentication routes.** These are `POST /login` and `GET /verify` in `server/routes/auth.js`, plus the second login and the two registrations in `server/routes/auth.jsx`.
- **Client role routing.** `client/src/components/Login.jsx` holds the form state, the submit chain and the role-to-dashboard switch. `client/src/App.jsx` holds the route table with its `allowedRoles`.
- **The grade colour classifier.** `getGradeColor` is duplicated in `ViewCourses.jsx` and `AcademicProgress.jsx`. The model also covers the `'N/A'` chip labels and the initial `progress` state.

## How the model is built

- **JavaScript values.** They are the datatype `Js.Value` (`undefined`, `null`, booleans, exact real numbers, `NaN`, strings), with JavaScript truthiness.
- **Objects and rows.** Request bodies, SQL rows and JSON replies are `map<string, Value>`:
  - a missing property reads as `undefined`;
  - `delete user.password` removes a key;
  - `{ ...user, role }` updates one.
- **Header splitting.** `split(' ')` is defined with JavaScript's semantics, empty pieces kept. Joining the pieces of a split with `join(' ')` is proved to give the original string back.
- **Oracles for the libraries.**
  - `jwt.verify` is a `Decoder`, which answers `None` wherever the call throws. Its secret is optional: an `undefined` or empty secret is passed as `None`, and the decoder decides what the library does with it.
  - `jwt.sign` is a `Token` record plus an `Encoder`.
  - `bcrypt.compare` and `bcrypt.hash` return `None` when they throw.
  - A file that never imports `jwt` uses the decoder `Jwt.Unbound`, which always throws.
- **The store.** It is a map from tables to row sequences. `WHERE column = ?` follows SQL's NULL rule, and mysql2 binds `undefined` as NULL. A connection that fails every query is `Db.Down`.
- **Query bodies.** The handlers' queries beyond single-table filters are joins and aggregates. They are represented by the statement each handler issues and by the result the database hands back, which is a parameter.
- **State that changes in place** is modelled imperatively:
  - the Express request, whose `user`, `adminId` and `studentId` fields the gates write, is a class;
  - the gates are methods with `modifies` clauses;
  - the login and verify handlers are methods proved equal to their decision-chain functions;
  - the login form is a class whose handlers update its fields.
- **Pure parts** are functions and lemmas: the role switches, the route tables and `getGradeColor`.

### Behaviour of the code worth knowing

- **Gate secret.** `server/middleware/auth.js:13` verifies with `process.env.JWT_SECRET` alone, while login signs with `JWT_SECRET || 'your-secret-key'`. Without the variable, the middleware hands `jwt.verify` an `undefined` secret, so the library decides:
  - a library that throws on a falsy secret admits no token at all (`Middleware.NoSecretNoEntry`);
  - a library that decodes unsigned tokens without a secret, as jsonwebtoken up to 8.5.1 does, admits any claims such a token carries (`Middleware.NoSecretTrustsTheLibrary`).
- **Claim id.** Login puts `user[idField]` into the token's `id`. For instructors and students that is `instructor_id` or `student_id`, not the row's `id` (see Findings).
- **Student and admin `.jsx` routes.** `server/routes/student.jsx` never imports `jwt`, so every token ends in 401 and no handler runs (`StudentRoutesJsx.Serve`). The same holds for `server/routes/admin.jsx`.
- **Verify replies.** Besides 200 and 401, verify answers 400 "Invalid role" for an unknown role claim and 404 "User not found" when no row has the claim's id.
- **Login replies.** Besides 400 and 401, login answers 500 for store and bcrypt failures. In `auth.jsx` a throwing bcrypt check is an unhandled rejection inside the `db.query` callback instead: the handler sends no reply. Whether the process then keeps running depends on the Node version and on any `unhandledRejection` handler.

## Model

| member | source | states |
|---|---|---|
| Js.Or | server/routes/instructor.jsx:128-132 | the `or` default is the left operand exactly when it is truthy, else the fallback |
| Js.Split | server/routes/admin.js:8 | `split(' ')` always yields at least one piece and no piece contains a space |
| Js.JoinSplit | server/routes/admin.js:8 | splitting on spaces loses nothing: joining the pieces gives the header back |
| Js.SplitWord | server/middleware/auth.js:6 | a space-free string splits into itself alone |
| Js.SplitAfterWord | server/middleware/auth.js:6 | a first word and a space split off as the first piece, the rest splits on its own |
| Js.SplitFirstPiece | server/middleware/auth.js:6 | the first piece of `t + rest` is `t` when `rest` is empty or starts with a space |
| Jwt.SecretOrDefault | server/routes/auth.js:54 | the configured secret when it is set and non-empty, otherwise 'your-secret-key' |
| Jwt.StrictSecret | server/middleware/auth.js:13 | the configured secret only; none when it is unset or empty |
| Jwt.ExtractToken | server/routes/auth.js:73-77 | no header gives no token; a token is never empty and never contains a space |
| Jwt.SchemeWordIgnored | server/routes/admin.js:8 | any scheme word before the space is accepted: the second piece is the token |
| Jwt.NoSpaceNoToken | server/middleware/auth.js:6-10 | a header with no space carries no token |
| Jwt.EmptySecondPieceNoToken | server/middleware/auth.js:6-10 | an empty second piece (trailing space, double space) carries no token |
| Jwt.Authenticate | server/middleware/auth.js:6-18 | no token exactly when extraction fails; a bad token exactly when the decoder rejects the token under the secret given; decoded claims are exactly what the decoder returns |
| Jwt.Gate | server/routes/admin.js:7-23 | the four outcomes: missing iff no token, invalid iff the decoder rejects, forbidden iff decoded with another role, admitted with the decoded claims of the required role |
| Jwt.UnboundNeverAdmits | server/routes/admin.jsx:21 | with `jwt` unbound, a gate only ever answers "no token" or "invalid token" |
| Jwt.GateAdmitsOnlyItsRole | server/routes/admin.js:15-17 | a token admitted by one role's gate is forbidden by every other role's gate |
| Store.Where | server/routes/auth.js:35-36 | the filter keeps exactly the rows whose column equals the value under SQL's NULL rule, and its first row is the first such row of the table |
| Store.Run | server/routes/auth.js:36 | a query fails exactly when the connection is down; otherwise its rows are exactly `Where` of the table, so every returned row matches and every matching row is returned |
| Store.FirstField | server/routes/instructor.jsx:129 | `result[0].column` is unavailable (throws) exactly when the query failed or returned no rows |
| Store.WhereUniqueKey | server/setup-database.js:34 | looking a row up by its own value of a unique key finds that row and no other |
| Store.WhereNullKey | server/routes/auth.jsx:77-80 | a NULL or undefined key matches no row |
| AuthRoutes.RoleDispatch | server/routes/auth.js:15-32 | the dispatch is defined exactly on 'admin', 'instructor' and 'student', maps them to the three user tables, and uses column `id` exactly for admin |
| AuthRoutes.VerifyTable | server/routes/auth.js:83-96 | verify's switch is defined exactly on the three roles |
| AuthRoutes.DispatchTablesAgree | server/routes/auth.js:84-96 | login and verify map each role to the same table |
| AuthRoutes.LoginChain | server/routes/auth.js:7-69 | the login chain: 400 for a missing field; 400 "Invalid role"; 500 on a down store; after the lookup, 401 "Invalid credentials" for no row or a wrong password, 500 "Server error" when the password check throws, and a login exactly when the first row's password matches; on success no password in the user, the requested role in the user and the claims, expiry '1h', the fallback secret |
| AuthRoutes.Login | server/routes/auth.js:7-69 | the handler answers as the login chain with the source's dispatch, and performs no lookup when a field is missing or the role is unknown, otherwise exactly one lookup by email in the role's table |
| AuthRoutes.CredentialFailuresAlike | server/routes/auth.js:38-47 | login answers 401 "Invalid credentials" exactly when no row has the email or the password check says no |
| AuthRoutes.LoginIdentifiesRow | server/routes/auth.js:42-64 | a successful login speaks for the first row with that email whose password matched: the claim id is that row's id column and the user is that row without its password plus the role |
| AuthRoutes.VerifyOutcome | server/routes/auth.js:72-113 | "No token provided" iff no token; a rejected token is 401 "Invalid token"; a decoded unknown role is always, and only, 400 "Invalid role"; with a known role a store failure is 401, never 500; otherwise 404 "User not found" exactly when no row of the role's table has the claim's id, and else the profile is the first such row without its password and with the claim's role |
| AuthRoutes.Verify | server/routes/auth.js:72-113 | the handler answers as the verify chain and queries at most once, by column `id` with the claim id |
| AuthRoutes.RoundTripById | server/routes/auth.js:98 | when the dispatch puts the row's `id` in the token and ids are unique, verifying the token login issued returns exactly the user login returned |
| AuthRoutes.AdminRoundTrip | server/routes/auth.js:16-21 | for admins, as written, login then verify lands on the same row |
| AuthRoutes.NullIdNotFound | server/routes/auth.js:98-102 | a token that decodes with a known role but an undefined id is answered 404 "User not found", whatever the table holds |
| AuthRoutes.InstructorTokenFindsNoRow | server/routes/auth.js:22-25 | as written, an instructor's token carries an undefined id and verify answers 404 for an existing instructor |
| AuthRoutes.StudentTokenFindsNoRow | server/routes/auth.js:26-29 | as written, a student's token carries the external student number, which is no row's id, and verify answers 404 |
| AuthRoutes.CorrectedDispatch | server/routes/auth.js:15-32 | the intended dispatch: same tables, column `id` for every role, agreeing with verify's tables |
| AuthRoutes.CorrectedRoundTrip | server/routes/auth.js:53 | with the corrected dispatch, login then verify returns the logged-in user for every role |
| AuthRoutesJsx.RoleDispatch | server/routes/auth.jsx:61-75 | this copy of the switch is defined exactly on the three roles |
| AuthRoutesJsx.DispatchMatchesAuthJs | server/routes/auth.jsx:58-75 | it dispatches exactly as auth.js does |
| AuthRoutesJsx.LoginOutcome | server/routes/auth.jsx:55-118 | role validity is the first check; a down store is 500 "Server error"; 401 "Invalid credentials" for no row or a wrong password; no reply exactly when a row has the email and the password check throws; a login when the first row's password matches, and then the claim id is that row's id column, the user is the row without its password plus the role, with expiry '1h' and the fallback secret |
| AuthRoutesJsx.Login | server/routes/auth.jsx:55-118 | the handler answers as that chain and looks up by email exactly when the role is known |
| AuthRoutesJsx.MissingEmailIsInvalidCredentials | server/routes/auth.jsx:77-88 | with no presence check, a missing or null email reaches the store, matches nothing and gets 401 |
| AuthRoutesJsx.AgreesWithAuthJs | server/routes/auth.jsx:55-118 | on a complete body and a non-throwing password check, both login handlers answer alike |
| AuthRoutesJsx.RegisterAdmin | server/routes/auth.jsx:15-32 | the admin is inserted with the hash of the supplied password; 500 "Server error" when hashing throws, otherwise the insert's outcome message |
| AuthRoutesJsx.RegisterStudent | server/routes/auth.jsx:35-52 | likewise for students, with the body's student number |
| AuthRoutesJsx.RegistrationStoresOnlyTheHash | server/routes/auth.jsx:19-22 | when the hash differs from its input, the plaintext password is never the stored value |
| Middleware.AuthMiddleware | server/middleware/auth.js:3-19 | 401 "No token, authorization denied" for no token, 401 "Token is not valid" for a rejected one; on decode `req.user` is the claims and `next` is called; nothing else changes |
| Middleware.InstructorAuthMiddleware | server/middleware/auth.js:21-34 | the instructor gate's outcome under the strict secret: 403 "Access denied. Not an instructor." for another role, `next` only for an instructor; `req.user` written whenever the token decodes |
| Middleware.NoSecretNoEntry | server/middleware/auth.js:13 | without a configured secret, and with a library that throws on a falsy secret, the middleware admits no token at all |
| Middleware.NoSecretTrustsTheLibrary | server/middleware/auth.js:13 | without a configured secret, a token the library decodes with no secret is admitted with the claims it carries |
| AdminRoutes.VerifyAdmin | server/routes/admin.js:7-23 | "No token provided", "Invalid token", 403 "Not authorized" by the admin gate's outcome; an admin token sets `req.adminId` to the claim id and calls `next`; no other field changes |
| AdminRoutes.OnlyDashboardIsOpen | server/routes/admin.js:26-238 | every route except GET /dashboard runs `verifyAdmin` first |
| AdminRoutes.CreateInstructor | server/routes/admin.js:43-63 | the instructor is inserted in four columns with the hash of 'changeme123' and the body's name, email and department; 500 when hashing or the insert fails, else 201 |
| AdminRoutes.CreateStudent | server/routes/admin.js:108-128 | the student is inserted in four columns with the hash of 'changeme123' and the body's student number, name and email; 500 when hashing or the insert fails, else 201 |
| AdminRoutes.CreatedPasswordIgnoresBody | server/routes/admin.js:45 | a password in the body changes nothing in either insert |
| AdminRoutesJsx.AdminGateOutcome | server/routes/admin.jsx:14-30 | in this file the admin gate is "missing" without a token and "invalid" with one |
| AdminRoutesJsx.VerifyAdmin | server/routes/admin.jsx:14-30 | always 401 ("No token provided" / "Invalid token"), never `next`, `req.adminId` unchanged |
| AdminRoutesJsx.NoHandlerRuns | server/routes/admin.jsx:33-88 | all four routes are guarded, so no handler runs |
| AdminRoutesJsx.RegisterInstructor | server/routes/admin.jsx:33-50 | register-instructor inserts four columns: the hash of the supplied password and the body's name, email and department; 500 "Server error" when hashing throws, otherwise the insert's outcome decides the message |
| AdminRoutesJsx.RegisterCourse | server/routes/admin.jsx:53-64 | the course is inserted in four columns from the body's `courseCode`, `courseName`, `credits` and `department`; the insert's outcome decides the message |
| InstructorRoutesJsx.VerifyInstructor | server/routes/instructor.jsx:14-30 | no token, rejected token, other role give 401/401/403; an instructor's claims become `req.user` and `next` is called; otherwise `req.user` is unchanged |
| InstructorRoutesJsx.EveryRouteGated | server/routes/instructor.jsx:33-103 | each of the five routes runs `verifyInstructor` first |
| InstructorRoutesJsx.OfferCourse | server/routes/instructor.jsx:33-45 | the offering's instructor_id is the token's claim id |
| InstructorRoutesJsx.OfferCourseIgnoresBodyInstructor | server/routes/instructor.jsx:34-39 | an instructor id in the body changes nothing |
| InstructorRoutesJsx.Courses | server/routes/instructor.jsx:48-63 | the only query is filtered by the claim id |
| InstructorRoutesJsx.PostMarks | server/routes/instructor.jsx:66-82 | a five-column insert into the marks table whose offering, student, activity type, marks and total marks are the body's `offeredCourseId`, `studentId`, `activityType`, `marks` and `totalMarks`; 500 "Error posting marks" when the insert fails, else 201 |
| InstructorRoutesJsx.CourseStudents | server/routes/instructor.jsx:85-100 | the roster query is filtered by the path's offering id alone |
| InstructorRoutesJsx.NoOwnershipCheck | server/routes/instructor.jsx:66-100 | post-marks and course-students issue the same statement whichever instructor calls them |
| InstructorRoutesJsx.StatsQueries | server/routes/instructor.jsx:106-126 | all three statistics queries are bound to the claim id |
| InstructorRoutesJsx.Stats | server/routes/instructor.jsx:103-137 | queries stop at the first failure; any failure or missing row is 500 "Error fetching statistics"; otherwise the three figures are the aggregates, each defaulting to 0 when falsy |
| InstructorRoutesJsx.StatsNeverFalsy | server/routes/instructor.jsx:128-132 | every reported figure is truthy or the number 0 |
| InstructorRoutes.UsedBefore | server/routes/instructor.js:6 | the router-level gates before a registration are exactly the `use` layers before it |
| InstructorRoutes.Chain | server/routes/instructor.js:6 | a route's gates are the router-level ones registered before it, in order, followed by its own |
| InstructorRoutes.MiddlewareGuardsEveryRoute | server/routes/instructor.js:6 | both routes, /dashboard included, sit behind exactly the instructor middleware |
| InstructorRoutes.StatsQueries | server/routes/instructor.js:12-38 | all three statistics queries are bound to the token id |
| InstructorRoutes.Stats | server/routes/instructor.js:9-51 | any failure or missing row is 500 "Error fetching instructor statistics"; otherwise totalStudents, activeCourses and averageGrade, each defaulting to 0 when falsy |
| InstructorRoutes.NullAggregatesReportZero | server/routes/instructor.js:40-44 | null aggregates are reported as 0 |
| InstructorRoutes.Serve | server/routes/instructor.js:6-56 | a request to either route gets the middleware's 401/401/403 unless an instructor is admitted, and only then the handler's answer for the stored claims; `req.user` becomes the decoded claims whenever the token decodes and is unchanged otherwise |
| StudentRoutesJsx.VerifyStudent | server/routes/student.jsx:13-29 | the gate as written: 401/401/403 by outcome; a student's claim id becomes `req.studentId`; otherwise it is unchanged |
| StudentRoutesJsx.Semester | server/routes/student.jsx:42-44 | 'Spring' exactly for months 0-5, 'Fall' exactly for 6-11 |
| StudentRoutesJsx.SemesterSplitsTheYear | server/routes/student.jsx:44 | the semester changes once in the year and never back |
| StudentRoutesJsx.AvailableCourses | server/routes/student.jsx:32-53 | offerings are queried with the current semester and year |
| StudentRoutesJsx.RegisterCourse | server/routes/student.jsx:56-68 | the registration inserts the gate's student id with the body's offering id |
| StudentRoutesJsx.RegisterCourseIgnoresBodyStudent | server/routes/student.jsx:57-61 | a student id in the body changes nothing |
| StudentRoutesJsx.MyCourses | server/routes/student.jsx:71-89 | the query is filtered by the gate's student id |
| StudentRoutesJsx.CourseMarks | server/routes/student.jsx:92-106 | the query is filtered by the gate's student id and the path's offering |
| StudentRoutesJsx.Handler | server/routes/student.jsx:56-106 | each handler issues one statement, and the last three are scoped by the student id first |
| StudentRoutesJsx.Dispatch | server/routes/student.jsx:13-106 | a request gets the gate's 401/401/403, or the handler's answer for the recorded student id |
| StudentRoutesJsx.Serve | server/routes/student.jsx:20 | with `jwt` unbound, every request gets 401, no statement is issued and `req.studentId` never changes |
| LoginForm.Updated | client/src/components/Login.jsx:30-33 | the named field takes the value; every other field is unchanged |
| LoginForm.LoginPage.constructor | client/src/components/Login.jsx:19-24 | the form starts with empty email and password, role 'admin', no error |
| LoginForm.LoginPage.HandleChange | client/src/components/Login.jsx:28-34 | the credentials become the functional update of the previous ones |
| LoginForm.ChangeKeepsOtherFields | client/src/components/Login.jsx:28-34 | typing into one field never disturbs another |
| LoginForm.DashboardFor | client/src/components/Login.jsx:49-61 | defined exactly on the three roles, mapping them to their dashboards |
| LoginForm.Submit | client/src/components/Login.jsx:36-68 | login is not called exactly when email or password is empty, and the error is then "Please fill in all required fields"; navigation happens exactly for a successful result with a known role; otherwise "Invalid user role" for an unknown role, result.error for an unsuccessful result, and the generic message both when `login` throws and when a successful result has no user (reading its role throws into the catch) |
| LoginForm.LoginPage.HandleSubmit | client/src/components/Login.jsx:36-68 | the error, the navigations and the login calls become those of the submit chain |
| LoginForm.EveryOptionHasADashboard | client/src/components/Login.jsx:131-133 | the default role is the first option, and every option has a dashboard |
| AppRoutes.Find | client/src/App.jsx:22-121 | a route is found exactly when some route has the path, and it is the first such route |
| AppRoutes.Resolve | client/src/App.jsx:22-121 | a listed path renders its route; any path no listed route has, `*` itself included, redirects to '/' |
| AppRoutes.PathsDistinct | client/src/App.jsx:22-121 | no two routes of the table share a path |
| AppRoutes.FindIsUnambiguous | client/src/App.jsx:22-121 | every route is the one its own path finds: no earlier route shadows it |
| AppRoutes.RootIsLogin | client/src/App.jsx:23 | '/' renders Login with no role guard |
| AppRoutes.OneRolePerRoute | client/src/App.jsx:26-117 | every guarded route allows exactly one role, the one its path begins with |
| AppRoutes.UnmatchedRedirects | client/src/App.jsx:120 | any unmatched path redirects to '/' with replace |
| AppRoutes.LoginLandsOnAllowedRoute | client/src/App.jsx:26-101 | the dashboard Login navigates to for a role is a route whose allowedRoles is exactly that role |
| AppRoutes.ServerLoginLandsOnAllowedRoute | client/src/components/Login.jsx:49-58 | after a successful server login, the returned user's role leads to a route allowing exactly the requested role |
| Grades.Name | client/src/components/student/ViewCourses.jsx:94-101 | the result is one of the five colour names |
| Grades.Rank | client/src/components/student/ViewCourses.jsx:97-100 | the bands are ranked, and only 'default' has no rank |
| Grades.ParseFloat | client/src/components/student/ViewCourses.jsx:96 | a number parses to itself; values other than numbers and strings parse to NaN |
| Grades.Band | client/src/components/student/ViewCourses.jsx:97-100 | a parsed grade gets the colour of a threshold it reaches, or 'error' |
| Grades.BandBoundaries | client/src/components/student/ViewCourses.jsx:97-100 | at least 90 is success, 70 to 90 primary, 60 to 70 warning, below 60 error |
| Grades.BandMonotone | client/src/components/student/ViewCourses.jsx:97-100 | a higher grade never gets a lower band |
| Grades.LabelOf | client/src/components/student/ViewCourses.jsx:173 | the chip text falls back to 'N/A' exactly when the grade is falsy |
| ViewCourses.GetGradeColor | client/src/components/student/ViewCourses.jsx:94-101 | 'default' exactly for falsy grades; NaN is 'error'; otherwise the threshold bands |
| ViewCourses.NotAvailableIffDefault | client/src/components/student/ViewCourses.jsx:173-174 | the chip falls back to N/A exactly when its colour is 'default' |
| ViewCourses.LetterGradeIsError | client/src/components/student/ViewCourses.jsx:96-100 | a letter grade such as "A" is shown in the error colour |
| ViewCourses.LiteralNotAvailableIsError | client/src/components/student/ViewCourses.jsx:173-174 | a grade stored as the string "N/A" reads the same but is coloured 'error' |
| ViewCourses.ZeroGradeIsNotAvailable | client/src/components/student/ViewCourses.jsx:95 | a numeric 0 grade is falsy: N/A in 'default' |
| ViewCourses.GradeColorMonotone | client/src/components/student/ViewCourses.jsx:97-100 | among non-zero numeric grades, a higher grade never gets a lower colour |
| AcademicProgress.InitialProgressIsEmpty | client/src/components/student/AcademicProgress.jsx:34-41 | gpa 0, 0 completed credits of 120, three empty lists |
| AcademicProgress.GetGradeColor | client/src/components/student/AcademicProgress.jsx:59-66 | the same five-band rule: falsy is 'default', NaN 'error' |
| AcademicProgress.AgreesWithViewCourses | client/src/components/student/AcademicProgress.jsx:59-66 | the two copies agree on every grade |
| AcademicProgress.RowLabelNotAvailableIffDefault | client/src/components/student/AcademicProgress.jsx:241-242 | the row shows currentGrade, falling back to 'N/A' exactly when the colour is 'default' |

## Left out

- **JWT and bcrypt.** Signing, signature and expiry checks (section 4.1.4 of RFC 7519), hashing and comparison are foreign libraries. They are parameters:
  - `Decoder` and `Encoder` for `jwt.verify` and `jwt.sign`;
  - `Comparer` and `Hasher` for bcrypt.

  Claims other than `id` and `role`, and tokens whose payload is a plain string, are not modelled. The library's version is unknown, so its handling of an `undefined` secret is left to the decoder.
- **SQL text.** Joins, `COUNT` and `AVG` are not evaluated. A statement is represented by its main table, the columns its `?` placeholders filter or fill, and the values bound to them. Query results are parameters, except the single-table lookups of the auth routes, which filter a modelled table.
- **MySQL coercion.** MySQL's implicit string-to-number coercion and collations are not modelled: SQL equality is exact. The `StudentTokenFindsNoRow` finding depends on this.
- **Database plumbing.** Connection set-up, `server/setup-database.js`, `server/setup-database.jsx` and the mounting in `server/index.jsx` are not part of this model. Only the schema facts the lemmas assume (`KeyedById`, `InstructorSchema`, `StudentSchema`) are stated as predicates.
- **Asynchrony.** The order in which callbacks and promises run, and concurrency between requests, is not modelled. Each handler is one step. The unhandled rejection of auth.jsx's `db.query` callback is its `Silent` outcome: the model records only that this handler sends nothing, not whether the Node process survives the rejection, which depends on the Node version and on any `unhandledRejection` handler.
- **Unreachable catch.** The outer `catch` of `instructorAuthMiddleware` (401 "Authorization failed") cannot be reached in the model, because `authMiddleware` catches every exception itself.
- **Reply bodies.** Non-message reply fields are not modelled. This covers the `id: result.insertId` of the admin create replies and the JSON rows of the listing routes beyond the result rows themselves.
- **Other admin.js handlers.** The update, delete, statistics and course handlers are modelled only as guarded routes of the router table.
- **Router matching.** Path matching is exact: the router's case-insensitive and trailing-slash matching is not modelled. `ProtectedRoute` and the authentication context are not part of this model. `allowedRoles` is data, and the outcome of the context's `login` is a parameter of `HandleSubmit`.
- **The clock.** The current month and year of `student.jsx` are parameters.
- **String parsing.** `parseFloat` on strings is the parameter `parseText`, with `None` for NaN. Template-literal rendering of a grade in the chip text is not modelled: `Grades.LabelOf` records whether the grade or the `'N/A'` fallback is shown.
- **UI code.** Rendering, axios requests, localStorage, dashboard role checks and float formatting are not modelled.
- Middleware.NoSecretNoEntry: it assumes a library that throws on a falsy secret, because the jsonwebtoken version is not recorded in the repository; `Middleware.NoSecretTrustsTheLibrary` states the other case.
- **AdminRoutesJsx.VerifyAdmin:** it is modelled only under the file's own binding, where the decoder always throws. Its text is identical to `AdminRoutes.VerifyAdmin`, whose contract covers the 403 and admission branches.

## Findings

| source | as written | input that shows it | evidently intended | confidence | as-written member | corrected member |
|---|---|---|---|---|---|---|
| server/routes/auth.js:22-25 | login signs `{ id: user['instructor_id'] }` for instructors, but the instructors table has no such column and `/verify` looks users up by `id` | an existing instructor logs in with correct credentials, then presents the token to `/verify`: the claim id is undefined and the reply is 404 "User not found" | the token carries the row's primary key `id`, so verify finds the user who logged in | high (not executed) | AuthRoutes.InstructorTokenFindsNoRow | AuthRoutes.CorrectedRoundTrip |
| server/routes/auth.js:26-29 | login signs `{ id: user['student_id'] }` for students, which is the external VARCHAR student number, while `/verify` looks users up by the INT `id` | a student with id 7 and student number "S-001" logs in, then presents the token to `/verify`: no row has id "S-001", so the reply is 404 | the token carries the row's `id` | medium (not executed; MySQL's string-to-number coercion could match a purely numeric student number against another student's id) | AuthRoutes.StudentTokenFindsNoRow | AuthRoutes.CorrectedRoundTrip |

`server/routes/auth.jsx:61-75` has the same dispatch (`AuthRoutesJsx.DispatchMatchesAuthJs`). `AuthRoutes.CorrectedDispatch` defines the evidently intended dispatch, and `AuthRoutes.CorrectedRoundTrip` proves the round trip for every role under it.
