/**
 * client/src/App.jsx: the client's route table. Each path renders a screen,
 * wrapped for every path but `/` in a `ProtectedRoute` whose `allowedRoles`
 * is taken here as data; any other path redirects to `/`. With Login.jsx's
 * role switch, the dashboard a role lands on after logging in is a route
 * that allows exactly that role.
 */
module AppRoutes {
  import opened Js
  import LoginForm
  import AuthRoutes
  import Store
  import Bcrypt

  datatype Screen =
    | Login
    | AdminDashboard | ManageStudents | ManageInstructors | ManageCourses | SystemStatistics
    | InstructorDashboard | InstructorManageCourses | InstructorStatistics
    | StudentDashboard | StudentViewCourses | StudentProgress

  /** A route's element: a screen, protected by a list of roles or not at
      all, or a `<Navigate>` to another path. */
  datatype Element =
    | Render(screen: Screen, allowedRoles: Option<seq<string>>)
    | Navigate(to: string, replace: bool)

  datatype AppRoute = AppRoute(path: string, element: Element)

  /** The catch-all pattern. */
  const CatchAll: string := "*"

  /** The `<Routes>` children, in the order the file lists them. */
  const Table: seq<AppRoute> := [
    AppRoute("/", Render(Login, None)),
    AppRoute("/admin-dashboard", Render(AdminDashboard, Some(["admin"]))),
    AppRoute("/admin/students", Render(ManageStudents, Some(["admin"]))),
    AppRoute("/admin/instructors", Render(ManageInstructors, Some(["admin"]))),
    AppRoute("/admin/courses", Render(ManageCourses, Some(["admin"]))),
    AppRoute("/admin/statistics", Render(SystemStatistics, Some(["admin"]))),
    AppRoute("/instructor-dashboard", Render(InstructorDashboard, Some(["instructor"]))),
    AppRoute("/instructor/courses", Render(InstructorManageCourses, Some(["instructor"]))),
    AppRoute("/instructor/statistics", Render(InstructorStatistics, Some(["instructor"]))),
    AppRoute("/student-dashboard", Render(StudentDashboard, Some(["student"]))),
    AppRoute("/student/courses", Render(StudentViewCourses, Some(["student"]))),
    AppRoute("/student/progress", Render(StudentProgress, Some(["student"]))),
    AppRoute(CatchAll, Navigate("/", true))
  ]

  /** The first route among `routes` whose path is `path` exactly. */
  function Find(routes: seq<AppRoute>, path: string): (e: Option<Element>)
    ensures e.Some? <==> exists i :: 0 <= i < |routes| && routes[i].path == path
    ensures e.Some? ==> exists i :: 0 <= i < |routes| && routes[i].path == path && routes[i].element == e.value &&
                          forall j :: 0 <= j < i ==> routes[j].path != path
    decreases |routes|
  {
    if routes == [] then None
    else if routes[0].path == path then Some(routes[0].element)
    else
      var rest := Find(routes[1..], path);
      assert forall i :: 0 <= i < |routes[1..]| ==> routes[1..][i] == routes[i + 1];
      assert rest.Some? ==> exists i :: 0 <= i < |routes| && routes[i].path == path && routes[i].element == rest.value &&
                              forall j :: 0 <= j < i ==> routes[j].path != path by {
        if rest.Some? {
          var i :| 0 <= i < |routes[1..]| && routes[1..][i].path == path && routes[1..][i].element == rest.value &&
                   forall j :: 0 <= j < i ==> routes[1..][j].path != path;
          forall j | 0 <= j < i + 1 ensures routes[j].path != path {
            if j > 0 { assert routes[j] == routes[1..][j - 1]; }
          }
        }
      }
      assert (exists i :: 0 <= i < |routes| && routes[i].path == path) ==>
             (exists i :: 0 <= i < |routes[1..]| && routes[1..][i].path == path) by {
        if exists i :: 0 <= i < |routes| && routes[i].path == path {
          var i :| 0 <= i < |routes| && routes[i].path == path;
          assert i > 0 && routes[1..][i - 1].path == path;
        }
      }
      rest
  }

  /** What the router renders for a location: the route with that exact
      path, or else the catch-all. */
  function Resolve(path: string): (e: Element)
    ensures (forall i :: 0 <= i < |Table| - 1 ==> Table[i].path != path) ==> e == Navigate("/", true)
    ensures forall i :: 0 <= i < |Table| - 1 && Table[i].path == path ==> e == Table[i].element
  {
    var exact := Find(Table[..|Table| - 1], path);
    if exact.Some? then
      AllPathsDistinct();
      exact.value
    else Table[|Table| - 1].element
  }

  /** No two routes of the table share a path. */
  lemma AllPathsDistinct()
    ensures forall i, j :: 0 <= i < |Table| && 0 <= j < |Table| && i != j ==> Table[i].path != Table[j].path
  {
  }

  /** The paths are distinct, so each one names a single route. */
  lemma {:induction false} PathsDistinct(i: nat, j: nat)
    requires i < |Table| && j < |Table| && i != j
    ensures Table[i].path != Table[j].path
  {
  }

  /** Every route of the table is the one its own path finds: no earlier
      route shadows it. */
  lemma {:induction false} FindIsUnambiguous(i: nat)
    requires i < |Table|
    ensures Find(Table, Table[i].path) == Some(Table[i].element)
  {
    var e := Find(Table, Table[i].path);
    var j :| 0 <= j < |Table| && Table[j].path == Table[i].path && Table[j].element == e.value &&
             forall k :: 0 <= k < j ==> Table[k].path != Table[i].path;
    if j != i {
      PathsDistinct(i, j);
    }
  }

  /** `/` renders the login screen with no role guard. */
  lemma RootIsLogin()
    ensures Resolve("/") == Render(Login, None)
  {
    assert Table[0].path == "/";
  }

  /** Every route but `/` and the catch-all is guarded, and by exactly one
      role; the role is the one the path's first segment names. */
  lemma {:induction false} OneRolePerRoute(i: nat)
    requires 0 < i < |Table| - 1
    ensures Table[i].element.Render?
    ensures Table[i].element.allowedRoles.Some? && |Table[i].element.allowedRoles.value| == 1
    ensures var role := Table[i].element.allowedRoles.value[0];
            && role in LoginForm.RoleOptions
            && Table[i].path[..|role| + 1] == "/" + role
  {
  }

  /** An unlisted path redirects to `/`, replacing the history entry. */
  lemma UnmatchedRedirects(path: string)
    requires forall i :: 0 <= i < |Table| ==> Table[i].path != path
    ensures Resolve(path) == Navigate("/", true)
  {
  }

  /** The path Login.jsx navigates to for a role is a route allowing that role alone. */
  lemma LoginLandsOnAllowedRoute(role: Value)
    requires LoginForm.DashboardFor(role).Some?
    ensures var e := Resolve(LoginForm.DashboardFor(role).value);
            e.Render? && e.allowedRoles == Some([role.s])
  {
    var path := LoginForm.DashboardFor(role).value;
    if role == Str("admin") {
      assert Table[1].path == path;
    } else if role == Str("instructor") {
      assert Table[6].path == path;
    } else {
      assert Table[9].path == path;
    }
  }

  /** From one end to the other: when the server's login succeeds and the
      form receives its user, the form navigates to a route that allows the
      role the user asked for, and only that role. */
  lemma ServerLoginLandsOnAllowedRoute(body: Object, db: Store.Db, compare: Bcrypt.Comparer, env: Option<string>)
    requires AuthRoutes.LoginChain(body, db, compare, env, AuthRoutes.RoleDispatch).LoggedIn?
    ensures var user := AuthRoutes.LoginChain(body, db, compare, env, AuthRoutes.RoleDispatch).user;
            && LoginForm.DashboardFor(Field(user, "role")).Some?
            && var e := Resolve(LoginForm.DashboardFor(Field(user, "role")).value);
               e.Render? && e.allowedRoles == Some([Field(body, "role").s])
  {
    var user := AuthRoutes.LoginChain(body, db, compare, env, AuthRoutes.RoleDispatch).user;
    LoginLandsOnAllowedRoute(Field(user, "role"));
  }
}
