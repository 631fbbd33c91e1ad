/**
 * client/src/components/Login.jsx: the login form's state (the credentials
 * being typed, the error banner) and its two event handlers. `login` comes
 * from the authentication context, which is not part of this model: its
 * outcome is a parameter of the submit handler.
 */
module LoginForm {
  import opened Js

  /** The roles the selector offers, in menu order. */
  const RoleOptions: seq<string> := ["admin", "instructor", "student"]

  /** The form's fields before anything is typed: the role selector starts on admin. */
  const InitialCredentials: map<string, string> := map["email" := "", "password" := "", "role" := "admin"]

  /** A credential as a string, reading `''` for a field that is absent
      (both are falsy, which is all the form asks of them). */
  function Get(credentials: map<string, string>, name: string): string
  {
    if name in credentials then credentials[name] else ""
  }

  /** `prev => ({ ...prev, [name]: value })`. */
  function Updated(prev: map<string, string>, name: string, value: string): (c: map<string, string>)
    ensures name in c && c[name] == value
    ensures forall k :: k != name ==> (k in c <==> k in prev)
    ensures forall k :: k != name && k in prev ==> c[k] == prev[k]
  {
    prev[name := value]
  }

  /** What `await login(credentials)` did: it threw, or it resolved to an object
      with `success`, `user` (if any) and `error`. */
  datatype LoginAttempt = Threw | Resolved(success: Value, user: Option<Object>, error: Value)

  /** The dashboard the role `switch` navigates to, if the role is one it knows. */
  function DashboardFor(role: Value): (path: Option<string>)
    ensures path.Some? <==> role.Str? && role.s in RoleOptions
    ensures role == Str("admin") ==> path == Some("/admin-dashboard")
    ensures role == Str("instructor") ==> path == Some("/instructor-dashboard")
    ensures role == Str("student") ==> path == Some("/student-dashboard")
  {
    if role == Str("admin") then Some("/admin-dashboard")
    else if role == Str("instructor") then Some("/instructor-dashboard")
    else if role == Str("student") then Some("/student-dashboard")
    else None
  }

  const MissingFields: string := "Please fill in all required fields"
  const UnknownRole: string := "Invalid user role"
  const Unexpected: string := "An unexpected error occurred. Please try again."

  /** What one submission leaves behind: the error banner's value, the path
      navigated to, and whether `login` was called. */
  datatype Submission = Submission(error: Value, navigateTo: Option<string>, calledLogin: bool)

  /** The decision chain of `handleSubmit`. */
  function Submit(credentials: map<string, string>, attempt: LoginAttempt): (s: Submission)
    ensures !s.calledLogin <==> (Get(credentials, "email") == "" || Get(credentials, "password") == "")
    ensures !s.calledLogin ==> s == Submission(Str(MissingFields), None, false)
    ensures s.navigateTo.Some? ==>
              s.error == Str("") && s.navigateTo.value in ["/admin-dashboard", "/instructor-dashboard", "/student-dashboard"]
    ensures s.navigateTo.Some? <==>
              && s.calledLogin && attempt.Resolved? && Truthy(attempt.success) && attempt.user.Some?
              && DashboardFor(Field(attempt.user.value, "role")).Some?
    ensures s.navigateTo.Some? ==> s.navigateTo == DashboardFor(Field(attempt.user.value, "role"))
    ensures s.calledLogin && attempt.Threw? ==> s.error == Str(Unexpected)
    ensures s.calledLogin && attempt.Resolved? && !Truthy(attempt.success) ==> s.error == attempt.error
    ensures s.calledLogin && attempt.Resolved? && Truthy(attempt.success) && attempt.user.None? ==> s.error == Str(Unexpected)
    ensures (&& s.calledLogin && attempt.Resolved? && Truthy(attempt.success) && attempt.user.Some?
             && DashboardFor(Field(attempt.user.value, "role")).None?) ==> s.error == Str(UnknownRole)
  {
    if Get(credentials, "email") == "" || Get(credentials, "password") == "" then
      Submission(Str(MissingFields), None, false)
    else match attempt
      case Threw => Submission(Str(Unexpected), None, true)
      case Resolved(success, user, error) =>
        if !Truthy(success) then Submission(error, None, true)
        // `result.user.role` on a missing user throws into the `catch`.
        else if user.None? then Submission(Str(Unexpected), None, true)
        else match DashboardFor(Field(user.value, "role"))
          case Some(path) => Submission(Str(""), Some(path), true)
          case None => Submission(Str(UnknownRole), None, true)
  }

  /** The `Login` component's state, with the effects its handlers have had:
      the paths passed to `navigate` and the credentials passed to `login`. */
  class LoginPage {
    var credentials: map<string, string>
    var error: Value
    var navigations: seq<string>
    var loginCalls: seq<map<string, string>>

    constructor ()
      ensures credentials == InitialCredentials && credentials["role"] in RoleOptions
      ensures error == Str("") && navigations == [] && loginCalls == []
    {
      credentials := InitialCredentials;
      error := Str("");
      navigations := [];
      loginCalls := [];
    }

    /** `handleChange(e)`: the named field takes the input's value. */
    method HandleChange(name: string, value: string)
      modifies this`credentials
      ensures credentials == Updated(old(credentials), name, value)
    {
      credentials := credentials[name := value];
    }

    /** `handleSubmit(e)`: clear the banner, check the two fields, call
        `login` (whose outcome is `attempt`), then navigate or set the banner. */
    method HandleSubmit(attempt: LoginAttempt)
      modifies this`error, this`navigations, this`loginCalls
      ensures var s := Submit(old(credentials), attempt);
              && error == s.error
              && navigations == old(navigations) + (if s.navigateTo.Some? then [s.navigateTo.value] else [])
              && loginCalls == old(loginCalls) + (if s.calledLogin then [old(credentials)] else [])
    {
      error := Str("");
      if Get(credentials, "email") == "" || Get(credentials, "password") == "" {
        error := Str(MissingFields);
        return;
      }
      loginCalls := loginCalls + [credentials];
      if attempt.Threw? {
        error := Str(Unexpected);
        return;
      }
      if !Truthy(attempt.success) {
        error := attempt.error;
        return;
      }
      if attempt.user.None? {
        error := Str(Unexpected);
        return;
      }
      var role := Field(attempt.user.value, "role");
      if role == Str("admin") {
        navigations := navigations + ["/admin-dashboard"];
      } else if role == Str("instructor") {
        navigations := navigations + ["/instructor-dashboard"];
      } else if role == Str("student") {
        navigations := navigations + ["/student-dashboard"];
      } else {
        error := Str(UnknownRole);
      }
    }
  }

  /** Typing into one field never disturbs another. */
  lemma ChangeKeepsOtherFields(prev: map<string, string>, name: string, value: string, other: string)
    requires other != name
    ensures Get(Updated(prev, name, value), other) == Get(prev, other)
    ensures Get(Updated(prev, name, value), name) == value
  {
  }

  /** The selector's default is one of its options, and every option the
      selector offers leads to a dashboard. */
  lemma EveryOptionHasADashboard(i: nat)
    requires i < |RoleOptions|
    ensures InitialCredentials["role"] == RoleOptions[0]
    ensures DashboardFor(Str(RoleOptions[i])).Some?
  {
  }
}
