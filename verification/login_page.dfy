/** The login page's submit handler: it clears the error and shows the
    spinner, awaits the context's `login`, then either navigates by the
    e-mail address or shows the error, and always hides the spinner. */
module LoginPage {
  import opened JsValues
  import opened Http
  import opened Session
  import AuthContext

  /** The route a successful login goes to: the super-admin area for an
      address containing "superadmin", the stack-admin area for one
      containing "admin" only, the dashboard otherwise. */
  function Route(email: string): (route: string)
    ensures route == "/admin" <==> Includes(email, "superadmin")
    ensures route == "/stack-admin" <==> Includes(email, "admin") && !Includes(email, "superadmin")
    ensures route == "/dashboard" <==> !Includes(email, "admin")
  {
    if Includes(email, "superadmin") then
      assert OccursAt("superadmin", "admin", 5);
      IncludesTransitive(email, "superadmin", "admin");
      "/admin"
    else if Includes(email, "admin") then "/stack-admin"
    else "/dashboard"
  }

  /** The page's `error` text and `loading` flag. */
  datatype Form = Form(error: string, loading: bool)

  /** What `login` rejected with: an `Error` instance with its message, or
      some other thrown value. */
  datatype Thrown = ErrorInstance(message: string) | OtherValue

  /** One submission: the form once the handler has started, the form once
      it has finished, and the navigations it made. */
  datatype Submission = Submission(started: Form, finished: Form, navigations: seq<string>)

  /** `handleSubmit`, given how the awaited `login` settled (`None` when it
      resolved). */
  function Submit(f: Form, email: string, failure: Option<Thrown>): (s: Submission)
    ensures s.started == Form("", true)
    ensures !s.finished.loading
    ensures failure.None? ==> s.navigations == [Route(email)] && s.finished.error == ""
    ensures failure.Some? ==> s.navigations == []
    ensures failure == Some(OtherValue) ==> s.finished.error == "Invalid credentials"
    ensures failure.Some? && failure.value.ErrorInstance? ==> s.finished.error == failure.value.message
  {
    var started := f.(error := "", loading := true);
    match failure
    case None => Submission(started, started.(loading := false), [Route(email)])
    case Some(t) =>
      var message := if t.ErrorInstance? then t.message else "Invalid credentials";
      Submission(started, started.(error := message, loading := false), [])
  }

  /** The page wired to the context: `login` rejects with an `Error`
      carrying the context's message, so the page shows exactly the message
      the context recorded (never empty), and it navigates exactly once, by
      the address, when the context signed in. */
  lemma SubmitThroughContext(f: Form, c: AuthContext.Context, email: string, reply: Reply<AuthBody>)
    ensures var r := AuthContext.SignInCall(c, false, reply);
            var failure := if r.rethrown.Some? then Some(ErrorInstance(r.rethrown.value)) else None;
            var s := Submit(f, email, failure);
            && (r.rethrown.None? <==> |s.navigations| == 1)
            && (r.rethrown.Some? ==> Some(s.finished.error) == r.context.error && s.finished.error != "")
            && (r.rethrown.None? ==> s.navigations == [Route(email)] && s.finished.error == "")
  {
  }
}
