/** The authentication context: the user, loading flag and error it holds,
    and how its mount effect, `login`, `register`, `logout` and
    `refreshUser` change them (together with localStorage, through the API
    wrappers they call). */
module AuthContext {
  import opened JsValues
  import opened Http
  import opened Session
  import opened Thunks
  import AuthApi

  /** The context state together with localStorage. */
  datatype Context = Context(user: Option<User>, isLoading: bool, error: Option<string>, store: Storage)

  /** `isAuthenticated: !!user`. */
  predicate IsAuthenticated(c: Context) {
    c.user.Some?
  }

  /** The state on mount: no user, still loading, no error. */
  function Mounted(store: Storage): Context {
    Context(None, true, None, store)
  }

  /** The mount effect's outcome, and whether it asked the backend for the
      current user. */
  datatype Init = Init(context: Context, fetched: bool)

  /** `initAuth`: with a stored (non-empty) access token, fetch the current
      user and take it on success; a thrown fetch removes both entries.
      Loading ends either way. */
  function InitAuth(store: Storage, me: Reply<Envelope<Option<User>>>): (i: Init)
    ensures !i.context.isLoading && i.context.error.None?
    ensures i.fetched <==> Truthy(Read(store.accessToken))
    ensures !i.fetched ==> i.context == Context(None, false, None, store)
    ensures i.fetched && me.Threw? ==> i.context == Context(None, false, None, Cleared)
    ensures i.fetched && me.Returned? ==>
              i.context.store == store &&
              i.context.user == (if me.body.success then me.body.data else None)
    ensures i.context.store != store ==> i.fetched && me.Threw?
  {
    var c := Mounted(store);
    if !Truthy(Read(store.accessToken)) then Init(c.(isLoading := false), false)
    else
      match me
      case Returned(body) =>
        Init((if body.success then c.(user := body.data) else c).(isLoading := false), true)
      case Threw(_) =>
        Init(c.(store := c.store.(accessToken := None, refreshToken := None), isLoading := false), true)
  }

  /** The message V8 gives the TypeError of reading `data.user` off a reply
      that has no `data`. */
  const MissingDataMessage := "Cannot read properties of undefined (reading 'user')"

  /** A thrown error as the `catch` of `login` and `register` sees it:
      an axios error, or an `Error` the `try` block threw itself. */
  datatype Failure = FromBackend(error: ApiError) | Raised(message: string)

  /** `err.response?.data?.message || err.message || fallback`. */
  function FailureMessage(f: Failure, fallback: string): (m: string)
    ensures f.FromBackend? && f.error.data.Some? && Truthy(Get(f.error.data.value, "message")) ==>
              m == ToJsString(Get(f.error.data.value, "message"))
    ensures f.FromBackend? && (f.error.data.None? || !Truthy(Get(f.error.data.value, "message"))) ==>
              m == OrText(f.error.message, fallback)
    ensures f.Raised? ==> m == (if f.message != "" then f.message else fallback)
    ensures fallback != "" ==> m != ""
  {
    match f
    case FromBackend(e) =>
      var backend := if e.data.Some? then Get(e.data.value, "message") else Undefined;
      if Truthy(backend) then (TruthyTextNonEmpty(backend); ToJsString(backend))
      else if Truthy(e.message) then (TruthyTextNonEmpty(e.message); ToJsString(e.message))
      else fallback
    case Raised(msg) => if msg != "" then msg else fallback
  }

  /** What `login` or `register` leaves behind, and the message of the
      `Error` it rethrows, if any. */
  datatype SignIn = SignIn(context: Context, rethrown: Option<string>)

  /** The fixed message of each of the two callbacks. */
  function SignInFallback(signUp: bool): string {
    if signUp then "Registration failed" else "Login failed"
  }

  /** `login` and `register`: the API wrapper stores the tokens it finds;
      a reply with `success` sets the user; a reply without it counts as a
      failure with the fixed message; every failure is recorded in `error`
      and rethrown; loading ends either way. */
  function SignInCall(c: Context, signUp: bool, reply: Reply<AuthBody>): (r: SignIn)
    ensures !r.context.isLoading
    ensures r.context.store == AuthApi.SessionCall(reply, c.store).store
    ensures r.rethrown.None? <==> reply.Returned? && reply.body.success && reply.body.data.Some?
    ensures r.rethrown.None? ==> r.context.user == reply.body.data.value.user && r.context.error.None?
    ensures r.rethrown.Some? ==> r.context.user == c.user && r.context.error == r.rethrown
    ensures r.rethrown.Some? ==> r.rethrown.value != ""
    ensures reply.Returned? && !reply.body.success ==> r.rethrown == Some(SignInFallback(signUp))
    ensures reply.Threw? ==> r.rethrown == Some(FailureMessage(FromBackend(reply.error), SignInFallback(signUp)))
  {
    var started := c.(isLoading := true, error := None);
    var api := AuthApi.SessionCall(reply, c.store);
    var failure: Option<Failure> :=
      match reply
      case Threw(e) => Some(FromBackend(e))
      case Returned(body) =>
        if !body.success then Some(Raised(SignInFallback(signUp)))
        else if body.data.None? then Some(Raised(MissingDataMessage))
        else None;
    if failure.None? then
      SignIn(started.(user := reply.body.data.value.user, store := api.store, isLoading := false), None)
    else
      var msg := FailureMessage(failure.value, SignInFallback(signUp));
      SignIn(started.(error := Some(msg), store := api.store, isLoading := false), Some(msg))
  }

  /** `logout`: the wrapper removes both entries, a backend failure is
      swallowed, and the user is dropped either way. */
  function LogoutCall(c: Context, backend: Reply<()>): (r: Context)
    ensures r.user.None? && r.store == Cleared
    ensures r.isLoading == c.isLoading && r.error == c.error
  {
    var api := AuthApi.Logout(backend, c.store);
    c.(user := None, store := api.store)
  }

  /** `refreshUser`: a successful reply replaces the user; anything else
      leaves the state as it was. */
  function RefreshUser(c: Context, me: Reply<Envelope<Option<User>>>): (r: Context)
    ensures me.Returned? && me.body.success ==> r == c.(user := me.body.data)
    ensures !(me.Returned? && me.body.success) ==> r == c
  {
    match me
    case Returned(body) => if body.success then c.(user := body.data) else c
    case Threw(_) => c
  }

  /** A successful sign-in with a user authenticates the context; a failed
      one leaves authentication as it was, and a reply that reports failure
      yields the fixed message whatever the backend's own message said. */
  lemma SignInAuthentication(c: Context, signUp: bool, reply: Reply<AuthBody>)
    ensures var r := SignInCall(c, signUp, reply);
            && (r.rethrown.None? && reply.body.data.value.user.Some? ==> IsAuthenticated(r.context))
            && (r.rethrown.Some? ==> IsAuthenticated(r.context) == IsAuthenticated(c))
            && (reply.Returned? && !reply.body.success ==> r.context.error == Some(SignInFallback(signUp)))
  {
  }

  /** Logging out always leaves the context signed out with storage
      cleared, whether the backend call succeeded or threw. */
  lemma LogoutSignsOut(c: Context, backend: Reply<()>)
    ensures !IsAuthenticated(LogoutCall(c, backend))
    ensures LogoutCall(c, backend) == LogoutCall(c, Threw(ApiError(None, None, Undefined)))
  {
  }

  /** The backend's message takes precedence over the error's own message,
      which takes precedence over the fixed text. */
  lemma MessagePrecedence(status: Option<int>, backendMessage: string, ownMessage: string, fallback: string)
    requires backendMessage != "" && ownMessage != ""
    ensures FailureMessage(FromBackend(ApiError(status, Some(map["message" := Str(backendMessage)]), Str(ownMessage))), fallback) == backendMessage
    ensures FailureMessage(FromBackend(ApiError(status, None, Str(ownMessage))), fallback) == ownMessage
    ensures FailureMessage(FromBackend(ApiError(status, Some(map[]), Undefined)), fallback) == fallback
  {
  }

  /** A mount without a stored token never fetches and ends signed out; a
      failed refresh of the user never signs anyone out. */
  lemma MountAndRefreshKeepSession(store: Storage, me: Reply<Envelope<Option<User>>>, c: Context)
    requires store.accessToken.None? || store.accessToken == Some("")
    ensures var i := InitAuth(store, me);
            !i.fetched && !IsAuthenticated(i.context) && i.context.store == store
    ensures me.Threw? ==> IsAuthenticated(RefreshUser(c, me)) == IsAuthenticated(c)
  {
  }
}
