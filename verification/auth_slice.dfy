/** The `auth` redux slice: the bodies of its login, register and logout
    thunks (which also write localStorage) and its reducer, including the
    `setTokens` reducer that writes storage too. */
module AuthSlice {
  import opened JsValues
  import opened Http
  import opened Session
  import opened Thunks
  import AuthApi

  /** The slice's `tokens` record. */
  datatype TokenPair = TokenPair(access: string, refresh: string)

  /** A user profile, kept as the backend sent it. */
  datatype Profile = Profile(fields: Object)

  datatype AuthState = AuthState(
    user: Option<User>,
    profile: Option<Profile>,
    tokens: Option<TokenPair>,
    loading: bool,
    error: Option<string>,
    isAuthenticated: bool)

  const Initial := AuthState(None, None, None, false, None, false)

  /** The slice's async thunks. */
  datatype Operation = LoginOp | RegisterOp | GetMeOp | GetProfileOp | UpdateProfileOp | LogoutOp

  /** The default message of each rejected case (also the thunk's fallback text). */
  function Fallback(op: Operation): string {
    match op
    case LoginOp => "Login failed"
    case RegisterOp => "Registration failed"
    case GetMeOp => "Failed to fetch user"
    case GetProfileOp => "Failed to fetch profile"
    case UpdateProfileOp => "Failed to update profile"
    case LogoutOp => "Logout failed"
  }

  /** A rejection of this operation signs the user out. */
  predicate RejectionSignsOut(op: Operation) {
    op == LoginOp || op == RegisterOp || op == GetMeOp
  }

  /** The unified payload of a fulfilled login or register. */
  datatype SessionPayload = SessionPayload(user: Option<User>, tokens: TokenPair)

  datatype Action =
    | ClearError
    | SetTokens(pair: TokenPair)
    | Pending(op: Operation)
    | Rejected(op: Operation, payload: RejectPayload)
    | LoginFulfilled(session: SessionPayload)
    | RegisterFulfilled(session: SessionPayload)
    | GetMeFulfilled(user: Option<User>)
    | GetProfileFulfilled(profile: Option<Profile>)
    | UpdateProfileFulfilled(profile: Option<Profile>)
    | LogoutFulfilled

  /** Every action except the two plain reducers settles or starts a thunk. */
  predicate IsLifecycle(a: Action) {
    !(a.ClearError? || a.SetTokens?)
  }

  /** The slice state together with localStorage. */
  datatype Slice = Slice(state: AuthState, store: Storage)

  /** The slice reducer. Only `setTokens` touches storage; only a settlement
      of a thunk clears `loading`; a rejection records a non-empty error and
      leaves user, profile and tokens alone; `isAuthenticated` moves only on
      the cases that establish or end a session. */
  function Reduce(s: AuthState, store: Storage, a: Action): (r: Slice)
    ensures r.store != store ==> a.SetTokens?
    ensures a.SetTokens? ==> r.store == Storage(Some(a.pair.access), Some(a.pair.refresh))
    ensures a.SetTokens? ==> r.state == s.(tokens := Some(a.pair), isAuthenticated := true)
    ensures a.GetMeFulfilled? ==> r.state == s.(loading := false, user := a.user, isAuthenticated := true, error := None)
    ensures a.GetProfileFulfilled? || a.UpdateProfileFulfilled? ==>
              r.state == s.(loading := false, profile := a.profile, error := None)
    ensures a.LoginFulfilled? || a.RegisterFulfilled? ==>
              r.state == s.(loading := false, user := a.session.user, tokens := Some(a.session.tokens),
                            isAuthenticated := true, error := None)
    ensures a.LogoutFulfilled? ==> r.state == Initial
    ensures a.Pending? ==> r.state == s.(loading := true, error := None)
    ensures a.ClearError? ==> r.state == s.(error := None)
    ensures IsLifecycle(a) && !a.Pending? ==> !r.state.loading
    ensures a.Rejected? ==> r.state.error.Some? && r.state.error.value != ""
    ensures a.Rejected? ==> r.state.user == s.user && r.state.profile == s.profile && r.state.tokens == s.tokens
    ensures IsLifecycle(a) && !a.Rejected? ==> r.state.error.None?
    ensures r.state.isAuthenticated != s.isAuthenticated ==>
              a.SetTokens? || a.LoginFulfilled? || a.RegisterFulfilled? || a.GetMeFulfilled? ||
              a.LogoutFulfilled? || (a.Rejected? && RejectionSignsOut(a.op))
  {
    match a
    case ClearError => Slice(s.(error := None), store)
    case SetTokens(pair) =>
      Slice(s.(tokens := Some(pair), isAuthenticated := true), Storage(Some(pair.access), Some(pair.refresh)))
    case Pending(_) => Slice(s.(loading := true, error := None), store)
    case Rejected(op, payload) =>
      Slice(s.(loading := false,
               error := Some(RejectionMessage(payload, Fallback(op))),
               isAuthenticated := if RejectionSignsOut(op) then false else s.isAuthenticated),
            store)
    case LoginFulfilled(p) =>
      Slice(s.(loading := false, user := p.user, tokens := Some(p.tokens), isAuthenticated := true, error := None), store)
    case RegisterFulfilled(p) =>
      Slice(s.(loading := false, user := p.user, tokens := Some(p.tokens), isAuthenticated := true, error := None), store)
    case GetMeFulfilled(u) =>
      Slice(s.(loading := false, user := u, isAuthenticated := true, error := None), store)
    case GetProfileFulfilled(pr) =>
      Slice(s.(loading := false, profile := pr, error := None), store)
    case UpdateProfileFulfilled(pr) =>
      Slice(s.(loading := false, profile := pr, error := None), store)
    case LogoutFulfilled =>
      Slice(s.(loading := false, user := None, profile := None, tokens := None, isAuthenticated := false, error := None), store)
  }

  /** The store after a sequence of actions, folded from the left as redux does. */
  function ReduceAll(s: AuthState, store: Storage, acts: seq<Action>): Slice
    decreases |acts|
  {
    if acts == [] then Slice(s, store)
    else
      var before := ReduceAll(s, store, acts[..|acts| - 1]);
      Reduce(before.state, before.store, acts[|acts| - 1])
  }

  /** The index of the last thunk action in `acts`, or -1. */
  function LastLifecycle(acts: seq<Action>): (i: int)
    ensures -1 <= i < |acts|
    ensures i >= 0 ==> IsLifecycle(acts[i])
    ensures forall j :: i < j < |acts| ==> !IsLifecycle(acts[j])
    decreases |acts|
  {
    if acts == [] then -1
    else if IsLifecycle(acts[|acts| - 1]) then |acts| - 1
    else LastLifecycle(acts[..|acts| - 1])
  }

  /** `loading` is true exactly when the most recent thunk action was a
      pending one (or, with none yet, as it started). */
  lemma {:induction false} LoadingTracksLastThunk(s: AuthState, store: Storage, acts: seq<Action>)
    ensures var i := LastLifecycle(acts);
            ReduceAll(s, store, acts).state.loading == if i == -1 then s.loading else acts[i].Pending?
    decreases |acts|
  {
    if acts != [] {
      var init := acts[..|acts| - 1];
      LoadingTracksLastThunk(s, store, init);
      if !IsLifecycle(acts[|acts| - 1]) {
        assert LastLifecycle(acts) == LastLifecycle(init);
        var i := LastLifecycle(init);
        if i >= 0 {
          assert acts[i] == init[i];
        }
      }
    }
  }

  /** `register` when signing up, `login` otherwise. */
  function SessionOp(signUp: bool): Operation {
    if signUp then RegisterOp else LoginOp
  }

  /** What a thunk hands the reducer, and localStorage afterwards. */
  datatype Dispatched = Dispatched(action: Action, store: Storage)

  /** The `login` and `register` thunks, including the API wrapper they
      await: the wrapper's flat-first write happens first, then the thunk's
      own `??` chain write; a reply with `success` yields the unified payload
      with missing tokens replaced by ''. Reading `data.user` off a reply
      without `data` throws, and the thunk rejects with its fallback text. */
  function SessionThunk(signUp: bool, reply: Reply<AuthBody>, store: Storage): (d: Dispatched)
    ensures reply.Threw? ==> d == Dispatched(Rejected(SessionOp(signUp), Caught(reply.error, Fallback(SessionOp(signUp)))), store)
    ensures (d.action.LoginFulfilled? || d.action.RegisterFulfilled?) <==>
              reply.Returned? && reply.body.success && reply.body.data.Some?
    ensures d.action.LoginFulfilled? || d.action.RegisterFulfilled? ==>
              d.action.session.user == reply.body.data.value.user &&
              d.action.session.tokens == TokenPair(OrText(Chain(reply.body.data).access, ""),
                                                   OrText(Chain(reply.body.data).refresh, ""))
    ensures d.action.LoginFulfilled? ==> !signUp
    ensures d.action.RegisterFulfilled? ==> signUp
    ensures !(d.action.LoginFulfilled? || d.action.RegisterFulfilled?) ==> d.action.Rejected? && d.action.op == SessionOp(signUp)
    ensures d.store.accessToken != store.accessToken ==>
              reply.Returned? && (OffersAccess(reply.body.data) || Truthy(Chain(reply.body.data).access))
    ensures reply.Returned? && !reply.body.success ==>
              d == Dispatched(Rejected(SessionOp(signUp), WithMessage(reply.body.message)),
                              AuthApi.SessionCall(reply, store).store)
    ensures reply.Returned? && reply.body.success && reply.body.data.None? ==>
              d.action == Rejected(SessionOp(signUp), Text(Fallback(SessionOp(signUp))))
    ensures reply.Returned? && reply.body.success ==>
              var api := AuthApi.SessionCall(reply, store).store;
              var c := Chain(reply.body.data);
              && (Truthy(c.access) ==> d.store.accessToken == Write(c.access))
              && (Truthy(c.access) && Truthy(c.refresh) ==> d.store.refreshToken == Write(c.refresh))
              && (!(Truthy(c.access) && Truthy(c.refresh)) ==> d.store.refreshToken == api.refreshToken)
              && (!Truthy(c.access) ==> d.store == api)
  {
    var op := SessionOp(signUp);
    var api := AuthApi.SessionCall(reply, store);
    match reply
    case Threw(e) => Dispatched(Rejected(op, Caught(e, Fallback(op))), api.store)
    case Returned(body) =>
      if !body.success then Dispatched(Rejected(op, WithMessage(body.message)), api.store)
      else
        var c := Chain(body.data);
        var written := StoreTruthy(api.store, c);
        if body.data.None? then Dispatched(Rejected(op, Text(Fallback(op))), written)
        else
          var p := SessionPayload(body.data.value.user, TokenPair(OrText(c.access, ""), OrText(c.refresh, "")));
          Dispatched(if signUp then RegisterFulfilled(p) else LoginFulfilled(p), written)
  }

  /** The `logout` thunk: the API wrapper's failure is swallowed, both
      entries are removed, and the thunk always fulfils. */
  function LogoutThunk(backend: Reply<()>, store: Storage): (d: Dispatched)
    ensures d == Dispatched(LogoutFulfilled, Cleared)
  {
    var api := AuthApi.Logout(backend, store);
    Dispatched(LogoutFulfilled, api.store.(accessToken := None, refreshToken := None))
  }

  /** The `getMe` thunk. */
  function GetMeThunk(reply: Reply<Envelope<Option<User>>>): (a: Action)
    ensures a.GetMeFulfilled? <==> reply.Returned? && reply.body.success
    ensures a.GetMeFulfilled? ==> a.user == reply.body.data
    ensures !a.GetMeFulfilled? ==> a.Rejected? && a.op == GetMeOp
    ensures reply.Returned? && !reply.body.success ==> a == Rejected(GetMeOp, WithMessage(reply.body.message))
    ensures reply.Threw? ==> a == Rejected(GetMeOp, Caught(reply.error, Fallback(GetMeOp)))
  {
    match Settle(reply, Fallback(GetMeOp))
    case Fulfilled(u) => GetMeFulfilled(u)
    case RejectedWith(p) => Rejected(GetMeOp, p)
  }

  /** The `getProfile` and `updateProfile` thunks. */
  function ProfileThunk(update: bool, reply: Reply<Envelope<Option<Profile>>>): (a: Action)
    ensures (a.GetProfileFulfilled? || a.UpdateProfileFulfilled?) <==> reply.Returned? && reply.body.success
    ensures a.GetProfileFulfilled? || a.UpdateProfileFulfilled? ==> a.profile == reply.body.data
    ensures a.UpdateProfileFulfilled? ==> update
    ensures a.GetProfileFulfilled? ==> !update
    ensures a.Rejected? ==> a.op == (if update then UpdateProfileOp else GetProfileOp)
    ensures reply.Returned? && !reply.body.success ==>
              a == Rejected(if update then UpdateProfileOp else GetProfileOp, WithMessage(reply.body.message))
    ensures reply.Threw? ==>
              var op := if update then UpdateProfileOp else GetProfileOp;
              a == Rejected(op, Caught(reply.error, Fallback(op)))
  {
    var op := if update then UpdateProfileOp else GetProfileOp;
    match Settle(reply, Fallback(op))
    case Fulfilled(pr) => if update then UpdateProfileFulfilled(pr) else GetProfileFulfilled(pr)
    case RejectedWith(p) => Rejected(op, p)
  }

  /** A getMe or profile reply that reports failure with a message leaves
      that message in the slice's `error`; a call that threw without a
      response body leaves the case's default. */
  lemma ThunkRejectionMessages(s: AuthState, store: Storage, m: string, update: bool,
                               me: Reply<Envelope<Option<User>>>, pr: Reply<Envelope<Option<Profile>>>)
    requires m != ""
    ensures me == Returned(Envelope(false, None, Str(m))) ==>
              Reduce(s, store, GetMeThunk(me)).state.error == Some(m)
    ensures pr == Returned(Envelope(false, None, Str(m))) ==>
              Reduce(s, store, ProfileThunk(update, pr)).state.error == Some(m)
    ensures me.Threw? && me.error.data.None? ==>
              Reduce(s, store, GetMeThunk(me)).state.error == Some(Fallback(GetMeOp))
    ensures pr.Threw? && pr.error.data.None? ==>
              Reduce(s, store, ProfileThunk(update, pr)).state.error ==
                Some(Fallback(if update then UpdateProfileOp else GetProfileOp))
  {
  }

  /** Whatever the backend answers, logging out ends in the initial state
      with both storage entries removed. */
  lemma LogoutAlwaysResets(backend: Reply<()>, s: AuthState, store: Storage)
    ensures var d := LogoutThunk(backend, store);
            Reduce(s, d.store, d.action) == Slice(Initial, Cleared)
  {
  }

  /** A successful login or register reply with a `data` member leaves the
      slice authenticated with the reply's user and the chain's tokens. */
  lemma SessionThunkAuthenticates(signUp: bool, reply: Reply<AuthBody>, s: AuthState, store: Storage)
    requires reply.Returned? && reply.body.success && reply.body.data.Some?
    ensures var d := SessionThunk(signUp, reply, store);
            var r := Reduce(s, d.store, d.action).state;
            var c := Chain(reply.body.data);
            && r.isAuthenticated && !r.loading && r.error.None?
            && r.user == reply.body.data.value.user
            && r.tokens == Some(TokenPair(OrText(c.access, ""), OrText(c.refresh, "")))
  {
  }

  /** A failed login or register signs out and records a message; a failed
      profile fetch or update leaves `isAuthenticated` as it was. */
  lemma RejectionsAndSignOut(s: AuthState, store: Storage, op: Operation, p: RejectPayload)
    ensures var r := Reduce(s, store, Rejected(op, p)).state;
            && (RejectionSignsOut(op) ==> !r.isAuthenticated)
            && (op == GetProfileOp || op == UpdateProfileOp ==> r.isAuthenticated == s.isAuthenticated)
            && r.error == Some(RejectionMessage(p, Fallback(op)))
  {
  }

  /** The wrapper and the thunk normalise separately, so the stored access
      token and the slice's `tokens.access` can differ: an empty flat token
      beside a nested one is stored from the nested object by the wrapper
      and kept as '' by the thunk. */
  lemma StoredAndSliceTokensDiverge(a: string, r: string, s: AuthState)
    requires a != ""
    ensures var data := AuthData(None, Str(""), Undefined, Some(NestedTokens(Str(a), Str(r))), Undefined, Undefined);
            var d := SessionThunk(false, Returned(AuthBody(true, Some(data), Undefined)), Cleared);
            && d.store == Storage(Some(a), Some(r))
            && Reduce(s, d.store, d.action).state.tokens == Some(TokenPair("", r))
  {
    var data := AuthData(None, Str(""), Undefined, Some(NestedTokens(Str(a), Str(r))), Undefined, Undefined);
    assert FlatFirst(Some(data)) == TokenChoice(Str(a), Str(r));
    assert Chain(Some(data)) == TokenChoice(Str(""), Str(r));
  }
}
