/** The shared HTTP client's two interceptors. The request interceptor
    attaches the stored access token as a bearer credential (section 2.1 of
    RFC 6750); the response interceptor answers a first 401 by refreshing
    the tokens once and replaying the request. The response path is an
    explicit state machine whose rank bounds every run. */
module ApiClient {
  import opened JsValues
  import opened Http
  import opened Session

  /** An outgoing request: its target, its `Authorization` header and the
      `_retry` marker the response interceptor sets. */
  datatype Request = Request(endpoint: string, authorization: Option<string>, retried: bool)

  /** The backend: how it answers a request sent through the client, and how
      the refresh endpoint, called with plain axios, answers a refresh token. */
  datatype Backend = Backend(resource: Request -> Reply<Object>, refresh: string -> Reply<AuthBody>)

  /** The `Authorization` value for a bearer token. */
  function Bearer(token: string): string {
    "Bearer " + token
  }

  /** The request interceptor: with a stored (non-empty) access token the
      header becomes exactly "Bearer " + token; otherwise the request passes
      through unchanged. */
  function AttachBearer(store: Storage, req: Request): (r: Request)
    ensures store.accessToken.Some? && store.accessToken.value != "" ==>
              r == req.(authorization := Some("Bearer " + store.accessToken.value))
    ensures store.accessToken.None? || store.accessToken.value == "" ==> r == req
  {
    var token := Read(store.accessToken);
    if Truthy(token) then req.(authorization := Some(Bearer(token.s))) else req
  }

  /** Where one call through the client stands. */
  datatype Phase =
    | Sending(request: Request)                                        // interceptor, then the backend
    | Received(request: Request, reply: Reply<Object>)                 // the response interceptor decides
    | Refreshing(request: Request, original: ApiError, token: string)  // awaiting the refresh endpoint
    | Settled(result: Reply<Object>)                                   // what the caller's promise settles to

  /** The client around one call: the phase, localStorage, the default
      `Authorization` header of the axios instance, the page location, and
      the requests and refresh tokens sent so far. */
  datatype Client = Client(
    phase: Phase,
    store: Storage,
    commonAuthorization: Option<string>,
    location: string,
    sent: seq<Request>,
    refreshes: seq<string>)

  /** A refresh is only ever awaited for a request already marked retried. */
  predicate WellFormed(p: Phase) {
    p.Refreshing? ==> p.request.retried
  }

  /** Steps left at most; the `_retry` marker is what makes it finite. */
  function Rank(p: Phase): nat {
    match p
    case Sending(req) => if req.retried then 2 else 5
    case Received(req, _) => if req.retried then 1 else 4
    case Refreshing(_, _, _) => 3
    case Settled(_) => 0
  }

  /** Sends to the resource endpoint still possible from a phase. */
  function SendsLeft(p: Phase): nat {
    match p
    case Sending(req) => if req.retried then 1 else 2
    case Received(req, _) => if req.retried then 0 else 1
    case Refreshing(_, _, _) => 1
    case Settled(_) => 0
  }

  /** Refresh calls still possible from a phase. */
  function RefreshesLeft(p: Phase): nat {
    match p
    case Sending(req) => if req.retried then 0 else 1
    case Received(req, _) => if req.retried then 0 else 1
    case Refreshing(_, _, _) => 1
    case Settled(_) => 0
  }

  /** One transition of the interceptor pair. */
  function Step(c: Client, b: Backend): (d: Client)
    requires WellFormed(c.phase)
    ensures WellFormed(d.phase)
    ensures c.phase.Settled? ==> d == c
    ensures !c.phase.Settled? ==> Rank(d.phase) < Rank(c.phase)
    ensures c.phase.Sending? ==> d.sent == c.sent + [AttachBearer(c.store, c.phase.request)]
    ensures !c.phase.Sending? ==> d.sent == c.sent
    ensures d.refreshes == c.refreshes + (if c.phase.Refreshing? then [c.phase.token] else [])
    ensures SendsLeft(d.phase) + |d.sent| <= SendsLeft(c.phase) + |c.sent|
    ensures RefreshesLeft(d.phase) + |d.refreshes| <= RefreshesLeft(c.phase) + |c.refreshes|
  {
    match c.phase
    case Sending(req) =>
      var out := AttachBearer(c.store, req);
      c.(phase := Received(out, b.resource(out)), sent := c.sent + [out])
    case Received(req, reply) =>
      if reply.Threw? && Unauthorized(reply.error) && !req.retried then
        var marked := req.(retried := true);
        var token := Read(c.store.refreshToken);
        if Truthy(token) then c.(phase := Refreshing(marked, reply.error, token.s))
        else c.(phase := Settled(reply))
      else c.(phase := Settled(reply))
    case Refreshing(req, original, token) =>
      var asked := c.(refreshes := c.refreshes + [token]);
      var answer := b.refresh(token);
      if answer.Threw? then
        asked.(phase := Settled(Threw(answer.error)), store := Cleared, location := "/login")
      else (
        var issued := FlatFirst(answer.body.data);
        if Truthy(issued.access) then
          var header := Bearer(ToJsString(issued.access));
          asked.(phase := Sending(req.(authorization := Some(header))),
                 store := Storage(Write(issued.access), Write(issued.refresh)),
                 commonAuthorization := Some(header))
        else asked.(phase := Settled(Threw(original))))
    case Settled(_) => c
  }

  /** Runs the machine until the call settles. */
  function Run(c: Client, b: Backend): (r: Client)
    requires WellFormed(c.phase)
    ensures r.phase.Settled?
    ensures |c.sent| <= |r.sent| <= |c.sent| + SendsLeft(c.phase)
    ensures r.sent[..|c.sent|] == c.sent
    ensures |r.refreshes| <= |c.refreshes| + RefreshesLeft(c.phase)
    decreases Rank(c.phase)
  {
    if c.phase.Settled? then c
    else
      var d := Step(c, b);
      var r := Run(d, b);
      assert r.sent[..|c.sent|] == r.sent[..|d.sent|][..|c.sent|];
      r
  }

  /** The client at the moment a caller issues `req`. */
  function Start(store: Storage, common: Option<string>, location: string, req: Request): Client {
    Client(Sending(req), store, common, location, [], [])
  }

  /** One call through the client, from issue to settlement: the original
      endpoint is reached at most twice and the refresh endpoint at most once,
      whatever the backend answers; the first send carries the stored token. */
  function Dispatch(store: Storage, common: Option<string>, location: string, req: Request, b: Backend): (r: Client)
    ensures r.phase.Settled?
    ensures 1 <= |r.sent| <= 2
    ensures |r.refreshes| <= 1
    ensures r.sent[0] == AttachBearer(store, req)
  {
    var c := Start(store, common, location, req);
    var d := Step(c, b);
    assert d.sent == [AttachBearer(store, req)];
    var r := Run(d, b);
    assert Run(c, b) == r;
    assert r.sent[..1] == d.sent;
    r
  }

  /** Every request the client sends targets the caller's endpoint. */
  predicate OnEndpoint(c: Client, e: string) {
    && (forall i :: 0 <= i < |c.sent| ==> c.sent[i].endpoint == e)
    && (c.phase.Sending? || c.phase.Received? || c.phase.Refreshing? ==> c.phase.request.endpoint == e)
  }

  lemma {:induction false} RunStaysOnEndpoint(c: Client, b: Backend, e: string)
    requires WellFormed(c.phase)
    requires OnEndpoint(c, e)
    ensures OnEndpoint(Run(c, b), e)
    decreases Rank(c.phase)
  {
    if !c.phase.Settled? {
      var d := Step(c, b);
      assert OnEndpoint(d, e);
      RunStaysOnEndpoint(d, b, e);
    }
  }

  /** The first answer the backend gives to `req`. */
  function FirstReply(store: Storage, req: Request, b: Backend): Reply<Object> {
    b.resource(AttachBearer(store, req))
  }

  /** The answer that starts the refresh protocol: a 401 on an unmarked request. */
  predicate TriggersRefresh(reply: Reply<Object>, req: Request) {
    reply.Threw? && Unauthorized(reply.error) && !req.retried
  }

  /** A success, a non-401 failure, or a 401 on a request already marked
      retried reaches the caller unchanged; nothing else happens. */
  lemma PassThrough(store: Storage, common: Option<string>, location: string, req: Request, b: Backend)
    requires !TriggersRefresh(FirstReply(store, req, b), req)
    ensures var r := Dispatch(store, common, location, req, b);
            && r.phase.result == FirstReply(store, req, b)
            && r.store == store && r.commonAuthorization == common && r.location == location
            && |r.sent| == 1 && r.refreshes == []
  {
    var c := Start(store, common, location, req);
    var d := Step(c, b);
    var e := Step(d, b);
    assert e.phase.Settled?;
    assert Run(d, b) == e;
  }

  /** With no stored refresh token a first 401 reaches the caller; storage
      and location stay as they were and no refresh is attempted. */
  lemma NoRefreshToken(store: Storage, common: Option<string>, location: string, req: Request, b: Backend)
    requires TriggersRefresh(FirstReply(store, req, b), req)
    requires store.refreshToken.None? || store.refreshToken.value == ""
    ensures var r := Dispatch(store, common, location, req, b);
            && r.phase.result == FirstReply(store, req, b)
            && r.store == store && r.location == location
            && |r.sent| == 1 && r.refreshes == []
  {
    var c := Start(store, common, location, req);
    var d := Step(c, b);
    var e := Step(d, b);
    assert e.phase.Settled?;
    assert Run(d, b) == e;
  }

  /** A thrown refresh call removes both tokens, sends the page to `/login`
      and rejects with the refresh error, not the 401. */
  lemma RefreshThrows(store: Storage, common: Option<string>, location: string, req: Request, b: Backend, t: string)
    requires TriggersRefresh(FirstReply(store, req, b), req)
    requires store.refreshToken == Some(t) && t != ""
    requires b.refresh(t).Threw?
    ensures var r := Dispatch(store, common, location, req, b);
            && r.phase.result == Threw(b.refresh(t).error)
            && r.store == Cleared && r.location == "/login"
            && |r.sent| == 1 && r.refreshes == [t]
  {
    var c := Start(store, common, location, req);
    var d := Step(c, b);
    var e := Step(d, b);
    assert e.phase == Refreshing(d.phase.request.(retried := true), FirstReply(store, req, b).error, t);
    var f := Step(e, b);
    assert f.phase.Settled?;
    assert Run(e, b) == f;
    assert Run(d, b) == f;
  }

  /** A refresh reply without a truthy access token in either shape rejects
      with the original 401 and leaves storage and location alone. */
  lemma RefreshWithoutAccess(store: Storage, common: Option<string>, location: string, req: Request, b: Backend, t: string)
    requires TriggersRefresh(FirstReply(store, req, b), req)
    requires store.refreshToken == Some(t) && t != ""
    requires b.refresh(t).Returned? && !OffersAccess(b.refresh(t).body.data)
    ensures var r := Dispatch(store, common, location, req, b);
            && r.phase.result == FirstReply(store, req, b)
            && r.store == store && r.location == location
            && |r.sent| == 1 && r.refreshes == [t]
  {
    var c := Start(store, common, location, req);
    var d := Step(c, b);
    var e := Step(d, b);
    assert e.phase.Refreshing?;
    var f := Step(e, b);
    assert f.phase.Settled?;
    assert Run(e, b) == f;
    assert Run(d, b) == f;
  }

  /** A refresh that yields an access token stores the new pair, replays the
      request exactly once with "Bearer " + the new token, and the caller gets
      whatever the replay gets — a failed replay included, which clears
      nothing. */
  lemma RefreshAndReplay(store: Storage, common: Option<string>, location: string, req: Request, b: Backend, t: string)
    requires TriggersRefresh(FirstReply(store, req, b), req)
    requires store.refreshToken == Some(t) && t != ""
    requires b.refresh(t).Returned? && OffersAccess(b.refresh(t).body.data)
    ensures var r := Dispatch(store, common, location, req, b);
            var issued := FlatFirst(b.refresh(t).body.data);
            && |r.sent| == 2 && r.refreshes == [t]
            && r.sent[1].endpoint == req.endpoint && r.sent[1].retried
            && r.sent[1].authorization == Some("Bearer " + ToJsString(issued.access))
            && r.phase.result == b.resource(r.sent[1])
            && r.store == Storage(Write(issued.access), Write(issued.refresh))
            && r.commonAuthorization == Some("Bearer " + ToJsString(issued.access))
            && r.location == location
  {
    var issued := FlatFirst(b.refresh(t).body.data);
    TruthyTextNonEmpty(issued.access);
    var c := Start(store, common, location, req);
    var d := Step(c, b);
    var e := Step(d, b);
    assert e.phase.Refreshing?;
    var f := Step(e, b);
    assert f.phase.Sending? && f.phase.request.retried;
    var g := Step(f, b);
    assert g.sent[1] == f.phase.request;
    var h := Step(g, b);
    assert h.phase.Settled?;
    assert Run(g, b) == h;
    assert Run(f, b) == h;
    assert Run(e, b) == h;
    assert Run(d, b) == h;
  }

  /** Against a backend that answers every request with 401 the call still
      settles, rejected, after at most two sends. */
  lemma AlwaysUnauthorized(store: Storage, common: Option<string>, location: string, req: Request, b: Backend)
    requires forall q :: b.resource(q).Threw? && Unauthorized(b.resource(q).error)
    ensures var r := Dispatch(store, common, location, req, b);
            r.phase.result.Threw? && |r.sent| <= 2
  {
    var r := Dispatch(store, common, location, req, b);
    if !TriggersRefresh(FirstReply(store, req, b), req) {
      PassThrough(store, common, location, req, b);
    } else if store.refreshToken.None? || store.refreshToken.value == "" {
      NoRefreshToken(store, common, location, req, b);
    } else {
      var t := store.refreshToken.value;
      if b.refresh(t).Threw? {
        RefreshThrows(store, common, location, req, b, t);
      } else if !OffersAccess(b.refresh(t).body.data) {
        RefreshWithoutAccess(store, common, location, req, b, t);
      } else {
        RefreshAndReplay(store, common, location, req, b, t);
      }
    }
  }

  /** Every request of one call goes to the caller's endpoint. */
  lemma DispatchStaysOnEndpoint(store: Storage, common: Option<string>, location: string, req: Request, b: Backend)
    ensures forall i :: 0 <= i < |Dispatch(store, common, location, req, b).sent| ==>
              Dispatch(store, common, location, req, b).sent[i].endpoint == req.endpoint
  {
    var c := Start(store, common, location, req);
    RunStaysOnEndpoint(c, b, req.endpoint);
    var d := Step(c, b);
    assert Run(c, b) == Run(d, b);
  }
}
