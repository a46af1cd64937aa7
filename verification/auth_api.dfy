/** The token handling of the authentication API wrappers: `login`,
    `register` and `refreshToken` normalise and store the tokens of the reply
    they receive, `logout` clears storage however the backend answers. */
module AuthApi {
  import opened JsValues
  import opened Http
  import opened Session

  /** What a wrapper hands its caller, and localStorage afterwards. */
  datatype Call<+B> = Call(result: Reply<B>, store: Storage)

  /** `authAPI.login`, `authAPI.register` and `authAPI.refreshToken`, which
      share one body: given the backend's reply, store the flat-first
      normalised pair when its access token is truthy, and return the reply
      body untouched (or let the error propagate). */
  function SessionCall(reply: Reply<AuthBody>, store: Storage): (c: Call<AuthBody>)
    ensures c.result == reply
    ensures reply.Threw? ==> c.store == store
    ensures reply.Returned? && reply.body.data.Some? && Truthy(reply.body.data.value.accessToken) ==>
              c.store == Storage(Write(reply.body.data.value.accessToken),
                                 Write(reply.body.data.value.refreshToken))
    ensures reply.Returned? && reply.body.data.Some? && !Truthy(reply.body.data.value.accessToken) &&
            reply.body.data.value.tokens.Some? && Truthy(reply.body.data.value.tokens.value.access) ==>
              c.store == Storage(Write(reply.body.data.value.tokens.value.access),
                                 Write(reply.body.data.value.tokens.value.refresh))
    ensures c.store != store ==> reply.Returned? && OffersAccess(reply.body.data)
  {
    match reply
    case Threw(_) => Call(reply, store)
    case Returned(body) => Call(reply, StoreBoth(store, FlatFirst(body.data)))
  }

  /** `authAPI.logout`: `try { await post } finally { remove both }` — the
      entries are always removed and a backend failure still propagates. */
  function Logout(backend: Reply<()>, store: Storage): (c: Call<()>)
    ensures c.store == Cleared
    ensures c.result == backend
  {
    Call(backend, Cleared)
  }

  /** A flat access token without a flat refresh token still writes both
      entries: `refresh_token` then holds the text "undefined", even when a
      nested `tokens` object carries a refresh token. */
  lemma MissingFlatRefreshStoresUndefined(a: string, nested: Option<NestedTokens>, store: Storage)
    requires a != ""
    ensures var body := AuthBody(true, Some(AuthData(None, Str(a), Undefined, nested, Undefined, Undefined)), Undefined);
            SessionCall(Returned(body), store).store == Storage(Some(a), Some("undefined"))
  {
  }
}
