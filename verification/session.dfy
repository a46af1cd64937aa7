/** The session as the browser keeps it: the two localStorage entries, the
    shapes in which the backend hands out tokens, and the two normalisers the
    client applies to them. */
module Session {
  import opened JsValues

  /** An account as the backend describes it. */
  datatype User = User(id: string, email: string, name: string, role: string)

  /** The `access_token` and `refresh_token` entries of localStorage; a
      missing entry is `None` (`getItem` answers `null`). */
  datatype Storage = Storage(accessToken: Option<string>, refreshToken: Option<string>)

  /** Storage after both entries were removed. */
  const Cleared := Storage(None, None)

  /** `localStorage.getItem(key)` as a JavaScript value. */
  function Read(entry: Option<string>): Value {
    if entry.Some? then Str(entry.value) else Null
  }

  /** `localStorage.setItem(key, v)` stores `String(v)`. */
  function Write(v: Value): Option<string> {
    Some(ToJsString(v))
  }

  /** The nested `tokens: { access, refresh }` object. */
  datatype NestedTokens = NestedTokens(access: Value, refresh: Value)

  /** The `data` member of a login, register or refresh reply. The backend
      may use the flat `accessToken`/`refreshToken` keys, the nested `tokens`
      object, or the bare `access`/`refresh` keys. */
  datatype AuthData = AuthData(
    user: Option<User>,
    accessToken: Value,
    refreshToken: Value,
    tokens: Option<NestedTokens>,
    access: Value,
    refresh: Value)

  /** A login, register or refresh reply body. */
  datatype AuthBody = AuthBody(success: bool, data: Option<AuthData>, message: Value)

  /** A normalised (access, refresh) choice; either may still be missing. */
  datatype TokenChoice = TokenChoice(access: Value, refresh: Value)

  /** `data?.accessToken` and `data?.refreshToken`. */
  function FlatPair(data: Option<AuthData>): TokenChoice {
    if data.Some? then TokenChoice(data.value.accessToken, data.value.refreshToken)
    else TokenChoice(Undefined, Undefined)
  }

  /** `data.tokens.access` and `data.tokens.refresh`. */
  function NestedPair(t: NestedTokens): TokenChoice {
    TokenChoice(t.access, t.refresh)
  }

  /** The access token some shape of `data` offers as truthy. */
  predicate OffersAccess(data: Option<AuthData>) {
    data.Some? &&
    (Truthy(data.value.accessToken) ||
     (data.value.tokens.Some? && Truthy(data.value.tokens.value.access)))
  }

  /** The normaliser of the API layer and the interceptor: the flat pair,
      unless the flat access token is falsy and a `tokens` object exists, in
      which case both tokens come from that object. */
  function FlatFirst(data: Option<AuthData>): (c: TokenChoice)
    ensures c == FlatPair(data) ||
            (data.Some? && data.value.tokens.Some? && c == NestedPair(data.value.tokens.value))
    ensures Truthy(c.access) <==> OffersAccess(data)
    ensures data.Some? && Truthy(data.value.accessToken) ==> c == FlatPair(data)
  {
    var flat := FlatPair(data);
    if !Truthy(flat.access) && data.Some? && data.value.tokens.Some? then
      NestedPair(data.value.tokens.value)
    else flat
  }

  /** `data?.tokens?.access` and `data?.tokens?.refresh`. */
  function NestedOrMissing(data: AuthData): TokenChoice {
    if data.tokens.Some? then NestedPair(data.tokens.value) else TokenChoice(Undefined, Undefined)
  }

  /** The normaliser of the redux thunks: each token is the first non-nullish
      of the flat key, the nested key and the bare key, chosen independently. */
  function Chain(data: Option<AuthData>): (c: TokenChoice)
    ensures data.None? ==> c == TokenChoice(Undefined, Undefined)
    ensures data.Some? ==>
      var d := data.value;
      var n := NestedOrMissing(d);
      && (!Nullish(d.accessToken) ==> c.access == d.accessToken)
      && (Nullish(d.accessToken) && !Nullish(n.access) ==> c.access == n.access)
      && (Nullish(d.accessToken) && Nullish(n.access) ==> c.access == d.access)
      && (!Nullish(d.refreshToken) ==> c.refresh == d.refreshToken)
      && (Nullish(d.refreshToken) && !Nullish(n.refresh) ==> c.refresh == n.refresh)
      && (Nullish(d.refreshToken) && Nullish(n.refresh) ==> c.refresh == d.refresh)
  {
    if data.None? then TokenChoice(Undefined, Undefined)
    else
      var d := data.value;
      var n := NestedOrMissing(d);
      TokenChoice(FirstPresent(d.accessToken, n.access, d.access),
                  FirstPresent(d.refreshToken, n.refresh, d.refresh))
  }

  /** The API layer's write: both entries, and only when access is truthy. */
  function StoreBoth(store: Storage, c: TokenChoice): Storage {
    if Truthy(c.access) then Storage(Write(c.access), Write(c.refresh)) else store
  }

  /** The thunks' write: `access_token` when access is truthy, and
      `refresh_token` only when refresh is truthy as well. */
  function StoreTruthy(store: Storage, c: TokenChoice): (s: Storage)
    ensures s.accessToken != store.accessToken ==> Truthy(c.access)
    ensures s.refreshToken != store.refreshToken ==> Truthy(c.access) && Truthy(c.refresh)
    ensures Truthy(c.access) ==> s.accessToken == Write(c.access)
    ensures Truthy(c.access) && Truthy(c.refresh) ==> s.refreshToken == Write(c.refresh)
  {
    if !Truthy(c.access) then store
    else if Truthy(c.refresh) then Storage(Write(c.access), Write(c.refresh))
    else store.(accessToken := Write(c.access))
  }

  /** The chain may take the two tokens from different shapes: a flat access
      token alongside a nested refresh token yields exactly that mix, where
      the API layer's normaliser keeps the flat pair. */
  lemma ChainMixesShapes(a: string, r: string)
    requires a != ""
    ensures var d := Some(AuthData(None, Str(a), Undefined, Some(NestedTokens(Undefined, Str(r))), Undefined, Undefined));
            && Chain(d) == TokenChoice(Str(a), Str(r))
            && FlatFirst(d) == TokenChoice(Str(a), Undefined)
  {
  }

  /** The two normalisers disagree on an empty flat access token next to a
      nested one: the API layer falls back to the nested pair, the chain keeps
      the empty string because it is not nullish. */
  lemma NormalisersDisagreeOnEmptyAccess(a: string, r: string)
    requires a != ""
    ensures var d := Some(AuthData(None, Str(""), Undefined, Some(NestedTokens(Str(a), Str(r))), Undefined, Undefined));
            && FlatFirst(d) == TokenChoice(Str(a), Str(r))
            && Chain(d).access == Str("")
  {
  }

  /** On a purely flat reply, or a purely nested one, whose tokens are
      strings, the two normalisers agree. */
  lemma NormalisersAgreeOnSingleShape(d: AuthData)
    requires d.access.Undefined? && d.refresh.Undefined?
    requires (d.tokens.None? && d.accessToken.Str? && d.accessToken.s != "" && d.refreshToken.Str?) ||
             (d.accessToken.Undefined? && d.refreshToken.Undefined? && d.tokens.Some? &&
              d.tokens.value.access.Str? && d.tokens.value.refresh.Str?)
    ensures FlatFirst(Some(d)) == Chain(Some(d))
  {
  }
}
