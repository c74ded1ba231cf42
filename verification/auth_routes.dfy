/** The client-token routes: `POST /token` checks the client credentials against the configured
    ones and answers the cached or a new token; `POST /logout` drops a client's token. */
module AuthRoutes {
  import opened Wrappers
  import opened JsValue
  import opened TokenCache

  /** The configured `CLIENT_ID` and `CLIENT_SECRET`; `None` is an unset variable. */
  datatype Env = Env(clientId: Option<string>, clientSecret: Option<string>)

  datatype AuthResponse =
    | Failure(status: nat, message: string)
    | TokenIssued(token: string, expiresIn: string, cached: bool, message: string)
    | LoggedOut(message: string)

  function StatusOf(r: AuthResponse): nat {
    match r
    case Failure(status, _) => status
    case TokenIssued(_, _, _, _) => 200
    case LoggedOut(_) => 200
  }

  const InvalidCredentials := "Invalid client credentials"
  const ExistingToken := "Returning existing valid token"
  const NewToken := "New token generated"
  const ClientIdRequired := "clientId is required"
  const Invalidated := "Token invalidated successfully"
  const NoActiveToken := "No active token found for this client"

  /** `process.env.X` as a value. */
  function EnvValue(v: Option<string>): (r: Value)
    ensures v.Some? <==> r.Str?
    ensures v.Some? ==> r == Str(v.value)
    ensures v.None? ==> r.Undefined?
  {
    match v
    case Some(s) => Str(s)
    case None => Undefined
  }

  /** The cache key a request value names: strings and `undefined` name themselves; any other
      value is a key under which no token is ever stored. */
  function KeyOf(v: Value): Option<ClientKey> {
    match v
    case Str(s) => Some(Some(s))
    case Undefined => Some(None)
    case _ => None
  }

  /** Both credentials strictly equal the configured ones. */
  predicate CredentialsMatch(env: Env, body: map<string, Value>): (r: bool)
    ensures env.clientId.Some? && env.clientSecret.Some? ==>
      (r <==> Field(body, "clientId") == Str(env.clientId.value) && Field(body, "clientSecret") == Str(env.clientSecret.value))
    ensures r && env.clientId.None? ==> Field(body, "clientId").Undefined?
    ensures r && env.clientSecret.None? ==> Field(body, "clientSecret").Undefined?
  {
    && StrictEquals(Field(body, "clientId"), EnvValue(env.clientId))
    && StrictEquals(Field(body, "clientSecret"), EnvValue(env.clientSecret))
  }

  /** The answer for token data: the message tells a cached token from a new one. */
  function Issued(data: TokenData): (r: AuthResponse)
    ensures r.TokenIssued? && r.token == data.token && r.expiresIn == data.expiresIn && r.cached == data.cached
    ensures r.message == ExistingToken <==> data.cached
    ensures r.message == NewToken <==> !data.cached
  {
    TokenIssued(data.token, data.expiresIn, data.cached, if data.cached then ExistingToken else NewToken)
  }

  /** `POST /token`, with the clock readings and the signed token `getToken` would use. */
  function PostToken(env: Env, cache: Cache, body: map<string, Value>, checkedAt: int, issuedAt: int,
                     signed: string): (r: (Cache, AuthResponse))
    ensures !CredentialsMatch(env, body) ==> r == (cache, Failure(401, InvalidCredentials))
    ensures CredentialsMatch(env, body) ==>
      var got := GetToken(cache, env.clientId, checkedAt, issuedAt, signed);
      r == (got.0, Issued(got.1))
    ensures r.1.TokenIssued? <==> CredentialsMatch(env, body)
    ensures r.1.TokenIssued? ==> r.1.expiresIn == ExpiresIn
    ensures r.1.TokenIssued? ==> (r.1.cached <==> Live(cache, env.clientId, checkedAt))
  {
    if CredentialsMatch(env, body) then
      var got := GetToken(cache, env.clientId, checkedAt, issuedAt, signed);
      (got.0, Issued(got.1))
    else
      (cache, Failure(401, InvalidCredentials))
  }

  /** `POST /logout`: 400 without a client id, 200 when a token was dropped, 404 otherwise. */
  function PostLogout(cache: Cache, body: map<string, Value>): (r: (Cache, AuthResponse))
    ensures !Truthy(Field(body, "clientId")) ==> r == (cache, Failure(400, ClientIdRequired))
    ensures Truthy(Field(body, "clientId")) ==>
      var key := KeyOf(Field(body, "clientId"));
      && (key.Some? && key.value in cache ==> r == (Invalidate(cache, key.value).0, LoggedOut(Invalidated)))
      && (key.None? || key.value !in cache ==> r == (cache, Failure(404, NoActiveToken)))
  {
    var clientId := Field(body, "clientId");
    if !Truthy(clientId) then (cache, Failure(400, ClientIdRequired))
    else
      match KeyOf(clientId)
      case None => (cache, Failure(404, NoActiveToken))
      case Some(key) =>
        var (cache', deleted) := Invalidate(cache, key);
        if deleted then (cache', LoggedOut(Invalidated))
        else
          assert cache' == cache;
          (cache', Failure(404, NoActiveToken))
  }

  /** `POST /token` as evidently intended: an unset configured credential matches nothing. */
  function PostTokenConfigured(env: Env, cache: Cache, body: map<string, Value>, checkedAt: int, issuedAt: int,
                               signed: string): (r: (Cache, AuthResponse))
    ensures env.clientId.Some? && env.clientSecret.Some? ==> r == PostToken(env, cache, body, checkedAt, issuedAt, signed)
    ensures r.1.TokenIssued? ==>
      && env.clientId.Some? && env.clientSecret.Some?
      && Field(body, "clientId") == Str(env.clientId.value)
      && Field(body, "clientSecret") == Str(env.clientSecret.value)
  {
    if env.clientId.None? || env.clientSecret.None? then (cache, Failure(401, InvalidCredentials))
    else PostToken(env, cache, body, checkedAt, issuedAt, signed)
  }

  // ---------------------------------------------------------------- properties

  /** With the credentials unset, a request that carries none is issued a token. */
  lemma UnsetCredentialsIssue(cache: Cache, checkedAt: int, issuedAt: int, signed: string)
    ensures PostToken(Env(None, None), cache, map[], checkedAt, issuedAt, signed).1.TokenIssued?
  {
    assert CredentialsMatch(Env(None, None), map[]);
  }

  /** After a successful logout the next `/token` for that client issues a new token. */
  lemma LogoutThenNewToken(env: Env, cache: Cache, logout: map<string, Value>, body: map<string, Value>,
                           checkedAt: int, issuedAt: int, signed: string)
    requires env.clientId.Some? && Field(logout, "clientId") == Str(env.clientId.value)
    requires PostLogout(cache, logout).1 == LoggedOut(Invalidated)
    requires CredentialsMatch(env, body)
    ensures var next := PostToken(env, PostLogout(cache, logout).0, body, checkedAt, issuedAt, signed).1;
      next.TokenIssued? && !next.cached && next.message == NewToken && next.token == signed
  {
    assert KeyOf(Field(logout, "clientId")) == Some(env.clientId);
  }

  /** A logout answers 200 exactly when the named client had a token. */
  lemma LogoutStatus(cache: Cache, c: string)
    ensures var r := PostLogout(cache, map["clientId" := Str(c)]);
      && (c == "" ==> StatusOf(r.1) == 400)
      && (c != "" ==> (StatusOf(r.1) == 200 <==> Some(c) in cache))
      && (c != "" ==> (StatusOf(r.1) == 404 <==> Some(c) !in cache))
  {
    assert Field(map["clientId" := Str(c)], "clientId") == Str(c);
  }
}
