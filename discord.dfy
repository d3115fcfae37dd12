/**
 * The Discord client: the authorization URL, the code exchange, the
 * identity call, the token refresh, and the push of the linked-role
 * metadata for a user whose tokens are in the store.
 */
module Discord {
  import opened Wrappers
  import opened Json
  import opened Web
  import opened Storage

  /** The session key under which the Discord `state` is kept. */
  const StateKey: string := "uuid_state"

  const TokenEndpoint: string := "https://discord.com/api/v10/oauth2/token"
  const IdentityEndpoint: string := "https://discord.com/api/v10/oauth2/@me"
  const PlatformName: string := "D-sektionen inom TLTH"

  datatype Failure =
    | Transport           // sending a request failed
    | MalformedResponse   // a response body does not have the expected shape
    | NotFound            // the user has no stored tokens

  // ---------------------------------------------------------------------
  // The authorization URL
  // ---------------------------------------------------------------------

  /** The authorization request of section 4.1.1 of RFC 6749 as the service builds it for Discord. */
  function AuthUrl(cfg: Config, state: string): Url
  {
    Url("https", "discord.com", ["/api/oauth2/authorize"],
        [("client_id", cfg.discordClientId),
         ("redirect_uri", cfg.discordRedirectUri),
         ("response_type", "code"),
         ("state", state),
         ("scope", "role_connections.write identify"),
         ("prompt", "consent")])
  }

  /** The URL asks for an authorization code with the role-connection and identity scopes, and its `state` is the given one. */
  lemma AuthUrlShape(cfg: Config, state: string)
    ensures ParamNames(AuthUrl(cfg, state).params) ==
            ["client_id", "redirect_uri", "response_type", "state", "scope", "prompt"]
    ensures QueryValue(AuthUrl(cfg, state).params, "state") == Some(state)
    ensures QueryValue(AuthUrl(cfg, state).params, "response_type") == Some("code")
    ensures QueryValue(AuthUrl(cfg, state).params, "scope") == Some("role_connections.write identify")
    ensures QueryValue(AuthUrl(cfg, state).params, "client_id") == Some(cfg.discordClientId)
    ensures QueryValue(AuthUrl(cfg, state).params, "redirect_uri") == Some(cfg.discordRedirectUri)
    ensures QueryValue(AuthUrl(cfg, state).params, "prompt") == Some("consent")
  {
    var ps := AuthUrl(cfg, state).params;
    QueryValueAt(ps, 0, "client_id");
    QueryValueAt(ps, 1, "redirect_uri");
    QueryValueAt(ps, 5, "prompt");
    QueryValueAt(ps, 2, "response_type");
    QueryValueAt(ps, 3, "state");
    QueryValueAt(ps, 4, "scope");
  }

  /**
   * `generate_oauth_url`: stores the nonce in the session under the
   * Discord key, then builds the URL with that nonce as `state`.
   */
  method GenerateOauthUrl(session: Session, cfg: Config, nonce: string) returns (url: Url)
    modifies session
    ensures session.entries == old(session.entries)[StateKey := nonce]
    ensures url == AuthUrl(cfg, nonce)
    ensures session.Get(StateKey) == Some(nonce) == QueryValue(url.params, "state")
  {
    session.Insert(StateKey, nonce);
    var builder := new UrlBuilder();
    builder.SetProtocol("https");
    builder.SetHost("discord.com");
    builder.AddRoute("/api/oauth2/authorize");
    builder.AddParam("client_id", cfg.discordClientId);
    builder.AddParam("redirect_uri", cfg.discordRedirectUri);
    builder.AddParam("response_type", "code");
    builder.AddParam("state", nonce);
    builder.AddParam("scope", "role_connections.write identify");
    builder.AddParam("prompt", "consent");
    url := builder.Build();
    assert url == AuthUrl(cfg, nonce);
    AuthUrlShape(cfg, nonce);
  }

  // ---------------------------------------------------------------------
  // Token responses and credentials
  // ---------------------------------------------------------------------

  /** A token response (section 5.1 of RFC 6749): the lifetime is relative, in seconds. */
  datatype OAuthResponse = OAuthResponse(accessToken: string, expiresIn: int, refreshToken: string)

  /** The derived `Deserialize` of the token response; other members are ignored. */
  function DecodeOAuthResponse(j: Json): Option<OAuthResponse>
  {
    match (StringField(j, "access_token"), I64Field(j, "expires_in"), StringField(j, "refresh_token"))
    case (Some(a), Some(e), Some(r)) => Some(OAuthResponse(a, e, r))
    case _ => None
  }

  /** The derived `Deserialize` of `OAuthCredentials`: it reads an absolute `expires_at`. */
  function DecodeCredential(j: Json): Option<Credential>
  {
    match (StringField(j, "access_token"), I64Field(j, "expires_at"), StringField(j, "refresh_token"))
    case (Some(a), Some(e), Some(r)) => Some(Credential(a, e, r))
    case _ => None
  }

  /** `From<OAuthResponse> for OAuthCredentials`, with the clock reading `now` as a parameter. */
  function FromOAuthResponse(response: OAuthResponse, now: int): Credential
  {
    Credential(response.accessToken, now + response.expiresIn, response.refreshToken)
  }

  /** The test `update_metadata` uses to decide on a refresh. */
  predicate Expired(c: Credential, now: int)
  {
    c.expiresAt <= now
  }

  /** An expired credential stays expired at every later `now`. */
  lemma ExpiredStaysExpired(c: Credential, now: int, later: int)
    requires Expired(c, now) && now <= later
    ensures Expired(c, later)
  {
  }

  /**
   * Converting keeps both tokens, and the credential counts as expired from
   * exactly `expires_in` seconds after the conversion on.
   */
  lemma ConversionKeepsLifetime(response: OAuthResponse, now: int, later: int)
    ensures FromOAuthResponse(response, now).accessToken == response.accessToken
    ensures FromOAuthResponse(response, now).refreshToken == response.refreshToken
    ensures Expired(FromOAuthResponse(response, now), later) <==> later - now >= response.expiresIn
  {
  }

  /** Response decoding reads back what a token response holds, and an `expires_at` member plays no part. */
  lemma DecodeOAuthResponseMeaning(m: map<string, Json>, response: OAuthResponse)
    requires I64Min <= response.expiresIn <= I64Max
    ensures DecodeOAuthResponse(Object(m)) == Some(response) <==>
            && "access_token" in m && m["access_token"] == Str(response.accessToken)
            && "expires_in" in m && m["expires_in"] == Number(response.expiresIn)
            && "refresh_token" in m && m["refresh_token"] == Str(response.refreshToken)
  {
  }

  // ---------------------------------------------------------------------
  // The code exchange and the identity call
  // ---------------------------------------------------------------------

  /** The form of the token request (section 4.1.3 of RFC 6749) with the client's credentials. */
  function CodeForm(code: string, cfg: Config): map<string, string>
  {
    map[
      "client_id" := cfg.discordClientId,
      "client_secret" := cfg.discordClientSecret,
      "redirect_uri" := cfg.discordRedirectUri,
      "grant_type" := "authorization_code",
      "code" := code]
  }

  /** The form as `fetch_oauth_tokens` fills it, one insertion at a time into an empty map; `CodeRequest` sends the same map. */
  method FillCodeForm(code: string, cfg: Config) returns (data: map<string, string>)
    ensures data == CodeForm(code, cfg)
    ensures data.Keys == {"client_id", "client_secret", "redirect_uri", "grant_type", "code"}
  {
    data := map[];
    data := data["client_id" := cfg.discordClientId];
    data := data["client_secret" := cfg.discordClientSecret];
    data := data["redirect_uri" := cfg.discordRedirectUri];
    data := data["grant_type" := "authorization_code"];
    data := data["code" := code];
  }

  function CodeRequest(code: string, cfg: Config): Request
  {
    Request(Post, TokenEndpoint, None, Form(CodeForm(code, cfg)))
  }

  /** `fetch_oauth_tokens`: exchange the code, convert the response with the clock reading `now`. */
  function FetchOauthTokens(code: string, cfg: Config, now: int, send: Transport): Result<Credential, Failure>
  {
    match send(CodeRequest(code, cfg))
    case Err(_) => Err(Transport)
    case Ok(response) =>
      match response.body
      case None => Err(MalformedResponse)
      case Some(body) =>
        match DecodeOAuthResponse(body)
        case None => Err(MalformedResponse)
        case Some(r) => Ok(FromOAuthResponse(r, now))
  }

  /**
   * The exchange sends the code unchanged with grant type
   * `authorization_code`, and a credential it returns expires `expires_in`
   * seconds after `now`.
   */
  lemma FetchOauthTokensMeaning(code: string, cfg: Config, now: int, send: Transport)
    ensures CodeForm(code, cfg)["grant_type"] == "authorization_code" && CodeForm(code, cfg)["code"] == code
    ensures FetchOauthTokens(code, cfg, now, send).Ok? <==>
            && send(CodeRequest(code, cfg)).Ok?
            && send(CodeRequest(code, cfg)).value.body.Some?
            && DecodeOAuthResponse(send(CodeRequest(code, cfg)).value.body.value).Some?
    ensures FetchOauthTokens(code, cfg, now, send).Ok? ==>
            var r := DecodeOAuthResponse(send(CodeRequest(code, cfg)).value.body.value).value;
            FetchOauthTokens(code, cfg, now, send).value == Credential(r.accessToken, now + r.expiresIn, r.refreshToken)
  {
  }

  datatype UserDataResponse = UserDataResponse(id: string, username: string)
  datatype AuthDataResponse = AuthDataResponse(user: UserDataResponse)

  /** The derived `Deserialize` of the identity response: a `user` member whose `id` and `username` are strings. */
  function DecodeAuthData(j: Json): (r: Option<AuthDataResponse>)
    ensures r.Some? <==> && Field(j, "user").Some?
                         && StringField(Field(j, "user").value, "id").Some?
                         && StringField(Field(j, "user").value, "username").Some?
    ensures r.Some? ==> && r.value.user.id == StringField(Field(j, "user").value, "id").value
                        && r.value.user.username == StringField(Field(j, "user").value, "username").value
  {
    match Field(j, "user")
    case Some(u) =>
      (match (StringField(u, "id"), StringField(u, "username"))
       case (Some(id), Some(name)) => Some(AuthDataResponse(UserDataResponse(id, name)))
       case _ => None)
    case None => None
  }

  function IdentityRequest(accessToken: string): Request
  {
    Request(Get, IdentityEndpoint, Some(accessToken), NoBody)
  }

  /** `fetch_user_auth_data`: who the access token belongs to. */
  function FetchUserAuthData(accessToken: string, send: Transport): Result<AuthDataResponse, Failure>
  {
    match send(IdentityRequest(accessToken))
    case Err(_) => Err(Transport)
    case Ok(response) =>
      match response.body
      case None => Err(MalformedResponse)
      case Some(body) =>
        match DecodeAuthData(body)
        case None => Err(MalformedResponse)
        case Some(data) => Ok(data)
  }

  /**
   * The identity call is authorized by the given token, and the user is read
   * from the `id` and `username` of the response's `user`, whatever other
   * members either object has and whatever the status.
   */
  lemma FetchUserAuthDataMeaning(accessToken: string, send: Transport, status: int, body: Json, user: Json, id: string, name: string)
    requires send(IdentityRequest(accessToken)) == Ok(Response(status, Some(body)))
    requires Field(body, "user") == Some(user)
    requires StringField(user, "id") == Some(id) && StringField(user, "username") == Some(name)
    ensures IdentityRequest(accessToken).bearer == Some(accessToken)
    ensures FetchUserAuthData(accessToken, send) == Ok(AuthDataResponse(UserDataResponse(id, name)))
  {
  }

  // ---------------------------------------------------------------------
  // Refreshing
  // ---------------------------------------------------------------------

  /** The refresh request of section 6 of RFC 6749, with the refresh token of the old credential. */
  function RefreshForm(oauth: Credential, cfg: Config): map<string, string>
  {
    map[
      "client_id" := cfg.discordClientId,
      "client_secret" := cfg.discordClientSecret,
      "grant_type" := "refresh_token",
      "refresh_token" := oauth.refreshToken]
  }

  /** The form as `refresh_token` fills it, one insertion at a time into an empty map; `RefreshRequest` sends the same map. */
  method FillRefreshForm(oauth: Credential, cfg: Config) returns (data: map<string, string>)
    ensures data == RefreshForm(oauth, cfg)
    ensures data.Keys == {"client_id", "client_secret", "grant_type", "refresh_token"}
  {
    data := map[];
    data := data["client_id" := cfg.discordClientId];
    data := data["client_secret" := cfg.discordClientSecret];
    data := data["grant_type" := "refresh_token"];
    data := data["refresh_token" := oauth.refreshToken];
  }

  function RefreshRequest(oauth: Credential, cfg: Config): Request
  {
    Request(Post, TokenEndpoint, None, Form(RefreshForm(oauth, cfg)))
  }

  /**
   * `refresh_token` as written: the response is decoded straight into
   * `OAuthCredentials`, which needs a member `expires_at`.
   */
  function RefreshTokenAsWritten(oauth: Credential, cfg: Config, send: Transport): Result<Credential, Failure>
  {
    match send(RefreshRequest(oauth, cfg))
    case Err(_) => Err(Transport)
    case Ok(response) =>
      match response.body
      case None => Err(MalformedResponse)
      case Some(body) =>
        match DecodeCredential(body)
        case None => Err(MalformedResponse)
        case Some(c) => Ok(c)
  }

  /** A refresh response as section 5.1 of RFC 6749 defines it: a relative `expires_in`, no `expires_at`. */
  function StandardTokenResponse(accessToken: string, expiresIn: int, refreshToken: string): Json
  {
    Object(map[
      "access_token" := Str(accessToken),
      "token_type" := Str("Bearer"),
      "expires_in" := Number(expiresIn),
      "refresh_token" := Str(refreshToken),
      "scope" := Str("role_connections.write identify")])
  }

  /** As written, a refresh response without a member `expires_at` is refused, whatever else it holds. */
  lemma RefreshAsWrittenNeedsExpiresAt(oauth: Credential, cfg: Config, send: Transport, status: int, body: Json)
    requires send(RefreshRequest(oauth, cfg)) == Ok(Response(status, Some(body)))
    requires Field(body, "expires_at") == None
    ensures RefreshTokenAsWritten(oauth, cfg, send) == Err(MalformedResponse)
  {
  }

  /**
   * As written, the response is taken as the credential itself: its
   * `expires_at` is stored as sent, with no `now + expires_in` step.
   */
  lemma RefreshAsWrittenTakesResponseAsCredential(oauth: Credential, cfg: Config, send: Transport, status: int,
                                                  body: Json, c: Credential)
    requires send(RefreshRequest(oauth, cfg)) == Ok(Response(status, Some(body)))
    requires StringField(body, "access_token") == Some(c.accessToken)
    requires I64Field(body, "expires_at") == Some(c.expiresAt)
    requires StringField(body, "refresh_token") == Some(c.refreshToken)
    ensures RefreshTokenAsWritten(oauth, cfg, send) == Ok(c)
  {
  }

  /**
   * So, as written, a refresh never succeeds against a provider that
   * answers as section 5.1 of RFC 6749 says.
   */
  lemma RefreshAsWrittenRejectsStandardResponse(oauth: Credential, cfg: Config, send: Transport, status: int,
                                                accessToken: string, expiresIn: int, refreshToken: string)
    requires send(RefreshRequest(oauth, cfg)) == Ok(Response(status, Some(StandardTokenResponse(accessToken, expiresIn, refreshToken))))
    ensures RefreshTokenAsWritten(oauth, cfg, send) == Err(MalformedResponse)
  {
    var body := StandardTokenResponse(accessToken, expiresIn, refreshToken);
    assert "expires_at" !in body.fields;
    RefreshAsWrittenNeedsExpiresAt(oauth, cfg, send, status, body);
  }

  /** `refresh_token` as evidently intended: decode the token response and convert it as the code exchange does. */
  function RefreshToken(oauth: Credential, cfg: Config, now: int, send: Transport): Result<Credential, Failure>
  {
    match send(RefreshRequest(oauth, cfg))
    case Err(_) => Err(Transport)
    case Ok(response) =>
      match response.body
      case None => Err(MalformedResponse)
      case Some(body) =>
        match DecodeOAuthResponse(body)
        case None => Err(MalformedResponse)
        case Some(r) => Ok(FromOAuthResponse(r, now))
  }

  /**
   * The corrected refresh sends the old refresh token with grant type
   * `refresh_token`, accepts the standard response, and keeps
   * `expires_at = now + expires_in`.
   */
  lemma RefreshTokenAcceptsStandardResponse(oauth: Credential, cfg: Config, now: int, send: Transport, status: int,
                                             accessToken: string, expiresIn: int, refreshToken: string)
    requires I64Min <= expiresIn <= I64Max
    requires send(RefreshRequest(oauth, cfg)) == Ok(Response(status, Some(StandardTokenResponse(accessToken, expiresIn, refreshToken))))
    ensures RefreshForm(oauth, cfg)["grant_type"] == "refresh_token"
    ensures RefreshForm(oauth, cfg)["refresh_token"] == oauth.refreshToken
    ensures RefreshToken(oauth, cfg, now, send) == Ok(Credential(accessToken, now + expiresIn, refreshToken))
  {
  }

  // ---------------------------------------------------------------------
  // Pushing the linked-role metadata
  // ---------------------------------------------------------------------

  /** The body of the role-connection update. */
  datatype MetadataUpdate = MetadataUpdate(platformName: string, platformUsername: string, dsekMember: bool)

  /** The payload `update_metadata` builds: always the same platform name, the user id, and membership set. */
  function MetadataFor(userId: string): MetadataUpdate
  {
    MetadataUpdate(PlatformName, userId, true)
  }

  /** How serde writes `MetadataUpdate`. */
  function MetadataJson(u: MetadataUpdate): Json
  {
    Object(map[
      "platform_name" := Str(u.platformName),
      "platform_username" := Str(u.platformUsername),
      "metadata" := Object(map["dsek_member" := Bool(u.dsekMember)])])
  }

  function RoleConnectionUrl(cfg: Config): string
  {
    "https://discord.com/api/v10/users/@me/applications/" + cfg.discordClientId + "/role-connection"
  }

  /** The `PUT` of the metadata, authorized by `accessToken`. */
  function MetadataRequest(cfg: Config, userId: string, accessToken: string): Request
  {
    Request(Put, RoleConnectionUrl(cfg), Some(accessToken), JsonBody(MetadataJson(MetadataFor(userId))))
  }

  /** What one run of `update_metadata` returns, what it sent in order, and the table afterwards. */
  datatype MetadataRun = MetadataRun(result: Result<(), Failure>, sent: seq<Request>, rows: map<string, Credential>)

  /**
   * How `update_metadata` replaces an expired credential. The code as
   * written uses `AsWrittenRefresh`; `CorrectedRefresh` is the evidently
   * intended one. Every property of a run below holds for any refresh,
   * except the two lemmas on the refresh finding at the end, which are
   * stated for one refresh each.
   */
  type Refresher = Credential -> Result<Credential, Failure>

  function AsWrittenRefresh(cfg: Config, send: Transport): Refresher
  {
    oauth => RefreshTokenAsWritten(oauth, cfg, send)
  }

  function CorrectedRefresh(cfg: Config, now: int, send: Transport): Refresher
  {
    oauth => RefreshToken(oauth, cfg, now, send)
  }

  /** The credential to use, and the requests sent to get it: a refresh exactly when the stored one has expired. */
  function CurrentCredential(stored: Credential, cfg: Config, now: int, refresh: Refresher): (Result<Credential, Failure>, seq<Request>)
  {
    if Expired(stored, now) then (refresh(stored), [RefreshRequest(stored, cfg)])
    else (Ok(stored), [])
  }

  /** `update_metadata` on the table's contents, with `refresh` for the refresh step. */
  function UpdateMetadataSpec(rows: map<string, Credential>, userId: string, cfg: Config, now: int, send: Transport,
                              refresh: Refresher): MetadataRun
  {
    match Lookup(rows, userId)
    case Err(_) => MetadataRun(Err(NotFound), [], rows)
    case Ok(stored) =>
      var (current, pre) := CurrentCredential(stored, cfg, now, refresh);
      match current
      case Err(e) => MetadataRun(Err(e), pre, rows)
      case Ok(oauth) =>
        var put := MetadataRequest(cfg, userId, oauth.accessToken);
        match send(put)
        case Err(_) => MetadataRun(Err(Transport), pre + [put], rows)
        case Ok(_) => MetadataRun(Ok(()), pre + [put], Upsert(rows, userId, oauth))
  }

  /**
   * `update_metadata`: load the user's tokens, refresh them with `refresh`
   * if they have expired, `PUT` the metadata with the current access token,
   * and only when the `PUT` went out store the tokens used. Returns what it
   * sent. Called with `AsWrittenRefresh(cfg, send)` it is the code as written.
   */
  method UpdateMetadata(store: TokenStore, userId: string, cfg: Config, now: int, send: Transport, refresh: Refresher)
    returns (result: Result<(), Failure>, sent: seq<Request>)
    modifies store
    ensures MetadataRun(result, sent, store.rows) == UpdateMetadataSpec(old(store.rows), userId, cfg, now, send, refresh)
  {
    sent := [];
    var loaded := store.GetToken(userId);
    if loaded.Err? {
      return Err(NotFound), sent;
    }
    var oauth := loaded.value;
    if oauth.expiresAt <= now {
      sent := sent + [RefreshRequest(oauth, cfg)];
      var refreshed := refresh(oauth);
      if refreshed.Err? {
        return Err(refreshed.error), sent;
      }
      oauth := refreshed.value;
    }
    var put := MetadataRequest(cfg, userId, oauth.accessToken);
    sent := sent + [put];
    var response := send(put);
    if response.Err? {
      return Err(Transport), sent;
    }
    store.StoreToken(userId, oauth);
    result := Ok(());
  }

  // Properties of one run, for any refresh.

  /** The first request is a refresh of the stored credential exactly when that credential has expired; there is never a second one. */
  lemma RefreshExactlyWhenExpired(rows: map<string, Credential>, userId: string, cfg: Config, now: int, send: Transport,
                                  refresh: Refresher)
    requires userId in rows
    ensures var run := UpdateMetadataSpec(rows, userId, cfg, now, send, refresh);
      && (|run.sent| > 0 && run.sent[0] == RefreshRequest(rows[userId], cfg) <==> Expired(rows[userId], now))
      && (forall i :: 0 < i < |run.sent| ==> run.sent[i].verb == Put)
      && 1 <= |run.sent| <= 2
  {
  }

  /**
   * A credential that has not expired is used as it is: only the `PUT` is
   * sent, with its access token, and the table is left as it was (a
   * successful run writes the same row back).
   */
  lemma UnexpiredUsedAsIs(rows: map<string, Credential>, userId: string, cfg: Config, now: int, send: Transport,
                          refresh: Refresher)
    requires userId in rows && !Expired(rows[userId], now)
    ensures UpdateMetadataSpec(rows, userId, cfg, now, send, refresh).sent == [MetadataRequest(cfg, userId, rows[userId].accessToken)]
    ensures UpdateMetadataSpec(rows, userId, cfg, now, send, refresh).rows == rows
  {
  }

  /**
   * Whenever a current credential is obtained, the `PUT` is sent with its
   * access token, whether or not the send then succeeds, and a successful
   * run stores that whole credential under the user id.
   */
  lemma CurrentCredentialUsed(rows: map<string, Credential>, userId: string, cfg: Config, now: int, send: Transport,
                              refresh: Refresher, c: Credential)
    requires userId in rows && CurrentCredential(rows[userId], cfg, now, refresh).0 == Ok(c)
    ensures var run := UpdateMetadataSpec(rows, userId, cfg, now, send, refresh);
      && run.sent == CurrentCredential(rows[userId], cfg, now, refresh).1 + [MetadataRequest(cfg, userId, c.accessToken)]
      && (run.result.Ok? ==> run.rows == Upsert(rows, userId, c))
  {
  }

  /** A user without stored tokens: the run fails before sending anything and changes nothing. */
  lemma MissingUserFails(rows: map<string, Credential>, userId: string, cfg: Config, now: int, send: Transport,
                         refresh: Refresher)
    requires userId !in rows
    ensures UpdateMetadataSpec(rows, userId, cfg, now, send, refresh) == MetadataRun(Err(NotFound), [], rows)
  {
  }

  /**
   * The run succeeds exactly when the `PUT` went out, whatever status came
   * back; then the table holds, for this user, the credential whose access
   * token authorized the `PUT`.
   */
  lemma SuccessMeansPutSentAndStored(rows: map<string, Credential>, userId: string, cfg: Config, now: int, send: Transport,
                                     refresh: Refresher)
    ensures var run := UpdateMetadataSpec(rows, userId, cfg, now, send, refresh);
      run.result.Ok? <==>
        && |run.sent| > 0
        && run.sent[|run.sent| - 1].verb == Put
        && send(run.sent[|run.sent| - 1]).Ok?
    ensures var run := UpdateMetadataSpec(rows, userId, cfg, now, send, refresh);
      run.result.Ok? ==>
        && userId in run.rows
        && run.sent[|run.sent| - 1] == MetadataRequest(cfg, userId, run.rows[userId].accessToken)
        && run.sent[|run.sent| - 1].bearer == Some(run.rows[userId].accessToken)
  {
  }

  /** A failed run leaves the table as it was; a run touches no other user's row. */
  lemma StoreOnlyOnSuccess(rows: map<string, Credential>, userId: string, cfg: Config, now: int, send: Transport,
                           refresh: Refresher, other: string)
    requires other != userId
    ensures var run := UpdateMetadataSpec(rows, userId, cfg, now, send, refresh);
      && (run.result.Err? ==> run.rows == rows)
      && Lookup(run.rows, other) == Lookup(rows, other)
  {
  }

  /**
   * On an expired credential: if the refresh fails, the run fails with its
   * error after sending only the refresh and stores nothing; if it succeeds,
   * the refreshed credential, not the stored one, authorizes the `PUT`, and
   * it is what a successful run stores.
   */
  lemma RefreshedCredentialUsed(rows: map<string, Credential>, userId: string, cfg: Config, now: int, send: Transport,
                                refresh: Refresher)
    requires userId in rows && Expired(rows[userId], now)
    ensures var run := UpdateMetadataSpec(rows, userId, cfg, now, send, refresh);
      refresh(rows[userId]).Err? ==>
        run == MetadataRun(Err(refresh(rows[userId]).error), [RefreshRequest(rows[userId], cfg)], rows)
    ensures var run := UpdateMetadataSpec(rows, userId, cfg, now, send, refresh);
      refresh(rows[userId]).Ok? ==>
        run.sent == [RefreshRequest(rows[userId], cfg),
                     MetadataRequest(cfg, userId, refresh(rows[userId]).value.accessToken)]
    ensures var run := UpdateMetadataSpec(rows, userId, cfg, now, send, refresh);
      run.result.Ok? ==>
        && refresh(rows[userId]).Ok?
        && run.rows == Upsert(rows, userId, refresh(rows[userId]).value)
  {
  }

  /** Every `PUT` carries the same payload: the fixed platform name, the user's Discord id, and membership set. */
  lemma PayloadIsFixed(rows: map<string, Credential>, userId: string, cfg: Config, now: int, send: Transport,
                       refresh: Refresher)
    ensures var run := UpdateMetadataSpec(rows, userId, cfg, now, send, refresh);
      forall i :: 0 <= i < |run.sent| && run.sent[i].verb == Put ==>
        && run.sent[i].url == RoleConnectionUrl(cfg)
        && run.sent[i].body == JsonBody(MetadataJson(MetadataUpdate("D-sektionen inom TLTH", userId, true)))
  {
  }

  // The refresh finding, for a whole run.

  /**
   * As written: once the stored credential has expired and the provider
   * answers the refresh as section 5.1 of RFC 6749 says, the run fails
   * after the refresh, no `PUT` is sent and the table keeps the expired
   * credential. That credential stays expired at every later `now`, so this
   * lemma applies again to each later run that gets the same answer.
   */
  lemma UpdateMetadataAsWrittenStuckAfterExpiry(rows: map<string, Credential>, userId: string, cfg: Config, now: int,
                                                send: Transport, status: int,
                                                accessToken: string, expiresIn: int, refreshToken: string)
    requires userId in rows && Expired(rows[userId], now)
    requires send(RefreshRequest(rows[userId], cfg)) ==
             Ok(Response(status, Some(StandardTokenResponse(accessToken, expiresIn, refreshToken))))
    ensures UpdateMetadataSpec(rows, userId, cfg, now, send, AsWrittenRefresh(cfg, send)) ==
            MetadataRun(Err(MalformedResponse), [RefreshRequest(rows[userId], cfg)], rows)
  {
    RefreshAsWrittenRejectsStandardResponse(rows[userId], cfg, send, status, accessToken, expiresIn, refreshToken);
    assert AsWrittenRefresh(cfg, send)(rows[userId]) == Err(MalformedResponse);
  }

  /**
   * Corrected: on the same answer the `PUT` is sent with the new access
   * token, the run succeeds exactly when it went out, and then the new
   * credential, expiring `expires_in` seconds after `now`, is stored.
   */
  lemma UpdateMetadataCorrectedRefreshes(rows: map<string, Credential>, userId: string, cfg: Config, now: int,
                                         send: Transport, status: int,
                                         accessToken: string, expiresIn: int, refreshToken: string)
    requires userId in rows && Expired(rows[userId], now)
    requires I64Min <= expiresIn <= I64Max
    requires send(RefreshRequest(rows[userId], cfg)) ==
             Ok(Response(status, Some(StandardTokenResponse(accessToken, expiresIn, refreshToken))))
    ensures var run := UpdateMetadataSpec(rows, userId, cfg, now, send, CorrectedRefresh(cfg, now, send));
      && run.sent == [RefreshRequest(rows[userId], cfg), MetadataRequest(cfg, userId, accessToken)]
      && (run.result.Ok? <==> send(MetadataRequest(cfg, userId, accessToken)).Ok?)
      && (run.result.Ok? ==> run.rows == Upsert(rows, userId, Credential(accessToken, now + expiresIn, refreshToken)))
  {
    RefreshTokenAcceptsStandardResponse(rows[userId], cfg, now, send, status, accessToken, expiresIn, refreshToken);
    assert CorrectedRefresh(cfg, now, send)(rows[userId]) == Ok(Credential(accessToken, now + expiresIn, refreshToken));
  }
}
