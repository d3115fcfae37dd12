/**
 * The Dsek (portal.dsek.se, an OpenID Connect provider) client: the
 * authorization URL, the code exchange, and the reading of the user out of
 * the ID token it returns.
 *
 * The ID token is a JWS in compact serialization (section 7.1 of RFC 7515):
 * segments separated by `.`. Only the second segment, the payload, is
 * read; the header and the signature are neither decoded nor checked. The
 * payload is decoded as standard unpadded base64 (section 4 of RFC 4648),
 * not the base64url of section 5 that section 2 of RFC 7515 prescribes, so
 * a payload that contains `-` or `_` is refused.
 */
module Dsek {
  import opened Wrappers
  import opened Json
  import opened Web
  import Base64
  import Utf8

  /** The session key under which the Dsek `state` is kept. */
  const StateKey: string := "dsek_uuid_state"

  const TokenEndpoint: string := "https://portal.dsek.se/realms/dsek/protocol/openid-connect/token"

  /** The claims the service reads (section 5.1 of OpenID Connect Core 1.0 names `name` and `preferred_username`). */
  datatype DsekUserData = DsekUserData(
    name: string,          // claim "name"
    groups: seq<string>,   // claim "group_list"
    stilId: string)        // claim "preferred_username"

  datatype ParseError =
    | SegmentMissing                      // no `.`: the service panics on `parts[1]`
    | BadBase64(e: Base64.DecodeError)
    | BadUtf8
    | BadJson                             // the payload text is not JSON
    | BadClaim(claim: string)             // a claim is missing or has the wrong type

  // ---------------------------------------------------------------------
  // Splitting on a separator
  // ---------------------------------------------------------------------

  /** Joins parts with `sep` between consecutive ones. */
  function Join(parts: seq<string>, sep: char): string
    requires |parts| >= 1
    decreases |parts|
  {
    if |parts| == 1 then parts[0] else parts[0] + [sep] + Join(parts[1..], sep)
  }

  /** `str::split` on one character, collected: every piece between separators, empty ones included. */
  function Split(s: string, sep: char): (parts: seq<string>)
    ensures |parts| >= 1
    ensures forall i :: 0 <= i < |parts| ==> sep !in parts[i]
    decreases |s|
  {
    if s == [] then [[]]
    else
      var rest := Split(s[1..], sep);
      if s[0] == sep then [[]] + rest
      else [[s[0]] + rest[0]] + rest[1..]
  }

  /** Joining the pieces with the separator gives back the text: nothing is lost by splitting. */
  lemma {:induction false} JoinSplit(s: string, sep: char)
    ensures Join(Split(s, sep), sep) == s
    decreases |s|
  {
    if s != [] {
      var rest := Split(s[1..], sep);
      JoinSplit(s[1..], sep);
      var parts := Split(s, sep);
      if s[0] == sep {
        assert parts[1..] == rest;
      } else {
        assert parts[1..] == rest[1..];
        if |rest| > 1 {
          assert Join(rest, sep) == rest[0] + [sep] + Join(rest[1..], sep);
        }
      }
      assert s == [s[0]] + s[1..];
    }
  }

  /** Splitting text that has no separator gives the text alone. */
  lemma SplitWithoutSeparator(s: string, sep: char)
    requires sep !in s
    ensures Split(s, sep) == [s]
  {
    SplitPrefix(s, [], sep);
  }

  /** A separator-free prefix joins the first piece. */
  lemma {:induction false} SplitPrefix(h: string, tail: string, sep: char)
    requires sep !in h
    requires tail == [] || tail[0] == sep
    ensures Split(h + tail, sep)[0] == h
    ensures Split(h + tail, sep)[1..] == Split(tail, sep)[1..]
    decreases |h|
  {
    if h == [] {
      assert h + tail == tail;
    } else {
      SplitPrefix(h[1..], tail, sep);
      assert (h + tail)[1..] == h[1..] + tail;
      assert h == [h[0]] + h[1..];
    }
  }

  /** A leading separator closes an empty first piece. */
  lemma SplitSeparatorFirst(t: string, sep: char)
    ensures Split([sep] + t, sep) == [[]] + Split(t, sep)
  {
    assert ([sep] + t)[1..] == t;
  }

  /** In `h.p…`, with no `.` in `h` or `p` and nothing or another `.` after `p`, the second piece is `p`. */
  lemma SplitSecond(h: string, p: string, rest: string, sep: char)
    requires sep !in h && sep !in p
    requires rest == [] || rest[0] == sep
    ensures |Split(h + ([sep] + (p + rest)), sep)| >= 2
    ensures Split(h + ([sep] + (p + rest)), sep)[1] == p
  {
    var tail := [sep] + (p + rest);
    var a := Split(h + tail, sep);
    var b := Split(tail, sep);
    var c := Split(p + rest, sep);
    SplitPrefix(h, tail, sep);
    assert a[1..] == b[1..];
    SplitSeparatorFirst(p + rest, sep);
    assert b[1..] == c;
    SplitPrefix(p, rest, sep);
    assert c[0] == p;
  }

  // ---------------------------------------------------------------------
  // Reading the token
  // ---------------------------------------------------------------------

  /** The derived `Deserialize` of `DsekUserData`: the three claims must be present with these types, unknown claims are ignored. Which error names which claim is not serde's. */
  function UserFromClaims(j: Json): Result<DsekUserData, ParseError>
  {
    if !j.Object? then Err(BadJson)
    else match StringField(j, "name")
      case None => Err(BadClaim("name"))
      case Some(name) =>
        match StringListField(j, "group_list")
        case None => Err(BadClaim("group_list"))
        case Some(groups) =>
          match StringField(j, "preferred_username")
          case None => Err(BadClaim("preferred_username"))
          case Some(stil) => Ok(DsekUserData(name, groups, stil))
  }

  /** `j` is a claims object that carries exactly the three fields of `user`. */
  ghost predicate CarriesClaims(j: Json, user: DsekUserData)
  {
    && j.Object?
    && Field(j, "name") == Some(Str(user.name))
    && Field(j, "group_list") == Some(StringArray(user.groups))
    && Field(j, "preferred_username") == Some(Str(user.stilId))
  }

  /** `name` comes from `name`, `groups` from `group_list`, `stil_id` from `preferred_username`, and from nowhere else. */
  lemma ClaimMapping(j: Json, user: DsekUserData)
    ensures UserFromClaims(j) == Ok(user) <==> CarriesClaims(j, user)
  {
    if j.Object? && "group_list" in j.fields && j.fields["group_list"].Array? {
      StringsOfStringArray(j.fields["group_list"].items, user.groups);
    }
  }

  /** Other claims in the payload do not change the result. */
  lemma OtherClaimsIgnored(m1: map<string, Json>, m2: map<string, Json>)
    requires forall k :: k in {"name", "group_list", "preferred_username"} ==>
               (k in m1 <==> k in m2) && (k in m1 ==> m1[k] == m2[k])
    ensures UserFromClaims(Object(m1)) == UserFromClaims(Object(m2))
  {
    assert "name" in {"name", "group_list", "preferred_username"};
    assert "group_list" in {"name", "group_list", "preferred_username"};
    assert "preferred_username" in {"name", "group_list", "preferred_username"};
  }

  /** The payload segment: base64, then UTF-8, then JSON (`parseJson`), then the claims. */
  function ParsePayload(segment: string, parseJson: string -> Option<Json>): Result<DsekUserData, ParseError>
  {
    match Base64.Decode(segment)
    case Err(e) => Err(BadBase64(e))
    case Ok(bytes) =>
      match Utf8.Decode(bytes)
      case None => Err(BadUtf8)
      case Some(text) =>
        match parseJson(text)
        case None => Err(BadJson)
        case Some(j) => UserFromClaims(j)
  }

  /** `DsekUserData::from_str`: split on `.`, read the piece at index 1. */
  function FromStr(token: string, parseJson: string -> Option<Json>): Result<DsekUserData, ParseError>
  {
    var parts := Split(token, '.');
    if |parts| < 2 then Err(SegmentMissing) else ParsePayload(parts[1], parseJson)
  }

  /** Only the payload segment matters: any header and any signature give the same result, so no signature is checked. */
  lemma FromStrReadsOnlyPayload(header: string, payload: string, rest: string, parseJson: string -> Option<Json>)
    requires '.' !in header && '.' !in payload
    requires rest == [] || rest[0] == '.'
    ensures FromStr(header + ['.'] + payload + rest, parseJson) == ParsePayload(payload, parseJson)
  {
    assert header + ['.'] + payload + rest == header + (['.'] + (payload + rest));
    SplitSecond(header, payload, rest, '.');
  }

  /** A token without a `.` has no payload segment. */
  lemma FromStrWithoutSeparator(token: string, parseJson: string -> Option<Json>)
    requires '.' !in token
    ensures FromStr(token, parseJson) == Err(SegmentMissing)
  {
    SplitWithoutSeparator(token, '.');
  }

  /**
   * The whole pipeline inverts the way a token is made: a payload that is
   * JSON text, UTF-8 encoded, then base64 encoded, between any header and
   * any signature, reads back as the claims of that JSON.
   */
  lemma FromStrRoundTrip(header: string, text: string, rest: string, parseJson: string -> Option<Json>)
    requires '.' !in header
    requires rest == [] || rest[0] == '.'
    ensures FromStr(header + ['.'] + Base64.Encode(Utf8.Encode(text)) + rest, parseJson) ==
            match parseJson(text)
            case None => Err(BadJson)
            case Some(j) => UserFromClaims(j)
  {
    var payload := Base64.Encode(Utf8.Encode(text));
    Base64.EncodeShape(Utf8.Encode(text));
    assert forall i :: 0 <= i < |payload| ==> payload[i] != '.';
    FromStrReadsOnlyPayload(header, payload, rest, parseJson);
    Base64.DecodeEncode(Utf8.Encode(text));
    Utf8.DecodeEncode(text);
  }

  /** A payload that uses base64url's `-` or `_` anywhere is refused by the Base64 step. */
  lemma PayloadRejectsUrlSafe(segment: string, parseJson: string -> Option<Json>)
    requires '-' in segment || '_' in segment
    ensures ParsePayload(segment, parseJson).Err? && ParsePayload(segment, parseJson).error.BadBase64?
  {
    var i :| 0 <= i < |segment| && (segment[i] == '-' || segment[i] == '_');
    Base64.UrlSafeAndPadRejected();
    Base64.DecodeRejectsForeignCharacter(segment, i);
  }

  /** A payload whose bytes are not UTF-8 is refused by the UTF-8 step, never read as claims. */
  lemma PayloadRejectsNonUtf8(segment: string, parseJson: string -> Option<Json>, bytes: seq<Byte>)
    requires Base64.Decode(segment) == Ok(bytes) && Utf8.Decode(bytes) == None
    ensures ParsePayload(segment, parseJson) == Err(BadUtf8)
  {
  }

  /** A token whose payload segment uses `-` or `_` yields no user, whatever its header and signature. */
  lemma FromStrRejectsUrlSafe(header: string, payload: string, rest: string, parseJson: string -> Option<Json>)
    requires '.' !in header && '.' !in payload
    requires rest == [] || rest[0] == '.'
    requires '-' in payload || '_' in payload
    ensures FromStr(header + ['.'] + payload + rest, parseJson).Err?
    ensures FromStr(header + ['.'] + payload + rest, parseJson).error.BadBase64?
  {
    FromStrReadsOnlyPayload(header, payload, rest, parseJson);
    PayloadRejectsUrlSafe(payload, parseJson);
  }

  /** A token whose payload decodes to bytes that are not UTF-8 yields the UTF-8 error, whatever its header and signature. */
  lemma FromStrRejectsNonUtf8(header: string, payload: string, rest: string, parseJson: string -> Option<Json>,
                              bytes: seq<Byte>)
    requires '.' !in header
    requires rest == [] || rest[0] == '.'
    requires Base64.Decode(payload) == Ok(bytes) && Utf8.Decode(bytes) == None
    ensures FromStr(header + ['.'] + payload + rest, parseJson) == Err(BadUtf8)
  {
    forall i | 0 <= i < |payload|
      ensures payload[i] != '.'
    {
      Base64.UrlSafeAndPadRejected();
      if payload[i] == '.' {
        Base64.DecodeRejectsForeignCharacter(payload, i);
      }
    }
    FromStrReadsOnlyPayload(header, payload, rest, parseJson);
    PayloadRejectsNonUtf8(payload, parseJson, bytes);
  }

  // ---------------------------------------------------------------------
  // The authorization URL
  // ---------------------------------------------------------------------

  /** The authorization request of section 4.1.1 of RFC 6749 as the service builds it for Dsek. */
  function AuthUrl(cfg: Config, state: string): Url
  {
    Url("https", "portal.dsek.se", ["realms/dsek/protocol/openid-connect/auth"],
        [("client_id", cfg.dsekClientId),
         ("redirect_uri", cfg.dsekRedirectUri),
         ("response_type", "code"),
         ("scope", "openid"),
         ("state", state),
         ("prompt", "consent")])
  }

  /** The URL asks for an authorization code with scope `openid`, and its `state` is the given one. */
  lemma AuthUrlShape(cfg: Config, state: string)
    ensures ParamNames(AuthUrl(cfg, state).params) ==
            ["client_id", "redirect_uri", "response_type", "scope", "state", "prompt"]
    ensures QueryValue(AuthUrl(cfg, state).params, "state") == Some(state)
    ensures QueryValue(AuthUrl(cfg, state).params, "response_type") == Some("code")
    ensures QueryValue(AuthUrl(cfg, state).params, "scope") == Some("openid")
    ensures QueryValue(AuthUrl(cfg, state).params, "client_id") == Some(cfg.dsekClientId)
    ensures QueryValue(AuthUrl(cfg, state).params, "redirect_uri") == Some(cfg.dsekRedirectUri)
    ensures QueryValue(AuthUrl(cfg, state).params, "prompt") == Some("consent")
  {
    var ps := AuthUrl(cfg, state).params;
    QueryValueAt(ps, 0, "client_id");
    QueryValueAt(ps, 1, "redirect_uri");
    QueryValueAt(ps, 5, "prompt");
    QueryValueAt(ps, 2, "response_type");
    QueryValueAt(ps, 3, "scope");
    QueryValueAt(ps, 4, "state");
  }

  /**
   * `generate_oauth_url`: stores the nonce in the session under the Dsek
   * key, then builds the URL with that nonce as `state`. The nonce is the
   * caller's (a fresh UUID in the service).
   */
  method GenerateOauthUrl(session: Session, cfg: Config, nonce: string) returns (url: Url)
    modifies session
    ensures session.entries == old(session.entries)[StateKey := nonce]
    ensures url == AuthUrl(cfg, nonce)
    ensures session.Get(StateKey) == Some(nonce) == QueryValue(url.params, "state")
  {
    session.Insert(StateKey, nonce);
    var builder := new UrlBuilder();
    builder.SetProtocol("https");
    builder.SetHost("portal.dsek.se");
    builder.AddRoute("realms/dsek/protocol/openid-connect/auth");
    builder.AddParam("client_id", cfg.dsekClientId);
    builder.AddParam("redirect_uri", cfg.dsekRedirectUri);
    builder.AddParam("response_type", "code");
    builder.AddParam("scope", "openid");
    builder.AddParam("state", nonce);
    builder.AddParam("prompt", "consent");
    url := builder.Build();
    assert url == AuthUrl(cfg, nonce);
    AuthUrlShape(cfg, nonce);
  }

  // ---------------------------------------------------------------------
  // The code exchange
  // ---------------------------------------------------------------------

  /** The form of the token request (section 4.1.3 of RFC 6749) with the client's credentials. */
  function TokenForm(code: string, cfg: Config): map<string, string>
  {
    map[
      "client_id" := cfg.dsekClientId,
      "client_secret" := cfg.dsekClientSecret,
      "grant_type" := "authorization_code",
      "code" := code,
      "redirect_uri" := cfg.dsekRedirectUri]
  }

  function TokenRequest(code: string, cfg: Config): Request
  {
    Request(Post, TokenEndpoint, None, Form(TokenForm(code, cfg)))
  }

  /** The form carries the grant type `authorization_code`, the code unchanged and the redirect URI, and nothing else but the client's id and secret. */
  lemma TokenFormFields(code: string, cfg: Config)
    ensures TokenForm(code, cfg).Keys == {"client_id", "client_secret", "grant_type", "code", "redirect_uri"}
    ensures TokenForm(code, cfg)["grant_type"] == "authorization_code"
    ensures TokenForm(code, cfg)["code"] == code
    ensures TokenForm(code, cfg)["redirect_uri"] == cfg.dsekRedirectUri
  {
  }

  /** The form as `fetch_user_data` fills it, one insertion at a time into an empty map; `TokenRequest` sends the same map. */
  method FillTokenForm(code: string, cfg: Config) returns (data: map<string, string>)
    ensures data == TokenForm(code, cfg)
    ensures |data| == 5
  {
    data := map[];
    data := data["client_id" := cfg.dsekClientId];
    data := data["client_secret" := cfg.dsekClientSecret];
    data := data["grant_type" := "authorization_code"];
    data := data["code" := code];
    data := data["redirect_uri" := cfg.dsekRedirectUri];
    TokenFormFields(code, cfg);
  }

  datatype FetchError =
    | Transport                      // sending the request failed
    | MalformedResponse              // the body is not `{ "id_token": <string>, … }`
    | InvalidIdToken(e: ParseError)  // the ID token does not read as a user

  /** `fetch_user_data`: exchange the code, read the user out of the returned ID token. */
  function FetchUserData(code: string, cfg: Config, send: Transport, parseJson: string -> Option<Json>)
    : Result<DsekUserData, FetchError>
  {
    match send(TokenRequest(code, cfg))
    case Err(_) => Err(Transport)
    case Ok(response) =>
      match response.body
      case None => Err(MalformedResponse)
      case Some(body) =>
        match StringField(body, "id_token")
        case None => Err(MalformedResponse)
        case Some(idToken) =>
          match FromStr(idToken, parseJson)
          case Err(e) => Err(InvalidIdToken(e))
          case Ok(user) => Ok(user)
  }

  /** The user comes from the `id_token` of the response, whatever the response's status. */
  lemma FetchUserDataReadsIdToken(code: string, cfg: Config, send: Transport, parseJson: string -> Option<Json>,
                                  status: int, body: Json, idToken: string)
    requires send(TokenRequest(code, cfg)) == Ok(Response(status, Some(body)))
    requires StringField(body, "id_token") == Some(idToken)
    ensures FromStr(idToken, parseJson).Ok? ==> FetchUserData(code, cfg, send, parseJson) == Ok(FromStr(idToken, parseJson).value)
    ensures FromStr(idToken, parseJson).Err? ==> FetchUserData(code, cfg, send, parseJson) == Err(InvalidIdToken(FromStr(idToken, parseJson).error))
  {
  }
}
