# Janus account linking: a Dafny model

The service links a user's Discord account to a D-sektionen portal ("Dsek")
identity through two OAuth 2.0 authorization-code flows. It then pushes a
linked-role metadata record to Discord. This project models the service's
core and proves properties of it:

- **ID-token payload extraction** (`src/dsek.rs`). `DsekUserData::from_str` splits
  a compact JWS (section 7.1 of RFC 7515) on `.` and takes segment 1. It
  decodes that segment with the standard Base64 alphabet and no padding
  (section 4 of RFC 4648), requires UTF-8 (RFC 3629), and maps the claims
  `name`, `group_list` and `preferred_username` of section 5.1 of OpenID
  Connect Core 1.0 into a record. The model writes out a Base64 codec
  (`base64.dfy`) and a UTF-8 codec (`utf8.dfy`), each with both round trips
  proved. JSON is an abstract value (`json.dfy`), and the text-to-JSON step
  is a parameter `parseJson`.
- **Authorization URLs** for both providers (`generate_oauth_url` in `src/dsek.rs`
  and `src/discord.rs`). The URL builder and the browser session are
  classes (`web.dfy`) whose methods change their fields. The nonce is an
  input, and it is proved to be both the URL's `state` and the value stored
  under the provider's session key.
- **Code exchange, identity and refresh forms** (`src/dsek.rs`, `src/discord.rs`).
  The network is a parameter `send: Transport`. Each form is filled into a
  map one key at a time, as the source fills its `HashMap`.
- **The Discord credential lifecycle** (`src/discord.rs`):
  - converting a token response into a credential with `expires_at = now + expires_in`;
  - `update_metadata` as a method over the token store, proved against the
    function `UpdateMetadataSpec`, with lemmas on when it refreshes, which
    token it sends, what it stores and when. The refresh step is a
    parameter: `AsWrittenRefresh` is the code's `refresh_token`, and
    `CorrectedRefresh` is the evidently intended one (see "## Findings").
    Every lemma about a run holds for any refresh step, except the two
    lemmas on the refresh finding, which are stated for one step each.
- **The token store** (`src/storage.rs`). This is a class holding a
  `map<string, Credential>`: `get_token` fails on a missing row, and
  `store_token` is `INSERT OR REPLACE`.

Three behaviours of the code to note:

- `platform_username` is the Discord user id (`src/discord.rs:147`), not the Dsek handle.
- The credential used for the `PUT` is stored only after the `PUT` has been
  sent successfully (`src/discord.rs:156-163`). It is not stored between the
  refresh and the `PUT`.
- The HTTP status of the `PUT` is never examined.

## Model

| member | source | states |
|---|---|---|
| Base64.SymbolValue | src/dsek.rs:36 | a character has a value exactly when it is in `A–Z a–z 0–9 + /`, and that value's symbol is the character |
| Base64.SymbolRoundTrip | src/dsek.rs:36 | every 6-bit value's symbol is in the standard alphabet and reads back as that value |
| Base64.UrlSafeAndPadRejected | src/dsek.rs:36-42 | `-`, `_` (base64url), `=` (padding) and `.` are not symbols of the engine |
| Base64.Symbols | src/dsek.rs:42 | renders each 6-bit value as its own symbol, position by position |
| Base64.ParseSymbols | src/dsek.rs:42 | succeeds exactly when every character is in the alphabet; otherwise the error names the offset and character of a foreign one |
| Base64.ParseSymbolsOfSymbols | src/dsek.rs:42 | parsing the rendering of any sextet sequence gives it back |
| Base64.SymbolsOfParseSymbols | src/dsek.rs:42 | rendering what parsing returned gives back the text |
| Base64.ToSextets | src/dsek.rs:36-42 | `n` bytes become `⌈4n/3⌉` sextets, never a count that is 1 mod 4 |
| Base64.FromSextets | src/dsek.rs:42 | `m` sextets become `⌊3m/4⌋` bytes |
| Base64.FromToSextets | src/dsek.rs:42 | unpacking what was packed returns the bytes |
| Base64.ToSextetsCanonical | src/dsek.rs:36 | packing always leaves the unused trailing bits zero, as no-pad encoding requires |
| Base64.ToFromSextets | src/dsek.rs:36-42 | sextets with zero trailing bits pack back to themselves |
| Base64.EncodeShape | src/dsek.rs:36 | unpadded standard encoding of `n` bytes has `⌈4n/3⌉` characters, all in the alphabet |
| Base64.DecodeEncode | src/dsek.rs:36-42 | decoding the unpadded standard encoding of any bytes returns those bytes |
| Base64.EncodeDecode | src/dsek.rs:36-42 | every text that decodes is the canonical encoding of its result |
| Base64.DecodeLength | src/dsek.rs:36-42 | a length that is 1 mod 4 is rejected; a text of length `n` that decodes yields `⌊3n/4⌋` bytes |
| Base64.DecodeRejectsForeignCharacter | src/dsek.rs:36-42 | one character outside the standard alphabet makes decoding fail |
| Utf8.EncodeChar | src/dsek.rs:43 | a scalar value takes 1 to 4 bytes |
| Utf8.DecodeChar | src/dsek.rs:43 | a decoded character consumes between 1 and the available number of bytes |
| Utf8.DecodeEncodeChar | src/dsek.rs:43 | a character's encoding decodes to it, whatever follows |
| Utf8.EncodeDecodeChar | src/dsek.rs:43 | the bytes a character was decoded from are its encoding, so overlong forms are refused |
| Utf8.DecodeEncode | src/dsek.rs:43 | `String::from_utf8` of any string's UTF-8 is that string |
| Utf8.EncodeDecode | src/dsek.rs:43 | every byte sequence that is accepted is the encoding of what it decoded to |
| Utf8.RejectedAfterText | src/dsek.rs:43 | bytes that start with an ill-formed character are refused after any well-formed prefix |
| Utf8.StrayContinuationRejected | src/dsek.rs:43 | a continuation byte where a character should start is an error, after any well-formed prefix and whatever follows |
| Utf8.OverlongRejected | src/dsek.rs:43 | the lead bytes `C0`, `C1`, and `E0` or `F0` with a too-small second byte, are errors after any well-formed prefix, whatever follows |
| Utf8.SurrogateRejected | src/dsek.rs:43 | an encoded surrogate (`ED` followed by `A0` or more) is an error after any well-formed prefix, whatever follows |
| Utf8.AboveMaxRejected | src/dsek.rs:43 | a lead byte of `F5` or more, or `F4` with a second byte of `90` or more (above U+10FFFF), is an error after any well-formed prefix, whatever follows |
| Utf8.TruncatedRejected | src/dsek.rs:43 | a lead byte of `C0` or more followed by fewer bytes than its width needs, at the end of the input and after any well-formed prefix, is an error |
| Json.Strings | src/dsek.rs:26-27 | a JSON array reads as `Vec<String>` exactly when every element is a string, element by element |
| Json.StringsOfStringArray | src/dsek.rs:26-27 | reading an array as strings and writing strings as an array are inverse |
| Json.StringField | src/dsek.rs:23-30 | a `String` member is read exactly when the object has the member and it is a JSON string, and the value is that string |
| Json.I64Field | src/discord.rs:65-70 | an `i64` member is read exactly when the object has the member, it is an integer and within the range of `i64`, and the value is that integer |
| Json.StringListField | src/dsek.rs:26-27 | a `Vec<String>` member is read exactly when the member is an array of strings only, and the array is exactly the one written from the result |
| Web.UrlBuilder.SetProtocol | src/dsek.rs:58-59 | sets the protocol and leaves host, routes and parameters alone |
| Web.UrlBuilder.SetHost | src/dsek.rs:60 | sets the host and leaves protocol, routes and parameters alone |
| Web.UrlBuilder.AddRoute | src/dsek.rs:61 | appends one path segment after the existing ones and leaves the rest alone |
| Web.UrlBuilder.Build | src/dsek.rs:69 | the URL carries each part exactly as the setters left it, parameters in the order they were added |
| Web.Session.Get | src/discord.rs:46-48 | a value is found exactly when the session holds the key, and it is the stored one; after `Insert` it is the inserted value and other keys read as before |
| Web.UrlBuilder.AddParam | src/dsek.rs:62-67 | appends one query parameter after the existing ones, leaving the rest of the builder alone |
| Web.Session.Insert | src/dsek.rs:54-56 | the session afterwards maps the key to the value, all other entries unchanged |
| Dsek.Split | src/dsek.rs:41 | splitting always gives at least one segment and no segment holds the separator |
| Dsek.JoinSplit | src/dsek.rs:41 | joining the segments with the separator gives back the token |
| Dsek.SplitWithoutSeparator | src/dsek.rs:41 | a token without `.` is one segment |
| Dsek.SplitSecond | src/dsek.rs:41-42 | in `header.payload[.rest]`, segment 1 is `payload` |
| Dsek.ClaimMapping | src/dsek.rs:23-30 | the record is read exactly when `name` is a string, `group_list` an array of strings and `preferred_username` a string, and `stil_id` is `preferred_username` |
| Dsek.OtherClaimsIgnored | src/dsek.rs:23-30 | claims other than those three do not affect the result |
| Dsek.FromStrReadsOnlyPayload | src/dsek.rs:41-44 | only segment 1 is decoded; header and signature are never read, so no signature is checked |
| Dsek.FromStrWithoutSeparator | src/dsek.rs:41-42 | a token without `.` yields no user (`SegmentMissing`) |
| Dsek.FromStrRoundTrip | src/dsek.rs:36-44 | a token whose segment 1 is the unpadded standard Base64 of the UTF-8 of a text yields what that text parses to |
| Dsek.PayloadRejectsUrlSafe | src/dsek.rs:36-42 | a payload segment holding `-` or `_` anywhere fails with a Base64 error |
| Dsek.PayloadRejectsNonUtf8 | src/dsek.rs:42-43 | a payload that decodes to bytes that are not UTF-8 fails with the UTF-8 error, never reaching the claims |
| Dsek.FromStrRejectsUrlSafe | src/dsek.rs:36-42 | a token whose payload segment holds `-` or `_` yields a Base64 error, whatever its header and signature |
| Dsek.FromStrRejectsNonUtf8 | src/dsek.rs:41-43 | a token whose payload decodes to bytes that are not UTF-8 yields the UTF-8 error, whatever its header and signature |
| Dsek.AuthUrlShape | src/dsek.rs:59-67 | the parameters are `client_id, redirect_uri, response_type, scope, state, prompt` in that order, with the Dsek client id and redirect URI, `code`, `openid`, the given state and `consent` |
| Dsek.GenerateOauthUrl | src/dsek.rs:48-70 | stores the nonce under `dsek_uuid_state`, changes no other session entry, and returns the URL whose `state` is that stored value |
| Dsek.TokenFormFields | src/dsek.rs:82-86 | the form has exactly the five keys, with grant type `authorization_code`, the code unchanged and the redirect URI |
| Dsek.FillTokenForm | src/dsek.rs:80-86 | the insertions build that form, five entries |
| Dsek.FetchUserDataReadsIdToken | src/dsek.rs:88-98 | the user is what the response's `id_token` parses to, and a parse error is passed on |
| Discord.AuthUrlShape | src/discord.rs:50-59 | the parameters are `client_id, redirect_uri, response_type, state, scope, prompt` in order, with the Discord client id and redirect URI, `code`, the given state, `role_connections.write identify` and `consent` |
| Discord.GenerateOauthUrl | src/discord.rs:40-62 | stores the nonce under `uuid_state`, changes no other session entry, and returns the URL whose `state` is that stored value |
| Discord.ExpiredStaysExpired | src/discord.rs:139 | once `expires_at <= now` holds, it holds at every later `now` |
| Discord.DecodeAuthData | src/discord.rs:14-27 | the identity response is read exactly when it has a `user` whose `id` and `username` are strings, and those are the values read |
| Discord.ConversionKeepsLifetime | src/discord.rs:72-80 | conversion keeps both tokens, and the credential counts as expired exactly from `expires_in` seconds after `now` |
| Discord.DecodeOAuthResponseMeaning | src/discord.rs:65-70 | a token response is read from exactly the string `access_token`, integer `expires_in` and string `refresh_token` |
| Discord.FillCodeForm | src/discord.rs:83-89 | the exchange form has exactly the five keys, filled as the source inserts them |
| Discord.FetchOauthTokensMeaning | src/discord.rs:64-101 | the code is sent unchanged with `authorization_code`; the exchange succeeds exactly when the send succeeds and the body is a token response, which is converted with `now` |
| Discord.FetchUserAuthDataMeaning | src/discord.rs:103-115 | the identity call carries the given token as bearer and returns the `id` and `username` of the response's `user`, whatever other members it has |
| Discord.FillRefreshForm | src/discord.rs:119-124 | the refresh form has exactly the four keys |
| Discord.RefreshAsWrittenNeedsExpiresAt | src/discord.rs:126-132 | as written, any refresh response without `expires_at` is refused |
| Discord.RefreshAsWrittenTakesResponseAsCredential | src/discord.rs:126-134 | as written, a response with `access_token`, `expires_at` and `refresh_token` is taken as the credential, `expires_at` as sent, with no `now + expires_in` step |
| Discord.RefreshAsWrittenRejectsStandardResponse | src/discord.rs:117-135 | as written, every refresh response as section 5.1 of RFC 6749 defines it is refused |
| Discord.RefreshTokenAcceptsStandardResponse | src/discord.rs:117-135 | the corrected refresh sends `refresh_token` with the old refresh token and keeps `expires_at = now + expires_in` |
| Discord.UpdateMetadata | src/discord.rs:137-166 | for any refresh step, the method's result, the requests it sent and the new table are those of `UpdateMetadataSpec` on the old table |
| Discord.RefreshExactlyWhenExpired | src/discord.rs:138-141 | the first request is a refresh of the stored credential exactly when `expires_at <= now`; there is never a second refresh |
| Discord.UnexpiredUsedAsIs | src/discord.rs:138-163 | an unexpired credential is used unchanged: only the `PUT` is sent, with its access token, and the table afterwards equals the old one |
| Discord.CurrentCredentialUsed | src/discord.rs:138-163 | whenever a current credential is obtained, the requests sent are those that obtained it followed by the `PUT` with its access token, and a successful run stores exactly that credential |
| Discord.MissingUserFails | src/discord.rs:138 | no stored row: fails before sending anything, table unchanged |
| Discord.SuccessMeansPutSentAndStored | src/discord.rs:156-165 | success exactly when the `PUT` was sent without transport error, whatever its status; then the credential whose token was the bearer is stored under the user id |
| Discord.StoreOnlyOnSuccess | src/discord.rs:156-163 | a failed run leaves the table as it was; no other user's row is touched |
| Discord.RefreshedCredentialUsed | src/discord.rs:139-163 | for any refresh step: if it fails, the run fails with its error after sending only the refresh and stores nothing; if it succeeds, the refresh and the `PUT` with the refreshed token as bearer are sent, and a successful run stores the refreshed credential |
| Discord.PayloadIsFixed | src/discord.rs:144-154 | every `PUT` goes to the role-connection URL with platform name `D-sektionen inom TLTH`, the Discord user id and `dsek_member = true` |
| Discord.UpdateMetadataAsWrittenStuckAfterExpiry | src/discord.rs:137-166 | as written, an expired credential plus a standard refresh response: the run fails after the refresh, sends no `PUT` and keeps the expired credential |
| Discord.UpdateMetadataCorrectedRefreshes | src/discord.rs:137-166 | corrected, on the same response: the `PUT` carries the new token, and success stores it with `expires_at = now + expires_in` |
| Storage.LookupMeaning | src/storage.rs:14-26 | lookup fails exactly when the user has no row, and otherwise returns the row |
| Storage.GetAfterStore | src/storage.rs:14-41 | after storing `c` for a user, looking the user up returns `c` |
| Storage.StoreReplacesWholesale | src/storage.rs:29-36 | a second store replaces the first entirely, no field merged |
| Storage.StoreLeavesOthers | src/storage.rs:30-35 | storing for one user leaves every other user's lookup unchanged |
| Storage.StoreIdempotent | src/storage.rs:29-38 | storing the same credential twice equals storing it once |
| Storage.StoreKeys | src/storage.rs:30-31 | storing adds the user to the rows and no other key |
| Storage.TokenStore.GetToken | src/storage.rs:14-26 | returns the user's row, failing exactly when there is none; the store is not modified |
| Storage.TokenStore.StoreToken | src/storage.rs:28-41 | the new table is the old one with the user's row replaced |
| Base64.Encode | src/dsek.rs:36 | unpadded standard encoding, the partner of `Decode`; its shape is EncodeShape and its inverse DecodeEncode |
| Base64.Decode | src/dsek.rs:36-42 | `engine.decode` with the standard alphabet and no padding; characterized by DecodeLength, DecodeRejectsForeignCharacter and the two round trips |
| Utf8.Encode | src/dsek.rs:43 | the UTF-8 of a string, the partner of `Decode` |
| Utf8.Decode | src/dsek.rs:43 | `String::from_utf8`; characterized by the two round trips and the five rejection lemmas |
| Dsek.UserFromClaims | src/dsek.rs:23-30 | the derived deserializer of `DsekUserData`; characterized by ClaimMapping and OtherClaimsIgnored |
| Dsek.ParsePayload | src/dsek.rs:42-44 | Base64, then UTF-8, then JSON, then the claims, each failure passed on |
| Dsek.FromStr | src/dsek.rs:32-46 | split on `.`, read segment 1; characterized by FromStrReadsOnlyPayload, FromStrWithoutSeparator, FromStrRoundTrip and the rejection lemmas |
| Dsek.AuthUrl | src/dsek.rs:58-69 | the Dsek authorization URL; characterized by AuthUrlShape |
| Dsek.TokenForm | src/dsek.rs:80-86 | the code-exchange form; characterized by TokenFormFields |
| Dsek.TokenRequest | src/dsek.rs:78-92 | the `POST` of that form to the token endpoint; characterized by FetchUserDataReadsIdToken |
| Dsek.FetchUserData | src/dsek.rs:72-99 | exchange the code and read the user from `id_token`; characterized by FetchUserDataReadsIdToken |
| Discord.AuthUrl | src/discord.rs:50-61 | the Discord authorization URL; characterized by AuthUrlShape |
| Discord.DecodeOAuthResponse | src/discord.rs:65-70 | the derived deserializer of `OAuthResponse`; characterized by DecodeOAuthResponseMeaning |
| Discord.DecodeCredential | src/storage.rs:7-12 | the derived deserializer of `OAuthCredentials`, which needs `expires_at` |
| Discord.FromOAuthResponse | src/discord.rs:72-80 | the conversion with `now`; characterized by ConversionKeepsLifetime |
| Discord.FetchOauthTokens | src/discord.rs:64-101 | the Discord code exchange; characterized by FetchOauthTokensMeaning |
| Discord.FetchUserAuthData | src/discord.rs:103-115 | the identity call; characterized by FetchUserAuthDataMeaning |
| Discord.RefreshTokenAsWritten | src/discord.rs:117-135 | `refresh_token` as written; characterized by the three `RefreshAsWritten` lemmas |
| Discord.RefreshToken | src/discord.rs:117-135 | `refresh_token` corrected; characterized by RefreshTokenAcceptsStandardResponse |
| Discord.AsWrittenRefresh | src/discord.rs:140 | the refresh step of `update_metadata` as written |
| Discord.CorrectedRefresh | src/discord.rs:140 | the refresh step with the corrected `refresh_token`; used by UpdateMetadataCorrectedRefreshes |
| Discord.Expired | src/discord.rs:139 | the refresh test `expires_at <= now`; characterized by ConversionKeepsLifetime, ExpiredStaysExpired and RefreshExactlyWhenExpired |
| Discord.CodeForm | src/discord.rs:83-89 | the Discord code-exchange form; characterized by FillCodeForm and FetchOauthTokensMeaning |
| Discord.CodeRequest | src/discord.rs:82-96 | the `POST` of that form to the token endpoint; characterized by FetchOauthTokensMeaning |
| Discord.IdentityRequest | src/discord.rs:104-109 | the `GET` of the identity endpoint with the token as bearer; characterized by FetchUserAuthDataMeaning |
| Discord.RefreshForm | src/discord.rs:119-124 | the refresh form; characterized by FillRefreshForm and RefreshTokenAcceptsStandardResponse |
| Discord.RefreshRequest | src/discord.rs:118-130 | the `POST` of the refresh form to the token endpoint; characterized by RefreshExactlyWhenExpired and RefreshTokenAcceptsStandardResponse |
| Discord.MetadataFor | src/discord.rs:144-149 | the payload of `update_metadata`; characterized by PayloadIsFixed |
| Discord.MetadataJson | src/discord.rs:29-38 | how serde writes that payload; characterized by PayloadIsFixed |
| Discord.RoleConnectionUrl | src/discord.rs:151-154 | the role-connection URL of the application; characterized by PayloadIsFixed |
| Discord.CurrentCredential | src/discord.rs:138-141 | the stored credential, or the refreshed one exactly when `expires_at <= now` |
| Discord.UpdateMetadataSpec | src/discord.rs:137-166 | one run of `update_metadata`; characterized by the lemmas about a run |
| Discord.MetadataRequest | src/discord.rs:143-161 | the `PUT` of the fixed payload with the given bearer; characterized by PayloadIsFixed |
| Storage.Lookup | src/storage.rs:14-26 | `get_token`; characterized by LookupMeaning |
| Storage.Upsert | src/storage.rs:28-41 | `store_token`; characterized by GetAfterStore, StoreReplacesWholesale, StoreLeavesOthers, StoreIdempotent and StoreKeys |

## Left out

- `src/server.rs`, `src/register.rs`, `src/main.rs` and `src/env.rs` are not part of this model. Configuration values are the fields of `Web.Config`, and a missing variable's panic is not modelled.
- The callbacks that compare the returned `state` with the session are not part of this model.
- Network calls, `async`, and serde's text handling are parameters. `send` answers each request, and `parseJson` turns text into a JSON value. Only the shape checks that the derived deserializers make are modelled.
- UUID generation is a `nonce` input, and `Utc::now()` is a `now` input.
- The text rendering of `URLBuilder::build` is not modelled; a URL is kept as protocol, host, routes and the ordered parameters.
- The failure of `session.insert` (a panic) is not modelled, and neither is a database error other than a missing row.
- Dsek.FromStr: a token with no `.` makes `parts[1]` panic; the model returns `Err(SegmentMissing)` instead.
- Discord.FromOAuthResponse: the i64 overflow of `now + expires_in` is not modelled (integers are unbounded); JSON numbers are integers, with `I64Field` checking the i64 range.
- Base64.Decode: which error the crate reports first when a text has several faults is not fixed across crate versions; the model checks the length first.
- serde's acceptance of a struct written as a JSON array is not modelled.
- Discord.UpdateMetadata: the concurrency of two simultaneous refreshes is not modelled.
- Error values are not the crate's or serde's: the Base64 errors name a character offset and a `char` where the crate names a byte offset and a byte, a trailing `=` is `InvalidByte` where the crate reports bad padding, and the claim an error names need not be the one serde reports. Only success versus failure, and the value on success, are modelled.
- The form-filling methods (`FillTokenForm`, `FillCodeForm`, `FillRefreshForm`) mirror the source's `HashMap` insertions; the request functions use the form functions they are proved equal to, since a function cannot call a method.

## Findings

| source | as written | input that shows it | evidently intended | confidence | as-written member | corrected member |
|---|---|---|---|---|---|---|
| src/discord.rs:117-135 | `refresh_token` decodes the refresh response straight into `OAuthCredentials`, which requires a member `expires_at` | a refresh response as section 5.1 of RFC 6749 defines it: `{"access_token":"a","token_type":"Bearer","expires_in":604800,"refresh_token":"r","scope":"…"}`; it has no `expires_at`, so decoding fails and `update_metadata` fails for every expired credential | decode the response as `OAuthResponse` and convert it with `expires_at = now + expires_in`, as `fetch_oauth_tokens` does | high, not executed | Discord.UpdateMetadataAsWrittenStuckAfterExpiry | Discord.UpdateMetadataCorrectedRefreshes |
