# Melhor Envio client, modelled in Dafny

A model of the Go client library for the Melhor Envio shipping API. Two parts of the library are modelled.

The **session** (client.go, auth.go) is a `Client` object that holds a configuration whose credentials change over the session's life:

- `NewClient` defaults the base URL to the sandbox.
- `injectDefaultHeaders` stamps every request with JSON media types and a User-Agent naming the application.
- `AutenticateByCode` and `RefreshToken` post an OAuth 2.0 grant to `/oauth/token`. These are the authorization-code grant of section 4.1.3 of RFC 6749 and the refresh grant of section 6 of RFC 6749.
- `parseAuthResponse` stores the new tokens and expiry, clears the pending code and tells the optional callback.
- `doRequest` sends any API request with a bearer token (section 2.1 of RFC 6750). It refreshes a token whose expiry lies strictly before now. After a 401 it refreshes once more and re-sends once, and a second 401 becomes `ErrInvalidToken`.

The **endpoints** (cart.go, cotacao.go, checkout.go, generate.go, print.go, companies.go) build a URL on the base URL and call `doRequest`. They then switch on the status code: a success payload, a typed validation error, `ErrInvalidToken`, or an "unrecognized response" error carrying status and body.

How the model is built:

- **The transport is an oracle.** `Http.Transport` logs every request it is given, as it stood at that moment. It answers with whatever its `server` function says for the n-th call.
- **Time is a parameter.** It is an integer number of seconds, `now`.
- **JSON decoding is a parameter.** It is a function from the body to `Decoded<T>`.
- **Session specification.** The session is specified by pure functions of the state before a call:
  - `Auth.AfterAuthResponse` for parsing one answer of the token endpoint;
  - `Auth.TokenExchange` for a whole grant;
  - `Session.Pipeline` (built from `RefreshFirst`, `Attempt` and `Retry`) for `doRequest`.
- **Session implementation.** The `Session.Client` methods update the object in place, step by step as the Go code does. Each is proved to end in exactly the state those functions give. That state covers four things:
  - the result;
  - the new credentials;
  - every request handed to the transport;
  - every call of the callback.
- **Endpoints.** Each endpoint is a pure status switch, `Dispatch.Respond` under that endpoint's `Policy`. Around it is a method that calls `Client.DoRequest`.

## Model

| member | source | states |
|---|---|---|
| `Session.Client.constructor` | client.go:54-65 | `NewClient` marks the client initialized and keeps the configuration, with the sandbox URL in place of an empty base URL |
| `Session.Client.Zero` | client.go:43-52 | a zero-value `Client{}` is not initialized and holds the zero configuration (empty credentials, expiry at Go's zero time) |
| `ClientConfig.WithDefaultApiUrl` | client.go:58-60 | the base URL is never empty afterwards: an empty one becomes `SandboxApiUrl`, a non-empty one is kept, and nothing else in the configuration changes |
| `ClientConfig.DefaultHeaders` | client.go:72-74 | Accept and Content-Type are "application/json" and User-Agent is `name + " (" + email + ")"`; every other header is kept and no other key is added |
| `ClientConfig.DefaultHeadersIdempotent` | client.go:67-75 | injecting the default headers twice gives the same header as injecting them once |
| `Session.Client.InjectDefaultHeaders` | client.go:67-75 | a non-nil request's header becomes `DefaultHeaders` of its old header; a nil request is left alone |
| `Auth.GrantRequest` | auth.go:47-93 | the code grant has grant_type "authorization_code" and carries the client id, secret, redirect URI and code and no refresh token (47-53); the refresh grant has grant_type "refresh_token" and carries the client id, secret and refresh token and no code or redirect URI (88-93) |
| `Auth.GrantPresentsSpent` | auth.go:47-93 | read back by its grant_type, each grant names its own kind and presents exactly the credential that kind spends: the pending code, or the refresh token |
| `Auth.TokenRequest` | auth.go:59-64 | a grant is POSTed to `ApiUrl + "/oauth/token"` whose header is exactly the default headers (Accept, Content-Type, User-Agent), so it has no Authorization header |
| `Auth.AfterAuthResponse` | auth.go:115-144 | a 200 with a decodable body replaces both tokens, sets expiry to now + expires_in, clears the code, keeps the client id and secret, and reports the callback's error (the update stays); a malformed 200 gives the decode error, 401 gives InvalidToken, any other status an unrecognized response; on every failure but the callback's the credentials are unchanged |
| `Auth.TokenExchange` | auth.go:34-113 | not initialized gives ClientNotInitialized, checked before the empty code or refresh token, which gives InvalidToken; neither sends anything and both leave the credentials unchanged; otherwise exactly one grant request is sent, a transport error leaves the credentials unchanged, and an answer is parsed as `AfterAuthResponse` says |
| `Auth.SuccessfulGrant` | auth.go:126-129 | a grant that succeeds was initialized, had a code or refresh token, got a decodable 200, and leaves credentials with the new tokens, expiry now + expires_in and no pending code |
| `Auth.RefreshRefused` | auth.go:139-140 | a refresh answered 401 fails with InvalidToken, leaves the credentials unchanged and does not call the callback |
| `Auth.RefreshWithoutRefreshToken` | auth.go:80-82 | a refresh answered 200 without a refresh token stores the empty one (auth.go:127), and the next refresh fails with InvalidToken without sending anything |
| `Session.Client.ParseAuthResponse` | auth.go:115-144 | updates the credentials field by field and calls the callback, ending exactly as `AfterAuthResponse` says |
| `Session.Client.RequestToken` | auth.go:34-113 | the guarded steps both grants share end exactly as `TokenExchange` says, including what was sent |
| `Session.Client.AutenticateByCode` | auth.go:34-73 | ends as `TokenExchange` of the authorization-code grant |
| `Session.Client.RefreshToken` | auth.go:75-113 | ends as `TokenExchange` of the refresh grant |
| `Session.WithToken` | client.go:90 | a sent request carries `Authorization: Bearer <token>`, keeps every other header entry (the default headers among them), adds no other key, and keeps its verb, URL and body |
| `Session.Retry` | client.go:98-120 | after a first 401: a failed refresh returns its error with nothing more sent; after a successful refresh the request is sent exactly once more with the new token, and a transport error gives Network, a second 401 gives InvalidToken and any other answer is returned as it is |
| `Session.Resend` | client.go:109-121 | the re-send after a 401 ends in a transport error as Network, a second 401 as InvalidToken, and any other answer as that answer |
| `Session.Attempt` | client.go:90-121 | the first send carries the stored token; a transport error is returned at once after that one send; an answer other than 401 is returned as it is; a 401 hands over to `Retry`, so one or two sends in all, and a success is never a 401 and answers the last send, which carried the token now stored |
| `Session.AttemptAfterUnauthorized` | client.go:97-121 | once the first send is answered 401: a failed refresh returns its error after that one send; otherwise the request is re-sent exactly once with the refreshed token, and the re-send's answer decides as `Resend` says |
| `Session.RefreshFirst` | client.go:83-88 | a stale token's refresh is the first thing sent; when it fails, its error is returned with the credentials it left and the request is never sent; when it succeeds, the request is the next thing sent, with the new token |
| `Session.RefreshFirstHandsOver` | client.go:83-121 | after a successful refresh of a stale token, the rest of `doRequest` is exactly `Attempt` with the refreshed credentials, started after the grant: same result, credentials, sends of the request and callback calls, with the grant sent first |
| `Session.Pipeline` | client.go:77-122 | the specification of `doRequest`: refresh first when the expiry is strictly before now, then send; it never returns a 401 as a success and sends the request at most twice, with at most four transport calls |
| `Session.PipelineGuarantees` | client.go:77-122 | `doRequest` never returns a 401 as a success; the request is sent at most twice, with at most four calls of the transport in all; a fresh token is used as stored; a stale one is refreshed first; the request goes unsent only when that refresh failed |
| `Session.FreshTokenAnswered` | client.go:83-97 | an expiry equal to or after now is not refreshed, and a first answer other than 401 is returned unchanged after a single send |
| `Session.StaleTokenRefreshFails` | client.go:83-87 | when the refresh of a stale token fails, its error is returned and the request is never sent; the transport saw at most the grant (none when the refresh is refused before sending, for instance for an empty refresh token) |
| `Session.StaleTokenRefreshedThenSent` | client.go:83-97 | a stale token refreshed successfully: the request is sent next, with the new token; a transport error or an answer other than 401 is returned as it is, after exactly the grant and that one send |
| `Session.StaleTokenSecondRefreshFails` | client.go:83-105 | a stale token refreshed, then answered 401, then refused a second refresh: that refresh's error is returned after a single send of the request and at most two grants (the second is not sent when that refresh is refused before sending, for instance for an empty refresh token stored at auth.go:127) |
| `Session.StaleTokenRetriedAfterUnauthorized` | client.go:83-121 | a stale token refreshed, answered 401 and refreshed again: the request is re-sent once with the newest token, after exactly two grants and two sends, and a second 401 is InvalidToken |
| `Session.TransportErrorNotRetried` | client.go:92-95 | a transport error on the first send is returned at once, after one call of the transport, with the credentials unchanged |
| `Session.RetriedOnceAfterUnauthorized` | client.go:98-119 | after a 401 and a successful refresh, the request is re-sent once with the new token; a second 401 becomes InvalidToken, any other answer is returned |
| `Session.RefreshAfterUnauthorizedFails` | client.go:102-105 | when the refresh after a 401 fails, its error is returned and the request is not re-sent |
| `Session.ZeroClientNotInitialized` | auth.go:75-78 | a zero-value client's token is stale, and its refresh fails with ClientNotInitialized before anything is sent |
| `Session.Client.DoRequest` | client.go:77-122 | injects the default headers, refreshes a stale token, sends, and refreshes and re-sends once after a 401, ending exactly as `Pipeline` says: result, credentials, requests sent, callback calls and the request's final header |
| `Session.Client.RefreshThenSend` | client.go:83-121 | for a stale token: refresh, return its error if it fails, then go on as `SendAuthorized`; ends as `RefreshFirst` says |
| `Session.Client.SendAuthorized` | client.go:90-121 | sets the bearer header from the stored token, sends, and retries once after a 401; ends as `Attempt` says |
| `Session.Client.RetryAfterUnauthorized` | client.go:98-120 | refreshes, re-sets the bearer header, re-sends, and turns a second 401 into InvalidToken; ends as `Retry` says |
| `Http.Transport.Do` | client.go:92 | the request as it stands is logged and the server's answer for that call is returned |
| `Http.HttpRequest.constructor` | cart.go:143 | a new request has the given verb, URL and body and an empty header |
| `Decimal.FormatNat` | companies.go:88 | the base-10 digits of a natural number: at least one digit, and no leading zero except for 0 itself |
| `Decimal.Format` | companies.go:88 | `strconv.FormatInt(n, 10)`: a leading minus exactly for negative numbers, then base-10 digits with no leading zero except for 0 itself |
| `Decimal.ValueOfFormatNat` | companies.go:88 | the digits of `n` denote `n` |
| `Decimal.ParseFormat` | companies.go:88 | parsing the base-10 rendering of any integer gives back that integer |
| `Decimal.FormatInjective` | companies.go:88 | distinct integers have distinct renderings |
| `Decimal.CanonicalIsFormatted` | companies.go:88 | the converse of `ParseFormat`: every canonical numeral is the rendering of the number it parses to, so a padded numeral such as "05" is never a rendering |
| `Decimal.NumeralIsFormatted` | companies.go:88 | a string of digits without a superfluous leading zero is the rendering of the number it denotes |
| `Dispatch.Respond` | cart.go:156-177 | the shared status switch: the payload exactly for the success status with a decodable body; a typed error exactly for a validation status with a decodable body; InvalidToken exactly for a 401 the switch handles; a decode failure gives the decoder's error or an unrecognized response, as the endpoint chooses; every other status an unrecognized response with status and body |
| `Dispatch.Handle` | cart.go:148-151 | an endpoint's outcome: an error from `doRequest` is returned unchanged; a response goes through the status switch |
| `Dispatch.UnauthorizedCaseUnreachable` | client.go:116-121 | through `doRequest` an endpoint's own 401 case is never taken: InvalidToken reaches the caller only when `doRequest` returned it |
| `Dispatch.UnrecognizedText` | cart.go:176 | the text starts with `"melhor envio: <scope>: unrecognized response: "` and ends with a space and the body |
| `Dispatch.UnrecognizedTextKeepsStatus` | cart.go:176 | two unrecognized-response texts for the same scope and body but different statuses differ |
| `Dispatch.DetailedText` | cart.go:132-134 | `Error()` of the cart, cotacao, checkout and generate validation errors: exactly `"melhor envio: <scope>: " + message + ": "` followed directly by the field messages as rendered |
| `Cart.AddResponse` | cart.go:156-177 | success only on 201 with a decodable body; a typed error only on 422 with a decodable body; InvalidToken exactly on 401; every other outcome, an undecodable 201 or 422 included, is an unrecognized response with status and body |
| `Cart.RemoveResponse` | cart.go:194-209 | success exactly on 204, whatever the body; a typed error only on 422 or 400 with a decodable body; InvalidToken exactly on 401; everything else an unrecognized response |
| `Cart.AddToCart` | cart.go:136-178 | POSTs the payload to `ApiUrl + "/api/v2/me/cart"` through `doRequest`, returns its error unchanged, and otherwise the `AddResponse` switch of its response |
| `Cart.RemoveFromCart` | cart.go:180-210 | DELETEs `ApiUrl + "/api/v2/me/cart/" + orderId` through `doRequest`, returns its error unchanged, and otherwise the `RemoveResponse` switch |
| `Cotacao.QuoteResponse` | cotacao.go:120-141 | success only on 200 with a decodable body; a typed error only on 422 with a decodable body; an undecodable 200 or 422 gives the decoder's own error; InvalidToken exactly on 401; an unrecognized response exactly for the other statuses |
| `Cotacao.CotarFrete` | cotacao.go:100-142 | POSTs the payload to `ApiUrl + "/api/v2/me/shipment/calculate"` through `doRequest`, returns its error unchanged, and otherwise the `QuoteResponse` switch |
| `Checkout.CheckoutResponse` | checkout.go:61-82 | success only on 200 with a decodable body; a typed error only on 422 with a decodable body; InvalidToken exactly on 401; every other outcome, an undecodable 200 or 422 included, is an unrecognized response |
| `Checkout.Checkout` | checkout.go:41-83 | POSTs the payload to `ApiUrl + "/api/v2/me/shipment/checkout"` through `doRequest`, returns its error unchanged, and otherwise the `CheckoutResponse` switch |
| `Generate.GenerateResponse` | generate.go:49-70 | success (a map from order id to outcome) only on 200 with a decodable body; a typed error only on 422 with a decodable body; an undecodable 200 or 422 gives the decoder's own error; InvalidToken exactly on 401; an unrecognized response exactly for the other statuses |
| `Generate.Generate` | generate.go:29-71 | POSTs the payload to `ApiUrl + "/api/v2/me/shipment/generate"` through `doRequest`, returns its error unchanged, and otherwise the `GenerateResponse` switch |
| `Print.ParseMode` | print.go:13-16 | a distinctness check on the two `Mode` constants: a string reads back as a mode only when it is that mode's wire name (Go's `Mode` itself is an open string type) |
| `Print.ParseModeName` | print.go:13-16 | the wire names "private" and "public" read back as their modes, so they are distinct |
| `Print.ErrorText` | print.go:32-34 | `PrintError.Error()` is exactly `"melhor envio: print: "` followed by the message |
| `Print.ErrorTextIgnoresFieldMessages` | print.go:32-34 | the text does not depend on the field messages |
| `Print.PrintResponse` | print.go:56-77 | success only on 200 with a decodable body; a typed error only on 422 or 400 with a decodable body; InvalidToken exactly on 401; every other outcome, an undecodable body included, is an unrecognized response |
| `Print.Print` | print.go:36-78 | POSTs the payload to `ApiUrl + "/api/v2/me/shipment/print"` through `doRequest`, returns its error unchanged, and otherwise the `PrintResponse` switch |
| `Companies.ParseType` | companies.go:18-20 | a distinctness check on the three `Type` constants: a string reads back as a service type only when it is that type's wire name (Go's `Type` itself is an open string type) |
| `Companies.ParseTypeName` | companies.go:18-20 | "normal", "express" and "economic" read back as their types, so they are distinct |
| `Companies.ServiceUrl` | companies.go:88 | the URL is `ApiUrl + "/api/v2/me/shipment/services/"` followed by exactly `strconv.FormatInt(id, 10)`, the canonical rendering, which parses back to the service id |
| `Companies.ServiceUrlInjective` | companies.go:88 | distinct service ids give distinct URLs |
| `Companies.ServiceResponse` | companies.go:102-116 | success only on 200 with a decodable body; an undecodable 200 gives the decoder's error; every other status, 401 included, is an unrecognized response in scope "service"; never InvalidToken |
| `Companies.GetServiceInfo` | companies.go:87-117 | GETs `ServiceUrl(ApiUrl, id)` through `doRequest`, returns its error unchanged, and otherwise the `ServiceResponse` switch |

## Left out

- Real HTTP is not modelled: `http.NewRequestWithContext` failures, the request context and its cancellation, and draining and closing response bodies. `NewRequestWithContext` fails on a malformed URL. It also fails on a nil context: a zero-value `Client{}` and `NewClient(nil, …)` have one. Every endpoint builds its request that way (cart.go:143, cart.go:181, cotacao.go:107, checkout.go:48, generate.go:36, print.go:43, companies.go:88), and so do the grants (auth.go:59, auth.go:99). The model takes the context to be non-nil. The transport is an oracle. A transport error is returned as an error alone, without the response Go may return beside it.
- The `httpClient` and `context` fields of `Client` are not fields of the model's `Client`. The transport is passed to each method.
- `encoding/json` is not modelled. Request payloads arrive already encoded as a string, so the encoder's own failure (for instance NaN in a float field) is not modelled. Decoding is a parameter for each body type. Whatever the real decoder does with `null`, struct tags or `omitempty`, such as `CartError` reading its field messages from the key "error", is a property of that parameter.
- The payload structs and their float64 fields are abstract type parameters `R`. This includes the duplicate `Company` declaration.
- `fmt`'s `%v` rendering of `map[string][]string` in the `Error()` methods is the parameter `render`. The status in unrecognized-response texts is rendered in base 10 by `Decimal.Format`.
- `io.ReadAll` errors on response bodies, which the source ignores, are not modelled. The body is the string the server sent.
- The mutex around the grants is concurrency; the grants are modelled as atomic methods.
- `time.Now()` is the parameter `now`, in whole seconds, one value per call. The expiry check of `doRequest` and the expiry computed by `parseAuthResponse` within the same call use that same value. Sub-second precision and `time.Duration` overflow are not modelled.
- The request body is resent unchanged on the retry after a 401. In Go a body that was already consumed may not be replayable. This is the comment at client.go:78-80, and it is not modelled.
- The credentials callback is a pure function from credentials to an optional error. Its side effects are outside the model. The `notified` log records what it was given.
- Expiry: `doRequest` refreshes only when `ExpiresAt.Before(time.Now())` (client.go:83), so a token whose expiry equals now is sent as it is. `Session.Expired` is that strict test.
- Not-initialized errors: only the two grants test `initialized` (auth.go:35-37, auth.go:76-78). `doRequest` has no test of its own and reaches one only through a refresh. A client whose token has not expired sends without it. In Go a zero-value `Client{}` never reaches that test through an endpoint, because its nil context makes the request fail to build first. The model, which takes the context to be non-nil, returns `ClientNotInitialized` from an endpoint on `Client.Zero()`. `Session.ZeroClientNotInitialized` is about `doRequest` alone.
- Callback failures: when the callback fails, `parseAuthResponse` has already stored the new credentials (auth.go:126-136) and does not restore them. `Auth.AfterAuthResponse` keeps them, and returns the callback's error.
- `error.go` only declares the two sentinel errors. They are the constructors `ClientNotInitialized` and `InvalidToken` of `Wire.Error`; their texts are not modelled.
