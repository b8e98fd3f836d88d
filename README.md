# Session handoff of the Gradio/Descope login demos, in Dafny

The repository has four small apps. Three of them (`descope_gradio_app.py`,
`sso_gradio_app.py`, `magic_gradio_app.py`) share one design. Each runs a
Flask callback server that completes a login flow with the Descope SDK (magic
link, SSO or OAuth). The server then redirects the browser to the Gradio UI
with the tokens in the query string. The UI's load handler copies the tokens
into a small browser-stored list. From then on, a reload shows the main page
instead of the login page, until logout clears the list. The fourth app
(`basic_gradio_app.py`) is a plain credential check.

This project models that core:

- `Common` (common.dfy): query arguments as `map<string, string>`; Python
  truthiness of an optional string; the SDK's possible answers as input
  datatypes (`Outcome`, `Verification`, `Exchange`); responses and view
  updates. It also holds the two status functions that two apps share word for
  word. `start_sso_flow` appears in `descope_gradio_app.py:46-69` and, with
  another return URL, in `sso_gradio_app.py:26-51`; both are `StartSsoFlow`.
  `send_magic_link` appears in `descope_gradio_app.py:33-43` and
  `magic_gradio_app.py:18-28`; both are `SendMagicLink`.
- `QueryString` (query_string.dfy): how the UI reads the query of the page a
  redirect lands on. This is the only channel between the two processes. The
  module proves that parsing an encoded query string returns the pairs that
  were written.
- `DescopeApp`, `SsoApp`, `MagicApp`, `BasicApp`: one module per app. The
  callback endpoints and the flow starters are functions of the query and of
  the SDK's answer. The browser state is an `array`. Each load handler is a
  method that writes it in place and is specified by a function `OnLoad` on the
  state's value. The logout handlers state their new state directly. The
  combined and magic-link apps clear the array in place. The SSO-only app
  leaves the list it is given alone and hands back a fresh `['', '']`
  (`sso_gradio_app.py:171` binds a new list), so its `LogoutUser` returns a
  fresh array and modifies nothing. The composed properties are lemmas:
  idempotent load, reload after capture, reload after logout, and the handoff
  from a redirect to a stored session.

Details of the code that a reader may not expect:

- The SSO and OAuth callbacks test the provider's `error`/`error_description`
  before they look for `code`.
- Every SSO/OAuth failure is a 400, never a 500.
- The SSO-only app redirects with `success=true` and no `auth_type`.
- The magic-only app redirects with `token=`.
- The magic-only app's logout stores an empty dict `{}`, not `""`.
- When only `error` is present, the body reads `Authentication Error: None`.

## Model

| member | source | states |
|---|---|---|
| `Common.ReadJwts` | descope_gradio_app.py:132-135 | the exchange yields two jwts only when it returns and both entries exist; a missing "sessionToken" fails with `'sessionToken'`, then a missing "refreshSessionToken" with `'refreshSessionToken'` (the KeyError's text); an SDK exception with its own text |
| `Common.StartSsoFlow` | descope_gradio_app.py:46-69 | an empty tenant gets "Please provide a tenant ID." whatever the SDK would answer, so no SDK call is made; the tenant box is cleared exactly when the SDK call returns; AuthException and other errors get their own texts |
| `Common.SendMagicLink` | descope_gradio_app.py:33-43 | success names the address; any exception gives "Error sending magic link: <msg>" |
| `Common.SendMagicLinkDistinguishes` | magic_gradio_app.py:18-28 | the confirmation text is returned exactly when the SDK call returned |
| `QueryString.Split` | sso_gradio_app.py:102 | splitting a query string always yields at least one field, and no field holds the separator |
| `QueryString.Parse` | sso_gradio_app.py:102 | the query arguments parsed from a query string: no name or value holds an '&' |
| `QueryString.Arrive` | sso_gradio_app.py:102-104 | the arguments the load handler sees on a URL: none at all when the URL has no '?', so the handler falls through to the stored session |
| `QueryString.CollectEncode` | descope_gradio_app.py:187-191 | parsing `n1=v1&…` written from plain pairs gives back exactly those pairs, later names overwriting earlier ones |
| `QueryString.ParseEncode` | sso_gradio_app.py:102-107 | the UI's parsed query arguments of an encoded query string are the map its pairs denote |
| `QueryString.ArriveAt` | magic_gradio_app.py:66-70 | following a redirect to `prefix?n1=v1&…` shows the load handler exactly those arguments |
| `QueryString.ArriveCut` | descope_gradio_app.py:107 | following a redirect to `prefix?n=a&b` shows `n` with the value `a` and a stray argument `b` with "", since the value is not escaped |
| `BasicApp.Login` | basic_gradio_app.py:4-9 | the demo account gets "Welcome, <email>!" with the address verbatim; anything else gets the fixed rejection |
| `BasicApp.WelcomeOnlyForDemoAccount` | basic_gradio_app.py:6-9 | the welcome is returned if and only if both fields match the demo account, and the address can be read back out of it |
| `DescopeApp.StartOAuthFlow` | descope_gradio_app.py:72-89 | the confirmation text when the SDK call returns; "Authentication Error: <msg>" for an AuthException and "Error: <msg>" for any other exception |
| `DescopeApp.StartOAuthFlowDistinguishes` | descope_gradio_app.py:84-89 | the AuthException text and the other-error text are never equal, whatever the messages |
| `DescopeApp.VerifyMagicLink` | descope_gradio_app.py:92-112 | a missing or empty `t` gives 400 "Token is missing" whatever the SDK would answer; redirect if and only if a non-empty session token is verified, to `BASE_URL/?auth_type=magic&session_token=S`; an empty session token gives 400 "Authentication error: Failed to retrieve session token."; an SDK AuthException gives 400 "Authentication error: <msg>", any other exception 500 "Error verifying magic link: <msg>"; status 500 if and only if a non-auth exception occurred |
| `DescopeApp.VerifyCallback` | descope_gradio_app.py:115-147 | models `verify_sso` and, with tag "oauth", `verify_oauth` (149-183): a provider error wins with 400 and the description, then a missing code; all failures are 400; redirect if and only if both jwts are non-empty, to `BASE_URL/?auth_type=T&session_token=S&refresh_token=R`; otherwise "Invalid token response" |
| `DescopeApp.LoadStoredSession` | descope_gradio_app.py:239-253 | the main page is shown if and only if slot 0 is non-empty, welcoming the stored auth type or "unknown"; otherwise the login page with "" |
| `DescopeApp.OnLoad` | descope_gradio_app.py:185-208 | the view always matches the state it leaves (main page if and only if a token is stored); a capture writes token, refresh or "", auth type or "magic", and names that auth type; without a capture the state is unchanged and the stored session decides |
| `DescopeApp.GetTokenAndUpdateState` | descope_gradio_app.py:193-203 | the array afterwards is OnLoad's state and the view is OnLoad's view |
| `DescopeApp.LogoutUser` | descope_gradio_app.py:255-265 | slots 0-2 become "" in place, others untouched; the login page is shown with the logout message |
| `DescopeApp.OnLoadIdempotent` | descope_gradio_app.py:188-196 | loading twice with the same query gives the same state and view as loading once |
| `DescopeApp.ReloadKeepsSession` | descope_gradio_app.py:240-247 | after a capture, a reload without tokens shows the main page and welcomes back the captured auth type |
| `DescopeApp.ReloadAfterLogout` | descope_gradio_app.py:256-258 | on a cleared state, a reload without tokens shows the login page and no message |
| `DescopeApp.LogoutThenReload` | descope_gradio_app.py:255-265 | running logout and then the load handler with no token leaves the state cleared and shows the login page |
| `DescopeApp.MagicHandoff` | descope_gradio_app.py:107 | when /verify-magic redirects, the load handler on that URL stores [S, "", "magic"] and shows the main page |
| `DescopeApp.CodeHandoff` | descope_gradio_app.py:143-179 | when /verify-sso (tag "sso", line 143) or /verify-oauth (tag "oauth", line 179) redirects, the load handler on that URL stores [S, R, tag] and shows the main page |
| `DescopeApp.MagicRedirectArrives` | descope_gradio_app.py:187-191 | the load handler reads auth_type=magic and session_token back from /verify-magic's redirect |
| `DescopeApp.MagicArrivalCaptures` | descope_gradio_app.py:188-203 | on those arguments the load handler stores [S, "", "magic"], defaulting the missing refresh token, and greets "magic" |
| `DescopeApp.CodeRedirectArrives` | descope_gradio_app.py:189-191 | the load handler reads auth_type, session_token and refresh_token back from the code callbacks' redirect |
| `DescopeApp.CodeRedirectShape` | descope_gradio_app.py:143 | the code callbacks' redirect is the UI address, '?', and the fields auth_type, session_token, refresh_token in that order |
| `DescopeApp.MagicRedirectShape` | descope_gradio_app.py:107 | /verify-magic's redirect is the UI address, '?', and the fields auth_type=magic, session_token |
| `SsoApp.HandleSso` | sso_gradio_app.py:54-91 | a provider error wins, then a missing code; session validation runs before the token-presence check, so its failure is reported first; all failures are 400; redirect if and only if both jwts are non-empty and validation passes, to `http://127.0.0.1:7864/?success=true&session_token=S&refresh_token=R`; after a passed validation an empty jwt gives "Error: Invalid token response" |
| `SsoApp.LoadStoredSession` | sso_gradio_app.py:151-165 | the main page with "Welcome back!" if and only if slot 0 is not ""; otherwise the login page with "" |
| `SsoApp.OnLoad` | sso_gradio_app.py:94-128 | a capture needs both tokens and writes slots 0 and 1 only; the view matches the state it leaves; without a capture the state is unchanged |
| `SsoApp.GetTokenAndUpdateState` | sso_gradio_app.py:109-123 | the array afterwards is OnLoad's state and the view is OnLoad's view |
| `SsoApp.LogoutUser` | sso_gradio_app.py:169-182 | hands back a fresh ['', ''] and leaves the list it was given unwritten; shows the login page with the logout message |
| `SsoApp.OnLoadIdempotent` | sso_gradio_app.py:104-112 | loading twice with the same query is the same as loading once |
| `SsoApp.ReloadKeepsSession` | sso_gradio_app.py:153-159 | after a capture, a reload without tokens shows the main page with "Welcome back!" |
| `SsoApp.ReloadAfterLogout` | sso_gradio_app.py:171 | the state logout hands back shows the login page on a reload without tokens |
| `SsoApp.LogoutThenReload` | sso_gradio_app.py:169-182 | logout followed by a load with no tokens shows the login page, on a fresh ['', ''] |
| `SsoApp.RedirectArrives` | sso_gradio_app.py:106-107 | the load handler reads success, session_token and refresh_token back from /handle-sso's redirect |
| `SsoApp.RedirectShape` | sso_gradio_app.py:87 | /handle-sso's redirect is the UI address, '?', and the fields success=true, session_token, refresh_token |
| `SsoApp.Handoff` | sso_gradio_app.py:87 | when /handle-sso redirects, the load handler on that URL stores [S, R] and shows the main page |
| `MagicApp.VerifyMagicLink` | magic_gradio_app.py:31-55 | a missing or empty `t` gives 400 whatever the SDK would answer; redirect if and only if a non-empty session token is verified, to `http://127.0.0.1:7860/?token=S`; an empty token gives 400 "Authentication error: Failed to retrieve session token."; an SDK AuthException gives 400 "Authentication error: <msg>", any other exception 500 "Error verifying magic link: <msg>"; 500 if and only if a non-auth exception occurred |
| `MagicApp.LoadStoredSession` | magic_gradio_app.py:112-127 | the main page with "Welcome back!" if and only if slot 0 is truthy (a non-empty string); otherwise the login page with "" |
| `MagicApp.OnLoad` | magic_gradio_app.py:57-89 | a capture writes the token into slot 0 only; the view matches the state it leaves; without a capture the state is unchanged |
| `MagicApp.GetTokenAndUpdateState` | magic_gradio_app.py:68-83 | the array afterwards is OnLoad's state and the view is OnLoad's view |
| `MagicApp.LogoutUser` | magic_gradio_app.py:130-141 | slot 0 becomes `{}` in place, nothing else changes; the login page is shown with the logout message |
| `MagicApp.OnLoadIdempotent` | magic_gradio_app.py:68-74 | loading twice with the same query is the same as loading once |
| `MagicApp.ReloadKeepsSession` | magic_gradio_app.py:115-121 | after a capture, a reload without a token shows the main page with "Welcome back!" |
| `MagicApp.ReloadAfterLogout` | magic_gradio_app.py:132 | the `{}` logout stores is falsy: a reload without a token shows the login page |
| `MagicApp.LogoutThenReload` | magic_gradio_app.py:130-141 | logout followed by a load with no token shows the login page, never the main page |
| `MagicApp.Handoff` | magic_gradio_app.py:50 | when /verify redirects, the load handler on that URL stores the session token and shows the main page |
| `MagicApp.RedirectShape` | magic_gradio_app.py:50 | /verify's redirect is the UI address, '?', and one `token=` field |
| `MagicApp.AmpersandCutsToken` | magic_gradio_app.py:50 | a session token `a&b` reaches the UI cut short: the load handler sees `token=a` and a stray `b`, and stores `a` (nothing when `a` is empty), never the issued token |
| `MagicApp.AmpersandTokenLosesSession` | magic_gradio_app.py:66-74 | when the part after the '&' is `token`, its empty value overwrites the real one, nothing is captured and the stored state decides the page |

## Left out

- The Descope SDK is not modelled: sending links, verifying tokens, starting and exchanging SSO/OAuth, and `validate_session`. Each call is an input value holding its answer or the exception it raised. The arguments passed to it (callback URIs, the "google" provider, the delivery method) are not modelled.
- The text of an SDK exception is taken to be its message. The SDK's own `__str__` formatting is not visible here.
- The SDK's session token is taken to be a string. The real response entry may be a structure, which the source would print into the URL as is.
- The Flask server, routes, threads and `redirect()` response objects are not modelled. A redirect is its target URL.
- Races between browser tabs that share the stored state are not modelled.
- Gradio page construction, event wiring and `launch` are not modelled.
- Only two parts of `gr.update` are modelled: page visibility and the SSO tenant box being cleared.
- Logging, `print`, `.env` loading and the `PROJECT_ID` start-up check are not modelled.
- Percent-decoding and `+`-to-space in the UI's query parser are not modelled. The handoff lemmas therefore assume tokens without `& = % + #`; decoding leaves such strings unchanged, and JWTs satisfy this.
- URL fragments are not modelled.
- The `try/except` around the load handler is not modelled. The query is given as a map, so reading it cannot fail. States shorter than the source's default are excluded by `requires`. With those, every read and write the handler makes succeeds.
