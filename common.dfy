/** Values shared by the login apps: the query arguments a request carries, Python's
    truthiness of optional strings, what a call into the identity provider's SDK may
    answer, the HTTP responses of the callback server and the page views of the UI.
    The two status functions that appear word for word in more than one app are
    defined here once. */
module Common {

  datatype Option<+T> = None | Some(value: T)

  /** The query arguments of a request (Flask's `request.args`, or the UI's
      `dict(request.query_params)`): at most one value per name. */
  type Query = map<string, string>

  /** `args.get(name)`: the value, or None when the name is absent. */
  function Get(q: Query, name: string): Option<string>
  {
    if name in q then Some(q[name]) else None
  }

  /** Python truthiness of an optional string: None and "" are both false. */
  predicate Truthy(o: Option<string>)
  {
    o.Some? && o.value != ""
  }

  /** `x if x else fallback` on an optional string. */
  function OrElse(o: Option<string>, fallback: string): string
  {
    if Truthy(o) then o.value else fallback
  }

  /** How an f-string renders an optional string: None prints as "None". */
  function Render(o: Option<string>): string
  {
    match o
    case None => "None"
    case Some(s) => s
  }

  /** An exception raised by an SDK call: the SDK's AuthException or any other
      exception. `message` is what `str(e)` (or `e.error_message`) yields. */
  datatype SdkError = AuthException(message: string) | OtherException(message: string)

  /** The answer of an SDK call whose return value the caller does not use. */
  datatype Outcome = Returned | Raised(error: SdkError)

  /** The answer of the magic-link verification: the response's `sessionToken`
      entry (None when it is absent), or the exception the call raised. */
  datatype Verification = Verified(sessionToken: Option<string>) | VerifyRaised(error: SdkError)

  /** The answer of an SSO or OAuth code exchange. `sessionToken` is None when the
      response has no "sessionToken" entry (so indexing it raises KeyError), and
      otherwise the entry's "jwt", with "" standing for a missing or empty jwt;
      likewise `refreshToken` for "refreshSessionToken". */
  datatype Exchange =
    | Exchanged(sessionToken: Option<string>, refreshToken: Option<string>)
    | ExchangeRaised(error: SdkError)

  /** The two jwts read out of an exchange, or the text of the exception raised on
      the way: the SDK's own, or the KeyError of a missing entry, which prints as
      the entry's name in quotes. */
  datatype Jwts = Jwts(session: string, refresh: string) | Thrown(message: string)

  /** `exchange_token(code)`, then `jwt_response["sessionToken"].get("jwt")`, then
      `jwt_response["refreshSessionToken"].get("jwt")`, in that order. */
  function ReadJwts(e: Exchange): (r: Jwts)
    ensures r.Jwts? <==> e.Exchanged? && e.sessionToken.Some? && e.refreshToken.Some?
    ensures r.Jwts? ==> r.session == e.sessionToken.value && r.refresh == e.refreshToken.value
    ensures e.ExchangeRaised? ==> r == Thrown(e.error.message)
    ensures e.Exchanged? && e.sessionToken.None? ==> r == Thrown("'sessionToken'")
    ensures e.Exchanged? && e.sessionToken.Some? && e.refreshToken.None? ==> r == Thrown("'refreshSessionToken'")
  {
    match e
    case ExchangeRaised(err) => Thrown(err.message)
    case Exchanged(s, rt) =>
      if s.None? then Thrown("'sessionToken'")
      else if rt.None? then Thrown("'refreshSessionToken'")
      else Jwts(s.value, rt.value)
  }

  /** What a Flask endpoint answers: a plain-text body with a status code, or a
      redirect (302) to a URL. */
  datatype Response = Text(body: string, status: int) | Redirect(location: string)

  /** A view update: `gr.update(visible=…)` of the login page and of the main page,
      and the message shown in the status box. */
  datatype View = View(loginVisible: bool, mainVisible: bool, message: string)

  /** What a load or logout handler hands back to the UI: the view update and the
      browser state to persist. */
  datatype Handled<S> = Handled(view: View, state: seq<S>)

  /** What start_sso_flow hands back: whether the tenant box is cleared
      (`gr.update(value="")` rather than `gr.update()`), and the status text. */
  datatype Started = Started(clearTenant: bool, message: string)

  /** The identity provider's callback carries an error: `error or error_description`. */
  predicate ProviderError(q: Query)
  {
    Truthy(Get(q, "error")) || Truthy(Get(q, "error_description"))
  }

  /** start_sso_flow: an empty tenant is refused before the SDK is asked; otherwise
      the SDK's answer to `sso.start` decides the status text. */
  function StartSsoFlow(tenant: string, start: Outcome): (r: Started)
    ensures tenant == "" ==> r == Started(false, "Please provide a tenant ID.")
    ensures r.clearTenant <==> tenant != "" && start == Returned
    ensures tenant != "" && start == Returned ==>
      r.message == "SSO flow started. Please continue with Okta authentication."
    ensures tenant != "" && start.Raised? && start.error.AuthException? ==>
      r.message == "Authentication Error: " + start.error.message
    ensures tenant != "" && start.Raised? && start.error.OtherException? ==>
      r.message == "Error: " + start.error.message
  {
    if tenant == "" then Started(false, "Please provide a tenant ID.")
    else match start
      case Returned => Started(true, "SSO flow started. Please continue with Okta authentication.")
      case Raised(AuthException(msg)) => Started(false, "Authentication Error: " + msg)
      case Raised(OtherException(msg)) => Started(false, "Error: " + msg)
  }

  /** send_magic_link: a confirmation naming the address, or the error text of
      whatever exception the SDK raised (both kinds are caught alike). */
  function SendMagicLink(email: string, send: Outcome): (r: string)
    ensures send == Returned ==> r == "Magic link sent to " + email + "! Please check your inbox."
    ensures send.Raised? ==> r == "Error sending magic link: " + send.error.message
  {
    match send
    case Returned => "Magic link sent to " + email + "! Please check your inbox."
    case Raised(err) => "Error sending magic link: " + err.message
  }

  /** The two texts of send_magic_link can never be confused: the status alone
      tells whether the link was sent. */
  lemma SendMagicLinkDistinguishes(email: string, send: Outcome)
    ensures SendMagicLink(email, send) == "Magic link sent to " + email + "! Please check your inbox."
            <==> send == Returned
  {
    if send.Raised? {
      var r := SendMagicLink(email, send);
      assert r[0] == 'E';
    }
  }
}
