/** The combined app: magic link, SSO and OAuth. A callback server on port 5000
    completes each flow and redirects the browser to the UI on port 7860 with
    the tokens in the query string; the UI's load handler captures them into a
    three-slot browser state [session token, refresh token, auth type], and the
    logout handler clears it. */
module DescopeApp {
  import opened Common
  import QueryString

  /** BASE_URL: the UI, on GRADIO_PORT 7860. */
  const BaseUrl := "http://127.0.0.1:7860"

  /** The text of the AuthException raised when verification yields no session token. */
  const NoSessionToken := "Failed to retrieve session token."

  // ---------------------------------------------------------------- flow starters

  /** start_oauth_flow: the SDK's answer to `oauth.start` decides the status text. */
  function StartOAuthFlow(start: Outcome): (r: string)
    ensures start == Returned ==> r == "OAuth flow started. Please continue with Google authentication."
    ensures start.Raised? && start.error.AuthException? ==> r == "Authentication Error: " + start.error.message
    ensures start.Raised? && start.error.OtherException? ==> r == "Error: " + start.error.message
  {
    match start
    case Returned => "OAuth flow started. Please continue with Google authentication."
    case Raised(AuthException(msg)) => "Authentication Error: " + msg
    case Raised(OtherException(msg)) => "Error: " + msg
  }

  /** The two failure texts of start_oauth_flow can never be confused: an
      AuthException reads differently from any other error, whatever the
      messages. */
  lemma StartOAuthFlowDistinguishes(e1: SdkError, e2: SdkError)
    requires e1.AuthException? && e2.OtherException?
    ensures StartOAuthFlow(Raised(e1)) != StartOAuthFlow(Raised(e2))
  {
    assert StartOAuthFlow(Raised(e1))[0] == 'A';
    assert StartOAuthFlow(Raised(e2))[0] == 'E';
  }

  // ---------------------------------------------------------------- callback server

  /** GET /verify-magic. A missing or empty `t` is refused before the SDK is
      asked; verification failures are 400 when the SDK (or the handler, on a
      missing session token) raises AuthException and 500 otherwise; a session
      token leads to the UI with auth_type=magic. */
  function VerifyMagicLink(q: Query, verify: Verification): (r: Response)
    ensures !Truthy(Get(q, "t")) ==> r == Text("Error: Token is missing from the URL", 400)
    ensures r.Redirect? <==> Truthy(Get(q, "t")) && verify.Verified? && Truthy(verify.sessionToken)
    ensures r.Redirect? ==>
      r.location == BaseUrl + "/?auth_type=magic&session_token=" + verify.sessionToken.value
    ensures Truthy(Get(q, "t")) && verify.Verified? && !Truthy(verify.sessionToken) ==>
      r == Text("Authentication error: " + NoSessionToken, 400)
    ensures Truthy(Get(q, "t")) && verify.VerifyRaised? && verify.error.AuthException? ==>
      r == Text("Authentication error: " + verify.error.message, 400)
    ensures Truthy(Get(q, "t")) && verify.VerifyRaised? && verify.error.OtherException? ==>
      r == Text("Error verifying magic link: " + verify.error.message, 500)
    ensures r.Text? ==>
      (r.status == 500 <==> Truthy(Get(q, "t")) && verify.VerifyRaised? && verify.error.OtherException?)
    ensures r.Text? ==> r.status == 400 || r.status == 500
  {
    var token := Get(q, "t");
    if !Truthy(token) then Text("Error: Token is missing from the URL", 400)
    else match verify
      case VerifyRaised(AuthException(msg)) => Text("Authentication error: " + msg, 400)
      case VerifyRaised(OtherException(msg)) => Text("Error verifying magic link: " + msg, 500)
      case Verified(session) =>
        if !Truthy(session) then Text("Authentication error: " + NoSessionToken, 400)
        else Redirect(BaseUrl + "/?auth_type=magic&session_token=" + session.value)
  }

  /** GET /verify-sso (authType "sso") and GET /verify-oauth (authType "oauth"),
      which differ only in the tag they put in the redirect. A provider-reported
      error wins over everything, then a missing code; every failure is a 400; the
      browser is redirected exactly when the exchange gives two non-empty jwts. */
  function VerifyCallback(authType: string, q: Query, exchange: Exchange): (r: Response)
    ensures r.Text? ==> r.status == 400
    ensures ProviderError(q) ==>
      r == Text("Authentication Error: " + Render(Get(q, "error_description")), 400)
    ensures !ProviderError(q) && !Truthy(Get(q, "code")) ==>
      r == Text("Error: Missing code parameter.", 400)
    ensures !ProviderError(q) && Truthy(Get(q, "code")) && ReadJwts(exchange).Thrown? ==>
      r == Text("Error: " + ReadJwts(exchange).message, 400)
    ensures r.Redirect? <==>
      !ProviderError(q) && Truthy(Get(q, "code")) && ReadJwts(exchange).Jwts?
      && ReadJwts(exchange).session != "" && ReadJwts(exchange).refresh != ""
    ensures r.Redirect? ==>
      r.location == BaseUrl + "/?auth_type=" + authType + "&session_token=" + ReadJwts(exchange).session
                    + "&refresh_token=" + ReadJwts(exchange).refresh
    ensures !ProviderError(q) && Truthy(Get(q, "code")) && ReadJwts(exchange).Jwts? && !r.Redirect? ==>
      r == Text("Error: Invalid token response", 400)
  {
    if ProviderError(q) then
      Text("Authentication Error: " + Render(Get(q, "error_description")), 400)
    else if !Truthy(Get(q, "code")) then
      Text("Error: Missing code parameter.", 400)
    else match ReadJwts(exchange)
      case Thrown(msg) => Text("Error: " + msg, 400)
      case Jwts(session, refresh) =>
        if session == "" || refresh == "" then Text("Error: Invalid token response", 400)
        else Redirect(BaseUrl + "/?auth_type=" + authType + "&session_token=" + session
                      + "&refresh_token=" + refresh)
  }

  // ---------------------------------------------------------------- UI session state

  /** The load handler captures tokens: the query is non-empty and carries a
      non-empty `session_token`. */
  predicate Captures(q: Query)
  {
    |q| > 0 && Truthy(Get(q, "session_token"))
  }

  /** load_stored_session: the main page is shown exactly when a session token is
      stored, greeting the stored auth type ("unknown" when empty); otherwise the
      login page with no message. */
  function LoadStoredSession(s: seq<string>): (v: View)
    requires |s| >= 3
    ensures v.mainVisible <==> s[0] != ""
    ensures v.loginVisible <==> !v.mainVisible
    ensures v.mainVisible ==>
      v.message == "Welcome back! (" + (if s[2] != "" then s[2] else "unknown") + " authentication)"
    ensures !v.mainVisible ==> v.message == ""
  {
    if s[0] != "" then
      View(false, true, "Welcome back! (" + (if s[2] != "" then s[2] else "unknown") + " authentication)")
    else
      View(true, false, "")
  }

  /** What get_token_and_update_state does to a state `s` given query `q`. The
      view always agrees with the state it leaves behind (main page exactly when
      a token is stored); a capture fills the three slots, defaulting the refresh
      token to "" and the auth type to "magic"; without a capture the state is
      untouched and the stored session decides. */
  function OnLoad(s: seq<string>, q: Query): (r: Handled<string>)
    requires |s| >= 3
    ensures |r.state| == |s| && r.state[3..] == s[3..]
    ensures r.view.mainVisible <==> r.state[0] != ""
    ensures r.view.loginVisible <==> !r.view.mainVisible
    ensures Captures(q) ==>
      && r.state[..3] == [q["session_token"], OrElse(Get(q, "refresh_token"), ""), OrElse(Get(q, "auth_type"), "magic")]
      && r.view.message == "Successfully logged in via " + r.state[2] + "!"
    ensures !Captures(q) ==> r.state == s && r.view == LoadStoredSession(s)
  {
    if Captures(q) then
      var s' := s[0 := q["session_token"]][1 := OrElse(Get(q, "refresh_token"), "")]
                 [2 := OrElse(Get(q, "auth_type"), "magic")];
      Handled(View(false, true, "Successfully logged in via " + s'[2] + "!"), s')
    else
      Handled(LoadStoredSession(s), s)
  }

  /** get_token_and_update_state: overwrites the slots of the browser state in
      place, as OnLoad describes. */
  method GetTokenAndUpdateState(state: array<string>, q: Query) returns (v: View)
    requires state.Length >= 3
    modifies state
    ensures state[..] == OnLoad(old(state[..]), q).state
    ensures v == OnLoad(old(state[..]), q).view
  {
    if |q| > 0 {
      var authType := Get(q, "auth_type");
      var sessionToken := Get(q, "session_token");
      var refreshToken := Get(q, "refresh_token");
      if Truthy(sessionToken) {
        state[0] := sessionToken.value;
        state[1] := if Truthy(refreshToken) then refreshToken.value else "";
        state[2] := if Truthy(authType) then authType.value else "magic";
        v := View(false, true, "Successfully logged in via " + state[2] + "!");
        return;
      }
    }
    v := LoadStoredSession(state[..]);
  }

  /** logout_user: empties the three slots in place and shows the login page. */
  method LogoutUser(state: array<string>) returns (v: View)
    requires state.Length >= 3
    modifies state
    ensures state[..3] == ["", "", ""] && state[3..] == old(state[3..])
    ensures v == View(true, false, "You have been logged out.")
  {
    state[0] := "";
    state[1] := "";
    state[2] := "";
    v := View(true, false, "You have been logged out.");
  }

  // ---------------------------------------------------------------- properties

  /** Loading twice with the same query leaves the same state and shows the same
      view as loading once. */
  lemma OnLoadIdempotent(s: seq<string>, q: Query)
    requires |s| >= 3
    ensures OnLoad(OnLoad(s, q).state, q) == OnLoad(s, q)
  {
    if Captures(q) {
      var s' := OnLoad(s, q).state;
      assert OnLoad(s', q).state == s';
    }
  }

  /** A reload without tokens after a capture restores the main page, welcoming
      back the recorded auth type (never "unknown", as a capture always records
      one). */
  lemma ReloadKeepsSession(s: seq<string>, q: Query, reload: Query)
    requires |s| >= 3
    requires Captures(q) && !Captures(reload)
    ensures OnLoad(OnLoad(s, q).state, reload).view
            == View(false, true, "Welcome back! (" + OrElse(Get(q, "auth_type"), "magic") + " authentication)")
  {
    var s' := OnLoad(s, q).state;
    assert s'[..3][2] == OrElse(Get(q, "auth_type"), "magic");
    assert s'[..3][0] == q["session_token"];
  }

  /** After logout, a reload without tokens shows the login page and no message. */
  lemma ReloadAfterLogout(s: seq<string>, reload: Query)
    requires |s| >= 3 && s[..3] == ["", "", ""]
    requires !Captures(reload)
    ensures OnLoad(s, reload).view == View(true, false, "")
  {
    assert s[0] == s[..3][0];
  }

  /** The sequence the UI goes through: logout, then a reload with no tokens in
      the URL. The login page is shown, never the main page. */
  method LogoutThenReload(state: array<string>, reload: Query) returns (v: View)
    requires state.Length >= 3 && !Captures(reload)
    modifies state
    ensures v == View(true, false, "") && state[..3] == ["", "", ""]
  {
    var _ := LogoutUser(state);
    ReloadAfterLogout(state[..], reload);
    v := GetTokenAndUpdateState(state, reload);
  }

  /** The magic-link handoff: when /verify-magic redirects, the UI's load handler
      reading the redirect's query stores the session token, no refresh token and
      auth type "magic", and shows the main page. */
  lemma MagicHandoff(s: seq<string>, q: Query, session: string)
    requires |s| >= 3
    requires VerifyMagicLink(q, Verified(Some(session))).Redirect?
    requires QueryString.Plain(session)
    ensures var r := OnLoad(s, QueryString.Arrive(VerifyMagicLink(q, Verified(Some(session))).location));
            && r.state[..3] == [session, "", "magic"]
            && r.view == View(false, true, "Successfully logged in via magic!")
  {
    var url := VerifyMagicLink(q, Verified(Some(session))).location;
    assert url == BaseUrl + "/?auth_type=magic&session_token=" + session;
    MagicRedirectArrives(session);
    var arrived := map["auth_type" := "magic", "session_token" := session];
    assert QueryString.Arrive(url) == arrived;
    MagicArrivalCaptures(s, session);
  }

  /** What the load handler makes of /verify-magic's query arguments. */
  lemma MagicArrivalCaptures(s: seq<string>, session: string)
    requires |s| >= 3 && session != ""
    ensures var r := OnLoad(s, map["auth_type" := "magic", "session_token" := session]);
            && r.state[..3] == [session, "", "magic"]
            && r.view == View(false, true, "Successfully logged in via magic!")
  {
    var arrived := map["auth_type" := "magic", "session_token" := session];
    assert "session_token" in arrived.Keys;
    assert "refresh_token" !in arrived.Keys;
  }

  /** The query the UI sees after /verify-magic's redirect. */
  lemma MagicRedirectArrives(session: string)
    requires QueryString.Plain(session)
    ensures QueryString.Arrive(BaseUrl + "/?auth_type=magic&session_token=" + session)
            == map["auth_type" := "magic", "session_token" := session]
  {
    MagicRedirectShape(session);
    AddressHasNoMark();
    FieldsPlain();
    QueryString.ArriveTwo(BaseUrl + "/", "auth_type", "magic", "session_token", session);
  }

  /** The redirect of /verify-magic is the UI address, '?', and two `name=value` fields. */
  lemma MagicRedirectShape(session: string)
    ensures BaseUrl + "/?auth_type=magic&session_token=" + session
            == (BaseUrl + "/") + "?" + ("auth_type" + "=" + "magic" + "&" + ("session_token" + "=" + session))
  {
    MagicRedirectLiteral();
    QueryString.RegroupOne(BaseUrl, "/?auth_type=magic&session_token=", "/", "?", "auth_type" + "=" + "magic" + "&",
                           "session_token", "=", session);
  }

  /** The SSO and OAuth handoff: when the code callback redirects, the UI's load
      handler reading the redirect's query stores both jwts and the callback's
      auth type, and shows the main page. */
lemma CodeHandoff(authType: string, s: seq<string>, q: Query, session: string, refresh: string)
    requires authType == "sso" || authType == "oauth"
    requires |s| >= 3
    requires VerifyCallback(authType, q, Exchanged(Some(session), Some(refresh))).Redirect?
    requires QueryString.Plain(session) && QueryString.Plain(refresh)
    ensures var r := OnLoad(s, QueryString.Arrive(VerifyCallback(authType, q, Exchanged(Some(session), Some(refresh))).location));
            && r.state[..3] == [session, refresh, authType]
            && r.view == View(false, true, "Successfully logged in via " + authType + "!")
  {
    var url := VerifyCallback(authType, q, Exchanged(Some(session), Some(refresh))).location;
    CodeRedirectArrives(authType, session, refresh);
    var arrived := QueryString.Arrive(url);
    assert "session_token" in arrived.Keys;
  }

  /** The query the UI sees after a code callback's redirect. */
  lemma CodeRedirectArrives(authType: string, session: string, refresh: string)
    requires authType == "sso" || authType == "oauth"
    requires QueryString.Plain(session) && QueryString.Plain(refresh)
    ensures QueryString.Arrive(BaseUrl + "/?auth_type=" + authType + "&session_token=" + session
                               + "&refresh_token=" + refresh)
            == map["auth_type" := authType, "session_token" := session, "refresh_token" := refresh]
  {
    CodeRedirectShape(authType, session, refresh);
    AddressHasNoMark();
    FieldsPlain();
    QueryString.ArriveThree(BaseUrl + "/", "auth_type", authType, "session_token", session, "refresh_token", refresh);
  }

  /** The redirect of a code callback is the UI address, '?', and three
      `name=value` fields. */
  lemma CodeRedirectShape(authType: string, session: string, refresh: string)
    ensures BaseUrl + "/?auth_type=" + authType + "&session_token=" + session + "&refresh_token=" + refresh
            == (BaseUrl + "/") + "?" + ("auth_type" + "=" + authType + "&" + ("session_token" + "=" + session + "&" + ("refresh_token" + "=" + refresh)))
  {
    RedirectLiterals();
    QueryString.RegroupThree(BaseUrl, "/?auth_type=", "/", "?", "auth_type" + "=", authType,
                             "&session_token=", "&", "session_token" + "=", session,
                             "&refresh_token=", "refresh_token" + "=", refresh);
  }

  /** The fixed piece of /verify-magic's redirect, split at the field boundaries. */
  lemma MagicRedirectLiteral()
    ensures "/?auth_type=magic&session_token=" == "/" + "?" + ("auth_type" + "=" + "magic" + "&" + "session_token" + "=")
  {
  }

  /** The fixed pieces of the code callbacks' redirects, split at the field boundaries. */
  lemma RedirectLiterals()
    ensures "/?auth_type=" == "/" + "?" + ("auth_type" + "=")
    ensures "&session_token=" == "&" + ("session_token" + "=")
    ensures "&refresh_token=" == "&" + ("refresh_token" + "=")
  {
  }

  /** The UI address holds no '?', so the redirect's query starts at the one it adds. */
  lemma AddressHasNoMark()
    ensures '?' !in BaseUrl + "/"
  {
  }

  /** The names and fixed values the callbacks put in their redirects need no escaping. */
  lemma FieldsPlain()
    ensures QueryString.Plain("auth_type") && QueryString.Plain("magic")
    ensures QueryString.Plain("sso") && QueryString.Plain("oauth")
    ensures QueryString.Plain("session_token") && QueryString.Plain("refresh_token")
  {
    QueryString.WordIsPlain("auth_type");
    QueryString.WordIsPlain("magic");
    QueryString.WordIsPlain("sso");
    QueryString.WordIsPlain("oauth");
    QueryString.WordIsPlain("session_token");
    QueryString.WordIsPlain("refresh_token");
  }
}
