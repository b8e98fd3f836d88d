/** The SSO-only app. Its callback server (port 7863) exchanges the code,
    validates the session and redirects to the UI on port 7864; the UI keeps a
    two-slot browser state [session token, refresh token]. Starting the flow is
    Common.StartSsoFlow, the same code as the combined app's. */
module SsoApp {
  import opened Common
  import QueryString

  /** The UI's address, where /handle-sso sends the browser. */
  const UiUrl := "http://127.0.0.1:7864"

  // ---------------------------------------------------------------- callback server

  /** GET /handle-sso. A provider-reported error wins, then a missing code. After
      the exchange the session is validated BEFORE the tokens are checked for
      presence, so a validation failure is reported even when a token is empty.
      Every failure is a 400; the browser is redirected exactly when the exchange
      gives two non-empty jwts and validation passes. */
  function HandleSso(q: Query, exchange: Exchange, validation: Outcome): (r: Response)
    ensures r.Text? ==> r.status == 400
    ensures ProviderError(q) ==>
      r == Text("Authentication Error: " + Render(Get(q, "error_description")), 400)
    ensures !ProviderError(q) && !Truthy(Get(q, "code")) ==>
      r == Text("Error: Missing code parameter.", 400)
    ensures !ProviderError(q) && Truthy(Get(q, "code")) && ReadJwts(exchange).Thrown? ==>
      r == Text("Error: " + ReadJwts(exchange).message, 400)
    ensures !ProviderError(q) && Truthy(Get(q, "code")) && ReadJwts(exchange).Jwts? && validation.Raised? ==>
      r == Text("Error: " + validation.error.message, 400)
    ensures r.Redirect? <==>
      && !ProviderError(q) && Truthy(Get(q, "code")) && ReadJwts(exchange).Jwts? && validation == Returned
      && ReadJwts(exchange).session != "" && ReadJwts(exchange).refresh != ""
    ensures r.Redirect? ==>
      r.location == UiUrl + "/?success=true&session_token=" + ReadJwts(exchange).session
                    + "&refresh_token=" + ReadJwts(exchange).refresh
    ensures !ProviderError(q) && Truthy(Get(q, "code")) && ReadJwts(exchange).Jwts? && validation == Returned
            && !r.Redirect? ==>
      r == Text("Error: Invalid token response", 400)
  {
    if ProviderError(q) then
      Text("Authentication Error: " + Render(Get(q, "error_description")), 400)
    else if !Truthy(Get(q, "code")) then
      Text("Error: Missing code parameter.", 400)
    else match ReadJwts(exchange)
      case Thrown(msg) => Text("Error: " + msg, 400)
      case Jwts(session, refresh) =>
        match validation
        case Raised(err) => Text("Error: " + err.message, 400)
        case Returned =>
          if session == "" || refresh == "" then Text("Error: Invalid token response", 400)
          else Redirect(UiUrl + "/?success=true&session_token=" + session + "&refresh_token=" + refresh)
  }

  // ---------------------------------------------------------------- UI session state

  /** The load handler captures tokens: the query is non-empty and carries both a
      non-empty `session_token` and a non-empty `refresh_token`. */
  predicate Captures(q: Query)
  {
    |q| > 0 && Truthy(Get(q, "session_token")) && Truthy(Get(q, "refresh_token"))
  }

  /** load_stored_session: the main page exactly when the stored session token is
      not "", with "Welcome back!"; otherwise the login page with no message. */
  function LoadStoredSession(s: seq<string>): (v: View)
    requires |s| >= 1
    ensures v.mainVisible <==> s[0] != ""
    ensures v.loginVisible <==> !v.mainVisible
    ensures v.message == (if s[0] != "" then "Welcome back!" else "")
  {
    if s[0] != "" then View(false, true, "Welcome back!") else View(true, false, "")
  }

  /** What get_token_and_update_state does to a state `s` given query `q`: the
      view agrees with the state left behind; a capture writes both tokens and
      nothing else; without one the state is untouched. */
  function OnLoad(s: seq<string>, q: Query): (r: Handled<string>)
    requires |s| >= 2
    ensures |r.state| == |s| && r.state[2..] == s[2..]
    ensures r.view.mainVisible <==> r.state[0] != ""
    ensures r.view.loginVisible <==> !r.view.mainVisible
    ensures Captures(q) ==>
      r.state[..2] == [q["session_token"], q["refresh_token"]] && r.view.message == "Successfully logged in!"
    ensures !Captures(q) ==> r.state == s && r.view == LoadStoredSession(s)
  {
    if Captures(q) then
      Handled(View(false, true, "Successfully logged in!"),
              s[0 := q["session_token"]][1 := q["refresh_token"]])
    else
      Handled(LoadStoredSession(s), s)
  }

  /** get_token_and_update_state: overwrites the two slots in place, as OnLoad
      describes. */
  method GetTokenAndUpdateState(state: array<string>, q: Query) returns (v: View)
    requires state.Length >= 2
    modifies state
    ensures state[..] == OnLoad(old(state[..]), q).state
    ensures v == OnLoad(old(state[..]), q).view
  {
    if |q| > 0 {
      var sessionToken := Get(q, "session_token");
      var refreshToken := Get(q, "refresh_token");
      if Truthy(sessionToken) && Truthy(refreshToken) {
        state[0] := sessionToken.value;
        state[1] := refreshToken.value;
        v := View(false, true, "Successfully logged in!");
        return;
      }
    }
    v := LoadStoredSession(state[..]);
  }

  /** logout_user: leaves the list it is given alone and hands back a fresh
      ['', ''] to be stored instead, with the login page shown. */
  method LogoutUser(state: array<string>) returns (v: View, cleared: array<string>)
    ensures fresh(cleared) && cleared[..] == ["", ""]
    ensures v == View(true, false, "You have been logged out.")
  {
    cleared := new string[2](_ => "");
    v := View(true, false, "You have been logged out.");
  }

  // ---------------------------------------------------------------- properties

  /** Loading twice with the same query is the same as loading once. */
  lemma OnLoadIdempotent(s: seq<string>, q: Query)
    requires |s| >= 2
    ensures OnLoad(OnLoad(s, q).state, q) == OnLoad(s, q)
  {
    if Captures(q) {
      var s' := OnLoad(s, q).state;
      assert OnLoad(s', q).state == s';
    }
  }

  /** A reload without tokens after a capture restores the main page. */
  lemma ReloadKeepsSession(s: seq<string>, q: Query, reload: Query)
    requires |s| >= 2
    requires Captures(q) && !Captures(reload)
    ensures OnLoad(OnLoad(s, q).state, reload).view == View(false, true, "Welcome back!")
  {
    assert OnLoad(s, q).state[..2][0] == q["session_token"];
  }

  /** The state logout hands back shows the login page on a reload without tokens. */
  lemma ReloadAfterLogout(reload: Query)
    requires !Captures(reload)
    ensures OnLoad(["", ""], reload).view == View(true, false, "")
  {
    assert ["", ""][0] == "";
  }

  /** The sequence the UI goes through: logout, then a reload with no tokens in
      the URL, on the state logout handed back. The login page is shown and the
      old list is not written. */
  method LogoutThenReload(state: array<string>, reload: Query) returns (v: View, stored: array<string>)
    requires !Captures(reload)
    ensures fresh(stored) && stored[..] == ["", ""]
    ensures v == View(true, false, "")
  {
    var _, cleared := LogoutUser(state);
    ReloadAfterLogout(reload);
    v := GetTokenAndUpdateState(cleared, reload);
    stored := cleared;
  }

  /** The query the UI sees after /handle-sso's redirect. */
  lemma RedirectArrives(session: string, refresh: string)
    requires QueryString.Plain(session) && QueryString.Plain(refresh)
    ensures QueryString.Arrive(UiUrl + "/?success=true&session_token=" + session + "&refresh_token=" + refresh)
            == map["success" := "true", "session_token" := session, "refresh_token" := refresh]
  {
    RedirectShape(session, refresh);
    AddressHasNoMark();
    FieldsPlain();
    QueryString.ArriveThree(UiUrl + "/", "success", "true", "session_token", session, "refresh_token", refresh);
  }

  /** /handle-sso's redirect is the UI address, '?', and three `name=value` fields. */
  lemma RedirectShape(session: string, refresh: string)
    ensures UiUrl + "/?success=true&session_token=" + session + "&refresh_token=" + refresh
            == (UiUrl + "/") + "?" + ("success" + "=" + "true" + "&" + ("session_token" + "=" + session + "&" + ("refresh_token" + "=" + refresh)))
  {
    RedirectLiterals();
    QueryString.RegroupTwo(UiUrl, "/?success=true&session_token=", "/", "?", "success" + "=" + "true" + "&",
                           "session_token", "=", session, "&refresh_token=", "&", "refresh_token" + "=", refresh);
  }

  /** The fixed pieces of /handle-sso's redirect, split at the field boundaries. */
  lemma RedirectLiterals()
    ensures "/?success=true&session_token=" == "/" + "?" + ("success" + "=" + "true" + "&" + "session_token" + "=")
    ensures "&refresh_token=" == "&" + ("refresh_token" + "=")
  {
  }

  /** The UI address holds no '?', so the redirect's query starts at the one it adds. */
  lemma AddressHasNoMark()
    ensures '?' !in UiUrl + "/"
  {
  }

  /** The names and the fixed value /handle-sso puts in its redirect need no escaping. */
  lemma FieldsPlain()
    ensures QueryString.Plain("success") && QueryString.Plain("true")
    ensures QueryString.Plain("session_token") && QueryString.Plain("refresh_token")
  {
    QueryString.WordIsPlain("success");
    QueryString.WordIsPlain("true");
    QueryString.WordIsPlain("session_token");
    QueryString.WordIsPlain("refresh_token");
  }

  /** The SSO handoff: when /handle-sso redirects, the UI's load handler reading
      the redirect's query stores both jwts and shows the main page. */
  lemma Handoff(s: seq<string>, q: Query, session: string, refresh: string, validation: Outcome)
    requires |s| >= 2
    requires HandleSso(q, Exchanged(Some(session), Some(refresh)), validation).Redirect?
    requires QueryString.Plain(session) && QueryString.Plain(refresh)
    ensures var r := OnLoad(s, QueryString.Arrive(HandleSso(q, Exchanged(Some(session), Some(refresh)), validation).location));
            && r.state[..2] == [session, refresh]
            && r.view == View(false, true, "Successfully logged in!")
  {
    RedirectArrives(session, refresh);
    var arrived := map["success" := "true", "session_token" := session, "refresh_token" := refresh];
    assert "session_token" in arrived.Keys;
  }
}
