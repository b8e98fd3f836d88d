/** The magic-link-only app. Its callback server (port 5000) verifies the
    emailed token and redirects to the UI on port 7860 with `token=`; the UI
    keeps a one-slot browser state. Logout stores an empty dict `{}` in that slot
    rather than "", so the slot is modelled as a string or an empty dict and read
    with Python truthiness. Sending the link is Common.SendMagicLink, the same
    text as the combined app's. */
module MagicApp {
  import opened Common
  import QueryString

  /** The UI's address, where /verify sends the browser. */
  const UiUrl := "http://127.0.0.1:7860"

  /** The text of the AuthException raised when verification yields no session token. */
  const NoSessionToken := "Failed to retrieve session token."

  // ---------------------------------------------------------------- callback server

  /** GET /verify. A missing or empty `t` is refused before the SDK is asked;
      failures are 400 for AuthException (including the one raised here for a
      missing session token) and 500 for anything else; a session token leads to
      the UI with `token=`. */
  function VerifyMagicLink(q: Query, verify: Verification): (r: Response)
    ensures !Truthy(Get(q, "t")) ==> r == Text("Error: Token is missing from the URL", 400)
    ensures r.Redirect? <==> Truthy(Get(q, "t")) && verify.Verified? && Truthy(verify.sessionToken)
    ensures r.Redirect? ==> r.location == UiUrl + "/?token=" + verify.sessionToken.value
    ensures Truthy(Get(q, "t")) && verify.Verified? && !Truthy(verify.sessionToken) ==>
      r == Text("Authentication error: " + NoSessionToken, 400)
    ensures Truthy(Get(q, "t")) && verify.VerifyRaised? && verify.error.AuthException? ==>
      r == Text("Authentication error: " + verify.error.message, 400)
    ensures Truthy(Get(q, "t")) && verify.VerifyRaised? && verify.error.OtherException? ==>
      r == Text("Error verifying magic link: " + verify.error.message, 500)
    ensures r.Text? ==>
      (r.status == 500 <==> Truthy(Get(q, "t")) && verify.VerifyRaised? && verify.error.OtherException?)
    ensures r.Text? ==> r.status == 400 || r.status == 500
  {
    var token := Get(q, "t");
    if !Truthy(token) then Text("Error: Token is missing from the URL", 400)
    else match verify
      case VerifyRaised(AuthException(msg)) => Text("Authentication error: " + msg, 400)
      case VerifyRaised(OtherException(msg)) => Text("Error verifying magic link: " + msg, 500)
      case Verified(session) =>
        if !Truthy(session) then Text("Authentication error: " + NoSessionToken, 400)
        else Redirect(UiUrl + "/?token=" + session.value)
  }

  // ---------------------------------------------------------------- UI session state

  /** A slot of the browser state: a string, or the empty dict logout stores. */
  datatype Slot = Str(text: string) | EmptyDict

  /** Python truthiness of a slot: a non-empty string. */
  predicate Holds(x: Slot)
  {
    x.Str? && x.text != ""
  }

  /** The load handler captures a token: the query is non-empty and carries a
      non-empty `token`. */
  predicate Captures(q: Query)
  {
    |q| > 0 && Truthy(Get(q, "token"))
  }

  /** load_stored_session: the main page exactly when the slot is truthy, with
      "Welcome back!"; otherwise the login page with no message. */
  function LoadStoredSession(s: seq<Slot>): (v: View)
    requires |s| >= 1
    ensures v.mainVisible <==> Holds(s[0])
    ensures v.loginVisible <==> !v.mainVisible
    ensures v.message == (if Holds(s[0]) then "Welcome back!" else "")
  {
    if Holds(s[0]) then View(false, true, "Welcome back!") else View(true, false, "")
  }

  /** What get_token_and_update_state does to a state `s` given query `q`: the
      view agrees with the state left behind; a capture writes the token into the
      first slot and nothing else; without one the state is untouched. */
  function OnLoad(s: seq<Slot>, q: Query): (r: Handled<Slot>)
    requires |s| >= 1
    ensures |r.state| == |s| && r.state[1..] == s[1..]
    ensures r.view.mainVisible <==> Holds(r.state[0])
    ensures r.view.loginVisible <==> !r.view.mainVisible
    ensures Captures(q) ==> r.state[0] == Str(q["token"]) && r.view.message == "Successfully logged in!"
    ensures !Captures(q) ==> r.state == s && r.view == LoadStoredSession(s)
  {
    if Captures(q) then
      Handled(View(false, true, "Successfully logged in!"), s[0 := Str(q["token"])])
    else
      Handled(LoadStoredSession(s), s)
  }

  /** get_token_and_update_state: overwrites the first slot in place, as OnLoad
      describes. */
  method GetTokenAndUpdateState(state: array<Slot>, q: Query) returns (v: View)
    requires state.Length >= 1
    modifies state
    ensures state[..] == OnLoad(old(state[..]), q).state
    ensures v == OnLoad(old(state[..]), q).view
  {
    if |q| > 0 {
      var token := Get(q, "token");
      if Truthy(token) {
        state[0] := Str(token.value);
        v := View(false, true, "Successfully logged in!");
        return;
      }
    }
    v := LoadStoredSession(state[..]);
  }

  /** logout_user: stores `{}` in the first slot in place and shows the login page. */
  method LogoutUser(state: array<Slot>) returns (v: View)
    requires state.Length >= 1
    modifies state
    ensures state[..] == old(state[..])[0 := EmptyDict]
    ensures v == View(true, false, "You have been logged out.")
  {
    state[0] := EmptyDict;
    v := View(true, false, "You have been logged out.");
  }

  // ---------------------------------------------------------------- properties

  /** Loading twice with the same query is the same as loading once. */
  lemma OnLoadIdempotent(s: seq<Slot>, q: Query)
    requires |s| >= 1
    ensures OnLoad(OnLoad(s, q).state, q) == OnLoad(s, q)
  {
    if Captures(q) {
      var s' := OnLoad(s, q).state;
      assert OnLoad(s', q).state == s';
    }
  }

  /** A reload without a token after a capture restores the main page. */
  lemma ReloadKeepsSession(s: seq<Slot>, q: Query, reload: Query)
    requires |s| >= 1
    requires Captures(q) && !Captures(reload)
    ensures OnLoad(OnLoad(s, q).state, reload).view == View(false, true, "Welcome back!")
  {
  }

  /** The empty dict logout leaves is falsy: a reload without a token shows the
      login page. */
  lemma ReloadAfterLogout(s: seq<Slot>, reload: Query)
    requires |s| >= 1 && s[0] == EmptyDict
    requires !Captures(reload)
    ensures OnLoad(s, reload).view == View(true, false, "")
  {
  }

  /** The sequence the UI goes through: logout, then a reload with no token in
      the URL. The login page is shown, never the main page. */
  method LogoutThenReload(state: array<Slot>, reload: Query) returns (v: View)
    requires state.Length >= 1 && !Captures(reload)
    modifies state
    ensures v == View(true, false, "") && state[0] == EmptyDict
  {
    var _ := LogoutUser(state);
    ReloadAfterLogout(state[..], reload);
    v := GetTokenAndUpdateState(state, reload);
  }

  /** The magic-link handoff: when /verify redirects, the UI's load handler
      reading the redirect's query stores the session token and shows the main
      page. */
  lemma Handoff(s: seq<Slot>, q: Query, session: string)
    requires |s| >= 1
    requires VerifyMagicLink(q, Verified(Some(session))).Redirect?
    requires QueryString.Plain(session)
    ensures var r := OnLoad(s, QueryString.Arrive(VerifyMagicLink(q, Verified(Some(session))).location));
            && r.state[0] == Str(session)
            && r.view == View(false, true, "Successfully logged in!")
  {
    var pairs := [("token", session)];
    var url := VerifyMagicLink(q, Verified(Some(session))).location;
    assert url == (UiUrl + "/") + "?" + QueryString.Encode(pairs);
    assert QueryString.AllPlain(pairs);
    QueryString.ArriveAt(UiUrl + "/", pairs);
    var arrived := QueryString.Assign(map[], pairs);
    assert pairs[1..] == [];
    assert arrived == QueryString.Assign(map["token" := session], []);
    assert "token" in arrived.Keys;
  }

  /** /verify's redirect is the UI address, '?', and one `token=` field. */
  lemma RedirectShape(session: string)
    ensures UiUrl + "/?token=" + session == (UiUrl + "/") + "?" + ("token" + "=" + session)
  {
    RedirectLiterals();
    QueryString.RegroupMark(UiUrl, "/?token=", "/", "?", "token" + "=", session);
  }

  /** The fixed piece of /verify's redirect, split at the field boundary. */
  lemma RedirectLiterals()
    ensures "/?token=" == "/" + "?" + ("token" + "=")
  {
  }

  /** The UI address holds no '?', so the redirect's query starts at the one it adds. */
  lemma AddressHasNoMark()
    ensures '?' !in UiUrl + "/"
  {
  }

  /** A session token `a&b` (an '&' between two Plain parts) does not reach the
      UI whole, because /verify does not escape it: the load handler sees
      `token` with the value `a` and a stray argument `b`, and stores `a`, or,
      when `a` is empty, nothing. */
  lemma AmpersandCutsToken(s: seq<Slot>, q: Query, a: string, b: string)
    requires |s| >= 1
    requires VerifyMagicLink(q, Verified(Some(a + "&" + b))).Redirect?
    requires QueryString.Plain(a) && QueryString.Plain(b) && b != "" && b != "token"
    ensures var arrived := QueryString.Arrive(VerifyMagicLink(q, Verified(Some(a + "&" + b))).location);
            && arrived == map["token" := a, b := ""]
            && OnLoad(s, arrived).state[0] == (if a != "" then Str(a) else s[0])
  {
    RedirectShape(a + "&" + b);
    AddressHasNoMark();
    QueryString.WordIsPlain("token");
    QueryString.ArriveCut(UiUrl + "/", "token", a, b);
    var arrived := map["token" := a, b := ""];
    assert "token" in arrived.Keys;
  }

  /** When the part after the '&' is itself `token`, the stray empty argument
      overwrites the real one: nothing is captured and the stored state decides
      the page, so a fresh login shows the login page. */
  lemma AmpersandTokenLosesSession(s: seq<Slot>, q: Query, a: string)
    requires |s| >= 1
    requires VerifyMagicLink(q, Verified(Some(a + "&" + "token"))).Redirect?
    requires QueryString.Plain(a)
    ensures var arrived := QueryString.Arrive(VerifyMagicLink(q, Verified(Some(a + "&" + "token"))).location);
            && arrived == map["token" := ""]
            && OnLoad(s, arrived) == Handled(LoadStoredSession(s), s)
  {
    RedirectShape(a + "&" + "token");
    AddressHasNoMark();
    QueryString.WordIsPlain("token");
    QueryString.ArriveCut(UiUrl + "/", "token", a, "token");
    assert map["token" := a]["token" := ""] == map["token" := ""];
  }
}
