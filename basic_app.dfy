/** The stand-alone login form: one fixed demo account, checked by a pure
    function of the two form fields. */
module BasicApp {

  const DemoEmail := "user@example.com"
  const DemoPassword := "password123"
  const Rejection := "Invalid email or password. Please try again."

  /** login: welcomes the demo account by the address typed, rejects anything
      else with one fixed text. */
  function Login(email: string, password: string): (r: string)
    ensures email == DemoEmail && password == DemoPassword ==> r == "Welcome, " + email + "!"
    ensures !(email == DemoEmail && password == DemoPassword) ==> r == Rejection
  {
    if email == DemoEmail && password == DemoPassword then
      "Welcome, " + email + "!"
    else
      Rejection
  }

  /** The welcome is given exactly when both fields match the demo account, and
      the address it names can be read back from it verbatim. */
  lemma WelcomeOnlyForDemoAccount(email: string, password: string)
    ensures Login(email, password) == "Welcome, " + email + "!"
            <==> email == DemoEmail && password == DemoPassword
    ensures Login(email, password) != Rejection ==>
      Login(email, password)[9..|Login(email, password)| - 1] == email
  {
    var welcome := "Welcome, " + email + "!";
    assert welcome[0] == 'W' && Rejection[0] == 'I';
    assert welcome[9..|welcome| - 1] == email;
  }
}
