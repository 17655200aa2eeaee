/** The login form: three checks in a fixed order, each failure showing its
    message and ending the loading state; a passing submit, or the demo
    button, logs in after a simulated delay. */
module Login {
  import opened Wrappers
  import opened Text

  const EmptyMessage := "Por favor, preencha todos os campos."
  const EmailMessage := "Por favor, insira um email válido."
  const PasswordMessage := "A senha deve ter pelo menos 6 caracteres."

  const DemoEmail := "demo@organizapro.com"
  const DemoPassword := "demo123"

  /** The message of the first failing check of `handleSubmit`, or `None`
      when the credentials pass. The fields are checked as typed, without
      trimming. */
  function LoginError(email: String, password: String): Option<String> {
    if email == [] || password == [] then Some(EmptyMessage)
    else if '@' !in email then Some(EmailMessage)
    else if |password| < 6 then Some(PasswordMessage)
    else None
  }

  /** The credentials pass exactly when both fields are filled, the email
      has an '@' and the password has at least six characters; each message
      is reported only when the checks before it passed. */
  lemma LoginErrorFacts(email: String, password: String)
    ensures LoginError(email, password).None? <==>
              email != [] && password != [] && '@' in email && |password| >= 6
    ensures LoginError(email, password) == Some(EmptyMessage) <==> email == [] || password == []
    ensures LoginError(email, password) == Some(EmailMessage) <==>
              email != [] && password != [] && '@' !in email
    ensures LoginError(email, password) == Some(PasswordMessage) <==>
              email != [] && password != [] && '@' in email && |password| < 6
  {
  }

  /** The demo credentials would pass the checks too, although the demo
      button does not run them. */
  lemma DemoCredentialsPass()
    ensures LoginError(DemoEmail, DemoPassword) == None
  {
    assert DemoEmail[4] == '@';
  }

  /** The form's state cells; `timerArmed` says the delayed `onLogin` is
      scheduled, `loggedIn` that it has run. */
  class LoginPage {
    var email: String
    var password: String
    var error: String
    var isLoading: bool
    var timerArmed: bool
    var loggedIn: bool

    constructor()
      ensures email == [] && password == [] && error == [] && !isLoading
      ensures !timerArmed && !loggedIn
    {
      email, password, error := [], [], [];
      isLoading, timerArmed, loggedIn := false, false, false;
    }

    method SetEmail(e: String)
      modifies this
      ensures email == e && password == old(password) && error == old(error)
      ensures isLoading == old(isLoading) && timerArmed == old(timerArmed) && loggedIn == old(loggedIn)
    {
      email := e;
    }

    method SetPassword(p: String)
      modifies this
      ensures password == p && email == old(email) && error == old(error)
      ensures isLoading == old(isLoading) && timerArmed == old(timerArmed) && loggedIn == old(loggedIn)
    {
      password := p;
    }

    /** `handleSubmit`: every failing check leaves its message and stops
        loading; only passing credentials arm the delayed login, with loading
        still on. `onLogin` itself is not reached here. */
    method Submit()
      modifies this
      ensures LoginError(email, password).Some? ==>
                error == LoginError(email, password).value && !isLoading && timerArmed == old(timerArmed)
      ensures LoginError(email, password).None? ==> error == [] && isLoading && timerArmed
      ensures email == old(email) && password == old(password) && loggedIn == old(loggedIn)
    {
      var e, p := email, password;
      error := [];
      isLoading := true;
      if e == [] || p == [] {
        error := EmptyMessage;
        isLoading := false;
        return;
      }
      if '@' !in e {
        error := EmailMessage;
        isLoading := false;
        return;
      }
      if |p| < 6 {
        error := PasswordMessage;
        isLoading := false;
        return;
      }
      timerArmed := true;
    }

    /** `handleDemoLogin`: fills in the demo account and arms the delayed
        login without running the checks. */
    method DemoLogin()
      modifies this
      ensures email == DemoEmail && password == DemoPassword && error == [] && isLoading && timerArmed
      ensures loggedIn == old(loggedIn)
    {
      email := DemoEmail;
      password := DemoPassword;
      error := [];
      isLoading := true;
      timerArmed := true;
    }

    /** The delay's callback: loading stops and `onLogin` runs. */
    method FireTimer()
      modifies this
      requires timerArmed
      ensures !isLoading && loggedIn && !timerArmed
      ensures email == old(email) && password == old(password) && error == old(error)
    {
      isLoading := false;
      loggedIn := true;
      timerArmed := false;
    }
  }

  /** Whatever is typed, a submit reaches `onLogin` only through the checks:
      starting from a page with no login scheduled, a submit followed by the
      timer logs in exactly when the credentials pass. */
  method SubmitThenWait(page: LoginPage) returns (loggedIn: bool)
    modifies page
    requires !page.timerArmed && !page.loggedIn
    ensures loggedIn <==> LoginError(old(page.email), old(page.password)).None?
  {
    page.Submit();
    if page.timerArmed {
      page.FireTimer();
    }
    loggedIn := page.loggedIn;
  }
}
