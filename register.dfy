/** The two-step registration form: the step-1 checks with their messages,
    the step machine, the avatar initials and the payload handed to the
    application. */
module Register {
  import opened Wrappers
  import opened Text

  datatype Notifications = Notifications(email: bool, push: bool, sms: bool)

  datatype UserData = UserData(
    name: String,
    email: String,
    password: String,
    phone: String,
    location: String,
    bio: String,
    occupation: String,
    dateOfBirth: String,
    company: String,
    website: String,
    language: String,
    timezone: String,
    notifications: Notifications)

  /** The form as the page opens. */
  const InitialData := UserData("", "", "", "", "", "", "", "", "", "", "pt-BR", "America/Sao_Paulo",
                                Notifications(true, true, false))

  const NameMessage := "Por favor, insira seu nome completo."
  const EmailMessage := "Por favor, insira um email válido."
  const PasswordMessage := "A senha deve ter pelo menos 6 caracteres."
  const MismatchMessage := "As senhas não coincidem."

  // ---------------------------------------------------------------------
  // Step 1 checks

  predicate NameOk(d: UserData) {
    !IsBlank(d.name)
  }

  predicate EmailOk(d: UserData) {
    !IsBlank(d.email) && '@' in d.email
  }

  predicate PasswordOk(d: UserData) {
    |d.password| >= 6
  }

  predicate ConfirmationOk(d: UserData, confirm: String) {
    d.password == confirm
  }

  /** The message of the first failing check, in the order name, email,
      password length, confirmation; `None` when all pass. */
  function Step1Error(d: UserData, confirm: String): Option<String> {
    if !NameOk(d) then Some(NameMessage)
    else if !EmailOk(d) then Some(EmailMessage)
    else if !PasswordOk(d) then Some(PasswordMessage)
    else if !ConfirmationOk(d, confirm) then Some(MismatchMessage)
    else None
  }

  /** Step 1 passes exactly when all four checks do, and a failure reports
      the earliest failing check: a later check's message only appears when
      every earlier check passes. */
  lemma Step1ErrorFacts(d: UserData, confirm: String)
    ensures Step1Error(d, confirm).None? <==>
              NameOk(d) && EmailOk(d) && PasswordOk(d) && ConfirmationOk(d, confirm)
    ensures Step1Error(d, confirm) == Some(EmailMessage) ==> NameOk(d) && !EmailOk(d)
    ensures Step1Error(d, confirm) == Some(PasswordMessage) ==> NameOk(d) && EmailOk(d) && !PasswordOk(d)
    ensures Step1Error(d, confirm) == Some(MismatchMessage) ==>
              NameOk(d) && EmailOk(d) && PasswordOk(d) && !ConfirmationOk(d, confirm)
    ensures Step1Error(d, confirm) == Some(NameMessage) <==> !NameOk(d)
  {
  }

  // ---------------------------------------------------------------------
  // Initials

  /** `getInitials`: with two or more space-separated pieces in the trimmed
      name, the upper-cased first letters of the first and the last piece;
      otherwise the first two characters of the name as typed, upper-cased. */
  function GetInitials(name: String): (r: String)
    ensures |r| <= 2
  {
    var t := Trim(name);
    var names := Split(t, ' ');
    if |names| >= 2 then
      TrimFacts(name);
      TrimmedSplitEnds(t);
      Upper([names[0][0], names[|names| - 1][0]])
    else
      Upper(name[..if |name| < 2 then |name| else 2])
  }

  /** Splitting a trimmed text with a space in it yields non-empty end pieces. */
  lemma TrimmedSplitEnds(t: String)
    requires IsTrimmed(t) && |Split(t, ' ')| >= 2
    ensures Split(t, ' ')[0] != [] && Split(t, ' ')[|Split(t, ' ')| - 1] != []
  {
    assert t != [];
    assert IsJsSpace(' ');
    SplitEnds(t, ' ');
  }

  /** For a full name of two or more words joined by single spaces, the
      initials are the first and last words' first letters, upper-cased. */
  lemma {:induction false} InitialsOfFullName(words: seq<String>)
    requires |words| >= 2
    requires forall i :: 0 <= i < |words| ==> words[i] != [] && ' ' !in words[i]
    requires IsTrimmed(Join(words, " "))
    ensures GetInitials(Join(words, " ")) == [UpperChar(words[0][0]), UpperChar(words[|words| - 1][0])]
  {
    var name := Join(words, " ");
    TrimOfTrimmed(name);
    SplitJoin(words, ' ');
    assert Split(Trim(name), ' ') == words;
    var first := [words[0][0], words[|words| - 1][0]];
    assert GetInitials(name) == Upper(first);
  }

  /** A name whose trimmed text is one word gives the first two characters
      of the name as typed, before trimming, upper-cased. */
  lemma InitialsOfOneWord(name: String)
    requires ' ' !in Trim(name)
    ensures GetInitials(name) == Upper(name[..if |name| < 2 then |name| else 2])
  {
    SplitWithoutSeparator(Trim(name), ' ');
  }

  /** So a one-word name typed after a space gives the space and the word's
      first letter: " ana" reads " A". */
  lemma InitialsOfPaddedWord(w: String)
    requires w != [] && forall i :: 0 <= i < |w| ==> !IsJsSpace(w[i])
    ensures GetInitials([' '] + w) == [' ', UpperChar(w[0])]
  {
    var name := [' '] + w;
    assert name[1..] == w;
    assert TrimStart(name) == w;
    assert TrimEnd(w) == w;
    InitialsOfOneWord(name);
    assert name[..2] == [' ', w[0]];
  }

  // ---------------------------------------------------------------------
  // The form's state machine

  /** The page's state cells; `registered` is the value handed to
      `onRegister`, once the simulated delay has run. */
  class RegisterPage {
    var step: nat
    var error: String
    var isLoading: bool
    var formData: UserData
    var confirmPassword: String
    var pending: Option<UserData>
    var registered: Option<UserData>

    constructor()
      ensures step == 1 && error == [] && !isLoading && formData == InitialData && confirmPassword == []
      ensures pending == None && registered == None
    {
      step := 1;
      error := [];
      isLoading := false;
      formData := InitialData;
      confirmPassword := [];
      pending := None;
      registered := None;
    }

    /** `updateField`: any field of the form changed, nothing else. */
    method UpdateForm(d: UserData)
      modifies this
      ensures formData == d
      ensures step == old(step) && error == old(error) && isLoading == old(isLoading)
      ensures confirmPassword == old(confirmPassword) && pending == old(pending) && registered == old(registered)
    {
      formData := d;
    }

    method SetConfirmPassword(c: String)
      modifies this
      ensures confirmPassword == c
      ensures step == old(step) && error == old(error) && isLoading == old(isLoading)
      ensures formData == old(formData) && pending == old(pending) && registered == old(registered)
    {
      confirmPassword := c;
    }

    /** `validateStep1`: the checks in order, each failure setting its
        message and returning at once. */
    method ValidateStep1() returns (ok: bool)
      modifies this
      ensures ok <==> Step1Error(formData, confirmPassword).None?
      ensures ok ==> error == old(error)
      ensures !ok ==> error == Step1Error(formData, confirmPassword).value
      ensures step == old(step) && isLoading == old(isLoading) && formData == old(formData)
      ensures confirmPassword == old(confirmPassword) && pending == old(pending) && registered == old(registered)
    {
      var d, c := formData, confirmPassword;
      ghost var expected := Step1Error(d, c);
      if IsBlank(d.name) {
        error := NameMessage;
        ok := false;
      } else if IsBlank(d.email) || '@' !in d.email {
        error := EmailMessage;
        ok := false;
      } else if |d.password| < 6 {
        error := PasswordMessage;
        ok := false;
      } else if d.password != c {
        error := MismatchMessage;
        ok := false;
      } else {
        ok := true;
      }
      assert ok <==> expected.None?;
    }

    /** `handleStep1Submit`: step 2 is reached, with no message, only when
        the checks pass; otherwise the step stays and the message shows. */
    method Step1Submit()
      modifies this
      ensures Step1Error(formData, confirmPassword).None? ==> step == 2 && error == []
      ensures Step1Error(formData, confirmPassword).Some? ==>
                step == old(step) && error == Step1Error(formData, confirmPassword).value
      ensures isLoading == old(isLoading) && formData == old(formData)
      ensures confirmPassword == old(confirmPassword) && pending == old(pending) && registered == old(registered)
    {
      error := [];
      var ok := ValidateStep1();
      if ok {
        step := 2;
      }
    }

    /** The back arrow of step 2: the entered data are kept. */
    method Back()
      modifies this
      ensures step == 1
      ensures error == old(error) && isLoading == old(isLoading) && formData == old(formData)
      ensures confirmPassword == old(confirmPassword) && pending == old(pending) && registered == old(registered)
    {
      step := 1;
    }

    /** `handleFinalSubmit`: the message clears, loading starts and the delay
        is armed with the form as it is now. */
    method FinalSubmit()
      modifies this
      ensures error == [] && isLoading && pending == Some(formData)
      ensures step == old(step) && formData == old(formData)
      ensures confirmPassword == old(confirmPassword) && registered == old(registered)
    {
      error := [];
      isLoading := true;
      pending := Some(formData);
    }

    /** The delay's callback: loading stops and the form data armed by the
        submit go to `onRegister` unchanged. */
    method FinishRegistration()
      modifies this
      requires pending.Some?
      ensures !isLoading && registered == old(pending) && pending == None
      ensures step == old(step) && error == old(error) && formData == old(formData)
      ensures confirmPassword == old(confirmPassword)
    {
      isLoading := false;
      registered := pending;
      pending := None;
    }
  }
}
