/** The sign-up page (ui/src/pages/SignUpPage.tsx): a two-step form. The
    credentials step checks its three fields in a fixed order and asks the
    identity provider to create the account; the confirm step checks the
    emailed code, confirms the account, signs in and goes to the chat.
    The provider's answers are parameters (`Outcome`). */
module SignUpPage {
  import opened Common

  const AllFieldsRequired := "All fields are required."
  const InvalidEmail := "Please enter a valid email address."
  const PasswordsDiffer := "Passwords do not match."
  const SignUpFallback := "Sign-up failed. Please try again."
  const CodeRequired := "Verification code is required."
  const VerificationFallback := "Verification failed. Please try again."
  const ChatPath := "/chat"

  datatype Step = Credentials | ConfirmCode

  /** The calls made to the identity provider. */
  datatype AuthCall =
    | SignUpCall(username: string, password: string, emailAttribute: string)
    | ConfirmSignUpCall(username: string, confirmationCode: string)
    | SignInCall(username: string, password: string)

  /** A call as issued, with whether the form showed itself busy meanwhile. */
  datatype Request = Request(call: AuthCall, whileLoading: bool)

  /** How a provider call ends: it resolves, or it throws, with the thrown
      error's message when what was thrown is an `Error`. */
  datatype Outcome = Succeeded | Failed(message: Option<string>)

  /** The page's state cells, the provider calls issued so far and where the
      page navigated to. */
  datatype Form = Form(
    step: Step,
    email: string,
    password: string,
    confirmPassword: string,
    code: string,
    error: Option<string>,
    loading: bool,
    calls: seq<Request>,
    navigation: Option<string>)

  const InitialForm := Form(Credentials, "", "", "", "", None, false, [], None)

  // ---------------------------------------------------------------- validation

  /** No white space and no `@` in `s[lo..hi]`: the regular expression's `[^\s@]`. */
  predicate PlainRun(s: string, lo: int, hi: int)
    requires 0 <= lo <= hi <= |s|
  {
    forall i :: lo <= i < hi ==> !IsJsWhitespace(s[i]) && s[i] != '@'
  }

  /** `/^[^\s@]+@[^\s@]+\.[^\s@]+$/.test(s)`: one `@` with something before
      it, and after it a dot with something on each side, all free of white
      space and further `@`. */
  predicate ValidEmail(s: string) {
    exists at, dot | 0 <= at < |s| && 0 <= dot < |s| ::
      && 0 < at && at + 1 < dot < |s| - 1
      && s[at] == '@' && s[dot] == '.'
      && PlainRun(s, 0, at) && PlainRun(s, at + 1, |s|)
  }

  /** The checks of `handleSignUp`, in order; the first failure's message. */
  function Validate(email: string, password: string, confirmPassword: string): (r: Option<string>)
    ensures r.None? <==> email != "" && password != "" && confirmPassword != ""
                         && ValidEmail(email) && password == confirmPassword
  {
    if email == "" || password == "" || confirmPassword == "" then Some(AllFieldsRequired)
    else if !ValidEmail(email) then Some(InvalidEmail)
    else if password != confirmPassword then Some(PasswordsDiffer)
    else None
  }

  /** Each message is given exactly when its check is the first to fail:
      empty fields are reported before a bad email, and a bad email before
      a mismatched confirmation. */
  lemma ValidateOrder(email: string, password: string, confirmPassword: string)
    ensures Validate(email, password, confirmPassword) == Some(AllFieldsRequired)
            <==> email == "" || password == "" || confirmPassword == ""
    ensures Validate(email, password, confirmPassword) == Some(InvalidEmail)
            <==> email != "" && password != "" && confirmPassword != "" && !ValidEmail(email)
    ensures Validate(email, password, confirmPassword) == Some(PasswordsDiffer)
            <==> email != "" && password != "" && confirmPassword != "" && ValidEmail(email)
                 && password != confirmPassword
  {
    assert AllFieldsRequired != InvalidEmail && AllFieldsRequired != PasswordsDiffer && InvalidEmail != PasswordsDiffer by {
      assert AllFieldsRequired[0] == 'A' && InvalidEmail[0] == 'P' && PasswordsDiffer[0] == 'P';
      assert InvalidEmail[1] == 'l' && PasswordsDiffer[1] == 'a';
    }
  }

  /** Addresses the pattern accepts and rejects. */
  lemma EmailExamples()
    ensures ValidEmail("you@example.com")
    ensures ValidEmail("a.b@c.d.e")
    ensures !ValidEmail("you@example")
    ensures !ValidEmail("@example.com")
    ensures !ValidEmail("a b@c.d")
    ensures !ValidEmail("a@b@c.d")
    ensures !ValidEmail("a@.d")
  {
    var s := "you@example.com";
    assert s[3] == '@' && s[11] == '.' && PlainRun(s, 0, 3) && PlainRun(s, 4, |s|);
    s := "a.b@c.d.e";
    assert s[3] == '@' && s[5] == '.' && PlainRun(s, 0, 3) && PlainRun(s, 4, |s|);
    s := "you@example";
    assert forall i | 0 <= i < |s| :: s[i] != '.';
    s := "@example.com";
    assert forall i | 0 < i < |s| :: s[i] != '@';
    s := "a b@c.d";
    assert IsJsWhitespace(s[1]) && forall i | 0 <= i < 3 :: s[i] != '@';
    s := "a@b@c.d";
    assert forall at | 0 < at < |s| && s[at] == '@' :: at == 1 || at == 3;
    assert s[1] == '@' && s[3] == '@';
    assert !PlainRun(s, 2, |s|) && !PlainRun(s, 0, 3);
    s := "a@.d";
    assert forall at | 0 < at < |s| && s[at] == '@' :: at == 1;
  }

  // ---------------------------------------------------------------- the two handlers

  /** `err instanceof Error ? err.message : fallback`. */
  function Message(o: Outcome, fallback: string): string
    requires o.Failed?
  {
    o.message.GetOr(fallback)
  }

  /** `handleSignUp` on the form's current fields, with `result` the
      provider's answer to the sign-up call. */
  function AfterSignUp(f: Form, result: Outcome): Form {
    match Validate(f.email, f.password, f.confirmPassword)
    case Some(m) => f.(error := Some(m))
    case None =>
      f.(step := if result.Succeeded? then ConfirmCode else f.step,
         error := if result.Succeeded? then None else Some(Message(result, SignUpFallback)),
         loading := false,
         calls := f.calls + [Request(SignUpCall(f.email, f.password, f.email), true)])
  }

  /** `handleConfirm`, with the provider's answers to the confirmation and to
      the sign-in that follows it. */
  function AfterConfirm(f: Form, confirmResult: Outcome, signInResult: Outcome): Form {
    if f.code == "" then f.(error := Some(CodeRequired))
    else
      var confirmed := f.calls + [Request(ConfirmSignUpCall(f.email, f.code), true)];
      if confirmResult.Failed? then
        f.(error := Some(Message(confirmResult, VerificationFallback)), loading := false, calls := confirmed)
      else
        var signedIn := confirmed + [Request(SignInCall(f.email, f.password), true)];
        if signInResult.Failed? then
          f.(error := Some(Message(signInResult, VerificationFallback)), loading := false, calls := signedIn)
        else
          f.(error := None, loading := false, calls := signedIn, navigation := Some(ChatPath))
  }

  /** Sign-up is attempted only when every check passes, exactly once, with
      the email as user name and as the email attribute, while the form is
      busy; a failed check changes nothing but the error. */
  lemma SignUpOnlyWhenValid(f: Form, result: Outcome)
    ensures var g := AfterSignUp(f, result);
      Validate(f.email, f.password, f.confirmPassword).Some? ==>
        g == f.(error := Validate(f.email, f.password, f.confirmPassword))
    ensures var g := AfterSignUp(f, result);
      Validate(f.email, f.password, f.confirmPassword).None? ==>
        && |g.calls| == |f.calls| + 1 && g.calls[..|f.calls|] == f.calls
        && g.calls[|f.calls|] == Request(SignUpCall(f.email, f.password, f.email), true)
        && !g.loading
  {
    var g := AfterSignUp(f, result);
    if Validate(f.email, f.password, f.confirmPassword).None? {
      assert g.calls[..|f.calls|] == f.calls;
    }
  }

  /** The step moves to the code only when the sign-up call succeeds; a
      failure keeps the step and shows the provider's message or the
      fallback. */
  lemma StepOnlyOnSuccess(f: Form, result: Outcome)
    requires f.step == Credentials
    ensures AfterSignUp(f, result).step == ConfirmCode
            <==> Validate(f.email, f.password, f.confirmPassword).None? && result.Succeeded?
    ensures Validate(f.email, f.password, f.confirmPassword).None? && result.Failed? ==>
      AfterSignUp(f, result).error == Some(result.message.GetOr(SignUpFallback))
    ensures AfterSignUp(f, result).step == ConfirmCode ==> AfterSignUp(f, result).error.None?
  {
  }

  /** Signing in happens only after the confirmation succeeded; the page
      goes to the chat exactly when both succeed; the form is never left
      busy. */
  lemma SignInOnlyAfterConfirm(f: Form, confirmResult: Outcome, signInResult: Outcome)
    requires f.navigation.None?
    ensures var g := AfterConfirm(f, confirmResult, signInResult);
      |g.calls| == |f.calls| + (if f.code == "" then 0 else if confirmResult.Failed? then 1 else 2)
    ensures var g := AfterConfirm(f, confirmResult, signInResult);
      |g.calls| == |f.calls| + 2 ==>
        g.calls[|f.calls|] == Request(ConfirmSignUpCall(f.email, f.code), true)
        && g.calls[|f.calls| + 1] == Request(SignInCall(f.email, f.password), true)
    ensures var g := AfterConfirm(f, confirmResult, signInResult);
      g.navigation == Some(ChatPath) <==> f.code != "" && confirmResult.Succeeded? && signInResult.Succeeded?
    ensures var g := AfterConfirm(f, confirmResult, signInResult);
      f.code == "" ==> g == f.(error := Some(CodeRequired))
    ensures var g := AfterConfirm(f, confirmResult, signInResult);
      f.code != "" ==> !g.loading
    ensures var g := AfterConfirm(f, confirmResult, signInResult);
      g.step == f.step
  {
  }

  // ---------------------------------------------------------------- the page's state

  /** The page's state cells, updated in place by its handlers. */
  class SignUpForm {
    var step: Step
    var email: string
    var password: string
    var confirmPassword: string
    var code: string
    var error: Option<string>
    var loading: bool
    var calls: seq<Request>
    var navigation: Option<string>

    function State(): Form
      reads this
    {
      Form(step, email, password, confirmPassword, code, error, loading, calls, navigation)
    }

    constructor ()
      ensures State() == InitialForm
    {
      step, email, password, confirmPassword, code := Credentials, "", "", "", "";
      error, loading, calls, navigation := None, false, [], None;
    }

    /** The three inputs of the credentials step. */
    method EnterCredentials(newEmail: string, newPassword: string, newConfirm: string)
      modifies this
      ensures State() == old(State()).(email := newEmail, password := newPassword, confirmPassword := newConfirm)
    {
      email, password, confirmPassword := newEmail, newPassword, newConfirm;
    }

    /** The input of the confirm step. */
    method EnterCode(newCode: string)
      modifies this
      ensures State() == old(State()).(code := newCode)
    {
      code := newCode;
    }

    /** `handleSignUp`. */
    method HandleSignUp(result: Outcome)
      modifies this
      ensures State() == AfterSignUp(old(State()), result)
    {
      if email == "" || password == "" || confirmPassword == "" {
        error := Some(AllFieldsRequired);
        return;
      }
      if !ValidEmail(email) {
        error := Some(InvalidEmail);
        return;
      }
      if password != confirmPassword {
        error := Some(PasswordsDiffer);
        return;
      }
      error := None;
      loading := true;
      calls := calls + [Request(SignUpCall(email, password, email), loading)];
      if result.Succeeded? {
        step := ConfirmCode;
      } else {
        error := Some(Message(result, SignUpFallback));
      }
      loading := false;
    }

    /** `handleConfirm`. */
    method HandleConfirm(confirmResult: Outcome, signInResult: Outcome)
      modifies this
      ensures State() == AfterConfirm(old(State()), confirmResult, signInResult)
    {
      if code == "" {
        error := Some(CodeRequired);
        return;
      }
      error := None;
      loading := true;
      calls := calls + [Request(ConfirmSignUpCall(email, code), loading)];
      if confirmResult.Succeeded? {
        calls := calls + [Request(SignInCall(email, password), loading)];
        if signInResult.Succeeded? {
          navigation := Some(ChatPath);
        } else {
          error := Some(Message(signInResult, VerificationFallback));
        }
      } else {
        error := Some(Message(confirmResult, VerificationFallback));
      }
      loading := false;
    }
  }

  /** The whole flow from a fresh page: valid credentials and a code that
      the provider accepts end on the chat with exactly the three calls. */
  lemma HappyPath(email: string, password: string, code: string)
    requires ValidEmail(email) && password != "" && code != ""
    ensures var f1 := AfterSignUp(InitialForm.(email := email, password := password, confirmPassword := password), Succeeded);
      var f2 := AfterConfirm(f1.(code := code), Succeeded, Succeeded);
      && f1.step == ConfirmCode
      && f2.navigation == Some(ChatPath) && f2.error.None? && !f2.loading
      && f2.calls == [Request(SignUpCall(email, password, email), true),
                      Request(ConfirmSignUpCall(email, code), true),
                      Request(SignInCall(email, password), true)]
  {
    assert email != [];
  }
}
