/**
 * Logging in and out of the web application.
 *
 * Login is a fixed sequence: the credentials page, the one-time code read from
 * the mailbox and typed one digit per box, then the optional "save this device"
 * prompt. Any failure along the way closes the browser and is reported as one
 * authentication error. Logout is best-effort and reports failure as `false`.
 */
module AuthFlow {
  import opened Wrappers
  import opened Common
  import opened Bridge
  import Config
  import TwoFactorMail

  const LOGIN_ERROR: string := "Error en el proceso de login"
  const TWO_FACTOR_ERROR: string := "Código de verificación inválido"
  /** The address the brokerage sends its codes from. */
  const CODE_SENDER: string := "no-reply@cocos.capital"
  const CODE_LENGTH: nat := 6

  predicate IsDigit(c: char) {
    '0' <= c <= '9'
  }

  /** A code that can be typed: exactly six digits. */
  predicate IsValidCode(code: string) {
    |code| == CODE_LENGTH && forall i :: 0 <= i < |code| ==> IsDigit(code[i])
  }

  /** The code to type, out of what the mailbox step produced; nothing when it failed, found none, or found a malformed one. */
  function UsableCode(got: Result<Option<string>, Exc>): (r: Option<string>)
    ensures r.Some? <==> got.Success? && got.value.Some? && IsValidCode(got.value.value)
    ensures r.Some? ==> r == got.value
  {
    if got.Success? && got.value.Some? && IsValidCode(got.value.value) then got.value else None
  }

  /**
   * Why a login broke: a credential step, the mailbox's own error, an unusable code
   * (a two-factor error), or a digit that could not be typed.
   */
  function LoginCause(username: string, password: string, got: Result<Option<string>, Exc>, works: Call -> bool)
    : Exc
  {
    if !AllSucceed(CredentialSteps(username, password), works) then BrowserError
    else if got.Failure? then got.error
    else if UsableCode(got).None? then TwoFactorError(TWO_FACTOR_ERROR)
    else BrowserError
  }

  /** The code the mailbox yields for a login, when it is usable. */
  function CodeFor(s: TwoFactorMail.Inbox, account: string, appPassword: string, gmailUser: string, gmailPass: string)
    : Option<string>
  {
    UsableCode(TwoFactorMail.ObtainOutcome(s, account, appPassword, gmailUser, gmailPass, CODE_SENDER))
  }

  /** Open the login page, type the credentials, submit, and wait for the code screen. */
  function CredentialSteps(username: string, password: string): seq<Call> {
    [GoTo(Config.LOGIN_URL),
     FillInput(Config.EMAIL_INPUT, username),
     FillInput(Config.PASSWORD_INPUT, password),
     ClickElement(Config.SUBMIT_BUTTON),
     WaitForElement(Config.TWO_FACTOR_CONTAINER, Config.DEFAULT_TIMEOUT)]
  }

  /** Type digit `i` of the code into box `i`. */
  function DigitSteps(code: string): (r: seq<Call>)
    ensures |r| == |code|
    ensures forall i :: 0 <= i < |code| ==> r[i] == FillInput(Config.CodeDigitInput(i), [code[i]])
  {
    seq(|code|, i requires 0 <= i < |code| => FillInput(Config.CodeDigitInput(i), [code[i]]))
  }

  /** The calls typing a usable code; none without one. */
  function CodeSteps(code: Option<string>): seq<Call> {
    if code.Some? then DigitSteps(code.value) else []
  }

  /** The browser calls of a login before the device prompt: the credentials, then the digits of a usable code. */
  function LoginBody(username: string, password: string, code: Option<string>): seq<Call> {
    CredentialSteps(username, password) + CodeSteps(code)
  }

  predicate LoginSucceeds(username: string, password: string, code: Option<string>, works: Call -> bool) {
    code.Some? && AllSucceed(LoginBody(username, password, code), works)
  }

  /** The calls of a login: its body as far as it gets, then the device prompt on success or closing the browser on failure. */
  function LoginTrace(username: string, password: string, code: Option<string>, works: Call -> bool): seq<Call> {
    Run(LoginBody(username, password, code), works)
    + (if LoginSucceeds(username, password, code, works) then [ClickElement(Config.SAVE_DEVICE_BUTTON)] else [CloseBrowser])
  }

  /** The calls of a login before any closing: its body as far as it gets, then the device prompt on success. */
  function AuthenticateTrace(username: string, password: string, code: Option<string>, works: Call -> bool)
    : seq<Call>
  {
    Run(LoginBody(username, password, code), works)
    + (if LoginSucceeds(username, password, code, works) then [ClickElement(Config.SAVE_DEVICE_BUTTON)] else [])
  }

  /**
   * The calls of a login before any closing, split where its credentials end: a broken
   * credential step ends them; otherwise the digits come next, then the device prompt
   * on success.
   */
  lemma AuthenticateTraceParts(username: string, password: string, code: Option<string>, works: Call -> bool)
    ensures !AllSucceed(CredentialSteps(username, password), works) ==>
              !LoginSucceeds(username, password, code, works)
              && AuthenticateTrace(username, password, code, works) == Run(CredentialSteps(username, password), works)
    ensures AllSucceed(CredentialSteps(username, password), works) ==>
              LoginSucceeds(username, password, code, works) == (code.Some? && AllSucceed(CodeSteps(code), works))
              && AuthenticateTrace(username, password, code, works)
                 == CredentialSteps(username, password)
                    + (Run(CodeSteps(code), works)
                       + if LoginSucceeds(username, password, code, works) then [ClickElement(Config.SAVE_DEVICE_BUTTON)]
                         else [])
  {
    var cred, tail := CredentialSteps(username, password), CodeSteps(code);
    RunConcat(cred, tail, works);
    var last := if LoginSucceeds(username, password, code, works) then [ClickElement(Config.SAVE_DEVICE_BUTTON)]
                else [];
    Associative(cred, Run(tail, works), last);
    if !AllSucceed(cred, works) {
      assert Run(cred, works) + [] == Run(cred, works);
    }
  }

  /** A login's calls are those before any closing, followed by the closing exactly when the login failed. */
  lemma LoginTraceCloses(username: string, password: string, code: Option<string>, works: Call -> bool)
    ensures LoginTrace(username, password, code, works)
            == AuthenticateTrace(username, password, code, works)
               + (if LoginSucceeds(username, password, code, works) then [] else [CloseBrowser])
  {
  }

  /**
   * A login's calls, split where its credentials end: a broken credential step is
   * followed by closing the browser; otherwise the digits come next, and then the
   * device prompt or closing the browser.
   */
  lemma LoginTraceParts(username: string, password: string, code: Option<string>, works: Call -> bool)
    ensures !AllSucceed(CredentialSteps(username, password), works) ==>
              !LoginSucceeds(username, password, code, works)
              && LoginTrace(username, password, code, works) == Run(CredentialSteps(username, password), works) + [CloseBrowser]
    ensures AllSucceed(CredentialSteps(username, password), works) ==>
              LoginSucceeds(username, password, code, works) == (code.Some? && AllSucceed(CodeSteps(code), works))
              && LoginTrace(username, password, code, works)
                 == CredentialSteps(username, password)
                    + (Run(CodeSteps(code), works)
                       + if LoginSucceeds(username, password, code, works) then [ClickElement(Config.SAVE_DEVICE_BUTTON)]
                         else [CloseBrowser])
  {
    var cred, tail := CredentialSteps(username, password), CodeSteps(code);
    RunConcat(cred, tail, works);
    var last := if LoginSucceeds(username, password, code, works) then [ClickElement(Config.SAVE_DEVICE_BUTTON)]
                else [CloseBrowser];
    Associative(cred, Run(tail, works), last);
  }

  /** The operations closing the browser issues: none when it was closed already or is not closed. */
  function ClosingOps(wasClosed: bool, closes: bool): seq<Op> {
    if wasClosed || !closes then [] else [ShutBrowser, StopDriver]
  }

  /** Navigate home, click the logout icon, and wait for the login form to come back. */
  function LogoutSteps(): seq<Call> {
    [GoTo(Config.DASHBOARD_URL), ClickElement(Config.LOGOUT_ICON),
     WaitForElement(Config.EMAIL_INPUT, Config.DEFAULT_TIMEOUT)]
  }

  /** Every call of a script goes through `m`, so it counts them all. */
  lemma {:induction false} CallCountAll(cs: seq<Call>, m: Method)
    requires forall i :: 0 <= i < |cs| ==> MethodOf(cs[i]) == m
    ensures CallCount(cs, m) == |cs|
    decreases |cs|
  {
    if cs != [] {
      CallCountAll(cs[1..], m);
    }
  }

  lemma CredentialCounts(username: string, password: string)
    ensures CallCount(CredentialSteps(username, password), GoToMethod) == 1
    ensures CallCount(CredentialSteps(username, password), FillMethod) == 2
    ensures CallCount(CredentialSteps(username, password), ClickMethod) == 1
    ensures CallCount(CredentialSteps(username, password), CloseMethod) == 0
  {
    CredentialShapeCounts(Config.LOGIN_URL, Config.EMAIL_INPUT, username, Config.PASSWORD_INPUT, password,
                          Config.SUBMIT_BUTTON, Config.TWO_FACTOR_CONTAINER, Config.DEFAULT_TIMEOUT);
  }

  /** Counts over a navigation, two fills, a click and a wait, whatever the selectors and values. */
  lemma CredentialShapeCounts(url: string, email: string, username: string, pass: string, password: string,
                              submit: string, container: string, timeout: int)
    ensures var cs := [GoTo(url), FillInput(email, username), FillInput(pass, password), ClickElement(submit),
                       WaitForElement(container, timeout)];
            CallCount(cs, GoToMethod) == 1 && CallCount(cs, FillMethod) == 2
            && CallCount(cs, ClickMethod) == 1 && CallCount(cs, CloseMethod) == 0
  {
    var cs := [GoTo(url), FillInput(email, username), FillInput(pass, password), ClickElement(submit),
               WaitForElement(container, timeout)];
    forall m: Method
      ensures CallCount(cs, m) == Tally(cs[0], m) + Tally(cs[1], m) + Tally(cs[2], m) + Tally(cs[3], m) + Tally(cs[4], m)
    {
      CountFiveCalls(cs[0], cs[1], cs[2], cs[3], cs[4], m);
    }
  }

  /**
   * A successful login navigates once, fills eight boxes (two credentials and six
   * digits), never closes the browser, and ends on the device prompt.
   */
  lemma LoginSuccessShape(username: string, password: string, code: Option<string>, works: Call -> bool)
    requires LoginSucceeds(username, password, code, works)
    requires IsValidCode(code.value)
    ensures var t := LoginTrace(username, password, code, works);
            t == CredentialSteps(username, password) + DigitSteps(code.value) + [ClickElement(Config.SAVE_DEVICE_BUTTON)]
            && CallCount(t, GoToMethod) == 1 && CallCount(t, FillMethod) == 8
            && CallCount(t, CloseMethod) == 0 && CallCount(t, ClickMethod) == 2
  {
    var cred := CredentialSteps(username, password);
    var digits := DigitSteps(code.value);
    var save := [ClickElement(Config.SAVE_DEVICE_BUTTON)];
    CredentialCounts(username, password);
    CallCountAll(digits, FillMethod);
    forall m | m != FillMethod ensures CallCount(digits, m) == 0 {
      CallCountZero(digits, m);
    }
    CallCountConcat(cred + digits, save, GoToMethod);
    CallCountConcat(cred, digits, GoToMethod);
    CallCountConcat(cred + digits, save, FillMethod);
    CallCountConcat(cred, digits, FillMethod);
    CallCountConcat(cred + digits, save, CloseMethod);
    CallCountConcat(cred, digits, CloseMethod);
    CallCountConcat(cred + digits, save, ClickMethod);
    CallCountConcat(cred, digits, ClickMethod);
  }

  /** The body of a login never closes the browser. */
  lemma BodyNeverCloses(username: string, password: string, code: Option<string>)
    ensures CallCount(LoginBody(username, password, code), CloseMethod) == 0
  {
    var cred, digits := CredentialSteps(username, password), CodeSteps(code);
    CredentialCounts(username, password);
    forall i | 0 <= i < |digits| ensures MethodOf(digits[i]) != CloseMethod {
      assert digits[i].FillInput?;
    }
    CallCountZero(digits, CloseMethod);
    CallCountConcat(cred, digits, CloseMethod);
  }

  /** A failed login closes the browser exactly once, as its last call. */
  lemma LoginFailureCloses(username: string, password: string, code: Option<string>, works: Call -> bool)
    requires !LoginSucceeds(username, password, code, works)
    ensures var t := LoginTrace(username, password, code, works);
            t != [] && t[|t| - 1] == CloseBrowser && CallCount(t, CloseMethod) == 1
  {
    var body := LoginBody(username, password, code);
    BodyNeverCloses(username, password, code);
    assert LoginTrace(username, password, code, works) == Run(body, works) + [CloseBrowser];
    ClosesOnce(Run(body, works), body);
  }

  /** Closing the browser after part of a script that never closes it closes it once, last. */
  lemma ClosesOnce(made: seq<Call>, body: seq<Call>)
    requires made <= body && CallCount(body, CloseMethod) == 0
    ensures var t := made + [CloseBrowser];
            t[|t| - 1] == CloseBrowser && CallCount(t, CloseMethod) == 1
  {
    CallCountPrefix(made, body, CloseMethod);
    CallCountConcat(made, [CloseBrowser], CloseMethod);
  }

  /** Without a usable code no digit is typed: the credentials are followed directly by closing the browser. */
  lemma BadCodeTypesNoDigit(username: string, password: string, works: Call -> bool)
    requires AllSucceed(CredentialSteps(username, password), works)
    ensures LoginTrace(username, password, None, works) == CredentialSteps(username, password) + [CloseBrowser]
  {
    assert LoginBody(username, password, None) == CredentialSteps(username, password);
  }

  /** When opening the login page fails, nothing else is tried before the browser is closed. */
  lemma NavigationFailureCloses(username: string, password: string, code: Option<string>, works: Call -> bool)
    requires !works(GoTo(Config.LOGIN_URL))
    ensures LoginTrace(username, password, code, works) == [GoTo(Config.LOGIN_URL), CloseBrowser]
  {
    var body := LoginBody(username, password, code);
    assert body[0] == GoTo(Config.LOGIN_URL);
    assert [body[0]] <= body;
  }

  /** A successful logout makes one navigation, one click and one wait; a failed navigation ends it there. */
  lemma LogoutShape(works: Call -> bool)
    ensures AllSucceed(LogoutSteps(), works) ==>
              CallCount(Run(LogoutSteps(), works), GoToMethod) == 1
              && CallCount(Run(LogoutSteps(), works), ClickMethod) == 1
              && CallCount(Run(LogoutSteps(), works), WaitMethod) == 1
    ensures !works(GoTo(Config.DASHBOARD_URL)) ==>
              Run(LogoutSteps(), works) == [GoTo(Config.DASHBOARD_URL)] && !AllSucceed(LogoutSteps(), works)
  {
    var cs := LogoutSteps();
    forall m: Method ensures CallCount(cs, m) == Tally(cs[0], m) + Tally(cs[1], m) + Tally(cs[2], m) {
      CountThreeCalls(cs[0], cs[1], cs[2], m);
    }
    assert cs == [cs[0]] + cs[1..];
  }

  class AuthService {
    const browser: Browser

    constructor (browser: Browser)
      ensures this.browser == browser
    {
      this.browser := browser;
    }

    /** Opens the login page, types the credentials, submits them and waits for the code screen. */
    method EnterCredentials(username: string, password: string) returns (ok: bool)
      modifies browser
      ensures browser.Ran(CredentialSteps(username, password))
      ensures ok == AllSucceed(CredentialSteps(username, password), Works(browser.fails))
    {
      ok := browser.Execute(CredentialSteps(username, password));
    }

    /**
     * Reads the code from the mailbox and types it, one digit per box. A mailbox error is
     * passed on; a missing or malformed code is a two-factor error, and no digit is typed.
     */
    method HandleTwoFactor(box: TwoFactorMail.Mailbox, gmailUser: string, gmailPass: string)
      returns (r: Result<(), Exc>)
      requires box.Valid()
      modifies browser, box
      ensures box.Valid()
      ensures box.Contents() ==
                TwoFactorMail.ObtainAfter(old(box.Contents()), box.account, box.appPassword, gmailUser, gmailPass, CODE_SENDER)
      ensures box.log == old(box.log) +
                TwoFactorMail.ObtainLog(old(box.Contents()), box.account, box.appPassword, gmailUser, gmailPass, CODE_SENDER)
      ensures var got := TwoFactorMail.ObtainOutcome(old(box.Contents()), box.account, box.appPassword,
                                                     gmailUser, gmailPass, CODE_SENDER);
              (UsableCode(got).None? ==>
                 r == Failure(if got.Failure? then got.error else TwoFactorError(TWO_FACTOR_ERROR)))
              && (UsableCode(got).Some? && r.Failure? ==> r.error == BrowserError)
      ensures var code := CodeFor(old(box.Contents()), box.account, box.appPassword, gmailUser, gmailPass);
              browser.Ran(CodeSteps(code))
              && (r.Success? <==> code.Some? && AllSucceed(CodeSteps(code), Works(browser.fails)))
    {
      var got := TwoFactorMail.ObtainCode(box, gmailUser, gmailPass, CODE_SENDER);
      if got.Failure? || got.value.None? || !IsValidCode(got.value.value) {
        assert browser.trace == old(browser.trace) + Run([], Works(browser.fails));
        assert browser.ops == old(browser.ops) + Issued(Run([], Works(browser.fails)), browser.fails);
        return Failure(if got.Failure? then got.error else TwoFactorError(TWO_FACTOR_ERROR));
      }
      var ok := TypeCode(got.value.value);
      r := if ok then Success(()) else Failure(BrowserError);
    }

    /** Types `code` one digit per box, stopping at the first box that cannot be filled. */
    method TypeCode(code: string) returns (ok: bool)
      modifies browser
      ensures browser.Ran(DigitSteps(code))
      ensures ok == AllSucceed(DigitSteps(code), Works(browser.fails))
    {
      ghost var S := DigitSteps(code);
      ghost var t0, o0 := browser.trace, browser.ops;
      ok := true;
      var i := 0;
      while ok && i < |code|
        invariant 0 <= i <= |code|
        invariant browser.Reached(t0, o0, S, i, ok)
        invariant browser.closed == old(browser.closed)
        modifies browser
      {
        ghost var t1, o1 := browser.trace, browser.ops;
        ok := browser.FillInput(Config.CodeDigitInput(i), [code[i]]);
        browser.Advance(t0, o0, S, i, t1, o1, ok);
        i := i + 1;
      }
      browser.Conclude(t0, o0, S, i, ok);
    }

    /** Clicks the "save this device" button; its absence or any failure is ignored. */
    method HandleSaveDevicePrompt()
      modifies browser
      ensures browser.Ran([ClickElement(Config.SAVE_DEVICE_BUTTON)])
    {
      var _ := browser.ClickElement(Config.SAVE_DEVICE_BUTTON);
      RunSingle(ClickElement(Config.SAVE_DEVICE_BUTTON), Works(browser.fails));
      IssuedSingle(ClickElement(Config.SAVE_DEVICE_BUTTON), browser.fails);
    }

    /**
     * The steps of a login that may raise: credentials, the code from the mailbox, then
     * the device prompt. A failure reports its cause and leaves the browser open.
     */
    method Authenticate(username: string, password: string, gmailUser: string, gmailPass: string,
                        box: TwoFactorMail.Mailbox)
      returns (r: Result<(), Exc>)
      requires box.Valid()
      modifies browser, box
      ensures var code := CodeFor(old(box.Contents()), box.account, box.appPassword, gmailUser, gmailPass);
              var made := AuthenticateTrace(username, password, code, Works(browser.fails));
              browser.trace == old(browser.trace) + made
              && browser.ops == old(browser.ops) + Issued(made, browser.fails)
              && browser.closed == old(browser.closed)
              && (r.Success? <==> LoginSucceeds(username, password, code, Works(browser.fails)))
      ensures r.Failure? ==>
                r.error == LoginCause(username, password,
                                      TwoFactorMail.ObtainOutcome(old(box.Contents()), box.account, box.appPassword,
                                                                  gmailUser, gmailPass, CODE_SENDER),
                                      Works(browser.fails))
      ensures box.Valid()
      ensures AllSucceed(CredentialSteps(username, password), Works(browser.fails)) ==>
                box.Contents() == TwoFactorMail.ObtainAfter(old(box.Contents()), box.account, box.appPassword,
                                                            gmailUser, gmailPass, CODE_SENDER)
                && box.log == old(box.log) + TwoFactorMail.ObtainLog(old(box.Contents()), box.account, box.appPassword,
                                                                     gmailUser, gmailPass, CODE_SENDER)
      ensures !AllSucceed(CredentialSteps(username, password), Works(browser.fails)) ==>
                box.Contents() == old(box.Contents()) && box.log == old(box.log)
    {
      ghost var code := CodeFor(box.Contents(), box.account, box.appPassword, gmailUser, gmailPass);
      ghost var cred := CredentialSteps(username, password);
      ghost var works := Works(browser.fails);
      ghost var fails := browser.fails;
      ghost var t0, o0 := browser.trace, browser.ops;
      ghost var got := TwoFactorMail.ObtainOutcome(box.Contents(), box.account, box.appPassword,
                                                   gmailUser, gmailPass, CODE_SENDER);
      AuthenticateTraceParts(username, password, code, works);
      var ok := EnterCredentials(username, password);
      if !ok {
        assert LoginCause(username, password, got, works) == BrowserError;
        return Failure(BrowserError);
      }
      var twoFactor := HandleTwoFactor(box, gmailUser, gmailPass);
      ghost var typed := Run(CodeSteps(code), works);
      if twoFactor.Failure? {
        assert AuthenticateTrace(username, password, code, works) == cred + typed by {
          assert typed + [] == typed;
        }
        Associative(t0, cred, typed);
        IssuedConcat(cred, typed, fails);
        Associative(o0, Issued(cred, fails), Issued(typed, fails));
        assert twoFactor.error == LoginCause(username, password, got, works);
        return twoFactor;
      }
      HandleSaveDevicePrompt();
      RunSingle(ClickElement(Config.SAVE_DEVICE_BUTTON), works);
      Regroup(t0, cred, typed, [ClickElement(Config.SAVE_DEVICE_BUTTON)]);
      IssuedRegroup(o0, cred, typed, [ClickElement(Config.SAVE_DEVICE_BUTTON)], fails);
      r := Success(());
    }

    /**
     * Logs in: credentials, the code from the mailbox, then the device prompt. Any
     * failure closes the browser and raises one authentication error.
     */
    method Login(username: string, password: string, gmailUser: string, gmailPass: string,
                 box: TwoFactorMail.Mailbox)
      returns (r: Result<bool, Exc>)
      requires box.Valid()
      modifies browser, box
      ensures var code := CodeFor(old(box.Contents()), box.account, box.appPassword, gmailUser, gmailPass);
              browser.trace == old(browser.trace) + LoginTrace(username, password, code, Works(browser.fails))
              && browser.closed == (old(browser.closed) || !LoginSucceeds(username, password, code, Works(browser.fails)))
              && r == if LoginSucceeds(username, password, code, Works(browser.fails)) then Success(true)
                      else Failure(AuthenticationError(Wrap(LOGIN_ERROR,
                             LoginCause(username, password,
                                        TwoFactorMail.ObtainOutcome(old(box.Contents()), box.account, box.appPassword,
                                                                    gmailUser, gmailPass, CODE_SENDER),
                                        Works(browser.fails)))))
      ensures var code := CodeFor(old(box.Contents()), box.account, box.appPassword, gmailUser, gmailPass);
              browser.ops == old(browser.ops) + Issued(LoginTrace(username, password, code, Works(browser.fails)), browser.fails)
                             + ClosingOps(old(browser.closed), !LoginSucceeds(username, password, code, Works(browser.fails)))
      ensures r.Failure? ==> IsAuthenticationError(r.error) && LOGIN_ERROR <= Message(r.error)
      ensures box.Valid()
      ensures AllSucceed(CredentialSteps(username, password), Works(browser.fails)) ==>
                box.Contents() == TwoFactorMail.ObtainAfter(old(box.Contents()), box.account, box.appPassword,
                                                            gmailUser, gmailPass, CODE_SENDER)
                && box.log == old(box.log) + TwoFactorMail.ObtainLog(old(box.Contents()), box.account, box.appPassword,
                                                                     gmailUser, gmailPass, CODE_SENDER)
      ensures !AllSucceed(CredentialSteps(username, password), Works(browser.fails)) ==>
                box.Contents() == old(box.Contents()) && box.log == old(box.log)
    {
      ghost var code := CodeFor(box.Contents(), box.account, box.appPassword, gmailUser, gmailPass);
      ghost var works := Works(browser.fails);
      ghost var made := AuthenticateTrace(username, password, code, works);
      ghost var t0, o0, c0 := browser.trace, browser.ops, browser.closed;
      LoginTraceCloses(username, password, code, works);
      var attempt := Authenticate(username, password, gmailUser, gmailPass, box);
      if attempt.Failure? {
        browser.CloseBrowser();
        assert LoginTrace(username, password, code, works) == made + [CloseBrowser];
        Associative(t0, made, [CloseBrowser]);
        IssuedClose(made, browser.fails);
        assert browser.ops == o0 + Issued(made, browser.fails) + ClosingOps(c0, true);
        WrappedAuthentication(LOGIN_ERROR, attempt.error);
        return Failure(AuthenticationError(Wrap(LOGIN_ERROR, attempt.error)));
      }
      assert LoginTrace(username, password, code, works) == made by {
        assert made + [] == made;
      }
      assert browser.ops == o0 + Issued(made, browser.fails) + ClosingOps(c0, false);
      r := Success(true);
    }

    /** Logs out; reports whether the login form came back, and never raises. */
    method Logout() returns (ok: bool)
      modifies browser
      ensures browser.Ran(LogoutSteps())
      ensures ok == AllSucceed(LogoutSteps(), Works(browser.fails))
    {
      ok := browser.Execute(LogoutSteps());
    }
  }
}
