/**
 * The account workflow: the plain account and portfolio fetches, the portfolio
 * balance extracted from its payload, the withdrawal form (panel, currency tab,
 * amount, blur, continue button) and the linked bank accounts the form's
 * currency tab asks the backend for.
 */
module AccountFlow {
  import opened Wrappers
  import opened Common
  import opened Config
  import opened Bridge

  /** The field of the balance payload that holds the portfolio's total. */
  const BALANCE_FIELD: string := "totalBalance"

  /**
   * The balance extractor: the total of a balance payload, or nothing when the
   * payload is not an object, lacks the field, or holds null there. Never fails,
   * whatever the payload's shape.
   */
  function BalanceOf(data: Json): (r: Option<Json>)
    ensures r.Some? <==> data.JObj? && BALANCE_FIELD in data.fields && data.fields[BALANCE_FIELD] != JNull
    ensures r.Some? ==> r.value == data.fields[BALANCE_FIELD]
  {
    match data
    case JObj(fields) =>
      if BALANCE_FIELD in fields && fields[BALANCE_FIELD] != JNull then Some(fields[BALANCE_FIELD]) else None
    case _ => None
  }

  /**
   * A balance payload answered with status 200 yields its total when it carries one,
   * and nothing for a payload of another shape.
   */
  lemma BalanceScenario(navigated: bool)
    requires navigated
    ensures FetchResult(navigated, Some(Response(200, Parsed(JObj(map[BALANCE_FIELD := JNum(42000.0)])))),
                        Some(BalanceOf))
            == Some(JNum(42000.0))
    ensures FetchResult(navigated, Some(Response(200, Parsed(JObj(map["other" := JStr("data")])))),
                        Some(BalanceOf))
            == None
  {
    var other := JObj(map["other" := JStr("data")]);
    assert BALANCE_FIELD !in other.fields;
  }

  /** The tab of the withdrawal form for a currency; only the peso and the dollar have one. */
  function CurrencyTab(v: PyValue): (r: Option<string>)
    ensures r.Some? <==> v.PyCurrency?
  {
    match v
    case PyCurrency(Ars) => Some(CURRENCY_ARS_TAB)
    case PyCurrency(Usd) => Some(CURRENCY_USD_TAB)
    case _ => None
  }

  /** The two currencies open different tabs. */
  lemma CurrencyTabsDistinct()
    ensures CurrencyTab(PyCurrency(Ars)) != CurrencyTab(PyCurrency(Usd))
  {
    assert CURRENCY_ARS_TAB[|"TRANSFER_SELECTORS.currency_"|] != CURRENCY_USD_TAB[|"TRANSFER_SELECTORS.currency_"|];
  }

  /**
   * The withdrawal form: open the withdraw panel, pick the currency's tab, type the
   * amount, blur the amount input so the form validates it, then wait for the
   * continue button. A value that is no currency stops the form after the panel.
   */
  function WithdrawSteps(amount: string, currency: PyValue): seq<Call> {
    match CurrencyTab(currency)
    case None => [ClickElement(WITHDRAW_BUTTON)]
    case Some(tab) =>
      [ClickElement(WITHDRAW_BUTTON), ClickElement(tab), FillInput(TRANSFER_AMOUNT_INPUT, amount),
       Blur(TRANSFER_AMOUNT_INPUT), WaitForElement(TRANSFER_CONTINUE, DEFAULT_TIMEOUT)]
  }

  /**
   * For a currency the form clicks twice (panel, tab), types the amount once, blurs
   * once and waits once; the blur follows the typing and precedes the wait.
   */
  lemma WithdrawCounts(amount: string, c: Currency)
    ensures CallCount(WithdrawSteps(amount, PyCurrency(c)), ClickMethod) == 2
    ensures CallCount(WithdrawSteps(amount, PyCurrency(c)), FillMethod) == 1
    ensures CallCount(WithdrawSteps(amount, PyCurrency(c)), BlurMethod) == 1
    ensures CallCount(WithdrawSteps(amount, PyCurrency(c)), WaitMethod) == 1
    ensures CallCount(WithdrawSteps(amount, PyCurrency(c)), GoToMethod) == 0
    ensures exists i, j, k :: 0 <= i < j < k < |WithdrawSteps(amount, PyCurrency(c))|
              && WithdrawSteps(amount, PyCurrency(c))[i] == FillInput(TRANSFER_AMOUNT_INPUT, amount)
              && WithdrawSteps(amount, PyCurrency(c))[j] == Blur(TRANSFER_AMOUNT_INPUT)
              && WithdrawSteps(amount, PyCurrency(c))[k] == WaitForElement(TRANSFER_CONTINUE, DEFAULT_TIMEOUT)
  {
    var tab := CurrencyTab(PyCurrency(c)).value;
    WithdrawShapeCounts(WITHDRAW_BUTTON, tab, TRANSFER_AMOUNT_INPUT, amount, TRANSFER_CONTINUE, DEFAULT_TIMEOUT);
  }

  /** Counts and order over two clicks, a fill, a blur and a wait, whatever the selectors and values. */
  lemma WithdrawShapeCounts(panel: string, tab: string, input: string, amount: string, next: string, timeout: int)
    ensures var cs := [ClickElement(panel), ClickElement(tab), FillInput(input, amount), Blur(input),
                       WaitForElement(next, timeout)];
            CallCount(cs, ClickMethod) == 2 && CallCount(cs, FillMethod) == 1
            && CallCount(cs, BlurMethod) == 1 && CallCount(cs, WaitMethod) == 1
            && CallCount(cs, GoToMethod) == 0
            && cs[2] == FillInput(input, amount) && cs[3] == Blur(input) && cs[4] == WaitForElement(next, timeout)
  {
    var cs := [ClickElement(panel), ClickElement(tab), FillInput(input, amount), Blur(input),
               WaitForElement(next, timeout)];
    forall m: Method
      ensures CallCount(cs, m) == Tally(cs[0], m) + Tally(cs[1], m) + Tally(cs[2], m) + Tally(cs[3], m) + Tally(cs[4], m)
    {
      CountFiveCalls(cs[0], cs[1], cs[2], cs[3], cs[4], m);
    }
  }

  /** A value that is no currency only opens the panel: nothing is typed and nothing is awaited. */
  lemma WithdrawOtherValue(amount: string, v: PyValue)
    requires !v.PyCurrency?
    ensures WithdrawSteps(amount, v) == [ClickElement(WITHDRAW_BUTTON)]
    ensures CallCount(WithdrawSteps(amount, v), FillMethod) == 0
  {
  }

  /** The request listing the linked accounts of a currency. */
  function AccountsTarget(c: Currency): string {
    API_USER_ACCOUNTS + c.Code()
  }

  /** The accounts of one currency are never read from the other's response. */
  lemma AccountsTargetsDistinct()
    ensures AccountsTarget(Ars) != AccountsTarget(Usd)
  {
    assert AccountsTarget(Ars)[|API_USER_ACCOUNTS|] != AccountsTarget(Usd)[|API_USER_ACCOUNTS|];
  }

  /** Linked accounts: watch for the currency's accounts response, then fill the withdrawal form. */
  function LinkedSteps(amount: string, c: Currency): seq<Call> {
    [ExpectResponse(AccountsTarget(c))] + WithdrawSteps(amount, PyCurrency(c))
  }

  /** When the withdraw panel cannot be opened, there are no linked accounts whatever the backend sends. */
  lemma LinkedAccountsPanelFailure(amount: string, c: Currency, works: Call -> bool, resp: Option<Response>)
    requires !works(ClickElement(WITHDRAW_BUTTON))
    ensures !AllSucceed(LinkedSteps(amount, c), works)
    ensures Correlate(AllSucceed(LinkedSteps(amount, c), works), resp) == None
  {
    assert LinkedSteps(amount, c)[1] == ClickElement(WITHDRAW_BUTTON);
  }

  /**
   * When every step works and the accounts response arrives with status 200 and a
   * body, the linked accounts are that body.
   */
  lemma LinkedAccountsDelivered(amount: string, c: Currency, works: Call -> bool, accounts: Json)
    requires forall call :: works(call)
    ensures Correlate(AllSucceed(LinkedSteps(amount, c), works), Some(Response(200, Parsed(accounts))))
            == Some(accounts)
  {
    assert AllSucceed(LinkedSteps(amount, c), works);
  }

  class UserService {
    const browser: Browser

    constructor (browser: Browser)
      ensures this.browser == browser
    {
      this.browser := browser;
    }

    /** The profile of the logged-in user. */
    method GetUserData() returns (r: Option<Json>)
      modifies browser
      ensures browser.Made(Call.FetchData(API_USER_DATA, DASHBOARD_URL), Succeeds(Call.FetchData(API_USER_DATA, DASHBOARD_URL), browser.fails))
      ensures browser.closed == old(browser.closed)
      ensures r == FetchResult(Succeeds(Call.FetchData(API_USER_DATA, DASHBOARD_URL), browser.fails),
                               browser.backend(API_USER_DATA), None)
    {
      r := browser.FetchData(API_USER_DATA, DASHBOARD_URL, None);
    }

    /** The account's tier. */
    method GetAccountTier() returns (r: Option<Json>)
      modifies browser
      ensures browser.Made(Call.FetchData(API_ACCOUNT_TIER, DASHBOARD_URL), Succeeds(Call.FetchData(API_ACCOUNT_TIER, DASHBOARD_URL), browser.fails))
      ensures browser.closed == old(browser.closed)
      ensures r == FetchResult(Succeeds(Call.FetchData(API_ACCOUNT_TIER, DASHBOARD_URL), browser.fails),
                               browser.backend(API_ACCOUNT_TIER), None)
    {
      r := browser.FetchData(API_ACCOUNT_TIER, DASHBOARD_URL, None);
    }

    /** The portfolio's holdings. */
    method GetPortfolioData() returns (r: Option<Json>)
      modifies browser
      ensures browser.Made(Call.FetchData(API_PORTFOLIO_DATA, PORTFOLIO_URL), Succeeds(Call.FetchData(API_PORTFOLIO_DATA, PORTFOLIO_URL), browser.fails))
      ensures browser.closed == old(browser.closed)
      ensures r == FetchResult(Succeeds(Call.FetchData(API_PORTFOLIO_DATA, PORTFOLIO_URL), browser.fails),
                               browser.backend(API_PORTFOLIO_DATA), None)
    {
      r := browser.FetchData(API_PORTFOLIO_DATA, PORTFOLIO_URL, None);
    }

    /** The portfolio's total balance, extracted from the balance payload. */
    method GetPortfolioBalance() returns (r: Option<Json>)
      modifies browser
      ensures browser.Made(Call.FetchData(API_PORTFOLIO_BALANCE, PORTFOLIO_URL), Succeeds(Call.FetchData(API_PORTFOLIO_BALANCE, PORTFOLIO_URL), browser.fails))
      ensures browser.closed == old(browser.closed)
      ensures r == FetchResult(Succeeds(Call.FetchData(API_PORTFOLIO_BALANCE, PORTFOLIO_URL), browser.fails),
                               browser.backend(API_PORTFOLIO_BALANCE), Some(BalanceOf))
    {
      r := browser.FetchData(API_PORTFOLIO_BALANCE, PORTFOLIO_URL, Some(BalanceOf));
    }

    /** The academy's content. */
    method GetAcademyData() returns (r: Option<Json>)
      modifies browser
      ensures browser.Made(Call.FetchData(API_ACADEMY, DASHBOARD_URL), Succeeds(Call.FetchData(API_ACADEMY, DASHBOARD_URL), browser.fails))
      ensures browser.closed == old(browser.closed)
      ensures r == FetchResult(Succeeds(Call.FetchData(API_ACADEMY, DASHBOARD_URL), browser.fails),
                               browser.backend(API_ACADEMY), None)
    {
      r := browser.FetchData(API_ACADEMY, DASHBOARD_URL, None);
    }

    /**
     * Fills the withdrawal form for `amount` in `currency`; reports whether the continue
     * button showed up, and never raises: a broken step or a value that is no currency
     * is a plain failure.
     */
    method NavigateWithdrawForm(amount: string, currency: PyValue) returns (ok: bool)
      modifies browser
      ensures browser.Ran(WithdrawSteps(amount, currency))
      ensures ok == (currency.PyCurrency? && AllSucceed(WithdrawSteps(amount, currency), Works(browser.fails)))
    {
      ok := browser.Execute(WithdrawSteps(amount, currency));
      // A value that is no currency has no tab: the form stops, failed, once the panel is open.
      ok := ok && currency.PyCurrency?;
    }

    /**
     * The bank accounts linked for `currency`, read from the response the withdrawal
     * form triggers; nothing when any step breaks or the response is unusable.
     */
    method GetLinkedAccounts(amount: string, currency: Currency) returns (r: Option<Json>)
      modifies browser
      ensures browser.Ran(LinkedSteps(amount, currency))
      ensures r == Correlate(AllSucceed(LinkedSteps(amount, currency), Works(browser.fails)),
                             browser.backend(AccountsTarget(currency)))
    {
      ghost var watch, form := [ExpectResponse(AccountsTarget(currency))], WithdrawSteps(amount, PyCurrency(currency));
      ghost var t0, o0 := browser.trace, browser.ops;
      RunConcat(watch, form, Works(browser.fails));
      RunSingle(ExpectResponse(AccountsTarget(currency)), Works(browser.fails));
      IssuedSingle(ExpectResponse(AccountsTarget(currency)), browser.fails);
      var target := AccountsTarget(currency);
      var ok := browser.ExpectResponse(target);
      if ok {
        ok := NavigateWithdrawForm(amount, PyCurrency(currency));
        Associative(t0, watch, Run(form, Works(browser.fails)));
        IssuedConcat(watch, Run(form, Works(browser.fails)), browser.fails);
        Associative(o0, Issued(watch, browser.fails), Issued(Run(form, Works(browser.fails)), browser.fails));
      }
      r := Correlate(ok, browser.backend(target));
    }
  }
}
