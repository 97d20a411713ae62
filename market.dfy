/**
 * The market workflow: opening a ticker's trading panel, placing a market or
 * limit order, cancelling an order from the orders list, reading a ticker's
 * detail, and the plain market-data fetches. Every step is a bridge call; the
 * workflow's contracts say which calls are made, in what order, and what the
 * caller gets back when a call breaks.
 */
module MarketFlow {
  import opened Wrappers
  import opened Text
  import opened Common
  import opened Config
  import opened Bridge
  import Validators

  const ORDER_ERROR: string := "Error al crear la orden"
  const CONFIRM_ERROR: string := "Error al confirmar la operación"
  /** Seconds the panel is given to recompute after the limit price is typed. */
  const LIMIT_SETTLE: real := 3.0
  /** Seconds the page is given to register a confirmed order. */
  const CONFIRM_SETTLE: real := 4.0

  /** The path of each segment's listing page under the market root. */
  function SegmentPath(m: MarketType): string {
    match m
    case Stocks => "acciones"
    case Cedears => "cedears"
    case BondsCorp => "bonos-corporativos"
    case BondsPublic => "bonos-publicos"
    case Letters => "letras"
    case Caucion => "caucion"
    case Fci => "fci"
  }

  /** The listing page of a market segment; every segment has one. */
  function NavigationTickerUrl(m: MarketType): string {
    MARKET_ROOT + SegmentPath(m)
  }

  /** The stocks listing is the "acciones" page. */
  lemma StocksListing()
    ensures Contains(NavigationTickerUrl(Stocks), "acciones")
  {
    assert "acciones" <= NavigationTickerUrl(Stocks)[|MARKET_ROOT|..];
    ContainsAt(NavigationTickerUrl(Stocks), "acciones", |MARKET_ROOT|);
  }

  /** Every listing lies under the market root, and different segments have different listings. */
  lemma ListingsDistinct(m: MarketType, n: MarketType)
    ensures MARKET_ROOT <= NavigationTickerUrl(m)
    ensures NavigationTickerUrl(m) == NavigationTickerUrl(n) ==> m == n
  {
    if NavigationTickerUrl(m) == NavigationTickerUrl(n) {
      assert NavigationTickerUrl(m)[|MARKET_ROOT|..] == SegmentPath(m);
      assert NavigationTickerUrl(n)[|MARKET_ROOT|..] == SegmentPath(n);
    }
  }

  /** An operation as a caller passes it: the enumeration, or its name in any letter case. */
  datatype OperationArg = OperationValue(op: Operation) | OperationName(name: string)

  /** The code the trading panel's selectors are keyed by. */
  function OperationCode(arg: OperationArg): string {
    match arg
    case OperationValue(op) => op.Code()
    case OperationName(s) => Upper(s)
  }

  /** The operation whose selectors a code looks up; unknown codes have none. */
  function OperationFromCode(code: string): (r: Option<Operation>)
    ensures r.Some? <==> Validators.IsOperationCode(code)
    ensures r.Some? ==> r.value.Code() == code
  {
    if code == "BUY" then Some(Buy)
    else if code == "SELL" then Some(Sell)
    else None
  }

  /** Both spellings of an operation reach the same selectors, whatever the letter case of the name. */
  lemma OperationArgResolves(op: Operation, s: string)
    ensures OperationFromCode(OperationCode(OperationValue(op))) == Some(op)
    ensures OperationFromCode(OperationCode(OperationName(s))) == OperationFromCode(OperationCode(OperationName(Upper(s))))
    ensures OperationFromCode(OperationCode(OperationName(op.Code()))) == Some(op)
  {
    UpperIdempotent(s);
    UpperCapitals(op.Code());
  }

  /** Opening a ticker: its segment's listing, the search box, and the trade panel. */
  function OpenSteps(listing: string, ticker: string): seq<Call> {
    [GoTo(listing), SearchAndSelect(SEARCH_INPUT, ticker, LIST_ITEM_TEMPLATE),
     ClickElement(EXPAND_WINDOWS)]
  }

  /** Choosing the side of the order; an unknown code fails its selector lookup before any call. */
  function OperationSteps(code: string): seq<Call> {
    match OperationFromCode(code)
    case None => []
    case Some(op) => [ClickElement(OperationButton(op))]
  }

  /** Switching to a limit order and typing its price one key at a time, then letting the panel settle. */
  function LimitSteps(limit: string): seq<Call> {
    [ClickElement(MORE_OPTIONS), ClickElement(LIMIT_BUTTON),
     FillInputWithDelay(LIMIT_INPUT, limit, TYPING_DELAY), Sleep(LIMIT_SETTLE)]
  }

  /** Entering the amount in the box of the order's side. */
  function AmountSteps(code: string, amount: string): seq<Call> {
    match OperationFromCode(code)
    case None => []
    case Some(op) => [ClickElement(OperationAmountInput(op)), FillInput(OperationAmountInput(op), amount)]
  }

  /** Review, confirm, and wait for the order to register. */
  function ConfirmSteps(): seq<Call> {
    [ClickElement(REVIEW_BUY), ClickElement(CONFIRM_BUTTON), Sleep(CONFIRM_SETTLE)]
  }

  function LimitPart(limit: Option<string>): seq<Call> {
    if limit.Some? then LimitSteps(limit.value) else []
  }

  /** Filling in the form of a chosen side: the optional limit, the amount, and the confirmation. */
  function FormSteps(op: Operation, amount: string, limit: Option<string>): seq<Call> {
    LimitPart(limit) + AmountSteps(op.Code(), amount) + ConfirmSteps()
  }

  /** The form part of an order; there is none when the side is unknown. */
  function FormPart(code: string, amount: string, limit: Option<string>): seq<Call> {
    match OperationFromCode(code)
    case None => []
    case Some(op) => FormSteps(op, amount, limit)
  }

  /** Trading on an open ticker's panel: pick the side, then fill in its form. */
  function PanelSteps(code: string, amount: string, limit: Option<string>): seq<Call> {
    OperationSteps(code) + FormPart(code, amount, limit)
  }

  /** An order: open the ticker, then trade on its panel. */
  function OrderScript(listing: string, ticker: string, code: string, amount: string, limit: Option<string>)
    : seq<Call>
  {
    OpenSteps(listing, ticker) + PanelSteps(code, amount, limit)
  }

  /** An order is placed when its side is known and every call of its script succeeds. */
  predicate OrderSucceeds(listing: string, ticker: string, code: string, amount: string, limit: Option<string>,
                          works: Call -> bool)
  {
    OperationFromCode(code).Some? && AllSucceed(OrderScript(listing, ticker, code, amount, limit), works)
  }

  /** Opening a ticker navigates once and searches once, and neither types slowly nor sleeps. */
  lemma OpenCounts(listing: string, ticker: string)
    ensures CallCount(OpenSteps(listing, ticker), GoToMethod) == 1
    ensures CallCount(OpenSteps(listing, ticker), SearchMethod) == 1
    ensures CallCount(OpenSteps(listing, ticker), FillDelayMethod) == 0
    ensures CallCount(OpenSteps(listing, ticker), SleepMethod) == 0
  {
    OpenShapeCounts(listing, SEARCH_INPUT, ticker, LIST_ITEM_TEMPLATE, EXPAND_WINDOWS);
  }

  /** Counts over a navigation, a search and a click, whatever the selectors and values. */
  lemma OpenShapeCounts(listing: string, box: string, ticker: string, template: string, expand: string)
    ensures var cs := [GoTo(listing), SearchAndSelect(box, ticker, template), ClickElement(expand)];
            CallCount(cs, GoToMethod) == 1 && CallCount(cs, SearchMethod) == 1
            && CallCount(cs, FillDelayMethod) == 0 && CallCount(cs, SleepMethod) == 0
  {
    var cs := [GoTo(listing), SearchAndSelect(box, ticker, template), ClickElement(expand)];
    forall m: Method ensures CallCount(cs, m) == Tally(cs[0], m) + Tally(cs[1], m) + Tally(cs[2], m) {
      CountThreeCalls(cs[0], cs[1], cs[2], m);
    }
  }

  /** The optional limit part types slowly and sleeps once exactly when there is a limit. */
  lemma LimitPartCounts(limit: Option<string>)
    ensures CallCount(LimitPart(limit), GoToMethod) == 0
    ensures CallCount(LimitPart(limit), SearchMethod) == 0
    ensures CallCount(LimitPart(limit), FillDelayMethod) == if limit.Some? then 1 else 0
    ensures CallCount(LimitPart(limit), SleepMethod) == if limit.Some? then 1 else 0
  {
    if limit.Some? {
      LimitCounts(limit.value);
    }
  }

  /** Counts over a form, from the counts over its limit, amount and confirmation parts. */
  lemma FormCountsOf(lim: seq<Call>, amt: seq<Call>, conf: seq<Call>, n: nat)
    requires CallCount(lim, GoToMethod) == 0 && CallCount(lim, SearchMethod) == 0
    requires CallCount(lim, FillDelayMethod) == n && CallCount(lim, SleepMethod) == n
    requires CallCount(amt, GoToMethod) == 0 && CallCount(amt, SearchMethod) == 0
    requires CallCount(amt, FillDelayMethod) == 0 && CallCount(amt, SleepMethod) == 0
    requires CallCount(conf, GoToMethod) == 0 && CallCount(conf, SearchMethod) == 0
    requires CallCount(conf, FillDelayMethod) == 0 && CallCount(conf, SleepMethod) == 1
    ensures CallCount(lim + amt + conf, GoToMethod) == 0
    ensures CallCount(lim + amt + conf, SearchMethod) == 0
    ensures CallCount(lim + amt + conf, FillDelayMethod) == n
    ensures CallCount(lim + amt + conf, SleepMethod) == n + 1
  {
    CallCountThree(lim, amt, conf, GoToMethod);
    CallCountThree(lim, amt, conf, SearchMethod);
    CallCountThree(lim, amt, conf, FillDelayMethod);
    CallCountThree(lim, amt, conf, SleepMethod);
  }

  /** The form of a side types slowly only for a limit, and sleeps once more for one. */
  lemma FormCounts(op: Operation, amount: string, limit: Option<string>)
    ensures CallCount(FormSteps(op, amount, limit), GoToMethod) == 0
    ensures CallCount(FormSteps(op, amount, limit), SearchMethod) == 0
    ensures CallCount(FormSteps(op, amount, limit), FillDelayMethod) == if limit.Some? then 1 else 0
    ensures CallCount(FormSteps(op, amount, limit), SleepMethod) == if limit.Some? then 2 else 1
  {
    LimitPartCounts(limit);
    AmountCounts(op, amount);
    ConfirmCounts();
    FormCountsOf(LimitPart(limit), AmountSteps(op.Code(), amount), ConfirmSteps(), if limit.Some? then 1 else 0);
  }

  /**
   * An order placed in full made every call of its script, opened one listing and
   * searched once for its ticker; a limit order typed its price slowly exactly once.
   */
  lemma OrderSuccessShape(listing: string, ticker: string, code: string, amount: string, limit: Option<string>,
                          works: Call -> bool)
    requires OrderSucceeds(listing, ticker, code, amount, limit, works)
    ensures var s := OrderScript(listing, ticker, code, amount, limit);
            Run(s, works) == s && CallCount(s, GoToMethod) == 1 && CallCount(s, SearchMethod) == 1
            && CallCount(s, FillDelayMethod) == (if limit.Some? then 1 else 0)
            && CallCount(s, SleepMethod) == (if limit.Some? then 2 else 1)
  {
    var op := OperationFromCode(code).value;
    var open, side, form := OpenSteps(listing, ticker), OperationSteps(code), FormSteps(op, amount, limit);
    assert OrderScript(listing, ticker, code, amount, limit) == open + (side + form);
    OpenCounts(listing, ticker);
    OneClickCounts(OperationButton(op));
    FormCounts(op, amount, limit);
    OrderCountsOf(open, side, form, if limit.Some? then 1 else 0);
  }

  /** A single click neither navigates, searches, types slowly nor sleeps. */
  lemma OneClickCounts(sel: string)
    ensures CallCount([ClickElement(sel)], GoToMethod) == 0
    ensures CallCount([ClickElement(sel)], SearchMethod) == 0
    ensures CallCount([ClickElement(sel)], FillDelayMethod) == 0
    ensures CallCount([ClickElement(sel)], SleepMethod) == 0
  {
    assert [ClickElement(sel)][1..] == [];
  }

  /** Counts over an order, from the counts over its opening, side and form parts. */
  lemma OrderCountsOf(open: seq<Call>, side: seq<Call>, form: seq<Call>, n: nat)
    requires CallCount(open, GoToMethod) == 1 && CallCount(open, SearchMethod) == 1
    requires CallCount(open, FillDelayMethod) == 0 && CallCount(open, SleepMethod) == 0
    requires CallCount(side, GoToMethod) == 0 && CallCount(side, SearchMethod) == 0
    requires CallCount(side, FillDelayMethod) == 0 && CallCount(side, SleepMethod) == 0
    requires CallCount(form, GoToMethod) == 0 && CallCount(form, SearchMethod) == 0
    requires CallCount(form, FillDelayMethod) == n && CallCount(form, SleepMethod) == n + 1
    ensures CallCount(open + (side + form), GoToMethod) == 1
    ensures CallCount(open + (side + form), SearchMethod) == 1
    ensures CallCount(open + (side + form), FillDelayMethod) == n
    ensures CallCount(open + (side + form), SleepMethod) == n + 1
  {
    assert open + (side + form) == open + side + form;
    CallCountThree(open, side, form, GoToMethod);
    CallCountThree(open, side, form, SearchMethod);
    CallCountThree(open, side, form, FillDelayMethod);
    CallCountThree(open, side, form, SleepMethod);
  }

  /** When the listing cannot be opened nothing else is tried, and the order fails. */
  lemma OrderNavigationFailure(listing: string, ticker: string, code: string, amount: string,
                               limit: Option<string>, works: Call -> bool)
    requires !works(GoTo(listing))
    ensures Run(OrderScript(listing, ticker, code, amount, limit), works) == [GoTo(listing)]
    ensures !OrderSucceeds(listing, ticker, code, amount, limit, works)
  {
    var s := OrderScript(listing, ticker, code, amount, limit);
    StepFails([], GoTo(listing), s[1..], works);
    assert s == [] + [s[0]] + s[1..];
  }

  /** An unknown operation opens the ticker but never touches the trading form, and the order fails. */
  lemma UnknownOperationFails(listing: string, ticker: string, code: string, amount: string,
                              limit: Option<string>, works: Call -> bool)
    requires !Validators.IsOperationCode(code)
    ensures OrderScript(listing, ticker, code, amount, limit) == OpenSteps(listing, ticker)
    ensures !OrderSucceeds(listing, ticker, code, amount, limit, works)
  {
    assert OrderScript(listing, ticker, code, amount, limit) == OpenSteps(listing, ticker) + [] + [];
  }

  /** The limit step clicks twice, types once, and waits three seconds once. */
  lemma LimitCounts(limit: string)
    ensures CallCount(LimitSteps(limit), ClickMethod) == 2
    ensures CallCount(LimitSteps(limit), FillDelayMethod) == 1
    ensures CallCount(LimitSteps(limit), SleepMethod) == 1
    ensures CallCount(LimitSteps(limit), GoToMethod) == 0 && CallCount(LimitSteps(limit), SearchMethod) == 0
    ensures LimitSteps(limit)[3] == Sleep(3.0)
  {
    LimitShapeCounts(MORE_OPTIONS, LIMIT_BUTTON, LIMIT_INPUT, limit, TYPING_DELAY, LIMIT_SETTLE);
  }

  /** Counts over two clicks, a slow fill and a sleep, whatever the selectors and values. */
  lemma LimitShapeCounts(more: string, button: string, input: string, limit: string, delay: real, secs: real)
    ensures var cs := [ClickElement(more), ClickElement(button), FillInputWithDelay(input, limit, delay), Sleep(secs)];
            CallCount(cs, ClickMethod) == 2 && CallCount(cs, FillDelayMethod) == 1
            && CallCount(cs, SleepMethod) == 1 && CallCount(cs, GoToMethod) == 0
            && CallCount(cs, SearchMethod) == 0
  {
    var cs := [ClickElement(more), ClickElement(button), FillInputWithDelay(input, limit, delay), Sleep(secs)];
    forall m: Method ensures CallCount(cs, m) == Tally(cs[0], m) + Tally(cs[1], m) + Tally(cs[2], m) + Tally(cs[3], m) {
      CountFourCalls(cs[0], cs[1], cs[2], cs[3], m);
    }
  }

  /** The amount step clicks the side's box once and fills it once. */
  lemma AmountCounts(op: Operation, amount: string)
    ensures CallCount(AmountSteps(op.Code(), amount), ClickMethod) == 1
    ensures CallCount(AmountSteps(op.Code(), amount), FillMethod) == 1
    ensures CallCount(AmountSteps(op.Code(), amount), GoToMethod) == 0
    ensures CallCount(AmountSteps(op.Code(), amount), SearchMethod) == 0
    ensures CallCount(AmountSteps(op.Code(), amount), FillDelayMethod) == 0
    ensures CallCount(AmountSteps(op.Code(), amount), SleepMethod) == 0
  {
    var cs := AmountSteps(op.Code(), amount);
    assert OperationFromCode(op.Code()) == Some(op);
    forall m: Method ensures CallCount(cs, m) == Tally(cs[0], m) + Tally(cs[1], m) {
      CountTwoCalls(cs[0], cs[1], m);
    }
  }

  /** Confirming clicks twice and waits four seconds once. */
  lemma ConfirmCounts()
    ensures CallCount(ConfirmSteps(), ClickMethod) == 2
    ensures CallCount(ConfirmSteps(), SleepMethod) == 1
    ensures ConfirmSteps()[2] == Sleep(4.0)
    ensures CallCount(ConfirmSteps(), GoToMethod) == 0
    ensures CallCount(ConfirmSteps(), SearchMethod) == 0
    ensures CallCount(ConfirmSteps(), FillDelayMethod) == 0
  {
    TwoClicksAndSleep(REVIEW_BUY, CONFIRM_BUTTON, CONFIRM_SETTLE);
  }

  /** Counts over two clicks followed by a sleep, whatever is clicked. */
  lemma TwoClicksAndSleep(first: string, second: string, secs: real)
    ensures var cs := [ClickElement(first), ClickElement(second), Sleep(secs)];
            CallCount(cs, ClickMethod) == 2 && CallCount(cs, SleepMethod) == 1
            && CallCount(cs, GoToMethod) == 0 && CallCount(cs, SearchMethod) == 0
            && CallCount(cs, FillDelayMethod) == 0
  {
    var cs := [ClickElement(first), ClickElement(second), Sleep(secs)];
    forall m: Method ensures CallCount(cs, m) == Tally(cs[0], m) + Tally(cs[1], m) + Tally(cs[2], m) {
      CountThreeCalls(cs[0], cs[1], cs[2], m);
    }
  }

  /**
   * The orders-list row showing an order's amount and quantity. Rows have no stable
   * identifier, so the row is matched by the text it displays.
   */
  function OrderRow(amount: string, quantity: string): string {
    ORDER_ROW_PREFIX + ":has-text(\"" + amount + "\"):has-text(\"" + quantity + "\")"
  }

  /** The row selector is built from, and mentions, both displayed values. */
  lemma OrderRowMentions(amount: string, quantity: string)
    ensures Contains(OrderRow(amount, quantity), amount)
    ensures Contains(OrderRow(amount, quantity), quantity)
  {
    var row := OrderRow(amount, quantity);
    var i := |ORDER_ROW_PREFIX| + 11;
    var j := i + |amount| + 13;
    assert row[i..][..|amount|] == amount;
    assert row[j..][..|quantity|] == quantity;
    ContainsAt(row, amount, i);
    ContainsAt(row, quantity, j);
  }

  /** Cancelling: the orders list, the order's row, a click on it, then the cancel button. */
  function CancelSteps(amount: string, quantity: string): seq<Call> {
    [GoTo(ORDERS_URL), WaitForElement(OrderRow(amount, quantity), DEFAULT_TIMEOUT),
     ClickElement(OrderRow(amount, quantity)), ClickElement(CANCEL_BUTTON)]
  }

  /** A cancellation navigates once, waits for one row, and clicks twice. */
  lemma CancelCounts(amount: string, quantity: string)
    ensures CallCount(CancelSteps(amount, quantity), GoToMethod) == 1
    ensures CallCount(CancelSteps(amount, quantity), WaitMethod) == 1
    ensures CallCount(CancelSteps(amount, quantity), ClickMethod) == 2
  {
    var cs := CancelSteps(amount, quantity);
    forall m: Method ensures CallCount(cs, m) == Tally(cs[0], m) + Tally(cs[1], m) + Tally(cs[2], m) + Tally(cs[3], m) {
      CountFourCalls(cs[0], cs[1], cs[2], cs[3], m);
    }
  }

  /** The detail request of a ticker in a settlement segment. */
  function TickerTarget(ticker: string, segment: string): string {
    API_MARKETS_TICKERS + "/" + ticker + "?segment=" + segment
  }

  /** Reading a ticker: watch for its detail response, then open the ticker's listing and select it. */
  function TickerSteps(listing: string, ticker: string, segment: string): seq<Call> {
    [ExpectResponse(TickerTarget(ticker, segment)), GoTo(listing),
     SearchAndSelect(SEARCH_INPUT, ticker, LIST_ITEM_TEMPLATE)]
  }

  /** When the listing cannot be opened, ticker detail is nothing whatever the backend sends. */
  lemma TickerNavigationFailure(listing: string, ticker: string, segment: string, works: Call -> bool,
                                resp: Option<Response>)
    requires !works(GoTo(listing))
    ensures !AllSucceed(TickerSteps(listing, ticker, segment), works)
    ensures Correlate(AllSucceed(TickerSteps(listing, ticker, segment), works), resp) == None
  {
    assert TickerSteps(listing, ticker, segment)[1] == GoTo(listing);
  }

  class MarketService {
    const browser: Browser

    constructor (browser: Browser)
      ensures this.browser == browser
    {
      this.browser := browser;
    }

    /** Picks the side of the order. */
    method ConfigureOperation(code: string) returns (ok: bool)
      modifies browser
      ensures browser.Ran(OperationSteps(code))
      ensures ok == (OperationFromCode(code).Some? && AllSucceed(OperationSteps(code), Works(browser.fails)))
    {
      match OperationFromCode(code)
      case None =>
        ok := false;
        assert browser.trace == old(browser.trace) + Run([], Works(browser.fails));
        assert browser.ops == old(browser.ops) + Issued(Run([], Works(browser.fails)), browser.fails);
      case Some(op) =>
        ok := browser.ClickElement(OperationButton(op));
        RunSingle(ClickElement(OperationButton(op)), Works(browser.fails));
        IssuedSingle(ClickElement(OperationButton(op)), browser.fails);
    }

    /** Turns the order into a limit order at the price text `limit`. */
    method ConfigureLimitOrder(limit: string) returns (ok: bool)
      modifies browser
      ensures browser.Ran(LimitSteps(limit))
      ensures ok == AllSucceed(LimitSteps(limit), Works(browser.fails))
    {
      ok := browser.Execute(LimitSteps(limit));
    }

    /** Enters the amount text in the box of the order's side. */
    method EnterAmount(code: string, amount: string) returns (ok: bool)
      modifies browser
      ensures browser.Ran(AmountSteps(code, amount))
      ensures ok == (OperationFromCode(code).Some? && AllSucceed(AmountSteps(code, amount), Works(browser.fails)))
    {
      ok := OperationFromCode(code).Some?;
      if ok {
        ok := browser.Execute(AmountSteps(code, amount));
      } else {
        assert browser.trace == old(browser.trace) + Run([], Works(browser.fails));
        assert browser.ops == old(browser.ops) + Issued(Run([], Works(browser.fails)), browser.fails);
      }
    }

    /** Reviews and confirms the order; a broken step is an order-creation error of its own. */
    method ConfirmOperation() returns (r: Result<(), Exc>)
      modifies browser
      ensures browser.Ran(ConfirmSteps())
      ensures r == if AllSucceed(ConfirmSteps(), Works(browser.fails)) then Success(())
                   else Failure(OrderCreationError(Wrap(CONFIRM_ERROR, BrowserError)))
    {
      var ok := browser.Execute(ConfirmSteps());
      r := if ok then Success(()) else Failure(OrderCreationError(Wrap(CONFIRM_ERROR, BrowserError)));
    }

    /** Opens the ticker's listing, selects the ticker and expands its trade panel. */
    method OpenTicker(listing: string, ticker: string) returns (ok: bool)
      modifies browser
      ensures browser.Ran(OpenSteps(listing, ticker))
      ensures ok == AllSucceed(OpenSteps(listing, ticker), Works(browser.fails))
    {
      ok := browser.Execute(OpenSteps(listing, ticker));
    }

    /** Fills in the form of side `op`: the optional limit, the amount, then the confirmation. */
    method FillOrderForm(op: Operation, amount: string, limit: Option<string>) returns (ok: bool)
      modifies browser
      ensures browser.Ran(FormSteps(op, amount, limit))
      ensures ok == AllSucceed(FormSteps(op, amount, limit), Works(browser.fails))
    {
      ghost var lim, amt, conf := LimitPart(limit), AmountSteps(op.Code(), amount), ConfirmSteps();
      ghost var whole := FormSteps(op, amount, limit);
      assert whole == lim + amt + conf;
      ghost var t0, o0 := browser.trace, browser.ops;
      ok := true;
      if limit.Some? {
        ok := ConfigureLimitOrder(limit.value);
      } else {
        assert browser.ops == o0 + Issued(Run([], Works(browser.fails)), browser.fails);
      }
      browser.Pass(t0, o0, [], lim, whole, t0, o0, ok);
      if !ok { browser.Settle(t0, o0, lim, whole, ok); return; }
      ghost var t1, o1 := browser.trace, browser.ops;
      ok := EnterAmount(op.Code(), amount);
      assert OperationFromCode(op.Code()) == Some(op);
      browser.Pass(t0, o0, lim, amt, whole, t1, o1, ok);
      if !ok { browser.Settle(t0, o0, lim + amt, whole, ok); return; }
      t1, o1 := browser.trace, browser.ops;
      var confirmed := ConfirmOperation();
      ok := confirmed.Success?;
      browser.Pass(t0, o0, lim + amt, conf, whole, t1, o1, ok);
      browser.Settle(t0, o0, whole, whole, ok);
    }

    /** Picks the side, then fills in its form; false when a step broke or the side is unknown. */
    method TradeOnPanel(code: string, amount: string, limit: Option<string>) returns (ok: bool)
      modifies browser
      ensures browser.Ran(PanelSteps(code, amount, limit))
      ensures ok == (OperationFromCode(code).Some? && AllSucceed(PanelSteps(code, amount, limit), Works(browser.fails)))
    {
      ghost var side, form := OperationSteps(code), FormPart(code, amount, limit);
      ghost var t0, o0 := browser.trace, browser.ops;
      RunConcat(side, form, Works(browser.fails));
      ok := ConfigureOperation(code);
      if ok {
        ghost var o1 := browser.ops;
        ok := FillOrderForm(OperationFromCode(code).value, amount, limit);
        Associative(t0, side, Run(form, Works(browser.fails)));
        IssuedConcat(side, Run(form, Works(browser.fails)), browser.fails);
        Associative(o0, Issued(side, browser.fails), Issued(Run(form, Works(browser.fails)), browser.fails));
      }
    }

    /** The steps of an order, from opening the ticker to confirming; false when one broke. */
    method SubmitOrder(listing: string, ticker: string, code: string, amount: string, limit: Option<string>)
      returns (ok: bool)
      modifies browser
      ensures browser.Ran(OrderScript(listing, ticker, code, amount, limit))
      ensures ok == OrderSucceeds(listing, ticker, code, amount, limit, Works(browser.fails))
    {
      ghost var open, panel := OpenSteps(listing, ticker), PanelSteps(code, amount, limit);
      ghost var t0, o0 := browser.trace, browser.ops;
      RunConcat(open, panel, Works(browser.fails));
      ok := OpenTicker(listing, ticker);
      if ok {
        ok := TradeOnPanel(code, amount, limit);
        Associative(t0, open, Run(panel, Works(browser.fails)));
        IssuedConcat(open, Run(panel, Works(browser.fails)), browser.fails);
        Associative(o0, Issued(open, browser.fails), Issued(Run(panel, Works(browser.fails)), browser.fails));
      }
    }

    /**
     * Places an order for `ticker` from its segment's listing: `amount` and `limit` are
     * the texts typed into the form. Any broken step, including an unknown operation,
     * is reported as one order-creation error.
     */
    method CreateOrder(market: MarketType, ticker: string, operation: OperationArg, amount: string,
                       limit: Option<string>)
      returns (r: Result<bool, Exc>)
      modifies browser
      ensures browser.Ran(OrderScript(NavigationTickerUrl(market), ticker, OperationCode(operation), amount, limit))
      ensures r == if OrderSucceeds(NavigationTickerUrl(market), ticker, OperationCode(operation), amount, limit,
                                    Works(browser.fails))
                   then Success(true) else Failure(OrderCreationError(Wrap(ORDER_ERROR, BrowserError)))
    {
      var ok := SubmitOrder(NavigationTickerUrl(market), ticker, OperationCode(operation), amount, limit);
      r := if ok then Success(true) else Failure(OrderCreationError(Wrap(ORDER_ERROR, BrowserError)));
    }

    /** Cancels the order whose row shows `amount` and `quantity`; false when any step broke. */
    method CancelOrder(amount: string, quantity: string) returns (ok: bool)
      modifies browser
      ensures browser.Ran(CancelSteps(amount, quantity))
      ensures ok == AllSucceed(CancelSteps(amount, quantity), Works(browser.fails))
    {
      ok := browser.Execute(CancelSteps(amount, quantity));
    }

    /** Reads the detail of `ticker` in `segment` from the response its listing page requests. */
    method ReadTicker(listing: string, ticker: string, segment: string) returns (r: Option<Json>)
      modifies browser
      ensures browser.Ran(TickerSteps(listing, ticker, segment))
      ensures r == Correlate(AllSucceed(TickerSteps(listing, ticker, segment), Works(browser.fails)),
                              browser.backend(TickerTarget(ticker, segment)))
    {
      var ok := browser.Execute(TickerSteps(listing, ticker, segment));
      r := Correlate(ok, browser.backend(TickerTarget(ticker, segment)));
    }

    /**
     * The detail of `ticker` in `segment`, read on its segment's listing; nothing,
     * without touching the browser, when `market` names no segment.
     */
    method GetTickerInfo(ticker: string, market: PyValue, segment: string) returns (r: Option<Json>)
      modifies browser
      ensures Validators.ValidateMarketType(market).Failure? ==> browser.Ran([]) && r == None
      ensures Validators.ValidateMarketType(market).Success? ==>
                var steps := TickerSteps(NavigationTickerUrl(Validators.ValidateMarketType(market).value), ticker, segment);
                browser.Ran(steps)
                && r == Correlate(AllSucceed(steps, Works(browser.fails)),
                                   browser.backend(TickerTarget(ticker, segment)))
    {
      match Validators.ValidateMarketType(market)
      case Failure(_) =>
        r := None;
        assert browser.trace == old(browser.trace) + Run([], Works(browser.fails));
        assert browser.ops == old(browser.ops) + Issued(Run([], Works(browser.fails)), browser.fails);
      case Success(m) =>
        r := ReadTicker(NavigationTickerUrl(m), ticker, segment);
    }

    /** The trading hours of the markets. */
    method GetMarketSchedule() returns (r: Option<Json>)
      modifies browser
      ensures browser.Made(Call.FetchData(API_MARKETS_SCHEDULE, DASHBOARD_URL), Succeeds(Call.FetchData(API_MARKETS_SCHEDULE, DASHBOARD_URL), browser.fails))
      ensures browser.closed == old(browser.closed)
      ensures r == FetchResult(Succeeds(Call.FetchData(API_MARKETS_SCHEDULE, DASHBOARD_URL), browser.fails),
                               browser.backend(API_MARKETS_SCHEDULE), None)
    {
      r := browser.FetchData(API_MARKETS_SCHEDULE, DASHBOARD_URL, None);
    }

    /** The account's orders. */
    method GetOrders() returns (r: Option<Json>)
      modifies browser
      ensures browser.Made(Call.FetchData(API_ORDERS, ORDERS_URL), Succeeds(Call.FetchData(API_ORDERS, ORDERS_URL), browser.fails))
      ensures browser.closed == old(browser.closed)
      ensures r == FetchResult(Succeeds(Call.FetchData(API_ORDERS, ORDERS_URL), browser.fails),
                               browser.backend(API_ORDERS), None)
    {
      r := browser.FetchData(API_ORDERS, ORDERS_URL, None);
    }

    /** The MEP exchange-rate quotes. */
    method GetMepValue() returns (r: Option<Json>)
      modifies browser
      ensures browser.Made(Call.FetchData(API_MEP_PRICES, DASHBOARD_URL), Succeeds(Call.FetchData(API_MEP_PRICES, DASHBOARD_URL), browser.fails))
      ensures browser.closed == old(browser.closed)
      ensures r == FetchResult(Succeeds(Call.FetchData(API_MEP_PRICES, DASHBOARD_URL), browser.fails),
                               browser.backend(API_MEP_PRICES), None)
    {
      r := browser.FetchData(API_MEP_PRICES, DASHBOARD_URL, None);
    }
  }
}
