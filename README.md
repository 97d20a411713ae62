# CocosBot, modelled in Dafny

CocosBot automates a retail brokerage web application (Cocos Capital) through a
headless browser. This project models its core and proves properties of the model:

- **Input validation** (`validators.dfy`). Order parameters, currencies, market
  types and credentials are checked before any browser work. Each check returns
  the validated value or the error the source raises. Upper-casing covers the
  letters whose upper-case form is ASCII, which are the only ones that can turn
  an input into a valid code (see "Left out").
- **MEP price reshaping** (`mep.dfy`). The dollar-MEP price document has the
  sections `open`, `close` and `overnight`. Each section's fields are renamed to
  `ticker`, `ask`, `bid`, `settlement_buy` and `settlement_sell`. A missing
  section or key yields nothing, and a non-object input raises a type error.
- **Two-factor code retrieval** (`mail.dfy`). The pipeline waits for the mail
  and logs into the mailbox. It searches the brokerage's messages, reads the
  code out of the HTML of the message that arrived last, then flags and
  expunges that message. The mailbox is a class whose state the operations
  change.
- **The browser bridge** (`bridge.dfy`). A `Browser` class logs two things:
  the bridge calls it receives and the page-level operations those calls
  issue. A call stops at its first failing operation. Response processing and
  data fetching are functions of the backend's answer.
- **Services** (`auth.dfy`, `market.dfy`, `account.dfy`). Login with two-factor
  code, logout, order creation and cancellation, ticker and market reads,
  withdrawals and account data. Each workflow is a fixed script of bridge
  calls. A workflow's effect is the script run up to its first failing call.
  Each workflow method is proved to make exactly that prefix of calls, and the
  page to see exactly the operations those calls issue. It is
  also proved to return what the source returns on success. On failure it
  returns the source's result, or raises its error: the failing phase's text
  wrapped around the cause (see "Left out" for how the cause is abstracted).
- **Endpoint discovery** (`discovery.dfy`). A crawl of the web application
  starts from its known URLs. It normalises every URL, skips the login and
  logout pages, visits each page once, and records the API calls each page
  triggers and the links it shows. It then reports the sorted page list and
  the sorted set of `VERB path` endpoint keys. The crawl is an imperative loop
  proved against a specification of its result. Every visited page carries
  the record the site dictates. Every seed is visited. Every followed link of a
  visited page is itself visited. Conversely, every visited page is the normal
  form of a seed or of a link shown by a page visited before it.

Supporting modules:

- `text.dfy`: upper-casing, trimming, substring search, splitting and joining
  words, one-placeholder formatting, and Python's string order with `sorted`.
- `common.dfy`: enums, Python values, exceptions and JSON.
- `config.dfy`: selectors and URLs as fixed constants.
- `wrappers.dfy`: `Option` and `Result`.

## Model

| member | source | states |
|---|---|---|
| Validators.ValidateOrderParams | tests/utils/test_validators.py:14-91 | succeeds exactly when the ticker is a non-empty string, the upper-cased operation is BUY or SELL, the amount is a positive number and the limit is absent or positive; returns the upper-cased operation and the ticker; each failing check yields its own error message, checked in the source's order |
| Validators.OrderOperationCaseInsensitive | tests/utils/test_validators.py:29-38 | validating an upper-cased operation gives the same result as validating the operation as written |
| Validators.ValidateCurrency | tests/utils/test_validators.py:93-120 | succeeds exactly for ARS or USD in any letter case, returning the currency with that code; otherwise the error names the rejected input |
| Validators.CurrencyRoundTrip | tests/utils/test_validators.py:96-104 | validating a currency's own code gives back that currency |
| Validators.CurrencyCaseInsensitive | tests/utils/test_validators.py:106-110 | validation accepts a string exactly when it accepts its upper-cased form, with the same currency |
| Validators.MarketFromCode | tests/utils/test_validators.py:144-158 | finds the market type whose code is the string, and nothing exactly when no market type has that code |
| Validators.ValidateMarketType | tests/utils/test_validators.py:123-168 | an enum value passes unchanged; a string passes exactly when its upper-cased form is some market's code; any other string is "invalid" and any other type "unsupported" |
| Validators.MarketCodesDistinct | tests/utils/test_validators.py:144-158 | no two market types share a code |
| Validators.MarketTypeRoundTrip | tests/utils/test_validators.py:144-158 | validating a market type's code as a string gives back that market type |
| Validators.ValidateCredentials | tests/utils/test_validators.py:171-206 | succeeds exactly when every credential is a string with a non-blank character (the empty list included); otherwise the credentials error |
| Validators.CredentialIff | tests/utils/test_validators.py:184-187 | a credential is accepted exactly when it is a string with a non-whitespace character |
| Text.Upper | tests/utils/test_validators.py:29-38 | the upper-cased string is at least as long as the input and at most three times as long, since a letter such as the sharp s becomes several letters |
| Text.UpperConcat | tests/utils/test_validators.py:29-38 | upper-casing a concatenation upper-cases each part |
| Text.UpperKeeps | tests/utils/test_validators.py:29-38 | a string whose every character is its own upper-case form is unchanged by upper-casing |
| Text.UpperCapitals | tests/utils/test_validators.py:96-104 | a string of ASCII capitals, such as a currency or operation code, is unchanged by upper-casing |
| Text.UpperIdempotent | tests/utils/test_validators.py:106-110 | upper-casing twice equals upper-casing once |
| Text.TrimLeft | tests/utils/test_validators.py:184-187 | the result is no longer than the input and starts with no whitespace, where whitespace is that of a text strip: the ASCII controls tab to carriage return, the separators 0x1C-0x1F, space, next line, no-break space and the Unicode spaces and line and paragraph separators |
| Text.TrimLeftDropsSpace | tests/utils/test_validators.py:184-187 | the result is a suffix of the input, and everything dropped is whitespace |
| Text.TrimRight | tests/utils/test_validators.py:184-187 | the result is a prefix of the input, with no trailing whitespace in the sense of a text strip |
| Text.TrimRightDropsSpace | tests/utils/test_validators.py:184-187 | everything dropped from the end is whitespace |
| Text.TrimEmptyIff | tests/utils/test_validators.py:184-187 | trimming leaves nothing exactly when the string is all whitespace |
| MepData.Quote | tests/utils/test_data_transformations.py:205-237 | the reshaped quote has exactly the five target field names and none of the source-only names |
| MepData.QuoteRenames | tests/utils/test_data_transformations.py:205-237 | each target field holds the value of the source field it renames |
| MepData.Section | tests/utils/test_data_transformations.py:146-193 | a type error exactly when the section is not an object; a reshaped quote exactly when the section exists with every source field; nothing otherwise |
| MepData.SectionKeys | tests/utils/test_data_transformations.py:11-42 | the output has exactly the sections open, close and overnight |
| MepData.Assembled | tests/utils/test_data_transformations.py:11-42 | three reshaped sections make the input well formed, and the output holds exactly them |
| MepData.ProcessMepData | tests/utils/test_data_transformations.py:11-203 | a non-object input raises a type error; a result exactly when all three sections carry all five fields, holding the reshaped sections; an object with a missing section or key yields nothing |
| MepData.MepEdgeInputs | tests/utils/test_data_transformations.py:195-203 | None raises a type error; the empty dict yields nothing |
| MepData.MepValuesPreserved | tests/utils/test_data_transformations.py:303-335 | every value is carried over unchanged into its renamed field, zero and empty strings included |
| Common.Wrap | tests/services/test_auth.py:47-93 | the message of a wrapped error starts with the phase's text and ends with the cause's message |
| Common.WrapKeepsCause | tests/services/test_auth.py:47-93 | wrapping keeps the cause: two causes give the same wrapped message exactly when their messages agree |
| Common.WrappedAuthentication | tests/services/test_auth.py:47-93 | an authentication error raised for a failed phase is an authentication error whose message starts with the phase's text |
| Common.TwoFactorIsAuthentication | tests/services/test_auth.py:154-168 | a two-factor error is an authentication error and keeps its message |
| TwoFactorMail.CodeStyleAmongDeclarations | tests/utils/test_gmail_2fa.py:76-81 | a span whose style contains the code's font size is recognised whatever declarations surround it |
| TwoFactorMail.FirstCodeSpan | tests/utils/test_gmail_2fa.py:61-81 | no code exactly when no element is a code span; otherwise the code is the text of the first code span |
| TwoFactorMail.FirstHtmlPartAt | tests/utils/test_gmail_2fa.py:86-118 | a multipart message is read through its first text/html part, and has none exactly when no part is HTML |
| TwoFactorMail.HtmlOf | tests/utils/test_gmail_2fa.py:86-133 | a single-part body is its own HTML; a multipart body's HTML is its first HTML part |
| TwoFactorMail.CodeInMessage | tests/utils/test_gmail_2fa.py:86-150 | the code of a message is the code found in its HTML, and nothing when it has no HTML |
| TwoFactorMail.Matching | tests/utils/test_gmail_2fa.py:39-58 | the search result is no longer than the mailbox |
| TwoFactorMail.MatchingMembers | tests/utils/test_gmail_2fa.py:39-58 | the search result holds exactly the messages from the sender, and is empty exactly when there are none |
| TwoFactorMail.MatchingLast | tests/utils/test_gmail_2fa.py:201-212 | the last id of the search result is the last message from the sender to arrive |
| TwoFactorMail.Without | tests/utils/test_gmail_2fa.py:152-161 | expunging never lengthens the arrival order |
| TwoFactorMail.WithoutMembers | tests/utils/test_gmail_2fa.py:152-161 | an id survives expunging exactly when it was present and not flagged |
| TwoFactorMail.Surviving | tests/utils/test_gmail_2fa.py:152-161 | the surviving messages are the unflagged ones, unchanged |
| TwoFactorMail.Delete | tests/utils/test_gmail_2fa.py:152-161 | after deletion nothing remains flagged |
| TwoFactorMail.DeleteRemovesOnly | tests/utils/test_gmail_2fa.py:152-161 | deletion keeps the mailbox valid and removes the message; with nothing flagged before, it removes exactly that message and keeps the rest unchanged and in order |
| TwoFactorMail.NewestNone | tests/utils/test_gmail_2fa.py:188-199 | there is no newest message exactly when no message comes from the sender |
| TwoFactorMail.NewestIsLatestArrival | tests/utils/test_gmail_2fa.py:201-212 | the newest message is the last from the sender to arrive |
| TwoFactorMail.ObtainProperties | tests/utils/test_gmail_2fa.py:163-212 | fails exactly on refused credentials; a code comes from the sender's newest message, which is then deleted; without a code the mailbox is unchanged; validity is kept |
| TwoFactorMail.ObtainSleepsFirst | tests/utils/test_gmail_2fa.py:163-186 | the session sleeps once for delivery, first, and then logs in with the given user |
| TwoFactorMail.Mailbox.constructor | tests/utils/test_gmail_2fa.py:14-37 | a session over the given account starts with the given contents and an empty log |
| TwoFactorMail.Mailbox.Sleep | tests/utils/test_gmail_2fa.py:163-186 | logs the pause and nothing else |
| TwoFactorMail.Mailbox.Connect | tests/utils/test_gmail_2fa.py:14-37 | login succeeds exactly on the account's credentials, then selects the inbox; the login is logged either way |
| TwoFactorMail.Mailbox.SearchFrom | tests/utils/test_gmail_2fa.py:39-58 | logs the FROM criterion and replies with the sender's ids in arrival order, space-separated |
| TwoFactorMail.Mailbox.Fetch | tests/utils/test_gmail_2fa.py:86-133 | logs the fetch and returns the message when it exists |
| TwoFactorMail.Mailbox.Store | tests/utils/test_gmail_2fa.py:152-161 | logs the store command and adds the message to the flagged set |
| TwoFactorMail.Mailbox.Expunge | tests/utils/test_gmail_2fa.py:152-161 | logs the expunge and removes exactly the flagged messages |
| TwoFactorMail.SearchMessages | tests/utils/test_gmail_2fa.py:39-58 | the split reply is exactly the sender's ids, in arrival order |
| TwoFactorMail.DeleteMessage | tests/utils/test_gmail_2fa.py:152-161 | issues store and then expunge; the mailbox becomes the result of deleting the message |
| TwoFactorMail.ExtractAndDelete | tests/utils/test_gmail_2fa.py:86-150 | yields the message's code; fetches it, and deletes it exactly when a code was read |
| TwoFactorMail.ExtractNewest | tests/utils/test_gmail_2fa.py:188-212 | searches, then extracts from the last id of the result; with no result it does nothing more and yields no code |
| TwoFactorMail.ObtainCode | tests/utils/test_gmail_2fa.py:163-212 | result, requests and final mailbox match the obtain-code specification, which the lemmas characterise |
| Bridge.Keystrokes | tests/core/test_browser.py:236-279 | typing a value issues two operations per character |
| Bridge.KeystrokeAt | tests/core/test_browser.py:236-279 | character i is typed alone at position 2i, followed by the pause |
| Bridge.KeystrokesConcat | tests/core/test_browser.py:236-279 | typing a concatenation types the first part and then the second |
| Bridge.DelayedFillLayout | tests/core/test_browser.py:264-270 | a slow fill clears the box first, then types each character followed by a pause |
| Bridge.AttemptShape | tests/core/test_browser.py:164-189 | a call issues a prefix of its operations: all of them when none fails, otherwise up to and including the first that fails |
| Bridge.AttemptConcat | tests/core/test_browser.py:164-189 | attempting two operation lists in a row is attempting the first and continuing only when it completes |
| Bridge.Run | tests/services/test_auth.py:77-93 | a workflow makes a prefix of its script, and all of it when every call succeeds |
| Bridge.RunStops | tests/services/test_auth.py:77-93 | when some call fails, the workflow stops right after the first failing call, all earlier calls having succeeded |
| Bridge.AllSucceedConcat | tests/services/test_auth.py:77-93 | a concatenated script succeeds exactly when both parts do |
| Bridge.RunConcat | tests/services/test_auth.py:77-93 | running two scripts in a row runs the second only when the first succeeds |
| Bridge.IssuedConcat | tests/core/test_browser.py:153-205 | the operations issued by two runs of calls in a row are those of the first followed by those of the second |
| Bridge.IssuedCompletes | tests/core/test_browser.py:153-205 | no operation the calls issued failed exactly when every call succeeded |
| Bridge.IssuedWhole | tests/core/test_browser.py:153-205 | when every call of a script succeeds, the page sees each call's full operation list, in script order |
| Bridge.IssuedClose | tests/core/test_browser.py:65-96 | closing the browser adds no operation of a bridge call; its own shutdown is logged by the close itself |
| Bridge.CallCount | tests/services/test_auth.py:26-45 | counting calls of one method never exceeds the number of calls |
| Bridge.CallCountZero | tests/services/test_auth.py:77-93 | a count is zero exactly when no call is of that method |
| Bridge.CallCountConcat | tests/services/test_auth.py:26-45 | counts add up over concatenation |
| Bridge.CallCountPrefix | tests/services/test_auth.py:77-93 | a prefix never has more calls of a method than the whole |
| Bridge.ProcessResponse | tests/core/test_browser.py:336-376 | the parsed body on status 200; nothing on another status or an unparsable body |
| Bridge.FetchResult | tests/core/test_browser.py:408-568 | nothing on failed navigation or timeout; otherwise the processed body; with a callback, exactly the callback's value on that body; without one, the body unless it is an empty array or object |
| Bridge.Correlate | tests/services/test_user.py:110-160 | a result only when every step succeeded and a status-200 response arrived, and then its parsed body; nothing for an unparsable body |
| Bridge.Browser.constructor | tests/core/test_browser.py:8-37 | a new browser is open, with empty logs |
| Bridge.Browser.GoTo | tests/core/test_browser.py:98-121 | logs the call, navigates, and succeeds exactly when navigation does |
| Bridge.Browser.WaitForElement | tests/core/test_browser.py:123-151 | logs the call and waits for the selector with the given timeout |
| Bridge.Browser.ClickElement | tests/core/test_browser.py:153-178 | waits for the element with the default timeout, then clicks it, stopping at the first failure |
| Bridge.Browser.FillInput | tests/core/test_browser.py:180-205 | waits for the element, then fills it with the value |
| Bridge.Browser.FillInputWithEvents | tests/core/test_browser.py:207-234 | fills the element, presses Enter, then blurs it |
| Bridge.Browser.FillInputWithDelay | tests/core/test_browser.py:236-279 | clears the box, then types the value one character at a time with a pause after each |
| Bridge.Browser.TypeSlowly | tests/core/test_browser.py:250-262 | the typing loop issues exactly the keystroke operations of the fill, stopping at the first failing one |
| Bridge.Browser.GetTextContent | tests/core/test_browser.py:281-309 | waits for the element and reads it; returns its text exactly when both succeed |
| Bridge.Browser.SearchAndSelect | tests/core/test_browser.py:378-406 | fills the search box and clicks the option whose selector is the template filled with the term |
| Bridge.Browser.FetchData | tests/core/test_browser.py:408-568 | arms the response wait, navigates, and returns the fetch result for the target's response |
| Bridge.Browser.ExpectResponse | tests/services/test_market.py:73-101 | logs the call and arms the wait for the target's response |
| Bridge.Browser.Blur | tests/services/test_user.py:66-86 | logs the call and blurs the element |
| Bridge.Browser.Sleep | tests/services/test_market.py:218-227 | logs the pause, which never fails |
| Bridge.Browser.Execute | tests/services/test_auth.py:77-93 | makes the script's calls up to the first that raises, the page seeing exactly the operations those calls issue; reports whether all succeeded |
| Bridge.Browser.CloseBrowser | tests/core/test_browser.py:65-96 | closes the browser and stops the driver the first time only, so a second close issues nothing |
| Text.FormatFills | tests/core/test_browser.py:399-406 | a template with one placeholder becomes its text with the argument in place of the placeholder |
| Text.FormatNoPlaceholder | tests/core/test_browser.py:399-406 | a template without a placeholder is left unchanged |
| AuthFlow.UsableCode | tests/services/test_auth.py:47-75 | a code is typed exactly when the mailbox produced one of six digits |
| AuthFlow.DigitSteps | tests/services/test_auth.py:26-45 | one fill per digit, digit i going into box i |
| AuthFlow.LoginTraceParts | tests/services/test_auth.py:26-93 | a failed credential step is followed by closing the browser; otherwise the digits come next, then the device prompt on success or the close |
| AuthFlow.CredentialCounts | tests/services/test_auth.py:26-45 | the credential step navigates once, fills twice, clicks once and never closes |
| AuthFlow.CredentialShapeCounts | tests/services/test_auth.py:26-45 | the same counts for any selectors |
| AuthFlow.LoginSuccessShape | tests/services/test_auth.py:26-45 | a successful login navigates once, fills eight boxes, clicks twice, never closes, and ends on the device prompt |
| AuthFlow.BodyNeverCloses | tests/services/test_auth.py:77-93 | the login body never closes the browser |
| AuthFlow.LoginFailureCloses | tests/services/test_auth.py:77-93 | a failed login closes the browser exactly once, as its last call |
| AuthFlow.ClosesOnce | tests/services/test_auth.py:77-93 | closing after part of a close-free script closes exactly once |
| AuthFlow.BadCodeTypesNoDigit | tests/services/test_auth.py:47-75 | without a usable code no digit is typed: the credentials are followed by the close |
| AuthFlow.NavigationFailureCloses | tests/services/test_auth.py:77-93 | when opening the login page fails, the browser is closed next |
| AuthFlow.LogoutShape | tests/services/test_auth.py:127-151 | a successful logout navigates once, clicks once and waits once; a failed navigation ends it there |
| AuthFlow.AuthService.constructor | tests/services/test_auth.py:21-24 | the service keeps the browser it is given |
| AuthFlow.AuthService.EnterCredentials | tests/services/test_auth.py:26-45 | runs the credential script and reports whether it succeeded |
| AuthFlow.AuthService.HandleTwoFactor | tests/services/test_auth.py:95-106 | obtains the code from the mailbox; types it when usable; otherwise fails with the mailbox's error or a two-factor error, typing nothing; a digit that cannot be typed fails with a browser error |
| AuthFlow.AuthService.TypeCode | tests/services/test_auth.py:95-106 | types the code one digit per box, stopping at the first box that cannot be filled |
| AuthFlow.AuthService.HandleSaveDevicePrompt | tests/services/test_auth.py:108-125 | makes one click on the save-device button and raises nothing, whether or not the click succeeds |
| AuthFlow.AuthService.Authenticate | tests/services/test_auth.py:26-93 | the login's steps that may raise: makes the credential, digit and device-prompt calls up to the first failure, the page seeing exactly their operations; succeeds exactly when the login does; a failure reports its cause and leaves the browser open |
| AuthFlow.AuthService.Login | tests/services/test_auth.py:26-93 | makes exactly the login calls, and the page sees exactly their operations plus the shutdown of a first close; on any failure closes the browser and raises an authentication error whose message is the login error wrapped around the cause (a broken browser step, the mailbox's error, or the two-factor error for an unusable code); reads the mailbox only after the credentials succeed |
| AuthFlow.AuthenticateTraceParts | tests/services/test_auth.py:77-93 | before any closing, a broken credential step ends the login's calls; otherwise the digits follow, then the device prompt on success |
| AuthFlow.LoginTraceCloses | tests/services/test_auth.py:77-93 | a login's calls are those before closing, followed by the close exactly when it failed |
| AuthFlow.AuthService.Logout | tests/services/test_auth.py:127-151 | runs the logout script and reports whether it succeeded |
| MarketFlow.StocksListing | tests/services/test_market.py:187-194 | the stocks listing URL mentions "acciones" |
| MarketFlow.ListingsDistinct | tests/services/test_market.py:204-209 | every market type has a listing URL under the market root, and no two share one |
| MarketFlow.OperationFromCode | tests/services/test_market.py:211-216 | a code names an operation exactly when it is BUY or SELL |
| MarketFlow.OperationArgResolves | tests/services/test_market.py:21-58 | an enum value and its name resolve to the same operation; names are resolved after upper-casing |
| MarketFlow.OpenCounts | tests/services/test_market.py:21-33 | opening a ticker navigates once and searches once |
| MarketFlow.OpenShapeCounts | tests/services/test_market.py:21-33 | the same counts for any selectors |
| MarketFlow.LimitPartCounts | tests/services/test_market.py:35-46 | a limit adds one slow fill and one pause, and nothing without one |
| MarketFlow.FormCounts | tests/services/test_market.py:21-58 | the order form fills slowly and pauses once more exactly when there is a limit |
| MarketFlow.OrderSuccessShape | tests/services/test_market.py:21-58 | a successful order runs its whole script: one navigation, one search, a slow fill exactly when there is a limit, and one pause more with a limit than without |
| MarketFlow.OrderNavigationFailure | tests/services/test_market.py:60-71 | when navigation fails nothing else is tried and the order fails |
| MarketFlow.UnknownOperationFails | tests/services/test_market.py:60-71 | an operation other than BUY or SELL stops after opening the ticker and the order fails |
| MarketFlow.LimitCounts | tests/services/test_market.py:218-227 | the limit step clicks twice, fills slowly once and sleeps three seconds |
| MarketFlow.LimitShapeCounts | tests/services/test_market.py:218-227 | the same counts for any selectors |
| MarketFlow.AmountCounts | tests/services/test_market.py:229-238 | entering an amount clicks once and fills once |
| MarketFlow.ConfirmCounts | tests/services/test_market.py:240-248 | confirming clicks twice and sleeps four seconds |
| MarketFlow.TwoClicksAndSleep | tests/services/test_market.py:240-248 | two clicks and a pause count as such for any selectors |
| MarketFlow.OrderRowMentions | tests/services/test_market.py:152-161 | the order row to cancel is picked by both its amount and its quantity |
| MarketFlow.CancelCounts | tests/services/test_market.py:152-161 | cancelling navigates once, waits once and clicks twice |
| MarketFlow.TickerNavigationFailure | tests/services/test_market.py:102-111 | when navigation fails the ticker read yields nothing |
| MarketFlow.MarketService.constructor | tests/services/test_market.py:16-19 | the service keeps the browser it is given |
| MarketFlow.MarketService.ConfigureOperation | tests/services/test_market.py:211-216 | clicks the operation's button; fails without a call for an unknown operation |
| MarketFlow.MarketService.ConfigureLimitOrder | tests/services/test_market.py:218-227 | runs the limit script and reports whether it succeeded |
| MarketFlow.MarketService.EnterAmount | tests/services/test_market.py:229-238 | clicks and fills the operation's amount box; fails without a call for an unknown operation |
| MarketFlow.MarketService.ConfirmOperation | tests/services/test_market.py:240-258 | runs the confirmation script; any failure raises an order-creation error whose message is the confirmation error wrapped around the browser's failure |
| MarketFlow.MarketService.OpenTicker | tests/services/test_market.py:21-33 | navigates to the listing and selects the ticker |
| MarketFlow.MarketService.FillOrderForm | tests/services/test_market.py:35-58 | fills the limit when given, the amount, and confirms |
| MarketFlow.MarketService.TradeOnPanel | tests/services/test_market.py:21-58 | picks the operation, then fills the form |
| MarketFlow.MarketService.SubmitOrder | tests/services/test_market.py:21-58 | runs the whole order script up to its first failure |
| MarketFlow.MarketService.CreateOrder | tests/services/test_market.py:21-71 | runs the order script for the market's listing; true on success, otherwise an order-creation error whose message is the order error wrapped around the failure |
| MarketFlow.MarketService.CancelOrder | tests/services/test_market.py:152-172 | runs the cancel script; true exactly when it succeeds |
| MarketFlow.MarketService.ReadTicker | tests/services/test_market.py:73-111 | runs the ticker script and correlates it with the ticker's response |
| MarketFlow.MarketService.GetTickerInfo | tests/services/test_market.py:73-111 | an invalid market type yields nothing without any call; otherwise the ticker read for the market's listing |
| MarketFlow.MarketService.GetMarketSchedule | tests/services/test_market.py:113-124 | one fetch of the schedule endpoint, returning its fetch result |
| MarketFlow.MarketService.GetOrders | tests/services/test_market.py:126-147 | one fetch of the orders endpoint, returning its fetch result |
| MarketFlow.MarketService.GetMepValue | tests/services/test_market.py:174-185 | one fetch of the MEP prices endpoint, returning its fetch result |
| AccountFlow.BalanceOf | tests/services/test_user.py:178-202 | the balance field exactly when the document has a non-null one |
| AccountFlow.BalanceScenario | tests/services/test_user.py:178-202 | a document with a balance yields it; one without yields nothing |
| AccountFlow.CurrencyTab | tests/services/test_user.py:66-98 | a tab exactly for a currency value |
| AccountFlow.CurrencyTabsDistinct | tests/services/test_user.py:66-86 | ARS and USD select different tabs |
| AccountFlow.WithdrawCounts | tests/services/test_user.py:66-86 | the withdraw form clicks twice, fills once, blurs once and waits once without navigating; the fill comes before the blur, and the blur before the wait |
| AccountFlow.WithdrawShapeCounts | tests/services/test_user.py:66-86 | the same counts for any selectors |
| AccountFlow.WithdrawOtherValue | tests/services/test_user.py:87-98 | a value that is not a currency only opens the panel and fills nothing |
| AccountFlow.AccountsTargetsDistinct | tests/services/test_user.py:110-139 | ARS and USD accounts come from different endpoints |
| AccountFlow.LinkedAccountsPanelFailure | tests/services/test_user.py:140-150 | when the panel cannot be opened, there are no accounts |
| AccountFlow.LinkedAccountsDelivered | tests/services/test_user.py:110-139 | when every step works and the response arrives, its accounts are returned |
| AccountFlow.UserService.constructor | tests/services/test_user.py:24-27 | the service keeps the browser it is given |
| AccountFlow.UserService.GetUserData | tests/services/test_user.py:29-51 | one fetch of the user endpoint, returning its fetch result |
| AccountFlow.UserService.GetAccountTier | tests/services/test_user.py:53-64 | one fetch of the tier endpoint, returning its fetch result |
| AccountFlow.UserService.GetPortfolioData | tests/services/test_user.py:162-176 | one fetch of the portfolio endpoint, returning its fetch result |
| AccountFlow.UserService.GetPortfolioBalance | tests/services/test_user.py:178-202 | one fetch of the balance endpoint, reduced to its balance field |
| AccountFlow.UserService.GetAcademyData | tests/services/test_user.py:204-226 | one fetch of the academy endpoint, returning its fetch result |
| AccountFlow.UserService.NavigateWithdrawForm | tests/services/test_user.py:66-108 | runs the withdraw script; true exactly for a currency whose script succeeds |
| AccountFlow.UserService.GetLinkedAccounts | tests/services/test_user.py:110-160 | runs the linked-accounts script and correlates it with the currency's accounts response |
| Text.StripTrailing | scripts/discover_endpoints.py:57-60 | a prefix of the input not ending in the stripped character |
| Text.StripDropsOnly | scripts/discover_endpoints.py:57-60 | everything stripped is that character |
| Text.ContainsIff | scripts/discover_endpoints.py:51-54 | substring search finds the pattern exactly when it occurs at some position |
| Text.ContainsAt | scripts/discover_endpoints.py:98-99 | a pattern occurring at a position is found |
| Text.Before | scripts/discover_endpoints.py:157-160 | the part before the first separator, or the whole string without one |
| Text.BeforeExcludes | scripts/discover_endpoints.py:157-160 | that part contains no separator |
| Text.SkipSpace | tests/utils/test_gmail_2fa.py:39-58 | the result is no longer than the input and starts with no byte whitespace |
| Text.WordNoSpace | tests/utils/test_gmail_2fa.py:39-58 | a word contains no whitespace |
| Text.SplitWordsTokens | tests/utils/test_gmail_2fa.py:39-58 | splitting yields only non-empty, whitespace-free words |
| Text.SplitJoin | tests/utils/test_gmail_2fa.py:39-58 | splitting the space-joined ids gives back the ids |
| Text.LessTotal | scripts/discover_endpoints.py:169-170 | string order is total |
| Text.LessTransitive | scripts/discover_endpoints.py:169-170 | string order is transitive |
| Text.LeastExists | scripts/discover_endpoints.py:169-170 | every non-empty set of strings has a least element |
| Text.LeastUnique | scripts/discover_endpoints.py:169-170 | the least element is unique |
| Text.SortedListSorts | scripts/discover_endpoints.py:169-170 | sorting a set yields a strictly increasing list of exactly its elements |
| Discovery.MatchesAnyIff | scripts/discover_endpoints.py:51-54 | a string matches exactly when some pattern occurs in it |
| Discovery.ShouldSkipIff | scripts/discover_endpoints.py:51-54 | a URL is skipped exactly when one of the login, logout, register or password-reset patterns occurs in its path |
| Discovery.NormalizeShape | scripts/discover_endpoints.py:57-60 | the normal form is scheme://netloc/path with trailing slashes removed |
| Discovery.NormalizeIgnoresQuery | scripts/discover_endpoints.py:57-60 | URLs differing only in query or fragment normalise alike |
| Discovery.Filter | scripts/discover_endpoints.py:133-146 | filtering never lengthens a list |
| Discovery.FilterMembers | scripts/discover_endpoints.py:133-146 | an element survives exactly when it was there and is kept |
| Discovery.CapturedApiOnly | scripts/discover_endpoints.py:98-105 | only responses from the API domain are captured, and every one of them is |
| Discovery.EndpointKeyShape | scripts/discover_endpoints.py:157-160 | an endpoint key is the verb, a space, and the URL before its query |
| Discovery.FollowedLinksAppend | scripts/discover_endpoints.py:142-146 | each link adds its normal form exactly when it is on the app domain and not skipped |
| Discovery.RecordLinksSorted | scripts/discover_endpoints.py:150-155 | a page record lists exactly the page's followed links, sorted |
| Discovery.EndpointsOfAdd | scripts/discover_endpoints.py:157-160 | recording a new page adds exactly its calls' endpoint keys |
| Discovery.ClosedStep | scripts/discover_endpoints.py:112-148 | in a closed universe a URL's normal form and its page's links stay in the universe |
| Discovery.SeedUrls | scripts/discover_endpoints.py:82-87 | the starting set is the normal form of every known URL that is not skipped |
| Discovery.CollectLinks | scripts/discover_endpoints.py:133-146 | the links of a page are the normal forms of its app-domain, non-skipped links |
| Discovery.AddEndpoints | scripts/discover_endpoints.py:157-160 | adds exactly the endpoint keys of the calls |
| Discovery.Visit | scripts/discover_endpoints.py:121-155 | a page whose navigation fails records the error with no calls or links; otherwise its captured calls and sorted links |
| Discovery.FewerLeft | scripts/discover_endpoints.py:112-118 | visiting a new page of the universe leaves fewer unvisited pages |
| Discovery.FoundAllSource | scripts/discover_endpoints.py:142-146 | a link queued by the pages visited so far comes from one of those pages |
| Discovery.LedFromAppend | scripts/discover_endpoints.py:112-118 | visiting the normal form of a seed or of a queued link keeps every visited page traceable to a seed or to an earlier page's link |
| Discovery.TracedVisit | scripts/discover_endpoints.py:112-148 | after a visit, every waiting URL is still a seed or a link of a visited page, and the new page is the normal form of the URL just popped |
| Discovery.DerivedLed | scripts/discover_endpoints.py:112-148 | a visiting order in which each page is the normal form of a seed or of an earlier page's link is traceable in the sense of the crawl's result |
| Discovery.CrawlDone | scripts/discover_endpoints.py:112-166 | when nothing is left to visit, every seed is visited, every followed link of a visited page is visited, and every visited page is the normal form of a seed or of a link of a page visited before it |
| Discovery.Crawl | scripts/discover_endpoints.py:110-166 | the log lists each visited page exactly once; each visited page holds the record the site dictates; the endpoints are exactly those of the records; every seed is visited; every followed link of a visited page is visited; every visited page is the normal form of a seed or of a link of a page visited before it |
| Discovery.Discover | scripts/discover_endpoints.py:82-170 | the report lists the visited pages sorted, each page's record, and the sorted endpoint keys; the crawl covers every seed and every followed link; in visiting order, every reported page is the normal form of a known URL or of a link of a page reported before it |

## Left out

- The browser's launch (headed or headless), its context-manager protocol and
  screenshots. These configure the browser driver, and the model has no driver.
- The page itself. Whether a page-level operation fails, what the backend
  answers and what an element shows are fixed oracles of a `Browser`. Timeouts
  are the oracle's answer "no response".
- Sleeping is a logged call (`Sleep`). No time passes.
- Selectors, page URLs and API paths are constants whose values are
  illustrative. The model keeps them distinct where a workflow relies on that.
  The configuration tables are not part of this model.
- Float formatting of amounts and limits (`1000.50` shown as `1000,50`). The
  workflows take an amount as its rendered text.
- Default arguments and logging calls of every service.
- AuthFlow.AuthService.Login, MarketFlow.MarketService.CreateOrder,
  MarketFlow.MarketService.ConfirmOperation: a raised error carries the phase's
  text and then its cause. The cause of a failed browser step is one abstract
  browser error, since the page's own exception text is not modelled. An error
  raised inside the order script (the confirmation error, an unknown operation)
  is also the browser error as cause. The tests match only the phase text, so
  the separator `": "` between phase and cause is the model's choice. A failed
  mailbox step (a refused IMAP login, a message that cannot be fetched) is one
  abstract mailbox error whose text is fixed: the IMAP server's own exception
  text, which the source passes on (tests/utils/test_gmail_2fa.py:29-35), is
  not modelled, so Login's message carries the fixed text in its place.
- Bridge.Browser.ClickElement, Bridge.Browser.FillInput,
  Bridge.Browser.GetTextContent: always wait with the default timeout. The
  optional `timeout` argument of these methods is not modelled.
- Bridge.Browser.FetchData: the `page.on("response", ...)` listener that fetching
  registers is not modelled. The result comes from the response the armed wait
  receives.
- Bridge.ProcessResponse: accepts only status 200, which is what the browser
  tests check. Other 2xx codes count as failures.
- TwoFactorMail.SearchMessages: the IMAP FROM criterion is modelled as an
  exact sender match. A real server matches a case-insensitive substring.
- TwoFactorMail.ExtractNewest: takes the last id of the search reply, as the
  tests pin it (`[b'10', b'20', b'30']` gives `b'30'`). Ids are single words
  in arrival order.
- HTML and MIME parsing are not modelled. A message already is its parts, and
  a document already is its elements.
- MarketFlow.MarketService.CreateOrder is split into helper methods that
  follow the source's helper functions. The split is a proof device, not a
  change of behaviour. AuthFlow.AuthService.Login is split the same way: its
  steps that may raise are AuthFlow.AuthService.Authenticate, and Login adds
  the closing and the wrapped error.
- AccountFlow.UserService.NavigateWithdrawForm starts from the current page,
  as the tests' mocked browser does. Navigating to the withdraw page first is
  not modelled.
- Text.Upper, Validators.ValidateOrderParams, Validators.ValidateCurrency,
  Validators.ValidateMarketType: upper-casing maps only the ASCII letters, the
  dotless i, the long s, the sharp s and the Latin ligatures (U+FB00-U+FB06),
  which are the letters whose upper-case form is ASCII. Any other character is
  kept as it is, where Python would upper-case it to another non-ASCII
  character. No accepted code contains such a character, and the error
  messages echo the input as given, so every validation result is the same as
  with a full case mapping.
- Discovery.Discover: logging into the application, the sleeps (the wait per
  page), the navigation timeout, registering
  the response listener, the printed report, the JSON output file, the
  timestamp, closing the browser and logging are not modelled.
- The known application URLs (`config/urls.py`) are not part of this model.
  They are the `appUrls` parameter of `Discovery.Discover`.
- URL parsing (`urlparse`) is an injected function `parse`. The site is an
  oracle giving each page's navigation error, its responses and its link
  targets.
- Discovery.Crawl: requires a finite set of URLs that holds the seeds and is
  closed under normalisation and link-following. The source crawls whatever
  the live site returns. Without such a bound the loop's termination cannot
  be stated.
- Discovery.Crawl picks the next URL nondeterministically (`:|`). Python's
  `set.pop` order is not modelled, and no contract depends on it.
