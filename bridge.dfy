/**
 * The browser bridge: a headless page driven through a small set of calls
 * (navigate, wait, click, fill, search-and-select, fetch a backend response,
 * close). The page itself is outside the model; it is represented by three
 * fixed oracles: which page-level operations fail, which backend response
 * arrives for a request, and what text an element shows.
 *
 * The bridge keeps two logs. `trace` lists the bridge calls in the order they
 * were made (what a workflow does); `ops` lists the page-level operations the
 * bridge issued for them (what the page sees). A call stops at its first
 * failing operation and then counts as raised.
 */
module Bridge {
  import opened Wrappers
  import opened Text
  import opened Common
  import Config

  /** A backend response: its status and whether its body parses as JSON. */
  datatype Body = Parsed(json: Json) | Unparsable
  datatype Response = Response(status: int, body: Body)

  /** Page-level operations. */
  datatype Op =
    | Navigate(url: string)
    | WaitSelector(sel: string, timeout: int)
    | PageClick(sel: string)
    | PageFill(sel: string, value: string)
    | LocatorFill(sel: string, value: string)
    | LocatorType(sel: string, text: string)
    | PressKey(key: string)
    | BlurElement(sel: string)
    | ReadText(sel: string)
    | ArmResponse(target: string)
    | Pause(secs: real)
    | ShutBrowser
    | StopDriver

  /** Bridge calls, as the workflows issue them (sleeping is logged here too, to keep its order). */
  datatype Call =
    | GoTo(url: string)
    | WaitForElement(sel: string, timeout: int)
    | ClickElement(sel: string)
    | FillInput(sel: string, value: string)
    | FillInputWithEvents(sel: string, value: string)
    | FillInputWithDelay(sel: string, value: string, delay: real)
    | GetTextContent(sel: string)
    | SearchAndSelect(box: string, term: string, template: string)
    | FetchData(target: string, nav: string)
    | ExpectResponse(target: string)
    | Blur(sel: string)
    | Sleep(secs: real)
    | CloseBrowser

  /** Typing `value` one character at a time, pausing `delay` seconds after each. */
  function Keystrokes(sel: string, value: string, delay: real): (r: seq<Op>)
    ensures |r| == 2 * |value|
  {
    if value == [] then []
    else [LocatorType(sel, [value[0]]), Pause(delay)] + Keystrokes(sel, value[1..], delay)
  }

  /** Character `i` of the value is typed at position `2 * i`, and the pause after it follows. */
  lemma {:induction false} KeystrokeAt(sel: string, value: string, delay: real, i: nat)
    requires i < |value|
    ensures Keystrokes(sel, value, delay)[2 * i] == LocatorType(sel, [value[i]])
    ensures Keystrokes(sel, value, delay)[2 * i + 1] == Pause(delay)
    decreases i
  {
    var head := [LocatorType(sel, [value[0]]), Pause(delay)];
    var rest := Keystrokes(sel, value[1..], delay);
    assert Keystrokes(sel, value, delay) == head + rest;
    if i > 0 {
      KeystrokeAt(sel, value[1..], delay, i - 1);
      assert (head + rest)[2 * i] == rest[2 * (i - 1)];
      assert (head + rest)[2 * i + 1] == rest[2 * (i - 1) + 1];
    }
  }

  lemma {:induction false} KeystrokesConcat(sel: string, a: string, b: string, delay: real)
    ensures Keystrokes(sel, a + b, delay) == Keystrokes(sel, a, delay) + Keystrokes(sel, b, delay)
    decreases |a|
  {
    if a != [] {
      assert (a + b)[1..] == a[1..] + b;
      KeystrokesConcat(sel, a[1..], b, delay);
    } else {
      assert a + b == b;
    }
  }

  /** Where each keystroke of a slow fill sits among the call's operations. */
  lemma DelayedFillLayout(sel: string, value: string, delay: real, i: nat)
    requires i < |value|
    ensures |OpsOf(FillInputWithDelay(sel, value, delay))| == 1 + 2 * |value|
    ensures OpsOf(FillInputWithDelay(sel, value, delay))[1 + 2 * i] == LocatorType(sel, [value[i]])
    ensures OpsOf(FillInputWithDelay(sel, value, delay))[2 + 2 * i] == Pause(delay)
  {
    var k := Keystrokes(sel, value, delay);
    KeystrokeAt(sel, value, delay, i);
    assert ([LocatorFill(sel, "")] + k)[1 + 2 * i] == k[2 * i];
    assert ([LocatorFill(sel, "")] + k)[2 + 2 * i] == k[2 * i + 1];
  }

  /** The page-level operations each call issues when nothing fails. */
  function OpsOf(c: Call): seq<Op> {
    match c
    case GoTo(u) => [Navigate(u)]
    case WaitForElement(s, t) => [WaitSelector(s, t)]
    case ClickElement(s) => [WaitSelector(s, Config.DEFAULT_TIMEOUT), PageClick(s)]
    case FillInput(s, v) => [WaitSelector(s, Config.DEFAULT_TIMEOUT), PageFill(s, v)]
    case FillInputWithEvents(s, v) => [PageFill(s, v), PressKey("Enter"), BlurElement(s)]
    case FillInputWithDelay(s, v, d) => [LocatorFill(s, "")] + Keystrokes(s, v, d)
    case GetTextContent(s) => [WaitSelector(s, Config.DEFAULT_TIMEOUT), ReadText(s)]
    case SearchAndSelect(b, t, tpl) =>
      var item := Format(tpl, t);
      [WaitSelector(b, Config.DEFAULT_TIMEOUT), PageFill(b, t),
       WaitSelector(item, Config.DEFAULT_TIMEOUT), PageClick(item)]
    case FetchData(t, n) => [ArmResponse(t), Navigate(n)]
    case ExpectResponse(t) => [ArmResponse(t)]
    case Blur(s) => [BlurElement(s)]
    case Sleep(d) => [Pause(d)]
    case CloseBrowser => []
  }

  /** Sleeping and shutting down never fail; every other operation fails when the page says so. */
  predicate Breaks(o: Op, fails: Op -> bool) {
    !(o.Pause? || o.ShutBrowser? || o.StopDriver?) && fails(o)
  }

  predicate Completes(ops: seq<Op>, fails: Op -> bool) {
    forall i :: 0 <= i < |ops| ==> !Breaks(ops[i], fails)
  }

  /** The operations actually issued: all of `ops` up to and including the first that fails. */
  function Attempt(ops: seq<Op>, fails: Op -> bool): seq<Op> {
    if ops == [] then []
    else if Breaks(ops[0], fails) then [ops[0]]
    else [ops[0]] + Attempt(ops[1..], fails)
  }

  /** An attempt is a prefix of the operations: all of them when none fails, else cut right after the first failure. */
  lemma {:induction false} AttemptShape(ops: seq<Op>, fails: Op -> bool)
    ensures Attempt(ops, fails) <= ops
    ensures Completes(ops, fails) ==> Attempt(ops, fails) == ops
    ensures !Completes(ops, fails) ==>
              var r := Attempt(ops, fails);
              r != [] && Breaks(r[|r| - 1], fails) && Completes(r[..|r| - 1], fails)
    decreases |ops|
  {
    if ops != [] && !Breaks(ops[0], fails) {
      var rest := Attempt(ops[1..], fails);
      AttemptShape(ops[1..], fails);
      AttemptCons(ops[0], ops[1..], fails);
      assert ops == [ops[0]] + ops[1..];
      if !Completes(ops, fails) {
        assert ([ops[0]] + rest)[..|rest|] == [ops[0]] + rest[..|rest| - 1];
        AttemptCons(ops[0], rest[..|rest| - 1], fails);
      }
    }
  }

  lemma {:induction false} AttemptConcat(a: seq<Op>, b: seq<Op>, fails: Op -> bool)
    ensures Attempt(a + b, fails) == if Completes(a, fails) then a + Attempt(b, fails) else Attempt(a, fails)
    ensures Completes(a + b, fails) == (Completes(a, fails) && Completes(b, fails))
    decreases |a|
  {
    if a == [] {
      assert a + b == b;
    } else {
      var h, t := a[0], a[1..];
      assert a == [h] + t;
      assert a + b == [h] + (t + b);
      AttemptConcat(t, b, fails);
      AttemptCons(h, t, fails);
      AttemptCons(h, t + b, fails);
      Associative([h], t, Attempt(b, fails));
    }
  }

  lemma AttemptCons(o: Op, rest: seq<Op>, fails: Op -> bool)
    ensures Attempt([o] + rest, fails) == if Breaks(o, fails) then [o] else [o] + Attempt(rest, fails)
    ensures Completes([o] + rest, fails) == (!Breaks(o, fails) && Completes(rest, fails))
  {
    assert ([o] + rest)[1..] == rest;
    if !Breaks(o, fails) && Completes(rest, fails) {
      forall i | 0 <= i < |[o] + rest| ensures !Breaks(([o] + rest)[i], fails) {
        if i > 0 { assert ([o] + rest)[i] == rest[i - 1]; }
      }
    }
  }

  /** A call succeeds when none of its operations fails. */
  predicate Succeeds(c: Call, fails: Op -> bool) {
    Completes(OpsOf(c), fails)
  }

  /** Success of calls, as a function value (so scripts can be reasoned about for any outcome). */
  function Works(fails: Op -> bool): Call -> bool {
    c => Succeeds(c, fails)
  }

  predicate AllSucceed(cs: seq<Call>, works: Call -> bool) {
    forall i :: 0 <= i < |cs| ==> works(cs[i])
  }

  lemma AllSucceedCons(cs: seq<Call>, works: Call -> bool)
    requires cs != []
    ensures AllSucceed(cs, works) == (works(cs[0]) && AllSucceed(cs[1..], works))
  {
    if works(cs[0]) && AllSucceed(cs[1..], works) {
      forall i | 0 <= i < |cs| ensures works(cs[i]) {
        if i > 0 { assert cs[i] == cs[1..][i - 1]; }
      }
    }
  }

  /** The calls a script actually makes: all of them up to and including the first that raises. */
  function Run(cs: seq<Call>, works: Call -> bool): (r: seq<Call>)
    ensures r <= cs
    ensures AllSucceed(cs, works) ==> r == cs
  {
    if cs == [] then []
    else if !works(cs[0]) then [cs[0]]
    else
      AllSucceedCons(cs, works);
      [cs[0]] + Run(cs[1..], works)
  }

  /** A script with a failing call stops right after the first one that fails. */
  lemma {:induction false} RunStops(cs: seq<Call>, works: Call -> bool)
    requires !AllSucceed(cs, works)
    ensures var r := Run(cs, works);
            r != [] && !works(r[|r| - 1]) && AllSucceed(r[..|r| - 1], works)
    decreases |cs|
  {
    AllSucceedCons(cs, works);
    if works(cs[0]) {
      RunStops(cs[1..], works);
      var rest := Run(cs[1..], works);
      assert Run(cs, works) == [cs[0]] + rest;
      assert ([cs[0]] + rest)[..|rest|] == [cs[0]] + rest[..|rest| - 1];
      AllSucceedCons([cs[0]] + rest[..|rest| - 1], works);
      assert ([cs[0]] + rest[..|rest| - 1])[1..] == rest[..|rest| - 1];
    } else {
      assert Run(cs, works) == [cs[0]];
      assert [cs[0]][..0] == [];
    }
  }

  /** A concatenation succeeds exactly when both of its parts do. */
  lemma {:induction false} AllSucceedConcat(a: seq<Call>, b: seq<Call>, works: Call -> bool)
    ensures AllSucceed(a + b, works) == (AllSucceed(a, works) && AllSucceed(b, works))
  {
    if AllSucceed(a, works) && AllSucceed(b, works) {
      forall i | 0 <= i < |a + b| ensures works((a + b)[i]) {
        if i >= |a| { assert (a + b)[i] == b[i - |a|]; }
      }
    }
    if AllSucceed(a + b, works) {
      forall i | 0 <= i < |a| ensures works(a[i]) {
        assert (a + b)[i] == a[i];
      }
      forall i | 0 <= i < |b| ensures works(b[i]) {
        assert (a + b)[|a| + i] == b[i];
      }
    }
  }

  /** Running two scripts one after the other is running their concatenation. */
  lemma {:induction false} RunConcat(a: seq<Call>, b: seq<Call>, works: Call -> bool)
    ensures Run(a + b, works) == if AllSucceed(a, works) then a + Run(b, works) else Run(a, works)
    ensures AllSucceed(a + b, works) == (AllSucceed(a, works) && AllSucceed(b, works))
    decreases |a|
  {
    AllSucceedConcat(a, b, works);
    if a == [] {
      assert a + b == b;
    } else {
      assert (a + b)[0] == a[0];
      assert (a + b)[1..] == a[1..] + b;
      RunConcat(a[1..], b, works);
      AllSucceedCons(a, works);
    }
  }

  /** Running one call makes it, whatever its outcome. */
  lemma RunSingle(c: Call, works: Call -> bool)
    ensures Run([c], works) == [c]
    ensures AllSucceed([c], works) == works(c)
  {
    assert [c][1..] == [];
  }

  /** The page-level operations the calls of `made` issue, each up to its first failing operation. */
  function Issued(made: seq<Call>, fails: Op -> bool): seq<Op> {
    if made == [] then [] else Attempt(OpsOf(made[0]), fails) + Issued(made[1..], fails)
  }

  lemma {:induction false} IssuedConcat(a: seq<Call>, b: seq<Call>, fails: Op -> bool)
    ensures Issued(a + b, fails) == Issued(a, fails) + Issued(b, fails)
    decreases |a|
  {
    if a == [] {
      assert a + b == b;
    } else {
      assert (a + b)[0] == a[0];
      assert (a + b)[1..] == a[1..] + b;
      IssuedConcat(a[1..], b, fails);
    }
  }

  /** Closing the browser issues no page operation of its own. */
  lemma IssuedClose(made: seq<Call>, fails: Op -> bool)
    ensures Issued(made + [CloseBrowser], fails) == Issued(made, fails)
  {
    IssuedConcat(made, [CloseBrowser], fails);
    IssuedSingle(CloseBrowser, fails);
  }

  lemma IssuedRegroup(o0: seq<Op>, a: seq<Call>, b: seq<Call>, c: seq<Call>, fails: Op -> bool)
    ensures o0 + Issued(a, fails) + Issued(b, fails) + Issued(c, fails) == o0 + Issued(a + (b + c), fails)
  {
    IssuedConcat(b, c, fails);
    IssuedConcat(a, b + c, fails);
    Regroup(o0, Issued(a, fails), Issued(b, fails), Issued(c, fails));
  }

  lemma IssuedSingle(c: Call, fails: Op -> bool)
    ensures Issued([c], fails) == Attempt(OpsOf(c), fails)
  {
    assert [c][1..] == [];
  }

  /** No issued operation failed exactly when every call succeeded. */
  lemma {:induction false} IssuedCompletes(made: seq<Call>, fails: Op -> bool)
    ensures Completes(Issued(made, fails), fails) == AllSucceed(made, Works(fails))
    decreases |made|
  {
    if made != [] {
      var c := made[0];
      IssuedCompletes(made[1..], fails);
      AllSucceedCons(made, Works(fails));
      AttemptConcat(Attempt(OpsOf(c), fails), Issued(made[1..], fails), fails);
      AttemptShape(OpsOf(c), fails);
      if !Succeeds(c, fails) {
        var r := Attempt(OpsOf(c), fails);
        assert !Completes(r, fails) by {
          assert Breaks(r[|r| - 1], fails);
        }
      }
    }
  }

  /** The issued operations of a script's run are those of its calls: all of them when every call succeeds. */
  lemma {:induction false} IssuedWhole(cs: seq<Call>, fails: Op -> bool)
    requires AllSucceed(cs, Works(fails))
    ensures Issued(Run(cs, Works(fails)), fails) == Planned(cs)
    decreases |cs|
  {
    if cs != [] {
      AllSucceedCons(cs, Works(fails));
      AttemptShape(OpsOf(cs[0]), fails);
      IssuedWhole(cs[1..], fails);
      assert ([cs[0]] + Run(cs[1..], Works(fails)))[1..] == Run(cs[1..], Works(fails));
    }
  }

  /** The page-level operations of a script when nothing fails. */
  function Planned(cs: seq<Call>): seq<Op> {
    if cs == [] then [] else OpsOf(cs[0]) + Planned(cs[1..])
  }

  /** The bridge methods. */
  datatype Method =
    | GoToMethod | WaitMethod | ClickMethod | FillMethod | FillEventsMethod | FillDelayMethod
    | TextMethod | SearchMethod | FetchMethod | ExpectMethod | BlurMethod | SleepMethod | CloseMethod

  /** The bridge method a call goes through. */
  function MethodOf(c: Call): Method {
    match c
    case GoTo(_) => GoToMethod
    case WaitForElement(_, _) => WaitMethod
    case ClickElement(_) => ClickMethod
    case FillInput(_, _) => FillMethod
    case FillInputWithEvents(_, _) => FillEventsMethod
    case FillInputWithDelay(_, _, _) => FillDelayMethod
    case GetTextContent(_) => TextMethod
    case SearchAndSelect(_, _, _) => SearchMethod
    case FetchData(_, _) => FetchMethod
    case ExpectResponse(_) => ExpectMethod
    case Blur(_) => BlurMethod
    case Sleep(_) => SleepMethod
    case CloseBrowser => CloseMethod
  }

  /** How many calls of `cs` go through the bridge method `m`. */
  function CallCount(cs: seq<Call>, m: Method): (n: nat)
    ensures n <= |cs|
  {
    if cs == [] then 0
    else (if MethodOf(cs[0]) == m then 1 else 0) + CallCount(cs[1..], m)
  }

  /** A script makes no call through `m` exactly when none of its calls goes through `m`. */
  lemma {:induction false} CallCountZero(cs: seq<Call>, m: Method)
    ensures CallCount(cs, m) == 0 <==> forall i :: 0 <= i < |cs| ==> MethodOf(cs[i]) != m
    decreases |cs|
  {
    if cs != [] {
      CallCountZero(cs[1..], m);
      assert forall i :: 1 <= i < |cs| ==> cs[i] == cs[1..][i - 1];
    }
  }

  /** A call count is the first call's share plus the count over the rest. */
  lemma CallCountCons(cs: seq<Call>, m: Method)
    requires cs != []
    ensures CallCount(cs, m) == (if MethodOf(cs[0]) == m then 1 else 0) + CallCount(cs[1..], m)
  {
  }

  /** Whether the call `c` goes through `m`, as a count. */
  function Tally(c: Call, m: Method): nat {
    if MethodOf(c) == m then 1 else 0
  }

  /** Counting over short scripts written out call by call. */
  lemma CountTwoCalls(a: Call, b: Call, m: Method)
    ensures CallCount([a, b], m) == Tally(a, m) + Tally(b, m)
  {
    assert [a, b][1..] == [b];
    assert [b][1..] == [];
  }

  lemma CountThreeCalls(a: Call, b: Call, c: Call, m: Method)
    ensures CallCount([a, b, c], m) == Tally(a, m) + Tally(b, m) + Tally(c, m)
  {
    assert [a, b, c][1..] == [b, c];
    CountTwoCalls(b, c, m);
  }

  lemma CountFourCalls(a: Call, b: Call, c: Call, d: Call, m: Method)
    ensures CallCount([a, b, c, d], m) == Tally(a, m) + Tally(b, m) + Tally(c, m) + Tally(d, m)
  {
    assert [a, b, c, d][1..] == [b, c, d];
    CountThreeCalls(b, c, d, m);
  }

  lemma CountFiveCalls(a: Call, b: Call, c: Call, d: Call, e: Call, m: Method)
    ensures CallCount([a, b, c, d, e], m) == Tally(a, m) + Tally(b, m) + Tally(c, m) + Tally(d, m) + Tally(e, m)
  {
    assert [a, b, c, d, e][1..] == [b, c, d, e];
    CountFourCalls(b, c, d, e, m);
  }

  lemma {:induction false} CallCountConcat(a: seq<Call>, b: seq<Call>, m: Method)
    ensures CallCount(a + b, m) == CallCount(a, m) + CallCount(b, m)
    decreases |a|
  {
    if a == [] {
      assert a + b == b;
    } else {
      assert (a + b)[1..] == a[1..] + b;
      CallCountConcat(a[1..], b, m);
    }
  }

  /** A prefix of a script makes no more calls of a kind than the script. */
  lemma CallCountThree(a: seq<Call>, b: seq<Call>, c: seq<Call>, m: Method)
    ensures CallCount(a + b + c, m) == CallCount(a, m) + CallCount(b, m) + CallCount(c, m)
  {
    CallCountConcat(a + b, c, m);
    CallCountConcat(a, b, m);
  }

  lemma CallCountPrefix(a: seq<Call>, b: seq<Call>, m: Method)
    requires a <= b
    ensures CallCount(a, m) <= CallCount(b, m)
  {
    assert b == a + b[|a|..];
    CallCountConcat(a, b[|a|..], m);
  }

  lemma Associative<T>(a: seq<T>, b: seq<T>, c: seq<T>)
    ensures a + b + c == a + (b + c)
  {
  }

  lemma Regroup<T>(a: seq<T>, b: seq<T>, c: seq<T>, d: seq<T>)
    ensures a + b + c + d == a + (b + (c + d))
  {
  }

  /** A sequence is its prefix followed by the rest. */
  lemma PrefixRest<T>(p: seq<T>, s: seq<T>)
    requires p <= s
    ensures s == p + s[|p|..]
  {
  }

  lemma SplitAt<T>(s: seq<T>, k: nat)
    requires k < |s|
    ensures s[..k + 1] == s[..k] + [s[k]]
    ensures s == s[..k] + [s[k]] + s[k + 1..]
  {
  }

  /** A successful call extends a successful run. */
  lemma StepSucceeds(done: seq<Call>, c: Call, works: Call -> bool)
    requires AllSucceed(done, works) && works(c)
    ensures AllSucceed(done + [c], works)
  {
    RunConcat(done, [c], works);
    RunSingle(c, works);
  }

  /** A failing call after a successful run ends the script there. */
  lemma StepFails(done: seq<Call>, c: Call, rest: seq<Call>, works: Call -> bool)
    requires AllSucceed(done, works) && !works(c)
    ensures Run(done + [c] + rest, works) == done + [c]
    ensures !AllSucceed(done + [c] + rest, works)
  {
    RunSingle(c, works);
    RunConcat([c], rest, works);
    assert done + [c] + rest == done + ([c] + rest);
    RunConcat(done, [c] + rest, works);
  }

  /** What the JSON body of a response yields: the document on status 200 when it parses, otherwise nothing. */
  function ProcessResponse(resp: Response): (r: Option<Json>)
    ensures resp.status != 200 ==> r == None
    ensures resp.body.Unparsable? ==> r == None
    ensures resp.status == 200 && resp.body.Parsed? ==> r == Some(resp.body.json)
  {
    if resp.status == 200 then
      match resp.body
      case Parsed(j) => Some(j)
      case Unparsable => None
    else None
  }

  /**
   * The value of a fetch: nothing when navigation failed or no response arrived in time;
   * otherwise the processed body, handed to `processor` when one is given, and without one
   * dropped when it is an empty array or object.
   */
  function FetchResult(navigated: bool, resp: Option<Response>, processor: Option<Json -> Option<Json>>)
    : (r: Option<Json>)
    ensures !navigated || resp.None? ==> r == None
    ensures r.Some? ==> resp.Some? && ProcessResponse(resp.value).Some?
    ensures r.Some? && processor.None? ==>
              r == ProcessResponse(resp.value) && !IsEmptyAggregate(r.value)
    ensures r.Some? && processor.Some? ==> r == processor.value(ProcessResponse(resp.value).value)
    ensures (navigated && resp.Some? && processor.None? && ProcessResponse(resp.value).Some?
             && !IsEmptyAggregate(ProcessResponse(resp.value).value))
              ==> r == ProcessResponse(resp.value)
    ensures (navigated && resp.Some? && processor.Some? && ProcessResponse(resp.value).Some?)
              ==> r == processor.value(ProcessResponse(resp.value).value)
  {
    if !navigated then None
    else match resp
      case None => None
      case Some(response) =>
        match ProcessResponse(response)
        case None => None
        case Some(data) =>
          match processor
          case Some(f) => f(data)
          case None => if IsEmptyAggregate(data) then None else Some(data)
  }


  /**
   * The result of correlating an interaction with the response it triggers: the
   * processed response when every step of the interaction succeeded and the
   * response arrived, otherwise nothing.
   */
  function Correlate(reached: bool, resp: Option<Response>): (r: Option<Json>)
    ensures r.Some? ==> reached && resp.Some? && resp.value.status == 200
    ensures (reached && resp.Some? && resp.value.status == 200 && resp.value.body.Parsed?)
              ==> r == Some(resp.value.body.json)
    ensures resp.Some? && resp.value.body.Unparsable? ==> r == None
  {
    if reached && resp.Some? then ProcessResponse(resp.value) else None
  }

  class Browser {
    var closed: bool
    var trace: seq<Call>
    var ops: seq<Op>
    /** Which page-level operations fail (time out or raise). */
    const fails: Op -> bool
    /** The backend response that answers a request to `target`; `None` when none arrives before the deadline. */
    const backend: string -> Option<Response>
    /** The text content of an element. */
    const texts: string -> Option<string>

    constructor (fails: Op -> bool, backend: string -> Option<Response>, texts: string -> Option<string>)
      ensures !closed && trace == [] && ops == []
      ensures this.fails == fails && this.backend == backend && this.texts == texts
    {
      closed := false;
      trace := [];
      ops := [];
      this.fails := fails;
      this.backend := backend;
      this.texts := texts;
    }

    /**
     * Between the two states, exactly the script `cs` was run, as far as it got, and
     * the page saw the operations of the calls made.
     */
    twostate predicate Ran(cs: seq<Call>)
      reads this
    {
      trace == old(trace) + Run(cs, Works(fails))
      && ops == old(ops) + Issued(Run(cs, Works(fails)), fails)
      && closed == old(closed)
    }

    /** The call `c` was made, issued its operations up to its failure, and `ok` says whether it succeeded. */
    twostate predicate Made(c: Call, ok: bool)
      reads this
    {
      trace == old(trace) + [c]
      && ops == old(ops) + Attempt(OpsOf(c), fails) && ok == Succeeds(c, fails)
    }

    /**
     * Issues operation `k` of `script`, the earlier ones having been issued and succeeded:
     * on success the first `k + 1` are done, on failure the script has been attempted.
     */
    method Step(o: Op, ghost start: seq<Op>, ghost script: seq<Op>, ghost k: nat) returns (ok: bool)
      requires k < |script| && script[k] == o
      requires ops == start + script[..k] && Completes(script[..k], fails)
      modifies this`ops
      ensures ok == !Breaks(o, fails)
      ensures ok ==> ops == start + script[..k + 1] && Completes(script[..k + 1], fails)
      ensures !ok ==> ops == start + Attempt(script, fails) && !Completes(script, fails)
    {
      ops := ops + [o];
      ok := !Breaks(o, fails);
      assert script == script[..k] + script[k..];
      assert script[k..] == [o] + script[k + 1..];
      SplitAt(script, k);
      Associative(start, script[..k], [o]);
      AttemptConcat(script[..k], script[k..], fails);
      AttemptConcat(script[..k], [o], fails);
      AttemptCons(o, script[k + 1..], fails);
      AttemptCons(o, [], fails);
    }

    /** Issues `script` in order and stops at the first operation that raises. */
    method Issue(script: seq<Op>) returns (ok: bool)
      modifies this`ops
      ensures ops == old(ops) + Attempt(script, fails)
      ensures ok == Completes(script, fails)
      decreases |script|
    {
      if script == [] {
        assert ops == old(ops) + [];
        return true;
      }
      AttemptCons(script[0], script[1..], fails);
      assert [script[0]] + script[1..] == script;
      ops := ops + [script[0]];
      ok := !Breaks(script[0], fails);
      if ok {
        ghost var o1 := ops;
        ok := Issue(script[1..]);
        Associative(old(ops), [script[0]], Attempt(script[1..], fails));
      }
    }

    /** The operations of `c` were issued up to their end, or to their failure when `ok` is false. */
    lemma Finish(c: Call, ok: bool, o0: seq<Op>)
      requires ok ==> ops == o0 + OpsOf(c)[..|OpsOf(c)|] && Completes(OpsOf(c)[..|OpsOf(c)|], fails)
      requires !ok ==> ops == o0 + Attempt(OpsOf(c), fails) && !Completes(OpsOf(c), fails)
      ensures ops == o0 + Attempt(OpsOf(c), fails) && ok == Succeeds(c, fails)
    {
      assert OpsOf(c)[..|OpsOf(c)|] == OpsOf(c);
      AttemptShape(OpsOf(c), fails);
    }

    /**
     * Progress through `script` since the trace was `t0`: with `ok`, its first `k`
     * calls were made and succeeded; without, the script was run and broke.
     */
    ghost predicate Reached(t0: seq<Call>, o0: seq<Op>, script: seq<Call>, k: nat, ok: bool)
      reads this
    {
      k <= |script|
      && (ok ==> trace == t0 + script[..k] && ops == o0 + Issued(script[..k], fails)
                 && AllSucceed(script[..k], Works(fails)))
      && (!ok ==> trace == t0 + Run(script, Works(fails)) && ops == o0 + Issued(Run(script, Works(fails)), fails)
                  && !AllSucceed(script, Works(fails)))
    }

    /** Making call `k` of `script`, from where its first `k` calls succeeded, moves the progress on. */
    lemma Advance(t0: seq<Call>, o0: seq<Op>, script: seq<Call>, k: nat, t1: seq<Call>, o1: seq<Op>, ok: bool)
      requires k < |script| && AllSucceed(script[..k], Works(fails))
      requires t1 == t0 + script[..k] && trace == t1 + [script[k]]
      requires o1 == o0 + Issued(script[..k], fails) && ops == o1 + Attempt(OpsOf(script[k]), fails)
      requires ok == Succeeds(script[k], fails)
      ensures Reached(t0, o0, script, k + 1, ok)
    {
      var done := script[..k];
      var c := script[k];
      var rest := script[k + 1..];
      SplitAt(script, k);
      Associative(t0, done, [c]);
      IssuedSingle(c, fails);
      IssuedConcat(done, [c], fails);
      Associative(o0, Issued(done, fails), Issued([c], fails));
      if ok {
        StepSucceeds(done, c, Works(fails));
      } else {
        StepFails(done, c, rest, Works(fails));
      }
    }

    /** Progress to the end of `script` is a run of the whole script. */
    lemma Conclude(t0: seq<Call>, o0: seq<Op>, script: seq<Call>, k: nat, ok: bool)
      requires Reached(t0, o0, script, k, ok) && (ok ==> k == |script|)
      ensures trace == t0 + Run(script, Works(fails))
      ensures ops == o0 + Issued(Run(script, Works(fails)), fails)
      ensures ok == AllSucceed(script, Works(fails))
    {
      assert script[..|script|] == script;
    }

    /**
     * Progress through `whole`, a script run part by part since the trace was `t0`:
     * with `ok`, its prefix `done` was run and succeeded; without, the whole script
     * was run and broke.
     */
    ghost predicate Passed(t0: seq<Call>, o0: seq<Op>, done: seq<Call>, whole: seq<Call>, ok: bool)
      reads this
    {
      (ok ==> done <= whole && trace == t0 + done && ops == o0 + Issued(done, fails)
              && AllSucceed(done, Works(fails)))
      && (!ok ==> trace == t0 + Run(whole, Works(fails)) && ops == o0 + Issued(Run(whole, Works(fails)), fails)
                  && !AllSucceed(whole, Works(fails)))
    }

    /** Running the part that follows a successful prefix moves the progress past it. */
    lemma Pass(t0: seq<Call>, o0: seq<Op>, done: seq<Call>, part: seq<Call>, whole: seq<Call>,
               t1: seq<Call>, o1: seq<Op>, ok: bool)
      requires done + part <= whole && AllSucceed(done, Works(fails))
      requires t1 == t0 + done && trace == t1 + Run(part, Works(fails))
      requires o1 == o0 + Issued(done, fails) && ops == o1 + Issued(Run(part, Works(fails)), fails)
      requires ok == AllSucceed(part, Works(fails))
      ensures Passed(t0, o0, done + part, whole, ok)
    {
      var works := Works(fails);
      RunConcat(done, part, works);
      Associative(t0, done, Run(part, works));
      IssuedConcat(done, Run(part, works), fails);
      Associative(o0, Issued(done, fails), Issued(Run(part, works), fails));
      if !ok {
        var rest := whole[|done + part|..];
        PrefixRest(done + part, whole);
        RunConcat(done + part, rest, works);
        assert Run(whole, works) == done + Run(part, works);
      }
    }

    /** Progress to the end of a script is a run of the whole script. */
    lemma Settle(t0: seq<Call>, o0: seq<Op>, done: seq<Call>, whole: seq<Call>, ok: bool)
      requires Passed(t0, o0, done, whole, ok) && (ok ==> done == whole)
      ensures trace == t0 + Run(whole, Works(fails))
      ensures ops == o0 + Issued(Run(whole, Works(fails)), fails)
      ensures ok == AllSucceed(whole, Works(fails))
    {
    }

    /** Navigates to `url`. */
    method GoTo(url: string) returns (ok: bool)
      modifies this`trace, this`ops
      ensures Made(Call.GoTo(url), ok)
    {
      var c := Call.GoTo(url);
      trace := trace + [c];
      ok := Issue([Navigate(url)]);
    }

    /** Waits until `sel` is visible, at most `timeout` milliseconds. */
    method WaitForElement(sel: string, timeout: int) returns (ok: bool)
      modifies this`trace, this`ops
      ensures Made(Call.WaitForElement(sel, timeout), ok)
    {
      var c := Call.WaitForElement(sel, timeout);
      trace := trace + [c];
      ok := Issue([WaitSelector(sel, timeout)]);
    }

    /** Waits for `sel`, then clicks it. */
    method ClickElement(sel: string) returns (ok: bool)
      modifies this`trace, this`ops
      ensures Made(Call.ClickElement(sel), ok)
    {
      var c := Call.ClickElement(sel);
      trace := trace + [c];
      ok := Issue([WaitSelector(sel, Config.DEFAULT_TIMEOUT), PageClick(sel)]);
    }

    /** Waits for `sel`, then fills it with `value`. */
    method FillInput(sel: string, value: string) returns (ok: bool)
      modifies this`trace, this`ops
      ensures Made(Call.FillInput(sel, value), ok)
    {
      var c := Call.FillInput(sel, value);
      trace := trace + [c];
      ok := Issue([WaitSelector(sel, Config.DEFAULT_TIMEOUT), PageFill(sel, value)]);
    }

    /** Fills `sel`, presses Enter, then takes the focus off the field so the page reacts. */
    method FillInputWithEvents(sel: string, value: string) returns (ok: bool)
      modifies this`trace, this`ops
      ensures Made(Call.FillInputWithEvents(sel, value), ok)
    {
      var c := Call.FillInputWithEvents(sel, value);
      trace := trace + [c];
      ok := Issue([PageFill(sel, value), PressKey("Enter"), BlurElement(sel)]);
    }

    /** Clears `sel`, then types `value` one character at a time, pausing `delay` seconds after each. */
    method FillInputWithDelay(sel: string, value: string, delay: real) returns (ok: bool)
      modifies this`trace, this`ops
      ensures Made(Call.FillInputWithDelay(sel, value, delay), ok)
    {
      var c := Call.FillInputWithDelay(sel, value, delay);
      trace := trace + [c];
      ok := Step(LocatorFill(sel, ""), old(ops), OpsOf(c), 0);
      if ok {
        ok := TypeSlowly(sel, value, delay, old(ops));
      }
      Finish(c, ok, old(ops));
    }

    /** The keystrokes of a slow fill, after the field was cleared. */
    method TypeSlowly(sel: string, value: string, delay: real, ghost start: seq<Op>) returns (ok: bool)
      requires ops == start + OpsOf(Call.FillInputWithDelay(sel, value, delay))[..1]
      requires Completes(OpsOf(Call.FillInputWithDelay(sel, value, delay))[..1], fails)
      modifies this`ops
      ensures ok ==> ops == start + OpsOf(Call.FillInputWithDelay(sel, value, delay))[..1 + 2 * |value|]
      ensures ok ==> Completes(OpsOf(Call.FillInputWithDelay(sel, value, delay))[..1 + 2 * |value|], fails)
      ensures !ok ==> ops == start + Attempt(OpsOf(Call.FillInputWithDelay(sel, value, delay)), fails)
      ensures !ok ==> !Completes(OpsOf(Call.FillInputWithDelay(sel, value, delay)), fails)
    {
      ghost var script := OpsOf(Call.FillInputWithDelay(sel, value, delay));
      ok := true;
      var i := 0;
      while ok && i < |value|
        invariant 0 <= i <= |value|
        invariant ok ==> ops == start + script[..1 + 2 * i] && Completes(script[..1 + 2 * i], fails)
        invariant !ok ==> ops == start + Attempt(script, fails) && !Completes(script, fails)
      {
        DelayedFillLayout(sel, value, delay, i);
        ok := Step(LocatorType(sel, [value[i]]), start, script, 1 + 2 * i);
        if ok {
          ok := Step(Pause(delay), start, script, 2 + 2 * i);
          i := i + 1;
        }
      }
    }

    /** Waits for `sel`, then reads its text. */
    method GetTextContent(sel: string) returns (ok: bool, text: Option<string>)
      modifies this`trace, this`ops
      ensures Made(Call.GetTextContent(sel), ok)
      ensures text == if ok then texts(sel) else None
    {
      var c := Call.GetTextContent(sel);
      trace := trace + [c];
      ok := Issue([WaitSelector(sel, Config.DEFAULT_TIMEOUT), ReadText(sel)]);
      text := if ok then texts(sel) else None;
    }

    /** Types `term` into the search box `box`, then clicks the result `template` names for it. */
    method SearchAndSelect(box: string, term: string, template: string) returns (ok: bool)
      modifies this`trace, this`ops
      ensures Made(Call.SearchAndSelect(box, term, template), ok)
    {
      var c := Call.SearchAndSelect(box, term, template);
      var item := Format(template, term);
      trace := trace + [c];
      ok := Issue([WaitSelector(box, Config.DEFAULT_TIMEOUT), PageFill(box, term),
                   WaitSelector(item, Config.DEFAULT_TIMEOUT), PageClick(item)]);
    }

    /**
     * Arms a watch for the backend response to `target`, navigates to `nav`, and yields
     * the response's data as `FetchResult` describes. Never raises.
     */
    method FetchData(target: string, nav: string, processor: Option<Json -> Option<Json>>)
      returns (r: Option<Json>)
      modifies this`trace, this`ops
      ensures Made(Call.FetchData(target, nav), Succeeds(Call.FetchData(target, nav), fails))
      ensures r == FetchResult(Succeeds(Call.FetchData(target, nav), fails), backend(target), processor)
    {
      var c := Call.FetchData(target, nav);
      trace := trace + [c];
      var ok := Issue([ArmResponse(target), Navigate(nav)]);
      r := FetchResult(ok, backend(target), processor);
    }

    /** Arms a watch for the backend response to `target`; the response is then `backend(target)`. */
    method ExpectResponse(target: string) returns (ok: bool)
      modifies this`trace, this`ops
      ensures Made(Call.ExpectResponse(target), ok)
    {
      var c := Call.ExpectResponse(target);
      trace := trace + [c];
      ok := Issue([ArmResponse(target)]);
    }

    /** Takes the focus off `sel`. */
    method Blur(sel: string) returns (ok: bool)
      modifies this`trace, this`ops
      ensures Made(Call.Blur(sel), ok)
    {
      var c := Call.Blur(sel);
      trace := trace + [c];
      ok := Issue([BlurElement(sel)]);
    }

    /** Sleeps `secs` seconds; this cannot fail. */
    method Sleep(secs: real)
      modifies this`trace, this`ops
      ensures Made(Call.Sleep(secs), true)
    {
      var c := Call.Sleep(secs);
      trace := trace + [c];
      var ok := Issue([Pause(secs)]);
    }

    /** Makes the call `c`, whatever bridge method it goes through (closing aside). */
    method Perform(c: Call) returns (ok: bool)
      requires !c.CloseBrowser?
      modifies this`trace, this`ops
      ensures Made(c, ok)
    {
      match c
      case GoTo(u) => ok := GoTo(u);
      case WaitForElement(s, t) => ok := WaitForElement(s, t);
      case ClickElement(s) => ok := ClickElement(s);
      case FillInput(s, v) => ok := FillInput(s, v);
      case FillInputWithEvents(s, v) => ok := FillInputWithEvents(s, v);
      case FillInputWithDelay(s, v, d) => ok := FillInputWithDelay(s, v, d);
      case GetTextContent(s) => var text; ok, text := GetTextContent(s);
      case SearchAndSelect(b, t, tpl) => ok := SearchAndSelect(b, t, tpl);
      case FetchData(t, n) => var _ := FetchData(t, n, None); ok := Succeeds(c, fails);
      case ExpectResponse(t) => ok := ExpectResponse(t);
      case Blur(s) => ok := Blur(s);
      case Sleep(d) => Sleep(d); ok := true;
    }

    /**
     * Makes the calls of `cs` in order, stopping after the first that raises, as a
     * workflow's try block does; `ok` says whether all of them succeeded.
     */
    method Execute(cs: seq<Call>) returns (ok: bool)
      requires forall i :: 0 <= i < |cs| ==> !cs[i].CloseBrowser?
      modifies this`trace, this`ops
      ensures trace == old(trace) + Run(cs, Works(fails))
      ensures ops == old(ops) + Issued(Run(cs, Works(fails)), fails)
      ensures ok == AllSucceed(cs, Works(fails))
      decreases |cs|
    {
      if cs == [] {
        return true;
      }
      AllSucceedCons(cs, Works(fails));
      ok := Perform(cs[0]);
      IssuedSingle(cs[0], fails);
      if ok {
        ghost var t1 := trace;
        ok := Execute(cs[1..]);
        Associative(old(trace), [cs[0]], Run(cs[1..], Works(fails)));
        IssuedConcat([cs[0]], Run(cs[1..], Works(fails)), fails);
        Associative(old(ops), Attempt(OpsOf(cs[0]), fails), Issued(Run(cs[1..], Works(fails)), fails));
      }
    }

    /** Closes the browser and stops the driver, the first time only; this cannot fail. */
    method CloseBrowser()
      modifies this
      ensures closed
      ensures trace == old(trace) + [Call.CloseBrowser]
      ensures ops == old(ops) + (if old(closed) then [] else [ShutBrowser, StopDriver])
    {
      trace := trace + [Call.CloseBrowser];
      if !closed {
        ops := ops + [ShutBrowser, StopDriver];
        closed := true;
      }
    }
  }
}
