/**
 * Values shared by every part of the model: the library's enumerations, the
 * dynamically typed arguments its validators inspect, the exceptions it raises,
 * and parsed JSON documents.
 */
module Common {

  datatype Currency = Ars | Usd
  {
    function Code(): string {
      match this
      case Ars => "ARS"
      case Usd => "USD"
    }
  }

  datatype MarketType = Stocks | Cedears | BondsCorp | BondsPublic | Letters | Caucion | Fci
  {
    function Code(): string {
      match this
      case Stocks => "STOCKS"
      case Cedears => "CEDEARS"
      case BondsCorp => "BONDS_CORP"
      case BondsPublic => "BONDS_PUBLIC"
      case Letters => "LETTERS"
      case Caucion => "CAUCION"
      case Fci => "FCI"
    }
  }

  datatype Operation = Buy | Sell
  {
    function Code(): string {
      match this
      case Buy => "BUY"
      case Sell => "SELL"
    }
  }

  /** An argument as the dynamically typed callers may pass it. */
  datatype PyValue =
    | PyStr(s: string)
    | PyNum(n: real)
    | PyNone
    | PyCurrency(currency: Currency)
    | PyMarket(market: MarketType)
    | PyOther

  /** The exceptions the library raises, with their messages. */
  datatype Exc =
    | ValueError(msg: string)
    | TypeError
    | AuthenticationError(msg: string)
    | TwoFactorError(msg: string)
    | OrderCreationError(msg: string)
    | MailboxError
    | BrowserError

  /** Whether `e` is an instance of the authentication error class (its two-factor subclass included). */
  predicate IsAuthenticationError(e: Exc) {
    e.AuthenticationError? || e.TwoFactorError?
  }

  /** The string form of an exception. */
  function Message(e: Exc): string {
    match e
    case ValueError(m) => m
    case TypeError => "TypeError"
    case AuthenticationError(m) => m
    case TwoFactorError(m) => m
    case OrderCreationError(m) => m
    case MailboxError => "IMAP error"
    case BrowserError => "browser error"
  }

  /**
   * The message of an error raised when a phase of a workflow fails: the phase's
   * own text, a colon and a space, then the message of the cause.
   */
  function Wrap(phase: string, cause: Exc): (m: string)
    ensures phase <= m
    ensures |m| >= |phase| + |Message(cause)| && m[|m| - |Message(cause)|..] == Message(cause)
  {
    phase + ": " + Message(cause)
  }

  /** A wrapped message keeps its cause: the same phase wrapped around two causes differs when their messages do. */
  lemma WrapKeepsCause(phase: string, a: Exc, b: Exc)
    ensures Wrap(phase, a) == Wrap(phase, b) <==> Message(a) == Message(b)
  {
    if Wrap(phase, a) == Wrap(phase, b) {
      var m := Wrap(phase, a);
      assert Message(a) == m[|phase| + 2..] == Message(b);
    }
  }

  /** An authentication error raised for a failed phase names the phase first. */
  lemma WrappedAuthentication(phase: string, cause: Exc)
    ensures IsAuthenticationError(AuthenticationError(Wrap(phase, cause)))
    ensures phase <= Message(AuthenticationError(Wrap(phase, cause)))
  {
  }

  /** The two-factor error is a kind of authentication error, and its string form is its message. */
  lemma TwoFactorIsAuthentication(m: string)
    ensures IsAuthenticationError(TwoFactorError(m))
    ensures Message(TwoFactorError(m)) == m
  {
  }

  /** A parsed JSON document. */
  datatype Json =
    | JNull
    | JBool(b: bool)
    | JNum(n: real)
    | JStr(s: string)
    | JArr(items: seq<Json>)
    | JObj(fields: map<string, Json>)

  /** An empty array or an empty object. */
  predicate IsEmptyAggregate(j: Json) {
    (j.JArr? && j.items == []) || (j.JObj? && j.fields == map[])
  }
}
