/**
 * Input validation for orders, currencies, market types and credentials.
 * Each validator either returns the normalised value or raises a ValueError
 * whose message is fixed.
 */
module Validators {
  import opened Wrappers
  import opened Text
  import opened Common

  const TICKER_ERROR: string := "El ticker debe ser una cadena no vacía"
  const OPERATION_ERROR: string := "La operación debe ser 'BUY' o 'SELL'"
  const AMOUNT_ERROR: string := "El monto debe ser un número positivo"
  const LIMIT_ERROR: string := "El límite debe ser un número positivo"
  const CURRENCY_ERROR: string := "Moneda no válida: "
  const MARKET_INVALID_ERROR: string := "Tipo de mercado no válido"
  const MARKET_UNSUPPORTED_ERROR: string := "Tipo de mercado no soportado"
  const CREDENTIALS_ERROR: string := "Todos los parámetros de credenciales deben ser cadenas no vacías"

  /** A ticker is a non-empty string. */
  predicate ValidTicker(v: PyValue) {
    v.PyStr? && v.s != []
  }

  /** A number strictly greater than zero (strings and other values are not numbers). */
  predicate IsPositive(v: PyValue) {
    v.PyNum? && v.n > 0.0
  }

  predicate IsOperationCode(s: string) {
    s == "BUY" || s == "SELL"
  }

  /**
   * Checks ticker, operation, amount and optional limit, in that order, and returns
   * the upper-cased operation with the ticker. `limit` is `PyNone` when no limit is given.
   */
  function ValidateOrderParams(ticker: PyValue, operation: string, amount: PyValue, limit: PyValue)
    : (r: Result<(string, string), Exc>)
    ensures r.Success? <==>
              ValidTicker(ticker) && IsOperationCode(Upper(operation)) && IsPositive(amount)
              && (limit.PyNone? || IsPositive(limit))
    ensures r.Success? ==> r.value == (Upper(operation), ticker.s)
    ensures !ValidTicker(ticker) ==> r == Failure(ValueError(TICKER_ERROR))
    ensures ValidTicker(ticker) && !IsOperationCode(Upper(operation)) ==> r == Failure(ValueError(OPERATION_ERROR))
    ensures (ValidTicker(ticker) && IsOperationCode(Upper(operation)) && !IsPositive(amount))
              ==> r == Failure(ValueError(AMOUNT_ERROR))
    ensures (ValidTicker(ticker) && IsOperationCode(Upper(operation)) && IsPositive(amount)
             && !limit.PyNone? && !IsPositive(limit))
              ==> r == Failure(ValueError(LIMIT_ERROR))
  {
    if !ValidTicker(ticker) then Failure(ValueError(TICKER_ERROR))
    else if !IsOperationCode(Upper(operation)) then Failure(ValueError(OPERATION_ERROR))
    else if !IsPositive(amount) then Failure(ValueError(AMOUNT_ERROR))
    else if !limit.PyNone? && !IsPositive(limit) then Failure(ValueError(LIMIT_ERROR))
    else Success((Upper(operation), ticker.s))
  }

  /** The operation is compared without regard to case, and a normalised result validates to itself. */
  lemma OrderOperationCaseInsensitive(ticker: PyValue, operation: string, amount: PyValue, limit: PyValue)
    ensures ValidateOrderParams(ticker, Upper(operation), amount, limit) == ValidateOrderParams(ticker, operation, amount, limit)
  {
    UpperIdempotent(operation);
  }

  /** Maps a currency name, in any letter case, to the currency. */
  function ValidateCurrency(s: string): (r: Result<Currency, Exc>)
    ensures r.Success? <==> Upper(s) == "ARS" || Upper(s) == "USD"
    ensures r.Success? ==> r.value.Code() == Upper(s)
    ensures r.Failure? ==> r.error == ValueError(CURRENCY_ERROR + s)
  {
    var u := Upper(s);
    if u == "ARS" then Success(Ars)
    else if u == "USD" then Success(Usd)
    else Failure(ValueError(CURRENCY_ERROR + s))
  }

  /** Every currency's own code validates back to it. */
  lemma CurrencyRoundTrip(c: Currency)
    ensures ValidateCurrency(c.Code()) == Success(c)
  {
    UpperCapitals(c.Code());
  }

  /** Letter case does not matter: a name and its upper-cased form validate alike. */
  lemma CurrencyCaseInsensitive(s: string)
    ensures ValidateCurrency(Upper(s)).Success? == ValidateCurrency(s).Success?
    ensures ValidateCurrency(s).Success? ==> ValidateCurrency(Upper(s)).value == ValidateCurrency(s).value
  {
    UpperIdempotent(s);
  }

  /** The market type whose code is `s`, if any. */
  function MarketFromCode(s: string): (r: Option<MarketType>)
    ensures r.Some? ==> r.value.Code() == s
    ensures r.None? ==> forall m: MarketType :: m.Code() != s
  {
    if s == "STOCKS" then Some(Stocks)
    else if s == "CEDEARS" then Some(Cedears)
    else if s == "BONDS_CORP" then Some(BondsCorp)
    else if s == "BONDS_PUBLIC" then Some(BondsPublic)
    else if s == "LETTERS" then Some(Letters)
    else if s == "CAUCION" then Some(Caucion)
    else if s == "FCI" then Some(Fci)
    else None
  }

  /**
   * A market type passes unchanged; a string is matched by its upper-cased form;
   * anything else is unsupported.
   */
  function ValidateMarketType(v: PyValue): (r: Result<MarketType, Exc>)
    ensures v.PyMarket? ==> r == Success(v.market)
    ensures v.PyStr? ==> (r.Success? <==> exists m: MarketType :: m.Code() == Upper(v.s))
    ensures v.PyStr? && r.Success? ==> r.value.Code() == Upper(v.s)
    ensures v.PyStr? && r.Failure? ==> r.error == ValueError(MARKET_INVALID_ERROR)
    ensures !v.PyMarket? && !v.PyStr? ==> r == Failure(ValueError(MARKET_UNSUPPORTED_ERROR))
  {
    match v
    case PyMarket(m) => Success(m)
    case PyStr(s) =>
      (match MarketFromCode(Upper(s))
       case Some(m) => Success(m)
       case None => Failure(ValueError(MARKET_INVALID_ERROR)))
    case _ => Failure(ValueError(MARKET_UNSUPPORTED_ERROR))
  }

  /** Distinct market types have distinct codes. */
  lemma MarketCodesDistinct(m: MarketType, n: MarketType)
    ensures m.Code() == n.Code() ==> m == n
  {
    if m != n {
      assert m.Code()[..2] != n.Code()[..2] || m.Code()[2..] != n.Code()[2..];
    }
  }

  /** Every market type's own code validates back to it. */
  lemma MarketTypeRoundTrip(m: MarketType)
    ensures ValidateMarketType(PyStr(m.Code())) == Success(m)
  {
    UpperKeeps(m.Code());
    var r := MarketFromCode(m.Code());
    assert r.Some?;
    MarketCodesDistinct(r.value, m);
  }

  /** A credential is a string that is not blank. */
  predicate IsCredential(v: PyValue) {
    v.PyStr? && Trim(v.s) != []
  }

  /** Accepts the list when every element is a credential (so the empty list is accepted). */
  function ValidateCredentials(cs: seq<PyValue>): (r: Result<(), Exc>)
    ensures r.Success? <==> forall i :: 0 <= i < |cs| ==> IsCredential(cs[i])
    ensures r.Failure? ==> r.error == ValueError(CREDENTIALS_ERROR)
  {
    if cs == [] then Success(())
    else if !IsCredential(cs[0]) then Failure(ValueError(CREDENTIALS_ERROR))
    else
      var rest := ValidateCredentials(cs[1..]);
      assert forall i :: 1 <= i < |cs| ==> cs[i] == cs[1..][i - 1];
      rest
  }

  /** A credential is exactly a string holding at least one non-whitespace character. */
  lemma CredentialIff(v: PyValue)
    ensures IsCredential(v) <==> v.PyStr? && exists i :: 0 <= i < |v.s| && !IsWhitespace(v.s[i])
  {
    if v.PyStr? {
      TrimEmptyIff(v.s);
    }
  }
}
