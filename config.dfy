/**
 * Configuration: the application's fixed URLs, timeouts and page selectors.
 * Selectors whose concrete CSS text the repository does not pin down are
 * written as their configuration key; the workflows use them only as
 * opaque, distinct names.
 */
module Config {
  import opened Common

  const DEFAULT_TIMEOUT: int := 10000

  const WEB_APP_ROOT: string := "https://app.cocos.capital"
  const API_ROOT: string := "https://api.cocos.capital/api"

  const DASHBOARD_URL: string := WEB_APP_ROOT + "/"
  const LOGIN_URL: string := WEB_APP_ROOT + "/login"
  const PORTFOLIO_URL: string := WEB_APP_ROOT + "/capital-portfolio"
  const ORDERS_URL: string := WEB_APP_ROOT + "/orders"
  const MOVEMENTS_URL: string := WEB_APP_ROOT + "/movements"
  const MARKET_ROOT: string := WEB_APP_ROOT + "/market/"

  const API_USER_DATA: string := API_ROOT + "/v1/users/me"
  const API_ACCOUNT_TIER: string := API_ROOT + "/v1/users/account-tier"
  const API_ACADEMY: string := API_ROOT + "/v1/home/academy"
  const API_MARKETS_SCHEDULE: string := API_ROOT + "/v1/markets/schedule"
  const API_MARKETS_TICKERS: string := API_ROOT + "/v1/markets/tickers"
  const API_MEP_PRICES: string := API_ROOT + "/v1/public/mep-prices"
  const API_ORDERS: string := API_ROOT + "/v2/orders"
  const API_PORTFOLIO_DATA: string := API_ROOT + "/v1/wallet/portfolio?currency=ARS&from=BROKER"
  const API_PORTFOLIO_BALANCE: string := API_ROOT + "/v1/wallet/portfolio/balance?currency=ARS&period=MAX"
  const API_USER_ACCOUNTS: string := API_ROOT + "/v1/transfers/accounts?currency="

  // Login page
  const EMAIL_INPUT: string := "input[type=\"email\"]"
  const PASSWORD_INPUT: string := "input[type=\"password\"]"
  const SUBMIT_BUTTON: string := "button[type=\"submit\"]"
  const TWO_FACTOR_CONTAINER: string := "LOGIN_SELECTORS.two_factor_container"
  const SAVE_DEVICE_BUTTON: string := "LOGIN_SELECTORS.save_device_button"

  /** The input box of the `i`-th digit of the one-time code. */
  function CodeDigitInput(i: nat): string {
    "LOGIN_SELECTORS.code_digit_" + [('0' as int + i % 10) as char]
  }

  // Navigation
  const LOGOUT_ICON: string := "NAVIGATION_SELECTORS.logout_icon svg"

  // Trading panel
  const SEARCH_INPUT: string := "COMMON_SELECTORS.search_input input"
  const LIST_ITEM_TEMPLATE: string := "ul.MuiList-root.search-list {}"
  const EXPAND_WINDOWS: string := "OPERATION_SELECTORS.general.expand_windows"
  const MORE_OPTIONS: string := "OPERATION_SELECTORS.general.more_options"
  const LIMIT_BUTTON: string := "OPERATION_SELECTORS.general.limit_button"
  const LIMIT_INPUT: string := "OPERATION_SELECTORS.general.limit_input"
  const REVIEW_BUY: string := "OPERATION_SELECTORS.confirm_buttons.review_buy"
  const CONFIRM_BUTTON: string := "OPERATION_SELECTORS.confirm_buttons.confirm"

  /** The side button that selects buying or selling. */
  function OperationButton(op: Operation): string {
    "OPERATION_SELECTORS." + op.Code() + ".button"
  }

  /** The amount box of the buy or sell side. */
  function OperationAmountInput(op: Operation): string {
    "OPERATION_SELECTORS." + op.Code() + ".amount_input"
  }

  // Orders page
  const ORDER_ROW_PREFIX: string := "ORDER_SELECTORS.order_row"
  const CANCEL_BUTTON: string := "COMMON_SELECTORS.cancel_button"

  // Withdraw panel
  const WITHDRAW_BUTTON: string := "TRANSFER_SELECTORS.withdraw_button"
  const CURRENCY_ARS_TAB: string := "TRANSFER_SELECTORS.currency_ars"
  const CURRENCY_USD_TAB: string := "TRANSFER_SELECTORS.currency_usd"
  const TRANSFER_AMOUNT_INPUT: string := "TRANSFER_SELECTORS.amount_input"
  const TRANSFER_CONTINUE: string := "TRANSFER_SELECTORS.continue_button"

  /** Seconds between keystrokes when a field is typed slowly. */
  const TYPING_DELAY: real := 0.1
}
