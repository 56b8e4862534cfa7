/**
 * The exception hierarchy of the application as one tagged datatype.
 * Every Python exception a modelled operation can raise is a variant here; the
 * human-readable messages are replaced by the data they carry.
 */
module Errors {

  /** Why a `ValueError` was raised. */
  datatype Invalid =
    | ShortPassword            // password shorter than 4 characters
    | UsernameTaken(username: string)
    | WrongPassword
    | BlankUsername
    | NonPositiveAmount
    | NegativeBalance
    | BlankCurrencyName
    | BadCurrencyCode
    | BlankIssuingCountry
    | BlankAlgorithm
    | NegativeMarketCap
    | MissingApiKey
    | EmptyFiatList
    | EmptyCryptoList
    | UnknownCrypto(code: string)

  /** The reason carried by `ApiRequestError`. */
  datatype ApiReason =
    | Timeout(seconds: int)
    | ConnectionFailed
    | RateLimited                 // HTTP 429
    | InvalidApiKey               // HTTP 401
    | HttpStatus(status: int)     // any other HTTP error status
    | RequestFailed               // any other `requests` error
    | JsonParse                   // a `ValueError` while decoding the body
    | ProviderError(errorType: string)
    | RateUnavailable(pair: string)

  /** Which persisted file a `RuntimeError` of the rate store is about. */
  datatype StoreFile = RatesFile | HistoryFile

  datatype Error =
    | ValueError(why: Invalid)
    | InsufficientFunds(code: string, available: real, required: real)
    | CurrencyNotFound(code: string)
    | NoWallet(code: string)                      // CurrencyNotFoundError raised by sell_currency
    | ApiRequestError(reason: ApiReason)
    | DatabaseError
    | UserNotFound(username: string)
    | PortfolioNotFound(userId: int)
    | ConversionFailed(from: string, to: string)  // the base ValutaTradeError of convert_amount
    | RuntimeError(file: StoreFile)               // a failed write of the rate store
    | IndexError                                  // a pair key without '_' split into halves
    | KeyError(key: string)                       // a stored record lacking a field
    | AttributeError(name: string)                // a call to a method that does not exist
    | TypeError(what: string)                     // a stored value of the wrong JSON type
    | UnboundLocalError(name: string)             // a local read before any assignment
    | SchedulerError                              // the background scheduler library raised
  {
    /**
     * Raised as `CurrencyNotFoundError`. `sell_currency` raises that class too when the
     * user holds no wallet of the code, but it passes its own sentence where the class
     * expects a code; `NoWallet` keeps that case apart, and an `except` of the class
     * catches both.
     */
    predicate IsCurrencyNotFound() {
      CurrencyNotFound? || NoWallet?
    }
  }
}
