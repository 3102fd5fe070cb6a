/** Failure values of the settlement engine: every `throw new Error(...)` of the
    core becomes one constructor of `Error`, and every fallible operation
    returns a `Result` or an `Outcome` instead of throwing. */
module Failures {

  datatype Option<+T> = None | Some(value: T)

  datatype Error =
    // fx.js
    | MissingFxRate(currency: string)
    // clearing.js
    | MissingClearingHours(currency: string)
    // accounts.js / db.js: a PRIMARY KEY or UNIQUE constraint rejects an insert
    | DuplicateKey
    | ForeignKeyViolation
    // invariants.js, nostroVostro.js, payments.js
    | BankNotFound
    | ClientNotFound
    | VostroBaseCurrencyOnly
    | CurrencyNotAvailable(currency: string)
    | InvariantViolated(bankId: string, currency: string)
    // nostroVostro.js
    | NostroInOwnBaseCurrency
    | NostroAlreadyExists(currency: string)
    | NostroNotFoundForHop
    | MirrorVostroMissing
    | NostroWouldBeNegative
    | VostroWouldBeNegative
    // balances.js
    | OnlyRegularClients
    | InsufficientFunds
    | MissingNostro(currency: string)
    // payments.js
    | NotRegularOrHouseClients
    | NoFunds(currency: string)
    | BeneficiaryBankNotFound
    | CurrencyNotAvailableAtDestination(currency: string)
    | NoRouteInSettlementCurrency(currency: string)
    | PaymentNotFound
    | MissingBeneficiaryNostro(currency: string)
    | NoSettlementRoute
    | MissingOriginNostro(currency: string)
    | OriginRouteMismatch
    | BeneficiaryRouteMismatch

  datatype Result<+T> = Ok(value: T) | Err(error: Error) {
    predicate IsFailure() { Err? }
    function PropagateFailure<U>(): Result<U>
      requires Err?
    {
      Err(error)
    }
    function Extract(): T
      requires Ok?
    {
      value
    }
  }

  /** The result of an operation that returns nothing but may throw. */
  datatype Outcome = Pass | Fail(error: Error) {
    predicate IsFailure() { Fail? }
    function PropagateFailure(): Outcome
      requires Fail?
    {
      this
    }
  }
}
