/** Rows of the ledger store's tables (db.js schema). Amounts are integer
    cents; identifiers and currency codes are strings. */
module Schema {
  import opened Failures
  import opened Money

  type BankId = string
  type ClientId = string
  type PaymentId = string
  type Currency = string

  const USD: Currency := "USD"

  /** A USD-pivot quote rate (units of the quote currency per US dollar). */
  type Rate = r: real | r > 0.0 witness 1.0

  /** The clearing window of one currency: hours of the day in 0..23. */
  datatype ClearingWindow = ClearingWindow(openHour: int, closeHour: int)

  datatype Bank = Bank(id: BankId, name: string, baseCurrency: Currency, createdAtMs: int)

  /** The string-tagged client type with its optional foreign key, as a tagged union. */
  datatype ClientKind = Regular | House | Vostro(forBankId: BankId)

  datatype Client = Client(id: ClientId, bankId: BankId, name: string, kind: ClientKind, createdAtMs: int)

  /** An asset of `ownerBankId` held at `correspondentBankId`, in that bank's base currency. */
  datatype Nostro = Nostro(
    id: string, ownerBankId: BankId, correspondentBankId: BankId,
    currency: Currency, balance: Cents, createdAtMs: int)

  datatype PaymentState = Queued | Executed | Settled | Failed

  datatype Payment = Payment(
    id: PaymentId,
    fromClientId: ClientId, toClientId: ClientId,
    fromBankId: BankId, toBankId: BankId,
    debitCurrency: Currency, creditCurrency: Currency,
    debitAmount: Cents, creditAmount: Cents,
    settlementCurrency: Currency,
    state: PaymentState,
    failReason: Option<Error>,
    createdAtMs: int,
    executedAtMs: Option<int>,
    settledAtMs: Option<int>,
    route: seq<BankId>)

  /** The structured detail of a payment message (its JSON payload). */
  datatype MessageDetail =
    | PaymentInit(route: seq<BankId>, debitCurrency: Currency, creditCurrency: Currency, settlementCurrency: Currency)
    | FxConversion(bankName: string, fromCurrency: Currency, toCurrency: Currency, fromAmount: Cents, toAmount: Cents)
    | Liquidation(settlementCurrency: Currency, amount: Cents, route: seq<BankId>)
    | ExecutedNote
    | SettledNote
    | FailedNote(reason: Error)

  datatype PaymentMessage = PaymentMessage(id: string, paymentId: PaymentId, createdAtMs: int, detail: MessageDetail)

  /** A row of fx_history: amounts at 2 dp, the rate unquantised (`None` is the
      NaN decimal.js yields for 0/0). */
  datatype FxEvent = FxEvent(
    id: string, paymentId: Option<PaymentId>, bankId: BankId,
    fromCurrency: Currency, toCurrency: Currency,
    fromAmount: Cents, toAmount: Cents, rate: Option<real>,
    createdAtMs: int, reason: string)
}
