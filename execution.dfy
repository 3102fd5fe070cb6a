/** Executing a queued payment (payments.js, `executePayment`). The
    transaction is a list of writes made one after the other on the tables:
    origin FX, the two client moves, settlement on the first and last legs
    of the route, destination FX, then the EXECUTED and SETTLED updates. The
    first write that throws ends it; the tables of the start are restored
    and the payment is marked FAILED instead. */
module Execution {
  import opened Failures
  import opened Schema
  import opened Money
  import opened Accounts
  import opened Invariants
  import opened NostroVostro
  import opened Balances
  import opened Payments
  import Fx
  import Routing
  import Store
  import Config

  // ---------------------------------------------------------------------
  // The writes of a transfer

  /** `applyRegularClientDelta` on the tables. */
  function Moved(banks: map<BankId, Bank>, clients: map<ClientId, Client>, b: Books,
                 cid: ClientId, cur: Currency, delta: real): Result<Books>
  {
    var s := Applied(banks, clients, b.balances, b.nostros, cid, cur, delta);
    if s.outcome.Fail? then Err(s.outcome.error)
    else Ok(b.(balances := s.balances, nostros := s.nostros,
               counters := Store.BumpedTimes(b.counters, "balance", s.balanceIds)))
  }

  /** `applyRegularClientDeltaClientOnly` on the tables. */
  function MovedClientOnly(banks: map<BankId, Bank>, clients: map<ClientId, Client>, b: Books,
                           cid: ClientId, cur: Currency, delta: real): Result<Books>
  {
    var s := ClientPart(banks, clients, b.balances, b.nostros, cid, cur, delta);
    if s.outcome.Fail? then Err(s.outcome.error)
    else Ok(b.(balances := s.balances, counters := Store.BumpedTimes(b.counters, "balance", s.balanceIds)))
  }

  /** `adjustNostroAndMirrorVostro` on the tables. */
  function Paired(clients: map<ClientId, Client>, b: Books,
                  owner: BankId, corr: BankId, cur: Currency, delta: real): Result<Books>
  {
    var a :- Adjusted(clients, b.balances, b.nostros, owner, corr, cur, delta);
    Ok(b.(balances := a.0, nostros := a.1, counters := Store.Bumped(b.counters, "balance")))
  }

  /** A nostro leg: the nostro `owner` holds in `cur` moved with its mirror,
      or `missing` when there is none. */
  function Leg(clients: map<ClientId, Client>, b: Books, owner: BankId, cur: Currency, delta: real,
               missing: Error): Result<Books>
  {
    match GetNostro(b.nostros, owner, cur)
    case None => Err(missing)
    case Some(n) => Paired(clients, b, owner, n.correspondentBankId, cur, delta)
  }

  /** A leg of `settleInterbank`: as `Leg`, but the nostro must be held at
      `hop`, the neighbour the route gives, or `mismatch` is thrown. */
  function Hop(clients: map<ClientId, Client>, b: Books, owner: BankId, cur: Currency, delta: real,
               hop: BankId, missing: Error, mismatch: Error): Result<Books>
  {
    match GetNostro(b.nostros, owner, cur)
    case None => Err(missing)
    case Some(n) =>
      if n.correspondentBankId != hop then Err(mismatch)
      else Paired(clients, b, owner, n.correspondentBankId, cur, delta)
  }

  /** One write of the transaction, as the code makes it. */
  datatype Op =
    | Move(cid: ClientId, cur: Currency, delta: real)
    | MoveClientOnly(cid: ClientId, cur: Currency, delta: real)
    | Adjust(owner: BankId, cur: Currency, delta: real, missing: Error)
    | AdjustAtHop(owner: BankId, cur: Currency, delta: real, hop: BankId, missing: Error, mismatch: Error)
    | RecordFx(pid: PaymentId, bankId: BankId, fromCur: Currency, toCur: Currency,
               fromAmount: real, toAmount: real, reason: string)
    | RecordMessage(pid: PaymentId, detail: MessageDetail)
    | Throw(error: Error)

  /** One write on the tables: the error it throws, or the tables after it. */
  function Do(banks: map<BankId, Bank>, clients: map<ClientId, Client>, b: Books, op: Op, at: int): Result<Books>
  {
    match op
    case Move(cid, cur, delta) => Moved(banks, clients, b, cid, cur, delta)
    case MoveClientOnly(cid, cur, delta) => MovedClientOnly(banks, clients, b, cid, cur, delta)
    case Adjust(owner, cur, delta, missing) => Leg(clients, b, owner, cur, delta, missing)
    case AdjustAtHop(owner, cur, delta, hop, missing, mismatch) => Hop(clients, b, owner, cur, delta, hop, missing, mismatch)
    case RecordFx(pid, bankId, fromCur, toCur, fromAmount, toAmount, reason) =>
      Ok(FxLogged(b, pid, bankId, fromCur, toCur, fromAmount, toAmount, at, reason))
    case RecordMessage(pid, detail) => Ok(Noted(b, pid, at, detail))
    case Throw(e) => Err(e)
  }

  /** The writes in order; the first one that throws ends the run. */
  function Run(banks: map<BankId, Bank>, clients: map<ClientId, Client>, b: Books, ops: seq<Op>, at: int): Result<Books>
    decreases |ops|
  {
    if ops == [] then Ok(b)
    else
      var b1 :- Do(banks, clients, b, ops[0], at);
      Run(banks, clients, b1, ops[1..], at)
  }

  /** FX at the originating bank: the debit amount leaves the debit
      currency, the settlement amount arrives in the settlement currency, and
      the conversion is logged. */
  function OriginFxOps(banks: map<BankId, Bank>, p: Payment, amount: real): seq<Op>
  {
    if p.debitCurrency == p.settlementCurrency then []
    else
      [ Move(p.fromClientId, p.debitCurrency, -CentsToReal(p.debitAmount)),
        Move(p.fromClientId, p.settlementCurrency, amount),
        RecordFx(p.id, p.fromBankId, p.debitCurrency, p.settlementCurrency,
                 CentsToReal(p.debitAmount), amount, "Payment origin FX"),
        RecordMessage(p.id, FxConversion(BankName(banks, p.fromBankId), p.debitCurrency, p.settlementCurrency,
                                         p.debitAmount, Quantize(amount))) ]
  }

  /** The client moves: the paying client is debited the settlement amount,
      the beneficiary credited the credit amount, neither touching a nostro. */
  function ClientMoveOps(p: Payment, amount: real): seq<Op>
  {
    [ MoveClientOnly(p.fromClientId, p.settlementCurrency, -amount),
      MoveClientOnly(p.toClientId, p.creditCurrency, CentsToReal(p.creditAmount)) ]
  }

  /** Settlement between `from` and `to` needs a route: two different,
      existing banks that are not both native in the currency. */
  predicate NeedsRoute(banks: map<BankId, Bank>, from: BankId, to: BankId, cur: Currency)
  {
    && from != to && from in banks && to in banks
    && !(banks[from].baseCurrency == cur && banks[to].baseCurrency == cur)
  }

  /** The two legs of settlement: the origin bank's nostro debited and the
      beneficiary bank's nostro credited, each only when the bank is not
      native in the currency. With `hops`, each nostro must be held at the
      hop the route gives. */
  function Legs(banks: map<BankId, Bank>, from: BankId, to: BankId, cur: Currency, amount: real,
                hops: Option<(BankId, BankId)>): seq<Op>
    requires from in banks && to in banks
  {
    (if banks[from].baseCurrency == cur then []
     else if hops.None? then [Adjust(from, cur, -amount, MissingOriginNostro(cur))]
     else [AdjustAtHop(from, cur, -amount, hops.value.0, MissingOriginNostro(cur), OriginRouteMismatch)])
    + (if banks[to].baseCurrency == cur then []
       else if hops.None? then [Adjust(to, cur, amount, MissingBeneficiaryNostro(cur))]
       else [AdjustAtHop(to, cur, amount, hops.value.1, MissingBeneficiaryNostro(cur), BeneficiaryRouteMismatch)])
  }

  /** `settleInterbank`, given what `findMinimumHopRoute` returned: nothing
      within one bank or between two banks native in the currency; no route
      of two banks or more is a throw; otherwise the two legs at the route's
      first and last hops. */
  function InterbankOps(banks: map<BankId, Bank>, from: BankId, to: BankId, cur: Currency, amount: real,
                        route: Option<seq<BankId>>): seq<Op>
  {
    if from == to then []
    else if from !in banks || to !in banks then [Throw(BankNotFound)]
    else if banks[from].baseCurrency == cur && banks[to].baseCurrency == cur then []
    else if route.None? || |route.value| < 2 then [Throw(NoSettlementRoute)]
    else Legs(banks, from, to, cur, amount, Some((route.value[1], route.value[|route.value| - 2])))
  }

  /** Settlement without the route: when the banks are connected in the
      currency, the two legs at the correspondents the nostros name
      (`InterbankFollowsRoute` shows `settleInterbank` does exactly this). */
  ghost function SettlementOps(banks: map<BankId, Bank>, nostros: Nostros, from: BankId, to: BankId,
                               cur: Currency, amount: real): seq<Op>
  {
    if from == to then []
    else if from !in banks || to !in banks then [Throw(BankNotFound)]
    else if banks[from].baseCurrency == cur && banks[to].baseCurrency == cur then []
    else if !Routing.Reachable(banks, nostros, cur, from, to) then [Throw(NoSettlementRoute)]
    else Legs(banks, from, to, cur, amount, None)
  }

  /** FX at the beneficiary bank: its nostro in the settlement currency is
      consumed, its nostro in the credit currency (unless that is its base
      currency) receives the credit amount, and the conversion is logged. */
  function DestinationFxOps(banks: map<BankId, Bank>, p: Payment, amount: real): seq<Op>
  {
    if p.settlementCurrency == p.creditCurrency then []
    else
      [Adjust(p.toBankId, p.settlementCurrency, -amount, MissingBeneficiaryNostro(p.settlementCurrency))]
      + (if p.toBankId !in banks then [Throw(BankNotFound)]
         else
           (if p.creditCurrency != banks[p.toBankId].baseCurrency
            then [Adjust(p.toBankId, p.creditCurrency, CentsToReal(p.creditAmount), MissingBeneficiaryNostro(p.creditCurrency))]
            else [])
           + [ RecordFx(p.id, p.toBankId, p.settlementCurrency, p.creditCurrency,
                        amount, CentsToReal(p.creditAmount), "Payment destination FX"),
               RecordMessage(p.id, FxConversion(BankName(banks, p.toBankId), p.settlementCurrency, p.creditCurrency,
                                                Quantize(amount), p.creditAmount)) ])
  }

  /** The payment row with a new state and execution time; no row, no change. */
  function MarkExecuted(payments: map<PaymentId, Payment>, id: PaymentId, at: int): (r: map<PaymentId, Payment>)
    ensures r.Keys == payments.Keys
    ensures id in payments ==> r[id] == payments[id].(state := Executed, executedAtMs := Some(at))
    ensures forall q :: q in payments && q != id ==> r[q] == payments[q]
  {
    if id in payments then payments[id := payments[id].(state := Executed, executedAtMs := Some(at))] else payments
  }

  /** The payment row settled at `at`; no row, no change. */
  function MarkSettled(payments: map<PaymentId, Payment>, id: PaymentId, at: int): (r: map<PaymentId, Payment>)
    ensures r.Keys == payments.Keys
    ensures id in payments ==> r[id] == payments[id].(state := Settled, settledAtMs := Some(at))
    ensures forall q :: q in payments && q != id ==> r[q] == payments[q]
  {
    if id in payments then payments[id := payments[id].(state := Settled, settledAtMs := Some(at))] else payments
  }

  /** The payment row failed at `at` with reason `e`; no row, no change. */
  function MarkFailed(payments: map<PaymentId, Payment>, id: PaymentId, e: Error, at: int): (r: map<PaymentId, Payment>)
    ensures r.Keys == payments.Keys
    ensures id in payments ==> r[id] == payments[id].(state := Failed, failReason := Some(e), executedAtMs := Some(at))
    ensures forall q :: q in payments && q != id ==> r[q] == payments[q]
  {
    if id in payments then payments[id := payments[id].(state := Failed, failReason := Some(e), executedAtMs := Some(at))]
    else payments
  }

  /** The close of a transfer: the LIQUIDATION message, EXECUTED with its
      message, then SETTLED with its message. */
  function Finished(b: Books, p: Payment, amount: real, at: int): Books
  {
    var b1 := Noted(b, p.id, at, Liquidation(p.settlementCurrency, Quantize(amount), p.route));
    var b2 := Noted(b1.(payments := MarkExecuted(b1.payments, p.id, at)), p.id, at, ExecutedNote);
    Noted(b2.(payments := MarkSettled(b2.payments, p.id, at)), p.id, at, SettledNote)
  }

  /** The writes before the route search. */
  function FrontOps(banks: map<BankId, Bank>, p: Payment, amount: real): seq<Op>
  {
    OriginFxOps(banks, p, amount) + ClientMoveOps(p, amount)
  }

  /** The transaction up to settlement: the settlement amount, origin FX and
      the client moves. */
  function Front(banks: map<BankId, Bank>, clients: map<ClientId, Client>, rates: Fx.RateTable,
                 b: Books, p: Payment, at: int): Result<(real, Books)>
  {
    var amount :- Chain(rates, p.debitCurrency, p.settlementCurrency, CentsToReal(p.debitAmount));
    var b2 :- Run(banks, clients, b, FrontOps(banks, p, amount), at);
    Ok((amount, b2))
  }

  /** The writes after the route search, given the route it found. */
  function BackOps(banks: map<BankId, Bank>, p: Payment, amount: real, route: Option<seq<BankId>>): seq<Op>
  {
    InterbankOps(banks, p.fromBankId, p.toBankId, p.settlementCurrency, amount, route) + DestinationFxOps(banks, p, amount)
  }

  /** The rest of the transaction, given the route found for settlement. */
  function Back(banks: map<BankId, Bank>, clients: map<ClientId, Client>, b: Books,
                p: Payment, amount: real, at: int, route: Option<seq<BankId>>): Result<Books>
  {
    var b4 :- Run(banks, clients, b, BackOps(banks, p, amount, route), at);
    Ok(Finished(b4, p, amount, at))
  }

  /** `Back` with settlement written without the route: the two end legs,
      then FX at the beneficiary bank and the close. */
  ghost function Remainder(banks: map<BankId, Bank>, clients: map<ClientId, Client>, b: Books,
                           p: Payment, amount: real, at: int): Result<Books>
  {
    var ops := SettlementOps(banks, b.nostros, p.fromBankId, p.toBankId, p.settlementCurrency, amount)
               + DestinationFxOps(banks, p, amount);
    var b4 :- Run(banks, clients, b, ops, at);
    Ok(Finished(b4, p, amount, at))
  }

  /** The transaction body: each part in turn; the first error ends it. */
  ghost function Transfer(banks: map<BankId, Bank>, clients: map<ClientId, Client>, rates: Fx.RateTable,
                          b: Books, p: Payment, at: int): Result<Books>
  {
    var f :- Front(banks, clients, rates, b, p, at);
    Remainder(banks, clients, f.1, p, f.0, at)
  }

  /** `failPayment` on the tables: FAILED with the reason and the time, and
      its message. */
  function FailedBooks(b: Books, pid: PaymentId, e: Error, at: int): Books
  {
    Noted(b.(payments := MarkFailed(b.payments, pid, e, at)), pid, at, FailedNote(e))
  }

  /** `executePayment`: an unknown id is refused; a payment that is not
      QUEUED is left alone; otherwise the transfer's tables, or the tables
      of the start with the payment FAILED. */
  ghost function Execution(banks: map<BankId, Bank>, clients: map<ClientId, Client>, rates: Fx.RateTable,
                           b: Books, pid: PaymentId, at: int): (Outcome, Books)
  {
    if pid !in b.payments then (Fail(PaymentNotFound), b)
    else if b.payments[pid].state != Queued then (Pass, b)
    else match Transfer(banks, clients, rates, b, b.payments[pid], at)
      case Ok(b') => (Pass, b')
      case Err(e) => (Pass, FailedBooks(b, pid, e, at))
  }

  // ---------------------------------------------------------------------
  // Runs of writes

  lemma RunOne(banks: map<BankId, Bank>, clients: map<ClientId, Client>, b: Books, op: Op, at: int)
    ensures Run(banks, clients, b, [op], at) == Do(banks, clients, b, op, at)
  {
    assert [op][1..] == [];
  }

  lemma RunTwo(banks: map<BankId, Bank>, clients: map<ClientId, Client>, b: Books, op1: Op, op2: Op, at: int)
    ensures Run(banks, clients, b, [op1, op2], at)
         == match Do(banks, clients, b, op1, at)
            case Err(e) => Err(e)
            case Ok(b1) => Do(banks, clients, b1, op2, at)
  {
    assert [op1, op2][1..] == [op2];
    var d := Do(banks, clients, b, op1, at);
    if d.Ok? {
      RunOne(banks, clients, d.value, op2, at);
    }
  }

  /** Running two lists one after the other is running their concatenation:
      the second starts on the tables the first leaves, and does not run at
      all when the first throws. */
  lemma {:induction false} RunAppend(banks: map<BankId, Bank>, clients: map<ClientId, Client>, b: Books,
                                     xs: seq<Op>, ys: seq<Op>, at: int)
    ensures Run(banks, clients, b, xs + ys, at)
         == match Run(banks, clients, b, xs, at)
            case Err(e) => Err(e)
            case Ok(b1) => Run(banks, clients, b1, ys, at)
    decreases |xs|
  {
    if xs == [] {
      assert xs + ys == ys;
    } else {
      assert (xs + ys)[0] == xs[0] && (xs + ys)[1..] == xs[1..] + ys;
      var d := Do(banks, clients, b, xs[0], at);
      if d.Ok? {
        RunAppend(banks, clients, d.value, xs[1..], ys, at);
      }
    }
  }

  // ---------------------------------------------------------------------
  // What every write keeps

  /** The table constraints, on the tables a payment writes. */
  ghost predicate Sound(banks: map<BankId, Bank>, clients: map<ClientId, Client>, b: Books)
  {
    Store.TablesValid(banks, clients, b.balances, b.nostros, b.payments)
  }

  /** A write that moves money keeps the table constraints, the nostro links,
      the payment rows and mirror equality. */
  ghost predicate Keeps(banks: map<BankId, Bank>, clients: map<ClientId, Client>, b: Books, b': Books)
  {
    && Sound(banks, clients, b')
    && Routing.SameLinks(b.nostros, b'.nostros)
    && b'.payments == b.payments
    && (Mirrored(clients, b.balances, b.nostros) ==> Mirrored(clients, b'.balances, b'.nostros))
  }

  /** Keeping is transitive: writes made one after the other keep what each keeps. */
  lemma KeepsChain(banks: map<BankId, Bank>, clients: map<ClientId, Client>, b0: Books, b1: Books, b2: Books)
    requires Keeps(banks, clients, b0, b1) && Keeps(banks, clients, b1, b2)
    ensures Keeps(banks, clients, b0, b2)
  {
  }

  /** A write that only logs (a message, an FX event) keeps everything. */
  lemma LogKeeps(banks: map<BankId, Bank>, clients: map<ClientId, Client>, b: Books, b': Books)
    requires Sound(banks, clients, b)
    requires b'.balances == b.balances && b'.nostros == b.nostros && b'.payments == b.payments
    ensures Keeps(banks, clients, b, b')
  {
  }

  /** An adjustment changes one nostro's balance and nothing else of the nostro table. */
  lemma AdjustedLinks(clients: map<ClientId, Client>, balances: Accounts.Balances, nostros: Nostros,
                      owner: BankId, corr: BankId, cur: Currency, delta: real)
    requires Adjusted(clients, balances, nostros, owner, corr, cur, delta).Ok?
    ensures Routing.SameLinks(nostros, Adjusted(clients, balances, nostros, owner, corr, cur, delta).value.1)
  {
    AdjustedCases(clients, balances, nostros, owner, corr, cur, delta);
  }

  /** A client move changes at most one nostro's balance. */
  lemma AppliedLinks(banks: map<BankId, Bank>, clients: map<ClientId, Client>, balances: Accounts.Balances, nostros: Nostros,
                     cid: ClientId, cur: Currency, delta: real)
    ensures Routing.SameLinks(nostros, Applied(banks, clients, balances, nostros, cid, cur, delta).nostros)
  {
    AppliedShape(banks, clients, balances, nostros, cid, cur, delta);
    var first := ClientPart(banks, clients, balances, nostros, cid, cur, delta);
    if first.outcome.Pass? && cur != banks[clients[cid].bankId].baseCurrency {
      var bankId := clients[cid].bankId;
      var corr := nostros[(bankId, cur)].correspondentBankId;
      if Adjusted(clients, first.balances, nostros, bankId, corr, cur, delta).Ok? {
        AdjustedLinks(clients, first.balances, nostros, bankId, corr, cur, delta);
      }
    }
  }

  lemma MovedKeeps(banks: map<BankId, Bank>, clients: map<ClientId, Client>, b: Books,
                   cid: ClientId, cur: Currency, delta: real)
    requires Sound(banks, clients, b)
    ensures var m := Moved(banks, clients, b, cid, cur, delta);
            m.Ok? ==> Keeps(banks, clients, b, m.value)
  {
    AppliedKeepsInvariants(banks, clients, b.balances, b.nostros, b.payments, cid, cur, delta);
    AppliedLinks(banks, clients, b.balances, b.nostros, cid, cur, delta);
  }

  lemma MovedClientOnlyKeeps(banks: map<BankId, Bank>, clients: map<ClientId, Client>, b: Books,
                             cid: ClientId, cur: Currency, delta: real)
    requires Sound(banks, clients, b)
    ensures var m := MovedClientOnly(banks, clients, b, cid, cur, delta);
            m.Ok? ==> Keeps(banks, clients, b, m.value) && m.value.nostros == b.nostros
  {
    AppliedKeepsInvariants(banks, clients, b.balances, b.nostros, b.payments, cid, cur, delta);
    ClientPartWrites(banks, clients, b.balances, b.nostros, cid, cur, delta);
  }

  lemma PairedKeeps(banks: map<BankId, Bank>, clients: map<ClientId, Client>, b: Books,
                    owner: BankId, corr: BankId, cur: Currency, delta: real)
    requires Sound(banks, clients, b)
    ensures var m := Paired(clients, b, owner, corr, cur, delta);
            m.Ok? ==> Keeps(banks, clients, b, m.value)
  {
    if Adjusted(clients, b.balances, b.nostros, owner, corr, cur, delta).Ok? {
      AdjustedKeepsInvariants(banks, clients, b.balances, b.nostros, b.payments, owner, corr, cur, delta);
      AdjustedLinks(clients, b.balances, b.nostros, owner, corr, cur, delta);
    }
  }

  lemma LegKeeps(banks: map<BankId, Bank>, clients: map<ClientId, Client>, b: Books,
                 owner: BankId, cur: Currency, delta: real, missing: Error)
    requires Sound(banks, clients, b)
    ensures var m := Leg(clients, b, owner, cur, delta, missing);
            m.Ok? ==> Keeps(banks, clients, b, m.value)
  {
    if (owner, cur) in b.nostros {
      PairedKeeps(banks, clients, b, owner, b.nostros[(owner, cur)].correspondentBankId, cur, delta);
    }
  }

  /** A leg at a hop is the plain leg when the nostro is held at that hop,
      and throws otherwise. */
  lemma HopIsLeg(clients: map<ClientId, Client>, b: Books, owner: BankId, cur: Currency, delta: real,
                 hop: BankId, missing: Error, mismatch: Error)
    ensures HopNostro(b.nostros, owner, hop, cur) ==>
              Hop(clients, b, owner, cur, delta, hop, missing, mismatch) == Leg(clients, b, owner, cur, delta, missing)
    ensures !HopNostro(b.nostros, owner, hop, cur) ==> Hop(clients, b, owner, cur, delta, hop, missing, mismatch).Err?
  {
  }

  /** Every write keeps the table constraints, the nostro links, the payment
      rows and mirror equality. */
  lemma DoKeeps(banks: map<BankId, Bank>, clients: map<ClientId, Client>, b: Books, op: Op, at: int)
    requires Sound(banks, clients, b)
    ensures var r := Do(banks, clients, b, op, at);
            r.Ok? ==> Keeps(banks, clients, b, r.value)
  {
    match op
    case Move(cid, cur, delta) =>
      MovedKeeps(banks, clients, b, cid, cur, delta);
    case MoveClientOnly(cid, cur, delta) =>
      MovedClientOnlyKeeps(banks, clients, b, cid, cur, delta);
    case Adjust(owner, cur, delta, missing) =>
      LegKeeps(banks, clients, b, owner, cur, delta, missing);
    case AdjustAtHop(owner, cur, delta, hop, missing, mismatch) =>
      HopIsLeg(clients, b, owner, cur, delta, hop, missing, mismatch);
      LegKeeps(banks, clients, b, owner, cur, delta, missing);
    case RecordFx(pid, bankId, fromCur, toCur, fromAmount, toAmount, reason) =>
      LogKeeps(banks, clients, b, FxLogged(b, pid, bankId, fromCur, toCur, fromAmount, toAmount, at, reason));
    case RecordMessage(pid, detail) =>
      LogKeeps(banks, clients, b, Noted(b, pid, at, detail));
    case Throw(e) =>
  }

  /** A run that goes through keeps what every write keeps. */
  lemma {:induction false} RunKeeps(banks: map<BankId, Bank>, clients: map<ClientId, Client>, b: Books,
                                    ops: seq<Op>, at: int)
    requires Sound(banks, clients, b)
    ensures var r := Run(banks, clients, b, ops, at);
            r.Ok? ==> Keeps(banks, clients, b, r.value)
    decreases |ops|
  {
    if ops == [] {
      LogKeeps(banks, clients, b, b);
    } else {
      var d := Do(banks, clients, b, ops[0], at);
      DoKeeps(banks, clients, b, ops[0], at);
      if d.Ok? {
        RunKeeps(banks, clients, d.value, ops[1..], at);
        var r := Run(banks, clients, d.value, ops[1..], at);
        if r.Ok? {
          KeepsChain(banks, clients, b, d.value, r.value);
        }
      }
    }
  }

  /** Marking a payment executed then settled keeps every row under its own id. */
  lemma MarkedRows(payments: map<PaymentId, Payment>, id: PaymentId, at: int)
    requires forall q :: q in payments ==> payments[q].id == q
    ensures var r := MarkSettled(MarkExecuted(payments, id, at), id, at);
            forall q :: q in r ==> r[q].id == q
  {
  }

  /** The table constraints hold of tables with the same balances and
      nostros and payment rows kept under their own ids. */
  lemma SoundFrame(banks: map<BankId, Bank>, clients: map<ClientId, Client>, b: Books, b': Books)
    requires Sound(banks, clients, b)
    requires b'.balances == b.balances && b'.nostros == b.nostros
    requires forall q :: q in b'.payments ==> b'.payments[q].id == q
    ensures Sound(banks, clients, b')
  {
  }

  /** The close touches only messages and the payment's own row, which ends
      SETTLED with both timestamps. */
  lemma FinishedKeeps(banks: map<BankId, Bank>, clients: map<ClientId, Client>, b: Books,
                      p: Payment, amount: real, at: int)
    requires Sound(banks, clients, b)
    ensures var b' := Finished(b, p, amount, at);
            && Sound(banks, clients, b')
            && b'.balances == b.balances && b'.nostros == b.nostros && b'.fxHistory == b.fxHistory
            && b'.payments == MarkSettled(MarkExecuted(b.payments, p.id, at), p.id, at)
            && |b'.messages| == |b.messages| + 3
            && b'.messages[|b.messages|].detail == Liquidation(p.settlementCurrency, Quantize(amount), p.route)
            && b'.messages[|b.messages| + 1].detail == ExecutedNote
            && b'.messages[|b.messages| + 2].detail == SettledNote
  {
    MarkedRows(b.payments, p.id, at);
    SoundFrame(banks, clients, b, Finished(b, p, amount, at));
  }

  lemma RemainderKeeps(banks: map<BankId, Bank>, clients: map<ClientId, Client>, b: Books,
                       p: Payment, amount: real, at: int)
    requires Sound(banks, clients, b)
    ensures var r := Remainder(banks, clients, b, p, amount, at);
            r.Ok? ==>
              && Sound(banks, clients, r.value)
              && r.value.payments == MarkSettled(MarkExecuted(b.payments, p.id, at), p.id, at)
              && (Mirrored(clients, b.balances, b.nostros) ==> Mirrored(clients, r.value.balances, r.value.nostros))
  {
    var ops := SettlementOps(banks, b.nostros, p.fromBankId, p.toBankId, p.settlementCurrency, amount)
               + DestinationFxOps(banks, p, amount);
    RunKeeps(banks, clients, b, ops, at);
    var r := Run(banks, clients, b, ops, at);
    if r.Ok? {
      FinishedKeeps(banks, clients, r.value, p, amount, at);
    }
  }

  /** A transfer that goes through keeps the table constraints and mirror
      equality and leaves the payment SETTLED, every other row as it was. */
  lemma TransferKeeps(banks: map<BankId, Bank>, clients: map<ClientId, Client>, rates: Fx.RateTable,
                      b: Books, p: Payment, at: int)
    requires Sound(banks, clients, b)
    ensures var r := Transfer(banks, clients, rates, b, p, at);
            r.Ok? ==>
              && Sound(banks, clients, r.value)
              && r.value.payments == MarkSettled(MarkExecuted(b.payments, p.id, at), p.id, at)
              && (Mirrored(clients, b.balances, b.nostros) ==> Mirrored(clients, r.value.balances, r.value.nostros))
  {
    var amount := Chain(rates, p.debitCurrency, p.settlementCurrency, CentsToReal(p.debitAmount));
    if amount.Ok? {
      RunKeeps(banks, clients, b, FrontOps(banks, p, amount.value), at);
      var f := Run(banks, clients, b, FrontOps(banks, p, amount.value), at);
      if f.Ok? {
        RemainderKeeps(banks, clients, f.value, p, amount.value, at);
      }
    }
  }

  /** A payment settled in the beneficiary bank's own base currency but
      credited in another currency never commits: no bank holds a nostro in
      its own base currency, so the destination FX step finds none and throws
      the missing-beneficiary-nostro error, if nothing before it has thrown. */
  lemma {:induction false} SettlingInBeneficiaryBaseFails(
    banks: map<BankId, Bank>, clients: map<ClientId, Client>, rates: Fx.RateTable, b: Books, p: Payment, at: int)
    requires Sound(banks, clients, b)
    requires p.toBankId in banks && p.settlementCurrency == banks[p.toBankId].baseCurrency
    requires p.creditCurrency != p.settlementCurrency
    ensures Transfer(banks, clients, rates, b, p, at).Err?
  {
    var amount := Chain(rates, p.debitCurrency, p.settlementCurrency, CentsToReal(p.debitAmount));
    if amount.Ok? {
      RunKeeps(banks, clients, b, FrontOps(banks, p, amount.value), at);
      var f := Run(banks, clients, b, FrontOps(banks, p, amount.value), at);
      if f.Ok? {
        var b2 := f.value;
        var xs := SettlementOps(banks, b2.nostros, p.fromBankId, p.toBankId, p.settlementCurrency, amount.value);
        var ys := DestinationFxOps(banks, p, amount.value);
        RunAppend(banks, clients, b2, xs, ys, at);
        RunKeeps(banks, clients, b2, xs, at);
        var r := Run(banks, clients, b2, xs, at);
        if r.Ok? {
          var k := (p.toBankId, p.settlementCurrency);
          assert k !in r.value.nostros;
          assert ys == [ys[0]] + ys[1..];
          assert Do(banks, clients, r.value, ys[0], at).Err?;
        }
      }
    }
  }

  // ---------------------------------------------------------------------
  // Settlement follows the route

  /** What `findMinimumHopRoute` promises: a route exactly when the banks are
      connected, and then one that joins them. */
  ghost predicate FoundRoute(banks: map<BankId, Bank>, nostros: Nostros, c: Currency,
                             from: BankId, to: BankId, route: Option<seq<BankId>>)
  {
    && (route.Some? <==> Routing.Reachable(banks, nostros, c, from, to))
    && (route.Some? ==> Routing.Route(banks, nostros, c, route.value, from, to))
  }

  /** The legs at two hops are the plain legs when each nostro that moves is
      held at its hop. */
  lemma LegsAtHops(banks: map<BankId, Bank>, clients: map<ClientId, Client>, b: Books,
                   from: BankId, to: BankId, cur: Currency, amount: real, first: BankId, last: BankId, at: int)
    requires from in banks && to in banks && from != to
    requires banks[from].baseCurrency != cur ==> HopNostro(b.nostros, from, first, cur)
    requires banks[to].baseCurrency != cur ==> HopNostro(b.nostros, to, last, cur)
    ensures Run(banks, clients, b, Legs(banks, from, to, cur, amount, Some((first, last))), at)
         == Run(banks, clients, b, Legs(banks, from, to, cur, amount, None), at)
  {
    var xh := AdjustAtHop(from, cur, -amount, first, MissingOriginNostro(cur), OriginRouteMismatch);
    var xp := Adjust(from, cur, -amount, MissingOriginNostro(cur));
    var yh := AdjustAtHop(to, cur, amount, last, MissingBeneficiaryNostro(cur), BeneficiaryRouteMismatch);
    var yp := Adjust(to, cur, amount, MissingBeneficiaryNostro(cur));
    if banks[from].baseCurrency == cur && banks[to].baseCurrency == cur {
    } else if banks[from].baseCurrency == cur {
      assert Legs(banks, from, to, cur, amount, Some((first, last))) == [yh];
      assert Legs(banks, from, to, cur, amount, None) == [yp];
      HopRunIsLegRun(banks, clients, b, to, cur, amount, last, MissingBeneficiaryNostro(cur), BeneficiaryRouteMismatch, at);
    } else if banks[to].baseCurrency == cur {
      assert Legs(banks, from, to, cur, amount, Some((first, last))) == [xh];
      assert Legs(banks, from, to, cur, amount, None) == [xp];
      HopRunIsLegRun(banks, clients, b, from, cur, -amount, first, MissingOriginNostro(cur), OriginRouteMismatch, at);
    } else {
      assert Legs(banks, from, to, cur, amount, Some((first, last))) == [xh, yh];
      assert Legs(banks, from, to, cur, amount, None) == [xp, yp];
      TwoHopsAreLegs(banks, clients, b, from, to, cur, amount, first, last, at);
    }
  }

  /** One leg at a hop runs as the plain leg when its nostro is held there. */
  lemma HopRunIsLegRun(banks: map<BankId, Bank>, clients: map<ClientId, Client>, b: Books,
                       owner: BankId, cur: Currency, delta: real, hop: BankId, missing: Error, mismatch: Error, at: int)
    requires HopNostro(b.nostros, owner, hop, cur)
    ensures Run(banks, clients, b, [AdjustAtHop(owner, cur, delta, hop, missing, mismatch)], at)
         == Run(banks, clients, b, [Adjust(owner, cur, delta, missing)], at)
  {
    RunOne(banks, clients, b, AdjustAtHop(owner, cur, delta, hop, missing, mismatch), at);
    RunOne(banks, clients, b, Adjust(owner, cur, delta, missing), at);
    DoHopIsDoLeg(banks, clients, b, owner, cur, delta, hop, missing, mismatch, at);
  }

  /** Both legs at their hops run as the plain legs; the first leave the
      nostro links the second checks as they were. */
  lemma TwoHopsAreLegs(banks: map<BankId, Bank>, clients: map<ClientId, Client>, b: Books,
                       from: BankId, to: BankId, cur: Currency, amount: real, first: BankId, last: BankId, at: int)
    requires HopNostro(b.nostros, from, first, cur) && HopNostro(b.nostros, to, last, cur)
    ensures Run(banks, clients, b, [AdjustAtHop(from, cur, -amount, first, MissingOriginNostro(cur), OriginRouteMismatch),
                                    AdjustAtHop(to, cur, amount, last, MissingBeneficiaryNostro(cur), BeneficiaryRouteMismatch)], at)
         == Run(banks, clients, b, [Adjust(from, cur, -amount, MissingOriginNostro(cur)),
                                    Adjust(to, cur, amount, MissingBeneficiaryNostro(cur))], at)
  {
    var xh := AdjustAtHop(from, cur, -amount, first, MissingOriginNostro(cur), OriginRouteMismatch);
    var xp := Adjust(from, cur, -amount, MissingOriginNostro(cur));
    var yh := AdjustAtHop(to, cur, amount, last, MissingBeneficiaryNostro(cur), BeneficiaryRouteMismatch);
    var yp := Adjust(to, cur, amount, MissingBeneficiaryNostro(cur));
    DoHopIsDoLeg(banks, clients, b, from, cur, -amount, first, MissingOriginNostro(cur), OriginRouteMismatch, at);
    var r := Do(banks, clients, b, xp, at);
    if r.Ok? {
      LegMoves(clients, b, from, cur, -amount, MissingOriginNostro(cur));
      assert HopNostro(r.value.nostros, to, last, cur);
      DoHopIsDoLeg(banks, clients, r.value, to, cur, amount, last, MissingBeneficiaryNostro(cur), BeneficiaryRouteMismatch, at);
    }
    RunTwoAlike(banks, clients, b, xh, yh, xp, yp, at);
  }

  /** A write at a hop is the plain write when its nostro is held there. */
  lemma DoHopIsDoLeg(banks: map<BankId, Bank>, clients: map<ClientId, Client>, b: Books,
                     owner: BankId, cur: Currency, delta: real, hop: BankId, missing: Error, mismatch: Error, at: int)
    requires HopNostro(b.nostros, owner, hop, cur)
    ensures Do(banks, clients, b, AdjustAtHop(owner, cur, delta, hop, missing, mismatch), at)
         == Do(banks, clients, b, Adjust(owner, cur, delta, missing), at)
  {
    HopIsLeg(clients, b, owner, cur, delta, hop, missing, mismatch);
  }

  /** Two writes that do the same step by step run to the same end. */
  lemma RunTwoAlike(banks: map<BankId, Bank>, clients: map<ClientId, Client>, b: Books,
                    o1: Op, o2: Op, p1: Op, p2: Op, at: int)
    requires Do(banks, clients, b, o1, at) == Do(banks, clients, b, p1, at)
    requires Do(banks, clients, b, o1, at).Ok? ==>
               Do(banks, clients, Do(banks, clients, b, o1, at).value, o2, at)
               == Do(banks, clients, Do(banks, clients, b, o1, at).value, p2, at)
    ensures Run(banks, clients, b, [o1, o2], at) == Run(banks, clients, b, [p1, p2], at)
  {
    RunTwo(banks, clients, b, o1, o2, at);
    RunTwo(banks, clients, b, p1, p2, at);
  }

  /** Whatever route the search returns, `settleInterbank` moves only the
      two end legs: a route of fewer than two banks never comes back,
      and the first and last hops are the correspondents of the two nostros,
      so neither route-mismatch error is ever thrown. */
  lemma InterbankFollowsRoute(banks: map<BankId, Bank>, clients: map<ClientId, Client>, b: Books,
                              from: BankId, to: BankId, cur: Currency, amount: real,
                              route: Option<seq<BankId>>, at: int)
    requires Sound(banks, clients, b)
    requires NeedsRoute(banks, from, to, cur) ==> FoundRoute(banks, b.nostros, cur, from, to, route)
    ensures InterbankOps(banks, from, to, cur, amount, route) == SettlementOps(banks, b.nostros, from, to, cur, amount)
            || Run(banks, clients, b, InterbankOps(banks, from, to, cur, amount, route), at)
               == Run(banks, clients, b, SettlementOps(banks, b.nostros, from, to, cur, amount), at)
  {
    if NeedsRoute(banks, from, to, cur) && route.Some? {
      var path := route.value;
      Routing.RouteEnds(banks, b.nostros, cur, from, to, path);
      LegsAtHops(banks, clients, b, from, to, cur, amount, path[1], path[|path| - 2], at);
    }
  }

  /** The writes after the route search are the two end legs, then FX at
      the beneficiary bank, as `Remainder` states them without the route. */
  lemma BackFollowsRoute(banks: map<BankId, Bank>, clients: map<ClientId, Client>, b: Books,
                         p: Payment, amount: real, at: int, route: Option<seq<BankId>>)
    requires Sound(banks, clients, b)
    requires NeedsRoute(banks, p.fromBankId, p.toBankId, p.settlementCurrency) ==>
               FoundRoute(banks, b.nostros, p.settlementCurrency, p.fromBankId, p.toBankId, route)
    ensures Back(banks, clients, b, p, amount, at, route) == Remainder(banks, clients, b, p, amount, at)
  {
    var cur := p.settlementCurrency;
    var xs := InterbankOps(banks, p.fromBankId, p.toBankId, cur, amount, route);
    var xs' := SettlementOps(banks, b.nostros, p.fromBankId, p.toBankId, cur, amount);
    var ys := DestinationFxOps(banks, p, amount);
    InterbankFollowsRoute(banks, clients, b, p.fromBankId, p.toBankId, cur, amount, route, at);
    RunAppend(banks, clients, b, xs, ys, at);
    RunAppend(banks, clients, b, xs', ys, at);
  }

  /** A leg that goes through moves its own nostro by the delta, at 2 dp,
      and no other nostro. */
  lemma LegMoves(clients: map<ClientId, Client>, b: Books, owner: BankId, cur: Currency, delta: real, missing: Error)
    requires Leg(clients, b, owner, cur, delta, missing).Ok?
    ensures (owner, cur) in b.nostros
    ensures Leg(clients, b, owner, cur, delta, missing).value.nostros == Shifted(b.nostros, owner, cur, delta, false)
  {
    var n := b.nostros[(owner, cur)];
    AdjustedCases(clients, b.balances, b.nostros, owner, n.correspondentBankId, cur, delta);
  }

  /** The nostro table after a leg that moves `owner`'s nostro in `cur` by
      `delta` (at 2 dp); a skipped leg leaves it as it is. */
  function Shifted(nostros: Nostros, owner: BankId, cur: Currency, delta: real, skip: bool): Nostros
  {
    if skip || (owner, cur) !in nostros then nostros
    else nostros[(owner, cur) := nostros[(owner, cur)].(balance := Quantize(CentsToReal(nostros[(owner, cur)].balance) + delta))]
  }

  /** A shift keeps the nostro rows and changes only the balance of its own row. */
  lemma ShiftedRows(nostros: Nostros, owner: BankId, cur: Currency, delta: real, skip: bool)
    ensures Shifted(nostros, owner, cur, delta, skip).Keys == nostros.Keys
    ensures forall k :: k in nostros && k != (owner, cur) ==> Shifted(nostros, owner, cur, delta, skip)[k] == nostros[k]
    ensures !skip && (owner, cur) in nostros ==>
              Shifted(nostros, owner, cur, delta, skip)[(owner, cur)].balance
              == Quantize(CentsToReal(nostros[(owner, cur)].balance) + delta)
  {
  }

  /** A leg that is skipped when `native` changes nothing; one that goes
      through moves its own nostro. */
  lemma OptionalLegMoves(banks: map<BankId, Bank>, clients: map<ClientId, Client>, b: Books,
                         owner: BankId, cur: Currency, delta: real, missing: Error, native: bool, at: int)
    ensures var r := Run(banks, clients, b, if native then [] else [Adjust(owner, cur, delta, missing)], at);
            r.Ok? ==>
              && (!native ==> (owner, cur) in b.nostros)
              && r.value.nostros == Shifted(b.nostros, owner, cur, delta, native)
  {
    if !native {
      RunOne(banks, clients, b, Adjust(owner, cur, delta, missing), at);
      if Leg(clients, b, owner, cur, delta, missing).Ok? {
        LegMoves(clients, b, owner, cur, delta, missing);
      }
    }
  }

  /** Settlement moves two nostros at most: the origin bank's, down by the
      amount, and the beneficiary bank's, up by the amount, each at 2 dp and
      only when the bank is not native (`ShiftedRows` says what a shift
      leaves); every other nostro keeps its row. */
  lemma SettlementMovesEnds(banks: map<BankId, Bank>, clients: map<ClientId, Client>, b: Books,
                            from: BankId, to: BankId, cur: Currency, amount: real, at: int)
    requires Run(banks, clients, b, SettlementOps(banks, b.nostros, from, to, cur, amount), at).Ok?
    ensures NeedsRoute(banks, from, to, cur) && banks[from].baseCurrency != cur ==> (from, cur) in b.nostros
    ensures NeedsRoute(banks, from, to, cur) && banks[to].baseCurrency != cur ==> (to, cur) in b.nostros
    ensures var skipFrom := !NeedsRoute(banks, from, to, cur) || banks[from].baseCurrency == cur;
            var skipTo := !NeedsRoute(banks, from, to, cur) || banks[to].baseCurrency == cur;
            Run(banks, clients, b, SettlementOps(banks, b.nostros, from, to, cur, amount), at).value.nostros
            == Shifted(Shifted(b.nostros, from, cur, -amount, skipFrom), to, cur, amount, skipTo)
  {
    var ops := SettlementOps(banks, b.nostros, from, to, cur, amount);
    if NeedsRoute(banks, from, to, cur) {
      var x := Adjust(from, cur, -amount, MissingOriginNostro(cur));
      var y := Adjust(to, cur, amount, MissingBeneficiaryNostro(cur));
      if banks[from].baseCurrency == cur {
        assert ops == [y];
        RunOne(banks, clients, b, y, at);
        LegMoves(clients, b, to, cur, amount, MissingBeneficiaryNostro(cur));
      } else if banks[to].baseCurrency == cur {
        assert ops == [x];
        RunOne(banks, clients, b, x, at);
        LegMoves(clients, b, from, cur, -amount, MissingOriginNostro(cur));
      } else {
        assert ops == [x, y];
        TwoLegsShift(banks, clients, b, from, to, cur, amount, at);
      }
    } else {
      assert ops == [];
    }
  }

  /** Both legs of settlement, one after the other. */
  lemma TwoLegsShift(banks: map<BankId, Bank>, clients: map<ClientId, Client>, b: Books,
                     from: BankId, to: BankId, cur: Currency, amount: real, at: int)
    requires Run(banks, clients, b, [Adjust(from, cur, -amount, MissingOriginNostro(cur)),
                                     Adjust(to, cur, amount, MissingBeneficiaryNostro(cur))], at).Ok?
    ensures (from, cur) in b.nostros && (to, cur) in Shifted(b.nostros, from, cur, -amount, false)
    ensures Run(banks, clients, b, [Adjust(from, cur, -amount, MissingOriginNostro(cur)),
                                    Adjust(to, cur, amount, MissingBeneficiaryNostro(cur))], at).value.nostros
            == Shifted(Shifted(b.nostros, from, cur, -amount, false), to, cur, amount, false)
  {
    var x := Adjust(from, cur, -amount, MissingOriginNostro(cur));
    var y := Adjust(to, cur, amount, MissingBeneficiaryNostro(cur));
    RunTwo(banks, clients, b, x, y, at);
    var d := Do(banks, clients, b, x, at);
    assert d == Leg(clients, b, from, cur, -amount, MissingOriginNostro(cur));
    LegMoves(clients, b, from, cur, -amount, MissingOriginNostro(cur));
    assert Do(banks, clients, d.value, y, at) == Leg(clients, d.value, to, cur, amount, MissingBeneficiaryNostro(cur));
    LegMoves(clients, d.value, to, cur, amount, MissingBeneficiaryNostro(cur));
  }

  // ---------------------------------------------------------------------
  // What an execution leaves

  /** The client moves refuse a client that is not a Regular client of the ledger. */
  lemma ClientMovesRefuse(banks: map<BankId, Bank>, clients: map<ClientId, Client>, b: Books,
                          p: Payment, amount: real, at: int)
    requires || !(p.fromClientId in clients && clients[p.fromClientId].kind.Regular?)
             || !(p.toClientId in clients && clients[p.toClientId].kind.Regular?)
    ensures Run(banks, clients, b, ClientMoveOps(p, amount), at).Err?
  {
    var moves := ClientMoveOps(p, amount);
    assert moves == [moves[0]] + [moves[1]];
    RunAppend(banks, clients, b, [moves[0]], [moves[1]], at);
    RunOne(banks, clients, b, moves[0], at);
    ClientPartWrites(banks, clients, b.balances, b.nostros, p.fromClientId, p.settlementCurrency, -amount);
    var m := MovedClientOnly(banks, clients, b, p.fromClientId, p.settlementCurrency, -amount);
    if m.Ok? {
      RunOne(banks, clients, m.value, moves[1], at);
      ClientPartWrites(banks, clients, m.value.balances, m.value.nostros, p.toClientId, p.creditCurrency,
                       CentsToReal(p.creditAmount));
    }
  }

  /** A client that is not a Regular client of the ledger cannot take part
      in an execution: the intent accepts House clients, but the balance
      moves refuse them, so such a payment always fails. */
  lemma NonRegularPartyFails(banks: map<BankId, Bank>, clients: map<ClientId, Client>, rates: Fx.RateTable,
                             b: Books, p: Payment, at: int)
    requires || !(p.fromClientId in clients && clients[p.fromClientId].kind.Regular?)
             || !(p.toClientId in clients && clients[p.toClientId].kind.Regular?)
    ensures Transfer(banks, clients, rates, b, p, at).Err?
  {
    var amount := Chain(rates, p.debitCurrency, p.settlementCurrency, CentsToReal(p.debitAmount));
    if amount.Ok? {
      var a := amount.value;
      RunAppend(banks, clients, b, OriginFxOps(banks, p, a), ClientMoveOps(p, a), at);
      var o := Run(banks, clients, b, OriginFxOps(banks, p, a), at);
      if o.Ok? {
        ClientMovesRefuse(banks, clients, o.value, p, a, at);
      }
    }
  }

  /** Failing a payment touches only its row, its message and the message counter. */
  lemma FailedKeeps(banks: map<BankId, Bank>, clients: map<ClientId, Client>, b: Books, pid: PaymentId, e: Error, at: int)
    requires Sound(banks, clients, b)
    ensures var b' := FailedBooks(b, pid, e, at);
            && Sound(banks, clients, b')
            && b'.balances == b.balances && b'.nostros == b.nostros && b'.fxHistory == b.fxHistory
            && b'.counters == Store.Bumped(b.counters, "payment_message")
            && b'.payments == MarkFailed(b.payments, pid, e, at)
            && b'.messages == b.messages + [PaymentMessage(Store.IdText("MSG_", Store.CounterValue(b.counters, "payment_message")),
                                                           pid, at, FailedNote(e))]
  {
  }

  /** `executePayment`, all or nothing: an unknown id is refused and a
      payment that is not QUEUED left alone; a queued payment either ends
      SETTLED with both timestamps, every other payment row as it was, or
      ends FAILED with the error as its reason, with balances, nostros and
      the FX history exactly as before and one FAILED message appended. */
  lemma ExecutionOutcomes(banks: map<BankId, Bank>, clients: map<ClientId, Client>, rates: Fx.RateTable,
                          b: Books, pid: PaymentId, at: int)
    requires Sound(banks, clients, b)
    ensures pid !in b.payments ==> Execution(banks, clients, rates, b, pid, at) == (Fail(PaymentNotFound), b)
    ensures pid in b.payments && b.payments[pid].state != Queued ==> Execution(banks, clients, rates, b, pid, at) == (Pass, b)
    ensures pid in b.payments && b.payments[pid].state == Queued ==>
              var p := b.payments[pid];
              var r := Execution(banks, clients, rates, b, pid, at);
              var t := Transfer(banks, clients, rates, b, p, at);
              && r.0 == Pass
              && r.1.payments.Keys == b.payments.Keys
              && (forall q :: q in b.payments && q != pid ==> r.1.payments[q] == b.payments[q])
              && (t.Ok? ==> r.1.payments[pid] == p.(state := Settled, executedAtMs := Some(at), settledAtMs := Some(at)))
              && (t.Err? ==>
                    && r.1.payments[pid] == p.(state := Failed, failReason := Some(t.error), executedAtMs := Some(at))
                    && r.1.balances == b.balances && r.1.nostros == b.nostros && r.1.fxHistory == b.fxHistory
                    && r.1.counters == Store.Bumped(b.counters, "payment_message")
                    && r.1.messages == b.messages + [PaymentMessage(Store.IdText("MSG_", Store.CounterValue(b.counters, "payment_message")),
                                                                    pid, at, FailedNote(t.error))])
  {
    if pid in b.payments && b.payments[pid].state == Queued {
      var t := Transfer(banks, clients, rates, b, b.payments[pid], at);
      TransferKeeps(banks, clients, rates, b, b.payments[pid], at);
      if t.Err? {
        FailedKeeps(banks, clients, b, pid, t.error, at);
      }
    }
  }

  /** Whatever its outcome, an execution keeps the table constraints and
      mirror equality. */
  lemma ExecutionKeeps(banks: map<BankId, Bank>, clients: map<ClientId, Client>, rates: Fx.RateTable,
                       b: Books, pid: PaymentId, at: int)
    requires Sound(banks, clients, b)
    ensures var r := Execution(banks, clients, rates, b, pid, at);
            && Sound(banks, clients, r.1)
            && (Mirrored(clients, b.balances, b.nostros) ==> Mirrored(clients, r.1.balances, r.1.nostros))
  {
    if pid in b.payments && b.payments[pid].state == Queued {
      var t := Transfer(banks, clients, rates, b, b.payments[pid], at);
      TransferKeeps(banks, clients, rates, b, b.payments[pid], at);
      if t.Err? {
        FailedKeeps(banks, clients, b, pid, t.error, at);
      }
    }
  }

  /** Why the full-reserve sum is not kept: intent creation stores the credit
      amount converted from the debit as given, while execution converts the
      debit as stored at 2 dp. With the seed rates, a debit of 0.005 USD settled
      and credited in EUR credits the beneficiary 0.00 EUR (`creditAmount`)
      while the beneficiary bank's EUR nostro receives 0.01 EUR (the
      settlement amount), so that bank's EUR reserve no longer balances. */
  lemma CreditDriftsFromSettlement()
    ensures var raw := 0.005;
            var pl := Amounts(Config.SeedRates, USD, "EUR", "EUR", raw);
            var settle := Chain(Config.SeedRates, USD, "EUR", CentsToReal(Quantize(raw)));
            && pl.Ok? && settle.Ok?
            && Quantize(pl.value.creditAmount) == 0
            && Quantize(settle.value) == 1
  {
    assert Quantize(0.005) == 1;
    assert Quantize(0.005 * 1.0 * 0.85) == 0;
    assert Quantize(0.01 * 1.0 * 0.85) == 1;
  }

  // ---------------------------------------------------------------------
  // The code

  /** One write of the transaction on the database, through the operation
      the code calls for it. */
  method Perform(db: Store.Database, op: Op, at: int) returns (o: Outcome)
    requires db.Valid()
    modifies db`balances, db`nostros, db`counters, db`fxHistory, db`messages
    ensures var d := Do(db.banks, db.clients, old(BooksOf(db)), op, at);
            && (d.Err? ==> o == Fail(d.error))
            && (d.Ok? ==> o == Pass && BooksOf(db) == d.value)
    ensures db.Valid()
  {
    match op
    case Move(cid, cur, delta) =>
      o := MoveBalance(db, cid, cur, delta);
    case MoveClientOnly(cid, cur, delta) =>
      o := MoveClientBalance(db, cid, cur, delta);
    case Adjust(owner, cur, delta, missing) =>
      o := AdjustLeg(db, owner, cur, delta, None, missing, missing);
    case AdjustAtHop(owner, cur, delta, hop, missing, mismatch) =>
      o := AdjustLeg(db, owner, cur, delta, Some(hop), missing, mismatch);
    case RecordFx(pid, bankId, fromCur, toCur, fromAmount, toAmount, reason) =>
      LogFx(db, pid, bankId, fromCur, toCur, fromAmount, toAmount, at, reason);
      o := Pass;
    case RecordMessage(pid, detail) =>
      InsertMessage(db, pid, at, detail);
      o := Pass;
    case Throw(e) =>
      o := Fail(e);
  }

  /** `applyRegularClientDelta` inside the transaction. */
  method MoveBalance(db: Store.Database, cid: ClientId, cur: Currency, delta: real) returns (o: Outcome)
    requires db.Valid()
    modifies db`counters, db`balances, db`nostros
    ensures var m := Moved(db.banks, db.clients, old(BooksOf(db)), cid, cur, delta);
            && (m.Err? ==> o == Fail(m.error))
            && (m.Ok? ==> o == Pass && BooksOf(db) == m.value)
    ensures db.Valid()
  {
    o := ApplyRegularClientDelta(db, cid, cur, delta);
  }

  /** `applyRegularClientDeltaClientOnly` inside the transaction. */
  method MoveClientBalance(db: Store.Database, cid: ClientId, cur: Currency, delta: real) returns (o: Outcome)
    requires db.Valid()
    modifies db`counters, db`balances
    ensures var m := MovedClientOnly(db.banks, db.clients, old(BooksOf(db)), cid, cur, delta);
            && (m.Err? ==> o == Fail(m.error))
            && (m.Ok? ==> o == Pass && BooksOf(db) == m.value)
    ensures db.Valid()
  {
    o := ApplyRegularClientDeltaClientOnly(db, cid, cur, delta);
  }

  /** A nostro leg inside the transaction: `getNostro`, the hop check when
      there is a hop to match, then `adjustNostroAndMirrorVostro`. */
  method AdjustLeg(db: Store.Database, owner: BankId, cur: Currency, delta: real, hop: Option<BankId>,
                   missing: Error, mismatch: Error) returns (o: Outcome)
    requires db.Valid()
    modifies db`counters, db`balances, db`nostros
    ensures var m := if hop.None? then Leg(db.clients, old(BooksOf(db)), owner, cur, delta, missing)
                     else Hop(db.clients, old(BooksOf(db)), owner, cur, delta, hop.value, missing, mismatch);
            && (m.Err? ==> o == Fail(m.error))
            && (m.Ok? ==> o == Pass && BooksOf(db) == m.value)
    ensures db.Valid()
  {
    var n := GetNostro(db.nostros, owner, cur);
    if n.None? {
      return Fail(missing);
    }
    var corr := n.value.correspondentBankId;
    if hop.Some? && corr != hop.value {
      return Fail(mismatch);
    }
    ghost var b := BooksOf(db);
    assert (if hop.None? then Leg(db.clients, b, owner, cur, delta, missing)
            else Hop(db.clients, b, owner, cur, delta, hop.value, missing, mismatch))
           == Paired(db.clients, b, owner, corr, cur, delta);
    o := AdjustNostroAndMirrorVostro(db, owner, corr, cur, delta);
  }

  /** The writes one after the other, stopping at the first that throws. */
  method PerformAll(db: Store.Database, ops: seq<Op>, at: int) returns (o: Outcome)
    requires db.Valid()
    modifies db`balances, db`nostros, db`counters, db`fxHistory, db`messages
    ensures var r := Run(db.banks, db.clients, old(BooksOf(db)), ops, at);
            && (r.Err? ==> o == Fail(r.error))
            && (r.Ok? ==> o == Pass && BooksOf(db) == r.value)
    ensures db.Valid()
  {
    ghost var start := BooksOf(db);
    var i := 0;
    while i < |ops|
      invariant 0 <= i <= |ops|
      invariant db.Valid()
      invariant Run(db.banks, db.clients, BooksOf(db), ops[i..], at) == Run(db.banks, db.clients, start, ops, at)
    {
      assert ops[i..][0] == ops[i] && ops[i..][1..] == ops[i + 1..];
      o := Perform(db, ops[i], at);
      if o.Fail? {
        return;
      }
      i := i + 1;
    }
    o := Pass;
  }

  /** The close of the transaction: LIQUIDATION, the EXECUTED update and
      message, the SETTLED update and message. */
  method Finish(db: Store.Database, p: Payment, amount: real, at: int)
    requires db.Valid()
    modifies db`payments, db`counters, db`messages
    ensures BooksOf(db) == Finished(old(BooksOf(db)), p, amount, at)
    ensures db.Valid()
  {
    InsertMessage(db, p.id, at, Liquidation(p.settlementCurrency, Quantize(amount), p.route));
    ghost var b1 := BooksOf(db);
    SetExecuted(db, p.id, at);
    assert BooksOf(db) == b1.(payments := MarkExecuted(b1.payments, p.id, at));
    InsertMessage(db, p.id, at, ExecutedNote);
    ghost var b2 := BooksOf(db);
    SetSettled(db, p.id, at);
    assert BooksOf(db) == b2.(payments := MarkSettled(b2.payments, p.id, at));
    InsertMessage(db, p.id, at, SettledNote);
  }

  /** The EXECUTED update of the payment row, when there is one. */
  method SetExecuted(db: Store.Database, id: PaymentId, at: int)
    requires db.Valid()
    modifies db`payments
    ensures db.payments == MarkExecuted(old(db.payments), id, at)
    ensures db.Valid()
  {
    if id in db.payments {
      WritePayment(db, db.payments[id].(state := Executed, executedAtMs := Some(at)));
    }
  }

  /** The SETTLED update of the payment row, when there is one. */
  method SetSettled(db: Store.Database, id: PaymentId, at: int)
    requires db.Valid()
    modifies db`payments
    ensures db.payments == MarkSettled(old(db.payments), id, at)
    ensures db.Valid()
  {
    if id in db.payments {
      WritePayment(db, db.payments[id].(state := Settled, settledAtMs := Some(at)));
    }
  }

  /** The rollback: the six tables a payment writes put back to `b`. */
  method Restore(db: Store.Database, b: Books)
    requires db.clock.Valid() && Sound(db.banks, db.clients, b)
    modifies db`balances, db`nostros, db`counters, db`fxHistory, db`messages, db`payments
    ensures BooksOf(db) == b
    ensures db.Valid()
  {
    db.balances, db.nostros, db.counters := b.balances, b.nostros, b.counters;
    db.fxHistory, db.messages, db.payments := b.fxHistory, b.messages, b.payments;
  }

  /** The transaction of `executePayment`: the writes up to settlement, then
      the route search on the tables they left, then the rest. It commits
      what the writes leave, or rolls back to the snapshot on the first throw. */
  method RunTransaction(db: Store.Database, p: Payment, at: int) returns (r: Result<Books>)
    requires db.Valid()
    modifies db`balances, db`nostros, db`counters, db`fxHistory, db`messages, db`payments
    ensures r == Transfer(db.banks, db.clients, db.rates, old(BooksOf(db)), p, at)
    ensures BooksOf(db) == (if r.Ok? then r.value else old(BooksOf(db)))
    ensures db.Valid()
  {
    var snapshot := BooksOf(db);
    var amount := Begin(db, p, at);
    if amount.Err? {
      Restore(db, snapshot);
      return Err(amount.error);
    }
    var o := Settle(db, p, amount.value, at);
    if o.Fail? {
      Restore(db, snapshot);
      return Err(o.error);
    }
    r := Ok(BooksOf(db));
  }

  /** The transaction up to settlement: the settlement amount, then the
      origin FX and client writes. */
  method Begin(db: Store.Database, p: Payment, at: int) returns (r: Result<real>)
    requires db.Valid()
    modifies db`balances, db`nostros, db`counters, db`fxHistory, db`messages
    ensures var f := Front(db.banks, db.clients, db.rates, old(BooksOf(db)), p, at);
            && (f.Err? ==> r == Err(f.error))
            && (f.Ok? ==> r == Ok(f.value.0) && BooksOf(db) == f.value.1)
    ensures db.Valid()
  {
    var amount := Chain(db.rates, p.debitCurrency, p.settlementCurrency, CentsToReal(p.debitAmount));
    if amount.Err? {
      return Err(amount.error);
    }
    var o := PerformAll(db, FrontOps(db.banks, p, amount.value), at);
    if o.Fail? {
      return Err(o.error);
    }
    r := Ok(amount.value);
  }

  /** The transaction from the route search on: the route found on the
      tables the earlier writes left, settlement, destination FX and the close. */
  method Settle(db: Store.Database, p: Payment, amount: real, at: int) returns (o: Outcome)
    requires db.Valid()
    modifies db`balances, db`nostros, db`counters, db`fxHistory, db`messages, db`payments
    ensures var r := Remainder(db.banks, db.clients, old(BooksOf(db)), p, amount, at);
            && (r.Err? ==> o == Fail(r.error))
            && (r.Ok? ==> o == Pass && BooksOf(db) == r.value)
    ensures db.Valid()
  {
    var route: Option<seq<BankId>> := None;
    if NeedsRoute(db.banks, p.fromBankId, p.toBankId, p.settlementCurrency) {
      route := Routing.FindMinimumHopRoute(db, p.fromBankId, p.toBankId, p.settlementCurrency);
    }
    BackFollowsRoute(db.banks, db.clients, BooksOf(db), p, amount, at, route);
    o := PerformAll(db, BackOps(db.banks, p, amount, route), at);
    if o.Pass? {
      Finish(db, p, amount, at);
    }
  }

  /** `failPayment`: the row (if any) FAILED with the reason and the
      simulated time, then a FAILED message. */
  method FailPayment(db: Store.Database, pid: PaymentId, reason: Error, now: int)
    requires db.Valid()
    modifies db`payments, db`counters, db`messages
    ensures BooksOf(db) == FailedBooks(old(BooksOf(db)), pid, reason, db.SimNow(now))
    ensures db.Valid()
  {
    var simNow := db.SimNow(now);
    if pid in db.payments {
      WritePayment(db, db.payments[pid].(state := Failed, failReason := Some(reason), executedAtMs := Some(simNow)));
    }
    InsertMessage(db, pid, simNow, FailedNote(reason));
  }

  /** `executePayment`, with the wall clock `now` it reads the simulated
      time from. */
  method ExecutePayment(db: Store.Database, pid: PaymentId, now: int) returns (o: Outcome)
    requires db.Valid()
    modifies db`balances, db`nostros, db`counters, db`fxHistory, db`messages, db`payments
    ensures (o, BooksOf(db)) == Execution(db.banks, db.clients, db.rates, old(BooksOf(db)), pid, db.SimNow(now))
    ensures db.Valid()
  {
    if pid !in db.payments {
      return Fail(PaymentNotFound);
    }
    var p := db.payments[pid];
    if p.state != Queued {
      return Pass;
    }
    var simNow := db.SimNow(now);
    var r := RunTransaction(db, p, simNow);
    if r.Err? {
      FailPayment(db, pid, r.error, now);
    }
    o := Pass;
  }
}
