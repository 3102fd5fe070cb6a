/** The payment state machine (payments.js). An intent is checked, given a
    settlement currency and a shortest correspondent route, and stored as a
    QUEUED payment. Executing it runs every ledger move inside one
    transaction: origin FX, the two client moves, settlement on the first and
    last legs of the route, destination FX, then EXECUTED and SETTLED. Any
    failure restores every table the transaction wrote and marks the payment
    FAILED instead. */
module Payments {
  import opened Failures
  import opened Schema
  import opened Money
  import opened Ordering
  import opened Accounts
  import opened Invariants
  import opened NostroVostro
  import opened Balances
  import Fx
  import Routing
  import Store

  // ---------------------------------------------------------------------
  // The tables a payment writes

  /** The tables intent creation and execution write, as one value. */
  datatype Books = Books(
    balances: Accounts.Balances, nostros: Nostros, counters: map<string, nat>,
    fxHistory: seq<FxEvent>, messages: seq<PaymentMessage>, payments: map<PaymentId, Payment>)

  function BooksOf(db: Store.Database): Books
    reads db`balances, db`nostros, db`counters, db`fxHistory, db`messages, db`payments
  {
    Books(db.balances, db.nostros, db.counters, db.fxHistory, db.messages, db.payments)
  }

  /** The tables after `insertMessage`: a message id is drawn, then the row is appended. */
  function Noted(b: Books, pid: PaymentId, at: int, detail: MessageDetail): Books
  {
    var id := Store.IdText("MSG_", Store.CounterValue(b.counters, "payment_message"));
    b.(counters := Store.Bumped(b.counters, "payment_message"),
       messages := b.messages + [PaymentMessage(id, pid, at, detail)])
  }

  /** `insertMessage`. */
  method InsertMessage(db: Store.Database, pid: PaymentId, at: int, detail: MessageDetail)
    modifies db`counters, db`messages
    ensures old(db.Valid()) ==> db.Valid()
    ensures BooksOf(db) == Noted(old(BooksOf(db)), pid, at, detail)
  {
    var id := Store.NextId(db, "payment_message", "MSG_");
    db.messages := db.messages + [PaymentMessage(id, pid, at, detail)];
  }

  /** Every message carries a distinct id when the message counter is past
      every id drawn so far; a new message keeps it so. */
  ghost predicate MessageIdsFresh(counters: map<string, nat>, messages: seq<PaymentMessage>)
  {
    && (forall i :: 0 <= i < |messages| ==>
          exists n :: 0 < n < Store.CounterValue(counters, "payment_message")
                      && messages[i].id == Store.IdText("MSG_", n))
    && (forall i, j :: 0 <= i < j < |messages| ==> messages[i].id != messages[j].id)
  }

  lemma NotedKeepsIdsFresh(b: Books, pid: PaymentId, at: int, detail: MessageDetail)
    requires MessageIdsFresh(b.counters, b.messages)
    requires Store.CounterValue(b.counters, "payment_message") > 0
    ensures MessageIdsFresh(Noted(b, pid, at, detail).counters, Noted(b, pid, at, detail).messages)
  {
    var b' := Noted(b, pid, at, detail);
    var k := Store.CounterValue(b.counters, "payment_message");
    var msgs := b'.messages;
    assert Store.CounterValue(b'.counters, "payment_message") == k + 1;
    forall i | 0 <= i < |msgs|
      ensures exists n :: 0 < n < k + 1 && msgs[i].id == Store.IdText("MSG_", n)
    {
      if i == |b.messages| {
        assert 0 < k < k + 1 && msgs[i].id == Store.IdText("MSG_", k);
      } else {
        assert msgs[i] == b.messages[i];
      }
    }
    forall i, j | 0 <= i < j < |msgs|
      ensures msgs[i].id != msgs[j].id
    {
      if j == |b.messages| {
        var n :| 0 < n < k && b.messages[i].id == Store.IdText("MSG_", n);
        if msgs[i].id == msgs[j].id {
          Store.IdTextInjective("MSG_", n, k);
        }
      } else {
        assert msgs[i] == b.messages[i] && msgs[j] == b.messages[j];
      }
    }
  }

  /** The tables after `fxLogEvent` with a fresh FX id: amounts at 2 dp and
      the exact rate `toAmount / fromAmount`. */
  function FxLogged(b: Books, pid: PaymentId, bankId: BankId, fromCur: Currency, toCur: Currency,
                    fromAmount: real, toAmount: real, at: int, reason: string): Books
  {
    var id := Store.IdText("FX_", Store.CounterValue(b.counters, "fx_event"));
    var e := Fx.FxLogRequest(id, Some(pid), bankId, fromCur, toCur, fromAmount, toAmount,
                             Fx.Ratio(toAmount, fromAmount), at, reason);
    b.(counters := Store.Bumped(b.counters, "fx_event"), fxHistory := b.fxHistory + [Fx.FxHistoryRow(e)])
  }

  /** An FX event of a payment: `newId` for the event, then `fxLogEvent`. */
  method LogFx(db: Store.Database, pid: PaymentId, bankId: BankId, fromCur: Currency, toCur: Currency,
               fromAmount: real, toAmount: real, at: int, reason: string)
    modifies db`counters, db`fxHistory
    ensures old(db.Valid()) ==> db.Valid()
    ensures BooksOf(db) == FxLogged(old(BooksOf(db)), pid, bankId, fromCur, toCur, fromAmount, toAmount, at, reason)
  {
    var id := Store.NextId(db, "fx_event", "FX_");
    Fx.FxLogEvent(db, Fx.FxLogRequest(id, Some(pid), bankId, fromCur, toCur, fromAmount, toAmount,
                                      Fx.Ratio(toAmount, fromAmount), at, reason));
  }

  /** A bank's name for a message, or its id when the bank is gone. */
  function BankName(banks: map<BankId, Bank>, bankId: BankId): string
  {
    if bankId in banks then banks[bankId].name else bankId
  }

  // ---------------------------------------------------------------------
  // listPayments

  /** The banks at which a payment converts currency: the origin bank when
      the debit and settlement currencies differ, then the beneficiary bank
      when the settlement and credit currencies differ. */
  function FxAtBankIds(p: Payment): (r: seq<BankId>)
    ensures forall b :: b in r <==> ((b == p.fromBankId && p.debitCurrency != p.settlementCurrency)
                                   || (b == p.toBankId && p.settlementCurrency != p.creditCurrency))
    ensures |r| == (if p.debitCurrency != p.settlementCurrency then 1 else 0)
                 + (if p.settlementCurrency != p.creditCurrency then 1 else 0)
    ensures p.debitCurrency != p.settlementCurrency ==> r[0] == p.fromBankId
  {
    (if p.debitCurrency != p.settlementCurrency then [p.fromBankId] else [])
    + (if p.settlementCurrency != p.creditCurrency then [p.toBankId] else [])
  }

  /** A row of `listPayments`. */
  datatype PaymentView = PaymentView(payment: Payment, fxAtBankIds: seq<BankId>)

  function NewestFirst(p: Payment): int
  {
    -p.createdAtMs
  }

  /** The payments a list of views shows, in order. */
  function Shown(views: seq<PaymentView>): (r: seq<Payment>)
    ensures |r| == |views|
    ensures forall i :: 0 <= i < |r| ==> r[i] == views[i].payment
  {
    if views == [] then [] else [views[0].payment] + Shown(views[1..])
  }

  /** `listPayments` over the rows of the payments table: newest first, each
      with its FX banks. */
  function ListPayments(rows: seq<Payment>): (r: seq<PaymentView>)
    ensures |r| == |rows|
    ensures multiset(Shown(r)) == multiset(rows)
    ensures forall i :: 0 < i < |r| ==> r[i - 1].payment.createdAtMs >= r[i].payment.createdAtMs
    ensures forall i :: 0 <= i < |r| ==> r[i].fxAtBankIds == FxAtBankIds(r[i].payment)
  {
    var sorted := SortByInt(rows, NewestFirst);
    assert |sorted| == |rows| by {
      assert |multiset(sorted)| == |multiset(rows)|;
    }
    var r := seq(|sorted|, i requires 0 <= i < |sorted| => PaymentView(sorted[i], FxAtBankIds(sorted[i])));
    assert Shown(r) == sorted;
    r
  }

  // ---------------------------------------------------------------------
  // createPaymentIntent

  /** The payload of an intent. */
  datatype PaymentRequest = PaymentRequest(
    fromClientId: ClientId, toClientId: ClientId,
    debitCurrency: Currency, creditCurrency: Currency, debitAmount: real)

  predicate KnownParties(clients: map<ClientId, Client>, req: PaymentRequest)
  {
    req.fromClientId in clients && req.toClientId in clients
  }

  /** Both parties are Regular or House clients. */
  predicate RegularOrHouse(clients: map<ClientId, Client>, req: PaymentRequest)
    requires KnownParties(clients, req)
  {
    !clients[req.fromClientId].kind.Vostro? && !clients[req.toClientId].kind.Vostro?
  }

  /** The checks of `createPaymentIntent` before the settlement currency is
      chosen, in the code's order. The source balance must be positive; it
      need not cover the amount. */
  function IntentCheck(banks: map<BankId, Bank>, clients: map<ClientId, Client>, balances: Accounts.Balances,
                       nostros: Nostros, req: PaymentRequest): (r: Outcome)
    ensures r.Pass? <==>
              && KnownParties(clients, req) && RegularOrHouse(clients, req)
              && ClientBalance(balances, req.fromClientId, req.debitCurrency) > 0
              && MayHold(clients, banks, nostros, req.fromClientId, req.debitCurrency)
              && MayHold(clients, banks, nostros, req.toClientId, req.creditCurrency)
    ensures !KnownParties(clients, req) ==> r == Fail(ClientNotFound)
    ensures KnownParties(clients, req) && !RegularOrHouse(clients, req) ==> r == Fail(NotRegularOrHouseClients)
    ensures KnownParties(clients, req) && RegularOrHouse(clients, req)
            && ClientBalance(balances, req.fromClientId, req.debitCurrency) <= 0
            ==> r == Fail(NoFunds(req.debitCurrency))
    ensures KnownParties(clients, req) && RegularOrHouse(clients, req)
            && ClientBalance(balances, req.fromClientId, req.debitCurrency) > 0
            && clients[req.toClientId].bankId !in banks
            ==> r == Fail(BeneficiaryBankNotFound)
    ensures KnownParties(clients, req) && RegularOrHouse(clients, req)
            && ClientBalance(balances, req.fromClientId, req.debitCurrency) > 0
            && clients[req.toClientId].bankId in banks
            && !MayHold(clients, banks, nostros, req.fromClientId, req.debitCurrency)
            ==> r == ValidateClientCurrencyAvailability(clients, banks, nostros, req.fromClientId, req.debitCurrency)
    ensures KnownParties(clients, req) && RegularOrHouse(clients, req)
            && ClientBalance(balances, req.fromClientId, req.debitCurrency) > 0
            && MayHold(clients, banks, nostros, req.fromClientId, req.debitCurrency)
            && !MayHold(clients, banks, nostros, req.toClientId, req.creditCurrency)
            && clients[req.toClientId].bankId in banks
            ==> r == Fail(CurrencyNotAvailableAtDestination(req.creditCurrency))
  {
    if req.fromClientId !in clients || req.toClientId !in clients then Fail(ClientNotFound)
    else if clients[req.fromClientId].kind.Vostro? || clients[req.toClientId].kind.Vostro? then
      Fail(NotRegularOrHouseClients)
    else if ClientBalance(balances, req.fromClientId, req.debitCurrency) <= 0 then Fail(NoFunds(req.debitCurrency))
    else if clients[req.toClientId].bankId !in banks then Fail(BeneficiaryBankNotFound)
    else
      var debitCheck := ValidateClientCurrencyAvailability(clients, banks, nostros, req.fromClientId, req.debitCurrency);
      var toAvailable := BankAvailableCurrencies(banks, nostros, clients[req.toClientId].bankId);
      if debitCheck.Fail? then debitCheck
      else if req.creditCurrency !in toAvailable.value.currencies then
        Fail(CurrencyNotAvailableAtDestination(req.creditCurrency))
      else
        // both banks have been found by now, so the code's "Bank not found"
        // test after this check never fires
        ValidateClientCurrencyAvailability(clients, banks, nostros, req.toClientId, req.creditCurrency)
  }

  /** The currencies a bank offers: its base currency and its nostro currencies. */
  function Offered(banks: map<BankId, Bank>, nostros: Nostros, bankId: BankId): (s: set<Currency>)
    requires bankId in banks
    ensures forall c :: c in s <==> c == banks[bankId].baseCurrency || (bankId, c) in nostros
  {
    {banks[bankId].baseCurrency} + NostroCurrencies(nostros, bankId)
  }

  /** The settlement candidates in the order they are tried: the credit
      currency if both banks offer it, USD if both offer it, then the credit
      currency again. */
  function Candidates(banks: map<BankId, Bank>, nostros: Nostros, fromBank: BankId, toBank: BankId,
                      credit: Currency): seq<Currency>
    requires fromBank in banks && toBank in banks
  {
    var fromSet, toSet := Offered(banks, nostros, fromBank), Offered(banks, nostros, toBank);
    (if credit in fromSet && credit in toSet then [credit] else [])
    + (if USD in fromSet && USD in toSet then [USD] else [])
    + [credit]
  }

  /** A candidate is taken when the paying client may hold it and the two
      banks are connected in it. */
  ghost predicate Viable(banks: map<BankId, Bank>, clients: map<ClientId, Client>, nostros: Nostros,
                         cid: ClientId, fromBank: BankId, toBank: BankId, c: Currency)
  {
    MayHold(clients, banks, nostros, cid, c) && Routing.Reachable(banks, nostros, c, fromBank, toBank)
  }

  ghost function FirstViable(banks: map<BankId, Bank>, clients: map<ClientId, Client>, nostros: Nostros,
                             cid: ClientId, fromBank: BankId, toBank: BankId, cands: seq<Currency>): Option<Currency>
  {
    if cands == [] then None
    else if Viable(banks, clients, nostros, cid, fromBank, toBank, cands[0]) then Some(cands[0])
    else FirstViable(banks, clients, nostros, cid, fromBank, toBank, cands[1..])
  }

  /** The first viable candidate picks itself and every earlier one is not viable. */
  lemma {:induction false} FirstViableIsFirst(banks: map<BankId, Bank>, clients: map<ClientId, Client>, nostros: Nostros,
                                              cid: ClientId, fromBank: BankId, toBank: BankId, cands: seq<Currency>)
    ensures var f := FirstViable(banks, clients, nostros, cid, fromBank, toBank, cands);
            f.None? <==> forall i :: 0 <= i < |cands| ==> !Viable(banks, clients, nostros, cid, fromBank, toBank, cands[i])
    ensures var f := FirstViable(banks, clients, nostros, cid, fromBank, toBank, cands);
            f.Some? ==> exists i :: 0 <= i < |cands| && cands[i] == f.value
                          && Viable(banks, clients, nostros, cid, fromBank, toBank, cands[i])
                          && forall j :: 0 <= j < i ==> !Viable(banks, clients, nostros, cid, fromBank, toBank, cands[j])
  {
    if cands != [] && !Viable(banks, clients, nostros, cid, fromBank, toBank, cands[0]) {
      FirstViableIsFirst(banks, clients, nostros, cid, fromBank, toBank, cands[1..]);
      var f := FirstViable(banks, clients, nostros, cid, fromBank, toBank, cands);
      if f.Some? {
        var i :| 0 <= i < |cands[1..]| && cands[1..][i] == f.value
                 && Viable(banks, clients, nostros, cid, fromBank, toBank, cands[1..][i])
                 && forall j :: 0 <= j < i ==> !Viable(banks, clients, nostros, cid, fromBank, toBank, cands[1..][j]);
        assert cands[i + 1] == f.value;
        forall j | 0 <= j < i + 1
          ensures !Viable(banks, clients, nostros, cid, fromBank, toBank, cands[j])
        {
          if j > 0 {
            assert cands[j] == cands[1..][j - 1];
          }
        }
      } else {
        forall i | 0 <= i < |cands|
          ensures !Viable(banks, clients, nostros, cid, fromBank, toBank, cands[i])
        {
          if i > 0 {
            assert cands[i] == cands[1..][i - 1];
          }
        }
      }
    }
  }

  /** The settlement currency: the first viable candidate, or the credit currency. */
  ghost function SettlementCurrency(banks: map<BankId, Bank>, clients: map<ClientId, Client>, nostros: Nostros,
                                    cid: ClientId, fromBank: BankId, toBank: BankId, credit: Currency): Currency
    requires fromBank in banks && toBank in banks
  {
    match FirstViable(banks, clients, nostros, cid, fromBank, toBank, Candidates(banks, nostros, fromBank, toBank, credit))
    case Some(c) => c
    case None => credit
  }

  /** The choice written out: the credit currency when both banks offer it
      and it is viable, otherwise USD when both banks offer it and it is
      viable, otherwise the credit currency. */
  lemma SettlementChoice(banks: map<BankId, Bank>, clients: map<ClientId, Client>, nostros: Nostros,
                         cid: ClientId, fromBank: BankId, toBank: BankId, credit: Currency)
    requires fromBank in banks && toBank in banks
    ensures var fromSet, toSet := Offered(banks, nostros, fromBank), Offered(banks, nostros, toBank);
            SettlementCurrency(banks, clients, nostros, cid, fromBank, toBank, credit)
            == if credit in fromSet && credit in toSet && Viable(banks, clients, nostros, cid, fromBank, toBank, credit) then credit
               else if USD in fromSet && USD in toSet && Viable(banks, clients, nostros, cid, fromBank, toBank, USD) then USD
               else credit
  {
    var cands := Candidates(banks, nostros, fromBank, toBank, credit);
    var f := FirstViable(banks, clients, nostros, cid, fromBank, toBank, cands);
    FirstViableIsFirst(banks, clients, nostros, cid, fromBank, toBank, cands);
    assert forall c :: c in cands ==> c == credit || c == USD;
  }

  /** `findMinimumHopRoute`'s answer when it finds a route. */
  ghost predicate ShortestRoute(banks: map<BankId, Bank>, nostros: Nostros, c: Currency,
                                from: BankId, to: BankId, route: seq<BankId>)
  {
    && Routing.Route(banks, nostros, c, route, from, to) && Routing.Distinct(route)
    && forall p :: Routing.Route(banks, nostros, c, p, from, to) ==> |route| <= |p|
  }

  /** The candidate loop: skips a candidate the paying client may not hold,
      takes the first one with a route, and falls back to the credit currency. */
  method ChooseSettlement(db: Store.Database, cid: ClientId, fromBank: BankId, toBank: BankId, credit: Currency)
    returns (s: Currency)
    requires db.Valid() && fromBank in db.banks && toBank in db.banks
    ensures s == SettlementCurrency(db.banks, db.clients, db.nostros, cid, fromBank, toBank, credit)
  {
    var cands := Candidates(db.banks, db.nostros, fromBank, toBank, credit);
    s := credit;
    var i := 0;
    var found := false;
    while i < |cands| && !found
      invariant 0 <= i <= |cands|
      invariant !found ==> s == credit
      invariant !found ==> (FirstViable(db.banks, db.clients, db.nostros, cid, fromBank, toBank, cands)
                            == FirstViable(db.banks, db.clients, db.nostros, cid, fromBank, toBank, cands[i..]))
      invariant found ==> FirstViable(db.banks, db.clients, db.nostros, cid, fromBank, toBank, cands) == Some(s)
    {
      var c := cands[i];
      assert cands[i..][1..] == cands[i + 1..];
      if ValidateClientCurrencyAvailability(db.clients, db.banks, db.nostros, cid, c).Pass? {
        var route := Routing.FindMinimumHopRoute(db, fromBank, toBank, c);
        if route.Some? {
          s := c;
          found := true;
        }
      }
      i := i + 1;
    }
  }

  /** An amount carried from one currency into another as the code does it:
      unchanged in the same currency, otherwise through `convert`. */
  function Chain(rates: Fx.RateTable, from: Currency, to: Currency, amount: real): (r: Result<real>)
    ensures from == to ==> r == Ok(amount)
    ensures from != to ==> (r.Ok? <==> Fx.Priced(rates, from) && Fx.Priced(rates, to))
    ensures r.Ok? && from != to ==> Fx.UsdValue(rates, from, amount) == Fx.UsdValue(rates, to, r.value)
  {
    if from == to then Ok(amount)
    else
      var c :- Fx.Convert(rates, from, to, amount);
      Ok(c.toAmount)
  }

  /** What an accepted intent settles in and the exact amounts it carries. */
  datatype Plan = Plan(settlementCurrency: Currency, settlementAmount: real, creditAmount: real)

  /** The checks of `createPaymentIntent` up to the route search: the error
      it throws, or the settlement currency. */
  ghost function SettlementFor(banks: map<BankId, Bank>, clients: map<ClientId, Client>, balances: Accounts.Balances,
                               nostros: Nostros, req: PaymentRequest): Result<Currency>
  {
    var check := IntentCheck(banks, clients, balances, nostros, req);
    if check.Fail? then Err(check.error)
    else
      var fromBank, toBank := clients[req.fromClientId].bankId, clients[req.toClientId].bankId;
      var s := SettlementCurrency(banks, clients, nostros, req.fromClientId, fromBank, toBank, req.creditCurrency);
      var v := ValidateClientCurrencyAvailability(clients, banks, nostros, req.fromClientId, s);
      if v.Fail? then Err(v.error)
      else if !Routing.Reachable(banks, nostros, s, fromBank, toBank) then Err(NoRouteInSettlementCurrency(s))
      else Ok(s)
  }

  /** The exact amounts: the debit amount carried into the settlement
      currency, and that into the credit currency. */
  function Amounts(rates: Fx.RateTable, debit: Currency, s: Currency, credit: Currency, amount: real): (r: Result<Plan>)
    ensures r.Ok? <==> Chain(rates, debit, s, amount).Ok? && Chain(rates, s, credit, Chain(rates, debit, s, amount).value).Ok?
    ensures r.Ok? ==> r.value.settlementCurrency == s
  {
    var sa :- Chain(rates, debit, s, amount);
    var ca :- Chain(rates, s, credit, sa);
    Ok(Plan(s, sa, ca))
  }

  /** Everything `createPaymentIntent` decides before it draws an id: the
      error it throws, or the plan. */
  ghost function Planned(banks: map<BankId, Bank>, clients: map<ClientId, Client>, balances: Accounts.Balances,
                         nostros: Nostros, rates: Fx.RateTable, req: PaymentRequest): Result<Plan>
  {
    var s :- SettlementFor(banks, clients, balances, nostros, req);
    Amounts(rates, req.debitCurrency, s, req.creditCurrency, req.debitAmount)
  }

  /** An accepted plan settles in a currency the paying client may hold, on
      a route that exists, and the amounts keep their US-dollar value. */
  lemma PlannedIsSound(banks: map<BankId, Bank>, clients: map<ClientId, Client>, balances: Accounts.Balances,
                       nostros: Nostros, rates: Fx.RateTable, req: PaymentRequest)
    requires Planned(banks, clients, balances, nostros, rates, req).Ok?
    ensures KnownParties(clients, req) && RegularOrHouse(clients, req)
    ensures var pl := Planned(banks, clients, balances, nostros, rates, req).value;
            && MayHold(clients, banks, nostros, req.fromClientId, pl.settlementCurrency)
            && Routing.Reachable(banks, nostros, pl.settlementCurrency,
                                 clients[req.fromClientId].bankId, clients[req.toClientId].bankId)
    ensures var pl := Planned(banks, clients, balances, nostros, rates, req).value;
            && (req.debitCurrency == pl.settlementCurrency ==> pl.settlementAmount == req.debitAmount)
            && (pl.settlementCurrency == req.creditCurrency ==> pl.creditAmount == pl.settlementAmount)
            && (Fx.Priced(rates, req.debitCurrency) && Fx.Priced(rates, req.creditCurrency)
                ==> Fx.UsdValue(rates, req.debitCurrency, req.debitAmount) == Fx.UsdValue(rates, req.creditCurrency, pl.creditAmount))
  {
    var pl := Planned(banks, clients, balances, nostros, rates, req).value;
    var s := pl.settlementCurrency;
    if Fx.Priced(rates, req.debitCurrency) && Fx.Priced(rates, req.creditCurrency) {
      if req.debitCurrency != s && s != req.creditCurrency {
        assert Fx.UsdValue(rates, req.debitCurrency, req.debitAmount) == Fx.UsdValue(rates, s, pl.settlementAmount);
      }
    }
  }

  /** The intent does not look at the amount beyond pricing it: the checks
      and the settlement choice are the same for every amount. */
  lemma SettlementIgnoresAmount(banks: map<BankId, Bank>, clients: map<ClientId, Client>, balances: Accounts.Balances,
                                nostros: Nostros, req: PaymentRequest, amount: real)
    ensures SettlementFor(banks, clients, balances, nostros, req)
         == SettlementFor(banks, clients, balances, nostros, req.(debitAmount := amount))
  {
    var req' := req.(debitAmount := amount);
    assert IntentCheck(banks, clients, balances, nostros, req) == IntentCheck(banks, clients, balances, nostros, req');
  }

  /** The intent checks only that the paying balance is positive: the same
      request for any other amount is accepted or refused alike. */
  lemma PlanIgnoresCoverage(banks: map<BankId, Bank>, clients: map<ClientId, Client>, balances: Accounts.Balances,
                            nostros: Nostros, rates: Fx.RateTable, req: PaymentRequest, amount: real)
    ensures Planned(banks, clients, balances, nostros, rates, req).Ok?
        <==> Planned(banks, clients, balances, nostros, rates, req.(debitAmount := amount)).Ok?
  {
    SettlementIgnoresAmount(banks, clients, balances, nostros, req, amount);
  }

  /** The checks, the settlement choice and the amounts of `createPaymentIntent`. */
  method PlanIntent(db: Store.Database, req: PaymentRequest) returns (r: Result<(Plan, seq<BankId>)>)
    requires db.Valid()
    ensures var pl := Planned(db.banks, db.clients, db.balances, db.nostros, db.rates, req);
            && (r.Ok? <==> pl.Ok?)
            && (pl.Err? ==> r == Err(pl.error))
            && (pl.Ok? ==> KnownParties(db.clients, req) && r.value.0 == pl.value
                           && ShortestRoute(db.banks, db.nostros, pl.value.settlementCurrency,
                                            db.clients[req.fromClientId].bankId, db.clients[req.toClientId].bankId,
                                            r.value.1))
  {
    var check := IntentCheck(db.banks, db.clients, db.balances, db.nostros, req);
    if check.Fail? {
      r := Err(check.error);
    } else {
      var fromBank, toBank := db.clients[req.fromClientId].bankId, db.clients[req.toClientId].bankId;
      var s := ChooseSettlement(db, req.fromClientId, fromBank, toBank, req.creditCurrency);
      var v := ValidateClientCurrencyAvailability(db.clients, db.banks, db.nostros, req.fromClientId, s);
      if v.Fail? {
        r := Err(v.error);
      } else {
        var route := Routing.FindMinimumHopRoute(db, fromBank, toBank, s);
        if route.None? {
          r := Err(NoRouteInSettlementCurrency(s));
        } else {
          var sa := Chain(db.rates, req.debitCurrency, s, req.debitAmount);
          if sa.Err? {
            r := Err(sa.error);
          } else {
            var ca := Chain(db.rates, s, req.creditCurrency, sa.value);
            if ca.Err? {
              r := Err(ca.error);
            } else {
              r := Ok((Plan(s, sa.value, ca.value), route.value));
            }
          }
        }
      }
    }
  }

  /** The row `createPaymentIntent` inserts: amounts at 2 dp, QUEUED, created now. */
  function NewPayment(id: PaymentId, clients: map<ClientId, Client>, req: PaymentRequest, plan: Plan,
                      at: int, route: seq<BankId>): Payment
    requires KnownParties(clients, req)
  {
    Payment(id, req.fromClientId, req.toClientId, clients[req.fromClientId].bankId, clients[req.toClientId].bankId,
            req.debitCurrency, req.creditCurrency, Quantize(req.debitAmount), Quantize(plan.creditAmount),
            plan.settlementCurrency, Queued, None, at, None, None, route)
  }

  /** `createPaymentIntent`. It runs outside a transaction: a refused intent
      writes nothing, and a payment id that is already taken leaves its
      counter advanced. */
  method CreatePaymentIntent(db: Store.Database, req: PaymentRequest, now: int) returns (r: Result<PaymentId>)
    requires db.Valid()
    modifies db`counters, db`payments, db`messages
    ensures db.Valid()
    ensures var pl := Planned(db.banks, db.clients, db.balances, db.nostros, db.rates, req);
            pl.Err? ==> r == Err(pl.error) && BooksOf(db) == old(BooksOf(db))
    ensures var pl := Planned(db.banks, db.clients, db.balances, db.nostros, db.rates, req);
            pl.Ok? ==> KnownParties(db.clients, req) && Stored(old(BooksOf(db)), BooksOf(db), db.banks, db.clients, req, pl.value, db.SimNow(now), r)
  {
    var planned := PlanIntent(db, req);
    if planned.Err? {
      r := Err(planned.error);
    } else {
      var (plan, route) := planned.value;
      r := InsertIntent(db, req, plan, route, now);
    }
  }

  /** What storing an accepted plan leaves: the next payment id is drawn; if
      it is free, the QUEUED row on a shortest route and its PAYMENT_INIT
      message are added, otherwise the insert fails and nothing else changes. */
  ghost predicate Stored(b: Books, b': Books, banks: map<BankId, Bank>, clients: map<ClientId, Client>,
                         req: PaymentRequest, plan: Plan, at: int, r: Result<PaymentId>)
    requires KnownParties(clients, req)
  {
    var id := Store.IdText("PAY_", Store.CounterValue(b.counters, "payment"));
    var b1 := b.(counters := Store.Bumped(b.counters, "payment"));
    if id in b.payments then r == Err(DuplicateKey) && b' == b1
    else
      && r == Ok(id) && id in b'.payments
      && b'.payments[id] == NewPayment(id, clients, req, plan, at, b'.payments[id].route)
      && ShortestRoute(banks, b.nostros, plan.settlementCurrency,
                       clients[req.fromClientId].bankId, clients[req.toClientId].bankId, b'.payments[id].route)
      && b' == Noted(b1.(payments := b.payments[id := b'.payments[id]]), id, at,
                     PaymentInit(b'.payments[id].route, req.debitCurrency, req.creditCurrency, plan.settlementCurrency))
  }

  /** The inserts of `createPaymentIntent`: the payment row, then its first message. */
  method InsertIntent(db: Store.Database, req: PaymentRequest, plan: Plan, route: seq<BankId>, now: int)
    returns (r: Result<PaymentId>)
    requires db.Valid() && KnownParties(db.clients, req)
    requires ShortestRoute(db.banks, db.nostros, plan.settlementCurrency,
                           db.clients[req.fromClientId].bankId, db.clients[req.toClientId].bankId, route)
    modifies db`counters, db`payments, db`messages
    ensures db.Valid()
    ensures Stored(old(BooksOf(db)), BooksOf(db), db.banks, db.clients, req, plan, db.SimNow(now), r)
  {
    var simNow := db.SimNow(now);
    var id := Store.NextId(db, "payment", "PAY_");
    if id in db.payments {
      r := Err(DuplicateKey);
    } else {
      var p := NewPayment(id, db.clients, req, plan, simNow, route);
      WritePayment(db, p);
      InsertMessage(db, id, simNow, PaymentInit(route, req.debitCurrency, req.creditCurrency, plan.settlementCurrency));
      r := Ok(id);
    }
  }

  /** One payment row written under its own id. */
  method WritePayment(db: Store.Database, p: Payment)
    requires db.Valid()
    modifies db`payments
    ensures db.payments == old(db.payments)[p.id := p]
    ensures db.Valid()
  {
    PaymentWriteValid(db.banks, db.clients, db.balances, db.nostros, db.payments, p);
    db.payments := db.payments[p.id := p];
  }

  /** Writing a payment row under its own id keeps the tables valid. */
  lemma PaymentWriteValid(banks: map<BankId, Bank>, clients: map<ClientId, Client>, balances: Accounts.Balances,
                          nostros: Nostros, payments: map<PaymentId, Payment>, p: Payment)
    requires Store.TablesValid(banks, clients, balances, nostros, payments)
    ensures Store.TablesValid(banks, clients, balances, nostros, payments[p.id := p])
  {
  }
}
