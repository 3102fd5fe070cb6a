/** The ledger's checks (invariants.js): which currencies a bank offers, which
    a client may hold, and the full-reserve rule that a bank's clients hold
    exactly what its nostro in that currency holds. Each check either passes
    or fails with the error the code throws. */
module Invariants {
  import opened Failures
  import opened Schema
  import opened Money
  import opened Ordering
  import opened Accounts

  type Nostros = map<(BankId, Currency), Nostro>

  /** The currencies in which `bankId` owns a nostro. */
  function NostroCurrencies(nostros: Nostros, bankId: BankId): (s: set<Currency>)
    ensures forall c :: c in s <==> (bankId, c) in nostros
  {
    set k | k in nostros && k.0 == bankId :: k.1
  }

  /** What `getBankAvailableCurrencies` returns. */
  datatype Availability = Availability(baseCurrency: Currency, currencies: seq<Currency>)

  /** `getBankAvailableCurrencies`: the base currency and every nostro
      currency, ascending and without repeats. */
  function BankAvailableCurrencies(banks: map<BankId, Bank>, nostros: Nostros, bankId: BankId): (r: Result<Availability>)
    ensures r.Err? <==> bankId !in banks
    ensures r.Err? ==> r.error == BankNotFound
    ensures r.Ok? ==> r.value.baseCurrency == banks[bankId].baseCurrency
    ensures r.Ok? ==> StrictlySorted(r.value.currencies)
    ensures r.Ok? ==> forall c :: c in r.value.currencies <==> c == banks[bankId].baseCurrency || (bankId, c) in nostros
  {
    if bankId !in banks then Err(BankNotFound)
    else
      var base := banks[bankId].baseCurrency;
      Ok(Availability(base, SortedList({base} + NostroCurrencies(nostros, bankId))))
  }

  /** Reference rule: a client may hold a currency when its bank exists and
      the currency is the bank's base currency, or, for a client that is not a
      Vostro client, one of the bank's nostro currencies. */
  predicate MayHold(clients: map<ClientId, Client>, banks: map<BankId, Bank>, nostros: Nostros, cid: ClientId, cur: Currency)
  {
    && cid in clients
    && clients[cid].bankId in banks
    && (cur == banks[clients[cid].bankId].baseCurrency
        || (!clients[cid].kind.Vostro? && (clients[cid].bankId, cur) in nostros))
  }

  /** `validateClientCurrencyAvailability`. */
  function ValidateClientCurrencyAvailability(
    clients: map<ClientId, Client>, banks: map<BankId, Bank>, nostros: Nostros,
    cid: ClientId, cur: Currency): (r: Outcome)
    ensures r.Pass? <==> MayHold(clients, banks, nostros, cid, cur)
    ensures cid !in clients ==> r == Fail(ClientNotFound)
    ensures cid in clients && clients[cid].bankId !in banks ==> r == Fail(BankNotFound)
    ensures (cid in clients && clients[cid].bankId in banks && clients[cid].kind.Vostro?
             && cur != banks[clients[cid].bankId].baseCurrency) ==> r == Fail(VostroBaseCurrencyOnly)
    ensures (cid in clients && clients[cid].bankId in banks && !clients[cid].kind.Vostro?
             && !MayHold(clients, banks, nostros, cid, cur)) ==> r == Fail(CurrencyNotAvailable(cur))
  {
    if cid !in clients then Fail(ClientNotFound)
    else
      var c := clients[cid];
      if c.kind.Vostro? then
        if c.bankId !in banks then Fail(BankNotFound)
        else if cur != banks[c.bankId].baseCurrency then Fail(VostroBaseCurrencyOnly)
        else Pass
      else
        // the membership test on `getBankAvailableCurrencies`' list, written
        // as the set it is built from (AvailabilityCheckUsesList)
        if c.bankId !in banks then Fail(BankNotFound)
        else if cur == banks[c.bankId].baseCurrency || (c.bankId, cur) in nostros then Pass
        else Fail(CurrencyNotAvailable(cur))
  }

  /** For a client that is not a Vostro client the check is the code's own:
      the bank lookup of `getBankAvailableCurrencies`, then `includes` on its list. */
  lemma AvailabilityCheckUsesList(
    clients: map<ClientId, Client>, banks: map<BankId, Bank>, nostros: Nostros, cid: ClientId, cur: Currency)
    requires cid in clients && !clients[cid].kind.Vostro?
    ensures ValidateClientCurrencyAvailability(clients, banks, nostros, cid, cur)
         == match BankAvailableCurrencies(banks, nostros, clients[cid].bankId)
            case Err(e) => Fail(e)
            case Ok(avail) => if cur in avail.currencies then Pass else Fail(CurrencyNotAvailable(cur))
  {
  }

  /** Client `cid` counts towards the reserve of `bankId`: a Regular or House
      client of that bank. */
  predicate ReserveMember(clients: map<ClientId, Client>, bankId: BankId, cid: ClientId)
  {
    cid in clients && clients[cid].bankId == bankId && (clients[cid].kind.Regular? || clients[cid].kind.House?)
  }

  /** The clients of `bankId` that count towards its reserve and hold a row in `cur`. */
  function ReserveHolders(clients: map<ClientId, Client>, balances: Balances, bankId: BankId, cur: Currency): (s: set<ClientId>)
    ensures forall cid :: cid in s <==> ReserveMember(clients, bankId, cid) && (cid, cur) in balances
  {
    set k | k in balances && k.1 == cur && ReserveMember(clients, bankId, k.0) :: k.0
  }

  /** The sum of what the clients in `s` hold in `cur`, adding the least id first. */
  function HeldSum(s: set<ClientId>, balances: Balances, cur: Currency): int
    decreases |s|
  {
    if s == {} then 0 else ClientBalance(balances, Least(s), cur) + HeldSum(s - {Least(s)}, balances, cur)
  }

  /** The sum does not depend on the order of adding: any holder may be taken out first. */
  lemma {:induction false} HeldSumRemove(s: set<ClientId>, balances: Balances, cur: Currency, x: ClientId)
    requires x in s
    ensures HeldSum(s, balances, cur) == ClientBalance(balances, x, cur) + HeldSum(s - {x}, balances, cur)
    decreases |s|
  {
    var m := Least(s);
    if x != m {
      HeldSumRemove(s - {m}, balances, cur, x);
      HeldSumRemove(s - {x}, balances, cur, m);
      assert s - {m} - {x} == s - {x} - {m};
    }
  }

  /** Sums over holders whose balances agree are equal. */
  lemma {:induction false} HeldSumCongruent(s: set<ClientId>, balances: Balances, balances': Balances, cur: Currency)
    requires forall x :: x in s ==> ClientBalance(balances, x, cur) == ClientBalance(balances', x, cur)
    ensures HeldSum(s, balances, cur) == HeldSum(s, balances', cur)
    decreases |s|
  {
    if s != {} {
      HeldSumCongruent(s - {Least(s)}, balances, balances', cur);
    }
  }

  /** A sum of non-negative balances is non-negative. */
  lemma {:induction false} HeldSumNonNegative(s: set<ClientId>, balances: Balances, cur: Currency)
    requires forall k :: k in balances ==> balances[k] >= 0
    ensures HeldSum(s, balances, cur) >= 0
    decreases |s|
  {
    if s != {} {
      HeldSumNonNegative(s - {Least(s)}, balances, cur);
    }
  }

  /** The amount `bankId`'s Regular and House clients hold in `cur`, in cents, summed exactly. */
  function ClientTotal(clients: map<ClientId, Client>, balances: Balances, bankId: BankId, cur: Currency): int
  {
    HeldSum(ReserveHolders(clients, balances, bankId, cur), balances, cur)
  }

  /** The balance of the nostro `bankId` owns in `cur`, zero when there is none. */
  function NostroBalance(nostros: Nostros, bankId: BankId, cur: Currency): (r: Cents)
    ensures (bankId, cur) !in nostros ==> r == 0
    ensures (bankId, cur) in nostros ==> r == nostros[(bankId, cur)].balance
  {
    if (bankId, cur) in nostros then nostros[(bankId, cur)].balance else 0
  }

  /** The full-reserve rule for one bank and currency: nothing to check in the
      base currency; in any other currency the clients' total equals the nostro. */
  predicate FullReserve(banks: map<BankId, Bank>, clients: map<ClientId, Client>, balances: Balances, nostros: Nostros,
                        bankId: BankId, cur: Currency)
    requires bankId in banks
  {
    cur == banks[bankId].baseCurrency || ClientTotal(clients, balances, bankId, cur) == NostroBalance(nostros, bankId, cur)
  }

  /** `validateForeignCurrencyInvariant`. */
  function ValidateForeignCurrencyInvariant(
    banks: map<BankId, Bank>, clients: map<ClientId, Client>, balances: Balances, nostros: Nostros,
    bankId: BankId, cur: Currency): (r: Outcome)
    ensures bankId !in banks ==> r == Fail(BankNotFound)
    ensures bankId in banks ==> (r.Pass? <==> FullReserve(banks, clients, balances, nostros, bankId, cur))
    ensures bankId in banks && r.Fail? ==> r.error == InvariantViolated(bankId, cur)
    ensures bankId in banks && cur == banks[bankId].baseCurrency ==> r == Pass
  {
    if bankId !in banks then Fail(BankNotFound)
    else if cur == banks[bankId].baseCurrency then Pass
    else if ClientTotal(clients, balances, bankId, cur) != NostroBalance(nostros, bankId, cur) then Fail(InvariantViolated(bankId, cur))
    else Pass
  }

  /** Setting one reserve member's balance to `v` moves the client total by the
      difference between `v` and its old balance. */
  lemma {:induction false} ClientTotalShift(
    clients: map<ClientId, Client>, balances: Balances, bankId: BankId, cur: Currency, cid: ClientId, v: int)
    requires ReserveMember(clients, bankId, cid)
    ensures ClientTotal(clients, balances[(cid, cur) := v], bankId, cur)
         == ClientTotal(clients, balances, bankId, cur) + v - ClientBalance(balances, cid, cur)
  {
    var balances' := balances[(cid, cur) := v];
    var s := ReserveHolders(clients, balances, bankId, cur);
    var s' := ReserveHolders(clients, balances', bankId, cur);
    assert s' == s + {cid};
    assert s' - {cid} == s - {cid};
    HeldSumRemove(s', balances', cur, cid);
    HeldSumCongruent(s - {cid}, balances', balances, cur);
    if cid in s {
      HeldSumRemove(s, balances, cur, cid);
    } else {
      assert s - {cid} == s;
    }
  }

  /** A balance write outside the reserve members of `bankId` in `cur` leaves the client total alone. */
  lemma ClientTotalUntouched(
    clients: map<ClientId, Client>, balances: Balances, bankId: BankId, cur: Currency, cid: ClientId, cur': Currency, v: int)
    requires !ReserveMember(clients, bankId, cid) || cur' != cur
    ensures ClientTotal(clients, balances[(cid, cur') := v], bankId, cur) == ClientTotal(clients, balances, bankId, cur)
  {
    var balances' := balances[(cid, cur') := v];
    assert ReserveHolders(clients, balances', bankId, cur) == ReserveHolders(clients, balances, bankId, cur);
    HeldSumCongruent(ReserveHolders(clients, balances, bankId, cur), balances', balances, cur);
  }

  /** A bank's client total in a currency is at least what any one of its
      Regular or House clients holds there, balances being non-negative. */
  lemma ReserveCoversMember(clients: map<ClientId, Client>, balances: Balances, bankId: BankId, cur: Currency, cid: ClientId)
    requires forall k :: k in balances ==> balances[k] >= 0
    requires ReserveMember(clients, bankId, cid)
    ensures ClientTotal(clients, balances, bankId, cur) >= ClientBalance(balances, cid, cur)
  {
    var s := ReserveHolders(clients, balances, bankId, cur);
    if cid in s {
      HeldSumRemove(s, balances, cur, cid);
      HeldSumNonNegative(s - {cid}, balances, cur);
    } else {
      HeldSumNonNegative(s, balances, cur);
    }
  }
}
