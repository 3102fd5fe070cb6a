/** The ledger store (db.js): one SQLite database whose tables are the fields
    of `Database`. Keys of the maps are the tables' primary keys or unique
    indexes, so one balance per (client, currency) and one nostro per
    (owner, currency) hold by construction. A transaction is a snapshot of
    the table fields, restored when the transaction throws. */
module Store {
  import opened Schema
  import opened DecimalText
  import Clock
  import Config

  class Database {
    var counters: map<string, nat>
    var banks: map<BankId, Bank>
    var clients: map<ClientId, Client>
    var balances: map<(ClientId, Currency), int>
    var nostros: map<(BankId, Currency), Nostro>
    var rates: map<Currency, Rate>
    var clearingHours: map<Currency, ClearingWindow>
    var payments: map<PaymentId, Payment>
    var messages: seq<PaymentMessage>
    var fxHistory: seq<FxEvent>
    /** The single sim_clock row. */
    const clock: Clock.SimClock

    /** The table constraints (see `TablesValid`) and a valid clock row. */
    ghost predicate Valid()
      reads this`banks, this`clients, this`balances, this`nostros, this`payments, clock
    {
      clock.Valid() && TablesValid(banks, clients, balances, nostros, payments)
    }

    /** `getDb` on an empty file: the empty schema, then seedGlobals. */
    constructor (now: int)
      ensures Valid() && fresh(clock)
      ensures banks == map[] && clients == map[] && balances == map[] && nostros == map[]
      ensures payments == map[] && messages == [] && fxHistory == [] && counters == map[]
      ensures rates == Config.SeedRates && clearingHours == Config.SeedClearingHours
      ensures clock.simTimeMs == Config.SimEpochMs && clock.tick == Config.DefaultTick
      ensures clock.pausedTick == Config.DefaultTick && clock.lastUpdateMs == now
    {
      counters, banks, clients, balances, nostros := map[], map[], map[], map[], map[];
      rates, clearingHours := Config.SeedRates, Config.SeedClearingHours;
      payments, messages, fxHistory := map[], [], [];
      clock := new Clock.SimClock(now);
    }

    /** `getSimTimeMs(db)`. */
    function SimNow(now: int): int
      reads clock
    {
      clock.SimTimeAt(now)
    }
  }

  /** The constraints the schema and the domain code keep together: primary
      keys match their rows, bank names are unique, foreign keys point at
      existing rows and there is one Vostro client per (host, foreign bank)
      (schema); at most one House client per bank, a nostro held in its
      correspondent's base currency, which is not the owner's, and no stored
      amount negative (domain code). */
  ghost predicate TablesValid(
    banks: map<BankId, Bank>, clients: map<ClientId, Client>,
    balances: map<(ClientId, Currency), int>, nostros: map<(BankId, Currency), Nostro>,
    payments: map<PaymentId, Payment>)
  {
    && BanksValid(banks)
    && ClientsValid(banks, clients)
    && (forall k :: k in balances ==> k.0 in clients && balances[k] >= 0)
    && (forall k :: k in nostros ==> NostroRowValid(banks, k, nostros[k]))
    && (forall p :: p in payments ==> payments[p].id == p)
  }

  ghost predicate BanksValid(banks: map<BankId, Bank>)
  {
    && (forall b :: b in banks ==> banks[b].id == b)
    && (forall b1, b2 {:trigger SameName(banks, b1, b2)} :: SameName(banks, b1, b2) ==> b1 == b2)
  }

  /** Two banks of the table with the same name. */
  predicate SameName(banks: map<BankId, Bank>, b1: BankId, b2: BankId)
  {
    b1 in banks && b2 in banks && banks[b1].name == banks[b2].name
  }

  ghost predicate ClientsValid(banks: map<BankId, Bank>, clients: map<ClientId, Client>)
  {
    && (forall c :: c in clients ==> clients[c].id == c && clients[c].bankId in banks)
    && (forall c1, c2 {:trigger SameHouse(clients, c1, c2)} :: SameHouse(clients, c1, c2) ==> c1 == c2)
    && (forall c1, c2 {:trigger SameVostro(clients, c1, c2)} :: SameVostro(clients, c1, c2) ==> c1 == c2)
  }

  /** Two House clients of the same bank. */
  predicate SameHouse(clients: map<ClientId, Client>, c1: ClientId, c2: ClientId)
  {
    && c1 in clients && c2 in clients && clients[c1].kind.House? && clients[c2].kind.House?
    && clients[c1].bankId == clients[c2].bankId
  }

  /** Two Vostro clients at the same host for the same foreign bank. */
  predicate SameVostro(clients: map<ClientId, Client>, c1: ClientId, c2: ClientId)
  {
    && c1 in clients && c2 in clients && clients[c1].kind.Vostro?
    && clients[c1].kind == clients[c2].kind && clients[c1].bankId == clients[c2].bankId
  }

  ghost predicate NostroRowValid(banks: map<BankId, Bank>, k: (BankId, Currency), n: Nostro)
  {
    && n.ownerBankId == k.0 && n.currency == k.1
    && n.ownerBankId in banks && n.correspondentBankId in banks
    && banks[n.correspondentBankId].baseCurrency == n.currency
    && banks[n.ownerBankId].baseCurrency != n.currency
    && n.balance >= 0
  }

  /** The text of the `n`-th id of a kind: the prefix, then the counter
      zero-padded to at least four digits. */
  function IdText(prefix: string, n: nat): (s: string)
    ensures |s| >= |prefix| + 4
  {
    prefix + PadStart(NatToDigits(n), 4, '0')
  }

  /** An id is its prefix followed by decimal digits only. */
  lemma IdTextShape(prefix: string, n: nat)
    ensures IdText(prefix, n)[..|prefix|] == prefix
    ensures AllDigits(IdText(prefix, n)[|prefix|..])
  {
    var digits := PadStart(NatToDigits(n), 4, '0');
    assert IdText(prefix, n)[|prefix|..] == digits;
    assert digits == Repeat('0', |digits| - |NatToDigits(n)|) + NatToDigits(n);
    LeadingZeros(|digits| - |NatToDigits(n)|, NatToDigits(n));
  }

  /** The digits of an id read back as its counter value. */
  lemma IdTextDecodes(prefix: string, n: nat)
    ensures DigitsToNat(IdText(prefix, n)[|prefix|..]) == n
  {
    var d := NatToDigits(n);
    var digits := PadStart(d, 4, '0');
    assert IdText(prefix, n)[|prefix|..] == digits;
    assert digits == Repeat('0', |digits| - |d|) + d;
    LeadingZeros(|digits| - |d|, d);
    DigitsRoundTrip(n);
  }

  /** Distinct counter values give distinct ids. */
  lemma IdTextInjective(prefix: string, m: nat, n: nat)
    requires IdText(prefix, m) == IdText(prefix, n)
    ensures m == n
  {
    IdTextDecodes(prefix, m);
    IdTextDecodes(prefix, n);
  }

  /** The first id of every kind ends in "0001". */
  lemma FirstId(prefix: string)
    ensures IdText(prefix, 1) == prefix + "0001"
  {
    assert NatToDigits(1) == "1";
    assert Repeat('0', 3) == "000";
  }

  /** The counter `nextId` reads for a key: the stored one, or 1 for a new key. */
  function CounterValue(counters: map<string, nat>, key: string): nat
  {
    if key in counters then counters[key] else 1
  }

  /** The counters after one `nextId` call for `key`. */
  function Bumped(counters: map<string, nat>, key: string): (r: map<string, nat>)
    ensures r.Keys == counters.Keys + {key} && r[key] == CounterValue(counters, key) + 1
    ensures forall k :: k in counters && k != key ==> r[k] == counters[k]
  {
    counters[key := CounterValue(counters, key) + 1]
  }

  /** The counters after `n` calls of `nextId` for `key`. */
  function BumpedTimes(counters: map<string, nat>, key: string, n: nat): (r: map<string, nat>)
    ensures n == 0 ==> r == counters
    ensures n > 0 ==> key in r && r[key] == CounterValue(counters, key) + n
    ensures forall k :: k in counters && k != key ==> k in r && r[k] == counters[k]
  {
    if n == 0 then counters else Bumped(BumpedTimes(counters, key, n - 1), key)
  }

  /** One more bump, or none, after a first one. */
  lemma BumpedOnceMore(counters: map<string, nat>, key: string, n: nat)
    requires n <= 1
    ensures BumpedTimes(BumpedTimes(counters, key, 1), key, n) == BumpedTimes(counters, key, 1 + n)
  {
    if n == 1 {
      assert BumpedTimes(counters, key, 2) == Bumped(BumpedTimes(counters, key, 1), key);
    }
  }

  /** `nextId`: returns the id for the key's current counter and advances that
      counter, and only that counter, by one. */
  method NextId(db: Database, key: string, prefix: string) returns (id: string)
    modifies db`counters
    ensures old(db.Valid()) ==> db.Valid()
    ensures id == IdText(prefix, CounterValue(old(db.counters), key))
    ensures db.counters == Bumped(old(db.counters), key)
  {
    var current := CounterValue(db.counters, key);
    db.counters := db.counters[key := current + 1];
    id := IdText(prefix, current);
  }

  /** `resetClock` (db.js): the same update as the clock module's reset. */
  method ResetClock(db: Database, now: int)
    modifies db.clock
    ensures db.clock.Valid()
    ensures db.clock.simTimeMs == Config.SimEpochMs && db.clock.tick == Config.DefaultTick
    ensures db.clock.pausedTick == Config.DefaultTick && db.clock.lastUpdateMs == now
  {
    db.clock.Reset(now);
  }

  /** `resetAll`: empties every domain table and the counters, re-seeds the
      rate and clearing tables (INSERT OR REPLACE over the rows already there)
      and the clock. */
  method ResetAll(db: Database, now: int)
    modifies db, db.clock
    ensures db.Valid()
    ensures db.banks == map[] && db.clients == map[] && db.balances == map[] && db.nostros == map[]
    ensures db.payments == map[] && db.messages == [] && db.fxHistory == [] && db.counters == map[]
    ensures db.rates == old(db.rates) + Config.SeedRates
    ensures db.clearingHours == old(db.clearingHours) + Config.SeedClearingHours
    ensures db.clock.simTimeMs == Config.SimEpochMs && db.clock.tick == Config.DefaultTick
    ensures db.clock.pausedTick == Config.DefaultTick && db.clock.lastUpdateMs == now
  {
    ClearTables(db);
    Reseed(db);
    db.clock.Reset(now);
  }

  /** The DELETE statements of `resetAll`. */
  method ClearTables(db: Database)
    modifies db`banks, db`clients, db`balances, db`nostros, db`payments, db`messages, db`fxHistory, db`counters
    ensures TablesValid(db.banks, db.clients, db.balances, db.nostros, db.payments)
    ensures db.banks == map[] && db.clients == map[] && db.balances == map[] && db.nostros == map[]
    ensures db.payments == map[] && db.messages == [] && db.fxHistory == [] && db.counters == map[]
  {
    db.fxHistory, db.messages, db.payments := [], [], map[];
    db.balances, db.clients, db.nostros, db.banks, db.counters := map[], map[], map[], map[], map[];
    EmptyTablesValid();
  }

  /** `seedGlobals`: INSERT OR REPLACE of every seed rate and clearing window. */
  method Reseed(db: Database)
    modifies db`rates, db`clearingHours
    ensures db.rates == old(db.rates) + Config.SeedRates
    ensures db.clearingHours == old(db.clearingHours) + Config.SeedClearingHours
  {
    db.rates := db.rates + Config.SeedRates;
    db.clearingHours := db.clearingHours + Config.SeedClearingHours;
  }

  lemma EmptyTablesValid()
    ensures TablesValid(map[], map[], map[], map[], map[])
  {
  }

  /** `resetPayments`: deletes payments, their messages and the FX history only. */
  method ResetPayments(db: Database)
    requires db.Valid()
    modifies db`payments, db`messages, db`fxHistory
    ensures db.Valid()
    ensures db.payments == map[] && db.messages == [] && db.fxHistory == []
  {
    db.fxHistory, db.messages, db.payments := [], [], map[];
  }
}
