/** Banks, clients and client balances (accounts.js). A balance is read with a
    zero default and written by upsert; House and Vostro clients are created
    on first use and reused afterwards. */
module Accounts {
  import opened Failures
  import opened Schema
  import opened Money
  import opened Ordering
  import Store

  type Balances = map<(ClientId, Currency), int>

  /** `getBank`: the bank row, or nothing. */
  function GetBank(banks: map<BankId, Bank>, bankId: BankId): (r: Option<Bank>)
    ensures r.None? <==> bankId !in banks
    ensures r.Some? ==> r.value == banks[bankId]
  {
    if bankId in banks then Some(banks[bankId]) else None
  }

  /** `getClientBalance`: the stored amount, or zero when the client holds no
      row in that currency. */
  function ClientBalance(balances: Balances, cid: ClientId, cur: Currency): (r: Cents)
    ensures (cid, cur) !in balances ==> r == 0
    ensures (cid, cur) in balances ==> r == balances[(cid, cur)]
  {
    if (cid, cur) in balances then balances[(cid, cur)] else 0
  }

  /** Reading back after an upsert: the written pair holds the new amount and
      every other pair keeps its old reading. */
  lemma ReadAfterUpsert(balances: Balances, cid: ClientId, cur: Currency, v: Cents, cid': ClientId, cur': Currency)
    ensures ClientBalance(balances[(cid, cur) := v], cid', cur')
         == if (cid', cur') == (cid, cur) then v else ClientBalance(balances, cid', cur')
  {
  }

  /** Writing a non-negative amount for an existing client keeps the tables valid. */
  lemma BalanceWriteValid(
    banks: map<BankId, Bank>, clients: map<ClientId, Client>, balances: Balances,
    nostros: map<(BankId, Currency), Nostro>, payments: map<PaymentId, Payment>,
    cid: ClientId, cur: Currency, v: int)
    requires Store.TablesValid(banks, clients, balances, nostros, payments)
    requires cid in clients && v >= 0
    ensures Store.TablesValid(banks, clients, balances[(cid, cur) := v], nostros, payments)
  {
  }

  /** `setClientBalance`: draws a balance id first, whether or not it is used,
      then updates the existing row or inserts a new one, storing the amount at
      2 dp. Inserting a row for an unknown client breaks the foreign key. */
  method SetClientBalance(db: Store.Database, cid: ClientId, cur: Currency, amount: real) returns (o: Outcome)
    requires db.Valid()
    modifies db`counters, db`balances
    ensures db.counters == Store.Bumped(old(db.counters), "balance")
    ensures o.Pass? <==> cid in db.clients
    ensures o.Pass? ==> db.balances == old(db.balances)[(cid, cur) := Quantize(amount)]
    ensures o.Fail? ==> o.error == ForeignKeyViolation && db.balances == old(db.balances)
    ensures Quantize(amount) >= 0 ==> db.Valid()
  {
    // the row id is drawn here; the model keys balance rows by (client, currency)
    var rowId := Store.NextId(db, "balance", "BAL_");
    if (cid, cur) in db.balances {
      db.balances := db.balances[(cid, cur) := Quantize(amount)];
    } else if cid !in db.clients {
      return Fail(ForeignKeyViolation);
    } else {
      db.balances := db.balances[(cid, cur) := Quantize(amount)];
    }
    o := Pass;
    if Quantize(amount) >= 0 {
      BalanceWriteValid(db.banks, db.clients, old(db.balances), db.nostros, db.payments, cid, cur, Quantize(amount));
    }
  }

  /** Adding a bank whose id and name are both new keeps the tables valid. */
  lemma BankInsertValid(
    banks: map<BankId, Bank>, clients: map<ClientId, Client>, balances: Balances,
    nostros: map<(BankId, Currency), Nostro>, payments: map<PaymentId, Payment>, b: Bank)
    requires Store.TablesValid(banks, clients, balances, nostros, payments)
    requires b.id !in banks && forall x :: x in banks ==> banks[x].name != b.name
    ensures Store.TablesValid(banks[b.id := b], clients, balances, nostros, payments)
  {
    var banks' := banks[b.id := b];
    forall b1, b2 | Store.SameName(banks', b1, b2)
      ensures b1 == b2
    {
      if b1 != b.id && b2 != b.id {
        assert Store.SameName(banks, b1, b2);
      }
    }
    forall k | k in nostros
      ensures Store.NostroRowValid(banks', k, nostros[k])
    {
      assert Store.NostroRowValid(banks, k, nostros[k]);
    }
  }

  /** `createBank`: the primary key and the unique name both reject a duplicate. */
  method CreateBank(db: Store.Database, id: BankId, name: string, baseCurrency: Currency, createdAtMs: int) returns (o: Outcome)
    requires db.Valid()
    modifies db`banks
    ensures db.Valid()
    ensures o.Pass? <==> id !in old(db.banks) && forall b :: b in old(db.banks) ==> old(db.banks)[b].name != name
    ensures o.Pass? ==> db.banks == old(db.banks)[id := Bank(id, name, baseCurrency, createdAtMs)]
    ensures o.Fail? ==> o.error == DuplicateKey && db.banks == old(db.banks)
  {
    if id in db.banks || exists b :: b in db.banks && db.banks[b].name == name {
      return Fail(DuplicateKey);
    }
    BankInsertValid(db.banks, db.clients, db.balances, db.nostros, db.payments, Bank(id, name, baseCurrency, createdAtMs));
    db.banks := db.banks[id := Bank(id, name, baseCurrency, createdAtMs)];
    o := Pass;
  }

  /** `c` is the House client of `bankId`. */
  predicate HouseOf(clients: map<ClientId, Client>, c: ClientId, bankId: BankId)
  {
    c in clients && clients[c].kind.House? && clients[c].bankId == bankId
  }

  /** `c` is the Vostro client held at `host` for `foreign`. */
  predicate VostroOf(clients: map<ClientId, Client>, c: ClientId, host: BankId, foreign: BankId)
  {
    c in clients && clients[c].bankId == host && clients[c].kind == Vostro(foreign)
  }

  /** Adding a client with a new id at an existing bank keeps the tables
      valid, provided it is not a second House client of its bank nor a second
      Vostro client for the same (host, foreign) pair. */
  lemma ClientInsertValid(
    banks: map<BankId, Bank>, clients: map<ClientId, Client>, balances: Balances,
    nostros: map<(BankId, Currency), Nostro>, payments: map<PaymentId, Payment>, c: Client)
    requires Store.TablesValid(banks, clients, balances, nostros, payments)
    requires c.id !in clients && c.bankId in banks
    requires c.kind.House? ==> forall x :: !HouseOf(clients, x, c.bankId)
    requires c.kind.Vostro? ==> forall x :: !VostroOf(clients, x, c.bankId, c.kind.forBankId)
    ensures Store.TablesValid(banks, clients[c.id := c], balances, nostros, payments)
  {
    var clients' := clients[c.id := c];
    forall c1, c2 | Store.SameHouse(clients', c1, c2)
      ensures c1 == c2
    {
      if c1 != c.id && c2 != c.id {
        assert Store.SameHouse(clients, c1, c2);
      } else {
        var x := if c1 == c.id then c2 else c1;
        assert x == c.id || !HouseOf(clients, x, c.bankId);
      }
    }
    forall c1, c2 | Store.SameVostro(clients', c1, c2)
      ensures c1 == c2
    {
      if c1 != c.id && c2 != c.id {
        assert Store.SameVostro(clients, c1, c2);
      } else {
        var x := if c1 == c.id then c2 else c1;
        assert x == c.id || !VostroOf(clients, x, c.bankId, c.kind.forBankId);
      }
    }
  }

  /** `createRegularClient`: a duplicate id breaks the primary key, an unknown
      bank the foreign key. */
  method CreateRegularClient(db: Store.Database, id: ClientId, bankId: BankId, name: string, createdAtMs: int) returns (o: Outcome)
    requires db.Valid()
    modifies db`clients
    ensures db.Valid()
    ensures id in old(db.clients) ==> o == Fail(DuplicateKey)
    ensures id !in old(db.clients) && bankId !in db.banks ==> o == Fail(ForeignKeyViolation)
    ensures o.Pass? <==> id !in old(db.clients) && bankId in db.banks
    ensures o.Pass? ==> db.clients == old(db.clients)[id := Client(id, bankId, name, Regular, createdAtMs)]
    ensures o.Fail? ==> db.clients == old(db.clients)
  {
    if id in db.clients {
      return Fail(DuplicateKey);
    }
    if bankId !in db.banks {
      return Fail(ForeignKeyViolation);
    }
    ClientInsertValid(db.banks, db.clients, db.balances, db.nostros, db.payments, Client(id, bankId, name, Regular, createdAtMs));
    db.clients := db.clients[id := Client(id, bankId, name, Regular, createdAtMs)];
    o := Pass;
  }

  /** The display name given to a new House client. */
  function HouseName(banks: map<BankId, Bank>, bankId: BankId): string
  {
    (if bankId in banks then banks[bankId].name else bankId) + " (House)"
  }

  /** Inserts `c` under its id, failing as the clients table would. */
  method InsertClient(db: Store.Database, c: Client) returns (r: Result<Client>)
    requires db.Valid()
    requires c.kind.House? ==> forall x :: !HouseOf(db.clients, x, c.bankId)
    requires c.kind.Vostro? ==> forall x :: !VostroOf(db.clients, x, c.bankId, c.kind.forBankId)
    modifies db`clients
    ensures db.Valid()
    ensures c.id in old(db.clients) ==> r == Err(DuplicateKey)
    ensures c.id !in old(db.clients) && c.bankId !in db.banks ==> r == Err(ForeignKeyViolation)
    ensures r.Ok? <==> c.id !in old(db.clients) && c.bankId in db.banks
    ensures r.Ok? ==> r.value == c && db.clients == old(db.clients)[c.id := c]
    ensures r.Err? ==> db.clients == old(db.clients)
  {
    if c.id in db.clients {
      return Err(DuplicateKey);
    }
    if c.bankId !in db.banks {
      return Err(ForeignKeyViolation);
    }
    ClientInsertValid(db.banks, db.clients, db.balances, db.nostros, db.payments, c);
    db.clients := db.clients[c.id := c];
    r := Ok(c);
  }

  /** `getOrCreateHouseClient`: the bank's existing House client, untouched,
      or a new one under the next HOUSE_ id. */
  method GetOrCreateHouseClient(db: Store.Database, bankId: BankId, createdAtMs: int) returns (r: Result<Client>)
    requires db.Valid()
    modifies db`counters, db`clients
    ensures db.Valid()
    ensures forall c :: HouseOf(old(db.clients), c, bankId) ==>
              r == Ok(old(db.clients)[c]) && db.clients == old(db.clients) && db.counters == old(db.counters)
    ensures (forall c :: !HouseOf(old(db.clients), c, bankId)) ==>
              var id := Store.IdText("HOUSE_", Store.CounterValue(old(db.counters), "house_client"));
              && db.counters == Store.Bumped(old(db.counters), "house_client")
              && (r.Ok? <==> id !in old(db.clients) && bankId in db.banks)
              && (r.Ok? ==> r.value == Client(id, bankId, HouseName(db.banks, bankId), House, createdAtMs)
                            && db.clients == old(db.clients)[id := r.value])
              && (r.Err? ==> db.clients == old(db.clients))
    ensures r.Ok? ==> HouseOf(db.clients, r.value.id, bankId) && db.clients[r.value.id] == r.value
  {
    if c :| c in db.clients && HouseOf(db.clients, c, bankId) {
      forall c' | HouseOf(db.clients, c', bankId)
        ensures c' == c
      {
        assert Store.SameHouse(db.clients, c, c');
      }
      return Ok(db.clients[c]);
    }
    var id := Store.NextId(db, "house_client", "HOUSE_");
    r := InsertClient(db, Client(id, bankId, HouseName(db.banks, bankId), House, createdAtMs));
  }

  /** `getOrCreateVostroClient`: the existing Vostro client at `host` for
      `foreign`, untouched, or a new one under the next VOSTRO_ id. */
  method GetOrCreateVostroClient(db: Store.Database, host: BankId, foreign: BankId, createdAtMs: int) returns (r: Result<Client>)
    requires db.Valid()
    modifies db`counters, db`clients
    ensures db.Valid()
    ensures forall c :: VostroOf(old(db.clients), c, host, foreign) ==>
              r == Ok(old(db.clients)[c]) && db.clients == old(db.clients) && db.counters == old(db.counters)
    ensures (forall c :: !VostroOf(old(db.clients), c, host, foreign)) ==>
              var id := Store.IdText("VOSTRO_", Store.CounterValue(old(db.counters), "vostro_client"));
              && db.counters == Store.Bumped(old(db.counters), "vostro_client")
              && (r.Ok? <==> id !in old(db.clients) && host in db.banks)
              && (r.Ok? ==> r.value == Client(id, host, "Vostro for " + foreign, Vostro(foreign), createdAtMs)
                            && db.clients == old(db.clients)[id := r.value])
              && (r.Err? ==> db.clients == old(db.clients))
    ensures r.Ok? ==> VostroOf(db.clients, r.value.id, host, foreign) && db.clients[r.value.id] == r.value
  {
    if c :| c in db.clients && VostroOf(db.clients, c, host, foreign) {
      forall c' | VostroOf(db.clients, c', host, foreign)
        ensures c' == c
      {
        assert Store.SameVostro(db.clients, c, c');
      }
      return Ok(db.clients[c]);
    }
    var id := Store.NextId(db, "vostro_client", "VOSTRO_");
    r := InsertClient(db, Client(id, host, "Vostro for " + foreign, Vostro(foreign), createdAtMs));
  }

  /** One entry of a client's balance list. */
  datatype BalanceEntry = BalanceEntry(currency: Currency, amount: Cents)

  /** A `listClients` row: the client and its balances. */
  datatype ClientView = ClientView(client: Client, balances: seq<BalanceEntry>)

  /** The currencies in which `cid` has a balance row. */
  function CurrenciesHeld(balances: Balances, cid: ClientId): (s: set<Currency>)
    ensures forall cur :: cur in s <==> (cid, cur) in balances
  {
    set k | k in balances && k.0 == cid :: k.1
  }

  /** The balance entries of `cid` in the currencies `cs`, in that order. */
  function Entries(balances: Balances, cid: ClientId, cs: seq<Currency>): (r: seq<BalanceEntry>)
    requires forall i :: 0 <= i < |cs| ==> (cid, cs[i]) in balances
    ensures |r| == |cs| && forall i :: 0 <= i < |r| ==> r[i] == BalanceEntry(cs[i], balances[(cid, cs[i])])
  {
    seq(|cs|, i requires 0 <= i < |cs| => BalanceEntry(cs[i], balances[(cid, cs[i])]))
  }

  /** The entries over every currency `cid` holds list exactly its balance rows. */
  lemma EntriesComplete(balances: Balances, cid: ClientId, cs: seq<Currency>)
    requires forall c :: c in cs <==> (cid, c) in balances
    ensures forall e :: e in Entries(balances, cid, cs) <==> (cid, e.currency) in balances && balances[(cid, e.currency)] == e.amount
  {
    var r := Entries(balances, cid, cs);
    forall e: BalanceEntry | (cid, e.currency) in balances && balances[(cid, e.currency)] == e.amount
      ensures e in r
    {
      var i :| 0 <= i < |cs| && cs[i] == e.currency;
      assert r[i] == e;
    }
  }

  /** The balances of one client, in strictly ascending currency order. */
  function BalanceList(balances: Balances, cid: ClientId): (r: seq<BalanceEntry>)
    ensures forall i :: 0 < i < |r| ==> LexLe(r[i - 1].currency, r[i].currency) && r[i - 1].currency != r[i].currency
    ensures forall e :: e in r <==> (cid, e.currency) in balances && balances[(cid, e.currency)] == e.amount
    ensures |r| == |CurrenciesHeld(balances, cid)|
  {
    var cs := SortedList(CurrenciesHeld(balances, cid));
    EntriesComplete(balances, cid, cs);
    Entries(balances, cid, cs)
  }

  /** `listClients`: the client rows in query order, each with its balance
      list, which is empty for a client without balances. */
  function ListClients(rows: seq<Client>, balances: Balances): (r: seq<ClientView>)
    ensures |r| == |rows|
    ensures forall i :: 0 <= i < |r| ==> r[i].client == rows[i]
    ensures forall i :: 0 <= i < |r| ==> r[i].balances == BalanceList(balances, rows[i].id)
    ensures forall i :: 0 <= i < |r| && CurrenciesHeld(balances, rows[i].id) == {} ==> r[i].balances == []
  {
    seq(|rows|, i requires 0 <= i < |rows| => ClientView(rows[i], BalanceList(balances, rows[i].id)))
  }
}
