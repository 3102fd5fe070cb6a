/** Nostro accounts and their mirror Vostro clients (nostroVostro.js). A
    nostro is what an owner bank holds at a correspondent, in the
    correspondent's base currency; the correspondent books the same amount
    on a Vostro client it keeps for the owner. Both sides are always moved
    together, so the two balances stay equal. */
module NostroVostro {
  import opened Failures
  import opened Schema
  import opened Money
  import opened Accounts
  import Ordering
  import Store

  type Nostros = map<(BankId, Currency), Nostro>

  /** `getNostro`: the nostro `owner` holds in `cur`, if any. */
  function GetNostro(nostros: Nostros, owner: BankId, cur: Currency): (r: Option<Nostro>)
    ensures r.None? <==> (owner, cur) !in nostros
    ensures r.Some? ==> r.value == nostros[(owner, cur)]
  {
    if (owner, cur) in nostros then Some(nostros[(owner, cur)]) else None
  }

  /** The mirror of nostro `n` exists and books the same balance. */
  ghost predicate MirrorHolds(clients: map<ClientId, Client>, balances: Balances, n: Nostro)
  {
    exists v :: VostroOf(clients, v, n.correspondentBankId, n.ownerBankId)
                && ClientBalance(balances, v, n.currency) == n.balance
  }

  /** Mirror equality: every nostro has its mirror Vostro client at the
      correspondent, holding the nostro's balance in the nostro's currency. */
  ghost predicate Mirrored(clients: map<ClientId, Client>, balances: Balances, nostros: Nostros)
  {
    forall k :: k in nostros ==> MirrorHolds(clients, balances, nostros[k])
  }

  /** Under the schema's unique index there is at most one Vostro client per
      (host, foreign bank). */
  lemma VostroUnique(banks: map<BankId, Bank>, clients: map<ClientId, Client>, v1: ClientId, v2: ClientId, host: BankId, foreign: BankId)
    requires Store.ClientsValid(banks, clients)
    requires VostroOf(clients, v1, host, foreign) && VostroOf(clients, v2, host, foreign)
    ensures v1 == v2
  {
    assert Store.SameVostro(clients, v1, v2);
  }

  /** A Vostro client mirrors at most one nostro: the one its foreign bank
      holds in its host's base currency. */
  lemma MirrorOfOneNostro(
    banks: map<BankId, Bank>, clients: map<ClientId, Client>, nostros: Nostros,
    k: (BankId, Currency), v: ClientId, owner: BankId, corr: BankId, cur: Currency)
    requires Store.ClientsValid(banks, clients)
    requires k in nostros && Store.NostroRowValid(banks, k, nostros[k])
    requires VostroOf(clients, v, nostros[k].correspondentBankId, nostros[k].ownerBankId)
    requires VostroOf(clients, v, corr, owner)
    requires cur == banks[corr].baseCurrency
    ensures nostros[k].currency == cur ==> k == (owner, cur)
  {
  }

  /** A balance write on a client that is not a Vostro client keeps mirror equality. */
  lemma MirroredAfterOtherWrite(clients: map<ClientId, Client>, balances: Balances, nostros: Nostros,
                                cid: ClientId, cur: Currency, amount: int)
    requires Mirrored(clients, balances, nostros)
    requires cid !in clients || !clients[cid].kind.Vostro?
    ensures Mirrored(clients, balances[(cid, cur) := amount], nostros)
  {
    var balances' := balances[(cid, cur) := amount];
    forall k | k in nostros
      ensures MirrorHolds(clients, balances', nostros[k])
    {
      var n := nostros[k];
      var v :| VostroOf(clients, v, n.correspondentBankId, n.ownerBankId) && ClientBalance(balances, v, n.currency) == n.balance;
      assert ClientBalance(balances', v, n.currency) == n.balance;
    }
  }

  /** Adding a client under a new id keeps every mirror in place. */
  lemma MirroredAfterClientInsert(clients: map<ClientId, Client>, balances: Balances, nostros: Nostros, c: Client)
    requires Mirrored(clients, balances, nostros)
    requires c.id !in clients
    ensures Mirrored(clients[c.id := c], balances, nostros)
  {
    forall k | k in nostros
      ensures MirrorHolds(clients[c.id := c], balances, nostros[k])
    {
      var n := nostros[k];
      var v :| VostroOf(clients, v, n.correspondentBankId, n.ownerBankId) && ClientBalance(balances, v, n.currency) == n.balance;
      assert VostroOf(clients[c.id := c], v, n.correspondentBankId, n.ownerBankId);
    }
  }

  /** Writing the same new amount to a nostro and to its mirror keeps mirror equality. */
  lemma MirroredAfterPairedWrite(
    banks: map<BankId, Bank>, clients: map<ClientId, Client>, balances: Balances, nostros: Nostros,
    owner: BankId, cur: Currency, v: ClientId, amount: int)
    requires Store.TablesValid(banks, clients, balances, nostros, map[])
    requires Mirrored(clients, balances, nostros)
    requires (owner, cur) in nostros
    requires VostroOf(clients, v, nostros[(owner, cur)].correspondentBankId, owner)
    ensures Mirrored(clients, balances[(v, cur) := amount], nostros[(owner, cur) := nostros[(owner, cur)].(balance := amount)])
  {
    var corr := nostros[(owner, cur)].correspondentBankId;
    var balances' := balances[(v, cur) := amount];
    var nostros' := nostros[(owner, cur) := nostros[(owner, cur)].(balance := amount)];
    assert Store.NostroRowValid(banks, (owner, cur), nostros[(owner, cur)]);
    forall k | k in nostros'
      ensures MirrorHolds(clients, balances', nostros'[k])
    {
      var n := nostros'[k];
      if k == (owner, cur) {
        assert VostroOf(clients, v, n.correspondentBankId, n.ownerBankId) && ClientBalance(balances', v, n.currency) == n.balance;
      } else {
        var w :| VostroOf(clients, w, n.correspondentBankId, n.ownerBankId) && ClientBalance(balances, w, n.currency) == n.balance;
        assert Store.NostroRowValid(banks, k, nostros[k]);
        if w == v {
          MirrorOfOneNostro(banks, clients, nostros, k, v, owner, corr, cur);
        }
        assert ClientBalance(balances', w, n.currency) == n.balance;
      }
    }
  }

  /** Replacing one nostro row's balance by a non-negative amount keeps the tables valid. */
  lemma NostroWriteValid(
    banks: map<BankId, Bank>, clients: map<ClientId, Client>, balances: Balances,
    nostros: Nostros, payments: map<PaymentId, Payment>, k: (BankId, Currency), amount: int)
    requires Store.TablesValid(banks, clients, balances, nostros, payments)
    requires k in nostros && amount >= 0
    ensures Store.TablesValid(banks, clients, balances, nostros[k := nostros[k].(balance := amount)], payments)
  {
    assert Store.NostroRowValid(banks, k, nostros[k]);
  }

  /** The nostro a hop between `owner` and `corr` moves: the one `owner` holds in `cur`, if it is held at `corr`. */
  predicate HopNostro(nostros: Nostros, owner: BankId, corr: BankId, cur: Currency)
  {
    (owner, cur) in nostros && nostros[(owner, cur)].correspondentBankId == corr
  }

  /** The Vostro clients at `host` for `foreign`: the rows the lookup
      `WHERE bank_id = host AND kind = 'VOSTRO' AND for_bank_id = foreign`
      selects (at most one under the schema's unique index, `VostroUnique`). */
  function VostrosAt(clients: map<ClientId, Client>, host: BankId, foreign: BankId): (s: set<ClientId>)
    ensures forall v :: v in s <==> VostroOf(clients, v, host, foreign)
  {
    set v | v in clients && VostroOf(clients, v, host, foreign)
  }

  /** The mirror Vostro client at `host` for `foreign`, when there is one. */
  function TheVostro(clients: map<ClientId, Client>, host: BankId, foreign: BankId): (v: ClientId)
    requires exists v :: VostroOf(clients, v, host, foreign)
    ensures VostroOf(clients, v, host, foreign)
  {
    var s := VostrosAt(clients, host, foreign);
    var w :| VostroOf(clients, w, host, foreign);
    assert w in s;
    Ordering.Least(s)
  }

  /** What `adjustNostroAndMirrorVostro` does to the balance and nostro
      tables: the error it throws, or the two tables after both writes. */
  function Adjusted(clients: map<ClientId, Client>, balances: Balances, nostros: Nostros,
                          owner: BankId, corr: BankId, cur: Currency, delta: real): Result<(Balances, Nostros)>
  {
    if !HopNostro(nostros, owner, corr, cur) then Err(NostroNotFoundForHop)
    else if VostrosAt(clients, corr, owner) == {} then Err(MirrorVostroMissing)
    else
      var n := nostros[(owner, cur)];
      var v := TheVostro(clients, corr, owner);
      var newN := CentsToReal(n.balance) + delta;
      var vNew := CentsToReal(ClientBalance(balances, v, cur)) + delta;
      if newN < 0.0 then Err(NostroWouldBeNegative)
      else if vNew < 0.0 then Err(VostroWouldBeNegative)
      else Ok((balances[(v, cur) := Quantize(vNew)], nostros[(owner, cur) := n.(balance := Quantize(newN))]))
  }

  /** The outcomes of an adjustment: each check in order, and on success
      both balances moved by `delta` and stored at 2 dp. */
  lemma AdjustedCases(clients: map<ClientId, Client>, balances: Balances, nostros: Nostros,
                      owner: BankId, corr: BankId, cur: Currency, delta: real)
    ensures var a := Adjusted(clients, balances, nostros, owner, corr, cur, delta);
            && (!HopNostro(nostros, owner, corr, cur) ==> a == Err(NostroNotFoundForHop))
            && (HopNostro(nostros, owner, corr, cur) && (forall v :: !VostroOf(clients, v, corr, owner))
                ==> a == Err(MirrorVostroMissing))
            && (a.Ok? ==> HopNostro(nostros, owner, corr, cur) && exists v :: VostroOf(clients, v, corr, owner))
    ensures var a := Adjusted(clients, balances, nostros, owner, corr, cur, delta);
            a.Ok? ==>
              var n := nostros[(owner, cur)];
              var v := TheVostro(clients, corr, owner);
              && CentsToReal(n.balance) + delta >= 0.0
              && CentsToReal(ClientBalance(balances, v, cur)) + delta >= 0.0
              && a.value.1 == nostros[(owner, cur) := n.(balance := Quantize(CentsToReal(n.balance) + delta))]
              && a.value.0 == balances[(v, cur) := Quantize(CentsToReal(ClientBalance(balances, v, cur)) + delta)]
    ensures var a := Adjusted(clients, balances, nostros, owner, corr, cur, delta);
            (a.Err? && HopNostro(nostros, owner, corr, cur) && exists v :: VostroOf(clients, v, corr, owner)) ==>
              a.error == (if CentsToReal(nostros[(owner, cur)].balance) + delta < 0.0 then NostroWouldBeNegative
                          else VostroWouldBeNegative)
  {
  }

  /** A successful adjustment keeps the tables valid and mirror equality. */
  lemma AdjustedKeepsInvariants(
    banks: map<BankId, Bank>, clients: map<ClientId, Client>, balances: Balances, nostros: Nostros,
    payments: map<PaymentId, Payment>, owner: BankId, corr: BankId, cur: Currency, delta: real)
    requires Store.TablesValid(banks, clients, balances, nostros, payments)
    requires Adjusted(clients, balances, nostros, owner, corr, cur, delta).Ok?
    ensures var r := Adjusted(clients, balances, nostros, owner, corr, cur, delta).value;
            Store.TablesValid(banks, clients, r.0, r.1, payments)
    ensures var r := Adjusted(clients, balances, nostros, owner, corr, cur, delta).value;
            Mirrored(clients, balances, nostros) ==> Mirrored(clients, r.0, r.1)
  {
    var n := nostros[(owner, cur)];
    var v := TheVostro(clients, corr, owner);
    var newN := CentsToReal(n.balance) + delta;
    var vNew := CentsToReal(ClientBalance(balances, v, cur)) + delta;
    QuantizeSign(newN);
    QuantizeSign(vNew);
    NostroWriteValid(banks, clients, balances, nostros, payments, (owner, cur), Quantize(newN));
    BalanceWriteValid(banks, clients, balances, nostros[(owner, cur) := n.(balance := Quantize(newN))], payments, v, cur, Quantize(vNew));
    if Mirrored(clients, balances, nostros) {
      PairedWriteKeepsMirror(banks, clients, balances, nostros, payments, owner, cur, v, Quantize(newN), Quantize(vNew));
    }
  }

  /** `adjustNostroAndMirrorVostro`: moves the nostro of `owner` at `corr` in
      `cur` and its mirror Vostro client by the same `delta`. Every check
      comes before the first write, so a failure changes nothing. */
  method AdjustNostroAndMirrorVostro(db: Store.Database, owner: BankId, corr: BankId, cur: Currency, delta: real)
    returns (o: Outcome)
    requires db.Valid()
    modifies db`counters, db`balances, db`nostros
    ensures var a := Adjusted(db.clients, old(db.balances), old(db.nostros), owner, corr, cur, delta);
            && (o.Pass? <==> a.Ok?)
            && (a.Err? ==> o == Fail(a.error))
            && (a.Ok? ==> db.balances == a.value.0 && db.nostros == a.value.1)
    ensures o.Fail? ==> db.balances == old(db.balances) && db.nostros == old(db.nostros) && db.counters == old(db.counters)
    ensures o.Pass? ==> db.counters == Store.Bumped(old(db.counters), "balance")
    ensures db.Valid()
  {
    if !((owner, cur) in db.nostros && db.nostros[(owner, cur)].correspondentBankId == corr) {
      o := Fail(NostroNotFoundForHop);
    } else if !(exists v :: v in db.clients && VostroOf(db.clients, v, corr, owner)) {
      o := Fail(MirrorVostroMissing);
      AdjustedCases(db.clients, db.balances, db.nostros, owner, corr, cur, delta);
    } else {
      var v :| v in db.clients && VostroOf(db.clients, v, corr, owner);
      VostroUnique(db.banks, db.clients, v, TheVostro(db.clients, corr, owner), corr, owner);
      o := MoveBoth(db, owner, corr, cur, v, delta);
    }
  }

  /** The balance checks and writes of an adjustment once the nostro and
      its mirror `v` are found. */
  method MoveBoth(db: Store.Database, owner: BankId, corr: BankId, cur: Currency, v: ClientId, delta: real)
    returns (o: Outcome)
    requires db.Valid()
    requires HopNostro(db.nostros, owner, corr, cur)
    requires v in db.clients && VostroOf(db.clients, v, corr, owner) && v == TheVostro(db.clients, corr, owner)
    modifies db`counters, db`balances, db`nostros
    ensures var a := Adjusted(db.clients, old(db.balances), old(db.nostros), owner, corr, cur, delta);
            && (o.Pass? <==> a.Ok?)
            && (a.Err? ==> o == Fail(a.error))
            && (a.Ok? ==> db.balances == a.value.0 && db.nostros == a.value.1)
    ensures o.Fail? ==> db.balances == old(db.balances) && db.nostros == old(db.nostros) && db.counters == old(db.counters)
    ensures o.Pass? ==> db.counters == Store.Bumped(old(db.counters), "balance")
    ensures db.Valid()
  {
    AdjustedCases(db.clients, db.balances, db.nostros, owner, corr, cur, delta);
    var n := db.nostros[(owner, cur)];
    var newN := CentsToReal(n.balance) + delta;
    if newN < 0.0 {
      o := Fail(NostroWouldBeNegative);
    } else {
      var vNew := CentsToReal(ClientBalance(db.balances, v, cur)) + delta;
      if vNew < 0.0 {
        o := Fail(VostroWouldBeNegative);
      } else {
        AdjustedKeepsInvariants(db.banks, db.clients, db.balances, db.nostros, db.payments, owner, corr, cur, delta);
        WritePair(db, owner, cur, v, newN, vNew);
        o := Pass;
      }
    }
  }

  /** The two writes of a successful adjustment: the nostro row, then the
      mirror's balance through `setClientBalance`. */
  method WritePair(db: Store.Database, owner: BankId, cur: Currency, v: ClientId, newN: real, vNew: real)
    requires db.Valid()
    requires (owner, cur) in db.nostros && v in db.clients
    requires newN >= 0.0
    modifies db`counters, db`balances, db`nostros
    ensures db.counters == Store.Bumped(old(db.counters), "balance")
    ensures db.nostros == old(db.nostros)[(owner, cur) := old(db.nostros)[(owner, cur)].(balance := Quantize(newN))]
    ensures db.balances == old(db.balances)[(v, cur) := Quantize(vNew)]
  {
    QuantizeSign(newN);
    NostroWriteValid(db.banks, db.clients, db.balances, db.nostros, db.payments, (owner, cur), Quantize(newN));
    db.nostros := db.nostros[(owner, cur) := db.nostros[(owner, cur)].(balance := Quantize(newN))];
    var o := SetClientBalance(db, v, cur, vNew);
  }

  /** Both sides of a pair written from equal balances with the same delta end equal. */
  lemma PairedWriteKeepsMirror(
    banks: map<BankId, Bank>, clients: map<ClientId, Client>, balances: Balances, nostros: Nostros,
    payments: map<PaymentId, Payment>, owner: BankId, cur: Currency, v: ClientId, qn: int, qv: int)
    requires Store.TablesValid(banks, clients, balances, nostros, payments)
    requires Mirrored(clients, balances, nostros)
    requires (owner, cur) in nostros
    requires VostroOf(clients, v, nostros[(owner, cur)].correspondentBankId, owner)
    requires ClientBalance(balances, v, cur) == nostros[(owner, cur)].balance ==> qn == qv
    ensures Mirrored(clients, balances[(v, cur) := qv], nostros[(owner, cur) := nostros[(owner, cur)].(balance := qn)])
  {
    var n := nostros[(owner, cur)];
    assert Store.NostroRowValid(banks, (owner, cur), n);
    var w :| VostroOf(clients, w, n.correspondentBankId, n.ownerBankId) && ClientBalance(balances, w, n.currency) == n.balance;
    VostroUnique(banks, clients, v, w, n.correspondentBankId, owner);
    assert Store.TablesValid(banks, clients, balances, nostros, map[]);
    MirroredAfterPairedWrite(banks, clients, balances, nostros, owner, cur, v, qn);
  }

  /** The counters once the mirror Vostro at `corr` for `owner` has been got
      or created: a VOSTRO_ id is drawn only when there is none yet. */
  ghost function MirrorCounters(clients: map<ClientId, Client>, counters: map<string, nat>, corr: BankId, owner: BankId)
    : map<string, nat>
  {
    if exists c :: VostroOf(clients, c, corr, owner) then counters else Store.Bumped(counters, "vostro_client")
  }

  /** `v` is the mirror Vostro at `corr` for `owner` and `clients1` the
      clients table after getting it: the existing one, untouched, or a new
      one inserted under the next VOSTRO_ id. */
  ghost predicate MirrorGot(
    clients0: map<ClientId, Client>, counters0: map<string, nat>, clients1: map<ClientId, Client>,
    corr: BankId, owner: BankId, createdAtMs: int, v: ClientId)
  {
    || (VostroOf(clients0, v, corr, owner) && clients1 == clients0)
    || (&& (forall c :: !VostroOf(clients0, c, corr, owner))
        && v == Store.IdText("VOSTRO_", Store.CounterValue(counters0, "vostro_client"))
        && v !in clients0
        && clients1 == clients0[v := Client(v, corr, "Vostro for " + owner, Vostro(owner), createdAtMs)])
  }

  /** The mirror's balance in `cur` brought to zero: rewritten, with a
      balance id drawn, only when it was not zero already. */
  ghost predicate MirrorZeroed(
    balances0: Balances, balances1: Balances, counters0: map<string, nat>, counters1: map<string, nat>,
    v: ClientId, cur: Currency)
  {
    && (ClientBalance(balances0, v, cur) == 0 ==> balances1 == balances0 && counters1 == counters0)
    && (ClientBalance(balances0, v, cur) != 0 ==>
          balances1 == balances0[(v, cur) := 0] && counters1 == Store.Bumped(counters0, "balance"))
  }

  /** The tables `createNostroWithMirrorVostro` leaves once its checks have
      passed. On success: the mirror Vostro got or created, the zero nostro
      under the next NOS_ id, the mirror's balance brought to zero. On an
      error: no nostro and no balance written, but what was written before
      the error stays, as no transaction wraps these writes; either the
      Vostro insert failed, or the NOS_ id was taken after the mirror was got. */
  ghost predicate Opened(
    clients0: map<ClientId, Client>, balances0: Balances, nostros0: Nostros, counters0: map<string, nat>,
    clients1: map<ClientId, Client>, balances1: Balances, nostros1: Nostros, counters1: map<string, nat>,
    owner: BankId, corr: BankId, cur: Currency, createdAtMs: int, r: Result<Nostro>)
  {
    var mc := MirrorCounters(clients0, counters0, corr, owner);
    var id := Store.IdText("NOS_", Store.CounterValue(mc, "nostro"));
    match r
    case Ok(n) =>
      && n == Nostro(id, owner, corr, cur, 0, createdAtMs)
      && nostros1 == nostros0[(owner, cur) := n]
      && exists v :: MirrorGot(clients0, counters0, clients1, corr, owner, createdAtMs, v)
                     && MirrorZeroed(balances0, balances1, Store.Bumped(mc, "nostro"), counters1, v, cur)
    case Err(e) =>
      && nostros1 == nostros0 && balances1 == balances0
      && (|| (clients1 == clients0 && counters1 == mc && forall c :: !VostroOf(clients0, c, corr, owner))
          || (&& e == DuplicateKey && counters1 == Store.Bumped(mc, "nostro")
              && exists v :: MirrorGot(clients0, counters0, clients1, corr, owner, createdAtMs, v)))
  }

  /** Opening a nostro when its mirror Vostro `w` already exists: the clients
      table is untouched, `w` now holds 0 in the nostro's currency, every other
      balance row is as before, and only the NOS_ and balance counters move. */
  lemma {:induction false} OpenedReusesMirror(
    banks: map<BankId, Bank>,
    clients0: map<ClientId, Client>, balances0: Balances, nostros0: Nostros, counters0: map<string, nat>,
    clients1: map<ClientId, Client>, balances1: Balances, nostros1: Nostros, counters1: map<string, nat>,
    owner: BankId, corr: BankId, cur: Currency, createdAtMs: int, r: Result<Nostro>, w: ClientId)
    requires Store.ClientsValid(banks, clients0)
    requires Opened(clients0, balances0, nostros0, counters0, clients1, balances1, nostros1, counters1,
                    owner, corr, cur, createdAtMs, r)
    requires r.Ok?
    requires VostroOf(clients0, w, corr, owner)
    ensures clients1 == clients0
    ensures ClientBalance(balances1, w, cur) == 0
    ensures forall k :: k in balances0 && k != (w, cur) ==> k in balances1 && balances1[k] == balances0[k]
    ensures forall key :: key in counters0 && key != "nostro" && key != "balance" ==> key in counters1 && counters1[key] == counters0[key]
  {
    var mc := MirrorCounters(clients0, counters0, corr, owner);
    assert mc == counters0;
    var v :| MirrorGot(clients0, counters0, clients1, corr, owner, createdAtMs, v)
             && MirrorZeroed(balances0, balances1, Store.Bumped(mc, "nostro"), counters1, v, cur);
    assert VostroOf(clients0, v, corr, owner);
    VostroUnique(banks, clients0, v, w, corr, owner);
  }

  /** `createNostroWithMirrorVostro`: opens the nostro `owner` holds at
      `corr`, in `corr`'s base currency, at 0.00, after getting or creating
      the mirror Vostro client and setting its balance in that currency to 0
      when it is not 0 already. The checks up to the existing-nostro test
      change nothing; the code runs outside a transaction, so a later error
      keeps the writes made before it. */
  method CreateNostroWithMirrorVostro(db: Store.Database, owner: BankId, corr: BankId, createdAtMs: int)
    returns (r: Result<Nostro>)
    requires db.Valid()
    modifies db`counters, db`clients, db`balances, db`nostros
    ensures db.Valid()
    ensures Mirrored(old(db.clients), old(db.balances), old(db.nostros)) ==> Mirrored(db.clients, db.balances, db.nostros)
    ensures owner !in db.banks || corr !in db.banks ==> r == Err(BankNotFound)
    ensures (owner in db.banks && corr in db.banks && db.banks[corr].baseCurrency == db.banks[owner].baseCurrency)
            ==> r == Err(NostroInOwnBaseCurrency)
    ensures (owner in db.banks && corr in db.banks && db.banks[corr].baseCurrency != db.banks[owner].baseCurrency
             && (owner, db.banks[corr].baseCurrency) in old(db.nostros))
            ==> r == Err(NostroAlreadyExists(db.banks[corr].baseCurrency))
    ensures (owner !in db.banks || corr !in db.banks || db.banks[corr].baseCurrency == db.banks[owner].baseCurrency
             || (owner, db.banks[corr].baseCurrency) in old(db.nostros))
            ==> db.clients == old(db.clients) && db.balances == old(db.balances)
                && db.nostros == old(db.nostros) && db.counters == old(db.counters)
    ensures (owner in db.banks && corr in db.banks && db.banks[corr].baseCurrency != db.banks[owner].baseCurrency
             && (owner, db.banks[corr].baseCurrency) !in old(db.nostros))
            ==> Opened(old(db.clients), old(db.balances), old(db.nostros), old(db.counters),
                       db.clients, db.balances, db.nostros, db.counters,
                       owner, corr, db.banks[corr].baseCurrency, createdAtMs, r)
  {
    if owner !in db.banks || corr !in db.banks {
      return Err(BankNotFound);
    }
    var cur := db.banks[corr].baseCurrency;
    if cur == db.banks[owner].baseCurrency {
      return Err(NostroInOwnBaseCurrency);
    }
    if (owner, cur) in db.nostros {
      return Err(NostroAlreadyExists(cur));
    }
    r := OpenNostro(db, owner, corr, cur, createdAtMs);
  }

  /** The writes of `createNostroWithMirrorVostro` once its checks have passed. */
  method OpenNostro(db: Store.Database, owner: BankId, corr: BankId, cur: Currency, createdAtMs: int)
    returns (r: Result<Nostro>)
    requires db.Valid()
    requires owner in db.banks && corr in db.banks
    requires cur == db.banks[corr].baseCurrency && cur != db.banks[owner].baseCurrency
    requires (owner, cur) !in db.nostros
    modifies db`counters, db`clients, db`balances, db`nostros
    ensures db.Valid()
    ensures Mirrored(old(db.clients), old(db.balances), old(db.nostros)) ==> Mirrored(db.clients, db.balances, db.nostros)
    ensures Opened(old(db.clients), old(db.balances), old(db.nostros), old(db.counters),
                   db.clients, db.balances, db.nostros, db.counters, owner, corr, cur, createdAtMs, r)
  {
    ghost var clients0, balances0, counters0 := db.clients, db.balances, db.counters;
    var vr := MirrorClient(db, corr, owner, createdAtMs);
    if vr.Err? {
      return Err(vr.error);
    }
    ghost var counters1 := db.counters;
    var id := Store.NextId(db, "nostro", "NOS_");
    if exists k :: k in db.nostros && db.nostros[k].id == id {
      return Err(DuplicateKey);
    }
    var n := Nostro(id, owner, corr, cur, 0, createdAtMs);
    ghost var counters2 := db.counters;
    InsertZeroNostro(db, n, vr.value);
    assert MirrorZeroed(balances0, db.balances, counters2, db.counters, vr.value, cur);
    r := Ok(n);
  }

  /** The mirror Vostro client at `corr` for `owner`, got or created; adding
      it keeps every existing mirror in place. */
  method MirrorClient(db: Store.Database, corr: BankId, owner: BankId, createdAtMs: int) returns (r: Result<ClientId>)
    requires db.Valid()
    modifies db`counters, db`clients
    ensures db.Valid()
    ensures Mirrored(old(db.clients), db.balances, db.nostros) ==> Mirrored(db.clients, db.balances, db.nostros)
    ensures db.counters == MirrorCounters(old(db.clients), old(db.counters), corr, owner)
    ensures r.Ok? <==> || (exists c :: VostroOf(old(db.clients), c, corr, owner))
                       || (Store.IdText("VOSTRO_", Store.CounterValue(old(db.counters), "vostro_client")) !in old(db.clients)
                           && corr in db.banks)
    ensures r.Ok? ==> MirrorGot(old(db.clients), old(db.counters), db.clients, corr, owner, createdAtMs, r.value)
                      && VostroOf(db.clients, r.value, corr, owner)
    ensures r.Err? ==> db.clients == old(db.clients) && forall c :: !VostroOf(old(db.clients), c, corr, owner)
  {
    ghost var clients0 := db.clients;
    var vr := GetOrCreateVostroClient(db, corr, owner, createdAtMs);
    if vr.Err? {
      return Err(vr.error);
    }
    if Mirrored(clients0, db.balances, db.nostros) && clients0 != db.clients {
      MirroredAfterClientInsert(clients0, db.balances, db.nostros, vr.value);
    }
    r := Ok(vr.value.id);
  }

  /** Inserts the zero nostro `n` and brings its mirror's balance in the
      nostro's currency to zero when it is not zero already. */
  method InsertZeroNostro(db: Store.Database, n: Nostro, v: ClientId)
    requires db.Valid()
    requires Store.NostroRowValid(db.banks, (n.ownerBankId, n.currency), n) && n.balance == 0
    requires (n.ownerBankId, n.currency) !in db.nostros
    requires VostroOf(db.clients, v, n.correspondentBankId, n.ownerBankId)
    modifies db`counters, db`balances, db`nostros
    ensures db.Valid()
    ensures db.nostros == old(db.nostros)[(n.ownerBankId, n.currency) := n]
    ensures MirrorZeroed(old(db.balances), db.balances, old(db.counters), db.counters, v, n.currency)
    ensures ClientBalance(db.balances, v, n.currency) == 0
    ensures Mirrored(db.clients, old(db.balances), old(db.nostros)) ==> Mirrored(db.clients, db.balances, db.nostros)
  {
    ghost var balances0, nostros0 := db.balances, db.nostros;
    NewNostroKeepsTables(db.banks, db.clients, db.balances, db.nostros, db.payments, n);
    db.nostros := db.nostros[(n.ownerBankId, n.currency) := n];
    if ClientBalance(db.balances, v, n.currency) != 0 {
      var o := SetClientBalance(db, v, n.currency, 0.0);
    }
    if Mirrored(db.clients, balances0, nostros0) {
      NewNostroKeepsMirror(db.banks, db.clients, balances0, db.balances, nostros0, n, v);
    }
  }

  /** Inserting a nostro row that satisfies the row rule keeps the tables valid. */
  lemma NewNostroKeepsTables(
    banks: map<BankId, Bank>, clients: map<ClientId, Client>, balances: Balances,
    nostros: Nostros, payments: map<PaymentId, Payment>, n: Nostro)
    requires Store.TablesValid(banks, clients, balances, nostros, payments)
    requires Store.NostroRowValid(banks, (n.ownerBankId, n.currency), n)
    ensures Store.TablesValid(banks, clients, balances, nostros[(n.ownerBankId, n.currency) := n], payments)
  {
  }

  /** A new zero nostro whose mirror has been brought to zero keeps mirror
      equality: the mirror's balance in that currency mirrored no other nostro. */
  lemma NewNostroKeepsMirror(
    banks: map<BankId, Bank>, clients: map<ClientId, Client>, balances: Balances, balances': Balances,
    nostros: Nostros, n: Nostro, v: ClientId)
    requires Store.ClientsValid(banks, clients)
    requires forall k :: k in nostros ==> Store.NostroRowValid(banks, k, nostros[k])
    requires Store.NostroRowValid(banks, (n.ownerBankId, n.currency), n) && n.balance == 0
    requires (n.ownerBankId, n.currency) !in nostros
    requires VostroOf(clients, v, n.correspondentBankId, n.ownerBankId)
    requires balances' == balances || balances' == balances[(v, n.currency) := 0]
    requires ClientBalance(balances', v, n.currency) == 0
    requires Mirrored(clients, balances, nostros)
    ensures Mirrored(clients, balances', nostros[(n.ownerBankId, n.currency) := n])
  {
    var nostros' := nostros[(n.ownerBankId, n.currency) := n];
    forall k | k in nostros'
      ensures MirrorHolds(clients, balances', nostros'[k])
    {
      if k == (n.ownerBankId, n.currency) {
        assert VostroOf(clients, v, n.correspondentBankId, n.ownerBankId) && ClientBalance(balances', v, n.currency) == 0;
      } else {
        var m := nostros[k];
        var w :| VostroOf(clients, w, m.correspondentBankId, m.ownerBankId) && ClientBalance(balances, w, m.currency) == m.balance;
        if w == v {
          MirrorOfOneNostro(banks, clients, nostros, k, v, n.ownerBankId, n.correspondentBankId, n.currency);
        }
        assert ClientBalance(balances', w, m.currency) == m.balance;
      }
    }
  }
}
