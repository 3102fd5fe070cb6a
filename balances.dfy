/** Moving a Regular client's balance (balances.js). In a foreign currency the
    bank's nostro and the mirror Vostro client at the correspondent move by the
    same delta, so the full-reserve rule keeps holding; the client-only
    variant moves the client alone. */
module Balances {
  import opened Failures
  import opened Schema
  import opened Money
  import opened Ordering
  import opened Accounts
  import opened Invariants
  import opened NostroVostro
  import Store

  /** The balance and nostro tables after a step, its outcome, and how many
      balance row ids the step drew. */
  datatype Step = Step(outcome: Outcome, balances: Balances, nostros: Nostros, balanceIds: nat)

  /** The client half shared by both operations: the availability check, the
      Regular-only check, the funds check, then the client's new balance. */
  function ClientPart(banks: map<BankId, Bank>, clients: map<ClientId, Client>, balances: Balances, nostros: Nostros,
                      cid: ClientId, cur: Currency, delta: real): Step
  {
    var check := ValidateClientCurrencyAvailability(clients, banks, nostros, cid, cur);
    if check.Fail? then Step(check, balances, nostros, 0)
    else if !clients[cid].kind.Regular? then Step(Fail(OnlyRegularClients), balances, nostros, 0)
    else
      var newBal := CentsToReal(ClientBalance(balances, cid, cur)) + delta;
      if newBal < 0.0 then Step(Fail(InsufficientFunds), balances, nostros, 0)
      else Step(Pass, balances[(cid, cur) := Quantize(newBal)], nostros, 1)
  }

  /** The nostro half of `applyRegularClientDelta`, on the tables the client
      half left: the paired nostro and mirror move, then the full-reserve check. */
  function ForeignPart(banks: map<BankId, Bank>, clients: map<ClientId, Client>, balances: Balances, nostros: Nostros,
                             bankId: BankId, cur: Currency, delta: real): Step
    requires (bankId, cur) in nostros
  {
    match Adjusted(clients, balances, nostros, bankId, nostros[(bankId, cur)].correspondentBankId, cur, delta)
    case Err(e) => Step(Fail(e), balances, nostros, 0)
    case Ok(tables) =>
      Step(ValidateForeignCurrencyInvariant(banks, clients, tables.0, tables.1, bankId, cur), tables.0, tables.1, 1)
  }

  /** What `applyRegularClientDelta` leaves behind. A failure after the
      client's write keeps that write: the caller's transaction undoes it. */
  function Applied(banks: map<BankId, Bank>, clients: map<ClientId, Client>, balances: Balances, nostros: Nostros,
                         cid: ClientId, cur: Currency, delta: real): Step
  {
    var first := ClientPart(banks, clients, balances, nostros, cid, cur, delta);
    if first.outcome.Fail? || cur == banks[clients[cid].bankId].baseCurrency then first
    else
      var rest := ForeignPart(banks, clients, first.balances, nostros, clients[cid].bankId, cur, delta);
      rest.(balanceIds := rest.balanceIds + 1)
  }

  /** The balance ids the two halves draw add up to those `Applied` counts. */
  lemma AppliedCounters(banks: map<BankId, Bank>, clients: map<ClientId, Client>, balances: Balances, nostros: Nostros,
                        counters: map<string, nat>, cid: ClientId, cur: Currency, delta: real)
    ensures var first := ClientPart(banks, clients, balances, nostros, cid, cur, delta);
            first.outcome.Pass? && cur != banks[clients[cid].bankId].baseCurrency ==>
              && (clients[cid].bankId, cur) in nostros
              && var rest := ForeignPart(banks, clients, first.balances, nostros, clients[cid].bankId, cur, delta);
                 Store.BumpedTimes(Store.BumpedTimes(counters, "balance", first.balanceIds), "balance", rest.balanceIds)
                 == Store.BumpedTimes(counters, "balance", Applied(banks, clients, balances, nostros, cid, cur, delta).balanceIds)
  {
    var first := ClientPart(banks, clients, balances, nostros, cid, cur, delta);
    AppliedShape(banks, clients, balances, nostros, cid, cur, delta);
    ClientPartCases(banks, clients, balances, nostros, cid, cur, delta);
    if first.outcome.Pass? && cur != banks[clients[cid].bankId].baseCurrency {
      var rest := ForeignPart(banks, clients, first.balances, nostros, clients[cid].bankId, cur, delta);
      Store.BumpedOnceMore(counters, "balance", rest.balanceIds);
    }
  }

  /** `Applied` as the two halves the code runs one after the other. */
  lemma AppliedShape(banks: map<BankId, Bank>, clients: map<ClientId, Client>, balances: Balances, nostros: Nostros,
                     cid: ClientId, cur: Currency, delta: real)
    ensures var first := ClientPart(banks, clients, balances, nostros, cid, cur, delta);
            var a := Applied(banks, clients, balances, nostros, cid, cur, delta);
            && first.nostros == nostros
            && (first.outcome.Pass? ==> cid in clients && clients[cid].bankId in banks)
            && (first.outcome.Fail? ==> a == first)
            && (first.outcome.Pass? && cur == banks[clients[cid].bankId].baseCurrency ==> a == first)
            && (first.outcome.Pass? && cur != banks[clients[cid].bankId].baseCurrency ==>
                  && (clients[cid].bankId, cur) in nostros
                  && var rest := ForeignPart(banks, clients, first.balances, nostros, clients[cid].bankId, cur, delta);
                     a == rest.(balanceIds := rest.balanceIds + 1))
  {
  }

  /** The checks of the client half, in the order the code makes them. */
  lemma ClientPartCases(banks: map<BankId, Bank>, clients: map<ClientId, Client>, balances: Balances, nostros: Nostros,
                        cid: ClientId, cur: Currency, delta: real)
    ensures var s := ClientPart(banks, clients, balances, nostros, cid, cur, delta);
            && (!MayHold(clients, banks, nostros, cid, cur) ==>
                  s.outcome == ValidateClientCurrencyAvailability(clients, banks, nostros, cid, cur))
            && (MayHold(clients, banks, nostros, cid, cur) && !clients[cid].kind.Regular? ==>
                  s.outcome == Fail(OnlyRegularClients))
            && (MayHold(clients, banks, nostros, cid, cur) && clients[cid].kind.Regular? ==>
                  (s.outcome.Pass? <==> CentsToReal(ClientBalance(balances, cid, cur)) + delta >= 0.0))
            && (MayHold(clients, banks, nostros, cid, cur) && clients[cid].kind.Regular?
                && CentsToReal(ClientBalance(balances, cid, cur)) + delta < 0.0 ==>
                  s.outcome == Fail(InsufficientFunds))
  {
  }

  /** What the client half writes: nothing on a failed check, exactly the
      client's row at 2 dp when the checks pass. */
  lemma ClientPartWrites(banks: map<BankId, Bank>, clients: map<ClientId, Client>, balances: Balances, nostros: Nostros,
                         cid: ClientId, cur: Currency, delta: real)
    ensures var s := ClientPart(banks, clients, balances, nostros, cid, cur, delta);
            && s.nostros == nostros
            && (s.outcome.Fail? ==> s.balances == balances && s.balanceIds == 0)
            && (s.outcome.Pass? ==>
                  && MayHold(clients, banks, nostros, cid, cur) && clients[cid].kind.Regular?
                  && s.balanceIds == 1
                  && s.balances == balances[(cid, cur) := Quantize(CentsToReal(ClientBalance(balances, cid, cur)) + delta)]
                  && ClientBalance(s.balances, cid, cur) >= 0)
  {
    var newBal := CentsToReal(ClientBalance(balances, cid, cur)) + delta;
    QuantizeSign(newBal);
  }

  /** Both halves keep the tables valid and mirror equality, whatever the outcome. */
  lemma AppliedKeepsInvariants(
    banks: map<BankId, Bank>, clients: map<ClientId, Client>, balances: Balances, nostros: Nostros,
    payments: map<PaymentId, Payment>, cid: ClientId, cur: Currency, delta: real)
    requires Store.TablesValid(banks, clients, balances, nostros, payments)
    ensures var s := ClientPart(banks, clients, balances, nostros, cid, cur, delta);
            && Store.TablesValid(banks, clients, s.balances, s.nostros, payments)
            && (Mirrored(clients, balances, nostros) ==> Mirrored(clients, s.balances, s.nostros))
    ensures var s := Applied(banks, clients, balances, nostros, cid, cur, delta);
            && Store.TablesValid(banks, clients, s.balances, s.nostros, payments)
            && (Mirrored(clients, balances, nostros) ==> Mirrored(clients, s.balances, s.nostros))
  {
    var first := ClientPart(banks, clients, balances, nostros, cid, cur, delta);
    ClientPartWrites(banks, clients, balances, nostros, cid, cur, delta);
    if first.outcome.Pass? {
      var q := ClientBalance(first.balances, cid, cur);
      BalanceWriteValid(banks, clients, balances, nostros, payments, cid, cur, q);
      if Mirrored(clients, balances, nostros) {
        MirroredAfterOtherWrite(clients, balances, nostros, cid, cur, q);
      }
      var bankId := clients[cid].bankId;
      if cur != banks[bankId].baseCurrency {
        var corr := nostros[(bankId, cur)].correspondentBankId;
        if Adjusted(clients, first.balances, nostros, bankId, corr, cur, delta).Ok? {
          AdjustedKeepsInvariants(banks, clients, first.balances, nostros, payments, bankId, corr, cur, delta);
        }
      }
    }
  }

  /** With the tables valid and mirrored, a delta that passes the client
      checks also passes the nostro step and the full-reserve check, provided
      the bank's reserve in that currency held before. */
  lemma AppliedPassesUnderReserve(
    banks: map<BankId, Bank>, clients: map<ClientId, Client>, balances: Balances, nostros: Nostros,
    payments: map<PaymentId, Payment>, cid: ClientId, cur: Currency, delta: real)
    requires Store.TablesValid(banks, clients, balances, nostros, payments)
    requires Mirrored(clients, balances, nostros)
    requires ClientPart(banks, clients, balances, nostros, cid, cur, delta).outcome.Pass?
    requires cid in clients && clients[cid].bankId in banks
    requires FullReserve(banks, clients, balances, nostros, clients[cid].bankId, cur)
    ensures Applied(banks, clients, balances, nostros, cid, cur, delta).outcome == Pass
  {
    ClientPartWrites(banks, clients, balances, nostros, cid, cur, delta);
    AppliedShape(banks, clients, balances, nostros, cid, cur, delta);
    var bankId := clients[cid].bankId;
    if cur != banks[bankId].baseCurrency {
      var n := nostros[(bankId, cur)];
      assert MirrorHolds(clients, balances, n);
      var v := HopMirror(banks, clients, balances, n);
      // the nostro holds the clients' total, which is at least this client's balance
      ReserveCoversMember(clients, balances, bankId, cur, cid);
      MemberWritePasses(banks, clients, balances, nostros, bankId, cur, cid, v, delta);
    }
  }

  /** The nostro half after a reserve member's write, when the mirror and the
      client total both match the nostro before it: the full-reserve check passes. */
  lemma MemberWritePasses(banks: map<BankId, Bank>, clients: map<ClientId, Client>, balances: Balances, nostros: Nostros,
                          bankId: BankId, cur: Currency, cid: ClientId, v: ClientId, delta: real)
    requires Store.ClientsValid(banks, clients)
    requires bankId in banks && (bankId, cur) in nostros && nostros[(bankId, cur)].ownerBankId == bankId
    requires ReserveMember(clients, bankId, cid)
    requires VostroOf(clients, v, nostros[(bankId, cur)].correspondentBankId, bankId)
    requires ClientBalance(balances, v, cur) == nostros[(bankId, cur)].balance
    requires ClientTotal(clients, balances, bankId, cur) == nostros[(bankId, cur)].balance
    requires ClientTotal(clients, balances, bankId, cur) >= ClientBalance(balances, cid, cur)
    requires CentsToReal(ClientBalance(balances, cid, cur)) + delta >= 0.0
    ensures var q := Quantize(CentsToReal(ClientBalance(balances, cid, cur)) + delta);
            ForeignPart(banks, clients, balances[(cid, cur) := q], nostros, bankId, cur, delta).outcome == Pass
  {
    var n := nostros[(bankId, cur)];
    CentsToRealMonotone(ClientBalance(balances, cid, cur), n.balance);
    var q := Quantize(CentsToReal(ClientBalance(balances, cid, cur)) + delta);
    var w := Quantize(CentsToReal(n.balance) + delta);
    PairedDeltaReserve(clients, balances, bankId, cur, cid, v, n.balance, delta, w);
    assert v != cid;
    ForeignPartPasses(banks, clients, balances[(cid, cur) := q], nostros, bankId, cur, v, delta);
  }

  /** The nostro half after a member's write to `balances`, when the mirror
      matches the nostro and the client total after the paired writes
      matches the nostro's new balance: the full-reserve check passes. */
  lemma ForeignPartPasses(banks: map<BankId, Bank>, clients: map<ClientId, Client>, balances: Balances, nostros: Nostros,
                          bankId: BankId, cur: Currency, v: ClientId, delta: real)
    requires Store.ClientsValid(banks, clients)
    requires bankId in banks && (bankId, cur) in nostros && nostros[(bankId, cur)].ownerBankId == bankId
    requires VostroOf(clients, v, nostros[(bankId, cur)].correspondentBankId, bankId)
    requires ClientBalance(balances, v, cur) == nostros[(bankId, cur)].balance
    requires CentsToReal(nostros[(bankId, cur)].balance) + delta >= 0.0
    requires var w := Quantize(CentsToReal(nostros[(bankId, cur)].balance) + delta);
             ClientTotal(clients, balances[(v, cur) := w], bankId, cur) == w
    ensures ForeignPart(banks, clients, balances, nostros, bankId, cur, delta).outcome == Pass
  {
    var n := nostros[(bankId, cur)];
    ForeignPartOk(banks, clients, balances, nostros, bankId, cur, delta, v, n.balance);
  }

  /** The nostro half when both balances stay non-negative: the mirror and
      the nostro both move by `delta`, then the full-reserve check decides. */
  lemma ForeignPartOk(banks: map<BankId, Bank>, clients: map<ClientId, Client>, balances: Balances, nostros: Nostros,
                      bankId: BankId, cur: Currency, delta: real, v: ClientId, mirror: Cents)
    requires Store.ClientsValid(banks, clients)
    requires (bankId, cur) in nostros && nostros[(bankId, cur)].ownerBankId == bankId
    requires VostroOf(clients, v, nostros[(bankId, cur)].correspondentBankId, bankId)
    requires ClientBalance(balances, v, cur) == mirror
    requires CentsToReal(nostros[(bankId, cur)].balance) + delta >= 0.0
    requires CentsToReal(mirror) + delta >= 0.0
    ensures var n := nostros[(bankId, cur)];
            var balances' := balances[(v, cur) := Quantize(CentsToReal(mirror) + delta)];
            var nostros' := nostros[(bankId, cur) := n.(balance := Quantize(CentsToReal(n.balance) + delta))];
            ForeignPart(banks, clients, balances, nostros, bankId, cur, delta)
            == Step(ValidateForeignCurrencyInvariant(banks, clients, balances', nostros', bankId, cur), balances', nostros', 1)
  {
    var n := nostros[(bankId, cur)];
    VostroUnique(banks, clients, v, TheVostro(clients, n.correspondentBankId, bankId), n.correspondentBankId, bankId);
    AdjustedCases(clients, balances, nostros, bankId, n.correspondentBankId, cur, delta);
  }

  /** The mirror Vostro client of a nostro, which holds the nostro's balance. */
  lemma HopMirror(banks: map<BankId, Bank>, clients: map<ClientId, Client>, balances: Balances, n: Nostro)
    returns (v: ClientId)
    requires Store.ClientsValid(banks, clients)
    requires MirrorHolds(clients, balances, n)
    ensures VostroOf(clients, v, n.correspondentBankId, n.ownerBankId)
    ensures v == TheVostro(clients, n.correspondentBankId, n.ownerBankId)
    ensures ClientBalance(balances, v, n.currency) == n.balance
  {
    v :| VostroOf(clients, v, n.correspondentBankId, n.ownerBankId) && ClientBalance(balances, v, n.currency) == n.balance;
    VostroUnique(banks, clients, v, TheVostro(clients, n.correspondentBankId, n.ownerBankId), n.correspondentBankId, n.ownerBankId);
  }

  /** The arithmetic of a paired move: when a member's balance and the nostro
      both move by `delta` and stay non-negative, a total that matched the
      nostro before matches it after; a Vostro client's row does not count. */
  lemma PairedDeltaReserve(clients: map<ClientId, Client>, balances: Balances, bankId: BankId, cur: Currency,
                           cid: ClientId, v: ClientId, total: Cents, delta: real, w: int)
    requires ReserveMember(clients, bankId, cid) && v in clients && clients[v].kind.Vostro?
    requires ClientTotal(clients, balances, bankId, cur) == total
    requires CentsToReal(ClientBalance(balances, cid, cur)) + delta >= 0.0 && CentsToReal(total) + delta >= 0.0
    ensures var q := Quantize(CentsToReal(ClientBalance(balances, cid, cur)) + delta);
            ClientTotal(clients, balances[(cid, cur) := q][(v, cur) := w], bankId, cur) == Quantize(CentsToReal(total) + delta)
  {
    var k := ClientBalance(balances, cid, cur);
    var q := Quantize(CentsToReal(k) + delta);
    QuantizeShift(k, delta);
    QuantizeShift(total, delta);
    ClientTotalShift(clients, balances, bankId, cur, cid, q);
    ClientTotalUntouched(clients, balances[(cid, cur) := q], bankId, cur, v, cur, w);
  }

  /** A successful delta keeps the full-reserve rule of every bank and currency that had it. */
  lemma AppliedKeepsReserve(
    banks: map<BankId, Bank>, clients: map<ClientId, Client>, balances: Balances, nostros: Nostros,
    cid: ClientId, cur: Currency, delta: real, b: BankId, c: Currency)
    requires Applied(banks, clients, balances, nostros, cid, cur, delta).outcome.Pass?
    requires b in banks && FullReserve(banks, clients, balances, nostros, b, c)
    ensures var s := Applied(banks, clients, balances, nostros, cid, cur, delta);
            FullReserve(banks, clients, s.balances, s.nostros, b, c)
  {
    ClientPartWrites(banks, clients, balances, nostros, cid, cur, delta);
    var first := ClientPart(banks, clients, balances, nostros, cid, cur, delta);
    var bankId := clients[cid].bankId;
    if (b, c) != (bankId, cur) && c != banks[b].baseCurrency {
      var q := ClientBalance(first.balances, cid, cur);
      ClientTotalUntouched(clients, balances, b, c, cid, cur, q);
      if cur != banks[bankId].baseCurrency {
        var corr := nostros[(bankId, cur)].correspondentBankId;
        AdjustedCases(clients, first.balances, nostros, bankId, corr, cur, delta);
        var v := TheVostro(clients, corr, bankId);
        var tables := Adjusted(clients, first.balances, nostros, bankId, corr, cur, delta).value;
        ClientTotalUntouched(clients, first.balances, b, c, v, cur, ClientBalance(tables.0, v, cur));
      }
    }
  }

  /** The client-only variant moves the bank's client total by the client's
      change while the nostro stays where it was. */
  lemma ClientOnlyShiftsReserve(
    banks: map<BankId, Bank>, clients: map<ClientId, Client>, balances: Balances, nostros: Nostros,
    cid: ClientId, cur: Currency, delta: real)
    requires ClientPart(banks, clients, balances, nostros, cid, cur, delta).outcome.Pass?
    ensures var s := ClientPart(banks, clients, balances, nostros, cid, cur, delta);
            var bankId := clients[cid].bankId;
            && s.nostros == nostros
            && ClientTotal(clients, s.balances, bankId, cur)
               == ClientTotal(clients, balances, bankId, cur) + ClientBalance(s.balances, cid, cur) - ClientBalance(balances, cid, cur)
  {
    ClientPartWrites(banks, clients, balances, nostros, cid, cur, delta);
    var s := ClientPart(banks, clients, balances, nostros, cid, cur, delta);
    ClientTotalShift(clients, balances, clients[cid].bankId, cur, cid, ClientBalance(s.balances, cid, cur));
  }

  /** `applyRegularClientDeltaClientOnly`. */
  method ApplyRegularClientDeltaClientOnly(db: Store.Database, cid: ClientId, cur: Currency, delta: real)
    returns (o: Outcome)
    requires db.Valid()
    modifies db`counters, db`balances
    ensures var s := ClientPart(db.banks, db.clients, old(db.balances), db.nostros, cid, cur, delta);
            && o == s.outcome && db.balances == s.balances
            && db.counters == Store.BumpedTimes(old(db.counters), "balance", s.balanceIds)
    ensures db.Valid()
    ensures Mirrored(db.clients, old(db.balances), db.nostros) ==> Mirrored(db.clients, db.balances, db.nostros)
  {
    o := ClientStep(db, cid, cur, delta);
  }

  /** The client half as the code runs it. */
  method ClientStep(db: Store.Database, cid: ClientId, cur: Currency, delta: real) returns (o: Outcome)
    requires db.Valid()
    modifies db`counters, db`balances
    ensures var s := ClientPart(db.banks, db.clients, old(db.balances), db.nostros, cid, cur, delta);
            && o == s.outcome && db.balances == s.balances
            && db.counters == Store.BumpedTimes(old(db.counters), "balance", s.balanceIds)
    ensures o.Pass? ==> MayHold(db.clients, db.banks, db.nostros, cid, cur) && db.clients[cid].kind.Regular?
    ensures db.Valid()
    ensures Mirrored(db.clients, old(db.balances), db.nostros) ==> Mirrored(db.clients, db.balances, db.nostros)
  {
    var check := ValidateClientCurrencyAvailability(db.clients, db.banks, db.nostros, cid, cur);
    if check.Fail? {
      return check;
    }
    // the availability check has found the client, so the code's own
    // "Client not found" test after it never fires
    if !db.clients[cid].kind.Regular? {
      return Fail(OnlyRegularClients);
    }
    var newBal := CentsToReal(ClientBalance(db.balances, cid, cur)) + delta;
    if newBal < 0.0 {
      return Fail(InsufficientFunds);
    }
    QuantizeSign(newBal);
    if Mirrored(db.clients, db.balances, db.nostros) {
      MirroredAfterOtherWrite(db.clients, db.balances, db.nostros, cid, cur, Quantize(newBal));
    }
    o := SetClientBalance(db, cid, cur, newBal);
  }

  /** `applyRegularClientDelta`. */
  method ApplyRegularClientDelta(db: Store.Database, cid: ClientId, cur: Currency, delta: real)
    returns (o: Outcome)
    requires db.Valid()
    modifies db`counters, db`balances, db`nostros
    ensures var s := Applied(db.banks, db.clients, old(db.balances), old(db.nostros), cid, cur, delta);
            && o == s.outcome && db.balances == s.balances && db.nostros == s.nostros
            && db.counters == Store.BumpedTimes(old(db.counters), "balance", s.balanceIds)
    ensures db.Valid()
    ensures Mirrored(db.clients, old(db.balances), old(db.nostros)) ==> Mirrored(db.clients, db.balances, db.nostros)
  {
    ghost var balances0, nostros0 := db.balances, db.nostros;
    o := ClientStep(db, cid, cur, delta);
    // the availability check has found the bank, and for a Regular client in
    // a foreign currency the bank's nostro, so the code's "Bank not found" and
    // "Missing Nostro" tests after the write never fire
    if o.Pass? && cur != db.banks[db.clients[cid].bankId].baseCurrency {
      o := ForeignStep(db, db.clients[cid].bankId, cur, delta);
    }
    AppliedShape(db.banks, db.clients, balances0, nostros0, cid, cur, delta);
    AppliedCounters(db.banks, db.clients, balances0, nostros0, old(db.counters), cid, cur, delta);
  }

  /** The nostro half as the code runs it. */
  method ForeignStep(db: Store.Database, bankId: BankId, cur: Currency, delta: real) returns (o: Outcome)
    requires db.Valid()
    requires (bankId, cur) in db.nostros
    modifies db`counters, db`balances, db`nostros
    ensures var s := ForeignPart(db.banks, db.clients, old(db.balances), old(db.nostros), bankId, cur, delta);
            && o == s.outcome && db.balances == s.balances && db.nostros == s.nostros
            && db.counters == Store.BumpedTimes(old(db.counters), "balance", s.balanceIds)
    ensures db.Valid()
    ensures Mirrored(db.clients, old(db.balances), old(db.nostros)) ==> Mirrored(db.clients, db.balances, db.nostros)
  {
    ghost var balances0, nostros0 := db.balances, db.nostros;
    var corr := db.nostros[(bankId, cur)].correspondentBankId;
    o := AdjustNostroAndMirrorVostro(db, bankId, corr, cur, delta);
    if o.Fail? {
      return;
    }
    AdjustedKeepsInvariants(db.banks, db.clients, balances0, nostros0, db.payments, bankId, corr, cur, delta);
    o := ValidateForeignCurrencyInvariant(db.banks, db.clients, db.balances, db.nostros, bankId, cur);
  }
}
