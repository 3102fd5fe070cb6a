/** The tick driver (engine.js, `processQueued`): on each tick, scan the
    QUEUED payments oldest first and execute the first one that may settle
    now; a payment within one bank always may, any other only while its
    settlement currency's market is open. One payment per tick at most. */
module Engine {
  import opened Failures
  import opened Schema
  import opened Ordering
  import opened Clearing
  import opened Payments
  import opened Execution
  import Store
  import Fx

  function CreatedAt(p: Payment): int
  {
    p.createdAtMs
  }

  /** The rows of the payments table, each once, in id order. */
  function Rows(payments: map<PaymentId, Payment>): (r: seq<Payment>)
    ensures forall p :: p in r <==> p in payments.Values
    ensures |r| == |payments|
  {
    var ids := SortedList(payments.Keys);
    var r := seq(|ids|, i requires 0 <= i < |ids| => payments[ids[i]]);
    assert forall p :: p in payments.Values ==> p in r by {
      forall p | p in payments.Values
        ensures p in r
      {
        var id :| id in payments && payments[id] == p;
        var i :| 0 <= i < |ids| && ids[i] == id;
        assert r[i] == p;
      }
    }
    assert |r| == |payments| by {
      assert |payments.Keys| == |payments|;
    }
    r
  }

  /** In a payments table whose rows carry their own id, `Rows` lists each
      row once: no two positions hold the same payment. */
  lemma RowsOnce(payments: map<PaymentId, Payment>)
    requires forall id :: id in payments ==> payments[id].id == id
    ensures forall i, j :: 0 <= i < j < |Rows(payments)| ==> Rows(payments)[i] != Rows(payments)[j]
  {
    var ids := SortedList(payments.Keys);
    var r := Rows(payments);
    forall i, j | 0 <= i < j < |r|
      ensures r[i] != r[j]
    {
      assert r[i] == payments[ids[i]] && r[j] == payments[ids[j]];
      assert r[i].id == ids[i] && r[j].id == ids[j];
    }
  }

  /** The QUEUED rows among `rows`, in their order. */
  function QueuedOf(rows: seq<Payment>): (r: seq<Payment>)
    ensures forall p :: p in r <==> p in rows && p.state == Queued
    ensures |r| <= |rows|
  {
    if rows == [] then []
    else (if rows[0].state == Queued then [rows[0]] else []) + QueuedOf(rows[1..])
  }

  /** The scan order of `processQueued`: the QUEUED payments in ascending
      creation time. */
  function Queue(payments: map<PaymentId, Payment>): (r: seq<Payment>)
    ensures AscendingBy(r, CreatedAt)
    ensures forall p :: p in r <==> p in payments.Values && p.state == Queued
  {
    var queued := QueuedOf(Rows(payments));
    var r := SortByInt(queued, CreatedAt);
    assert forall p :: p in r <==> p in multiset(queued);
    r
  }

  /** Whether a queued payment may run now: always within one bank,
      otherwise the clearing-hours answer for its settlement currency, which
      is an error when that currency has no clearing hours. */
  function Eligibility(hours: map<Currency, ClearingWindow>, p: Payment, simTimeMs: int): Result<bool>
  {
    if p.fromBankId == p.toBankId then Ok(true)
    else IsWithinClearingHours(hours, p.settlementCurrency, simTimeMs)
  }

  /** The scan from position `i`: the position of the first payment that
      may run, none, or the error the clearing-hours check throws. */
  function Scan(hours: map<Currency, ClearingWindow>, queue: seq<Payment>, simTimeMs: int, i: nat): Result<Option<nat>>
    decreases |queue| - i
  {
    if i >= |queue| then Ok(None)
    else match Eligibility(hours, queue[i], simTimeMs)
      case Err(e) => Err(e)
      case Ok(true) => Ok(Some(i))
      case Ok(false) => Scan(hours, queue, simTimeMs, i + 1)
  }

  /** The scan decides on the first payment `k` that is not skipped: it
      picks it when it may run and stops with the error when its check
      throws. Skipped payments never block a later one. */
  lemma {:induction false} ScanFindsFirst(hours: map<Currency, ClearingWindow>, queue: seq<Payment>, simTimeMs: int,
                                          i: nat, k: nat)
    requires i <= k < |queue|
    requires forall j :: i <= j < k ==> Eligibility(hours, queue[j], simTimeMs) == Ok(false)
    requires Eligibility(hours, queue[k], simTimeMs) != Ok(false)
    ensures Scan(hours, queue, simTimeMs, i)
            == match Eligibility(hours, queue[k], simTimeMs)
               case Err(e) => Err(e)
               case Ok(_) => Ok(Some(k))
    decreases k - i
  {
    if i < k {
      ScanFindsFirst(hours, queue, simTimeMs, i + 1, k);
    }
  }

  /** When every payment from `i` on is skipped, there is nothing to run. */
  lemma {:induction false} ScanFindsNone(hours: map<Currency, ClearingWindow>, queue: seq<Payment>, simTimeMs: int, i: nat)
    requires i <= |queue|
    requires forall j :: i <= j < |queue| ==> Eligibility(hours, queue[j], simTimeMs) == Ok(false)
    ensures Scan(hours, queue, simTimeMs, i) == Ok(None)
    decreases |queue| - i
  {
    if i < |queue| {
      ScanFindsNone(hours, queue, simTimeMs, i + 1);
    }
  }

  /** What the scan returns is one of the cases `ScanFindsFirst` and `ScanFindsNone` name: a
      position that may run with every earlier one skipped, or none with
      every one skipped, or the first check that throws. */
  lemma {:induction false} ScanResult(hours: map<Currency, ClearingWindow>, queue: seq<Payment>, simTimeMs: int, i: nat)
    requires i <= |queue|
    ensures var s := Scan(hours, queue, simTimeMs, i);
            s.Ok? && s.value.Some? ==>
              && i <= s.value.value < |queue|
              && Eligibility(hours, queue[s.value.value], simTimeMs) == Ok(true)
              && forall j :: i <= j < s.value.value ==> Eligibility(hours, queue[j], simTimeMs) == Ok(false)
    ensures var s := Scan(hours, queue, simTimeMs, i);
            s == Ok(None) ==> forall j :: i <= j < |queue| ==> Eligibility(hours, queue[j], simTimeMs) == Ok(false)
    ensures var s := Scan(hours, queue, simTimeMs, i);
            s.Err? ==> exists k :: i <= k < |queue| && Eligibility(hours, queue[k], simTimeMs) == Err(s.error)
    decreases |queue| - i
  {
    if i < |queue| {
      ScanResult(hours, queue, simTimeMs, i + 1);
    }
  }

  /** A tick's execution touches one payment: every other row stays as it
      was, and the picked payment leaves QUEUED, SETTLED or FAILED. */
  lemma TickExecutesOne(banks: map<BankId, Bank>, clients: map<ClientId, Client>, rates: Fx.RateTable,
                        b: Books, p: Payment, at: int)
    requires Sound(banks, clients, b)
    requires p in Queue(b.payments)
    ensures var r := Execution.Execution(banks, clients, rates, b, p.id, at);
            && r.0 == Pass
            && r.1.payments.Keys == b.payments.Keys
            && (forall q :: q in b.payments && q != p.id ==> r.1.payments[q] == b.payments[q])
            && r.1.payments[p.id].state in {Settled, Failed}
  {
    var id :| id in b.payments && b.payments[id] == p;
    ExecutionOutcomes(banks, clients, rates, b, p.id, at);
  }

  /** `processQueued` at wall-clock time `now`: the payment it executed, none,
      or the error the clearing-hours check threw (which the timer loop
      ignores). Only an execution changes the tables. */
  method ProcessQueued(db: Store.Database, now: int) returns (r: Result<Option<PaymentId>>)
    requires db.Valid()
    modifies db`balances, db`nostros, db`counters, db`fxHistory, db`messages, db`payments
    ensures var queue := Queue(old(db.payments));
            var s := Scan(db.clearingHours, queue, db.SimNow(now), 0);
            && (s.Err? ==> r == Err(s.error) && BooksOf(db) == old(BooksOf(db)))
            && (s == Ok(None) ==> r == Ok(None) && BooksOf(db) == old(BooksOf(db)))
            && (s.Ok? && s.value.Some? ==>
                  && s.value.value < |queue|
                  && r == Ok(Some(queue[s.value.value].id))
                  && BooksOf(db) == Execution.Execution(db.banks, db.clients, db.rates, old(BooksOf(db)),
                                              queue[s.value.value].id, db.SimNow(now)).1)
    ensures db.Valid()
  {
    var queue := Queue(db.payments);
    var simNow := db.SimNow(now);
    var s := FirstEligible(db.clearingHours, queue, simNow);
    if s.Err? {
      return Err(s.error);
    }
    if s.value.Some? {
      var id := queue[s.value.value].id;
      var o := ExecutePayment(db, id, now);
      return Ok(Some(id));
    }
    r := Ok(None);
  }

  /** The scan loop of `processQueued`: the first payment of the queue that
      may run, none, or the first clearing-hours error. */
  method FirstEligible(hours: map<Currency, ClearingWindow>, queue: seq<Payment>, simTimeMs: int)
    returns (r: Result<Option<nat>>)
    ensures r == Scan(hours, queue, simTimeMs, 0)
    ensures r.Ok? && r.value.Some? ==> r.value.value < |queue|
  {
    ScanResult(hours, queue, simTimeMs, 0);
    var i := 0;
    while i < |queue|
      invariant 0 <= i <= |queue|
      invariant Scan(hours, queue, simTimeMs, i) == Scan(hours, queue, simTimeMs, 0)
    {
      var eligible := Eligibility(hours, queue[i], simTimeMs);
      if eligible.Err? {
        return Err(eligible.error);
      }
      if eligible.value {
        return Ok(Some(i));
      }
      i := i + 1;
    }
    r := Ok(None);
  }
}
