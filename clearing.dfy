/** The clearing-hours gate (clearing.js): whether a currency's interbank
    market is open at a simulated instant. */
module Clearing {
  import opened Failures
  import opened Schema
  import Config

  const MsPerHour: int := 3600000

  /** `getUTCHours()` of a millisecond timestamp. */
  function UtcHour(simTimeMs: int): (h: int)
    ensures 0 <= h < 24
  {
    (simTimeMs / MsPerHour) % 24
  }

  /** The hour checked: UTC+1 (no summer time), always an hour of the day. */
  function CetHour(simTimeMs: int): (h: int)
    ensures 0 <= h < 24
    ensures h == (UtcHour(simTimeMs) + 1) % 24
  {
    (UtcHour(simTimeMs) + 1) % 24
  }

  /** The hour checked repeats every simulated day. */
  lemma CetHourDaily(simTimeMs: int)
    ensures CetHour(simTimeMs + 24 * MsPerHour) == CetHour(simTimeMs)
  {
    assert (simTimeMs + 24 * MsPerHour) / MsPerHour == simTimeMs / MsPerHour + 24;
  }

  /** The window test: opening hour inclusive, closing hour exclusive, equal
      hours meaning always open, a closing hour before the opening hour
      meaning the window wraps past midnight. */
  predicate IsOpenAt(openHour: int, closeHour: int, hour: int)
  {
    if openHour == closeHour then true
    else if openHour < closeHour then openHour <= hour < closeHour
    else hour >= openHour || hour < closeHour
  }

  /** Length in hours of a window on the 24-hour dial. */
  function WindowLength(openHour: int, closeHour: int): (n: int)
    ensures 0 <= n <= 24
  {
    if openHour == closeHour then 24 else (closeHour - openHour) % 24
  }

  /** Reference reading of a window: the market is open at `hour` when fewer
      than the window's length of hours have passed since opening, counting
      round the clock. */
  predicate OpenByDial(openHour: int, closeHour: int, hour: int)
  {
    (hour - openHour) % 24 < WindowLength(openHour, closeHour)
  }

  lemma IsOpenAtMatchesDial(openHour: int, closeHour: int, hour: int)
    requires 0 <= openHour < 24 && 0 <= closeHour < 24 && 0 <= hour < 24
    ensures IsOpenAt(openHour, closeHour, hour) <==> OpenByDial(openHour, closeHour, hour)
  {
    var since := if hour >= openHour then hour - openHour else hour - openHour + 24;
    assert (hour - openHour) % 24 == since;
    if openHour > closeHour {
      assert (closeHour - openHour) % 24 == closeHour - openHour + 24;
    }
  }

  /** The window covers every hour exactly when the two hours are equal. */
  lemma AlwaysOpenIffEqualHours(openHour: int, closeHour: int)
    requires 0 <= openHour < 24 && 0 <= closeHour < 24
    ensures (forall h :: 0 <= h < 24 ==> IsOpenAt(openHour, closeHour, h)) <==> openHour == closeHour
  {
    if openHour != closeHour {
      assert !IsOpenAt(openHour, closeHour, closeHour);
    }
  }

  /** `isWithinClearingHours`: a currency without a clearing-hours row is an error. */
  function IsWithinClearingHours(hours: map<Currency, ClearingWindow>, currency: Currency, simTimeMs: int): (r: Result<bool>)
    ensures r.Err? <==> currency !in hours
    ensures r.Err? ==> r.error == MissingClearingHours(currency)
    ensures r.Ok? ==> r.value == IsOpenAt(hours[currency].openHour, hours[currency].closeHour, CetHour(simTimeMs))
  {
    if currency !in hours then Err(MissingClearingHours(currency))
    else
      var w := hours[currency];
      Ok(IsOpenAt(w.openHour, w.closeHour, CetHour(simTimeMs)))
  }

  /** At the simulated epoch (10:00 UTC+1) the euro market is open and the
      dollar market is not yet open. */
  lemma MarketsAtEpoch()
    ensures CetHour(Config.SimEpochMs) == 10
    ensures IsWithinClearingHours(Config.SeedClearingHours, "EUR", Config.SimEpochMs) == Ok(true)
    ensures IsWithinClearingHours(Config.SeedClearingHours, "USD", Config.SimEpochMs) == Ok(false)
  {
    assert Config.SimEpochMs / MsPerHour == 490905;
  }
}
