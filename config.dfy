/** Seed data of the simulator (config.js): pivot rates, clearing windows and
    the simulated epoch. */
module Config {
  import opened Schema

  const SupportedCurrencies: seq<Currency> := ["USD", "EUR", "GBP", "CHF", "JPY", "MXN", "HKD"]

  /** USD -> quote rates. */
  const SeedRates: map<Currency, Rate> :=
    map["EUR" := 0.85, "GBP" := 0.77, "CHF" := 0.95, "JPY" := 150.0, "HKD" := 7.80, "MXN" := 20.00]

  const SeedClearingHours: map<Currency, ClearingWindow> :=
    map[
      "USD" := ClearingWindow(13, 22),
      "EUR" := ClearingWindow(8, 17),
      "GBP" := ClearingWindow(7, 16),
      "CHF" := ClearingWindow(8, 17),
      "JPY" := ClearingWindow(0, 9),
      "HKD" := ClearingWindow(0, 9),
      "MXN" := ClearingWindow(14, 23)]

  /** Date.UTC(2026, 0, 1, 9, 0, 0): 2026-01-01T09:00:00Z in milliseconds. */
  const SimEpochMs: int := 1767258000000

  /** The tick (simulated seconds per real second) a reset clock runs at. */
  const DefaultTick: int := 60
}
