# Payments simulator settlement engine, in Dafny

This project models the server-side settlement engine of the Payments simulator. The simulator is a network of banks linked by correspondent (nostro/vostro) accounts. It settles cross-currency payments between bank clients, subject to clearing-hour windows. The engine is a single-writer ledger held in one SQLite database. The model covers:

- **Money** (`money.dfy`): stored amounts are integer cents. `toMoneyString` is quantisation to 2 dp, rounding half-up with ties away from zero, followed by formatting.
- **FX** (`fx.dfy`): conversion through a USD pivot, both forward and inverse, and the `fx_history` append.
- **Clock** (`clock.dfy`): the `sim_clock` row is a `SimClock` object. Its methods are `updateClock`, `setTick`, `pause`, `play`, `faster`, `slower` and `resetClock`. The wall clock `now` is a parameter.
- **Clearing** (`clearing.dfy`): the CET hour (UTC+1) and the open/close window test.
- **Routing** (`routing.dfy`): the per-currency graph with neighbours in name order, and the BFS minimum-hop route. The route is proved shortest, and it is absent exactly when the target is unreachable.
- **Ledger** (`accounts.dfy`, `nostro_vostro.dfy`, `invariants.dfy`, `balances.dfy`):
  - balances with a zero default;
  - get-or-create for House and Vostro clients;
  - nostro creation with its mirror vostro;
  - paired nostro/vostro adjustment;
  - client deltas, with and without the nostro side;
  - the currency-availability check and the full-reserve check.
- **Payments** (`payments.dfy`, `execution.dfy`):
  - intent creation and the choice of settlement currency;
  - `listPayments` with `fxAtBankIds`;
  - `executePayment` as a run of writes that either commits or restores the tables it started from and marks the payment FAILED;
  - `settleInterbank`, which moves only the first and last legs of the route.
- **Engine** (`engine.dfy`): `processQueued` executes the first eligible QUEUED payment, scanning oldest first.
- **Store** (`store.dfy`): the `Database` class, whose fields are the tables. It also holds the table constraints, `nextId` and the resets.

The database is a class. Each source function that writes to it is a method with a `modifies` clause on exactly the tables it writes. Each such method is proved against a specification function on table values:

- `Applied` and `ClientPart` for the two client deltas;
- `Adjusted` for the paired nostro/vostro adjustment;
- `Execution` for `executePayment`;
- `Planned` for intent creation;
- `Scan` for the tick scan.

The lemmas then state what those functions promise:

- errors on each throw path;
- mirror equality (nostro balance equals the vostro balance that mirrors it);
- the table constraints;
- settlement on the route's end legs only;
- the state machine QUEUED → SETTLED or QUEUED → FAILED.

## Behaviour a reader might not expect

Where the code behaves in a way a reader might not expect, the model follows the code:

- **`play` does not flush the clock** (server/domain/clock.js:70-77). `Clock.SimClock.Play` keeps the stored sim time. It preserves the current time only when called while paused.
- **No route in the chosen settlement currency makes intent creation throw.** This happens at simulator-project/server/domain/payments.js:107-108. Failure is not deferred to execution.
- **Both client deltas reject House clients** (simulator-project/server/domain/balances.js:10, 39). A payment that intent creation accepts for a House client therefore fails at execution (`Execution.NonRegularPartyFails`).
- **Intent creation checks only a positive balance.** It checks that the source balance is positive (payments.js:52), not that it covers the debit amount (`Payments.PlanIgnoresCoverage`).
- **Settling in the beneficiary bank's own base currency fails when the credit currency differs.** Intent creation can choose such a settlement: it falls back to USD when the two banks do not both offer the credit currency (payments.js:82-100). Execution then looks up the beneficiary bank's nostro in the settlement currency (payments.js:233-235). No bank holds a nostro in its own base currency, so the lookup finds none and the payment ends FAILED with the missing-beneficiary-nostro error, unless an earlier step failed first (`Execution.SettlingInBeneficiaryBaseFails`).

## Model

| member | source | states |
|---|---|---|
| Money.Quantize | simulator-project/server/domain/money.js:11-13 | the cents value is within half a cent of the input; a tie goes up for non-negative inputs and down for negative ones (half-up, away from zero) |
| Money.QuantizeNegate | simulator-project/server/domain/money.js:3-13 | rounding is symmetric: quantising −x gives minus the quantisation of x |
| Money.QuantizeOfCents | simulator-project/server/domain/money.js:11-13 | an amount already at 2 dp is unchanged by quantisation |
| Money.QuantizeIdempotent | simulator-project/server/domain/money.js:11-13 | quantising twice is quantising once |
| Money.QuantizeSign | simulator-project/server/domain/money.js:11-13 | quantisation keeps the sign of a non-negative and of a negative amount |
| Money.QuantizeShift | simulator-project/server/domain/money.js:11-13 | adding a non-negative-result delta to a stored amount and quantising adds the rounded delta in cents |
| Money.ToMoneyString | simulator-project/server/domain/money.js:11-13 | the text has exactly two digits after a '.', and a leading '-' exactly for negative amounts |
| Money.FormatCents | simulator-project/server/domain/money.js:11-13 | a digit run, a '.', and two digits |
| Money.FormatCentsRoundTrip | simulator-project/server/domain/money.js:11-13 | the integer and fraction digits of the text read back as the cents value |
| Money.PlainCentsRoundTrip | simulator-project/server/domain/money.js:11-13 | a non-negative amount's text parses back to its cents |
| Money.MinusCentsRoundTrip | simulator-project/server/domain/money.js:11-13 | a negative amount's text parses back to its cents |
| Money.MoneyStringRoundTrip | simulator-project/server/domain/money.js:11-13 | the stored text of any amount parses back to its quantised cents |
| Money.TwoDigitsRoundTrip | simulator-project/server/domain/money.js:11-13 | the two fraction digits read back as the cents below one unit |
| Money.AssertNonNegative | simulator-project/server/domain/money.js:19-21 | throws the given error exactly when the value is below zero; zero passes |
| DecimalText.NatToDigits | simulator-project/server/db.js:206 | the decimal text of a counter: digits only, no leading zero, one digit exactly below ten |
| DecimalText.DigitsRoundTrip | simulator-project/server/db.js:206 | reading the decimal text back gives the number |
| DecimalText.PadStart | simulator-project/server/db.js:206 | the padded text has the larger of the two widths, ends with the input and is filled on the left with the pad character |
| DecimalText.LeadingZeros | simulator-project/server/db.js:206 | zero padding does not change the value the digits denote |
| DecimalText.ZerosAreZero | simulator-project/server/db.js:206 | a run of zeros denotes zero |
| Store.Database.constructor | simulator-project/server/db.js:145-162 | a fresh database: empty tables and counters, the seed rates and clearing hours, the clock at the epoch with tick and pausedTick 60 |
| Store.IdText | simulator-project/server/db.js:206 | an id is at least four characters longer than its prefix |
| Store.IdTextShape | simulator-project/server/db.js:206 | an id is the prefix followed by digits only |
| Store.IdTextDecodes | simulator-project/server/db.js:206 | the digits of an id read back as the counter value |
| Store.IdTextInjective | simulator-project/server/db.js:200-209 | two counter values give the same id only when equal, so ids of one key never repeat |
| Store.FirstId | simulator-project/server/db.js:202-206 | the first id of a key is the prefix followed by "0001" |
| Store.Bumped | simulator-project/server/db.js:203-205 | one `nextId` advances its own key by exactly one (from 1 when absent) and leaves every other key alone |
| Store.BumpedTimes | simulator-project/server/db.js:203-205 | n draws advance one key by n and leave the others alone |
| Store.NextId | simulator-project/server/db.js:200-209 | returns the id of the key's current counter value and advances only that key by one |
| Store.ResetClock | simulator-project/server/db.js:195-198 | the clock row is set to the epoch, tick and pausedTick 60, last update now |
| Store.ResetAll | simulator-project/server/db.js:164-182 | every domain table and the counters are empty, rates and clearing hours are reseeded, the clock is at the epoch with tick and pausedTick 60 |
| Store.ClearTables | simulator-project/server/db.js:166-175 | the deletes of `resetAll` leave every table and the counters empty |
| Store.Reseed | simulator-project/server/db.js:145-156 | INSERT OR REPLACE of the seed rates and clearing hours over the existing rows |
| Store.EmptyTablesValid | simulator-project/server/db.js:24-143 | empty tables meet every table constraint |
| Store.ResetPayments | simulator-project/server/db.js:184-193 | only payments, payment messages and FX history are emptied; banks, clients, balances and nostros keep their rows |
| Clock.PausedIsFrozen | server/domain/clock.js:14-20 | with tick 0 the current time is the stored sim time for every wall-clock reading |
| Clock.SimTimeMonotone | server/domain/clock.js:22-27 | while running, the current time never decreases as the wall clock advances |
| Clock.SimTimeAtLastUpdate | server/domain/clock.js:22-27 | at the instant of the last update the current time is the stored sim time |
| Clock.SimClock.constructor | simulator-project/server/db.js:157-160 | the seeded clock row: epoch, tick and pausedTick 60, last update now |
| Clock.SimClock.UpdateClock | server/domain/clock.js:30-37 | flushes the current time into the row and resets the last update to now; the current time does not move |
| Clock.SimClock.Reset | server/domain/clock.js:39-42 | epoch, tick and pausedTick 60, last update now |
| Clock.SimClock.SetTick | server/domain/clock.js:44-53 | accepts any tick; flushes, then sets the tick, so the current time at the change is preserved; the clock stays valid exactly when the new tick is not negative |
| Clock.SimClock.Pause | server/domain/clock.js:55-68 | tick becomes 0, pausedTick keeps the running tick (or its old value when already paused), and the current time is preserved |
| Clock.SimClock.Play | server/domain/clock.js:70-80 | tick becomes pausedTick when positive, else 60; the stored sim time is kept without a flush, so the current time is preserved only when called while paused |
| Clock.SimClock.Faster | server/domain/clock.js:82-90 | no change while paused; otherwise the tick doubles; the current time is preserved |
| Clock.SimClock.Slower | server/domain/clock.js:92-100 | no change while paused; otherwise the tick becomes max(60, floor(tick/2)); the current time is preserved |
| Clearing.UtcHour | simulator-project/server/domain/clearing.js:18 | the UTC hour of a sim time is in 0..23 |
| Clearing.CetHour | simulator-project/server/domain/clearing.js:18-19 | the hour checked is (UTC hour + 1) mod 24, in 0..23 |
| Clearing.CetHourDaily | simulator-project/server/domain/clearing.js:18-19 | the hour checked repeats every 24 hours |
| Clearing.IsOpenAtMatchesDial | simulator-project/server/domain/clearing.js:21-28 | the window test equals a walk round the clock from the open hour (inclusive) to the close hour (exclusive), wrapping past midnight when close < open |
| Clearing.AlwaysOpenIffEqualHours | simulator-project/server/domain/clearing.js:26-28 | a market is open at every hour exactly when its open and close hours are equal |
| Clearing.IsWithinClearingHours | simulator-project/server/domain/clearing.js:8-29 | an error exactly when the currency has no clearing hours; otherwise the window test at the CET hour |
| Clearing.MarketsAtEpoch | simulator-project/server/config.js:18-28 | at the epoch the CET hour is 10: EUR is open and USD is closed |
| Fx.UsdToQuote | simulator-project/server/domain/fx.js:8-13 | 1 for USD, the stored positive rate for a priced currency, and the missing-rate error otherwise |
| Fx.QuoteToUsd | simulator-project/server/domain/fx.js:15-17 | the reciprocal of USD→quote, with the same error |
| Fx.Ratio | simulator-project/server/domain/fx.js:29 | the reported rate exists exactly when the divisor is non-zero, and times the divisor gives the dividend |
| Fx.Convert | simulator-project/server/domain/fx.js:19-38 | identity with rate 1 for one currency; otherwise an error naming the first unpriced currency, or a to-amount worth the same in USD, with rate · from = to whenever from ≠ 0 |
| Fx.ConvertPreservesUsd | simulator-project/server/domain/fx.js:25-28 | amount × (from→USD) × (USD→to) is worth the same in USD as the amount |
| Fx.ConvertToExactToAmount | simulator-project/server/domain/fx.js:40-59 | the desired to-amount is returned exactly, with a from-amount worth the same in USD, zero only for a zero target, and the same error cases as `convert` |
| Fx.ExactPreservesUsd | simulator-project/server/domain/fx.js:46-54 | desired / ((from→USD)(USD→to)) is worth the desired amount in USD; the denominator is positive |
| Fx.ExactThenConvert | simulator-project/server/domain/fx.js:40-59 | converting the from-amount of `convertToExactToAmount` gives back the desired amount exactly |
| Fx.FxHistoryRow | simulator-project/server/domain/fx.js:61-78 | an FX event row stores both amounts quantised to 2 dp and the rate unquantised |
| Fx.FxLogEvent | simulator-project/server/domain/fx.js:61-78 | appends exactly that row to the FX history |
| Invariants.NostroCurrencies | simulator-project/server/domain/invariants.js:7-9 | the currencies of a bank's nostros |
| Invariants.BankAvailableCurrencies | simulator-project/server/domain/invariants.js:3-11 | an unknown bank is an error; otherwise the base currency and the nostro currencies, sorted strictly (no duplicates) |
| Invariants.ValidateClientCurrencyAvailability | simulator-project/server/domain/invariants.js:13-28 | passes exactly when the client may hold the currency; unknown client, unknown bank, a vostro off its host's base currency and an unavailable currency each give their error |
| Invariants.AvailabilityCheckUsesList | simulator-project/server/domain/invariants.js:24-27 | for a non-vostro client the check is membership in the bank's available-currency list |
| Invariants.ReserveHolders | simulator-project/server/domain/invariants.js:38-43 | the REGULAR and HOUSE clients of the bank that hold a row in the currency |
| Invariants.NostroBalance | simulator-project/server/domain/invariants.js:35-36 | a missing nostro counts as 0 |
| Invariants.ValidateForeignCurrencyInvariant | simulator-project/server/domain/invariants.js:30-49 | an unknown bank is an error; the base currency always passes; otherwise it passes exactly when the REGULAR+HOUSE sum equals the nostro balance |
| Invariants.ClientTotalShift | simulator-project/server/domain/invariants.js:38-45 | rewriting one reserve holder's balance changes the sum by exactly the difference |
| Invariants.ClientTotalUntouched | simulator-project/server/domain/invariants.js:38-45 | a write outside the bank's REGULAR/HOUSE clients in that currency leaves the sum alone |
| Invariants.ReserveCoversMember | simulator-project/server/domain/invariants.js:38-45 | with no negative balances, the sum is at least any one holder's balance |
| Accounts.GetBank | simulator-project/server/domain/accounts.js:8-10 | the bank row, or none exactly when the id is absent |
| Accounts.ClientBalance | simulator-project/server/domain/accounts.js:68-71 | the stored amount, or 0 for an absent (client, currency) pair |
| Accounts.ReadAfterUpsert | simulator-project/server/domain/accounts.js:73-83 | after an upsert the pair reads the new amount and every other pair reads as before |
| Accounts.BalanceWriteValid | simulator-project/server/db.js:52-61 | a non-negative balance of an existing client keeps the table constraints |
| Accounts.SetClientBalance | simulator-project/server/domain/accounts.js:73-83 | draws a balance id whatever happens; upserts the pair with the amount at 2 dp and nothing else; an unknown client is a foreign-key error that writes no balance |
| Accounts.BankInsertValid | simulator-project/server/db.js:31-36 | a bank with a new id and an unused name keeps the table constraints |
| Accounts.CreateBank | simulator-project/server/domain/accounts.js:12-15 | inserts the bank exactly when its id and name are unused; otherwise a duplicate-key error that changes nothing |
| Accounts.ClientInsertValid | simulator-project/server/db.js:38-50 | a client of an existing bank with a new id, and no second House or Vostro for the same bank(s), keeps the table constraints |
| Accounts.CreateRegularClient | simulator-project/server/domain/accounts.js:32-35 | inserts a REGULAR client exactly when the id is new and the bank exists; otherwise the duplicate-key or foreign-key error, with nothing changed |
| Accounts.InsertClient | simulator-project/server/db.js:38-50 | the client insert: duplicate key, missing bank, or the row added |
| Accounts.GetOrCreateHouseClient | simulator-project/server/domain/accounts.js:37-51 | returns the bank's House client unchanged when one exists; otherwise draws a HOUSE_ id and inserts the House client named after the bank |
| Accounts.GetOrCreateVostroClient | simulator-project/server/domain/accounts.js:53-66 | returns the Vostro client of (host, foreign) unchanged when one exists; otherwise draws a VOSTRO_ id and inserts "Vostro for" the foreign bank at the host |
| Accounts.CurrenciesHeld | simulator-project/server/domain/accounts.js:19-24 | the currencies in which the client holds a row |
| Accounts.BalanceList | simulator-project/server/domain/accounts.js:20-25 | a client's balances: exactly its rows, one per currency, in ascending currency order |
| Accounts.ListClients | simulator-project/server/domain/accounts.js:17-30 | each client in the given order with its sorted balances, or an empty list when it holds none |
| NostroVostro.GetNostro | server/domain/nostroVostro.js:19-30 | the nostro of (owner, currency), or none exactly when absent |
| NostroVostro.VostroUnique | simulator-project/server/db.js:48-50 | there is at most one Vostro client per (host, foreign bank) |
| NostroVostro.MirroredAfterOtherWrite | simulator-project/server/domain/balances.js:41-46 | writing a non-vostro balance keeps mirror equality |
| NostroVostro.MirroredAfterClientInsert | simulator-project/server/domain/accounts.js:32-35 | inserting a client keeps mirror equality |
| NostroVostro.MirroredAfterPairedWrite | server/domain/nostroVostro.js:68-77 | writing the same amount to a nostro and its mirror vostro keeps mirror equality |
| NostroVostro.NostroWriteValid | simulator-project/server/db.js:63-75 | a non-negative nostro balance keeps the table constraints |
| NostroVostro.VostrosAt | server/domain/nostroVostro.js:63-65 | the Vostro clients of (host, foreign) |
| NostroVostro.TheVostro | server/domain/nostroVostro.js:63-65 | the mirror vostro the lookup finds |
| NostroVostro.AdjustedCases | server/domain/nostroVostro.js:57-78 | no nostro at that hop, or no mirror vostro, is the matching error; success moves the nostro and the vostro by the same delta, both staying non-negative; the nostro check comes first |
| NostroVostro.AdjustedKeepsInvariants | server/domain/nostroVostro.js:68-77 | a successful adjustment keeps the table constraints and mirror equality |
| NostroVostro.AdjustNostroAndMirrorVostro | server/domain/nostroVostro.js:57-78 | succeeds exactly when the adjustment is defined; on error nothing changes, not even the counters; on success both rows move and one balance id is drawn |
| NostroVostro.MoveBoth | server/domain/nostroVostro.js:68-77 | the negativity checks, then both writes, once nostro and vostro are found |
| NostroVostro.WritePair | server/domain/nostroVostro.js:76-77 | writes the nostro balance and the vostro balance, each at 2 dp |
| NostroVostro.PairedWriteKeepsMirror | server/domain/nostroVostro.js:68-77 | equal new amounts on a mirrored pair keep mirror equality |
| NostroVostro.CreateNostroWithMirrorVostro | server/domain/nostroVostro.js:32-55 | unknown bank, own base currency and existing nostro each give their error with nothing changed. Otherwise every table ends as `Opened` describes: on success the mirror Vostro is reused untouched or inserted under the next VOSTRO_ id, the 0.00 nostro is stored under the next NOS_ id, and only the mirror's balance in that currency is set to 0 (with a balance id drawn) when it was not 0. A failed Vostro insert, or a NOS_ id already taken, writes no nostro and no balance but keeps the Vostro and counter writes made before it. Mirror equality is kept |
| NostroVostro.OpenNostro | server/domain/nostroVostro.js:43-52 | the clients, balances, nostros and counters after the checks have passed are exactly those `Opened` allows, on success and on each late error |
| NostroVostro.MirrorClient | server/domain/nostroVostro.js:43 | an existing mirror Vostro is returned with the clients and counters untouched; otherwise one VOSTRO_ id is drawn and the client "Vostro for" the owner is inserted under it, or, when that id is taken or the host bank is missing, the clients table is left as it was; success exactly in those cases |
| NostroVostro.InsertZeroNostro | server/domain/nostroVostro.js:45-52 | inserts the 0.00 nostro; the mirror's balance is rewritten to 0, drawing one balance id, only when it was not 0, and no other balance or counter changes |
| NostroVostro.OpenedReusesMirror | server/domain/nostroVostro.js:40-52 | when the mirror Vostro already exists, opening the nostro leaves the clients table untouched, leaves every balance row other than the mirror's in that currency as it was (the mirror's is now 0), and moves no counter other than the NOS_ and balance counters |
| NostroVostro.NewNostroKeepsTables | simulator-project/server/db.js:63-75 | a valid new nostro row keeps the table constraints |
| NostroVostro.NewNostroKeepsMirror | server/domain/nostroVostro.js:50-52 | a zero nostro with a zero mirror keeps mirror equality |
| Balances.ClientPartCases | simulator-project/server/domain/balances.js:6-14 | unavailable currency, non-REGULAR client (House included) and insufficient funds each give their error; otherwise the client write passes exactly when old + delta ≥ 0 |
| Balances.ClientPartWrites | simulator-project/server/domain/balances.js:12-15 | a passing client write sets the balance to old + delta at 2 dp, stays non-negative and draws one balance id; a failing one writes nothing |
| Balances.AppliedShape | simulator-project/server/domain/balances.js:5-31 | the full delta is the client write, then, for a foreign currency only, the nostro/vostro leg and the reserve check |
| Balances.AppliedKeepsInvariants | simulator-project/server/domain/balances.js:5-31 | both deltas keep the table constraints and mirror equality |
| Balances.AppliedPassesUnderReserve | simulator-project/server/domain/balances.js:20-30 | when the bank is at full reserve and the client write passes, the nostro leg and the reserve check pass too |
| Balances.AppliedKeepsReserve | simulator-project/server/domain/balances.js:5-31 | a successful full delta keeps every bank's full reserve |
| Balances.ClientOnlyShiftsReserve | simulator-project/server/domain/balances.js:34-46 | the client-only delta moves no nostro and shifts the bank's reserve sum by exactly the client's change |
| Balances.ApplyRegularClientDeltaClientOnly | simulator-project/server/domain/balances.js:34-47 | the outcome, balances and counters are those of the client write; no nostro is touched; mirror equality is kept |
| Balances.ClientStep | simulator-project/server/domain/balances.js:6-15 | the client write of either delta |
| Balances.ApplyRegularClientDelta | simulator-project/server/domain/balances.js:5-32 | the outcome, balances, nostros and counters are those of the full delta; mirror equality is kept |
| Balances.ForeignStep | simulator-project/server/domain/balances.js:17-31 | the nostro/vostro leg and the reserve check of the full delta |
| Ordering.LexTotal | simulator-project/server/domain/routing.js:33-37 | any two names are ordered one way or the other |
| Ordering.LexAntisymmetric | simulator-project/server/domain/routing.js:33-37 | names ordered both ways are equal |
| Ordering.LexTransitive | simulator-project/server/domain/routing.js:33-37 | the name order is transitive |
| Ordering.SortBy | simulator-project/server/domain/accounts.js:25 | the sort by a text key is ordered and a permutation of its input |
| Ordering.SortByInt | simulator-project/server/engine.js:17-19 | the sort by an integer key is ascending and a permutation of its input |
| Ordering.SortedList | simulator-project/server/domain/invariants.js:10 | `Array.from(set).sort()`: strictly ascending, the same elements, no duplicates |
| Routing.BuildGraph | simulator-project/server/domain/routing.js:1-41 | one neighbour list per bank, holding exactly the adjacent banks in name order; the graph is undirected |
| Routing.SortRows | simulator-project/server/domain/routing.js:31-38 | each neighbour list is sorted by name and keeps its members |
| Routing.AdjacencySymmetric | simulator-project/server/domain/routing.js:17-19 | every edge is present in both directions |
| Routing.AdjacentSymmetric | simulator-project/server/domain/routing.js:12-29 | adjacency is symmetric |
| Routing.AddNostroLinks | simulator-project/server/domain/routing.js:12-20 | after the nostro loop, the lists hold exactly the nostro links whose correspondent is native in the currency |
| Routing.AddNostroLink | simulator-project/server/domain/routing.js:13-19 | one nostro adds owner↔correspondent when it counts, and nothing otherwise |
| Routing.AddNativeLinks | simulator-project/server/domain/routing.js:23-29 | after the native loop, the lists hold exactly the adjacent banks: nostro links plus every pair of distinct native banks |
| Routing.AddNativeRow | simulator-project/server/domain/routing.js:24-28 | one native bank is linked to every other native bank, never to itself |
| Routing.Reversed | simulator-project/server/domain/routing.js:65 | the reversal of the collected path |
| Routing.ChainReversed | simulator-project/server/domain/routing.js:59-65 | the walk back along `prev`, reversed, is a path from `from` to `to` with no repeated bank |
| Routing.Backtrack | simulator-project/server/domain/routing.js:59-66 | the path read back from `prev` joins `from` to `to`, repeats no bank and has the BFS distance of `to` in hops |
| Routing.Discover | simulator-project/server/domain/routing.js:55-68 | discovering a neighbour keeps the BFS tree, its distance lower bound, the queue's level order and the closure of visited banks |
| Routing.SearchStart | simulator-project/server/domain/routing.js:48-50 | the queue [from] with prev {from: null} starts a valid search |
| Routing.NotFound | simulator-project/server/domain/routing.js:72 | an exhausted queue that never met `to` means no path exists |
| Routing.ShortestPath | simulator-project/server/domain/routing.js:48-72 | the BFS finds a path no longer than any other, or none exactly when no path exists |
| Routing.SearchStep | simulator-project/server/domain/routing.js:52-70 | one dequeue either finds a shortest path or keeps the search invariant and makes progress |
| Routing.VisitNeighbours | simulator-project/server/domain/routing.js:54-69 | the inner loop over a bank's neighbours keeps the search invariant or stops with a shortest path |
| Routing.VisitOne | simulator-project/server/domain/routing.js:55-68 | one neighbour: skipped when seen, otherwise recorded in `prev` and then returned as the path or enqueued |
| Routing.WalksAreRoutes | simulator-project/server/domain/routing.js:1-41 | a path in the built graph is exactly a route through adjacent banks |
| Routing.FindMinimumHopRoute | simulator-project/server/domain/routing.js:43-73 | [from] when from = to; otherwise a route with no repeated bank and no more hops than any route, or none exactly when the target is unreachable |
| Routing.OnlyNeighbour | simulator-project/server/domain/routing.js:12-20 | a bank not native in the currency is adjacent only to the correspondent of its nostro |
| Routing.RouteEnds | simulator-project/server/domain/payments.js:320-343 | a route between two banks has two or more entries, and its second and second-last entries are the correspondents of the end banks' nostros when those are not native |
| Payments.InsertMessage | simulator-project/server/domain/payments.js:160-163 | draws one MSG_ id and appends one message row |
| Payments.NotedKeepsIdsFresh | simulator-project/server/domain/payments.js:160-163 | appended messages keep distinct ids, each drawn from the counter |
| Payments.LogFx | simulator-project/server/domain/payments.js:192-203 | draws one FX_ id and appends one FX event row |
| Payments.FxAtBankIds | simulator-project/server/domain/payments.js:15-17 | holds the origin bank exactly when debit ≠ settlement currency, and the destination bank exactly when settlement ≠ credit currency, origin first |
| Payments.ListPayments | simulator-project/server/domain/payments.js:11-38 | every row once (a permutation), newest first, each with its `fxAtBankIds` |
| Payments.IntentCheck | simulator-project/server/domain/payments.js:41-71 | passes exactly when both clients exist and are REGULAR or HOUSE, the source balance is positive, and both currencies are available at their banks; each failure is the error thrown at its position |
| Payments.Offered | simulator-project/server/domain/payments.js:77-80 | a bank's base currency and its nostro currencies |
| Payments.FirstViableIsFirst | simulator-project/server/domain/payments.js:87-100 | the candidate loop picks the first candidate the source client may hold and that has a route, or none |
| Payments.SettlementChoice | simulator-project/server/domain/payments.js:82-100 | the credit currency if both banks offer it and it is viable, else USD under the same conditions, else the credit currency |
| Payments.ChooseSettlement | simulator-project/server/domain/payments.js:82-100 | the loop computes exactly that choice |
| Payments.Chain | simulator-project/server/domain/payments.js:111-116 | the amount unchanged within one currency; otherwise the converted amount, worth the same in USD |
| Payments.Amounts | simulator-project/server/domain/payments.js:110-116 | the settlement and credit amounts, defined exactly when both conversions are |
| Payments.PlannedIsSound | simulator-project/server/domain/payments.js:40-116 | an accepted intent has REGULAR/HOUSE clients, a settlement currency the source client may hold and in which the banks are connected, and a credit amount worth the debit amount in USD |
| Payments.SettlementIgnoresAmount | simulator-project/server/domain/payments.js:82-103 | the settlement currency does not depend on the debit amount |
| Payments.PlanIgnoresCoverage | simulator-project/server/domain/payments.js:50-54 | whether an intent is accepted does not depend on the debit amount: only a positive balance is required |
| Payments.PlanIntent | simulator-project/server/domain/payments.js:40-116 | the validation, choice and amounts of intent creation, with a shortest route in the settlement currency |
| Payments.CreatePaymentIntent | simulator-project/server/domain/payments.js:40-158 | a refused intent returns its error and writes nothing; an accepted one stores the QUEUED payment (amounts at 2 dp, created now, shortest route) and its PAYMENT_INIT message |
| Payments.InsertIntent | simulator-project/server/domain/payments.js:118-155 | draws the PAY_ id, then inserts the row and its message, or fails on a taken id with only the counter advanced |
| Payments.WritePayment | simulator-project/server/domain/payments.js:295-299 | overwrites one payment row |
| Payments.PaymentWriteValid | simulator-project/server/db.js:96-117 | a payment row stored under its own id keeps the table constraints |
| Execution.MarkExecuted | simulator-project/server/domain/payments.js:295 | only that row changes: EXECUTED at the given time |
| Execution.MarkSettled | simulator-project/server/domain/payments.js:298 | only that row changes: SETTLED at the given time |
| Execution.MarkFailed | simulator-project/server/domain/payments.js:165-168 | only that row changes: FAILED with the reason, executed at the given time |
| Execution.MovedKeeps | simulator-project/server/domain/balances.js:5-31 | a full delta keeps the table constraints, the nostro links, the payment rows and mirror equality |
| Execution.MovedClientOnlyKeeps | simulator-project/server/domain/balances.js:34-46 | a client-only delta keeps them too, and moves no nostro |
| Execution.PairedKeeps | server/domain/nostroVostro.js:57-78 | a paired adjustment keeps them |
| Execution.LegKeeps | simulator-project/server/domain/payments.js:233-254 | a nostro leg keeps them |
| Execution.HopIsLeg | simulator-project/server/domain/payments.js:325-350 | a leg checked against its route hop is the plain leg when the nostro is held at that hop, and an error otherwise |
| Execution.DoKeeps | simulator-project/server/domain/payments.js:179-300 | every write of the transaction keeps them |
| Execution.RunKeeps | simulator-project/server/domain/payments.js:179-300 | a successful run of writes keeps them |
| Execution.FinishedKeeps | simulator-project/server/domain/payments.js:284-299 | the close moves no money; the payment becomes EXECUTED then SETTLED; LIQUIDATION, EXECUTED and SETTLED messages are appended in that order |
| Execution.RemainderKeeps | simulator-project/server/domain/payments.js:223-299 | settlement, destination FX and the close keep the table constraints and mirror equality, and settle the payment |
| Execution.TransferKeeps | simulator-project/server/domain/payments.js:179-300 | a committed transaction keeps the table constraints and mirror equality, and leaves the payment SETTLED |
| Execution.SettlingInBeneficiaryBaseFails | simulator-project/server/domain/payments.js:233-235 | a payment whose settlement currency is the beneficiary bank's base currency and whose credit currency differs never commits: the transaction always throws |
| Execution.LegsAtHops | simulator-project/server/domain/payments.js:322-350 | when each end nostro is held at its route hop, the hop-checked legs act as the plain legs |
| Execution.InterbankFollowsRoute | simulator-project/server/domain/payments.js:309-351 | given what the router promises, `settleInterbank` acts as settlement on the two end legs whenever the banks are connected, and as the no-route error otherwise |
| Execution.BackFollowsRoute | simulator-project/server/domain/payments.js:223-299 | the rest of the transaction with the route found equals its route-free description |
| Execution.LegMoves | simulator-project/server/domain/payments.js:331-336 | a leg moves only its own nostro, by the delta |
| Execution.SettlementMovesEnds | simulator-project/server/domain/payments.js:309-351 | settlement debits only the origin nostro and credits only the destination nostro (each only when not native); intermediate hops are untouched |
| Execution.TwoLegsShift | simulator-project/server/domain/payments.js:325-350 | the two legs move the origin nostro by −amount and the destination nostro by +amount |
| Execution.ClientMovesRefuse | simulator-project/server/domain/payments.js:220-221 | the client moves fail when either party is not a REGULAR client |
| Execution.NonRegularPartyFails | simulator-project/server/domain/payments.js:220-221 | a payment with a House (or unknown) party always fails at execution |
| Execution.FailedKeeps | simulator-project/server/domain/payments.js:165-170 | `failPayment` moves no money, marks the row FAILED with the reason, and appends one FAILED message |
| Execution.ExecutionOutcomes | simulator-project/server/domain/payments.js:172-307 | an unknown id is an error that changes nothing; a payment that is not QUEUED changes nothing; a QUEUED one ends SETTLED (executed and settled now) when the transaction commits, and FAILED with the start's balances, nostros and FX history when it throws; no other row changes |
| Execution.ExecutionKeeps | simulator-project/server/domain/payments.js:302-306 | whatever the outcome, the table constraints and mirror equality hold afterwards |
| Execution.CreditDriftsFromSettlement | simulator-project/server/domain/payments.js:181-184 | with the seed rates, a 0.005 USD debit settled and credited in EUR stores a 0.00 EUR credit amount, while execution settles 0.01 EUR: the beneficiary client and the beneficiary bank's nostro move by different amounts |
| Execution.Perform | simulator-project/server/domain/payments.js:179-300 | one write of the transaction on the database: its error, or its tables |
| Execution.MoveBalance | simulator-project/server/domain/payments.js:188-189 | `applyRegularClientDelta` inside the transaction |
| Execution.MoveClientBalance | simulator-project/server/domain/payments.js:220-221 | `applyRegularClientDeltaClientOnly` inside the transaction |
| Execution.AdjustLeg | simulator-project/server/domain/payments.js:234-254 | a nostro lookup with its missing error (and route check), then the paired adjustment |
| Execution.PerformAll | simulator-project/server/domain/payments.js:179-300 | the writes in order until the first throw, with exactly the run's tables |
| Execution.Finish | simulator-project/server/domain/payments.js:284-299 | the LIQUIDATION message, EXECUTED with its message, SETTLED with its message |
| Execution.SetExecuted | simulator-project/server/domain/payments.js:295 | the EXECUTED update |
| Execution.SetSettled | simulator-project/server/domain/payments.js:298 | the SETTLED update |
| Execution.Restore | simulator-project/server/domain/payments.js:302-306 | the rollback puts back the tables of the start |
| Execution.RunTransaction | simulator-project/server/domain/payments.js:179-306 | the transaction's result, with its tables on success and the start's tables on error |
| Execution.Begin | simulator-project/server/domain/payments.js:180-221 | the settlement amount, origin FX and the client moves |
| Execution.Settle | simulator-project/server/domain/payments.js:223-299 | route search, settlement, destination FX and the close, equal to their route-free description |
| Execution.FailPayment | simulator-project/server/domain/payments.js:165-170 | FAILED with the reason at sim now, and its message |
| Execution.ExecutePayment | simulator-project/server/domain/payments.js:172-307 | the outcome and tables are exactly those of `Execution` at sim now |
| Engine.Rows | simulator-project/server/engine.js:17-19 | exactly the payment rows, with as many entries as the table has rows |
| Engine.RowsOnce | simulator-project/server/engine.js:17-19 | in a table whose rows carry their own id, no payment is listed twice, so each row is scanned once |
| Engine.QueuedOf | simulator-project/server/engine.js:17-19 | exactly the QUEUED rows |
| Engine.Queue | simulator-project/server/engine.js:17-19 | exactly the QUEUED payments, in ascending creation time |
| Engine.ScanFindsFirst | simulator-project/server/engine.js:21-27 | after skipped payments, the scan decides on the first payment that is not skipped: it runs it, or stops with its clearing-hours error |
| Engine.ScanFindsNone | simulator-project/server/engine.js:21-27 | when every payment is skipped, nothing runs |
| Engine.ScanResult | simulator-project/server/engine.js:21-27 | a picked payment is eligible and every earlier one was skipped; none means all were skipped; an error comes from some payment's check |
| Engine.TickExecutesOne | simulator-project/server/engine.js:21-27 | executing the picked queued payment changes only its row, which ends SETTLED or FAILED |
| Engine.FirstEligible | simulator-project/server/engine.js:21-27 | the loop returns exactly the scan's answer |
| Engine.ProcessQueued | simulator-project/server/engine.js:16-28 | a clearing-hours error, or nothing eligible, leaves every table as it was; otherwise it executes exactly the first eligible payment of the queue, at most one per tick |

## Left out

- **Front end, HTTP and traffic generation.** The React/D3 front end, `api.js`, `app.js`, `autoExchange.js`, `dev.js` and `prod.js` are not modelled. They are UI, HTTP plumbing, server start-up and a random traffic generator.
- **The engine timer.** `startEngine`'s `setInterval` is not modelled, nor the catch that ignores a tick's error. `Engine.ProcessQueued` is one tick, and it returns that error as `Err`.
- **SQL text, file setup and logging.** The SQL text itself, `getDb` with its file-system setup, and console logging are not modelled. Tables are maps and sequences, and a transaction is a snapshot restored on error.
- **Listing reads.** `listBanks`, `listNostros`, `getClock`, `getFxRates` and `getClearingHours` are plain table reads and are not modelled.
- **The missing clock row.** The "Clock not initialized" throw cannot happen, because the clock row is always present.
- **`d`.** Its dynamic coercion from JavaScript numbers and strings is not modelled; amounts are exact reals or integer cents throughout.
- **`newId` (`ids.js`).** ids.js is not part of this model. Its `newId` is taken to be db.js `nextId`, as the prefixes and keys used at each call site suggest.
- **Decimal precision.** decimal.js's 28-digit precision in divisions is not modelled: intermediate FX values are exact reals. The `CAST(amount AS REAL)` float sum in the reserve check is an exact integer sum of cents.
- **The x/0 rate.** The rate decimal.js reports for x/0 (NaN or Infinity) is recorded as `None` in the FX event.
- **Message payloads.** JSON detail payloads of messages and FX events are datatype values, not text. Bank names in FX messages fall back to the bank id as in the code.
- **Unmodelled table constraints.**
  - Primary keys of balance, message and FX event ids are not modelled as constraints: the model draws those ids but does not check them for collisions.
  - The foreign keys of the `payments` table (fromClientId, toClientId, fromBankId, toBankId), of `payment_messages.paymentId` and of `fx_history` (paymentId, bankId) are not modelled as constraints. Payment rows are written only by intent creation after its client checks, and messages and FX events only for a payment being created or executed.
- **Unreachable throws in `executePayment`.** Guards that cannot fire in a valid database, such as "Bank not found" after the payment's banks are known, are modelled as the code writes them and need no separate case.
- **The clock read.** The clock is read once per call with the `now` given. The source reads `Date.now()` afresh at each step; within one call those readings are taken to be equal.
- **Name order.** `localeCompare` is modelled as lexicographic order on character codes. Locale collation is not modelled.
- Accounts.ListClients: takes the client rows in creation order as its input. The order of rows with equal creation times is not modelled.
- Payments.ListPayments: takes the payment rows as input and proves the newest-first order. The order among equal creation times (left to SQLite) is not fixed.
- Engine.Queue: orders by creation time. Queued payments with equal creation times are taken in one fixed order; SQLite does not promise any.
- Routing.FindMinimumHopRoute: proves the route shortest and repeat-free. It does not prove which of several equally short routes the name-ordered exploration returns; that choice is deterministic only because the method is.
- Execution.ExecutionKeeps: proves that table constraints and mirror equality survive execution, but not the full-reserve sum, because the code does not keep it. Intent creation quantises `creditAmount` from the debit amount as given (payments.js:110-116), and the API accepts any positive number, so that debit can have more than two decimal places (api.js:148). Execution recomputes the settlement amount from the stored 2-dp `debitAmount` (payments.js:181-184). The beneficiary client is credited `creditAmount` (payments.js:221), but the beneficiary bank's nostro receives the settlement amount (payments.js:228). With FX, the two can differ by a cent or more, and that bank's reserve sum then no longer equals its nostro balance (`Execution.CreditDriftsFromSettlement`).
- Balances.AppliedKeepsReserve: states reserve preservation for a successful full delta only. The client-only delta shifts the reserve sum (`Balances.ClientOnlyShiftsReserve`).
