# Verified model of the order, protection and exit protocol

This project models, in Dafny 4.11, the parts of the trading bot on which its money
depends, and proves what they guarantee:

- **Orders, protective stops and exits** (`Broker` … `ExitDesk`, `Entry*`, `Submission`).
  An asynchronous broker whose orders fill, cancel or reject on their own and whose
  replies may be lost; two durable journals and a position file, each written atomically;
  one controller, serialized by the file locks, that can die between any two writes; and
  restart recovery. `ExitProtocol` is a step machine over exactly these pieces: every
  durable write and every broker call is one step, the broker moves between any two of
  them, and a crash loses the memory and rereads the file. The entry may go on filling
  after a part of it was confirmed, and a restart takes in what is new. `ExitInvariant` is
  what every reachable state satisfies, `ExitSafety` and `ExitResults` are the results over
  whole runs, `ExitReprotection`, `ExitBooking` and `ExitEntry` say exactly when the code
  meets their hypotheses, and `ExitDesk` is the controller as sequential methods that only
  ever take steps of the machine. `EntryProtocol` follows one entry operation write by
  write, `Submission` the whole order journal over all symbols.
- **The journals and polling loops as they are**: classes with the mutators of the two
  stores, each proved to write exactly what a function of the old file says, and the
  polling verifiers with the meaning of each of their results.
- **Candles**: the tick-by-tick builder, and the exact aggregation to 15 minutes.
- **Smaller algorithms**: incremental indicators against their batch definitions, the
  rolling-window rate limiter, tie-averaged ranks, reconciliation by client tag, the
  protective trigger price, the scalp/runner split, P&L of partial fills, and the capture
  of quote evidence by concurrent threads.

`dafny verify dfyconfig.toml` checks all of it.

## What was found

Four windows break the protocol's accounting. Each is kept as the code has it, shown by
a concrete run from a fresh position, and bounded by an exact condition.

1. *Stale exit cursor.* When an exit report shows no new fill, the position names the new
   operation but keeps the fill counter of an earlier one (main.py:3085-3136). If that
   report was a timeout and the order fills later, recovery (main.py:4132-4148) takes the
   old counter as already applied, resolves the exit, and the same shares can be sold
   twice: `ExitWitnesses.TimeoutAfterScalpOversells`. Every later recovery, on any report,
   counts just what is new if and only if the counter was this operation's own or zero:
   `ExitResults.CursorExactIff`.
2. *Re-protection over a live stop.* If the process dies between the reset of a
   re-protection and the write that resolves its exit (main.py:2660-2689, main.py:3324-3337),
   or if the replacement stop is live but was not confirmed as armed, the exit stays
   unresolved. Any later restart then re-protects again and resolves the live replacement
   (main.py:4222-4238, main.py:2637-2648), so two stops are live, for one exit and with no
   crash needed: `ExitWitnesses.CrashAfterReprotectionOversells`,
   `ExitWitnesses.UnconfirmedReprotectionDoubles`, and in general
   `ExitReprotection.LostReprotectionIsRepeated`. Re-protection is safe if and only if the
   named stop has nothing left to sell, its fill is marked applied and the local quantity
   reflects it: `ExitResults.ReprotectionSafeIff`. Runs that lose no re-protection in that
   window meet this by themselves, whatever else crashes:
   `ExitReprotection.CarefulRunsAreSound`.
3. *Exit P&L before the save.* A crash between booking and saving books the same part of a
   fill again after recovery (main.py:4407-4453): `ExitWitnesses.ExitMayBeBookedTwice`.
   Dying in a state can lead to that if and only if the state lies in that window:
   `ExitBooking.DyingBooksTwiceIff`. The stop path writes in the other order and books at
   most once, whatever happens: `ExitSafety.StopFillBookedAtMostOnce`.
4. *Rebuilding a sold position.* A position bought by a partly filled entry may be sold
   while the entry is still open. When the entry fills further, the restart rebuilds the
   position from its whole fill and protects it again (main.py:3551-3608):
   `ExitWitnesses.LateEntryOversells` sells fourteen of ten with no exit at all. What may
   be sold stays within what was bought if and only if the entry filled that much again
   since, so on a report of the whole fill never: `ExitEntry.RebuildSafeIff`. Closing is
   final if and only if the entry is resolved and applied: `EntryResults.CloseIsFinalIff`.
   Further fills of a position that still exists are safe; while nothing was sold against
   its stop they block its automated exits: `ExitEntry.LateEntryBlocksExits`.

Smaller ones: the order journal accepts a fill below the fill already applied
(`PendingStore.AppliedMayExceedFilled`); a scalp fill without an average price reduces the
position but not the plan (`Hybrid.SplitSurvivesIff`); a seed of fewer than 2 * period - 1
bars loses the ADX mean (`IndicatorResults.SeedIsExactIff`), one of fewer than period bars
silences it for good (`IndicatorResults.ShortSeedNeverReports`), and a short volume history
is dropped (`IndicatorResults.VolumeSeedIsExactIff`); the trigger of a stop can round onto
the entry price or beyond it (`ProtectiveTrigger.TriggerMayEqualEntry`,
`ProtectiveTrigger.TriggerMayPassEntry`, exactly when: `ProtectiveTrigger.LosingSideIff`);
once a stop fill could not be priced, or the cumulative notional fell, the stop path never
books again (`Pnl.StopPathStopsBooking`, exactly when: `Pnl.PnlTelescopes`).

The three hypotheses of the exit results are `ExitInvariant.CursorOwned`,
`ExitInvariant.OldStopAccounted` and not `ExitInvariant.Rebuilds`, required of the steps
that need them (`SoundRun`). For a position's first exit they follow from what happens in
the run: no re-protection is lost, and the entry is settled or never rebuilt
(`ExitReprotection.FirstExitNeverOversells`, `ExitReprotection.SettledNeverRebuilds`).

## Where the steps of the exit protocol come from

- the entry's further fills (`RecoverEntry`): main.py:3392-3639
- protection (`CreateStop` … `SaveProtection`, `RecoverStop`): entry_protection.py:317-497,
  protective_stop.py:507-950, main.py:3642-3710
- inspection and coordination (`InspectStop` … `CallCancel`): protective_stop_exit.py:101-435
- applying a stop fill (`ReserveFill` … `FinishFill`): main.py:2187-2462, main.py:2560-2616
- the market exit (`CreateExit` … `VerifyExit`, `RecoverExit`): executor.py:496-801, main.py:3978-4130
- applying its fill (`BookExit` … `FinishExit`): main.py:3031-3337, main.py:4132-4488 and, with
  FORCE_EXIT's own cursor, main.py:3714-3975 and main.py:4493-4960
- re-protection (`ResolveOldStop`, `ResetProtection`), also after a refused scalp
  (`RefuseExit`): main.py:2619-2710, main.py:3136-3156, executor.py:540-572

## Assumptions about the surroundings

- The broker: cumulative fills never decrease and never exceed the order; COMPLETE,
  CANCELLED and REJECTED are final; COMPLETE means a positive fill and REJECTED none; a
  stop leaves TRIGGER PENDING before it fills. A poll may fail, be empty or be unreadable,
  and what it shows may be out of date by the time it is used.
- Client tags and operation UUIDs are fresh, so a tag finds at most the order it was sent
  with. Operation and broker IDs are numbers.
- A load-modify-save of a store, and a save of the position file, is one atomic step.
- Prices are reals, times are whole minutes or reals, undefined values are `None`.

## Model

| member | source | states |
|---|---|---|
| StopStore.RunsKeepStore | protective_stop_store.py:184-674 | over any sequence of requests with any arguments: at most one unresolved stop per instrument, broker IDs injective and never rebound, 0 <= applied <= filled <= requested with applied monotone, cancel-attempted implies exit-requested, the coordination quantity never grows, FORCE_EXIT and resolved are absorbing, no record is lost |
| StopStore.OneUnresolvedStop | protective_stop_store.py:163-181 | from an empty store, two unresolved stops of one exchange and symbol are the same record |
| StopStore.MutateKeepsRecord | protective_stop_store.py:320-674 | each accepted mutation keeps the record's own invariant and only moves it forward |
| StopStore.StopStore.Create | protective_stop_store.py:184-317 | succeeds exactly for a valid intent with no unresolved stop of the instrument, and then appends the fresh record and nothing else |
| StopStore.StopStore.AttachOrderId | protective_stop_store.py:320-362 | binds the broker ID or raises: missing, unknown operation, already bound otherwise, or taken by another operation |
| StopStore.StopStore.UpdateVerification | protective_stop_store.py:365-425 | writes the verified quantities, or raises on a negative one, a fill above the stop or a fill below what was applied |
| StopStore.StopStore.RequestExitCoordination | protective_stop_store.py:428-511 | records or upgrades the exit request; `created` tells exactly whether it was the first |
| StopStore.StopStore.ReserveCancelAttempt | protective_stop_store.py:514-551 | returns true to one caller only, and only after an exit request |
| StopStore.StopStore.MarkFillApplied | protective_stop_store.py:588-647 | the applied fill moves forward, never past the confirmed fill, or the call raises and the file is unchanged |
| StopStore.StopStore.HasUnresolved | protective_stop_store.py:163-181 | finds an unresolved stop of the instrument exactly when there is one |
| StopStore.StopStore.ListUnresolved | protective_stop_store.py:153-160 | lists exactly the unresolved records, each as often and in the order it stands in the file |
| StopStore.StopStore.MarkStopResolved | protective_stop_store.py:650-674 | resolves and deactivates the one record, for good |
| PendingStore.RunsKeepStore | pending_order_store.py:158-388 | over any sequence of journal requests: one unresolved operation per instrument and family, IDs unique and never rebound, fills and applied fills within the requested quantity, applied monotone, resolved absorbing |
| PendingStore.AppliedWithinFilled | pending_order_store.py:277-292 | a remark on one write: applied <= filled survives it if and only if a verification reports no less than was applied |
| PendingStore.AppliedMayExceedFilled | order_verification.py:70-86 | an unreadable broker after an applied partial fill leaves 4 applied and 0 filled |
| PendingStore.PendingStore.CreateIntent | pending_order_store.py:175-233 | succeeds exactly for a valid, new operation with nothing unresolved in its family |
| PendingStore.PendingStore.AttachBrokerOrderId | pending_order_store.py:236-260 | binds the broker ID or raises, as for stops |
| PendingStore.PendingStore.UpdateVerification | pending_order_store.py:263-292 | writes the reported quantities, or raises without touching the file |
| PendingStore.PendingStore.MarkEntryFillApplied | pending_order_store.py:345-388 | entries only, monotone, never above the recorded fill |
| PendingStore.PendingStore.HasUnresolved | pending_order_store.py:158-172 | EXIT and FORCE_EXIT block each other, ENTRY only itself |
| PendingStore.PendingStore.ListEntriesRequiringApplication | pending_order_store.py:326-342 | exactly the entries whose fill exceeds what was applied, resolved or not, in the order of the file |
| OrderVerification.VerifyOrderExecution | order_verification.py:45-163 | stops at the first poll whose last readable record is final, or at the deadline; terminal exactly in the first case, with that record's fill; a partial fill is never reported as full or as none |
| OrderVerification.ResultIsSound | order_verification.py:89-163 | a terminal result is exact for ever and any other one never overstates the fill |
| StopVerification.VerifyProtectiveStopActive | protective_stop.py:278-504 | ACTIVE exactly for an armed stop with no fill, a terminal state exactly for a final record, else TIMEOUT or UNKNOWN at the deadline; a negative quantity is unreadable |
| StopVerification.StopResultIsSound | protective_stop.py:380-504 | the same for stops |
| Broker.LastReadIsPast | order_verification.py:110-145 | whatever the last readable record says lies in the order's past |
| ExitInvariant.InitInv | main.py:1916-1960 | a confirmed entry fill that was just saved satisfies the invariant, whether the entry is settled or still open and filling |
| ExitSafety.StepKeepsInv | protective_stop_exit.py:199-532 | every step of controller, broker, further entry fill and crash keeps the invariant, the three hypotheses granted |
| ExitSafety.RunKeepsInv | main.py:2187-4488 | so does every sound run |
| ExitSafety.NoOversell | main.py:2465-2616 | in every interleaving, what stops and exits have sold plus all that live orders may still sell is within the part of the entry that was taken in, and that within what the broker filled |
| ExitSafety.StopAndExitWithinStop | executor.py:597-632 | a stop's fill plus the fill of the exit cleared against it fit the stop's quantity |
| ExitSafety.OneLiveReducingOrder | protective_stop_exit.py:415-514 | at most one stop or exit is live at the broker |
| ExitSafety.ExitSentOnlyAfterStop | executor.py:597-720 | a market exit is sent only when no order is live and fits what the stop left |
| ExitSafety.LiveExitIsUnresolved | executor.py:620-701 | a live exit belongs to the newest, unresolved intent |
| ExitSafety.OneCancellation | protective_stop_exit.py:283-402 | over any run the broker is asked to cancel a stop at most once, after the request and the reservation |
| ExitSafety.CancelOnlyAfterReservation | protective_stop_store.py:514-551 | at the moment of the call, request and reservation are durable and no call was made before |
| ExitSafety.CoverageIdentity | main.py:2187-2462 | the held quantity plus the applied stop fill is the stop's quantity and what the entry added later, or above it after a crash mid-application, never below; with an exit sold, its applied fill completes the sum |
| ExitSafety.DyingMidFillIsStuck | main.py:2338-2440 | dying between reservation and save leaves the file overstated, with the stop unresolved |
| ExitSafety.StuckForEver | protective_stop_exit.py:84-96 | from there no later call, in any run, clears an exit, cancels, submits or books anything |
| ExitSafety.StopFillBookedAtMostOnce | main.py:2338-2440 | booked stop quantity never exceeds the reserved fill, whatever crashes |
| ExitResults.FirstReprotectionIsSound | main.py:2619-2710 | re-protection of the exit's own stop, or after a refused exit, meets its hypothesis |
| ExitResults.FirstExitOwnsCursor | main.py:3085-3136 | the first exit operation meets the cursor hypothesis |
| ExitResults.ReprotectionSafeIff | main.py:2619-2710 | re-protection keeps the exposure within what is held if and only if the named stop has nothing left to sell, is applied and reflected; a live one leaves two live orders |
| ExitResults.CursorExactIff | main.py:4132-4148 | after the save that only names an operation, a restart and a later recovery take just what was not applied as new, on every report of every later broker state, if and only if the cursor was its own or zero (an exit without a broker ID is not recovered at all) |
| ExitResults.ExitConserves | main.py:3978-4488 | over any broker fills, crashes and recoveries, what the file holds plus what its cursor says was sold is the quantity at submission plus what the entry added since |
| ExitResults.RecoveryWithoutNewFill | main.py:4132-4262 | a recovery that sees no new fill goes through, books nothing, and leaves the saved quantity and applied fill as they were |
| ExitResults.ExactClearance | protective_stop_exit.py:437-532 | once the stop is over and covered, a full-exit coordination goes through and clears exactly what the stop left, or reports closed-by-stop exactly when that is nothing |
| ExitReprotection.ReprotectionIsAccounted | main.py:2619-2710 | as long as no re-protection was lost, the stop that one resolves is over, applied and reflected |
| ExitReprotection.CarefulRunsAreSound | main.py:3318-3337 | for any number of exits: a run that does not die, and confirms its stop, between the reset of a re-protection and the resolving write needs no hypothesis about it |
| ExitReprotection.FirstExitRunsAreSound | main.py:3031-3337 | for a position's first exit such a run needs no hypothesis about the cursor either |
| ExitReprotection.SettledNeverRebuilds | main.py:3402-3440 | once the entry is resolved and applied, no run ever rebuilds a position from it |
| ExitReprotection.FirstExitNeverOversells | main.py:2465-3337 | from a saved entry fill, over such runs and with the entry settled or not rebuilt: no oversell and at most one live reducing order |
| ExitReprotection.LosingLeavesLost | main.py:3318-3331 | dying after the replacement was saved, or saving it unconfirmed, leaves a live named stop and an unresolved exit that is over |
| ExitReprotection.LostReprotectionIsRepeated | main.py:4222-4233 | from every such state the next recovery goes through to a second live stop for all that is held |
| ExitEntry.GoneMeansSold | main.py:2187-4488 | in every sound run, a position that is gone was sold exactly, and no order is left to fill |
| ExitEntry.RebuildSafeIff | main.py:3551-3608 | rebuilding a sold position keeps what may be sold within what was bought if and only if the entry filled that much again since, and on a report of the whole fill never |
| ExitEntry.LateEntryBlocksExits | protective_stop_exit.py:84-96 | when the entry added shares that the newest stop does not cover and no exit was cleared against it, no stop is inspected, coordinated or cancelled until a new one is created |
| ExitWitnesses.Protects | entry_protection.py:384-497 | an undisturbed protection ends with one armed, attached, named and saved stop |
| ExitWitnesses.Cancels | protective_stop_exit.py:340-532 | an undisturbed coordination ends with the stop cancelled and the exit cleared |
| ExitWitnesses.CrashAfterReprotectionOversells | main.py:4222-4233 | a run with one exit that sells fifteen shares of ten |
| ExitWitnesses.UnconfirmedReprotectionDoubles | main.py:3318-3331 | a run without a crash in the window whose unconfirmed, live replacement is replaced again at the next restart |
| ExitWitnesses.TimeoutAfterScalpOversells | main.py:4132-4148 | another one, through the stale cursor |
| ExitWitnesses.ExitMayBeBookedTwice | main.py:4407-4453 | a run that sells five and books ten |
| ExitWitnesses.LateEntryOversells | main.py:3551-3608 | a run that sells fourteen of ten, with no exit: the rebuilt position of an entry that filled on |
| ExitBooking.ExitBookedAtMostOnce | main.py:4407-4453 | in every run that does not die between booking a part of an exit's fill and saving the position, no part is booked twice and no exit for more than its fill |
| ExitBooking.DyingBooksTwiceIff | main.py:4407-4453 | dying in a reachable state can lead to booking a part of a fill a second time if and only if that part is booked and not yet in the file |
| ExitPolls.ResultFits | protective_stop.py:380-504 | a result made from true polls fits the order as it stands when it is used, however far the order has moved on |
| ExitPolls.FitsStays | protective_stop_exit.py:141-162 | it goes on fitting until it is written down |
| ExitDesk.Desk.Do | protective_stop_exit.py:199-532 | one write or call is one step of the machine, taken exactly when it is enabled |
| ExitDesk.Desk.ApplyConfirmedStopFill | main.py:2187-2462 | left alone it brings about the whole outcome on record, file, P&L and clearance; dying on the way it has saved nothing, or the whole position after the reservation |
| ExitDesk.Desk.Coordinate | protective_stop_exit.py:199-532 | creates no intent, sends no order and cancels at most once |
| ExitDesk.Desk.PrepareStopForExit | main.py:2465-2616 | when it clears, the stop can fill no more and held quantity plus its fill is its quantity |
| ExitDesk.Desk.PlaceExitOrder | executor.py:496-801 | sends at most one order, after its own intent, and only one that a valid clearance allows: the cleared instrument, action and quantity, against a stop in a clearance state |
| ExitDesk.Desk.ApplyExitFill | main.py:3031-3337 | a report that can be taken in leaves the position so much smaller as is new and the operation's cursor at the cumulative fill; dying on the way saves that or nothing; only re-protection may send one stop, which changes nothing of what is held |
| ExitDesk.Desk.RecoverStops | main.py:3642-3710 | sends no order, creates no intent, and changes nothing of what is held |
| ExitDesk.Desk.RecoverExits | main.py:3978-4488 | never sends an exit again; the position keeps what it held or takes in exactly what the report shows beyond its cursor, the latter once a fitting report is verified; at most one replacement stop, with its own intent |
| ExitDesk.Desk.RecoverEntries | main.py:3551-3639 | an existing position grows by exactly what the entry filled beyond what was taken in; no entry is sent, and at most one stop |
| ExitDesk.Desk.TradingDay | main.py:2713-3337 | any number of operations, the entry filling on, dying and restarting anywhere, entries recovered first: sold plus still sellable stays within what was bought |
| EntryProtocol.RunKeepsInv | main.py:3392-3639 | placing, crashing and recovering keep the entry invariant |
| EntryResults.RecoveryNeverSubmits | executor.py:330-452 | after a crash with a durable intent, no run ever sends the entry again |
| EntryResults.EntryFillAppliedExactlyOnce | pending_order_store.py:326-388 | the local side never exceeds the broker's fill, every share is counted once, and when the journal asks for nothing more the two are equal |
| EntryResults.RecoveryCatchesUp | main.py:3465-3639 | an undisturbed recovery goes through, and a current reading leaves local and broker fill equal |
| EntryResults.RecoveryIsIdempotent | main.py:3551-3639 | recovering again on the same report changes nothing |
| EntryResults.CloseIsFinalIff | main.py:3551-3575 | closing a position is final if and only if its entry is resolved and applied |
| Submission.LiveOrderIsUnresolved | executor.py:325-452 | in every run each live order belongs to exactly one durable intent, and that one is unresolved |
| Submission.OneLiveOrderPerFamily | pending_order_store.py:158-233 | per instrument at most one live ENTRY and one live exit of either kind |
| Reconciliation.Reconcile | executor.py:27-131 | the first listing with a match decides: found exactly for one, ambiguous for more, not found only at the deadline |
| Reconciliation.UniqueTagDecides | protective_stop.py:66-218 | with fresh tags never ambiguous, and found exactly when the order is listed with all its details |
| ProtectiveTrigger.NearestTick | protective_stop.py:221-275 | the trigger is the tick nearest to the raw level |
| ProtectiveTrigger.LosingSideIff | protective_stop.py:221-275 | the trigger is strictly on the losing side if and only if the raw level is, for BUY, under the first tick at or above the entry by more than half a tick, for SELL over the last tick at or below it by at least half |
| ProtectiveTrigger.TriggerOnLosingSide | protective_stop.py:221-275 | so a stop distance above half a tick is always enough |
| ProtectiveTrigger.TriggerMayEqualEntry | protective_stop.py:255-275 | a level that rounds onto the entry price |
| ProtectiveTrigger.TriggerMayPassEntry | protective_stop.py:255-275 | with an average entry price between two ticks, a BUY trigger above the entry |
| Candle.InProgressCandle.Update | candle_engine.py:50-57 | one tick folded into the forming candle, with the volume since the last report |
| Candle.SymbolCandleBuilder.AddTick | candle_engine.py:93-133 | exactly one tick's effect on the builder, and the candle it closed |
| Candle.BuilderIsBatch | candle_engine.py:84-133 | for any ticks and interval, the candles are the batch grouping of the ticks |
| CandleCombination.CombineEntryInto15m | candle_engine.py:142-185 | for any list of candles: one bar for each complete bucket in order, none for an incomplete one, and an error unless the interval divides 15 |
| CandleComposition.AggOfAgg | candle_engine.py:142-185 | grouping by k minutes and then by 15 is grouping by 15 |
| CandleComposition.CombinedIsAgg | candle_engine.py:158-185 | for candles in order, the dictionary of groups comes to batch grouping |
| CandleComposition.Composition | candle_engine.py:93-185 | for every tick sequence and every divisor of 15, the combined bars are exactly the 15-minute builder's finalized candles whose legs are all finalized |
| CandleComposition.VolumeConserved | candle_engine.py:107-131 | the candles hold all the volume traded between priced ticks |
| RateLimiter.ApiRateLimiter.Wait | api_rate_limiter.py:39-69 | grants after at most one sleep of at most one period, keeping every grant at least one period after the one `max_calls` before it |
| RateLimiter.WindowHoldsAtMostMax | api_rate_limiter.py:10-16 | so no window of one period holds more than `max_calls` grants |
| RateLimiter.NewLimiter | api_rate_limiter.py:18-37 | refuses exactly the non-positive arguments |
| PercentileRank.AverageRanks | matmon_watchlist_scoring.py:186-194 | for any valid sort, every row gets the number of smaller values plus half of its other ties |
| PercentileRank.PercentileNormalize | matmon_watchlist_scoring.py:166-197 | that rank over n - 1, with the empty and single-row cases |
| PercentileRank.OrderIsKept | matmon_watchlist_scoring.py:166-171 | results are ordered exactly as the values |
| PercentileRank.InUnitRange | matmon_watchlist_scoring.py:196-197 | results lie in [0, 1] |
| PercentileRank.TotalIsHalf | matmon_watchlist_scoring.py:182-197 | n results add up to n / 2, whatever the values |
| IncrementalIndicators.ADXState.Update | indicators_incremental.py:78-122 | one bar's effect on the state, and the gated report |
| IncrementalIndicators.AdxIsBatch | indicators.py:38-73 | for any bars whose high is not below their low and any period, the report after each bar is the batch ADX of its row |
| IncrementalIndicators.NeverAGap | indicators.py:58-72 | with a period of two or more, DX once defined stays defined: smoothed range and movement, once positive, stay so |
| IndicatorResults.AdxInRange | indicators_incremental.py:103-122 | every reported ADX lies in [0, 100] |
| IndicatorResults.FirstAdx | indicators_incremental.py:54-67 | the first ADX appears at row 2 * period - 2, in both forms, when DX is defined throughout |
| IndicatorResults.AllDefinedIff | indicators.py:58-72 | for well-formed bars DX is defined throughout if and only if its first possible row has one |
| IndicatorResults.SeedIsExactIff | indicators_incremental.py:231-251 | seeding restores the cold-start state if and only if there are 2 * period - 1 bars |
| IndicatorResults.ShortSeedNeverReports | indicators_incremental.py:244-277 | a seed of fewer bars than the period is not a number, and no ADX is ever reported after it |
| IndicatorResults.SeedThenContinue | indicators_incremental.py:203-283 | continuing from such a seed reports the batch value of the whole series |
| IndicatorResults.VolumeSeedIsExactIff | indicators_incremental.py:258-262 | a remark: the volume seed is the window of the history if and only if the history fills it |
| IndicatorResults.SymbolIndicatorState.UpdateAtr | indicators_incremental.py:164-190 | reports the batch rolling mean of the true range of all bars so far |
| IndicatorResults.SymbolIndicatorState.UpdateVolumeAvg | indicators_incremental.py:195-201 | reports the batch rolling mean of the volume |
| IndicatorResults.SymbolIndicatorState.UpdateAdx | indicators_incremental.py:192-193 | reports the batch ADX of all bars so far, if no high is below its low |
| IndicatorResults.SymbolIndicatorState.SeedEntry | indicators_incremental.py:253-268 | the seeded state is that of the whole history exactly when the volumes fill the window |
| Freeze.FrozenEntry.CaptureWorker | matmon_post_di_freeze.py:80-136 | the first read with three valid ticks decides and freezes its first three; otherwise the deadline or a failure does |
| Freeze.StepKeepsInv | matmon_post_di_freeze.py:139-224 | every interleaved access keeps captures bound to their own signal, and ready ones unchanged |
| Freeze.FrozenEvidenceIsFresh | matmon_post_di_freeze.py:193-224 | whatever a consumer receives for T0 is three valid ordered ticks of its symbol from [T0, T0 + window], frozen by T0's own worker |
| Freeze.ReadyIsFinal | matmon_post_di_freeze.py:41-49 | a ready capture never changes again |
| QuoteConfirmation.EvaluateFromFrozen | matmon_quote_confirmation.py:72-131 | judges the first three valid ticks end to end |
| QuoteConfirmation.BatchVerdict | matmon_quote_confirmation.py:51-70 | a frozen batch confirms BUY exactly when neither price ever falls and both end higher, SELL in mirror image, never both |
| QuoteConfirmation.ConfirmedBuyIsFreshAndRising | matmon_quote_confirmation.py:151-168 | from any interleaving to the verdict: fresh, rising, and not a SELL |
| Hybrid.Position.Configure | hybrid_exit.py:17-94 | a plan is attached exactly when the position can be split, with 1 <= scalp <= q - 1, scalp + runner = q and targets ordered on the profitable side |
| Hybrid.Position.ApplyConfirmedFill | hybrid_exit.py:113-146 | advances the plan as a function of the old one |
| Hybrid.ScalpMachine | hybrid_exit.py:97-146 | over any series of priced scalp fills, held = runner + open scalp, and the runner stage is entered exactly when held = runner |
| Hybrid.SplitSurvivesIff | main.py:3175-3203 | a remark on one fill: the sum survives if and only if it was priced |
| Pnl.PnlTelescopes | main.py:4302-4437 | with positive averages, the stop path has booked all that was applied at its latest cumulative notional if and only if that notional grew with every part, and then the exit path has booked the same; the exit path always telescopes over what it took |
| Pnl.StopPathStopsBooking | main.py:2318-2382 | once an average is missing, the stop path never books again |
| Pnl.UnpricedFillIsAppliedNotBooked | protective_stop_store.py:588-647 | the fill without a price is applied and not booked |
| Pnl.ExitPathResumes | main.py:4302-4437 | the exit path loses the unpriced part and the next one, and books exactly from there on |

## Left out

- Real file I/O, locking, JSON, logging, timestamps and free-text fields: a store request
  is one atomic step. Labels of the coordination state are only in `StopStore`.
- Paper mode: it bypasses the protocol with synthetic fills.
- `matmon_eod_squareoff.py`: a separate supervisor that cancels and exits on its own; the
  results are about the in-process coordinator.
- Margin and circuit checks before an entry, signals, filters, scheduling and reports:
  they decide whether to call, not what a call does.
- Previous-day entries at startup: they are refused or only marked, never rebuilt.
- ExitProtocol follows one symbol: its two journals are the newest stop record and the newest exit
  record, older ones being resolved; the whole journals are `StopStore`, `PendingStore` and `Submission`.
- EntryProtocol follows one operation; exits of the position it builds are single steps there.
- ExitDesk.Desk.TradingDay: poll results are arguments that count only when they fit the broker's
  state; that the polling loops return such results is `ExitPolls.ResultFits` and
  `OrderVerification.ResultIsSound`. The entry's own fills fall between operations there, and between
  any two steps in `ExitSafety`.
- ExitSafety.NoOversell: assumes the three hypotheses where the code does not establish them, because
  without them it is false (findings 1, 2 and 4); `ExitReprotection.FirstExitNeverOversells` asks only
  for what happens in the run.
- ExitProtocol, blocking flags: `automated_exit_blocked` and `manual_reconciliation_required` are not
  part of the state, so the machine may attempt more than the program does.
- StopStore.StopStore.Create: a tag of letters and digits outside ASCII is refused here and accepted
  by `isalnum`; the program only makes ASCII tags.
- PendingStore.PendingStore.CreateIntent: the same for order tags.
- ExitProtocol, price of a fill: a derived price that is not positive is a call that gives up before
  changing anything; prices themselves are in `Pnl`, costs are not modelled.
- Indicators.AdxAt: a division by a zero range is undefined; in floating point it is undefined as well,
  through an infinite or undefined intermediate value.
- IndicatorResults.SeedIsExactIff: a state whose smoothed values are not numbers carries a flag
  instead of the values.
- EMA and VWAP updates: one line each, with nothing across rows beyond the mean already proved.
- Missing or malformed row values: ranks are over the numbers they are read as.
- `winsorize` and the scoring formulas: rounding of positions and weighted sums.
- Floating-point rounding everywhere.
- `evaluate_quote_window` against the live buffer: only the frozen path is modelled.
