# Trading platform: a verified model

This project models the stateful core of a CFD trading platform and proves what it guarantees.

- **Order engine** (`Orders`, `OrderCaches`, `RedisStores`, `EngineSteps`, `EngineInvariant`, `EngineSafety`,
  `EngineTheorems`, `EngineQuotes`, `HandlerRuns`, `Handlers`, `TickGuarantees`, `SequentialCalls`, `EngineOutcomes`, with
  `Symbols` and `Subjects`).
  Redis is the source of truth for orders; an in-memory cache is the fast index of the pending ones. Placing,
  ticking and cancelling run as three concurrent tasks, each taking one message at a time. `EngineSteps` is the
  transition system: one step is one Redis command, one script or one cache call, any step of any task may come
  next, steps may fail, and the process may restart anywhere, its start-up reads failing or not. `Handlers` holds the
  handlers as they are written, over a cache object and a Redis store; each is proved to do what its steps do when
  nothing runs in between, so what is proved about all runs is about them. `EngineOutcomes` says what the messages
  bring about in terms of the messages themselves.
- **Ledger and position book** (`Ledgers`, `LedgerTheorems`, `LedgerOutcomes`): reservation, fill and settlement of
  margin, volume-weighted positions, idempotency keys and deposits, one command at a time, with a failure possible
  between any two Redis calls of an order and any two field writes of a deposit. `BalanceRaces` lets the handlers of one
  user's balance interleave.
- **Risk arithmetic** (`EffectiveLeverage`, `Slippage`, `Liquidation`): tiered leverage as the engine and the web client
  compute it, slippage in basis points, margin and liquidation price.
- **Unrealized profit** (`UnrealizedIndex`): per-position micro-USD and the per-user aggregate, with any of a refresh's
  Redis calls failing.
- **Data provider** (`GroupFingerprint`, `PublishLoop`, `PublishSteps`, `PublishDelivery`, `Watchdog`): the price loop that
  skips unchanged prices, as whole passes and step by step, with messages lost on the way out, and the stale-feed watchdog.
- **Price-stream client** (`SymbolKeys`, `PriceStream`) and **Redis circuit breaker** (`CircuitBreaker`).

Exact decimals are reals. Identifiers are natural numbers, 32-bit and 64-bit integers are bounded where the bound matters,
and strings are ASCII as far as case and white space go.

`dafny verify dfyconfig.toml` checks the whole project.

## Where the code does not do what is hoped of it

- A slippage rejection is stored without a guard. It is the only step that ever changes a finished order
  (`FinishedChangesIff`), and even with one message handled at a time it can overwrite a filled market order: exactly
  when a tick tries a cache entry left over from a fill whose events went unpublished and the price would slip now
  (`FinishedOverwrittenIff`, with a reachable run in `FilledMarketOrderMarkedRejected`). Without failed publishes every
  order is finished once and for good (`FinishedForGood`).
- Start-up swallows reads that fail: a pending set it cannot list is taken for empty, a record it cannot get for missing.
  The orders it overlooks so are out of reach of every tick until the next start-up, however far they are crossed
  (`OverlookedNeverFilled`, `CrossedOrderRestsIff`, with a reachable run in `CrossedOrderOverlooked`).
- The cache index is exact at rest except after such a start-up and a named set of broken-off steps (`CacheExactIff`,
  `CleanUnlessHarmful`, with reachable runs in `LeftUnqueued` and `CancelOvertakesCaching`). A stale entry of a filled order is healed by the
  next tick that would fill it; one of a cancelled order is not (`StaleEntryHealed`).
- Quotes are kept under a symbol, a colon and a group, so a symbol with a colon can be filled at another symbol's
  quote (`SharedKeyIff`, `OwnQuoteUnlessColon`, with a reachable run in `FilledAtForeignQuote`).
- A new position is written before it is listed. A failure in between leaves it unseen by later orders, and the user
  ends up with two open positions of one symbol and side (`OnePositionIff`, `PositionHoldsAllIff`, `TwoOpenPositions`).
- A deposit is credited field by field, so a failure can leave a balance that does not add up (`MoneyConserved`).
  Balances and requests are read and written without a lock, so concurrent handlers can lose a deposit or a margin, or
  credit a deposit twice (`MoneyKeptIff`, `CreditedTwiceIff`, with runs in `DepositLost`, `MarginLost`, `CreditedTwice`).
- A refresh of unrealized profit ignores an aggregate script that does not run and takes a swap it cannot read for zero,
  so a user's aggregate can stay wrong until a later refresh touches that user (`RefreshCoherentIff`, `TicksCoherentIff`,
  with both failures in `AggregateLeftBehind`).
- A markup change whose clearing lands between a lookup and the record it leads to, or a lookup that fails once, leaves
  a group on a stale price until the raw price moves (`RecordedCurrentIff`, `LateClearLosesMarkup`,
  `FailedLookupLosesMarkup`). A price is put on record even if its price message or ticks failed to go out, and is then
  not sent again (`DeliveredCurrentIff`, `LostMessageNotRepeated`).
- Raising leverage moves the liquidation price away from entry when the maintenance ratio exceeds the mean of the two
  initial margin ratios (`LeverageMovesLiquidation`, `LeverageMayMoveLiquidationAway`).
- The ledger executes a triggered limit order at its limit even where the quote is better, while the live engine fills it at the
  quote (`VerdictIs`, `FilledAtItsSide`).
- The client and the engine part at a zero notional and on unreadable rungs (`ClientDisagreesIff`).
- The group fingerprint collides for sets whose ids fall into the same pieces at the separator (`FingerprintsEqualIff`).
- A symbol key is stable only if no blank is left at the ends once slashes and hyphens are gone (`KeyIdempotentIff`,
  `KeptIffTidy`). Overlapping sockets lose wanted symbols that are outside the queue (`OverlapHarmlessIff`,
  `ReadyHasSentIff`, `OverlapForgets`). Unsubscribing does not reach the queue (`UnsubscribedAskedAgainIff`,
  `UnsubscribedReturns`).

## Model

| member | source | states |
|---|---|---|
| EngineTheorems.RunGood | apps/order-engine/src/engine/tick_handler.rs:98-524 | every reachable state of every interleaving of placing, ticking, cancelling, failing and restarting satisfies the engine invariant |
| EngineSafety.NextGood | apps/order-engine/src/engine/order_handler.rs:159-693 | every single step keeps the invariant, and changes a stored order only by finishing a pending one or by marking a market order rejected |
| EngineTheorems.LimitOrderFinal | apps/order-engine/src/engine/tick_handler.rs:171-227 | in every interleaving a limit order only goes from pending to filled or cancelled, keeps its terms, and once finished never changes |
| EngineTheorems.FilledAtMostOnce | apps/order-engine/lua/atomic_fill_order.lua:26-60 | over every run from an empty system no order is filled twice by the script, and every filled order was filled by it |
| EngineTheorems.FinishedChangesIff | apps/order-engine/src/engine/slippage_reject.rs:60-81 | one step changes a finished order exactly when it stores a slippage rejection over an order filled or cancelled since it was copied |
| EngineTheorems.FilledOrdersProtected | apps/order-engine/src/engine/tick_handler.rs:188-316 | every filled order in every reachable state is filled in full at a positive price; a limit is respected; a market fill deviates from the snapshot's ask for a buy, its bid for a sell, by at most the tolerance |
| EngineQuotes.FilledOrdersQuoted | apps/order-engine/src/engine/tick_handler.rs:98-316 | every filled order in every reachable state carries its side of a quote that a tick message of the run brought, for its symbol and an eligible group or under a key at which the order looks |
| EngineOutcomes.FilledAtItsSide | apps/order-engine/src/engine/tick_handler.rs:188-316 | in every interleaving a filled buy carries the ask and a filled sell the bid of a tick message of the run that was for it, an ask under the bid being raised to the bid and a basis point |
| EngineOutcomes.StoredAsAsked | apps/order-engine/src/engine/order_handler.rs:276-327 | in every interleaving every stored order carries, field by field, the terms of an acceptable command of the run that named it |
| EngineOutcomes.CancelledByOwner | apps/order-engine/src/engine/cancel_handler.rs:75-90 | in every interleaving a cancelled order was named by a cancel of the run that its owner sent |
| EngineQuotes.SharedKeyIff | apps/order-engine/src/engine/cache.rs:16-22 | two quotes share a key iff symbol and group are the same or a colon in one symbol makes it run into the other's group |
| EngineQuotes.OwnQuoteUnlessColon | apps/order-engine/src/engine/order_handler.rs:98-156 | where neither symbol has a colon, the quote is of the order's own symbol and of its own group or of none, any group serving an order without one |
| EngineTheorems.CacheAtRest | apps/order-engine/src/engine/cache.rs:48-81 | at rest the index is the pending orders that were queued and not overlooked by start-up plus the stale entries, filed under their normal-form symbols, with exact copies |
| EngineTheorems.CacheExactIff | apps/order-engine/src/engine/cache.rs:48-81 | at rest the index is exactly the pending orders iff nothing is stale and no pending order was left unqueued or overlooked by the last start-up |
| EngineTheorems.CleanUnlessHarmful | apps/order-engine/src/engine/order_handler.rs:321-353 | the steps that can spoil the agreement are exactly the named broken-off ones and start-ups that overlook a queued pending order |
| EngineTheorems.LeftUnqueued | apps/order-engine/src/engine/order_handler.rs:321-337 | any acceptable order whose placing fails, or whose engine restarts, between record and pending set ends up pending and in neither set nor cache |
| EngineTheorems.CancelOvertakesCaching | apps/order-engine/src/engine/cancel_handler.rs:42-147 | a run in which a cancel between pending set and cache leaves a cancelled order in the cache |
| EngineTheorems.CacheAgreesAfterHarmlessRun | apps/order-engine/src/engine/order_handler.rs:321-340 | in every run without such a step the cache is exact whenever the engine rests, and a restart rebuilds that same cache iff it overlooks nothing |
| EngineTheorems.RestartRebuilds | apps/order-engine/src/engine/warm_cache.rs:17-64 | from any reachable state and with any reads failing, a restart leaves exactly the queued pending orders it does not overlook in the index, which is exact iff it overlooks none and none is unqueued |
| EngineTheorems.RestartRestores | apps/order-engine/src/engine/warm_cache.rs:17-64 | at rest with nothing stale, a restart rebuilds the very cache that was there iff it overlooks the same pending orders as the last one |
| EngineTheorems.PendingCachedIff | apps/order-engine/src/engine/tick_handler.rs:514-521 | with publishes failing anywhere, at rest a pending order is in the cache, with an exact copy, iff its own placing did not break off before it was queued and the last start-up did not overlook it |
| EngineTheorems.OverlookedNeverFilled | apps/order-engine/src/engine/warm_cache.rs:33-46 | in every run up to the next start-up, an order that start-up overlooked stays uncached and pending or gets cancelled, and is never filled or rejected |
| HandlerRuns.FinishTickIsRun | apps/order-engine/src/engine/tick_handler.rs:143-256 | a tick handled without interruption is one of the interleaved runs |
| HandlerRuns.FinishPlaceIsRun | apps/order-engine/src/engine/order_handler.rs:159-693 | so is a placing handled without interruption |
| HandlerRuns.FinishCancelIsRun | apps/order-engine/src/engine/cancel_handler.rs:42-147 | so is a cancel handled without interruption |
| Handlers.OrderEngine.HandleTick | apps/order-engine/src/engine/tick_handler.rs:98-140 | parses the subject, drops or repairs the quote, and leaves the state the uninterrupted tick run leaves; a malformed subject changes nothing |
| Handlers.OrderEngine.ProcessTick | apps/order-engine/src/engine/tick_handler.rs:143-256 | stores and caches the quote and runs the loop over the pending ids, or returns early when nothing is pending and the quote is known |
| Handlers.OrderEngine.TryPending | apps/order-engine/src/engine/tick_handler.rs:171-231 | the loop over the pending ids is the loop of the step system |
| Handlers.OrderEngine.ProcessPending | apps/order-engine/src/engine/tick_handler.rs:172-227 | one turn skips finished, foreign-group and uncrossed orders and tries the rest |
| Handlers.OrderEngine.Decide | apps/order-engine/src/engine/tick_handler.rs:258-321 | leverage before slippage: fill, refuse or leave alone |
| Handlers.OrderEngine.ExecuteFill | apps/order-engine/src/engine/tick_handler.rs:258-524 | carries the decision out to the end, including the healing of a fill found already done |
| Handlers.OrderEngine.RunFillScript | apps/order-engine/src/engine/tick_handler.rs:318-524 | the script's three replies and a failed publish lead to the states the steps lead to |
| Handlers.OrderEngine.RejectMarketOrder | apps/order-engine/src/engine/slippage_reject.rs:17-84 | publishes first, then overwrites the record, drops the cache entry and the pending-set member |
| Handlers.OrderEngine.SyncAndDrop | apps/order-engine/src/engine/tick_handler.rs:514-521 | brings the cached copy up to date and removes it |
| Handlers.OrderEngine.ResolveMarketQuote | apps/order-engine/src/engine/order_handler.rs:98-156 | cached group tick, cached global tick, stored group quote, stored global quote, in that order |
| Handlers.OrderEngine.FillImmediately | apps/order-engine/src/engine/order_handler.rs:365-648 | a market order is tried at once when a quote and a leverage are to be had |
| Handlers.OrderEngine.HandlePlaceOrder | apps/order-engine/src/engine/order_handler.rs:159-693 | duplicate and invalid commands change nothing; otherwise key, record, pending set, cache and immediate fill as in the step system |
| Handlers.OrderEngine.HandleCancel | apps/order-engine/src/engine/cancel_handler.rs:42-147 | cancels through the guarded script the order its owner names, and uncaches it unless the publish fails |
| Handlers.OrderEngine.WarmSymbol | apps/order-engine/src/engine/warm_cache.rs:27-58 | adds to the cache exactly the pending members of one pending set whose records can be got, and none if the set cannot be listed |
| Handlers.OrderEngine.WarmOrderCache | apps/order-engine/src/engine/warm_cache.rs:17-64 | start-up fails iff the sets cannot be named, and else builds exactly the cache of what it can read of them, in whatever order the sets come |
| OrderCaches.OrderCache.AddPendingOrder | apps/order-engine/src/engine/cache.rs:48-56 | files the id under the normal-form symbol and stores the copy |
| OrderCaches.OrderCache.RemovePendingOrder | apps/order-engine/src/engine/cache.rs:58-65 | takes id and copy out and touches nothing else |
| OrderCaches.OrderCache.GetPendingOrders | apps/order-engine/src/engine/cache.rs:67-73 | lists the pending ids of a symbol, each once, in some order |
| OrderCaches.OrderCache.GetOrder | apps/order-engine/src/engine/cache.rs:75-77 | the copy stored under the id, if any |
| OrderCaches.OrderCache.UpdateCachedOrder | apps/order-engine/src/engine/cache.rs:79-81 | overwrites the copy under its own id and leaves the index alone |
| OrderCaches.OrderCache.UpdateLastTick | apps/order-engine/src/engine/cache.rs:83-87 | remembers the quote under the key of its symbol and group |
| OrderCaches.OrderCache.GetLastTick | apps/order-engine/src/engine/cache.rs:83-93 | finds the last quote of a symbol and group under their common key |
| RedisStores.RedisStore.FillOrder | apps/order-engine/lua/atomic_fill_order.lua:26-60 | fills only a pending order whose limit the price respects, else changes nothing and says why |
| RedisStores.RedisStore.CancelOrder | apps/order-engine/lua/atomic_cancel_order.lua:10-32 | cancels only a pending order |
| TickGuarantees.TickExact | apps/order-engine/src/engine/tick_handler.rs:143-256 | one tick decided order by order from the stored records: which change and how, and which leave the cache, whatever the order of the loop |
| EngineOutcomes.TickOutcome | apps/order-engine/src/engine/tick_handler.rs:98-316 | one raw tick message decided for each pending order: left alone unless it is for its symbol and group, reaches its limit (equality included) and finds it cached; else filled at the ask or bid, refused when off by more than the tolerance, or left for want of leverage |
| EngineOutcomes.TickRemembered | apps/order-engine/src/engine/tick_handler.rs:119-151 | after a tick the engine remembers its bid and its ask, or the repaired one, under its symbol and group |
| TickGuarantees.CrossedOrderRestsIff | apps/order-engine/src/engine/tick_handler.rs:143-231 | after a tick a pending limit order meant for it, crossed and with resolvable leverage, is still pending iff it was unqueued or overlooked by start-up; orders not meant or not crossed are unchanged |
| TickGuarantees.StaleEntryHealed | apps/order-engine/src/engine/tick_handler.rs:323-345 | a stale entry of a filled order that a tick would fill is evicted without touching the record; one of a cancelled order stays |
| TickGuarantees.TickOverwritesIff | apps/order-engine/src/engine/slippage_reject.rs:60-71 | an uninterrupted tick changes a finished order exactly when it tries a stale market entry that slips now, and then to a rejected record |
| SequentialCalls.HandleRests | apps/order-engine/src/engine/order_handler.rs:159-693 | every whole call leaves the engine at rest with the invariant intact |
| EngineOutcomes.PlaceOutcome | apps/order-engine/src/engine/order_handler.rs:159-648 | one placing message: a repeated key or unacceptable command changes nothing; else the key is used up and the command's own order stored, and it rests queued and cached, or is attempted at its side of the quote that comes first among group tick, global tick, stored group quote and stored global quote |
| EngineOutcomes.CancelChangesIff | apps/order-engine/src/engine/cancel_handler.rs:42-147 | one cancel message changes a record iff it names that order, comes from its owner and finds it pending; the order is then cancelled and out of its pending set |
| EngineOutcomes.QueuesExact | apps/order-engine/lua/atomic_fill_order.lua:26-60 | with whole calls, whatever fails to be published or read, each pending set holds exactly the pending orders of its symbol |
| SequentialCalls.FinishedOverwrittenIff | apps/order-engine/src/engine/slippage_reject.rs:60-81 | with whole calls, a finished order changes only by such a tick, and exactly then |
| SequentialCalls.FinishedForGood | apps/order-engine/src/engine/slippage_reject.rs:60-81 | with whole calls and no failed publish, every order, market orders included, is finished at most once |
| SequentialCalls.FilledMarketOrderMarkedRejected | apps/order-engine/src/engine/slippage_reject.rs:60-81 | a run of three calls in which a filled market order ends up marked rejected |
| SequentialCalls.FilledAtForeignQuote | apps/order-engine/src/engine/order_handler.rs:98-156 | a run of two calls in which a market order is filled at the quote of another symbol |
| SequentialCalls.CrossedOrderOverlooked | apps/order-engine/src/engine/warm_cache.rs:33-46 | for any limit order, any start-up that overlooks it and any quote that crosses it, a run of three calls in which the order rests pending, queued and uncached |
| Symbols.NormalizeIdempotent | apps/order-engine/src/engine/cache.rs:12-14 | normalising a symbol twice is normalising it once |
| Symbols.NormalFormIs | apps/order-engine/src/engine/cache.rs:12-14 | the normal form is the text between the first and last character that is no white space, small letters made capitals and nothing else changed |
| Subjects.GroupTickRoundTrip | apps/order-engine/src/subjects.rs:34-50 | a group tick is published under `ticks.`, symbol, dot and group, and parses back to them iff the symbol has no dot and the group is not empty |
| Subjects.GlobalTickRoundTrip | apps/order-engine/src/subjects.rs:29-50 | a global tick is published under `ticks.` and symbol, and parses back iff no dot comes before the symbol's last character |
| EffectiveLeverage.ComputeEffectiveLeverage | crates/risk/src/effective_leverage.rs:11-103 | the three loops and the clamp compute the declarative tier rule; the loop for open-ended rungs never finds anything |
| EffectiveLeverage.EffectiveLeverageFromTiers | src/shared/api/auth.api.ts:434-503 | the client's loops and its other clamp order compute the same rule over readable rungs |
| EffectiveLeverage.GetEffectiveLeverage | src/shared/api/auth.api.ts:509-525 | default bounds and default leverage where the rule gives none |
| EffectiveLeverage.RungMeaning | crates/risk/src/effective_leverage.rs:38-102 | the rule is the first of the highest-starting rungs whose start is at most and whose end is above the notional, else the first of the lowest rungs for a positive notional below all, else nothing |
| EffectiveLeverage.EffectiveMeaning | crates/risk/src/effective_leverage.rs:11-103 | exactly when there is an answer, and that it is the rung's leverage or the bound it would overstep |
| EffectiveLeverage.ListingOrderIrrelevant | crates/risk/src/effective_leverage.rs:38-91 | with distinct starts the order in which rungs are listed does not matter |
| EffectiveLeverage.ClientAgrees | src/shared/api/auth.api.ts:434-503 | both implementations agree on readable rungs iff the notional is not zero or the engine has no answer |
| EffectiveLeverage.ClientDisagreesIff | src/shared/api/auth.api.ts:434-503 | on every list of rungs they disagree iff bounds are in order, some rung serves the notional, and it is zero on a readable list or positive on an unreadable one |
| EffectiveLeverage.DisplayedIsEngines | src/shared/api/auth.api.ts:509-525 | the client displays the engine's leverage whenever there is one |
| EffectiveLeverage.ClientReadsOnPastBadRungs | src/shared/api/auth.api.ts:446-468 | an unreadable rung silences the engine but not the client |
| EffectiveLeverage.EffectiveOnLadder | crates/risk/src/effective_leverage.rs:38-102 | on a contiguous ladder the answer is the serving rung's leverage, clamped |
| EffectiveLeverage.MarginMonotone | crates/risk/src/margin.rs:5-8 | on such a ladder leverage never rises and required margin never falls as the notional grows |
| EffectiveLeverage.MarginBracketed | crates/risk/src/margin.rs:5-8 | margin lies between notional over the upper and over the lower user bound |
| Slippage.SlippageExact | crates/risk/src/slippage.rs:35-83 | rounding up and saturating lose nothing: an order passes iff it is within tolerance of the requested ask for a buy, the requested bid for a sell, or the tolerance is the largest integer |
| Slippage.CheckedIff | crates/risk/src/slippage.rs:35-83 | which orders are checked at all, against what, and when one exceeds |
| Liquidation.LiquidationExact | crates/risk/src/liquidation.rs:9-37 | a position is due for liquidation at a price iff size times entry over leverage, plus what the long has won or the short has, has fallen to the maintenance requirement |
| Liquidation.LeverageMovesLiquidation | crates/risk/src/liquidation.rs:9-26 | which way more leverage moves the liquidation price, and exactly when that is not away from entry |
| Liquidation.LeverageMayMoveLiquidationAway | crates/risk/src/liquidation.rs:9-26 | a long whose liquidation price moves further from entry as leverage doubles |
| Ledgers.Ledger.ExecutePlaceOrder | apps/order-engine/src/execution.rs:19-227 | the verdict and the whole new book, failing after the key, the reservation, the order record, the position record or its listing included |
| Ledgers.Ledger.JudgeOrder | apps/order-engine/src/execution.rs:23-130 | duplicate, no quote, no limit price, resting, no leverage, no funds or executed, decided in that order |
| LedgerOutcomes.VerdictIs | apps/order-engine/src/execution.rs:23-130 | each verdict case by case from the command, the quote and the free margin, the price being the ask for a market buy, the bid for a market sell and the limit for a limit order |
| Ledgers.Ledger.CarryOut | apps/order-engine/src/execution.rs:71-276 | what each verdict writes: nothing, a key and then a resting order, the key alone, or the key and then the fill |
| Ledgers.Ledger.Fill | apps/order-engine/src/execution.rs:132-179 | reservation, order record, position record, its place in the set and settlement, as far as the writes get |
| Ledgers.Ledger.BookAndSettle | apps/order-engine/src/execution.rs:155-179 | the position first, the settlement last, unless Redis fails in between |
| Ledgers.Ledger.ReserveMargin | apps/order-engine/src/execution.rs:103-134 | moves margin from free to locked, on the opening balance for a new user |
| Ledgers.Ledger.SettleMargin | apps/order-engine/src/execution.rs:175-179 | moves it from locked to used |
| Ledgers.Ledger.MergeFill | apps/order-engine/src/execution.rs:314-321 | size, volume-weighted price and margin of a position after one more fill |
| Ledgers.Ledger.UpdateUserPosition | apps/order-engine/src/execution.rs:278-350 | merges into a matching listed position if the scan finds one, in whatever order it scans, else writes a new record and then lists it, unless Redis fails in between |
| LedgerOutcomes.ExecutedPosition | apps/order-engine/src/execution.rs:278-350 | an executed buy leaves its size on a long, an executed sell on a short, of its user and symbol, new or enlarged, on the order's terms, and no other position changes |
| Ledgers.Ledger.ExecuteCancelOrder | apps/order-engine/src/execution.rs:352-392 | cancels only a pending order, whoever asks, and touches no balance or position |
| Ledgers.Ledger.CreateDepositRequest | apps/core-api/src/deposits.rs:40-91 | accepts amounts from 10 to a million in whole cents |
| LedgerOutcomes.RequestedIff | apps/core-api/src/deposits.rs:40-91 | a request is stored, for its user and amount and not approved, iff the amount is from ten to a million and a whole number of cents |
| Ledgers.Ledger.Approve | apps/core-api/src/deposits.rs:388-515 | marks a pending request and then credits the balance field by field, as far as the six writes get |
| LedgerTheorems.RunSound | apps/order-engine/src/execution.rs:19-392 | every run of quotes, orders, cancels and deposits, one at a time and broken off anywhere between two writes, keeps the ledger invariant |
| LedgerTheorems.MoneyConserved | apps/core-api/src/deposits.rs:463-515 | with commands one at a time, every balance left by an order or a deposit holds exactly the deposits whose credit reached each field plus the opening balance if given, with free margin not negative, and adds up iff no earlier deposit of the user broke off between equity and free margin |
| LedgerTheorems.StoredMoneyConserved | apps/core-api/src/deposits.rs:463-515 | the same of every stored balance |
| LedgerTheorems.CreditedOnce | apps/core-api/src/deposits.rs:420-447 | with approvals one at a time each request is credited at most once and only when approved |
| BalanceRaces.RacesKeepAddingUp | apps/order-engine/src/execution.rs:105-179 | however placings and approvals interleave and break off, a balance written whole adds up |
| BalanceRaces.MoneyKeptIff | apps/order-engine/src/execution.rs:105-179 | a balance write makes money appear in or vanish from a field (equity, locked, used or free margin) iff the stored field is no longer what it was in the copy |
| BalanceRaces.TimelyRunsConserve | apps/core-api/src/deposits.rs:463-515 | if every write works on a copy timely in a field, the field is what it should be throughout |
| BalanceRaces.CreditsAreSelections | apps/core-api/src/deposits.rs:401-447 | a request is credited as often as its status was read as pending |
| BalanceRaces.CreditedTwiceIff | apps/core-api/src/deposits.rs:401-447 | with no handler breaking off, a finished run has credited a request more than once iff a second handler read its status between the first reading and the marking |
| BalanceRaces.CreditedTwice | apps/core-api/src/deposits.rs:401-515 | two concurrent approvals that credit a request twice |
| BalanceRaces.DepositLost | apps/order-engine/src/execution.rs:105-134 | a deposit lost between an order's reading the balance and writing it back |
| BalanceRaces.MarginLost | apps/order-engine/src/execution.rs:105-179 | two concurrent orders of any margins, the first of which ends up neither locked nor used |
| LedgerTheorems.MarginsAtRest | apps/order-engine/src/execution.rs:132-179 | over every run of orders one at a time: nothing is locked iff no order with margin broke off; used margin is the sum over the position set iff none broke off after its position was listed, and over all position records iff none broke off after writing its record |
| LedgerTheorems.UnbrokenRunSettles | apps/order-engine/src/execution.rs:103-179 | in runs of orders one at a time of which none breaks off, locked is zero and used margin is the sum of the position margins, all positions being listed |
| LedgerTheorems.PositionIsItsFills | apps/order-engine/src/execution.rs:290-349 | a position's size, notional and margin are the sums over the fills booked into it, and its average price lies within any bounds on their prices |
| LedgerOutcomes.BuysAreLongs | apps/order-engine/src/execution.rs:278-350 | over every run a user's long size in a symbol is the sum of the user's executed buys that reached a position, the short size that of the sells |
| LedgerOutcomes.RecordsAsAsked | apps/order-engine/src/execution.rs:134-276 | over every run every order record carries the terms of a command of the run |
| LedgerOutcomes.StepRecords | apps/order-engine/src/execution.rs:352-392 | one event writes at most its own command's record; a cancel marks the pending order it names and no other |
| LedgerTheorems.PositionHoldsAllIff | apps/order-engine/src/execution.rs:290-349 | a position holds all that was booked for its user, symbol and side iff no fill was booked after an earlier one broke off between record and set |
| LedgerTheorems.OnePositionIff | apps/order-engine/src/execution.rs:290-349 | at most one open position per user, symbol and side iff no fill was booked after an earlier one broke off between position record and position set |
| LedgerTheorems.ScanOrderIrrelevant | apps/order-engine/src/execution.rs:290-313 | in every reachable state the scan ends at the same position in whatever order it goes |
| LedgerTheorems.TwoOpenPositions | apps/order-engine/src/execution.rs:344-347 | a run that ends with two open positions of the same user, symbol and side |
| LedgerTheorems.KeyEffectiveOnce | apps/order-engine/src/execution.rs:23-51 | once a command has had any effect, no later command of that user with that key has any, whatever happens in between |
| LedgerOutcomes.KeyNames | apps/order-engine/src/execution.rs:71-93 | a key that a command uses up names the order drawn for it, or its own if the order rests |
| UnrealizedIndex.PositionIndex.RefreshSymbol | apps/order-engine/src/engine/position_tick_unrealized.rs:93-213 | re-marks exactly the touched positions that can be read and written, recomputes the aggregates of exactly the owners whose script runs, with the swap it can read, does nothing without rates or listing, and fails only if the write does |
| UnrealizedIndex.WrittenIff | apps/order-engine/src/engine/position_tick_unrealized.rs:117-198 | exactly which positions a tick message writes, by trimmed symbol, trimmed group, status and failed calls |
| UnrealizedIndex.RefreshMarks | apps/order-engine/src/engine/position_tick_unrealized.rs:147-198 | a written position gets (bid - average) times size if long, (average - ask) times size if short, and that in dollars by the rates, nothing without one; a long gains iff the bid is above its average, a short iff the ask is below |
| UnrealizedIndex.PositionIndex.Batch | apps/order-engine/src/engine/position_tick_unrealized.rs:127-178 | the batch holds exactly the open positions of the symbol and group whose records can be read, with their new fields |
| UnrealizedIndex.PositionIndex.WriteBatch | apps/order-engine/src/engine/position_tick_unrealized.rs:185-198 | writes the batch as far as it gets and nothing else and names exactly its owners |
| UnrealizedIndex.PositionIndex.AggregateUser | crates/redis-model/lua/aggregate_user_unrealized_usd_e6.lua:14-34 | the aggregate is the sum over the user's open positions less the swap handed in |
| UnrealizedIndex.PositionIndex.AggregateAll | apps/order-engine/src/engine/position_tick_unrealized.rs:200-210 | recomputes the aggregates of the owners whose script runs and of nobody else, an unreadable swap counting as zero |
| UnrealizedIndex.ParseRates | apps/order-engine/src/engine/position_tick_unrealized.rs:38-55 | one bad rate voids the document; otherwise exactly the positive rates, with the dollar at one |
| UnrealizedIndex.InferQuote | apps/order-engine/src/engine/position_tick_unrealized.rs:77-90 | the first listed currency that ends the symbol, else the dollar |
| UnrealizedIndex.MicroError | crates/redis-model/src/user_unrealized_agg.rs:50-54 | truncation loses less than one micro-USD and never adds; amounts out of range count as nothing |
| UnrealizedIndex.RefreshCoherentIff | apps/order-engine/src/engine/position_tick_unrealized.rs:200-213 | after a refresh an affected user's aggregate is right iff the script ran and the swap was read or is zero, or the script did not run and the written marks make up for what was off; every other user's is as right or wrong as it was |
| UnrealizedIndex.TicksCoherentIff | apps/order-engine/src/engine/position_tick_unrealized.rs:93-213 | over any sequence of refreshes, whatever fails, each aggregate is off by exactly what follows from the last script run and the marks written since, and right iff that is nothing |
| UnrealizedIndex.TicksKeepCoherence | apps/order-engine/src/engine/position_tick_unrealized.rs:93-213 | a right aggregate stays right over any sequence of refreshes that write, run the user's script and read the swap |
| UnrealizedIndex.AggregateLeftBehind | apps/order-engine/src/engine/position_tick_unrealized.rs:200-210 | for any price, a refresh whose script does not run or whose swap read fails leaves a right aggregate wrong |
| UnrealizedIndex.AggregateError | crates/redis-model/src/user_unrealized_agg.rs:35-54 | over freshly marked positions the aggregate is less than n micro-USD from the exact net value of n open positions |
| UnrealizedIndex.RefreshIsExact | apps/order-engine/src/engine/position_tick_unrealized.rs:93-213 | so it is, at the tick's bid for longs and ask for shorts and the dollar rate of the quote currency, after a refresh that touches all of them with known rates and in which nothing fails for the user |
| GroupFingerprint.FingerprintExact | backend/data-provider/src/main.rs:481-491 | fingerprints of two listings are equal iff they list the same set of non-empty, separator-free ids |
| GroupFingerprint.FingerprintsEqualIff | backend/data-provider/src/main.rs:481-491 | for all ids whatever, fingerprints are equal iff the sorted ids fall into the same pieces at the separators |
| GroupFingerprint.FingerprintCollides | backend/data-provider/src/main.rs:481-491 | two such pairs of sets |
| PublishLoop.PriceLoop.RunPass | backend/data-provider/src/main.rs:464-612 | one pass with nothing in between, skipping what is on record and with any markup lookups failing, leaves exactly the specified memory and messages |
| PublishLoop.PriceLoop.PublishSymbol | backend/data-provider/src/main.rs:514-606 | each group's room, the symbol's room, the price message and the ticks get the marked-up quotes |
| PublishLoop.PriceLoop.HandToGroups | backend/data-provider/src/main.rs:517-534 | each group, and no other, gets its quote in its room and in the message, raw where the lookup failed |
| PublishLoop.PriceLoop.LookUp | backend/data-provider/src/pricing/markup_engine.rs:16-47 | the marked-up quote, or the raw one if the markup is missing or cannot be read |
| PublishLoop.PriceLoop.PublishTicks | backend/data-provider/src/main.rs:567-605 | one tick for the symbol without groups, else one per group |
| PublishLoop.SkippingLosesNothing | backend/data-provider/src/main.rs:464-612 | with whole passes and lookups that succeed, over every run of changes the messages are those of a loop that always publishes, and after a pass every priced symbol shows every group its current markup |
| PublishLoop.ShownAfterPass | backend/data-provider/src/pricing/markup_engine.rs:16-47 | right after a pass each group is shown, in room, tick and price message, the bid raised by its bid percentage and the ask by its ask percentage, everybody else the raw price |
| PublishSteps.UninterruptedPass | backend/data-provider/src/main.rs:464-612 | the loop's steps with nothing in between, lookups failing or not, make up that pass |
| PublishSteps.RunConsistent | backend/data-provider/src/main.rs:189-612 | step by step, with changes anywhere and lookups failing, every price on record is shown downstream as its lookups gave it |
| PublishSteps.RecordedCurrentIff | backend/data-provider/src/main.rs:506-607 | a price on record is current for every group iff no lookup behind it failed and no clearing landed between lookup and record, unless the quote came out right all the same |
| PublishSteps.GentleRunsLoseNothing | backend/data-provider/src/main.rs:189-612 | without such a lookup or clearing, and with everything else interleaved at will, the messages are those of a loop that always publishes and every record is current |
| PublishSteps.LateClearLosesMarkup | backend/data-provider/src/main.rs:518-607 | a run in which a clearing between lookup and record leaves a group on unmarked prices |
| PublishSteps.FailedLookupLosesMarkup | backend/data-provider/src/pricing/markup_engine.rs:24-34 | a run in which one failed lookup does |
| PublishDelivery.DeliveredCurrentIff | backend/data-provider/src/main.rs:545-607 | what the readers have of a price on record is current iff no lookup or clearing did harm and no latest message was lost, short of one that only repeated what had come through |
| PublishDelivery.LostMessageNotRepeated | backend/data-provider/src/main.rs:555-607 | a run in which a lost price message is not sent again by the next pass |
| Watchdog.FeedWatchdog.Look | backend/data-provider/src/main.rs:621-657 | after any history the counter is the current stale run modulo the threshold and the resyncs are the sum of the quotients |
| Watchdog.WatchdogCounts | backend/data-provider/src/main.rs:621-657 | counting check by check equals summing length over threshold across the maximal stale runs |
| SymbolKeys.KeyIdempotentIff | src/shared/utils/symbolKeyNormalize.ts:6-17 | a key normalises to itself iff no blank is left at either end of the stripped symbol |
| SymbolKeys.KeyOfPair | src/shared/utils/symbolKeyNormalize.ts:6-17 | a pair has the same key with a slash, a hyphen or neither and in small letters; that key is the pair, a last `USDT` becoming `USD` except for the euro and gold ones |
| SymbolKeys.NormalizeWsSubscribeSymbols | src/shared/ws/priceStreamClient.ts:8-19 | the loop yields the keys in order of first mention |
| SymbolKeys.WsSymbolsExact | src/shared/ws/priceStreamClient.ts:8-19 | each key once and all keys |
| PriceStream.PriceStreamClient.SubscribeTo | src/shared/ws/priceStreamClient.ts:339-355 | normalises, connects, then sends or queues |
| PriceStream.PriceStreamClient.Send | src/shared/ws/priceStreamClient.ts:326-337 | sends on a ready socket, else queues |
| PriceStream.PriceStreamClient.OpenSocket | src/shared/ws/priceStreamClient.ts:223-231 | opens a socket unless paused, open or connecting |
| PriceStream.PriceStreamClient.SetAuthToken | src/shared/ws/priceStreamClient.ts:161-185 | a new token resumes a paused client, and queues everything again when the endpoint changes |
| PriceStream.PriceStreamClient.OnOpen | src/shared/ws/priceStreamClient.ts:232-244 | a raw-feed socket asks again for everything; a gateway socket waits for its login |
| PriceStream.PriceStreamClient.OnAuthSuccess | src/shared/ws/priceStreamClient.ts:247-257 | flushes the queue |
| PriceStream.PriceStreamClient.OnAuthError | src/shared/ws/priceStreamClient.ts:258-260 | the client is no longer logged in |
| PriceStream.PriceStreamClient.OnTokenRetried | src/shared/ws/priceStreamClient.ts:258-282 | logs in again or pauses and closes |
| PriceStream.PriceStreamClient.OnClose | src/shared/ws/priceStreamClient.ts:293-304 | queues everything subscribed |
| PriceStream.PriceStreamClient.Leave | src/shared/ws/priceStreamClient.ts:310-324 | drops socket, queue and subscriptions |
| PriceStream.PriceStreamClient.UnsubscribeFrom | src/shared/ws/priceStreamClient.ts:357-359 | drops the keys from the subscribed set only |
| PriceStream.SubscriptionsSurvive | src/shared/ws/priceStreamClient.ts:161-359 | through any sequence of events every symbol wanted is queued or subscribed |
| PriceStream.ReadyMeansSent | src/shared/ws/priceStreamClient.ts:223-359 | with one socket at a time and a fixed endpoint, whenever ready every wanted symbol has been sent on this socket |
| PriceStream.ReadyMeansSentFromStart | src/shared/ws/priceStreamClient.ts:223-359 | so it is from the start |
| PriceStream.OverlapHarmlessIff | src/shared/ws/priceStreamClient.ts:223-231 | opening a socket over a closing one keeps everything wanted queued or sent iff it was queued or is being asked for |
| PriceStream.ReadyHasSentIff | src/shared/ws/priceStreamClient.ts:223-359 | in every run with a fixed endpoint, what a ready client has not sent is exactly what overlaps left outside the queue and nothing has brought back, so it has sent everything iff that is nothing |
| PriceStream.UnsubscribedAskedAgainIff | src/shared/ws/priceStreamClient.ts:357-359 | in every state, an unsubscribed key is asked for again at the next flush iff it was in the queue |
| PriceStream.KeptIffTidy | src/shared/ws/priceStreamClient.ts:247-257 | a subscription made before login is kept iff its key is stable |
| PriceStream.OverlapForgets | src/shared/ws/priceStreamClient.ts:223-231 | a run with overlapping sockets after which a wanted symbol is unsent on a ready socket |
| PriceStream.UnsubscribedReturns | src/shared/ws/priceStreamClient.ts:357-359 | a symbol taken back before login is subscribed all the same |
| PriceStream.OnlyAskedFor | src/shared/ws/priceStreamClient.ts:310-355 | over every run the client lists and queues only what was asked for since the last disconnect |
| PriceStream.ReadyNeedsLogin | src/shared/ws/priceStreamClient.ts:247-304 | a gateway-only client that is not logged in sends nothing, whatever comes short of a login |
| PriceStream.ShutUntilToken | src/shared/ws/priceStreamClient.ts:258-282 | after a retry that found no token the client opens no socket and sends nothing until it gets one or is disconnected |
| CircuitBreaker.Breaker.AllowRequest | backend/auth-service/src/redis_pool.rs:41-56 | lets requests through unless open and cooling; the first one after cooling makes it half-open |
| CircuitBreaker.Breaker.RecordFailure | backend/auth-service/src/redis_pool.rs:69-86 | the third failure on count opens the circuit and resets the count |
| CircuitBreaker.Breaker.RecordSuccess | backend/auth-service/src/redis_pool.rs:58-67 | resets the count and closes a half-open circuit |
| CircuitBreaker.AllowedIff | backend/auth-service/src/redis_pool.rs:41-86 | over every run a request is allowed iff it comes thirty seconds or more after every opening before it |
| CircuitBreaker.OpeningEndsThreeFailures | backend/auth-service/src/redis_pool.rs:58-86 | fewer than three failures are ever on count, and every opening ends three failures with nothing but requests between |
| CircuitBreaker.OneOfThreeOpens | backend/auth-service/src/redis_pool.rs:58-86 | of three failures with nothing but requests between them exactly one opens the circuit |
| CircuitBreaker.ClosesThroughTrial | backend/auth-service/src/redis_pool.rs:41-67 | after an opening the circuit closes only through an allowed trial and a later success |
| CircuitBreaker.TrialCloses | backend/auth-service/src/redis_pool.rs:41-67 | the next success after an allowed trial closes the circuit unless something opened it in between |

## Left out

- Position netting, closing and reopening, stop-loss and take-profit: the scripts' position and balance writes are not modelled; of the fill and cancel scripts, the guards and the writes to order and pending set are.
- The cancel script stores the status as `CANCELED` while the order record is read back with `CANCELLED`, so such a record cannot be read again; the model keeps one cancelled status. Readers treat both as not pending.
- NATS, JetStream, Redis and Postgres input and output, serialisation, logging and metrics: a failed call is a fault of the step, a refused publish or a failed start-up read a parameter of the handler.
- The order validator's checks on state elsewhere: their outcome is a parameter of placing.
- Idempotency keys never expire, order ids are fresh except for redeliveries with a recorded key, and the stored quotes are written by the tick handler only.
- Text-to-number parsing, decimal rounding, JavaScript and Lua floating point (the aggregate script formats large totals in exponent form), and white space and case outside ASCII.
- Symbol enabling in the cache, order expiry, notifications and the per-order timestamps.
- The open-orders set, stop-loss and take-profit fields, events and the Postgres copies in the ledger; a record written through one pipeline is written whole.
- execution.rs stores every field of a record as text and reads it back into integers and optional fields (`get_redis_hash`, lines 405-415), which such text does not parse as: the model reads records back as they were written, a field never written counting as zero.
- LedgerTheorems.RunSound: takes commands one at a time; handlers that share a balance are interleaved in `BalanceRaces` only, with balances written whole, and two concurrent orders under one idempotency key are not modelled.
- PublishLoop.SkippingLosesNothing: is about whole passes and successful lookups; `PublishSteps` has the rest.
- PublishSteps.RecordedCurrentIff: a markup change and its clearing are one step, and it is about messages as handed over; `PublishDelivery` has those that are lost on the way.
- EngineSteps.MarketQuote: the quote for an immediate fill is looked up in one step that cannot fail, whereas the source reads the cache and then up to two stored quotes, taking a read that fails for no quote.
- A script that fails is taken to have had no effect. A reply lost after the script ran is, for a tick or a cancel, the same as a publish that fails after it; on the placing path, where such a publish is only logged, it is not modelled.
- The broadcaster's own normalisation and second application of the markup to its rooms: rooms are modelled by what the loop hands to them.
- UnrealizedIndex.ParseRates: when two currency codes differ only in case or blanks, which of their rates wins depends on the hash map's order; the contract says it is one of them.
- PriceStream.ReadyMeansSent: the queue of symbols is a set here, so the order in which symbols are named in one message is not modelled; timers, back-off and pings are left out, and socket callbacks are those of the present socket.
- Contention for the circuit breaker's lock: its calls run one at a time.
- Total margin over positions, free margin, clearing of position fields, session routing, login, admin and user interface: easy or plumbing.
