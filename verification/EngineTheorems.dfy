/** Whole-run guarantees of the engine, over every interleaving of its handlers, with failures and
    restarts anywhere. */
module EngineTheorems {
  import opened Contracts
  import opened Symbols
  import opened Orders
  import opened OrderCaches
  import opened RedisStores
  import opened EngineSteps
  import opened EngineInvariant
  import opened EngineSafety
  import opened Slippage

  lemma FreshGood()
    ensures Inv(FRESH)
  {
  }

  /** The invariant holds at the end of every run. */
  lemma {:induction false} RunGood(e: Engine, actions: seq<Action>)
    requires Inv(e) && AdmissibleRun(e, actions)
    ensures Inv(Run(e, actions))
    decreases |actions|
  {
    if actions != [] {
      NextGood(e, actions[0]);
      RunGood(Next(e, actions[0]), actions[1..]);
    }
  }

  // ---------------------------------------------------------------- finished orders stay finished

  /** A limit order, once filled or cancelled, never changes again, whatever runs; and filled or
      cancelled is all it can become. */
  lemma {:induction false} LimitOrderFinal(e: Engine, actions: seq<Action>, id: Id)
    requires Inv(e) && AdmissibleRun(e, actions)
    requires id in e.w.db.orders && e.w.db.orders[id].orderType.Limit?
    ensures
      var o, db' := e.w.db.orders[id], Run(e, actions).w.db;
      && id in db'.orders
      && SameTerms(o, db'.orders[id])
      && (o.status != Pending ==> db'.orders[id] == o)
      && (db'.orders[id].status == Pending || db'.orders[id].status == OrderStatus.Filled || db'.orders[id].status == Cancelled)
    decreases |actions|
  {
    if actions == [] {
      assert OrderOk(id, e.w.db.orders[id]);
    } else {
      NextGood(e, actions[0]);
      var db' := Next(e, actions[0]).w.db;
      assert OrderMoves(e.w.db.orders[id], db'.orders[id]);
      LimitOrderFinal(Next(e, actions[0]), actions[1..], id);
    }
  }

  /** From an empty system, no order is ever filled twice by the script, and the filled orders are
      among the logged ones. */
  lemma FilledAtMostOnce(actions: seq<Action>)
    requires AdmissibleRun(FRESH, actions)
    ensures
      var w := Run(FRESH, actions).w;
      var fills := w.history.fills;
      && (forall i, j :: 0 <= i < j < |fills| ==> fills[i].id != fills[j].id)
      && (forall id :: Status(w.db, id, OrderStatus.Filled) ==> exists i :: 0 <= i < |fills| && fills[i].id == id)
  {
    FreshGood();
    RunGood(FRESH, actions);
  }

  /** The step stores a slippage rejection over an order that has been filled or cancelled since the
      handler copied it. */
  predicate RefusesFinished(e: Engine, a: Action, id: Id) {
    && id in e.w.db.orders
    && (e.w.db.orders[id].status == OrderStatus.Filled || e.w.db.orders[id].status == Cancelled)
    && ((a == PlaceStep(false) && e.place.PlaceWork? && e.place.phase.Refusing? && e.place.phase.o.id == id)
        || (a == TickStep(false) && e.tick.TickWork? && e.tick.phase.Refusing? && e.tick.phase.o.id == id))
  }

  /** The slippage rejection is an unguarded write: it is the one step that changes a finished order,
      and it does so exactly when the order is no longer pending by the time it is written. */
  lemma FinishedChangesIff(e: Engine, a: Action, id: Id)
    requires Inv(e) && Admissible(e, a) && Finished(e.w.db, id)
    ensures id in Next(e, a).w.db.orders
    ensures Next(e, a).w.db.orders[id] != e.w.db.orders[id] <==> RefusesFinished(e, a, id)
  {
    match a
    case PlaceStep(fault) => PlaceChangesIff(e, fault, id);
    case TickStep(fault) => TickChangesIff(e, fault, id);
    case CancelStep(_) =>
    case PlaceArrives(_, _) =>
    case TickArrives(_, _, _, _) =>
    case CancelArrives(_, _) =>
    case Restart(_) =>
  }

  lemma PlaceChangesIff(e: Engine, fault: bool, id: Id)
    requires Inv(e) && Finished(e.w.db, id)
    ensures id in NextPlace(e, fault).w.db.orders
    ensures NextPlace(e, fault).w.db.orders[id] != e.w.db.orders[id] <==> RefusesFinished(e, PlaceStep(fault), id)
  {
    if e.place.PlaceWork? {
      PhaseChangesIff(e.w, e.place.phase, fault && !e.place.phase.Committed?, id);
    } else if e.place.Keyed? {
      assert id != e.place.cmd.orderId;
    }
  }

  lemma TickChangesIff(e: Engine, fault: bool, id: Id)
    requires Inv(e) && Finished(e.w.db, id)
    ensures id in NextTick(e, fault).w.db.orders
    ensures NextTick(e, fault).w.db.orders[id] != e.w.db.orders[id] <==> RefusesFinished(e, TickStep(fault), id)
  {
    if e.tick.TickWork? {
      TickWorkChangesIff(e, fault, id);
    } else {
      TickElsewhere(e, fault);
    }
  }

  lemma TickWorkChangesIff(e: Engine, fault: bool, id: Id)
    requires DbOk(e.w.db) && e.tick.TickWork? && PhaseOk(e.w.db, e.tick.phase) && Finished(e.w.db, id)
    ensures id in NextTick(e, fault).w.db.orders
    ensures NextTick(e, fault).w.db.orders[id] != e.w.db.orders[id] <==> RefusesFinished(e, TickStep(fault), id)
  {
    PhaseChangesIff(e.w, e.tick.phase, fault, id);
    assert NextTick(e, fault).w == PhaseStep(e.w, e.tick.phase, fault).0;
    assert OrderOk(id, e.w.db.orders[id]);
  }

  lemma TickElsewhere(e: Engine, fault: bool)
    requires !e.tick.TickWork?
    ensures NextTick(e, fault).w.db.orders == e.w.db.orders
  {
  }

  lemma PhaseChangesIff(w: World, ph: Phase, fault: bool, id: Id)
    requires DbOk(w.db) && PhaseOk(w.db, ph) && Finished(w.db, id)
    ensures id in PhaseStep(w, ph, fault).0.db.orders
    ensures PhaseStep(w, ph, fault).0.db.orders[id] != w.db.orders[id]
            <==> ph.Refusing? && !fault && ph.o.id == id && !Status(w.db, id, Rejected)
  {
    assert OrderOk(id, w.db.orders[id]);
    if ph.Refusing? && !fault && ph.o.id == id {
      assert SameTerms(ph.o, w.db.orders[id]);
    }
  }

  // ---------------------------------------------------------------- price protection

  /** No worse than its limit: at most that for a buy, at least that for a sell. */
  predicate WithinLimit(o: Order, price: real) {
    o.orderType.Limit? ==>
      o.limitPrice.Some? && if o.side.Buy? then price <= o.limitPrice.value else o.limitPrice.value <= price
  }

  /** A market order with a snapshot and a tolerance below the largest integer deviates from the snapshot's
      side it traded at by at most that many basis points. */
  predicate WithinTolerance(o: Order, price: real) {
    o.orderType.Market? && o.requestedBid.Some? && o.requestedAsk.Some? && o.maxSlippageBps.Some? ==>
      var reference := if o.side.Buy? then o.requestedAsk.value else o.requestedBid.value;
      var allowed := (if o.maxSlippageBps.value < 0 then 0 else o.maxSlippageBps.value) as real * reference;
      reference > 0.0 && o.maxSlippageBps.value < 0x7fff_ffff ==> -allowed <= (price - reference) * 10000.0 <= allowed
  }

  /** Every filled order in every reachable state is filled in full at a positive price, which is within
      its limit and its tolerance. */
  lemma FilledOrdersProtected(e: Engine, actions: seq<Action>, id: Id)
    requires Inv(e) && AdmissibleRun(e, actions) && Status(Run(e, actions).w.db, id, OrderStatus.Filled)
    ensures
      var o := Run(e, actions).w.db.orders[id];
      && o.filledSize == o.size
      && o.averageFillPrice.Some? && o.averageFillPrice.value > 0.0
      && WithinLimit(o, o.averageFillPrice.value)
      && WithinTolerance(o, o.averageFillPrice.value)
  {
    RunGood(e, actions);
    FilledPrice(Run(e, actions).w, id);
    FilledWithin(Run(e, actions).w.db.orders[id]);
  }

  lemma FilledPrice(w: World, id: Id)
    requires DbOk(w.db) && FillsOk(w) && Status(w.db, id, OrderStatus.Filled)
    ensures
      var o := w.db.orders[id];
      OrderOk(id, o) && o.averageFillPrice.Some? && o.averageFillPrice.value > 0.0
  {
    var i :| 0 <= i < |w.history.fills| && w.history.fills[i].id == id;
    assert FillOk(w.db, w.history.fills[i]);
  }

  lemma FilledWithin(o: Order)
    requires OrderOk(o.id, o) && o.status == OrderStatus.Filled
    ensures o.averageFillPrice.Some? && WithinLimit(o, o.averageFillPrice.value) && WithinTolerance(o, o.averageFillPrice.value)
  {
    if o.orderType.Market? && o.requestedBid.Some? && o.requestedAsk.Some? && o.maxSlippageBps.Some? {
      if (if o.side.Buy? then o.requestedAsk.value else o.requestedBid.value) > 0.0 {
        SlippageExact(o.side, o.averageFillPrice.value, o.requestedBid.value, o.requestedAsk.value, o.maxSlippageBps.value);
      }
    }
  }

  // ---------------------------------------------------------------- the cache agrees with Redis

  ghost predicate IndexExact(w: World) {
    forall id :: Indexed(w, id) <==> Status(w.db, id, Pending)
  }

  /** Pending, but left out of the index: its placing broke off before it was queued, or the last
      start-up overlooked it. */
  predicate LeftOut(w: World, id: Id) {
    Status(w.db, id, Pending) && (id in w.history.unqueued || id in w.history.overlooked)
  }

  /** At rest the index holds the pending orders, short of those left out, plus the stale ones; and the
      cached copies are the stored records as they were while pending. */
  lemma CacheAtRest(e: Engine)
    requires Inv(e) && AtRest(e)
    ensures forall id :: Indexed(e.w, id) <==>
      (Status(e.w.db, id, Pending) && !LeftOut(e.w, id)) || id in e.w.history.stale
    ensures forall symbol, id :: id in PendingIds(e.w.cache, symbol) ==>
      Indexed(e.w, id) && e.w.db.orders[id].symbol == NormalizeSymbol(symbol)
    ensures forall id :: id in e.w.cache.orders <==> Indexed(e.w, id)
    ensures forall id :: id in e.w.cache.orders && Status(e.w.db, id, Pending) ==> e.w.cache.orders[id] == e.w.db.orders[id]
  {
    IndexAtRest(e);
    CopiesAtRest(e);
    SymbolsAreNormal(e.w.db);
    forall symbol ensures forall id :: id in PendingIds(e.w.cache, symbol) ==>
      Indexed(e.w, id) && e.w.db.orders[id].symbol == NormalizeSymbol(symbol)
    {
      LookupsAtRest(e.w, symbol);
    }
  }

  lemma LookupsAtRest(w: World, symbol: string)
    requires NormalSymbols(w.db) && EntriesOk(w)
    ensures forall id :: id in PendingIds(w.cache, symbol) ==> Indexed(w, id) && w.db.orders[id].symbol == NormalizeSymbol(symbol)
  {
    NormalizeIdempotent(symbol);
  }

  /** At rest every copy is pending still, and the copy of a pending order is its record. */
  lemma CopiesAtRest(e: Engine)
    requires Inv(e) && AtRest(e)
    ensures forall id :: id in e.w.cache.orders <==> Indexed(e.w, id)
    ensures forall id :: id in e.w.cache.orders && Status(e.w.db, id, Pending) ==> e.w.cache.orders[id] == e.w.db.orders[id]
    ensures e.w.history.stale == {} ==> ExactCopies(e.w)
  {
    var w := e.w;
    forall id ensures id in w.cache.orders <==> Indexed(w, id) {
      if Indexed(w, id) {
        var key := NormalizeSymbol(w.db.orders[id].symbol);
        assert key in w.cache.pending && id in w.cache.pending[key];
      }
    }
    forall id | id in w.cache.orders && Status(w.db, id, Pending) ensures w.cache.orders[id] == w.db.orders[id] {
      assert OrderOk(id, w.db.orders[id]);
    }
  }

  lemma IndexAtRest(e: Engine)
    requires Inv(e) && AtRest(e)
    ensures forall id :: Indexed(e.w, id) <==> (Status(e.w.db, id, Pending) && !LeftOut(e.w, id)) || id in e.w.history.stale
  {
    var w := e.w;
    forall id ensures Indexed(w, id) <==> (Status(w.db, id, Pending) && !LeftOut(w, id)) || id in w.history.stale {
      assert id in w.history.unqueued ==> Limbo(w, e.place, id);
      assert Indexed(w, id) ==> Status(w.db, id, Pending) || Finished(w.db, id);
    }
  }

  /** At rest the index is exact precisely when nothing stale is in it and no pending order is left out. */
  lemma CacheExactIff(e: Engine)
    requires Inv(e) && AtRest(e)
    ensures IndexExact(e.w) <==> e.w.history.stale == {} && forall id :: !LeftOut(e.w, id)
  {
    IndexAtRest(e);
    assert forall id :: id in e.w.history.stale ==> Indexed(e.w, id) && Finished(e.w.db, id);
  }

  ghost predicate SameContents(c: CacheState, c': CacheState) {
    c'.orders == c.orders && forall symbol :: PendingIds(c', symbol) == PendingIds(c, symbol)
  }

  /** Whatever was in flight, the index that start-up builds is exact but for unqueued orders and those it
      overlooks. */
  lemma RestartRebuilds(e: Engine, unread: Unread)
    requires Inv(e)
    ensures
      var w', missed := Restarted(e, unread).w, Overlooked(e.w.db, unread);
      && (forall id :: Indexed(w', id) <==> Status(e.w.db, id, Pending) && id !in w'.history.unqueued && id !in missed)
      && (IndexExact(w') <==> missed == {} && forall id :: Status(e.w.db, id, Pending) ==> id !in w'.history.unqueued)
  {
    RestartGood(e, unread);
    var w' := Restarted(e, unread).w;
    IndexAtRest(Restarted(e, unread));
    assert w'.db == e.w.db && w'.history.stale == {} && w'.history.overlooked == Overlooked(e.w.db, unread);
  }

  /** At rest and with nothing stale, it is the very cache that was there, with the same ids for every
      symbol and the same copies, exactly if start-up overlooks just the pending orders that the last one
      overlooked. */
  lemma RestartRestores(e: Engine, unread: Unread)
    requires Inv(e) && AtRest(e) && e.w.history.stale == {}
    ensures SameContents(e.w.cache, Restarted(e, unread).w.cache)
            <==> forall id :: Status(e.w.db, id, Pending) ==> (id in e.w.history.overlooked <==> id in Overlooked(e.w.db, unread))
  {
    var e' := Restarted(e, unread);
    RestartGood(e, unread);
    SameIndexSameContents(e, e');
    IndexAtRest(e);
    RestartRebuilds(e, unread);
    forall id | id in e.w.history.unqueued ensures id !in Overlooked(e.w.db, unread) && id !in e.w.history.overlooked {
      assert Limbo(e.w, e.place, id);
    }
  }

  /** Of two engines at rest over the same store with nothing stale, the caches are the same if the
      indexes are. */
  lemma SameIndexSameContents(e: Engine, e': Engine)
    requires Inv(e) && AtRest(e) && Inv(e') && AtRest(e')
    requires e'.w.db == e.w.db && e.w.history.stale == {} && e'.w.history.stale == {}
    ensures SameContents(e.w.cache, e'.w.cache) <==> forall id :: Indexed(e'.w, id) <==> Indexed(e.w, id)
  {
    SymbolsAreNormal(e.w.db);
    CopiesAtRest(e);
    CopiesAtRest(e');
    ContentsAre(e.w, e'.w);
  }

  /** The cached orders are the indexed ones, with exact copies. */
  ghost predicate ExactCopies(w: World) {
    && (forall id :: id in w.cache.orders <==> Indexed(w, id))
    && (forall id :: id in w.cache.orders ==> id in w.db.orders && w.cache.orders[id] == w.db.orders[id])
  }

  lemma ContentsAre(w: World, w': World)
    requires w'.db == w.db && NormalSymbols(w.db) && EntriesOk(w) && EntriesOk(w') && ExactCopies(w) && ExactCopies(w')
    ensures SameContents(w.cache, w'.cache) <==> forall id :: Indexed(w', id) <==> Indexed(w, id)
  {
    if forall id :: Indexed(w', id) <==> Indexed(w, id) {
      forall symbol ensures PendingIds(w'.cache, symbol) == PendingIds(w.cache, symbol) {
        LookupsAtRest(w, symbol);
        LookupsAtRest(w', symbol);
        SameLookup(w, w', symbol);
        SameLookup(w', w, symbol);
      }
    }
  }

  lemma SameLookup(w: World, w': World, symbol: string)
    requires w.db == w'.db
    requires forall id :: Indexed(w, id) ==> Indexed(w', id)
    requires forall id :: id in PendingIds(w.cache, symbol) ==>
      Indexed(w, id) && w.db.orders[id].symbol == NormalizeSymbol(symbol)
    ensures PendingIds(w.cache, symbol) <= PendingIds(w'.cache, symbol)
  {
    NormalizeIdempotent(symbol);
  }

  ghost predicate Clean(w: World) {
    w.history.stale == {} && w.history.unqueued == {} && w.history.overlooked == {}
  }

  /** The step breaks off a handler between two writes that belong together: storing without queueing,
      caching an order finished meanwhile, or finishing an order without uncaching it. Or it is a
      start-up that overlooks a queued pending order. */
  predicate Harmful(e: Engine, a: Action) {
    match a
    case PlaceStep(fault) =>
      || (fault && e.place.Stored?)
      || (e.place.Queued? && Finished(e.w.db, e.place.cmd.orderId))
    case TickStep(fault) =>
      fault && e.tick.TickWork? && e.tick.phase.Committed? && InIndex(e.w, e.tick.phase.o)
    case CancelStep(fault) => fault && e.cancel.CancelCommitted? && InIndex(e.w, e.cancel.o)
    case Restart(unread) => e.place.Stored? || Overlooked(e.w.db, unread) != {}
    case _ => false
  }

  /** Those steps, and no others, can spoil the agreement. */
  lemma CleanUnlessHarmful(e: Engine, a: Action)
    requires Clean(e.w)
    ensures Clean(Next(e, a).w) <==> !Harmful(e, a)
  {
  }

  ghost predicate HarmlessRun(e: Engine, actions: seq<Action>)
    decreases |actions|
  {
    actions != [] ==> !Harmful(e, actions[0]) && HarmlessRun(Next(e, actions[0]), actions[1..])
  }

  /** In every run without such a step, whenever the engine comes to rest the cache is exact, and a
      restart at that point rebuilds it exactly if it overlooks nothing. */
  lemma CacheAgreesAfterHarmlessRun(actions: seq<Action>, unread: Unread)
    requires AdmissibleRun(FRESH, actions) && HarmlessRun(FRESH, actions)
    requires AtRest(Run(FRESH, actions))
    ensures
      var e := Run(FRESH, actions);
      && IndexExact(e.w)
      && (SameContents(e.w.cache, Restarted(e, unread).w.cache) <==> Overlooked(e.w.db, unread) == {})
  {
    FreshGood();
    RunGood(FRESH, actions);
    HarmlessKeepsClean(FRESH, actions);
    var e := Run(FRESH, actions);
    CacheExactIff(e);
    RestartRestores(e, unread);
    assert forall id :: id in Overlooked(e.w.db, unread) ==> Status(e.w.db, id, Pending);
  }

  lemma {:induction false} HarmlessKeepsClean(e: Engine, actions: seq<Action>)
    requires Clean(e.w) && HarmlessRun(e, actions)
    ensures Clean(Run(e, actions).w)
    decreases |actions|
  {
    if actions != [] {
      CleanUnlessHarmful(e, actions[0]);
      HarmlessKeepsClean(Next(e, actions[0]), actions[1..]);
    }
  }

  /** The run broke off the placing of order `id` between storing and queueing it. */
  ghost predicate BreaksOff(e: Engine, actions: seq<Action>, id: Id)
    decreases |actions|
  {
    && actions != []
    && ((e.place.Stored? && e.place.cmd.orderId == id && (actions[0] == PlaceStep(true) || actions[0].Restart?))
        || BreaksOff(Next(e, actions[0]), actions[1..], id))
  }

  /** The run's last start-up overlooked the order; `before` says so of the one before the run. */
  ghost predicate LastOverlooked(e: Engine, actions: seq<Action>, id: Id, before: bool)
    decreases |actions|
  {
    if actions == [] then before
    else LastOverlooked(Next(e, actions[0]), actions[1..], id,
                        if actions[0].Restart? then id in Overlooked(e.w.db, actions[0].unread) else before)
  }

  /** Publishes may fail anywhere: whenever the engine is at rest, a pending order is in the cache, with
      an exact copy, unless its own placing broke off between storing and queueing it or the last
      start-up overlooked it, and only then. */
  lemma PendingCachedIff(actions: seq<Action>, id: Id)
    requires AdmissibleRun(FRESH, actions) && AtRest(Run(FRESH, actions)) && Status(Run(FRESH, actions).w.db, id, Pending)
    ensures
      var w := Run(FRESH, actions).w;
      && (Indexed(w, id) <==> !BreaksOff(FRESH, actions, id) && !LastOverlooked(FRESH, actions, id, false))
      && (id in w.cache.orders <==> Indexed(w, id))
      && (id in w.cache.orders ==> w.cache.orders[id] == w.db.orders[id])
  {
    FreshGood();
    RunGood(FRESH, actions);
    BreaksOffIs(FRESH, actions, id);
    LastOverlookedIs(FRESH, actions, id);
    CacheAtRest(Run(FRESH, actions));
    assert id in Run(FRESH, actions).w.history.stale ==> Finished(Run(FRESH, actions).w.db, id);
  }

  lemma UnqueuedStep(e: Engine, a: Action, id: Id)
    ensures id in Next(e, a).w.history.unqueued
            <==> id in e.w.history.unqueued || (e.place.Stored? && e.place.cmd.orderId == id && (a == PlaceStep(true) || a.Restart?))
  {
  }

  lemma OverlookedStep(e: Engine, a: Action)
    ensures Next(e, a).w.history.overlooked == if a.Restart? then Overlooked(e.w.db, a.unread) else e.w.history.overlooked
  {
  }

  lemma {:induction false} BreaksOffIs(e: Engine, actions: seq<Action>, id: Id)
    ensures id in Run(e, actions).w.history.unqueued <==> id in e.w.history.unqueued || BreaksOff(e, actions, id)
    decreases |actions|
  {
    if actions != [] {
      UnqueuedStep(e, actions[0], id);
      BreaksOffIs(Next(e, actions[0]), actions[1..], id);
    }
  }

  lemma {:induction false} LastOverlookedIs(e: Engine, actions: seq<Action>, id: Id)
    ensures id in Run(e, actions).w.history.overlooked <==> LastOverlooked(e, actions, id, id in e.w.history.overlooked)
    decreases |actions|
  {
    if actions != [] {
      OverlookedStep(e, actions[0]);
      LastOverlookedIs(Next(e, actions[0]), actions[1..], id);
    }
  }

  // ---------------------------------------------------------------- orders that start-up overlooked

  /** No handler has the order in hand, and it is still pending or was cancelled. */
  ghost predicate OutOfReach(e: Engine, id: Id) {
    && id in e.w.db.orders && (e.w.db.orders[id].status == Pending || e.w.db.orders[id].status == Cancelled)
    && id !in e.w.cache.orders
    && (e.place.PlaceWork? ==> e.place.phase.o.id != id)
    && (e.tick.TickWork? ==> e.tick.phase.o.id != id)
    && (!e.place.PlaceIdle? ==> e.place.cmd.orderId != id)
  }

  lemma PhaseOutOfReach(w: World, ph: Phase, fault: bool, id: Id)
    requires ph.o.id != id && id in w.db.orders && id !in w.cache.orders
    ensures
      var (w', ph') := PhaseStep(w, ph, fault);
      && id in w'.db.orders && w'.db.orders[id] == w.db.orders[id] && id !in w'.cache.orders
      && (ph'.Some? ==> ph'.value.o.id != id)
  {
  }

  lemma AttemptsOwn(o: Order, q: Quote)
    ensures Attempt(o, q).Some? ==> Attempt(o, q).value.o == o
  {
  }

  lemma PlaceOutOfReach(e: Engine, fault: bool, id: Id)
    requires OutOfReach(e, id)
    ensures OutOfReach(NextPlace(e, fault), id)
  {
    if e.place.PlaceWork? {
      PhaseOutOfReach(e.w, e.place.phase, fault && !e.place.phase.Committed?, id);
    } else if e.place.Accepted? && MarketQuote(e.w, e.place.cmd).Some? {
      AttemptsOwn(MakeOrder(e.place.cmd), MarketQuote(e.w, e.place.cmd).value);
    }
  }

  lemma TickOutOfReach(e: Engine, fault: bool, id: Id)
    requires Inv(e) && OutOfReach(e, id)
    ensures OutOfReach(NextTick(e, fault), id)
  {
    if e.tick.TickWork? {
      PhaseOutOfReach(e.w, e.tick.phase, fault, id);
    } else if e.tick.Looping? && e.tick.ids != [] && e.tick.ids[0] in e.w.cache.orders {
      assert e.w.cache.orders[e.tick.ids[0]].id == e.tick.ids[0];
      AttemptsOwn(e.w.cache.orders[e.tick.ids[0]], e.tick.q);
    }
  }

  lemma StepOutOfReach(e: Engine, a: Action, id: Id)
    requires Inv(e) && Admissible(e, a) && OutOfReach(e, id) && !a.Restart?
    ensures OutOfReach(Next(e, a), id)
  {
    match a
    case PlaceStep(fault) => PlaceOutOfReach(e, fault, id);
    case TickStep(fault) => TickOutOfReach(e, fault, id);
    case CancelStep(fault) => CancelOutOfReach(e, fault, id);
    case _ =>
  }

  lemma CancelOutOfReach(e: Engine, fault: bool, id: Id)
    requires OutOfReach(e, id)
    ensures OutOfReach(NextCancel(e, fault), id)
  {
  }

  /** An order that start-up overlooked is out of every tick's reach until the next one: whatever comes,
      it stays pending or is cancelled, and is never filled or rejected. */
  lemma OverlookedNeverFilled(e: Engine, unread: Unread, actions: seq<Action>, id: Id)
    requires Inv(e) && AdmissibleRun(Restarted(e, unread), actions) && id in Overlooked(e.w.db, unread)
    requires forall i :: 0 <= i < |actions| ==> !actions[i].Restart?
    ensures
      var w := Run(Restarted(e, unread), actions).w;
      id !in w.cache.orders && (Status(w.db, id, Pending) || Status(w.db, id, Cancelled))
  {
    var e' := Restarted(e, unread);
    RestartGood(e, unread);
    CacheAtRest(e');
    RunOutOfReach(e', actions, id);
  }

  lemma {:induction false} RunOutOfReach(e: Engine, actions: seq<Action>, id: Id)
    requires Inv(e) && AdmissibleRun(e, actions) && OutOfReach(e, id)
    requires forall i :: 0 <= i < |actions| ==> !actions[i].Restart?
    ensures OutOfReach(Run(e, actions), id)
    decreases |actions|
  {
    if actions != [] {
      NextGood(e, actions[0]);
      StepOutOfReach(e, actions[0], id);
      RunOutOfReach(Next(e, actions[0]), actions[1..], id);
    }
  }

  // ---------------------------------------------------------------- how the cache comes apart

  lemma RunThree(e: Engine, a: Action, b: Action, c: Action)
    ensures Run(e, [a, b, c]) == Next(Next(Next(e, a), b), c)
    ensures AdmissibleRun(e, [a, b, c])
            <==> Admissible(e, a) && Admissible(Next(e, a), b) && Admissible(Next(Next(e, a), b), c)
  {
    var e1, e2 := Next(e, a), Next(Next(e, a), b);
    assert [a, b, c][1..] == [b, c] && [b, c][1..] == [c] && [c][1..] == [];
    assert Run(e2, [c]) == Next(e2, c) && Run(e1, [b, c]) == Run(e2, [c]);
    assert AdmissibleRun(e2, [c]) <==> Admissible(e2, c);
    assert AdmissibleRun(e1, [b, c]) <==> Admissible(e1, b) && AdmissibleRun(e2, [c]);
  }

  lemma {:induction false} RunJoined(e: Engine, a: seq<Action>, b: seq<Action>)
    ensures Run(e, a + b) == Run(Run(e, a), b)
    ensures AdmissibleRun(e, a + b) <==> AdmissibleRun(e, a) && AdmissibleRun(Run(e, a), b)
    decreases |a|
  {
    if a == [] {
      assert a + b == b;
    } else {
      assert (a + b)[1..] == a[1..] + b;
      RunJoined(Next(e, a[0]), a[1..], b);
    }
  }

  /** A pending order that is neither in its pending set nor in the cache. */
  predicate Adrift(w: World, id: Id) {
    Status(w.db, id, Pending) && id !in ZMembers(w.db, w.db.orders[id].symbol) && !Indexed(w, id)
  }

  lemma StoredNotQueued(cmd: PlaceCommand)
    requires Acceptable(cmd, true)
    ensures
      var e := Next(Next(FRESH, PlaceArrives(cmd, true)), PlaceStep(false));
      && e.place == Stored(cmd) && e.tick.TickIdle? && e.cancel.CancelIdle? && e.w.cache == EMPTY_CACHE
      && e.w.db.orders == map[cmd.orderId := MakeOrder(cmd)] && e.w.db.zsets == map[]
      && e.w.history == EMPTY_HISTORY
  {
  }

  /** Any acceptable order whose placing fails between storing and queueing, or whose engine restarts
      there, is pending and adrift from then on. */
  lemma LeftUnqueued(cmd: PlaceCommand, last: Action)
    requires Acceptable(cmd, true) && (last == PlaceStep(true) || last.Restart?)
    ensures
      var actions := [PlaceArrives(cmd, true), PlaceStep(false), last];
      var e := Run(FRESH, actions);
      && AdmissibleRun(FRESH, actions) && AtRest(e) && Adrift(e.w, cmd.orderId) && cmd.orderId in e.w.history.unqueued
      && Harmful(Run(FRESH, actions[..2]), last)
  {
    var actions := [PlaceArrives(cmd, true), PlaceStep(false), last];
    RunThree(FRESH, actions[0], actions[1], actions[2]);
    StoredNotQueued(cmd);
    var e1 := Next(FRESH, actions[0]);
    assert actions[..2][1..] == [actions[1]] && [actions[1]][1..] == [];
    assert Run(e1, [actions[1]]) == Run(Next(e1, actions[1]), []);
    NothingIndexed(Run(FRESH, actions).w, cmd.orderId);
  }

  lemma NothingIndexed(w: World, id: Id)
    ensures w.cache.pending == map[] ==> !Indexed(w, id)
    ensures w.db.zsets == map[] && w.cache == WarmCache(w.db) ==> !Indexed(w, id)
  {
  }

  /** Stored and queued, not yet cached; a cancel by the owner then goes through. */
  function Overtaking(cmd: PlaceCommand): seq<Action> {
    [PlaceArrives(cmd, true), PlaceStep(false), PlaceStep(false)]
      + [CancelArrives(cmd.orderId, cmd.userId), CancelStep(false), CancelStep(false)]
      + [PlaceStep(false), PlaceStep(false), PlaceStep(false)]
  }

  lemma QueuedNotCached(cmd: PlaceCommand)
    requires Acceptable(cmd, true)
    ensures
      var e := Next(Next(Next(FRESH, PlaceArrives(cmd, true)), PlaceStep(false)), PlaceStep(false));
      && e.place == Queued(cmd) && e.tick.TickIdle? && e.cancel.CancelIdle? && e.w.cache == EMPTY_CACHE
      && e.w.db.orders == map[cmd.orderId := MakeOrder(cmd)]
      && e.w.history == EMPTY_HISTORY
  {
    StoredNotQueued(cmd);
  }

  lemma CancelledNotCached(e: Engine, cmd: PlaceCommand)
    requires e.place == Queued(cmd) && e.tick.TickIdle? && e.cancel.CancelIdle? && e.w.cache == EMPTY_CACHE
    requires e.w.db.orders == map[cmd.orderId := MakeOrder(cmd)] && e.w.history == EMPTY_HISTORY
    ensures
      var e' := Next(Next(Next(e, CancelArrives(cmd.orderId, cmd.userId)), CancelStep(false)), CancelStep(false));
      && e'.place == Queued(cmd) && e'.tick.TickIdle? && e'.cancel.CancelIdle?
      && e'.w.cache.pending == map[] && e'.w.cache.orders == map[]
      && e'.w.db.orders == map[cmd.orderId := MakeOrder(cmd).(status := Cancelled)]
      && e'.w.history == EMPTY_HISTORY
  {
    var o := MakeOrder(cmd);
    var e1 := Next(e, CancelArrives(cmd.orderId, cmd.userId));
    assert e1.cancel == Found(o);
    var e2 := Next(e1, CancelStep(false));
    assert e2.cancel == CancelCommitted(o);
  }

  lemma CachedCancelled(e: Engine, cmd: PlaceCommand)
    requires cmd.orderType.Limit? && e.place == Queued(cmd) && e.tick.TickIdle? && e.cancel.CancelIdle?
    requires e.w.db.orders == map[cmd.orderId := MakeOrder(cmd).(status := Cancelled)] && e.w.history == EMPTY_HISTORY
    ensures
      var e' := Next(Next(Next(e, PlaceStep(false)), PlaceStep(false)), PlaceStep(false));
      && AtRest(e') && Status(e'.w.db, cmd.orderId, Cancelled) && Indexed(e'.w, cmd.orderId) && e'.w.history.stale == {cmd.orderId}
      && Harmful(e, PlaceStep(false))
  {
    NormalizeIdempotent(cmd.symbol);
  }

  /** A cancel that overtakes the caching of its order leaves a cancelled order in the cache. */
  lemma CancelOvertakesCaching(cmd: PlaceCommand)
    requires Acceptable(cmd, true) && cmd.orderType.Limit?
    ensures
      var e := Run(FRESH, Overtaking(cmd));
      && AdmissibleRun(FRESH, Overtaking(cmd)) && AtRest(e)
      && Status(e.w.db, cmd.orderId, Cancelled) && Indexed(e.w, cmd.orderId) && e.w.history.stale == {cmd.orderId}
  {
    var a, b, c := Overtaking(cmd)[..3], Overtaking(cmd)[3..6], Overtaking(cmd)[6..];
    assert Overtaking(cmd) == a + b + c;
    QueuedNotCached(cmd);
    RunThree(FRESH, a[0], a[1], a[2]);
    assert a == [a[0], a[1], a[2]] && b == [b[0], b[1], b[2]] && c == [c[0], c[1], c[2]];
    var e1 := Run(FRESH, a);
    CancelledNotCached(e1, cmd);
    RunThree(e1, b[0], b[1], b[2]);
    var e2 := Run(e1, b);
    CachedCancelled(e2, cmd);
    RunThree(e2, c[0], c[1], c[2]);
    RunJoined(FRESH, a, b);
    RunJoined(FRESH, a + b, c);
  }
}
