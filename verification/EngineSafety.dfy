/** Whole-run guarantees of the engine, over every interleaving of its handlers. */
module EngineSafety {
  import opened Contracts
  import opened Symbols
  import opened Orders
  import opened OrderCaches
  import opened RedisStores
  import opened EngineSteps
  import opened EngineInvariant
  import opened Slippage

  // ---------------------------------------------------------------- placing

  ghost predicate NormalSymbols(db: Db) {
    forall id :: id in db.orders ==> NormalizeSymbol(db.orders[id].symbol) == db.orders[id].symbol
  }

  lemma SymbolsAreNormal(db: Db)
    requires DbOk(db)
    ensures NormalSymbols(db)
  {
    forall id | id in db.orders ensures NormalizeSymbol(db.orders[id].symbol) == db.orders[id].symbol {
      assert OrderOk(id, db.orders[id]);
    }
  }

  /** Writing a record under an id nobody has used. */
  ghost predicate Stores(w: World, w': World, o: Order) {
    && o.id !in w.db.orders
    && OrderOk(o.id, o) && o.status == Pending
    && w' == w.(db := SetOrder(w.db, o.id, o))
  }

  lemma StoresIndex(w: World, w': World, o: Order, b: Option<Phase>)
    requires Stores(w, w', o) && CacheOk(w, None, b)
    ensures Moves(w.db, w'.db) && !Indexed(w', o.id)
    ensures forall k :: Indexed(w', k) <==> Indexed(w, k)
  {
  }

  lemma StoresDb(w: World, w': World, o: Order)
    requires Stores(w, w', o) && DbOk(w.db)
    ensures DbOk(w'.db)
  {
    assert forall symbol :: ZMembers(w'.db, symbol) == ZMembers(w.db, symbol);
  }

  lemma StoresCover(w: World, w': World, cmd: PlaceCommand, b: Option<Phase>)
    requires Stores(w, w', MakeOrder(cmd)) && CacheOk(w, None, b)
    requires forall symbol, id :: id in ZMembers(w.db, symbol) ==> id in w.db.orders
    requires CoverOk(w, Keyed(cmd)) && OutsideOk(w, Keyed(cmd))
    ensures CoverOk(w', Stored(cmd)) && OutsideOk(w', Stored(cmd))
  {
    StoresIndex(w, w', MakeOrder(cmd), b);
    assert forall symbol :: ZMembers(w'.db, symbol) == ZMembers(w.db, symbol);
    assert forall k :: Limbo(w', Stored(cmd), k) ==> k == cmd.orderId || Limbo(w, Keyed(cmd), k);
    assert forall k :: Status(w'.db, k, Pending) ==> k == cmd.orderId || Status(w.db, k, Pending);
  }

  lemma StoresStale(w: World, w': World, o: Order, b: Option<Phase>, c: CancelTask)
    requires Stores(w, w', o) && CacheOk(w, None, b) && StaleOk(w, None, b, c)
    ensures StaleOk(w', None, b, c)
  {
    StoresIndex(w, w', o, b);
    assert forall k :: Finished(w'.db, k) <==> Finished(w.db, k);
  }

  lemma NewOrderStores(w: World, cmd: PlaceCommand)
    requires PlaceOk(w.db, Keyed(cmd))
    ensures Stores(w, w.(db := SetOrder(w.db, cmd.orderId, MakeOrder(cmd))), MakeOrder(cmd))
  {
    NormalizeIdempotent(cmd.symbol);
  }

  lemma StoredGood(w: World, cmd: PlaceCommand, b: Option<Phase>, c: CancelTask)
    requires Good(w, None, b, c, Keyed(cmd))
    ensures
      var w' := w.(db := SetOrder(w.db, cmd.orderId, MakeOrder(cmd)));
      Moves(w.db, w'.db) && Good(w', None, b, c, Stored(cmd))
  {
    var w' := w.(db := SetOrder(w.db, cmd.orderId, MakeOrder(cmd)));
    NewOrderStores(w, cmd);
    StoredCacheGood(w, w', cmd, b, c);
    StoresMoves(w, w', MakeOrder(cmd));
    MovesKeepTasks(w.db, w'.db, b, c);
    StoresDb(w, w', MakeOrder(cmd));
  }

  lemma StoredCacheGood(w: World, w': World, cmd: PlaceCommand, b: Option<Phase>, c: CancelTask)
    requires DbOk(w.db) && FillsOk(w) && CacheOk(w, None, b) && StaleOk(w, None, b, c)
    requires CoverOk(w, Keyed(cmd)) && OutsideOk(w, Keyed(cmd)) && Stores(w, w', MakeOrder(cmd))
    ensures FillsOk(w') && CacheOk(w', None, b) && StaleOk(w', None, b, c)
    ensures CoverOk(w', Stored(cmd)) && OutsideOk(w', Stored(cmd))
  {
    assert FillsOk(w') by { StoredFills(w, w', cmd.orderId); }
    assert CacheOk(w', None, b) by { StoredCache(w, w', b, cmd.orderId); }
    assert StaleOk(w', None, b, c) by { StoresStale(w, w', MakeOrder(cmd), b, c); }
    StoresCover(w, w', cmd, b);
  }

  lemma StoresMoves(w: World, w': World, o: Order)
    requires Stores(w, w', o)
    ensures Moves(w.db, w'.db)
  {
  }

  lemma StoredFills(w: World, w': World, id: Id)
    requires FillsOk(w) && id !in w.db.orders && id in w'.db.orders && w'.db.orders[id].status == Pending
    requires w' == w.(db := SetOrder(w.db, id, w'.db.orders[id]))
    ensures FillsOk(w')
  {
    var log := w.history.fills;
    forall i | 0 <= i < |log| ensures FillOk(w'.db, log[i]) {
      assert FillOk(w.db, log[i]);
    }
    forall k | Status(w'.db, k, OrderStatus.Filled) ensures exists i :: 0 <= i < |log| && log[i].id == k {
      assert Status(w.db, k, OrderStatus.Filled);
    }
  }

  lemma StoredCache(w: World, w': World, b: Option<Phase>, id: Id)
    requires CacheOk(w, None, b) && id !in w.db.orders && id in w'.db.orders
    requires w' == w.(db := SetOrder(w.db, id, w'.db.orders[id]))
    ensures CacheOk(w', None, b)
  {
    assert forall k :: k in w.db.orders ==> (Indexed(w', k) <==> Indexed(w, k));
  }

  lemma QueuedGood(w: World, cmd: PlaceCommand, b: Option<Phase>, c: CancelTask)
    requires Good(w, None, b, c, Stored(cmd))
    ensures
      var w' := w.(db := ZAdd(w.db, MakeOrder(cmd).symbol, cmd.orderId));
      Moves(w.db, w'.db) && Good(w', None, b, c, Queued(cmd))
  {
    var w' := w.(db := ZAdd(w.db, MakeOrder(cmd).symbol, cmd.orderId));
    MovesKeepTasks(w.db, w'.db, b, c);
    CacheSwaps(w, w', None, None, b);
    SameFills(w, w');
    QueuedSets(w, cmd);
    SameStale(w, w', b, c);
  }

  lemma SameStale(w: World, w': World, b: Option<Phase>, c: CancelTask)
    requires StaleOk(w, None, b, c)
    requires w'.db.orders == w.db.orders && w'.cache == w.cache && w'.history.stale == w.history.stale
    ensures StaleOk(w', None, b, c)
  {
    assert forall k :: Indexed(w', k) <==> Indexed(w, k);
  }

  lemma QueuedSets(w: World, cmd: PlaceCommand)
    requires DbOk(w.db) && PlaceOk(w.db, Stored(cmd)) && CoverOk(w, Stored(cmd)) && OutsideOk(w, Stored(cmd))
    ensures
      var w' := w.(db := ZAdd(w.db, MakeOrder(cmd).symbol, cmd.orderId));
      DbOk(w'.db) && CoverOk(w', Queued(cmd)) && OutsideOk(w', Queued(cmd))
  {
    var w' := w.(db := ZAdd(w.db, MakeOrder(cmd).symbol, cmd.orderId));
    assert Placing(Stored(cmd), cmd.orderId);
    ZAddSets(w.db, MakeOrder(cmd).symbol, cmd.orderId);
    QueuedIndex(w, w', cmd);
  }

  lemma ZAddSets(db: Db, symbol: string, id: Id)
    ensures forall s, k :: k in ZMembers(ZAdd(db, symbol, id), s) <==> k in ZMembers(db, s) || (s == symbol && k == id)
  {
  }

  lemma QueuedIndex(w: World, w': World, cmd: PlaceCommand)
    requires CoverOk(w, Stored(cmd)) && OutsideOk(w, Stored(cmd)) && PlaceOk(w.db, Stored(cmd))
    requires w' == w.(db := w.db.(zsets := w'.db.zsets))
    requires forall s, k :: k in ZMembers(w'.db, s) <==> k in ZMembers(w.db, s) || (s == MakeOrder(cmd).symbol && k == cmd.orderId)
    ensures CoverOk(w', Queued(cmd)) && OutsideOk(w', Queued(cmd))
  {
    assert forall k :: Indexed(w', k) <==> Indexed(w, k);
    assert Placing(Stored(cmd), cmd.orderId);
    assert forall k :: Limbo(w', Queued(cmd), k) ==> Limbo(w, Stored(cmd), k);
  }

  /** The ZADD failed: the order stays stored, outside its pending set and the cache. */
  lemma UnqueuedGood(w: World, cmd: PlaceCommand, b: Option<Phase>, c: CancelTask)
    requires Good(w, None, b, c, Stored(cmd))
    ensures
      var h := w.history.(unqueued := w.history.unqueued + {cmd.orderId});
      Good(w.(history := h), None, b, c, PlaceIdle)
  {
    var w' := w.(history := w.history.(unqueued := w.history.unqueued + {cmd.orderId}));
    CacheSwaps(w, w', None, None, b);
    SameFills(w, w');
    SameStale(w, w', b, c);
    UnqueuedCover(w, w', cmd);
  }

  lemma UnqueuedCover(w: World, w': World, cmd: PlaceCommand)
    requires CoverOk(w, Stored(cmd)) && OutsideOk(w, Stored(cmd))
    requires w' == w.(history := w.history.(unqueued := w.history.unqueued + {cmd.orderId}))
    ensures CoverOk(w', PlaceIdle) && OutsideOk(w', PlaceIdle)
  {
    assert forall k :: Indexed(w', k) <==> Indexed(w, k);
    assert Limbo(w, Stored(cmd), cmd.orderId);
    assert forall k :: Limbo(w', PlaceIdle, k) ==> Limbo(w, Stored(cmd), k);
  }

  lemma AddedIndex(w: World, o: Order)
    requires NormalSymbols(w.db) && PendingCopy(w.db, o)
    ensures forall id :: Indexed(Added(w, o), id) <==> Indexed(w, id) || id == o.id
  {
    forall id ensures Indexed(Added(w, o), id) <==> Indexed(w, id) || id == o.id {
      if id in w.db.orders {
        assert NormalizeSymbol(w.db.orders[id].symbol) == w.db.orders[id].symbol;
        assert NormalizeSymbol(w.db.orders[o.id].symbol) == o.symbol;
      }
    }
  }

  lemma AddedEntries(w: World, o: Order, symbol: string, id: Id)
    requires NormalSymbols(w.db) && PendingCopy(w.db, o)
    requires symbol in Added(w, o).cache.pending && id in Added(w, o).cache.pending[symbol]
    ensures (id == o.id && symbol == o.symbol) || (symbol in w.cache.pending && id in w.cache.pending[symbol])
  {
    assert NormalizeSymbol(w.db.orders[o.id].symbol) == o.symbol;
  }

  lemma AddedCopies(w: World, o: Order, b: Option<Phase>)
    requires NormalSymbols(w.db) && PendingCopy(w.db, o) && CopiesOk(w, None, b)
    ensures CopiesOk(Added(w, o), None, b)
  {
    AddedIndex(w, o);
    assert Added(w, o).cache.orders == w.cache.orders[o.id := o];
  }

  lemma AddedIndexEntries(w: World, o: Order)
    requires NormalSymbols(w.db) && PendingCopy(w.db, o) && EntriesOk(w)
    ensures EntriesOk(Added(w, o))
  {
    var w' := Added(w, o);
    assert w'.db == w.db;
    assert w.db.orders[o.id].symbol == o.symbol;
    forall symbol, id | symbol in w'.cache.pending && id in w'.cache.pending[symbol]
      ensures id in w'.cache.orders && id in w.db.orders && w.db.orders[id].symbol == symbol
    {
      AddedEntries(w, o, symbol, id);
      assert id == o.id || id in w.cache.orders;
    }
  }

  lemma AddedCache(w: World, o: Order, b: Option<Phase>)
    requires NormalSymbols(w.db) && PendingCopy(w.db, o) && CacheOk(w, None, b)
    ensures CacheOk(Added(w, o), None, b)
  {
    AddedCopies(w, o, b);
    AddedIndexEntries(w, o);
  }

  lemma AddedCover(w: World, cmd: PlaceCommand, b: Option<Phase>, c: CancelTask)
    requires NormalSymbols(w.db) && PlaceOk(w.db, Queued(cmd))
    requires CoverOk(w, Queued(cmd)) && OutsideOk(w, Queued(cmd)) && StaleOk(w, None, b, c)
    ensures
      var w' := Added(w, MakeOrder(cmd));
      CoverOk(w', Cached(cmd)) && OutsideOk(w', Cached(cmd)) && StaleOk(w', None, b, c)
  {
    AddedIndex(w, MakeOrder(cmd));
    assert Placing(Queued(cmd), cmd.orderId);
    var w' := Added(w, MakeOrder(cmd));
    assert w'.db == w.db && w'.history.unqueued == w.history.unqueued;
    assert forall k :: Limbo(w', Cached(cmd), k) ==> Limbo(w, Queued(cmd), k);
  }

  lemma AddedGood(w: World, cmd: PlaceCommand, b: Option<Phase>, c: CancelTask)
    requires Good(w, None, b, c, Queued(cmd))
    ensures Good(Added(w, MakeOrder(cmd)), None, b, c, Cached(cmd))
  {
    SymbolsAreNormal(w.db);
    AddedCache(w, MakeOrder(cmd), b);
    AddedCover(w, cmd, b, c);
    SameFills(w, Added(w, MakeOrder(cmd)));
  }

  /** Moving on without touching anything. */
  lemma PlaceSwapped(w: World, a: Option<Phase>, b: Option<Phase>, c: CancelTask, p: PlaceTask, p': PlaceTask)
    requires Good(w, None, b, c, p) && PhasesOk(w.db, a) && PlaceOk(w.db, p')
    requires !p.Stored? && !p.Queued? && !p'.Stored? && !p'.Queued?
    ensures Good(w, a, b, c, p')
  {
    CacheSwaps(w, w, None, a, b);
    StaleSwaps(w, None, a, b, c, c);
    PlaceMovesOn(w, p, p');
  }

  /** Tasks past the pending set owe the index nothing. */
  lemma PlaceMovesOn(w: World, p: PlaceTask, p': PlaceTask)
    requires CoverOk(w, p) && OutsideOk(w, p)
    requires !p.Stored? && !p.Queued? && !p'.Stored? && !p'.Queued?
    ensures CoverOk(w, p') && OutsideOk(w, p')
  {
    assert forall id :: Limbo(w, p', id) ==> Limbo(w, p, id);
  }

  /** A quote found for an immediate fill is one that a tick left behind. */
  lemma MarketQuoteGood(w: World, b: Option<Phase>, cmd: PlaceCommand)
    requires DbOk(w.db) && CacheOk(w, None, b)
    ensures MarketQuote(w, cmd).Some? ==> GoodQuote(MarketQuote(w, cmd).value)
  {
  }

  lemma AttemptOk(db: Db, o: Order, q: Quote)
    requires PendingCopy(db, o) && GoodQuote(q) && Crossed(o, q)
    ensures PhasesOk(db, Attempt(o, q))
  {
  }

  lemma AcceptedGood(e: Engine, fault: bool)
    requires Inv(e) && e.place.Accepted?
    ensures Inv(NextPlace(e, fault)) && NextPlace(e, fault).w == e.w
  {
    var cmd := e.place.cmd;
    MarketQuoteGood(e.w, TickPhase(e.tick), cmd);
    var q := MarketQuote(e.w, cmd);
    if q.Some? { AttemptOk(e.w.db, MakeOrder(cmd), q.value); }
    var p' := NextPlace(e, fault).place;
    PlaceSwapped(e.w, PlacePhase(p'), TickPhase(e.tick), e.cancel, e.place, p');
  }

  lemma PlaceWorkGood(e: Engine, fault: bool)
    requires Inv(e) && e.place.PlaceWork?
    ensures Moves(e.w.db, NextPlace(e, fault).w.db) && Inv(NextPlace(e, fault))
  {
    var b, c := TickPhase(e.tick), e.cancel;
    var failed := fault && !e.place.phase.Committed?;
    PhaseStepGood(e.w, e.place.phase, failed, b, c, e.place);
    var (w', ph') := PhaseStep(e.w, e.place.phase, failed);
    PlaceRelabel(w', ph', b, c, e.place, NextPlace(e, fault).place);
  }

  lemma KeyedGood(e: Engine, fault: bool)
    requires Inv(e) && e.place.Keyed?
    ensures Moves(e.w.db, NextPlace(e, fault).w.db) && Inv(NextPlace(e, fault))
  {
    if fault {
      PlaceSwapped(e.w, None, TickPhase(e.tick), e.cancel, e.place, PlaceIdle);
    } else {
      StoredGood(e.w, e.place.cmd, TickPhase(e.tick), e.cancel);
    }
  }

  lemma StoredStepGood(e: Engine, fault: bool)
    requires Inv(e) && e.place.Stored?
    ensures Moves(e.w.db, NextPlace(e, fault).w.db) && Inv(NextPlace(e, fault))
  {
    if fault {
      UnqueuedGood(e.w, e.place.cmd, TickPhase(e.tick), e.cancel);
    } else {
      QueuedGood(e.w, e.place.cmd, TickPhase(e.tick), e.cancel);
    }
  }

  lemma CachedGood(e: Engine, fault: bool)
    requires Inv(e) && e.place.Queued?
    ensures Moves(e.w.db, NextPlace(e, fault).w.db) && Inv(NextPlace(e, fault))
  {
    var w, cmd := e.w, e.place.cmd;
    CachingIs(e, fault);
    AddedGood(w, cmd, TickPhase(e.tick), e.cancel);
  }

  lemma CachingIs(e: Engine, fault: bool)
    requires e.place.Queued?
    ensures NextPlace(e, fault) == e.(w := Added(e.w, MakeOrder(e.place.cmd)), place := Cached(e.place.cmd))
    ensures PlacePhase(NextPlace(e, fault).place) == None && Added(e.w, MakeOrder(e.place.cmd)).db == e.w.db
  {
  }

  lemma AcceptingGood(e: Engine, fault: bool)
    requires Inv(e) && e.place.Cached?
    ensures Moves(e.w.db, NextPlace(e, fault).w.db) && Inv(NextPlace(e, fault))
  {
    PlaceSwapped(e.w, None, TickPhase(e.tick), e.cancel, e.place, NextPlace(e, fault).place);
  }

  lemma PlaceStepGood(e: Engine, fault: bool)
    requires Inv(e)
    ensures Moves(e.w.db, NextPlace(e, fault).w.db) && Inv(NextPlace(e, fault))
  {
    match e.place
    case PlaceIdle => assert NextPlace(e, fault) == e;
    case Keyed(_) => KeyedGood(e, fault);
    case Stored(_) => StoredStepGood(e, fault);
    case Queued(_) => CachedGood(e, fault);
    case Cached(_) => AcceptingGood(e, fault);
    case Accepted(_) => AcceptedGood(e, fault);
    case PlaceWork(_, _) => PlaceWorkGood(e, fault);
  }

  lemma PlaceRelabel(w: World, a: Option<Phase>, b: Option<Phase>, c: CancelTask, p: PlaceTask, p': PlaceTask)
    requires Good(w, a, b, c, p) && PlaceOk(w.db, p')
    requires !p.Stored? && !p.Queued? && !p'.Stored? && !p'.Queued?
    ensures Good(w, a, b, c, p')
  {
    PlaceMovesOn(w, p, p');
  }

  // ---------------------------------------------------------------- ticking

  lemma PricesGood(w: World, key: string, q: Quote, b: Option<Phase>, c: CancelTask, p: PlaceTask)
    requires Good(w, b, None, c, p) && GoodQuote(q)
    ensures Good(w.(db := w.db.(prices := w.db.prices[key := q])), b, None, c, p)
  {
    var w' := w.(db := w.db.(prices := w.db.prices[key := q]));
    OnlyQuotes(w, w', b, c, p);
    SameOrdersSameTasks(w.db, w'.db, b, c, p);
    PricesDb(w.db, key, q);
  }

  lemma PricesDb(db: Db, key: string, q: Quote)
    requires DbOk(db) && GoodQuote(q)
    ensures DbOk(db.(prices := db.prices[key := q]))
  {
    var db' := db.(prices := db.prices[key := q]);
    forall symbol, id | id in ZMembers(db', symbol) ensures id in db'.orders && db'.orders[id].symbol == symbol {
      assert ZMembers(db', symbol) == ZMembers(db, symbol);
    }
  }

  ghost predicate OnlyQuotesDiffer(w: World, w': World) {
    && w'.db == w.db.(prices := w'.db.prices)
    && w'.cache == w.cache.(lastTicks := w'.cache.lastTicks)
    && w'.history == w.history
  }

  lemma OnlyQuotesIndex(w: World, w': World)
    requires OnlyQuotesDiffer(w, w')
    ensures forall k :: Indexed(w', k) <==> Indexed(w, k)
    ensures forall symbol :: ZMembers(w'.db, symbol) == ZMembers(w.db, symbol)
  {
  }

  lemma OnlyQuotesCache(w: World, w': World, b: Option<Phase>)
    requires OnlyQuotesDiffer(w, w') && CopiesOk(w, b, None) && EntriesOk(w)
    ensures CopiesOk(w', b, None) && EntriesOk(w')
  {
    OnlyQuotesIndex(w, w');
  }

  /** Stored and cached quotes do not enter into what is said about orders. */
  lemma OnlyQuotes(w: World, w': World, b: Option<Phase>, c: CancelTask, p: PlaceTask)
    requires OnlyQuotesDiffer(w, w')
    requires FillsOk(w) && CopiesOk(w, b, None) && EntriesOk(w) && CoverOk(w, p) && OutsideOk(w, p) && StaleOk(w, b, None, c)
    ensures FillsOk(w') && CopiesOk(w', b, None) && EntriesOk(w') && CoverOk(w', p) && OutsideOk(w', p) && StaleOk(w', b, None, c)
  {
    OnlyQuotesIndex(w, w');
    OnlyQuotesCache(w, w', b);
    SameFills(w, w');
    assert forall k :: Status(w'.db, k, Pending) <==> Status(w.db, k, Pending);
    assert forall k :: Finished(w'.db, k) <==> Finished(w.db, k);
  }

  lemma TicksGood(w: World, symbol: string, group: Option<string>, q: Quote, b: Option<Phase>, c: CancelTask, p: PlaceTask)
    requires Good(w, b, None, c, p) && GoodQuote(q)
    ensures Good(w.(cache := UpdateTick(w.cache, symbol, group, q)), b, None, c, p)
  {
    OnlyQuotes(w, w.(cache := UpdateTick(w.cache, symbol, group, q)), b, c, p);
  }

  /** The two orders of naming the tasks describe the same state. */
  lemma Swap(w: World, a: Option<Phase>, b: Option<Phase>, c: CancelTask, p: PlaceTask)
    requires Good(w, a, b, c, p)
    ensures Good(w, b, a, c, p)
  {
  }

  lemma LoopGood(e: Engine, fault: bool)
    requires Inv(e) && e.tick.Looping?
    ensures NextTick(e, fault).w == e.w && Inv(NextTick(e, fault))
  {
    var w, ids := e.w, e.tick.ids;
    if ids != [] && LoopAttempt(w, ids[0], e.tick.group, e.tick.q).Some? {
      LoopAttemptOk(w, PlacePhase(e.place), ids[0], e.tick.group, e.tick.q);
      Swap(w, PlacePhase(e.place), None, e.cancel, e.place);
      TaskSwapped(w, None, LoopAttempt(w, ids[0], e.tick.group, e.tick.q), PlacePhase(e.place), e.cancel, e.cancel, e.place);
      Swap(w, TickPhase(NextTick(e, fault).tick), PlacePhase(e.place), e.cancel, e.place);
    }
  }

  lemma LoopAttemptOk(w: World, a: Option<Phase>, id: Id, group: Option<string>, q: Quote)
    requires CopiesOk(w, a, None) && GoodQuote(q)
    ensures PhasesOk(w.db, LoopAttempt(w, id, group, q))
  {
    if id in w.cache.orders && w.cache.orders[id].status == Pending && Crossed(w.cache.orders[id], q) {
      AttemptOk(w.db, w.cache.orders[id], q);
    }
  }

  lemma QuotesStepGood(e: Engine, fault: bool)
    requires Inv(e) && (e.tick.Snapped? || e.tick.Priced?)
    ensures Moves(e.w.db, NextTick(e, fault).w.db) && Inv(NextTick(e, fault))
  {
    var w, a := e.w, PlacePhase(e.place);
    match e.tick
    case Snapped(symbol, group, q, ids) =>
      if !fault { PricesGood(w, QuoteKey(symbol, group), q, a, e.cancel, e.place); }
    case Priced(symbol, group, q, ids) => TicksGood(w, symbol, group, q, a, e.cancel, e.place);
  }

  lemma TickWorkGood(e: Engine, fault: bool)
    requires Inv(e) && e.tick.TickWork?
    ensures Moves(e.w.db, NextTick(e, fault).w.db) && Inv(NextTick(e, fault))
  {
    var (w', ph') := PhaseStep(e.w, e.tick.phase, fault);
    TickPhaseGood(e.w, e.tick.phase, fault, PlacePhase(e.place), e.cancel, e.place);
    TickWorkIs(e, fault);
  }

  lemma TickPhaseGood(w: World, ph: Phase, fault: bool, a: Option<Phase>, c: CancelTask, p: PlaceTask)
    requires Good(w, a, Some(ph), c, p)
    ensures
      var (w', ph') := PhaseStep(w, ph, fault);
      Moves(w.db, w'.db) && Good(w', a, ph', c, p)
  {
    Swap(w, a, Some(ph), c, p);
    PhaseStepGood(w, ph, fault, a, c, p);
    var (w', ph') := PhaseStep(w, ph, fault);
    Swap(w', ph', a, c, p);
  }

  lemma TickWorkIs(e: Engine, fault: bool)
    requires e.tick.TickWork? && TickOk(e.tick)
    ensures
      var (w', ph') := PhaseStep(e.w, e.tick.phase, fault);
      var e' := NextTick(e, fault);
      e'.w == w' && e'.place == e.place && e'.cancel == e.cancel && TickPhase(e'.tick) == ph' && TickOk(e'.tick)
  {
  }

  lemma TickStepGood(e: Engine, fault: bool)
    requires Inv(e)
    ensures Moves(e.w.db, NextTick(e, fault).w.db) && Inv(NextTick(e, fault))
  {
    match e.tick
    case TickIdle => assert NextTick(e, fault) == e;
    case Snapped(_, _, _, _) => QuotesStepGood(e, fault);
    case Priced(_, _, _, _) => QuotesStepGood(e, fault);
    case Looping(_, _, _) => LoopGood(e, fault);
    case TickWork(_, _, _, _) => TickWorkGood(e, fault);
  }

  // ---------------------------------------------------------------- cancelling

  lemma CancelledFinishes(w: World, o: Order)
    requires DbOk(w.db) && PendingCopy(w.db, o) && AtomicCancel(w.db, o.id).1
    ensures
      var w' := w.(db := AtomicCancel(w.db, o.id).0);
      Finishes(w, w', o.id) && OrderOk(o.id, w'.db.orders[o.id]) && Status(w'.db, o.id, Cancelled)
  {
  }

  lemma CancelRunGood(e: Engine)
    requires Inv(e) && e.cancel.Found? && AtomicCancel(e.w.db, e.cancel.o.id).1
    ensures Moves(e.w.db, NextCancel(e, false).w.db) && Inv(NextCancel(e, false))
  {
    var w, o := e.w, e.cancel.o;
    var w' := w.(db := AtomicCancel(w.db, o.id).0);
    var a, b := PlacePhase(e.place), TickPhase(e.tick);
    CancelledFinishes(w, o);
    SameLog(w, w', o.id);
    FinishesIndex(w, w', o.id);
    FinishesDb(w, w', o.id);
    FinishesCache(w, w', a, a, b, o.id);
    FinishesCover(w, w', e.place, o.id);
    FinishesStale(w, w', a, a, b, e.cancel, CancelCommitted(o), o.id);
    MovesKeepTasks(w.db, w'.db, a, CancelIdle);
    MovesKeepTasks(w.db, w'.db, b, CancelIdle);
    PlaceKept(w.db, w'.db, e.place);
  }

  lemma PlaceKept(db: Db, db': Db, p: PlaceTask)
    requires PlaceOk(db, p) && Moves(db, db')
    requires forall id :: id in db'.orders ==> id in db.orders
    ensures PlaceOk(db', p)
  {
  }

  lemma CancelRemovalGood(e: Engine, fault: bool)
    requires Inv(e) && e.cancel.CancelCommitted?
    ensures Moves(e.w.db, NextCancel(e, fault).w.db) && Inv(NextCancel(e, fault))
  {
    var w, o, a, b := e.w, e.cancel.o, PlacePhase(e.place), TickPhase(e.tick);
    if fault {
      CancelSkipped(w, o, a, b, e.place);
    } else {
      RemovedGood(w, o, a, a, b, e.cancel, CancelIdle, e.place);
    }
  }

  lemma CancelSkipped(w: World, o: Order, a: Option<Phase>, b: Option<Phase>, p: PlaceTask)
    requires Good(w, a, b, CancelCommitted(o), p)
    ensures Good(w.(history := Skipped(w, o)), a, b, CancelIdle, p)
  {
    var w' := w.(history := Skipped(w, o));
    CacheSwaps(w, w', a, a, b);
    HistoryKeeps(w, w', p);
    assert forall id :: Indexed(w', id) <==> Indexed(w, id);
    assert StaleOk(w', a, b, CancelIdle);
  }

  lemma CancelStepGood(e: Engine, fault: bool)
    requires Inv(e)
    ensures Moves(e.w.db, NextCancel(e, fault).w.db) && Inv(NextCancel(e, fault))
  {
    match e.cancel
    case CancelIdle => assert NextCancel(e, fault) == e;
    case Found(o) =>
      if fault || !AtomicCancel(e.w.db, o.id).1 {
        TaskSwapped(e.w, PlacePhase(e.place), PlacePhase(e.place), TickPhase(e.tick), e.cancel, CancelIdle, e.place);
      } else {
        CancelRunGood(e);
      }
    case CancelCommitted(_) => CancelRemovalGood(e, fault);
  }

  // ---------------------------------------------------------------- restarting

  /** After start-up the index holds exactly the pending orders that sit in their pending sets. */
  lemma WarmIndex(db: Db, h: History)
    requires DbOk(db)
    ensures
      var w := World(db, WarmCache(db), h);
      && (forall id :: Indexed(w, id) <==> Status(db, id, Pending) && id in ZMembers(db, db.orders[id].symbol))
      && (forall id :: id in w.cache.orders <==> Indexed(w, id))
      && (forall id :: id in w.cache.orders ==> w.cache.orders[id] == db.orders[id])
  {
    var w := World(db, WarmCache(db), h);
    SymbolsAreNormal(db);
    forall id ensures Indexed(w, id) <==> Status(db, id, Pending) && id in ZMembers(db, db.orders[id].symbol) {
      if id in db.orders {
        var symbol := db.orders[id].symbol;
        assert NormalizeSymbol(symbol) == symbol;
        assert id in Loadable(db, symbol) <==> Status(db, id, Pending) && id in ZMembers(db, symbol);
      }
    }
    forall id ensures id in w.cache.orders <==> Indexed(w, id) {
      if id in w.cache.orders {
        var symbol :| symbol in db.zsets && id in Loadable(db, symbol);
        assert id in ZMembers(db, symbol);
      }
      if Indexed(w, id) {
        var symbol := db.orders[id].symbol;
        assert symbol in db.zsets && id in Loadable(db, symbol);
      }
    }
  }

  lemma WarmEntries(db: Db, h: History)
    requires DbOk(db)
    ensures EntriesOk(World(db, WarmCache(db), h))
  {
    var w := World(db, WarmCache(db), h);
    WarmIndex(db, h);
    forall symbol, id | symbol in w.cache.pending && id in w.cache.pending[symbol]
      ensures id in w.cache.orders && id in db.orders && db.orders[id].symbol == symbol
    {
      assert id in Loadable(db, symbol) && id in ZMembers(db, symbol);
    }
  }

  lemma WarmCopies(db: Db, h: History)
    requires DbOk(db)
    ensures CopiesOk(World(db, WarmCache(db), h), None, None)
  {
    var w := World(db, WarmCache(db), h);
    WarmIndex(db, h);
    forall id | id in w.cache.orders ensures PendingCopy(db, w.cache.orders[id]) {
      assert OrderOk(id, db.orders[id]);
    }
  }

  lemma ReadBackOk(db: Db, unread: Unread)
    requires DbOk(db)
    ensures DbOk(ReadBack(db, unread))
    ensures forall symbol, id :: id in ZMembers(ReadBack(db, unread), symbol)
              <==> id in ZMembers(db, symbol) && symbol !in unread.sets && id !in unread.records
  {
    forall symbol, id ensures id in ZMembers(ReadBack(db, unread), symbol)
              <==> id in ZMembers(db, symbol) && symbol !in unread.sets && id !in unread.records
    {
      SetReadBack(db, unread, symbol);
    }
  }

  lemma SetReadBack(db: Db, unread: Unread, symbol: string)
    ensures ZMembers(ReadBack(db, unread), symbol) == if symbol in unread.sets then {} else ZMembers(db, symbol) - unread.records
  {
  }

  /** After any start-up the index holds exactly the queued pending orders that were not overlooked. */
  lemma StartIndex(db: Db, unread: Unread, h: History)
    requires DbOk(db)
    ensures
      var w := World(db, WarmCache(ReadBack(db, unread)), h);
      && (forall id :: Indexed(w, id)
            <==> Status(db, id, Pending) && id in ZMembers(db, db.orders[id].symbol) && id !in Overlooked(db, unread))
      && EntriesOk(w) && CopiesOk(w, None, None)
  {
    var w, seen := World(db, WarmCache(ReadBack(db, unread)), h), ReadBack(db, unread);
    ReadBackOk(db, unread);
    WarmIndex(seen, h);
    WarmEntries(seen, h);
    WarmCopies(seen, h);
    SameOrdersSameCache(World(seen, WarmCache(seen), h), w);
  }

  lemma SameOrdersSameCache(w: World, w': World)
    requires w'.db.orders == w.db.orders && w'.cache == w.cache
    requires EntriesOk(w) && CopiesOk(w, None, None)
    ensures forall id :: Indexed(w', id) <==> Indexed(w, id)
    ensures EntriesOk(w') && CopiesOk(w', None, None)
  {
    assert forall id :: Indexed(w', id) <==> Indexed(w, id);
  }

  lemma WarmLimbo(e: Engine, unread: Unread, id: Id)
    ensures Limbo(Restarted(e, unread).w, PlaceIdle, id) <==> Limbo(e.w, e.place, id)
  {
  }

  lemma WarmCover(e: Engine, unread: Unread)
    requires DbOk(e.w.db) && CoverOk(e.w, e.place)
    ensures CoverOk(Restarted(e, unread).w, PlaceIdle)
  {
    var w' := Restarted(e, unread).w;
    StartIndex(e.w.db, unread, w'.history);
    forall id | Status(w'.db, id, Pending) && id !in w'.history.unqueued
      ensures id in ZMembers(w'.db, w'.db.orders[id].symbol) && (Indexed(w', id) || id in w'.history.overlooked)
    {
      WarmLimbo(e, unread, id);
    }
  }

  lemma WarmOutside(e: Engine, unread: Unread)
    requires DbOk(e.w.db) && OutsideOk(e.w, e.place)
    ensures OutsideOk(Restarted(e, unread).w, PlaceIdle)
  {
    var w' := Restarted(e, unread).w;
    StartIndex(e.w.db, unread, w'.history);
    forall id | Limbo(w', PlaceIdle, id)
      ensures id in w'.db.orders && !Indexed(w', id) && id !in ZMembers(w'.db, w'.db.orders[id].symbol)
    {
      WarmLimbo(e, unread, id);
    }
  }

  lemma WarmStale(e: Engine, unread: Unread)
    requires DbOk(e.w.db)
    ensures StaleOk(Restarted(e, unread).w, None, None, CancelIdle)
  {
    StartIndex(e.w.db, unread, Restarted(e, unread).w.history);
  }

  lemma RestartGood(e: Engine, unread: Unread)
    requires Inv(e)
    ensures Inv(Restarted(e, unread))
  {
    var w' := Restarted(e, unread).w;
    StartIndex(e.w.db, unread, w'.history);
    WarmCover(e, unread);
    WarmOutside(e, unread);
    WarmStale(e, unread);
    SameFills(e.w, w');
  }

  // ---------------------------------------------------------------- every step, every run

  lemma ArrivalGood(e: Engine, a: Action)
    requires Inv(e) && Admissible(e, a) && (a.PlaceArrives? || a.TickArrives? || a.CancelArrives?)
    ensures Moves(e.w.db, Next(e, a).w.db) && Inv(Next(e, a))
  {
    var e' := Next(e, a);
    if e' != e {
      match a
      case PlaceArrives(cmd, valid) => KeysGood(e.w, cmd, TickPhase(e.tick), e.cancel);
      case TickArrives(_, _, _, _) =>
      case CancelArrives(orderId, userId) =>
        CopyOk(e.w, PlacePhase(e.place), TickPhase(e.tick), orderId);
        TaskSwapped(e.w, PlacePhase(e.place), PlacePhase(e.place), TickPhase(e.tick), CancelIdle, e'.cancel, e.place);
    }
  }

  lemma CopyOk(w: World, a: Option<Phase>, b: Option<Phase>, id: Id)
    requires DbOk(w.db) && CopiesOk(w, a, b)
    ensures
      var o := CopyForCancel(w, id);
      o.Some? && o.value.status == Pending ==> PendingCopy(w.db, o.value)
  {
    if id in w.db.orders { assert OrderOk(id, w.db.orders[id]); }
  }

  lemma KeysGood(w: World, cmd: PlaceCommand, b: Option<Phase>, c: CancelTask)
    requires Good(w, None, b, c, PlaceIdle) && Acceptable(cmd, true) && cmd.orderId !in w.db.orders
    ensures Good(w.(db := w.db.(keys := w.db.keys + {cmd.idempotencyKey})), None, b, c, Keyed(cmd))
  {
    var w' := w.(db := w.db.(keys := w.db.keys + {cmd.idempotencyKey}));
    SameFills(w, w');
    CacheSwaps(w, w', None, None, b);
    SameStale(w, w', b, c);
    MovesKeepTasks(w.db, w'.db, b, c);
    KeysCover(w, w', cmd);
  }

  lemma KeysCover(w: World, w': World, cmd: PlaceCommand)
    requires DbOk(w.db) && CoverOk(w, PlaceIdle) && OutsideOk(w, PlaceIdle)
    requires w' == w.(db := w.db.(keys := w'.db.keys))
    ensures DbOk(w'.db) && CoverOk(w', Keyed(cmd)) && OutsideOk(w', Keyed(cmd))
  {
    assert forall k :: Indexed(w', k) <==> Indexed(w, k);
    assert forall symbol :: ZMembers(w'.db, symbol) == ZMembers(w.db, symbol);
    assert forall k :: Limbo(w', Keyed(cmd), k) ==> Limbo(w, PlaceIdle, k);
  }

  /** Every step of every task, failing or not, and every restart. */
  lemma NextGood(e: Engine, a: Action)
    requires Inv(e) && Admissible(e, a)
    ensures Moves(e.w.db, Next(e, a).w.db) && Inv(Next(e, a))
  {
    match a
    case PlaceArrives(_, _) => ArrivalGood(e, a);
    case PlaceStep(fault) => PlaceStepGood(e, fault);
    case TickArrives(_, _, _, _) => ArrivalGood(e, a);
    case TickStep(fault) => TickStepGood(e, fault);
    case CancelArrives(_, _) => ArrivalGood(e, a);
    case CancelStep(fault) => CancelStepGood(e, fault);
    case Restart(unread) => RestartGood(e, unread);
  }
}
