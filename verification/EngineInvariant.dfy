/** What every reachable state of the engine satisfies, step by step. */
module EngineInvariant {
  import opened Contracts
  import opened Symbols
  import opened Orders
  import opened OrderCaches
  import opened RedisStores
  import opened EngineSteps

  // ---------------------------------------------------------------- the stored orders

  predicate OrderOk(id: Id, o: Order) {
    && o.id == id
    && NormalizeSymbol(o.symbol) == o.symbol
    && o.size > 0.0
    && !o.status.PartiallyFilled?
    && (o.status == Pending || o.status == Rejected ==> o.filledSize == 0.0 && o.averageFillPrice == None)
    && (o.status == OrderStatus.Filled ==> o.filledSize == o.size && o.averageFillPrice.Some? && Protected(o, o.averageFillPrice.value))
    && (o.orderType.Limit? ==> o.status != Rejected)
  }

  ghost predicate DbOk(db: Db) {
    && (forall id :: id in db.orders ==> OrderOk(id, db.orders[id]))
    && (forall symbol, id :: id in ZMembers(db, symbol) ==> id in db.orders && db.orders[id].symbol == symbol)
    && (forall key :: key in db.prices ==> GoodQuote(db.prices[key]))
  }

  predicate Status(db: Db, id: Id, s: OrderStatus) {
    id in db.orders && db.orders[id].status == s
  }

  predicate Finished(db: Db, id: Id) {
    id in db.orders && db.orders[id].status != Pending
  }

  /** Script fills: never undone, except that a market order may later be marked rejected. */
  predicate Spent(db: Db, id: Id) {
    Status(db, id, OrderStatus.Filled) || Status(db, id, Rejected)
  }

  predicate FillOk(db: Db, f: Fill) {
    && Spent(db, f.id)
    && GoodQuote(f.quote)
    && f.price == SidePrice(db.orders[f.id].side, f.quote)
    && Protected(db.orders[f.id], f.price)
    && (Status(db, f.id, OrderStatus.Filled) ==> db.orders[f.id].averageFillPrice == Some(f.price))
  }

  ghost predicate FillsOk(w: World) {
    var fills := w.history.fills;
    && (forall i :: 0 <= i < |fills| ==> FillOk(w.db, fills[i]))
    && (forall i, j :: 0 <= i < j < |fills| ==> fills[i].id != fills[j].id)
    && (forall id :: Status(w.db, id, OrderStatus.Filled) ==> exists i :: 0 <= i < |fills| && fills[i].id == id)
  }

  // ---------------------------------------------------------------- handler copies

  /** `o` is the stored order as it was while pending. */
  predicate PendingCopy(db: Db, o: Order) {
    && o.id in db.orders
    && SameTerms(o, db.orders[o.id])
    && o.status == Pending && o.filledSize == 0.0 && o.averageFillPrice == None
  }

  predicate PhaseOk(db: Db, ph: Phase) {
    && PendingCopy(db, ph.o)
    && (match ph
        case Script(o, q, leverage) => leverage > 0.0 && GoodQuote(q) && Protected(o, SidePrice(o.side, q))
        case Committed(o, q) => Spent(db, o.id)
        case Sync(o, q) => Spent(db, o.id)
        case Drop(o) => Spent(db, o.id)
        case Refusing(o) => o.orderType.Market?
        case RefusedSync(o) => Status(db, o.id, Rejected)
        case RefusedDrop(o) => Status(db, o.id, Rejected)
        case RefusedZRem(o) => Status(db, o.id, Rejected))
  }

  predicate PhasesOk(db: Db, ph: Option<Phase>) {
    ph.Some? ==> PhaseOk(db, ph.value)
  }

  predicate CancelOk(db: Db, c: CancelTask) {
    match c
    case CancelIdle => true
    case Found(o) => PendingCopy(db, o)
    case CancelCommitted(o) => PendingCopy(db, o) && Finished(db, o.id)
  }

  ghost predicate PlaceOk(db: Db, p: PlaceTask) {
    match p
    case PlaceIdle => true
    case Keyed(cmd) => cmd.orderId !in db.orders && Acceptable(cmd, true)
    case Stored(cmd) => PendingCopy(db, MakeOrder(cmd))
    case Queued(cmd) => PendingCopy(db, MakeOrder(cmd))
    case Cached(cmd) => PendingCopy(db, MakeOrder(cmd))
    case Accepted(cmd) => PendingCopy(db, MakeOrder(cmd)) && cmd.orderType.Market?
    case PlaceWork(cmd, phase) => true
  }

  // ---------------------------------------------------------------- the cache

  /** The task is between overwriting the cached copy and removing it. */
  predicate Drops(ph: Option<Phase>, id: Id) {
    ph.Some? && (ph.value.Drop? || ph.value.RefusedDrop?) && ph.value.o.id == id
  }

  /** The task is on its way to removing `id` from the cache. */
  predicate Removes(ph: Option<Phase>, id: Id) {
    && ph.Some?
    && ph.value.o.id == id
    && (ph.value.Committed? || ph.value.Sync? || ph.value.Drop? || ph.value.RefusedSync? || ph.value.RefusedDrop?)
  }

  predicate Indexed(w: World, id: Id) {
    id in w.db.orders && id in PendingIds(w.cache, w.db.orders[id].symbol)
  }

  ghost predicate CopiesOk(w: World, a: Option<Phase>, b: Option<Phase>) {
    forall id :: id in w.cache.orders ==>
      && id in w.db.orders
      && w.cache.orders[id].id == id
      && SameTerms(w.cache.orders[id], w.db.orders[id])
      && (if w.cache.orders[id].status == Pending then PendingCopy(w.db, w.cache.orders[id]) && Indexed(w, id)
          else Drops(a, id) || Drops(b, id))
  }

  ghost predicate EntriesOk(w: World) {
    forall symbol, id :: symbol in w.cache.pending && id in w.cache.pending[symbol] ==>
      id in w.cache.orders && id in w.db.orders && w.db.orders[id].symbol == symbol
  }

  /** Cached copies are copies of stored orders, pending ones indexed unless about to be removed, and
      the index files each order under its own symbol. */
  ghost predicate CacheOk(w: World, a: Option<Phase>, b: Option<Phase>) {
    && CopiesOk(w, a, b)
    && EntriesOk(w)
    && forall key :: key in w.cache.lastTicks ==> GoodQuote(w.cache.lastTicks[key])
  }

  predicate Placing(p: PlaceTask, id: Id) {
    (p.Stored? || p.Queued?) && p.cmd.orderId == id
  }

  /** Every pending order is in its pending set and in the cache, unless its placing is half done or
      was broken off between storing the order and queueing it, or the last start-up overlooked it. */
  ghost predicate CoverOk(w: World, p: PlaceTask) {
    forall id :: Status(w.db, id, Pending) && id !in w.history.unqueued ==>
      && (id in ZMembers(w.db, w.db.orders[id].symbol) || (p.Stored? && p.cmd.orderId == id))
      && (Indexed(w, id) || Placing(p, id) || id in w.history.overlooked)
  }

  /** Stored but not in its pending set, for now or for good. */
  predicate Limbo(w: World, p: PlaceTask, id: Id) {
    id in w.history.unqueued || (p.Stored? && p.cmd.orderId == id)
  }

  ghost predicate LimboOk(w: World, p: PlaceTask) {
    forall id :: Limbo(w, p, id) ==>
      && id in w.db.orders
      && !Indexed(w, id)
      && id !in ZMembers(w.db, w.db.orders[id].symbol)
      && (id in w.history.unqueued ==> !Placing(p, id))
  }

  /** An overlooked order is not in the cache, and nothing is about to put it there. */
  ghost predicate OverlookedOk(w: World, p: PlaceTask) {
    forall id :: id in w.history.overlooked ==>
      id in w.db.orders && !Indexed(w, id) && !Placing(p, id) && id !in w.history.unqueued
  }

  ghost predicate OutsideOk(w: World, p: PlaceTask) {
    LimboOk(w, p) && OverlookedOk(w, p)
  }

  /** Indexed orders that are no longer pending are exactly the recorded stale ones, but for those a
      task is about to remove. */
  ghost predicate StaleOk(w: World, a: Option<Phase>, b: Option<Phase>, c: CancelTask) {
    && (forall id :: id in w.history.stale ==> Indexed(w, id) && Finished(w.db, id))
    && (forall id :: Indexed(w, id) && Finished(w.db, id) ==>
          || id in w.history.stale
          || Removes(a, id) || Removes(b, id)
          || (c.CancelCommitted? && c.o.id == id))
  }

  // ---------------------------------------------------------------- the invariant

  ghost predicate Good(w: World, a: Option<Phase>, b: Option<Phase>, c: CancelTask, p: PlaceTask) {
    && DbOk(w.db) && FillsOk(w)
    && PhasesOk(w.db, a) && PhasesOk(w.db, b) && CancelOk(w.db, c) && PlaceOk(w.db, p)
    && CacheOk(w, a, b) && CoverOk(w, p) && OutsideOk(w, p) && StaleOk(w, a, b, c)
  }

  function PlacePhase(p: PlaceTask): Option<Phase> {
    if p.PlaceWork? then Some(p.phase) else None
  }

  function TickPhase(t: TickTask): Option<Phase> {
    if t.TickWork? then Some(t.phase) else None
  }

  predicate TickOk(t: TickTask) {
    !t.TickIdle? ==> GoodQuote(t.q)
  }

  ghost predicate Inv(e: Engine) {
    Good(e.w, PlacePhase(e.place), TickPhase(e.tick), e.cancel, e.place) && TickOk(e.tick)
  }

  // ---------------------------------------------------------------- how stored orders may change

  /** The only change that is not a pending order being finished: a market order marked rejected. */
  predicate OrderMoves(o: Order, o': Order) {
    && SameTerms(o, o')
    && (o' == o || o.status == Pending || (o.orderType.Market? && o'.status == Rejected))
  }

  ghost predicate Moves(db: Db, db': Db) {
    forall id :: id in db.orders ==> id in db'.orders && OrderMoves(db.orders[id], db'.orders[id])
  }

  lemma MovesKeepTasks(db: Db, db': Db, ph: Option<Phase>, c: CancelTask)
    requires Moves(db, db') && PhasesOk(db, ph) && CancelOk(db, c)
    ensures PhasesOk(db', ph) && CancelOk(db', c)
  {
  }

  // ---------------------------------------------------------------- cache calls keep the invariant

  /** The new tasks still remove everything the old ones were going to remove, except `id`. */
  ghost predicate HandsOver(a: Option<Phase>, a': Option<Phase>, id: Id) {
    forall k :: k != id ==> (Drops(a, k) ==> Drops(a', k)) && (Removes(a, k) ==> Removes(a', k))
  }

  lemma RemovedIndex(w: World, o: Order)
    requires DbOk(w.db) && PendingCopy(w.db, o)
    ensures forall id :: Indexed(Removed(w, o), id) <==> Indexed(w, id) && id != o.id
  {
    forall id ensures Indexed(Removed(w, o), id) <==> Indexed(w, id) && id != o.id {
      if id in w.db.orders {
        assert NormalizeSymbol(w.db.orders[id].symbol) == w.db.orders[id].symbol;
        assert NormalizeSymbol(w.db.orders[o.id].symbol) == o.symbol;
      }
    }
  }

  lemma RemovedCache(w: World, o: Order, a: Option<Phase>, a': Option<Phase>, b: Option<Phase>)
    requires DbOk(w.db) && CacheOk(w, a, b) && PendingCopy(w.db, o) && HandsOver(a, a', o.id)
    ensures CacheOk(Removed(w, o), a', b)
  {
    RemovedIndex(w, o);
    var w' := Removed(w, o);
    forall symbol, id | symbol in w'.cache.pending && id in w'.cache.pending[symbol]
      ensures id in w'.cache.orders && id in w'.db.orders && w'.db.orders[id].symbol == symbol
    {
      assert id in w.cache.pending[symbol];
      assert OrderOk(o.id, w.db.orders[o.id]);
    }
  }

  /** Removing a finished order from the cache. */
  lemma RemovedGood(w: World, o: Order, a: Option<Phase>, a': Option<Phase>, b: Option<Phase>, c: CancelTask, c': CancelTask, p: PlaceTask)
    requires Good(w, a, b, c, p)
    requires PendingCopy(w.db, o) && Finished(w.db, o.id)
    requires PhasesOk(w.db, a') && CancelOk(w.db, c')
    requires HandsOver(a, a', o.id)
    requires c == c' || (c.CancelCommitted? && c.o == o)
    ensures Good(Removed(w, o), a', b, c', p)
  {
    RemovedCache(w, o, a, a', b);
    RemovedCover(w, o, p);
    RemovedStale(w, o, a, a', b, c, c');
    SameFills(w, Removed(w, o));
  }

  /** The log's condition reads the order records only. */
  lemma SameFills(w: World, w': World)
    requires FillsOk(w) && w'.db.orders == w.db.orders && w'.history.fills == w.history.fills
    ensures FillsOk(w')
  {
    var log := w.history.fills;
    assert forall i :: 0 <= i < |log| ==> FillOk(w.db, log[i]);
    assert forall id :: Status(w'.db, id, OrderStatus.Filled) ==> Status(w.db, id, OrderStatus.Filled);
  }

  lemma RemovedCover(w: World, o: Order, p: PlaceTask)
    requires DbOk(w.db) && PendingCopy(w.db, o) && Finished(w.db, o.id) && CoverOk(w, p) && OutsideOk(w, p)
    ensures CoverOk(Removed(w, o), p) && OutsideOk(Removed(w, o), p)
  {
    RemovedIndex(w, o);
    assert forall id :: Limbo(Removed(w, o), p, id) <==> Limbo(w, p, id);
  }

  lemma RemovedStale(w: World, o: Order, a: Option<Phase>, a': Option<Phase>, b: Option<Phase>, c: CancelTask, c': CancelTask)
    requires DbOk(w.db) && PendingCopy(w.db, o) && StaleOk(w, a, b, c)
    requires HandsOver(a, a', o.id) && (c == c' || (c.CancelCommitted? && c.o == o))
    ensures StaleOk(Removed(w, o), a', b, c')
  {
    RemovedIndex(w, o);
  }

  lemma UpdatedCopies(w: World, o': Order, a: Option<Phase>, a': Option<Phase>, b: Option<Phase>)
    requires CopiesOk(w, a, b)
    requires o'.id in w.db.orders && SameTerms(o', w.db.orders[o'.id]) && o'.status != Pending
    requires Drops(a', o'.id) && HandsOver(a, a', o'.id)
    ensures CopiesOk(w.(cache := UpdateOrder(w.cache, o')), a', b)
  {
    var w' := w.(cache := UpdateOrder(w.cache, o'));
    forall id | id in w'.cache.orders && id != o'.id && w.cache.orders[id].status == Pending ensures Indexed(w', id) {
      assert Indexed(w, id);
    }
  }

  lemma UpdatedEntries(w: World, o': Order)
    requires EntriesOk(w) && o'.id in w.db.orders
    ensures EntriesOk(w.(cache := UpdateOrder(w.cache, o')))
  {
  }

  lemma UpdatedCache(w: World, o': Order, a: Option<Phase>, a': Option<Phase>, b: Option<Phase>)
    requires CacheOk(w, a, b)
    requires o'.id in w.db.orders && SameTerms(o', w.db.orders[o'.id]) && o'.status != Pending
    requires Drops(a', o'.id) && HandsOver(a, a', o'.id)
    ensures CacheOk(w.(cache := UpdateOrder(w.cache, o')), a', b)
  {
    UpdatedCopies(w, o', a, a', b);
    UpdatedEntries(w, o');
  }

  /** Nothing but the cached copies and the caller's own task changed. */
  lemma SameIndexKeeps(w: World, w': World, a: Option<Phase>, a': Option<Phase>, b: Option<Phase>, c: CancelTask, p: PlaceTask, k: Id)
    requires w'.db == w.db && w'.history == w.history && w'.cache.pending == w.cache.pending
    requires HandsOver(a, a', k) && (Removes(a', k) || !Removes(a, k))
    requires StaleOk(w, a, b, c) && CoverOk(w, p) && OutsideOk(w, p) && FillsOk(w)
    ensures StaleOk(w', a', b, c) && CoverOk(w', p) && OutsideOk(w', p) && FillsOk(w')
  {
    assert forall id :: Indexed(w', id) <==> Indexed(w, id);
  }

  /** Overwriting a cached copy on the way to removing it. */
  lemma UpdatedGood(w: World, o': Order, a: Option<Phase>, a': Option<Phase>, b: Option<Phase>, c: CancelTask, p: PlaceTask)
    requires Good(w, a, b, c, p)
    requires o'.id in w.db.orders && SameTerms(o', w.db.orders[o'.id]) && o'.status != Pending
    requires PhasesOk(w.db, a') && Drops(a', o'.id)
    requires HandsOver(a, a', o'.id)
    ensures Good(w.(cache := UpdateOrder(w.cache, o')), a', b, c, p)
  {
    UpdatedCache(w, o', a, a', b);
    SameIndexKeeps(w, w.(cache := UpdateOrder(w.cache, o')), a, a', b, c, p, o'.id);
  }

  // ---------------------------------------------------------------- Redis commands keep the invariant

  /** Redis finished order `id`, or re-marked it, and perhaps took it off its pending set; the cache
      has not moved. */
  ghost predicate Finishes(w: World, w': World, id: Id) {
    && w'.cache == w.cache
    && w'.history == w.history.(fills := w'.history.fills)
    && id in w.db.orders && id in w'.db.orders
    && w'.db == w.db.(orders := w.db.orders[id := w'.db.orders[id]], zsets := w'.db.zsets)
    && OrderMoves(w.db.orders[id], w'.db.orders[id]) && w'.db.orders[id].status != Pending
    && (forall symbol, k :: k in ZMembers(w'.db, symbol) ==> k in ZMembers(w.db, symbol))
    && (forall symbol, k :: k in ZMembers(w.db, symbol) && k != id ==> k in ZMembers(w'.db, symbol))
  }

  lemma FinishesIndex(w: World, w': World, id: Id)
    requires Finishes(w, w', id)
    ensures Moves(w.db, w'.db)
    ensures forall k :: Indexed(w', k) <==> Indexed(w, k)
    ensures forall k :: k in w.db.orders <==> k in w'.db.orders
    ensures forall k :: k in w.db.orders ==> w'.db.orders[k].symbol == w.db.orders[k].symbol
  {
  }

  lemma FinishesCache(w: World, w': World, a: Option<Phase>, a': Option<Phase>, b: Option<Phase>, id: Id)
    requires Finishes(w, w', id) && CacheOk(w, a, b)
    requires forall k :: Drops(a, k) ==> Drops(a', k)
    ensures CacheOk(w', a', b)
  {
    FinishesIndex(w, w', id);
  }

  lemma FinishesDb(w: World, w': World, id: Id)
    requires Finishes(w, w', id) && DbOk(w.db) && OrderOk(id, w'.db.orders[id])
    ensures DbOk(w'.db)
  {
    FinishesIndex(w, w', id);
  }

  lemma FinishesCover(w: World, w': World, p: PlaceTask, id: Id)
    requires Finishes(w, w', id) && CoverOk(w, p) && OutsideOk(w, p)
    ensures CoverOk(w', p) && OutsideOk(w', p)
  {
    FinishesIndex(w, w', id);
  }

  lemma FinishesStale(w: World, w': World, a: Option<Phase>, a': Option<Phase>, b: Option<Phase>, c: CancelTask, c': CancelTask, id: Id)
    requires Finishes(w, w', id) && StaleOk(w, a, b, c) && HandsOver(a, a', id)
    requires Removes(a', id) || (c'.CancelCommitted? && c'.o.id == id)
    requires c == c' || !c.CancelCommitted?
    ensures StaleOk(w', a', b, c')
  {
    FinishesIndex(w, w', id);
  }

  lemma FinishesGood(w: World, w': World, a: Option<Phase>, a': Option<Phase>, b: Option<Phase>, c: CancelTask, c': CancelTask, p: PlaceTask, id: Id)
    requires Good(w, a, b, c, p) && Finishes(w, w', id)
    requires OrderOk(id, w'.db.orders[id]) && FillsOk(w') && PhasesOk(w'.db, a') && CancelOk(w'.db, c')
    requires HandsOver(a, a', id) && !Drops(a, id)
    requires Removes(a', id) || (c'.CancelCommitted? && c'.o.id == id)
    requires c == c' || !c.CancelCommitted?
    ensures Moves(w.db, w'.db) && Good(w', a', b, c', p)
  {
    FinishesIndex(w, w', id);
    FinishesDb(w, w', id);
    FinishesCache(w, w', a, a', b, id);
    FinishesCover(w, w', p, id);
    FinishesStale(w, w', a, a', b, c, c', id);
    MovesKeepTasks(w.db, w'.db, b, c);
  }

  /** Every logged fill stays valid when some order is finished or re-marked without a fill. */
  lemma SameLog(w: World, w': World, id: Id)
    requires FillsOk(w) && Finishes(w, w', id) && w'.history == w.history
    requires !Status(w'.db, id, OrderStatus.Filled)
    requires Status(w.db, id, OrderStatus.Filled) ==> Status(w'.db, id, Rejected)
    requires Status(w.db, id, Rejected) ==> Status(w'.db, id, Rejected)
    ensures FillsOk(w')
  {
    var log := w.history.fills;
    forall i | 0 <= i < |log| ensures FillOk(w'.db, log[i]) {
      assert FillOk(w.db, log[i]);
    }
    forall k | Status(w'.db, k, OrderStatus.Filled) ensures exists i :: 0 <= i < |log| && log[i].id == k {
      assert Status(w.db, k, OrderStatus.Filled);
    }
  }

  lemma LongerLog(w: World, w': World, f: Fill)
    requires FillsOk(w) && Finishes(w, w', f.id)
    requires Status(w.db, f.id, Pending) && Status(w'.db, f.id, OrderStatus.Filled)
    requires w'.history.fills == w.history.fills + [f] && FillOk(w'.db, f)
    ensures FillsOk(w')
  {
    var log := w.history.fills;
    forall i | 0 <= i < |log| ensures FillOk(w'.db, log[i]) && log[i].id != f.id {
      assert FillOk(w.db, log[i]);
    }
    var log' := w'.history.fills;
    assert log'[|log|] == f;
    forall k | Status(w'.db, k, OrderStatus.Filled) ensures exists i :: 0 <= i < |log'| && log'[i].id == k {
      if k != f.id {
        assert Status(w.db, k, OrderStatus.Filled);
        var i :| 0 <= i < |log| && log[i].id == k;
        assert log'[i].id == k;
      }
    }
  }

  lemma CommittedGood(w: World, w': World, o: Order, q: Quote, leverage: real, b: Option<Phase>, c: CancelTask, p: PlaceTask)
    requires Good(w, Some(Script(o, q, leverage)), b, c, p)
    requires PhaseStep(w, Script(o, q, leverage), false) == (w', Some(Committed(o, q)))
    ensures Moves(w.db, w'.db) && Good(w', Some(Committed(o, q)), b, c, p)
  {
    CommittedFinishes(w, w', o, q, leverage);
    LongerLog(w, w', Fill(o.id, SidePrice(o.side, q), q));
    FinishesGood(w, w', Some(Script(o, q, leverage)), Some(Committed(o, q)), b, c, c, p, o.id);
  }

  lemma CommittedFinishes(w: World, w': World, o: Order, q: Quote, leverage: real)
    requires DbOk(w.db) && PhaseOk(w.db, Script(o, q, leverage))
    requires PhaseStep(w, Script(o, q, leverage), false) == (w', Some(Committed(o, q)))
    ensures Status(w.db, o.id, Pending) && Finishes(w, w', o.id)
    ensures OrderOk(o.id, w'.db.orders[o.id]) && w'.db.orders[o.id] == AsFilled(o, SidePrice(o.side, q))
    ensures w'.history.fills == w.history.fills + [Fill(o.id, SidePrice(o.side, q), q)]
  {
  }

  /** The fill script: a committed fill is logged and takes the order off its pending set; any other
      reply changes nothing. */
  lemma ScriptGood(w: World, o: Order, q: Quote, leverage: real, fault: bool, b: Option<Phase>, c: CancelTask, p: PlaceTask)
    requires Good(w, Some(Script(o, q, leverage)), b, c, p)
    ensures
      var (w', ph') := PhaseStep(w, Script(o, q, leverage), fault);
      Moves(w.db, w'.db) && Good(w', ph', b, c, p)
  {
    var (w', ph') := PhaseStep(w, Script(o, q, leverage), fault);
    if ph' == Some(Committed(o, q)) {
      CommittedGood(w, w', o, q, leverage, b, c, p);
    } else {
      TaskSwapped(w, Some(Script(o, q, leverage)), ph', b, c, c, p);
    }
  }

  /** The cache condition reads the order records and the cache only. */
  lemma CacheSwaps(w: World, w': World, a: Option<Phase>, a': Option<Phase>, b: Option<Phase>)
    requires CacheOk(w, a, b) && w'.db.orders == w.db.orders && w'.cache == w.cache
    requires forall k :: Drops(a, k) ==> Drops(a', k)
    ensures CacheOk(w', a', b)
  {
    assert forall id :: Indexed(w', id) <==> Indexed(w, id);
  }

  lemma StaleSwaps(w: World, a: Option<Phase>, a': Option<Phase>, b: Option<Phase>, c: CancelTask, c': CancelTask)
    requires StaleOk(w, a, b, c)
    requires forall k :: Removes(a, k) ==> Removes(a', k)
    requires c == c' || !c.CancelCommitted?
    ensures StaleOk(w, a', b, c')
  {
  }

  /** Only the tasks moved, and nothing they owed the cache was forgotten. */
  lemma TaskSwapped(w: World, a: Option<Phase>, a': Option<Phase>, b: Option<Phase>, c: CancelTask, c': CancelTask, p: PlaceTask)
    requires Good(w, a, b, c, p) && PhasesOk(w.db, a') && CancelOk(w.db, c')
    requires forall k :: (Drops(a, k) ==> Drops(a', k)) && (Removes(a, k) ==> Removes(a', k))
    requires c == c' || !c.CancelCommitted?
    ensures Good(w, a', b, c', p)
  {
    CacheSwaps(w, w, a, a', b);
    StaleSwaps(w, a, a', b, c, c');
  }

  /** The slippage rejection stores its own copy over whatever is there. */
  lemma RefusedGood(w: World, ph: Phase, fault: bool, b: Option<Phase>, c: CancelTask, p: PlaceTask)
    requires ph.Refusing? && Good(w, Some(ph), b, c, p)
    ensures
      var (w', ph') := PhaseStep(w, ph, fault);
      Moves(w.db, w'.db) && Good(w', ph', b, c, p)
  {
    if fault {
      TaskSwapped(w, Some(ph), None, b, c, c, p);
    } else {
      RefusedStored(w, ph.o, b, c, p);
    }
  }

  lemma RefusedFinishes(w: World, o: Order)
    requires DbOk(w.db) && FillsOk(w) && PhaseOk(w.db, Refusing(o))
    ensures
      var w' := w.(db := SetOrder(w.db, o.id, o.(status := Rejected)));
      Finishes(w, w', o.id) && OrderOk(o.id, w'.db.orders[o.id]) && FillsOk(w')
  {
    var w' := w.(db := SetOrder(w.db, o.id, o.(status := Rejected)));
    assert OrderOk(o.id, w.db.orders[o.id]);
    SameLog(w, w', o.id);
  }

  lemma RefusedStored(w: World, o: Order, b: Option<Phase>, c: CancelTask, p: PlaceTask)
    requires Good(w, Some(Refusing(o)), b, c, p)
    ensures
      var w' := w.(db := SetOrder(w.db, o.id, o.(status := Rejected)));
      Moves(w.db, w'.db) && Good(w', Some(RefusedSync(o)), b, c, p)
  {
    RefusedFinishes(w, o);
    var w' := w.(db := SetOrder(w.db, o.id, o.(status := Rejected)));
    FinishesGood(w, w', Some(Refusing(o)), Some(RefusedSync(o)), b, c, c, p, o.id);
  }

  lemma SkippedStale(w: World, o: Order, a: Option<Phase>, b: Option<Phase>, c: CancelTask, c': CancelTask)
    requires StaleOk(w, a, b, c) && PendingCopy(w.db, o) && Finished(w.db, o.id)
    requires forall k :: Removes(a, k) ==> k == o.id
    requires c == c' || c == CancelCommitted(o)
    ensures StaleOk(w.(history := Skipped(w, o)), None, b, c')
  {
    assert forall id :: Indexed(w.(history := Skipped(w, o)), id) <==> Indexed(w, id);
  }

  lemma HistoryKeeps(w: World, w': World, p: PlaceTask)
    requires FillsOk(w) && CoverOk(w, p) && OutsideOk(w, p)
    requires w'.db == w.db && w'.cache == w.cache
    requires w'.history == w.history.(stale := w'.history.stale)
    ensures FillsOk(w') && CoverOk(w', p) && OutsideOk(w', p)
  {
    assert forall id :: Indexed(w', id) <==> Indexed(w, id);
  }

  /** A publish failed after the script: the cache keeps the finished order. */
  lemma SkippedGood(w: World, o: Order, a: Option<Phase>, b: Option<Phase>, c: CancelTask, c': CancelTask, p: PlaceTask)
    requires Good(w, a, b, c, p) && PendingCopy(w.db, o) && Finished(w.db, o.id) && CancelOk(w.db, c')
    requires forall k :: !Drops(a, k) && (Removes(a, k) ==> k == o.id)
    requires c == c' || c == CancelCommitted(o)
    ensures Good(w.(history := Skipped(w, o)), None, b, c', p)
  {
    var w' := w.(history := Skipped(w, o));
    SkippedStale(w, o, a, b, c, c');
    CacheSwaps(w, w', a, None, b);
    HistoryKeeps(w, w', p);
  }

  lemma ZRemSets(db: Db, o: Order)
    ensures
      var db' := ZRem(db, o.symbol, o.id);
      && (forall symbol, id :: id in ZMembers(db', symbol) ==> id in ZMembers(db, symbol))
      && (forall symbol, id :: id in ZMembers(db, symbol) && id != o.id ==> id in ZMembers(db', symbol))
  {
  }

  lemma ZRemDb(db: Db, o: Order)
    requires DbOk(db)
    ensures DbOk(ZRem(db, o.symbol, o.id))
  {
    ZRemSets(db, o);
  }

  lemma ZRemKeeps(w: World, o: Order, p: PlaceTask)
    requires CoverOk(w, p) && OutsideOk(w, p) && Finished(w.db, o.id)
    ensures
      var w' := w.(db := ZRem(w.db, o.symbol, o.id));
      CoverOk(w', p) && OutsideOk(w', p)
  {
    var w' := w.(db := ZRem(w.db, o.symbol, o.id));
    ZRemSets(w.db, o);
    assert forall id :: Indexed(w', id) <==> Indexed(w, id);
    assert forall id :: Limbo(w', p, id) <==> Limbo(w, p, id);
  }

  lemma ZRemGood(w: World, o: Order, b: Option<Phase>, c: CancelTask, p: PlaceTask)
    requires Good(w, Some(RefusedZRem(o)), b, c, p)
    ensures Good(w.(db := ZRem(w.db, o.symbol, o.id)), None, b, c, p)
  {
    var w' := w.(db := ZRem(w.db, o.symbol, o.id));
    ZRemDb(w.db, o);
    SameFills(w, w');
    assert CoverOk(w', p) && OutsideOk(w', p) by { ZRemKeeps(w, o, p); }
    assert CacheOk(w', None, b) by { CacheSwaps(w, w', Some(RefusedZRem(o)), None, b); }
    assert StaleOk(w', None, b, c) by { ZRemStale(w, o, b, c); }
    SameOrdersSameTasks(w.db, w'.db, b, c, p);
  }

  /** The tasks' conditions read the order records only. */
  lemma SameOrdersSameTasks(db: Db, db': Db, ph: Option<Phase>, c: CancelTask, p: PlaceTask)
    requires db'.orders == db.orders
    ensures PhasesOk(db', ph) == PhasesOk(db, ph) && CancelOk(db', c) == CancelOk(db, c) && PlaceOk(db', p) == PlaceOk(db, p)
  {
  }

  lemma ZRemStale(w: World, o: Order, b: Option<Phase>, c: CancelTask)
    requires StaleOk(w, Some(RefusedZRem(o)), b, c)
    ensures StaleOk(w.(db := ZRem(w.db, o.symbol, o.id)), None, b, c)
  {
    assert forall id :: Indexed(w.(db := ZRem(w.db, o.symbol, o.id)), id) <==> Indexed(w, id);
  }

  lemma FillingGood(w: World, ph: Phase, fault: bool, b: Option<Phase>, c: CancelTask, p: PlaceTask)
    requires Good(w, Some(ph), b, c, p) && (ph.Committed? || ph.Sync? || ph.Drop?)
    ensures
      var (w', ph') := PhaseStep(w, ph, fault);
      w'.db == w.db && Good(w', ph', b, c, p)
  {
    match ph
    case Committed(o, q) => AnnouncedGood(w, o, q, fault, b, c, p);
    case Sync(o, q) => UpdatedGood(w, AsFilled(o, SidePrice(o.side, q)), Some(ph), Some(Drop(o)), b, c, p);
    case Drop(o) => RemovedGood(w, o, Some(ph), None, b, c, c, p);
  }

  lemma AnnouncedGood(w: World, o: Order, q: Quote, fault: bool, b: Option<Phase>, c: CancelTask, p: PlaceTask)
    requires Good(w, Some(Committed(o, q)), b, c, p)
    ensures
      var (w', ph') := PhaseStep(w, Committed(o, q), fault);
      Good(w', ph', b, c, p)
  {
    if fault {
      SkippedGood(w, o, Some(Committed(o, q)), b, c, c, p);
    } else {
      TaskSwapped(w, Some(Committed(o, q)), Some(Sync(o, q)), b, c, c, p);
    }
  }

  lemma RefusingGood(w: World, ph: Phase, fault: bool, b: Option<Phase>, c: CancelTask, p: PlaceTask)
    requires Good(w, Some(ph), b, c, p) && (ph.RefusedSync? || ph.RefusedDrop? || ph.RefusedZRem?)
    ensures
      var (w', ph') := PhaseStep(w, ph, fault);
      w'.db.orders == w.db.orders && Good(w', ph', b, c, p)
  {
    var (w', ph') := PhaseStep(w, ph, fault);
    match ph
    case RefusedSync(o) => UpdatedGood(w, o.(status := Rejected), Some(ph), ph', b, c, p);
    case RefusedDrop(o) => RemovedGood(w, o, Some(ph), ph', b, c, c, p);
    case RefusedZRem(o) =>
      if fault { TaskSwapped(w, Some(ph), None, b, c, c, p); } else { ZRemGood(w, o, b, c, p); }
  }

  /** One step of filling or refusing keeps the invariant, whichever task takes it. */
  lemma PhaseStepGood(w: World, ph: Phase, fault: bool, b: Option<Phase>, c: CancelTask, p: PlaceTask)
    requires Good(w, Some(ph), b, c, p)
    ensures
      var (w', ph') := PhaseStep(w, ph, fault);
      Moves(w.db, w'.db) && Good(w', ph', b, c, p)
  {
    if ph.Script? || ph.Refusing? {
      WritingGood(w, ph, fault, b, c, p);
    } else {
      UncachingGood(w, ph, fault, b, c, p);
    }
  }

  lemma WritingGood(w: World, ph: Phase, fault: bool, b: Option<Phase>, c: CancelTask, p: PlaceTask)
    requires Good(w, Some(ph), b, c, p) && (ph.Script? || ph.Refusing?)
    ensures
      var (w', ph') := PhaseStep(w, ph, fault);
      Moves(w.db, w'.db) && Good(w', ph', b, c, p)
  {
    if ph.Script? {
      ScriptGood(w, ph.o, ph.q, ph.leverage, fault, b, c, p);
    } else {
      RefusedGood(w, ph, fault, b, c, p);
    }
  }

  lemma UncachingGood(w: World, ph: Phase, fault: bool, b: Option<Phase>, c: CancelTask, p: PlaceTask)
    requires Good(w, Some(ph), b, c, p) && !ph.Script? && !ph.Refusing?
    ensures
      var (w', ph') := PhaseStep(w, ph, fault);
      w'.db.orders == w.db.orders && Good(w', ph', b, c, p)
  {
    if ph.Committed? || ph.Sync? || ph.Drop? {
      FillingGood(w, ph, fault, b, c, p);
    } else {
      RefusingGood(w, ph, fault, b, c, p);
    }
  }
}
