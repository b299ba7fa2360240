/** The engine's handlers as they are written, over the cache object and the Redis store. Each is
    proved to do exactly what its steps do when nothing else runs in between. */
module Handlers {
  import opened Contracts
  import opened Symbols
  import opened Subjects
  import opened Orders
  import opened OrderCaches
  import opened RedisStores
  import opened EngineSteps
  import opened HandlerRuns
  import opened Slippage
  import EL = EffectiveLeverage

  /** The cache and the store that the place, tick and cancel handlers share, with the handlers as
      methods. `history` records what happened; no handler reads it. */
  class OrderEngine {
    const cache: OrderCache
    const redis: RedisStore
    ghost var history: History

    ghost function View(): World
      reads this, cache, redis
    {
      World(redis.View(), cache.View(), history)
    }

    constructor (cache: OrderCache, redis: RedisStore)
      ensures this.cache == cache && this.redis == redis && history == EMPTY_HISTORY
    {
      this.cache, this.redis, history := cache, redis, EMPTY_HISTORY;
    }

    // -------------------------------------------------------------- filling and refusing

    /** Uncaches a finished order after bringing its cached copy up to date. */
    method SyncAndDrop(o: Order, updated: Order)
      requires updated.id == o.id
      modifies this, cache
      ensures View() == SyncedAndDropped(old(View()), o, updated)
    {
      cache.UpdateCachedOrder(updated);
      cache.RemovePendingOrder(o.symbol, o.id);
      history := history.(stale := history.stale - {o.id});
    }

    method RejectMarketOrder(o: Order, unpublished: bool) returns (ok: bool)
      modifies this, cache, redis
      ensures View() == FinishPhase(old(View()), Refusing(o), unpublished)
    {
      if unpublished { return false; }
      FinishRefusing(View(), o);
      redis.PutOrder(o.(status := Rejected));
      SyncAndDrop(o, o.(status := Rejected));
      redis.ZRemove(o.symbol, o.id);
      ok := true;
    }

    /** Leverage first, then slippage for market orders. */
    method Decide(o: Order, q: Quote) returns (decision: Option<Phase>)
      ensures decision == Attempt(o, q)
    {
      var price := SidePrice(o.side, q);
      var eff := EL.ComputeEffectiveLeverage(Notional(o, price), o.minLeverage, o.maxLeverage, o.leverageTiers);
      if eff.None? || eff.value <= 0.0 { return None; }
      if o.orderType.Market? {
        if SlippageOf(o, price).Exceeded? { return Some(Refusing(o)); }
      }
      decision := Some(Script(o, q, eff.value));
    }

    /** Decide, then refuse the order or run the fill script and bring the cache up to date. A script
        that finds the order already filled also takes it out of the cache. */
    method ExecuteFill(o: Order, q: Quote, unpublished: bool) returns (ok: bool, ghost decision: Option<Phase>)
      modifies this, cache, redis
      ensures decision == Attempt(o, q)
      ensures View() == if decision.None? then old(View()) else FinishPhase(old(View()), decision.value, unpublished)
    {
      var d := Decide(o, q);
      decision := d;
      if d.None? { return false, d; }
      if d.value.Refusing? {
        ok := RejectMarketOrder(d.value.o, unpublished);
      } else {
        assert d.value.Script?;
        ok := RunFillScript(d.value.o, d.value.q, d.value.leverage, unpublished);
      }
    }

    method RunFillScript(o: Order, q: Quote, leverage: real, unpublished: bool) returns (ok: bool)
      modifies this, cache, redis
      ensures View() == FinishPhase(old(View()), Script(o, q, leverage), unpublished)
    {
      var price := SidePrice(o.side, q);
      ghost var w := View();
      var reply := redis.FillOrder(o.id, price, o.size, leverage);
      if reply.FillDone? {
        history := history.(fills := history.fills + [Fill(o.id, price, q)]);
        assert PhaseStep(w, Script(o, q, leverage), false) == (View(), Some(Committed(o, q)));
        FinishCommitted(View(), o, q, unpublished);
        if unpublished {
          history := Skipped(View(), o);
          return false;
        }
        SyncAndDrop(o, AsFilled(o, price));
        return true;
      }
      assert View() == w;
      if reply.FillNotPending? && reply.status == OrderStatus.Filled {
        FinishSync(w, o, q, unpublished);
        SyncAndDrop(o, AsFilled(o, price));
        return true;
      }
      ok := false;
    }

    // -------------------------------------------------------------- ticks

    /** One turn of the tick loop. */
    method ProcessPending(id: Id, group: Option<string>, q: Quote, unpublished: set<Id>, ghost rest: seq<Id>)
      modifies this, cache, redis
      ensures FinishTick(Ticking(View(), Looping(group, q, rest)), unpublished)
           == FinishTick(Ticking(old(View()), Looping(group, q, [id] + rest)), unpublished)
    {
      ghost var w := View();
      TickTurn(w, group, q, id, rest, unpublished);
      var order := cache.GetOrder(id);
      if order.None? { return; }
      var o := order.value;
      if o.status != Pending { return; }
      if group.Some? && o.groupId.Some? && o.groupId.value != group.value { return; }
      var shouldFill := match o.orderType
        case Market => true
        case Limit =>
          o.limitPrice.Some? && (if o.side.Buy? then q.ask <= o.limitPrice.value else q.bid >= o.limitPrice.value);
      assert shouldFill == Fillable(o, group, q);
      if shouldFill {
        var ok;
        ghost var ph;
        ok, ph := ExecuteFill(o, q, o.id in unpublished);
        if ph.Some? { AttemptOwner(o, q); }
      }
    }

    method TryPending(ids: seq<Id>, group: Option<string>, q: Quote, unpublished: set<Id>)
      modifies this, cache, redis
      ensures Resting(View()) == FinishTick(Ticking(old(View()), Looping(group, q, ids)), unpublished)
    {
      ghost var target := FinishTick(Ticking(View(), Looping(group, q, ids)), unpublished);
      assert ids[0..] == ids;
      for i := 0 to |ids|
        invariant FinishTick(Ticking(View(), Looping(group, q, ids[i..])), unpublished) == target
      {
        assert ids[i..] == [ids[i]] + ids[i + 1..];
        ProcessPending(ids[i], group, q, unpublished, ids[i + 1..]);
      }
      assert ids[|ids|..] == [];
    }

    /** `seen` lists the pending ids in the order in which the cache gave them out; `unpublished` names
        the orders whose events NATS will refuse. */
    method ProcessTick(symbol: string, group: Option<string>, q: Quote, unpublished: set<Id>) returns (ghost seen: seq<Id>)
      requires NormalizeSymbol(symbol) == symbol
      modifies this, cache, redis
      ensures Lists(seen, PendingIds(old(View()).cache, symbol))
      ensures Resting(View()) == FinishTick(TickTaken(old(View()), symbol, group, q, seen), unpublished)
    {
      var ids := cache.GetPendingOrders(symbol);
      seen := ids;
      if ids == [] {
        var prev := cache.GetLastTick(symbol, group);
        if prev == Some(q) { return; }
      }
      TickStarts(View(), symbol, group, q, ids, unpublished);
      redis.prices := redis.prices[QuoteKey(symbol, group) := q];
      cache.UpdateLastTick(symbol, group, q);
      TryPending(ids, group, q, unpublished);
    }

    /** A tick message: subject, then raw quote. Malformed subjects and non-positive quotes do nothing. */
    method HandleTick(subject: string, raw: Quote, unpublished: set<Id>) returns (ok: bool, ghost seen: seq<Id>)
      modifies this, cache, redis
      ensures ok <==> ParseTick(subject).Some?
      ensures
        var parsed := ParseTick(subject);
        if parsed.None? || RepairQuote(raw).None? then View() == old(View())
        else
          var (symbol, group) := parsed.value;
          && Lists(seen, PendingIds(old(View()).cache, symbol))
          && Resting(View()) == FinishTick(Next(Resting(old(View())), TickArrives(symbol, group, raw, seen)), unpublished)
    {
      seen := [];
      var parsed := ParseTick(subject);
      if parsed.None? { return false, []; }
      ok := true;
      var symbol, group := NormalizeSymbol(parsed.value.0), parsed.value.1;
      NormalizeIdempotent(parsed.value.0);
      if raw.bid <= 0.0 || raw.ask <= 0.0 { return; }
      var q := raw;
      if raw.ask < raw.bid {
        var spread := raw.bid * 0.0001;
        q := Quote(raw.bid, raw.bid + spread);
      }
      seen := ProcessTick(symbol, group, q, unpublished);
    }

    // -------------------------------------------------------------- placing

    /** The cached tick of the group, else the global one, else the stored quotes under the symbol as typed. */
    method ResolveMarketQuote(cmd: PlaceCommand) returns (q: Option<Quote>)
      ensures q == MarketQuote(View(), cmd)
    {
      q := cache.GetLastTick(cmd.symbol, cmd.groupId);
      if q.None? { q := cache.GetLastTick(cmd.symbol, None); }
      if q.Some? { return; }
      if cmd.groupId.Some? {
        var key := QuoteKey(cmd.symbol, cmd.groupId);
        if key in redis.prices { return Some(redis.prices[key]); }
      }
      var key := QuoteKey(cmd.symbol, None);
      if key in redis.prices { return Some(redis.prices[key]); }
    }

    /** A market order is tried at once, if a quote is to be had and leverage resolves. */
    method FillImmediately(cmd: PlaceCommand, faults: PlaceFaults)
      requires cmd.orderType.Market? && !faults.acceptUnpublished
      modifies this, cache, redis
      ensures Resting(View()) == FinishPlace(Resting(old(View())).(place := Cached(cmd)), faults)
    {
      ghost var w := View();
      PlaceAccepts(w, cmd, faults);
      var q := ResolveMarketQuote(cmd);
      if q.None? { return; }
      var decision := Decide(MakeOrder(cmd), q.value);
      if decision.None? { return; }
      PlaceFinishesPhase(w, cmd, decision.value, faults);
      var ok;
      if decision.value.Refusing? {
        ok := RejectMarketOrder(decision.value.o, faults.refusalUnpublished);
      } else {
        ok := RunFillScript(decision.value.o, decision.value.q, decision.value.leverage, false);
      }
    }

    /** `valid` is the outcome of the validator's checks on state outside this model. */
    method HandlePlaceOrder(cmd: PlaceCommand, valid: bool, faults: PlaceFaults)
      modifies this, cache, redis
      ensures Resting(View()) == FinishPlace(Next(Resting(old(View())), PlaceArrives(cmd, valid)), faults)
    {
      if cmd.idempotencyKey in redis.keys { return; }
      if !valid || cmd.size <= 0.0 { return; }
      if cmd.orderType.Limit? {
        if cmd.limitPrice.None? || cmd.limitPrice.value <= 0.0 { return; }
      }
      redis.keys := redis.keys + {cmd.idempotencyKey};
      PlaceStores(View(), cmd, faults);
      var order := MakeOrder(cmd);
      redis.PutOrder(order);
      redis.ZInsert(order.symbol, order.id);
      cache.AddPendingOrder(order.symbol, order.id, order);
      PlaceEndsAtCache(View(), cmd, faults);
      if faults.acceptUnpublished { return; }
      if cmd.orderType.Market? {
        FillImmediately(cmd, faults);
      }
    }

    // -------------------------------------------------------------- cancelling and starting up

    method HandleCancel(orderId: Id, userId: Id, unpublished: bool)
      modifies this, cache, redis
      ensures Resting(View()) == FinishCancel(Next(Resting(old(View())), CancelArrives(orderId, userId)), unpublished)
    {
      var cached := cache.GetOrder(orderId);
      var o: Order;
      if cached.Some? {
        o := cached.value;
      } else {
        if orderId !in redis.orders { return; }
        o := redis.orders[orderId];
      }
      if o.userId != userId || o.status != Pending { return; }
      ghost var e := Resting(View()).(cancel := Found(o));
      assert e == Next(Resting(View()), CancelArrives(orderId, userId));
      var cancelled := redis.CancelOrder(o.id);
      if cancelled {
        assert NextCancel(e, false) == Resting(View()).(cancel := CancelCommitted(o));
        CancelEnds(View(), o, unpublished);
        if unpublished {
          history := Skipped(View(), o);
          return;
        }
        cache.RemovePendingOrder(o.symbol, o.id);
        history := history.(stale := history.stale - {o.id});
      }
    }

    /** Caches the members of one pending set whose records are pending. A set that cannot be listed is
        taken for empty, a record that cannot be got for missing. */
    method WarmSymbol(symbol: string, unread: Unread, ghost walked: map<string, set<Id>>)
      requires symbol in redis.zsets && symbol !in walked && NormalizeSymbol(symbol) == symbol
      requires cache.View() == WarmCache(redis.View().(zsets := walked))
      modifies cache
      ensures
        cache.View() == WarmCache(redis.View().(zsets := walked[symbol := ReadOf(redis.View(), unread, symbol)]))
    {
      var members := if symbol in unread.sets then {} else redis.zsets[symbol];
      ghost var all, seen: set<Id> := members, {};
      WarmEmptySet(redis.View(), walked, symbol);
      while members != {}
        invariant members <= all && seen == (all - members) - unread.records
        invariant cache.View() == WarmCache(redis.View().(zsets := walked[symbol := seen]))
        decreases |members|
      {
        var id :| id in members;
        WarmMember(symbol, id, unread, walked, seen);
        members, seen := members - {id}, seen + ({id} - unread.records);
      }
      assert seen == ReadOf(redis.View(), unread, symbol);
    }

    method WarmMember(symbol: string, id: Id, unread: Unread, ghost walked: map<string, set<Id>>, ghost seen: set<Id>)
      requires symbol !in walked && NormalizeSymbol(symbol) == symbol
      requires cache.View() == WarmCache(redis.View().(zsets := walked[symbol := seen]))
      modifies cache
      ensures cache.View() == WarmCache(redis.View().(zsets := walked[symbol := seen + ({id} - unread.records)]))
    {
      if id in unread.records {
        assert seen + ({id} - unread.records) == seen;
        return;
      }
      assert {id} - unread.records == {id};
      WarmOneMore(redis.View(), walked, symbol, seen, id);
      if id in redis.orders && redis.orders[id].status == Pending {
        cache.AddPendingOrder(symbol, id, redis.orders[id]);
      }
    }

    /** Start-up: walk every pending set. Only a failure to list the sets is noticed. */
    method WarmOrderCache(unlisted: bool, unread: Unread) returns (ok: bool)
      requires cache.View() == EMPTY_CACHE
      requires forall symbol :: symbol in redis.zsets ==> NormalizeSymbol(symbol) == symbol
      modifies cache
      ensures ok <==> !unlisted
      ensures cache.View() == if ok then WarmCache(ReadBack(redis.View(), unread)) else EMPTY_CACHE
    {
      if unlisted { return false; }
      ghost var walked: map<string, set<Id>> := map[];
      var symbols := redis.zsets.Keys;
      NothingWalked(redis.View());
      while symbols != {}
        invariant symbols <= redis.zsets.Keys && AsRead(redis.View(), unread, walked, redis.zsets.Keys - symbols)
        invariant cache.View() == WarmCache(redis.View().(zsets := walked))
        decreases |symbols|
      {
        var symbol :| symbol in symbols;
        WarmSymbol(symbol, unread, walked);
        walked := walked[symbol := ReadOf(redis.View(), unread, symbol)];
        symbols := symbols - {symbol};
      }
      WarmAsRead(redis.View(), unread, walked);
      ok := true;
    }
  }

  lemma NothingWalked(db: Db)
    ensures WarmCache(db.(zsets := map[])) == EMPTY_CACHE
  {
  }

  /** What start-up reads of one pending set. */
  function ReadOf(db: Db, unread: Unread, symbol: string): set<Id> {
    if symbol in unread.sets then {} else ZMembers(db, symbol) - unread.records
  }

  ghost predicate AsRead(db: Db, unread: Unread, walked: map<string, set<Id>>, symbols: set<string>) {
    walked.Keys == symbols && forall symbol :: symbol in walked ==> walked[symbol] == ReadOf(db, unread, symbol)
  }

  lemma WarmAsRead(db: Db, unread: Unread, walked: map<string, set<Id>>)
    requires AsRead(db, unread, walked, db.zsets.Keys)
    ensures WarmCache(db.(zsets := walked)) == WarmCache(ReadBack(db, unread))
  {
    var a, b := db.(zsets := walked), ReadBack(db, unread);
    forall symbol ensures Loadable(a, symbol) == Loadable(b, symbol) {
      assert ZMembers(b, symbol) == ZMembers(a, symbol);
    }
    SameLoads(a, b);
  }

  /** Only what can be loaded matters, not which sets are empty. */
  lemma SameLoads(a: Db, b: Db)
    requires a.orders == b.orders && forall symbol :: Loadable(a, symbol) == Loadable(b, symbol)
    ensures WarmCache(a) == WarmCache(b)
  {
    assert forall symbol, id :: id in Loadable(a, symbol) ==> symbol in a.zsets;
    assert forall symbol, id :: id in Loadable(b, symbol) ==> symbol in b.zsets;
    SamePending(a, b);
    forall id ensures id in WarmCache(a).orders <==> id in WarmCache(b).orders {
      if symbol :| symbol in a.zsets && id in Loadable(a, symbol) { assert id in Loadable(b, symbol); }
      if symbol :| symbol in b.zsets && id in Loadable(b, symbol) { assert id in Loadable(a, symbol); }
    }
    assert WarmCache(a).orders == WarmCache(b).orders;
  }

  lemma SamePending(a: Db, b: Db)
    requires forall symbol :: Loadable(a, symbol) == Loadable(b, symbol)
    ensures WarmCache(a).pending == WarmCache(b).pending
  {
    forall symbol ensures symbol in WarmCache(a).pending <==> symbol in WarmCache(b).pending {
      if Loadable(a, symbol) != {} {
        var id :| id in Loadable(a, symbol);
        assert symbol in a.zsets && symbol in b.zsets;
      }
    }
  }

  /** The state after the tick handler's early exit or its snapshot. */
  ghost function TickTaken(w: World, symbol: string, group: Option<string>, q: Quote, ids: seq<Id>): Engine {
    if ids == [] && LastTick(w.cache, symbol, group) == Some(q) then Resting(w)
    else Ticking(w, Snapped(symbol, group, q, ids))
  }

  /** The quote is stored and cached before the loop starts. */
  lemma TickStarts(w: World, symbol: string, group: Option<string>, q: Quote, ids: seq<Id>, unpublished: set<Id>)
    ensures
      var w' := World(w.db.(prices := w.db.prices[QuoteKey(symbol, group) := q]), UpdateTick(w.cache, symbol, group, q), w.history);
      FinishTick(Ticking(w, Snapped(symbol, group, q, ids)), unpublished)
        == FinishTick(Ticking(w', Looping(group, q, ids)), unpublished)
  {
    var start := Ticking(w, Snapped(symbol, group, q, ids));
    var priced := NextTick(start, false);
    assert FinishTick(start, unpublished) == FinishTick(priced, unpublished);
    assert FinishTick(priced, unpublished) == FinishTick(NextTick(priced, false), unpublished);
  }

  lemma AttemptOwner(o: Order, q: Quote)
    ensures Attempt(o, q).Some? ==> Attempt(o, q).value.o == o
  {
  }

  /** A turn of the loop finishes the order it takes up before the next id. */
  lemma TickTurn(w: World, group: Option<string>, q: Quote, id: Id, rest: seq<Id>, unpublished: set<Id>)
    ensures
      var ph := LoopAttempt(w, id, group, q);
      FinishTick(Ticking(w, Looping(group, q, [id] + rest)), unpublished)
        == if ph.None? then FinishTick(Ticking(w, Looping(group, q, rest)), unpublished)
           else FinishTick(Ticking(FinishPhase(w, ph.value, ph.value.o.id in unpublished), Looping(group, q, rest)), unpublished)
  {
    var ids := [id] + rest;
    assert ids[0] == id && ids[1..] == rest;
    var e := Ticking(w, Looping(group, q, ids));
    assert FinishTick(e, unpublished) == FinishTick(NextTick(e, false), unpublished);
    var ph := LoopAttempt(w, id, group, q);
    if ph.Some? { TickFinishesPhase(w, group, q, rest, ph.value, unpublished); }
  }

  /** Storing, queueing and caching the new order, in one go. */
  lemma PlaceStores(w: World, cmd: PlaceCommand, faults: PlaceFaults)
    ensures
      var o := MakeOrder(cmd);
      var w' := w.(db := ZAdd(SetOrder(w.db, o.id, o), o.symbol, o.id), cache := AddPending(w.cache, o.symbol, o.id, o));
      FinishPlace(Resting(w).(place := Keyed(cmd)), faults) == FinishPlace(Resting(w').(place := Cached(cmd)), faults)
  {
    var e := Resting(w).(place := Keyed(cmd));
    var e1 := NextPlace(e, false);
    var e2 := NextPlace(e1, false);
    var e3 := NextPlace(e2, false);
    assert FinishPlace(e, faults) == FinishPlace(e1, faults);
    assert FinishPlace(e1, faults) == FinishPlace(e2, faults);
    assert FinishPlace(e2, faults) == FinishPlace(e3, faults);
  }

  lemma PlaceAccepts(w: World, cmd: PlaceCommand, faults: PlaceFaults)
    requires cmd.orderType.Market? && !faults.acceptUnpublished
    ensures
      var q := MarketQuote(w, cmd);
      var ph := if q.Some? then Attempt(MakeOrder(cmd), q.value) else None;
      FinishPlace(Resting(w).(place := Cached(cmd)), faults)
        == if ph.Some? then FinishPlace(Resting(w).(place := PlaceWork(cmd, ph.value)), faults) else Resting(w)
  {
    var e := Resting(w).(place := Cached(cmd));
    var e1 := NextPlace(e, false);
    assert FinishPlace(e, faults) == FinishPlace(e1, faults);
    assert FinishPlace(e1, faults) == FinishPlace(NextPlace(e1, false), faults);
  }

  /** An empty pending set contributes nothing. */
  lemma WarmEmptySet(db: Db, zsets: map<string, set<Id>>, symbol: string)
    requires symbol !in zsets
    ensures WarmCache(db.(zsets := zsets[symbol := {}])) == WarmCache(db.(zsets := zsets))
  {
    var a, b := db.(zsets := zsets), db.(zsets := zsets[symbol := {}]);
    forall s ensures Loadable(a, s) == Loadable(b, s) {
      assert ZMembers(a, s) == ZMembers(b, s);
    }
    SameLoads(a, b);
  }

  /** One more member adds its order if that is pending, and nothing otherwise. */
  lemma WarmOneMore(db: Db, walked: map<string, set<Id>>, symbol: string, seen: set<Id>, id: Id)
    requires symbol !in walked && NormalizeSymbol(symbol) == symbol
    ensures
      WarmCache(db.(zsets := walked[symbol := seen + {id}]))
        == if id in db.orders && db.orders[id].status == Pending
           then AddPending(WarmCache(db.(zsets := walked[symbol := seen])), symbol, id, db.orders[id])
           else WarmCache(db.(zsets := walked[symbol := seen]))
  {
    var a, b := db.(zsets := walked[symbol := seen]), db.(zsets := walked[symbol := seen + {id}]);
    var loads := id in db.orders && db.orders[id].status == Pending;
    assert forall s :: s in walked ==> Loadable(a, s) == Loadable(b, s);
    assert Loadable(b, symbol) == if loads then Loadable(a, symbol) + {id} else Loadable(a, symbol);
    WarmOrdersGrow(a, b, symbol, id, loads);
    WarmIndexGrows(a, b, symbol, id, loads);
  }

  lemma WarmOrdersGrow(a: Db, b: Db, symbol: string, id: Id, loads: bool)
    requires a.orders == b.orders && symbol in a.zsets && a.zsets.Keys == b.zsets.Keys
    requires loads ==> id in a.orders
    requires forall s :: s in a.zsets && s != symbol ==> Loadable(a, s) == Loadable(b, s)
    requires Loadable(b, symbol) == if loads then Loadable(a, symbol) + {id} else Loadable(a, symbol)
    ensures WarmCache(b).orders == if loads then WarmCache(a).orders[id := a.orders[id]] else WarmCache(a).orders
  {
    forall k ensures k in WarmCache(b).orders <==> k in WarmCache(a).orders || (loads && k == id) {
      if s :| s in a.zsets && k in Loadable(a, s) { assert k in Loadable(b, s); }
      if s :| s in b.zsets && k in Loadable(b, s) { assert k in Loadable(a, s) || (loads && k == id); }
      if loads && k == id { assert k in Loadable(b, symbol); }
    }
  }

  lemma WarmIndexGrows(a: Db, b: Db, symbol: string, id: Id, loads: bool)
    requires symbol in a.zsets && a.zsets.Keys == b.zsets.Keys && NormalizeSymbol(symbol) == symbol
    requires forall s :: s in a.zsets && s != symbol ==> Loadable(a, s) == Loadable(b, s)
    requires Loadable(b, symbol) == if loads then Loadable(a, symbol) + {id} else Loadable(a, symbol)
    ensures WarmCache(b).pending
         == if loads then WarmCache(a).pending[symbol := PendingIds(WarmCache(a), symbol) + {id}] else WarmCache(a).pending
  {
    assert PendingIds(WarmCache(a), symbol) == Loadable(a, symbol);
  }

  /** A new limit order rests in the cache; so does a market order whose acceptance went unpublished. */
  lemma PlaceEndsAtCache(w: World, cmd: PlaceCommand, faults: PlaceFaults)
    ensures faults.acceptUnpublished || cmd.orderType.Limit? ==>
      FinishPlace(Resting(w).(place := Cached(cmd)), faults) == Resting(w)
  {
    var e := Resting(w).(place := Cached(cmd));
    assert FinishPlace(e, faults) == FinishPlace(NextPlace(e, faults.acceptUnpublished), faults);
  }

  lemma CancelEnds(w: World, o: Order, unpublished: bool)
    ensures FinishCancel(Resting(w).(cancel := CancelCommitted(o)), unpublished)
         == Resting(if unpublished then w.(history := Skipped(w, o)) else Removed(w, o))
  {
  }
}
