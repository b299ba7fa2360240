/** The engine when every message is handled to its end before the next one is taken up. */
module SequentialCalls {
  import opened Contracts
  import opened Symbols
  import opened Orders
  import opened OrderCaches
  import opened RedisStores
  import opened EngineSteps
  import opened EngineInvariant
  import opened EngineSafety
  import opened EngineTheorems
  import opened HandlerRuns
  import opened Handlers
  import opened TickGuarantees
  import opened Slippage
  import EL = EffectiveLeverage

  /** One message and what NATS refuses while it is handled; `ids` is the order in which the cache
      gives out the pending ids of a tick's symbol. */
  datatype Call =
    | Place(cmd: PlaceCommand, valid: bool, faults: PlaceFaults)
    | Tick(symbol: string, group: Option<string>, raw: Quote, ids: seq<Id>, unpublished: set<Id>)
    | Cancel(orderId: Id, userId: Id, unannounced: bool)
    | Reboot(unread: Unread)

  ghost function Handle(w: World, call: Call): World {
    match call
    case Place(cmd, valid, faults) => FinishPlace(Next(Resting(w), PlaceArrives(cmd, valid)), faults).w
    case Tick(symbol, group, raw, ids, unpublished) =>
      FinishTick(Next(Resting(w), TickArrives(symbol, group, raw, ids)), unpublished).w
    case Cancel(orderId, userId, unannounced) =>
      FinishCancel(Next(Resting(w), CancelArrives(orderId, userId)), unannounced).w
    case Reboot(unread) => Restarted(Resting(w), unread).w
  }

  ghost function HandleAll(w: World, calls: seq<Call>): World
    decreases |calls|
  {
    if calls == [] then w else HandleAll(Handle(w, calls[0]), calls[1..])
  }

  /** A redelivered command carries the key recorded for it; order ids are otherwise fresh. */
  predicate Proper(w: World, call: Call) {
    call.Place? && call.cmd.orderId in w.db.orders ==> call.cmd.idempotencyKey in w.db.keys
  }

  ghost predicate ProperCalls(w: World, calls: seq<Call>)
    decreases |calls|
  {
    calls != [] ==> Proper(w, calls[0]) && ProperCalls(Handle(w, calls[0]), calls[1..])
  }

  // ---------------------------------------------------------------- each call

  lemma PlaceRests(e: Engine, faults: PlaceFaults)
    requires Inv(e) && e.tick.TickIdle? && e.cancel.CancelIdle?
    ensures Rests(FinishPlace(e, faults).w)
  {
    var actions := FinishPlaceIsRun(e, faults);
    RunGood(e, actions);
    assert FinishPlace(e, faults) == Resting(FinishPlace(e, faults).w);
  }

  lemma CancelRests(e: Engine, unannounced: bool)
    requires Inv(e) && e.tick.TickIdle? && e.place.PlaceIdle?
    ensures Rests(FinishCancel(e, unannounced).w)
  {
    var actions := FinishCancelIsRun(e, unannounced);
    RunGood(e, actions);
    assert FinishCancel(e, unannounced) == Resting(FinishCancel(e, unannounced).w);
  }

  lemma TickRests(e: Engine, unpublished: set<Id>)
    requires Inv(e) && e.place.PlaceIdle? && e.cancel.CancelIdle?
    ensures Rests(FinishTick(e, unpublished).w)
  {
    var actions := FinishTickIsRun(e, unpublished);
    RunGood(e, actions);
    assert FinishTick(e, unpublished) == Resting(FinishTick(e, unpublished).w);
  }

  lemma ArrivalIdle(w: World, a: Action)
    ensures
      var e := Next(Resting(w), a);
      && (a.PlaceArrives? ==> e.tick.TickIdle? && e.cancel.CancelIdle?)
      && (a.TickArrives? ==> e.place.PlaceIdle? && e.cancel.CancelIdle?)
      && (a.CancelArrives? ==> e.tick.TickIdle? && e.place.PlaceIdle?)
  {
  }

  lemma ArrivalInv(w: World, a: Action)
    requires Rests(w) && Admissible(Resting(w), a)
    ensures Inv(Next(Resting(w), a))
  {
    NextGood(Resting(w), a);
  }

  /** Every call leaves the engine at rest with the invariant intact. */
  lemma HandleRests(w: World, call: Call)
    requires Rests(w) && Proper(w, call)
    ensures Rests(Handle(w, call))
  {
    match call
    case Place(cmd, valid, faults) =>
      var a := PlaceArrives(cmd, valid);
      ArrivalIdle(w, a);
      ArrivalInv(w, a);
      PlaceRests(Next(Resting(w), a), faults);
    case Tick(symbol, group, raw, ids, unpublished) =>
      var a := TickArrives(symbol, group, raw, ids);
      ArrivalIdle(w, a);
      ArrivalInv(w, a);
      TickRests(Next(Resting(w), a), unpublished);
    case Cancel(orderId, userId, unannounced) =>
      var a := CancelArrives(orderId, userId);
      ArrivalIdle(w, a);
      ArrivalInv(w, a);
      CancelRests(Next(Resting(w), a), unannounced);
    case Reboot(unread) => RebootRests(w, unread);
  }

  lemma RebootRests(w: World, unread: Unread)
    requires Rests(w)
    ensures Rests(Restarted(Resting(w), unread).w)
  {
    RestartGood(Resting(w), unread);
    assert Restarted(Resting(w), unread) == Resting(Restarted(Resting(w), unread).w);
  }

  // ---------------------------------------------------------------- finished orders

  predicate OwnPhase(e: Engine) {
    e.place.PlaceWork? ==> e.place.phase.o.id == e.place.cmd.orderId
  }

  /** Placing writes no order record but its own. */
  lemma {:induction false} PlaceTouchesOwn(e: Engine, faults: PlaceFaults, id: Id)
    requires OwnPhase(e) && !e.place.PlaceIdle? && id != e.place.cmd.orderId && id in e.w.db.orders
    ensures id in FinishPlace(e, faults).w.db.orders && FinishPlace(e, faults).w.db.orders[id] == e.w.db.orders[id]
    decreases PlaceRank(e.place)
  {
    var fault :=
      || (e.place.Cached? && faults.acceptUnpublished)
      || (e.place.PlaceWork? && e.place.phase.Refusing? && faults.refusalUnpublished);
    var e' := NextPlace(e, fault);
    assert FinishPlace(e, faults) == FinishPlace(e', faults);
    PlaceStepTouchesOwn(e, fault, id);
    if !e'.place.PlaceIdle? { PlaceTouchesOwn(e', faults, id); }
  }

  lemma PlaceStepTouchesOwn(e: Engine, fault: bool, id: Id)
    requires OwnPhase(e) && !e.place.PlaceIdle? && id != e.place.cmd.orderId && id in e.w.db.orders
    ensures
      var e' := NextPlace(e, fault);
      && id in e'.w.db.orders && e'.w.db.orders[id] == e.w.db.orders[id]
      && OwnPhase(e')
      && (!e'.place.PlaceIdle? ==> e'.place.cmd == e.place.cmd)
  {
    if e.place.Accepted? {
      var q := MarketQuote(e.w, e.place.cmd);
      if q.Some? { AttemptOwner(MakeOrder(e.place.cmd), q.value); }
    }
  }

  lemma CancelSparesFinished(w: World, o: Order, unannounced: bool, id: Id)
    requires Finished(w.db, id)
    ensures
      var db' := FinishCancel(Resting(w).(cancel := Found(o)), unannounced).w.db;
      id in db'.orders && db'.orders[id] == w.db.orders[id]
  {
    var e := Resting(w).(cancel := Found(o));
    var e' := NextCancel(e, false);
    assert FinishCancel(e, unannounced) == FinishCancel(e', unannounced);
    if e'.cancel.CancelCommitted? { CancelEnds(e'.w, o, unannounced); }
  }

  ghost predicate OverwrittenBy(w: World, call: Call, id: Id) {
    && call.Tick? && RepairQuote(call.raw).Some?
    && Lists(call.ids, PendingIds(w.cache, NormalizeSymbol(call.symbol)))
    && Overwrites(w, id, NormalizeSymbol(call.symbol), call.group, RepairQuote(call.raw).value, call.unpublished)
  }

  /** With one message at a time, the record of a finished order changes in one case only: a tick
      tries the stale cache entry of a market order whose fill price would slip now. */
  lemma FinishedOverwrittenIff(w: World, call: Call, id: Id)
    requires Rests(w) && Proper(w, call) && Finished(w.db, id)
    ensures id in Handle(w, call).db.orders
    ensures Handle(w, call).db.orders[id] != w.db.orders[id] <==> OverwrittenBy(w, call, id)
  {
    match call
    case Place(cmd, valid, faults) =>
      var e := Next(Resting(w), PlaceArrives(cmd, valid));
      if !e.place.PlaceIdle? { PlaceTouchesOwn(e, faults, id); }
    case Tick(symbol, group, raw, ids, unpublished) => TickCallOverwritesIff(w, symbol, group, raw, ids, unpublished, id);
    case Cancel(orderId, userId, unannounced) =>
      var e := Next(Resting(w), CancelArrives(orderId, userId));
      if e.cancel.Found? { CancelSparesFinished(w, e.cancel.o, unannounced, id); }
    case Reboot(_) =>
  }

  lemma TickCall(w: World, symbol: string, group: Option<string>, raw: Quote, ids: seq<Id>)
    ensures
      var q, sym := RepairQuote(raw), NormalizeSymbol(symbol);
      Next(Resting(w), TickArrives(symbol, group, raw, ids))
        == if q.None? || !Lists(ids, PendingIds(w.cache, sym)) then Resting(w) else TickTaken(w, sym, group, q.value, ids)
    ensures RepairQuote(raw).Some? ==> GoodQuote(RepairQuote(raw).value)
  {
  }

  lemma TickCallOverwritesIff(w: World, symbol: string, group: Option<string>, raw: Quote, ids: seq<Id>, unpublished: set<Id>, id: Id)
    requires Rests(w) && Finished(w.db, id)
    ensures
      var call := Tick(symbol, group, raw, ids, unpublished);
      && id in Handle(w, call).db.orders
      && (Handle(w, call).db.orders[id] != w.db.orders[id] <==> OverwrittenBy(w, call, id))
  {
    TickCall(w, symbol, group, raw, ids);
    var q, sym := RepairQuote(raw), NormalizeSymbol(symbol);
    if q.Some? && Lists(ids, PendingIds(w.cache, sym)) {
      NormalizeIdempotent(symbol);
      TickOverwritesIff(w, sym, group, q.value, ids, unpublished, id);
    }
  }

  // ---------------------------------------------------------------- runs without a failed publish

  predicate Quiet(call: Call) {
    match call
    case Tick(_, _, _, _, unpublished) => unpublished == {}
    case Cancel(_, _, unannounced) => !unannounced
    case _ => true
  }

  lemma {:induction false} QuietTick(e: Engine)
    ensures FinishTick(e, {}).w.history.stale <= e.w.history.stale
    decreases TickStage(e.tick), TickLeft(e.tick), if e.tick.TickWork? then PhaseRank(e.tick.phase) else 0
  {
    if !e.tick.TickIdle? {
      var e' := NextTick(e, false);
      assert FinishTick(e, {}) == FinishTick(e', {});
      QuietTickStep(e);
      QuietTick(e');
    }
  }

  lemma QuietTickStep(e: Engine)
    ensures NextTick(e, false).w.history.stale <= e.w.history.stale
  {
  }

  predicate JustStored(e: Engine) {
    e.place.Stored? || e.place.Queued? ==> Status(e.w.db, e.place.cmd.orderId, Pending)
  }

  lemma {:induction false} QuietPlace(e: Engine, faults: PlaceFaults)
    requires JustStored(e)
    ensures FinishPlace(e, faults).w.history.stale <= e.w.history.stale
    decreases PlaceRank(e.place)
  {
    if !e.place.PlaceIdle? {
      var fault :=
        || (e.place.Cached? && faults.acceptUnpublished)
        || (e.place.PlaceWork? && e.place.phase.Refusing? && faults.refusalUnpublished);
      assert FinishPlace(e, faults) == FinishPlace(NextPlace(e, fault), faults);
      QuietPlaceStep(e, fault);
      QuietPlace(NextPlace(e, fault), faults);
    }
  }

  lemma QuietPlaceStep(e: Engine, fault: bool)
    requires JustStored(e)
    ensures JustStored(NextPlace(e, fault)) && NextPlace(e, fault).w.history.stale <= e.w.history.stale
  {
  }

  /** Without failed publishes no call leaves a stale entry behind. */
  lemma QuietKeepsFresh(w: World, call: Call)
    requires Quiet(call)
    ensures Handle(w, call).history.stale <= w.history.stale
  {
    match call
    case Place(cmd, valid, faults) => QuietPlace(Next(Resting(w), PlaceArrives(cmd, valid)), faults);
    case Tick(symbol, group, raw, ids, unpublished) => QuietTick(Next(Resting(w), TickArrives(symbol, group, raw, ids)));
    case Cancel(orderId, userId, unannounced) => QuietCancel(Next(Resting(w), CancelArrives(orderId, userId)));
    case Reboot(_) =>
  }

  lemma {:induction false} QuietCancel(e: Engine)
    ensures FinishCancel(e, false).w.history.stale <= e.w.history.stale
    decreases match e.cancel case CancelIdle => 0 case Found(_) => 2 case CancelCommitted(_) => 1
  {
    if !e.cancel.CancelIdle? { QuietCancel(NextCancel(e, false)); }
  }

  /** Every order, market orders included, is finished at most once in a run of whole calls without
      failed publishes: once filled, cancelled or rejected it keeps that record for good. */
  lemma {:induction false} FinishedForGood(w: World, calls: seq<Call>, id: Id)
    requires Rests(w) && w.history.stale == {} && ProperCalls(w, calls)
    requires forall i :: 0 <= i < |calls| ==> Quiet(calls[i])
    requires Finished(w.db, id)
    ensures
      var db' := HandleAll(w, calls).db;
      id in db'.orders && db'.orders[id] == w.db.orders[id]
    decreases |calls|
  {
    if calls != [] {
      HandleRests(w, calls[0]);
      FinishedOverwrittenIff(w, calls[0], id);
      QuietKeepsFresh(w, calls[0]);
      FinishedForGood(Handle(w, calls[0]), calls[1..], id);
    }
  }

  // ---------------------------------------------------------------- a filled order marked rejected

  const RUNGS := [EL.Tier(EL.Num(0.0), EL.Open, 10)]

  /** A market buy of one unit quoted at 100, with a tolerance of ten basis points. */
  function BuyAtHundred(symbol: string): PlaceCommand {
    PlaceCommand(1, 7, symbol, None, Buy, Market, 1.0, None, "key", Some(1), Some(100), Some(RUNGS), Some(100.0), Some(100.0), Some(10))
  }

  function Doubling(symbol: string): seq<Call> {
    [Place(BuyAtHundred(symbol), true, PlaceFaults(false, false)),
     Tick(symbol, None, Quote(100.0, 100.0), [1], {1}),
     Tick(symbol, None, Quote(200.0, 200.0), [1], {})]
  }

  /** The order is placed before any quote is known, filled by a tick whose events NATS refuses, and
      then tried again by a tick at twice the price: its filled record is overwritten as rejected,
      although its fill was carried out. */
  lemma FilledMarketOrderMarkedRejected(symbol: string)
    requires NormalizeSymbol(symbol) == symbol
    ensures ProperCalls(FRESH.w, Doubling(symbol))
    ensures Status(HandleAll(FRESH.w, Doubling(symbol)[..2]).db, 1, OrderStatus.Filled)
    ensures Status(HandleAll(FRESH.w, Doubling(symbol)).db, 1, Rejected)
  {
    var calls := Doubling(symbol);
    ThreeCalls(FRESH.w, calls[0], calls[1], calls[2]);
    assert calls[..2] == [calls[0], calls[1]];
    FreshGood();
    var w1 := Handle(FRESH.w, calls[0]);
    PlacedUnquoted(symbol);
    HandleRests(FRESH.w, calls[0]);
    FirstTick(w1, symbol);
    var w2 := Handle(w1, calls[1]);
    HandleRests(w1, calls[1]);
    SecondTick(w2, symbol);
  }

  lemma ThreeCalls(w: World, a: Call, b: Call, c: Call)
    requires b.Tick? && c.Tick?
    ensures HandleAll(w, [a, b]) == Handle(Handle(w, a), b)
    ensures HandleAll(w, [a, b, c]) == Handle(Handle(Handle(w, a), b), c)
    ensures Proper(w, a) ==> ProperCalls(w, [a, b, c])
  {
    OneByOne(w, a, b, c);
    var w1 := Handle(w, a);
    assert [a, b][1..] == [b] && [b][1..] == [];
    assert HandleAll(w1, [b]) == HandleAll(Handle(w1, b), []);
  }

  /** Order 1 is the only one, and is in the cache. */
  predicate OneOrder(w: World, symbol: string) {
    && w.db.orders.Keys == {1} && SameTerms(MakeOrder(BuyAtHundred(symbol)), w.db.orders[1])
    && Listed(w, 1)
  }

  lemma PlacedUnquoted(symbol: string)
    requires NormalizeSymbol(symbol) == symbol
    ensures
      var w1 := Handle(FRESH.w, Doubling(symbol)[0]);
      OneOrder(w1, symbol) && Status(w1.db, 1, Pending)
  {
    var cmd, faults := BuyAtHundred(symbol), PlaceFaults(false, false);
    var e := Next(FRESH, PlaceArrives(cmd, true));
    PlaceStores(e.w, cmd, faults);
    var o := MakeOrder(cmd);
    var w1 := e.w.(db := ZAdd(SetOrder(e.w.db, o.id, o), o.symbol, o.id), cache := AddPending(e.w.cache, o.symbol, o.id, o));
    assert MarketQuote(w1, cmd) == None;
    PlaceAccepts(w1, cmd, faults);
  }

  lemma OnlyOne(w: World, symbol: string)
    requires Rests(w) && NormalizeSymbol(symbol) == symbol && OneOrder(w, symbol)
    ensures Lists([1], PendingIds(w.cache, symbol))
  {
    forall id ensures id in PendingIds(w.cache, symbol) <==> id == 1 {
      ListedIs(w, symbol, id);
    }
  }

  /** The tick at `price` tries the order, and what becomes of it. */
  lemma Tried(w: World, symbol: string, price: real, unpublished: set<Id>)
    requires Rests(w) && NormalizeSymbol(symbol) == symbol && OneOrder(w, symbol) && price > 0.0
    ensures
      var w' := Handle(w, Tick(symbol, None, Quote(price, price), [1], unpublished));
      var o, q := w.db.orders[1], Quote(price, price);
      && w'.db.orders.Keys == {1}
      && w'.db.orders[1] == AfterTrial(o, q, 1 in unpublished)
      && (1 in w'.cache.orders <==> !Leaves(o, q, 1 in unpublished))
  {
    var q, o := Quote(price, price), w.db.orders[1];
    OnlyOne(w, symbol);
    OneRung(o, price);
    assert Tries(w, 1, symbol, None, q);
    TickExact(w, symbol, None, q, [1], unpublished, 1);
    NoneAdded(w, symbol, q, unpublished);
  }

  lemma NoneAdded(w: World, symbol: string, q: Quote, unpublished: set<Id>)
    requires Rests(w) && NormalizeSymbol(symbol) == symbol && Lists([1], PendingIds(w.cache, symbol))
    requires GoodQuote(q) && RepairQuote(q) == Some(q)
    ensures
      var w' := Handle(w, Tick(symbol, None, q, [1], unpublished));
      w'.db.orders.Keys == w.db.orders.Keys && w' == FinishTick(TickTaken(w, symbol, None, q, [1]), unpublished).w
  {
    TickCall(w, symbol, None, q, [1]);
    TickDecides(w, symbol, None, q, [1], unpublished);
  }

  /** A hundred is what was asked for; twice that is out of tolerance. */
  lemma SlipsAtTwice(o: Order, symbol: string)
    requires SameTerms(MakeOrder(BuyAtHundred(symbol)), o)
    ensures !Slips(o, Quote(100.0, 100.0)) && Slips(o, Quote(200.0, 200.0))
  {
    SlippageExact(Buy, 100.0, 100.0, 100.0, 10);
    SlippageExact(Buy, 200.0, 100.0, 100.0, 10);
  }

  lemma FirstTick(w: World, symbol: string)
    requires Rests(w) && NormalizeSymbol(symbol) == symbol && OneOrder(w, symbol) && Status(w.db, 1, Pending)
    ensures
      var w' := Handle(w, Tick(symbol, None, Quote(100.0, 100.0), [1], {1}));
      Status(w'.db, 1, OrderStatus.Filled) && OneOrder(w', symbol)
  {
    var call := Tick(symbol, None, Quote(100.0, 100.0), [1], {1});
    Tried(w, symbol, 100.0, {1});
    SlipsAtTwice(w.db.orders[1], symbol);
    HandleRests(w, call);
    ListedIs(Handle(w, call), symbol, 1);
  }

  lemma SecondTick(w: World, symbol: string)
    requires Rests(w) && NormalizeSymbol(symbol) == symbol && OneOrder(w, symbol)
    ensures Status(Handle(w, Tick(symbol, None, Quote(200.0, 200.0), [1], {})).db, 1, Rejected)
  {
    Tried(w, symbol, 200.0, {});
    SlipsAtTwice(w.db.orders[1], symbol);
  }

  lemma OneRung(o: Order, price: real)
    requires price > 0.0 && o.side == Buy && o.size == 1.0
    requires o.minLeverage == Some(1) && o.maxLeverage == Some(100) && o.leverageTiers == Some(RUNGS)
    ensures Resolves(o, Quote(price, price))
  {
    var i := EL.EffectiveOnLadder(RUNGS, 1, 100, Notional(o, price));
  }

  // ---------------------------------------------------------------- a crossed order that start-up overlooked

  /** A limit order is placed, the engine restarts, and a tick for all groups crosses the limit. */
  function CrossedUnseen(cmd: PlaceCommand, unread: Unread, raw: Quote): seq<Call> {
    [Place(cmd, true, PlaceFaults(false, false)), Reboot(unread), Tick(cmd.symbol, None, raw, [], {})]
  }

  lemma PlacedToRest(cmd: PlaceCommand)
    requires Acceptable(cmd, true) && cmd.orderType.Limit?
    ensures
      var w, o := Handle(FRESH.w, Place(cmd, true, PlaceFaults(false, false))), MakeOrder(cmd);
      w.db.orders == map[o.id := o] && w.db.zsets == map[o.symbol := {o.id}] && w.history == EMPTY_HISTORY
  {
    var e, faults, o := Next(FRESH, PlaceArrives(cmd, true)), PlaceFaults(false, false), MakeOrder(cmd);
    assert e == Resting(e.w).(place := Keyed(cmd));
    PlaceStores(e.w, cmd, faults);
    var w1 := e.w.(db := ZAdd(SetOrder(e.w.db, o.id, o), o.symbol, o.id), cache := AddPending(e.w.cache, o.symbol, o.id, o));
    PlaceEndsAtCache(w1, cmd, faults);
    assert Handle(FRESH.w, Place(cmd, true, faults)) == w1;
    assert w1.db.zsets[o.symbol] == {o.id};
  }

  lemma NothingLoaded(w: World, o: Order, unread: Unread)
    requires w.db.orders == map[o.id := o] && w.db.zsets == map[o.symbol := {o.id}] && o.status == Pending
    requires o.symbol in unread.sets || o.id in unread.records
    ensures WarmCache(ReadBack(w.db, unread)) == EMPTY_CACHE && Overlooked(w.db, unread) == {o.id}
  {
    var seen := ReadBack(w.db, unread);
    forall symbol | symbol in seen.zsets ensures Loadable(seen, symbol) == {} {
      assert symbol == o.symbol && seen.zsets[symbol] == {};
    }
    assert WarmCache(seen).pending == map[] && WarmCache(seen).orders == map[];
  }

  /** A tick finds nothing in an empty cache: it only leaves its quote behind. */
  lemma TickedInVain(w: World, symbol: string, raw: Quote)
    requires w.cache == EMPTY_CACHE && RepairQuote(raw).Some?
    ensures
      var w' := Handle(w, Tick(symbol, None, raw, [], {}));
      w'.db == w.db.(prices := w'.db.prices) && w'.cache.orders == map[] && w'.history == w.history
  {
    var sym, q := NormalizeSymbol(symbol), RepairQuote(raw).value;
    TickCall(w, symbol, None, raw, []);
    TickStarts(w, sym, None, q, [], {});
    var w' := World(w.db.(prices := w.db.prices[QuoteKey(sym, None) := q]), UpdateTick(w.cache, sym, None, q), w.history);
    LoopEnds(w', None, q, {});
  }

  /** Start-up fails to list the order's pending set, or to get its record, and goes on: from then on no
      tick finds the order, however far its limit is crossed. It is pending and queued, and nothing is
      recorded as stale or unqueued. */
  lemma CrossedOrderOverlooked(cmd: PlaceCommand, unread: Unread, raw: Quote)
    requires Acceptable(cmd, true) && cmd.orderType.Limit?
    requires NormalizeSymbol(cmd.symbol) in unread.sets || cmd.orderId in unread.records
    requires RepairQuote(raw).Some? && Crossed(MakeOrder(cmd), RepairQuote(raw).value)
    ensures
      var w, o := HandleAll(FRESH.w, CrossedUnseen(cmd, unread, raw)), MakeOrder(cmd);
      && ProperCalls(FRESH.w, CrossedUnseen(cmd, unread, raw))
      && o.id in w.db.orders && w.db.orders[o.id] == o && o.id in ZMembers(w.db, o.symbol)
      && o.id !in w.cache.orders
      && w.history.stale == {} && w.history.unqueued == {} && w.history.overlooked == {o.id}
  {
    var calls, o := CrossedUnseen(cmd, unread, raw), MakeOrder(cmd);
    PlacedToRest(cmd);
    var w1 := Handle(FRESH.w, calls[0]);
    NothingLoaded(w1, o, unread);
    var w2 := Handle(w1, calls[1]);
    TickedInVain(w2, cmd.symbol, raw);
    OneByOne(FRESH.w, calls[0], calls[1], calls[2]);
  }

  lemma OneByOne(w: World, a: Call, b: Call, c: Call)
    requires !b.Place? && !c.Place?
    ensures HandleAll(w, [a, b, c]) == Handle(Handle(Handle(w, a), b), c)
    ensures Proper(w, a) ==> ProperCalls(w, [a, b, c])
  {
    var w1 := Handle(w, a);
    var w2 := Handle(w1, b);
    assert [a, b, c][1..] == [b, c] && [b, c][1..] == [c] && [c][1..] == [];
    assert HandleAll(w2, [c]) == HandleAll(Handle(w2, c), []);
    assert HandleAll(w1, [b, c]) == HandleAll(w2, [c]);
    assert ProperCalls(w2, [c]);
    assert ProperCalls(w1, [b, c]);
  }

  // ---------------------------------------------------------------- an order filled at another symbol's quote

  /** A tick of `s` for the group `t:`, then a market buy of `s:t` without a group. */
  function Foreign(s: string, t: string): seq<Call> {
    [Tick(s, Some(t + ":"), Quote(100.0, 100.0), [], {}), Place(BuyAtHundred(s + ":" + t), true, PlaceFaults(false, false))]
  }

  lemma TickedOnce(s: string, t: string)
    requires NormalizeSymbol(s) == s
    ensures
      var w := Handle(FRESH.w, Foreign(s, t)[0]);
      w.db.orders == map[] && w.db.keys == {} && w.cache.lastTicks == map[QuoteKey(s, Some(t + ":")) := Quote(100.0, 100.0)]
  {
    var group, q := Some(t + ":"), Quote(100.0, 100.0);
    TickCall(FRESH.w, s, group, q, []);
    TickStarts(FRESH.w, s, group, q, [], {});
    var w' := World(FRESH.w.db.(prices := FRESH.w.db.prices[QuoteKey(s, group) := q]), UpdateTick(FRESH.w.cache, s, group, q), FRESH.w.history);
    LoopEnds(w', group, q, {});
  }

  lemma BoughtAtHundred(w: World, symbol: string)
    requires NormalizeSymbol(symbol) == symbol && w.db.orders == map[] && w.db.keys == {}
    requires LastTick(w.cache, symbol, None) == Some(Quote(100.0, 100.0))
    ensures
      var w' := Handle(w, Place(BuyAtHundred(symbol), true, PlaceFaults(false, false)));
      Status(w'.db, 1, OrderStatus.Filled) && w'.db.orders[1].symbol == symbol && w'.db.orders[1].averageFillPrice == Some(100.0)
  {
    var cmd, faults, q := BuyAtHundred(symbol), PlaceFaults(false, false), Quote(100.0, 100.0);
    var e, o := Next(Resting(w), PlaceArrives(cmd, true)), MakeOrder(cmd);
    PlaceStores(e.w, cmd, faults);
    var w1 := e.w.(db := ZAdd(SetOrder(e.w.db, o.id, o), o.symbol, o.id), cache := AddPending(e.w.cache, o.symbol, o.id, o));
    PlaceAccepts(w1, cmd, faults);
    assert MarketQuote(w1, cmd) == Some(q);
    OneRung(o, 100.0);
    SlipsAtTwice(o, symbol);
    AttemptOnCopy(o, o, q);
    var ph := Attempt(o, q).value;
    PlaceFinishesPhase(w1, cmd, ph, faults);
    TriedScript(w1, o, q, ph.leverage, false);
  }

  /** Quotes are kept under symbol, colon and group: a tick of one symbol fills the order of another. */
  lemma FilledAtForeignQuote(s: string, t: string)
    requires NormalizeSymbol(s) == s && NormalizeSymbol(s + ":" + t) == s + ":" + t
    ensures
      var w := HandleAll(FRESH.w, Foreign(s, t));
      && ProperCalls(FRESH.w, Foreign(s, t))
      && Status(w.db, 1, OrderStatus.Filled) && w.db.orders[1].symbol == s + ":" + t
      && w.db.orders[1].averageFillPrice == Some(100.0)
  {
    var calls := Foreign(s, t);
    var w := Handle(FRESH.w, calls[0]);
    TickedOnce(s, t);
    assert QuoteKey(s, Some(t + ":")) == s + ":" + t + ":" == QuoteKey(s + ":" + t, None);
    BoughtAtHundred(w, s + ":" + t);
    assert calls[1..] == [calls[1]] && [calls[1]][1..] == [];
    assert HandleAll(w, [calls[1]]) == HandleAll(Handle(w, calls[1]), []);
    assert ProperCalls(w, [calls[1]]);
  }
}
