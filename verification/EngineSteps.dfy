/** The order engine as a transition system. Placing, ticking and cancelling run as three tasks over
    the same Redis and the same cache; one step is one Redis command, one script or one cache call,
    so any two handlers may interleave between any two of those. A step may also fail. */
module EngineSteps {
  import opened Contracts
  import opened Symbols
  import opened Orders
  import opened OrderCaches
  import opened RedisStores

  /** What happened, for stating properties: committed fills in order, cache entries of finished orders
      whose removal was skipped, orders stored but never put in their pending set, and pending orders
      that the last start-up overlooked. */
  datatype History = History(fills: seq<Fill>, stale: set<Id>, unqueued: set<Id>, overlooked: set<Id>)

  const EMPTY_HISTORY := History([], {}, {}, {})

  /** The reads of one start-up that fail: pending sets it cannot list, records it cannot get. Neither
      stops it. */
  datatype Unread = Unread(sets: set<string>, records: set<Id>)

  datatype World = World(db: Db, cache: CacheState, history: History)

  /** The part of a handler that fills or refuses one order; the place and tick handlers share it.
      `o` is the handler's own copy of the order. */
  datatype Phase =
    | Script(o: Order, q: Quote, leverage: real)   // about to run the fill script
    | Committed(o: Order, q: Quote)                // script done, events to publish
    | Sync(o: Order, q: Quote)                     // about to update the cached copy
    | Drop(o: Order)                               // about to remove the order from the cache
    | Refusing(o: Order)                           // slippage exceeded, about to publish and store
    | RefusedSync(o: Order)
    | RefusedDrop(o: Order)
    | RefusedZRem(o: Order)

  datatype PlaceTask =
    | PlaceIdle
    | Keyed(cmd: PlaceCommand)      // idempotency key written
    | Stored(cmd: PlaceCommand)     // order record written
    | Queued(cmd: PlaceCommand)     // added to the pending set
    | Cached(cmd: PlaceCommand)     // added to the cache
    | Accepted(cmd: PlaceCommand)   // market order about to look up a price
    | PlaceWork(cmd: PlaceCommand, phase: Phase)

  datatype TickTask =
    | TickIdle
    | Snapped(symbol: string, group: Option<string>, q: Quote, ids: seq<Id>)
    | Priced(symbol: string, group: Option<string>, q: Quote, ids: seq<Id>)
    | Looping(group: Option<string>, q: Quote, ids: seq<Id>)
    | TickWork(group: Option<string>, q: Quote, ids: seq<Id>, phase: Phase)

  datatype CancelTask = CancelIdle | Found(o: Order) | CancelCommitted(o: Order)

  datatype Engine = Engine(w: World, place: PlaceTask, tick: TickTask, cancel: CancelTask)

  /** `PlaceArrives` carries the outcome of the validator's checks on state outside this model.
      `TickArrives` carries the raw quote and the order in which the pending ids come out of the cache. */
  datatype Action =
    | PlaceArrives(cmd: PlaceCommand, valid: bool)
    | PlaceStep(fault: bool)
    | TickArrives(symbol: string, group: Option<string>, raw: Quote, ids: seq<Id>)
    | TickStep(fault: bool)
    | CancelArrives(orderId: Id, userId: Id)
    | CancelStep(fault: bool)
    | Restart(unread: Unread)

  // ---------------------------------------------------------------- decisions

  predicate Acceptable(cmd: PlaceCommand, valid: bool) {
    valid && cmd.size > 0.0 && (cmd.orderType.Limit? ==> cmd.limitPrice.Some? && cmd.limitPrice.value > 0.0)
  }

  /** Leverage first, then slippage: run the script, refuse the order, or leave it alone. */
  ghost function Attempt(o: Order, q: Quote): Option<Phase> {
    var price := SidePrice(o.side, q);
    var leverage := LeverageOf(o, price);
    if leverage.None? || leverage.value <= 0.0 then None
    else if o.orderType.Market? && SlippageOf(o, price).Exceeded? then Some(Refusing(o))
    else Some(Script(o, q, leverage.value))
  }

  /** Price source of an immediate market fill: the cached tick of the group, the cached global tick,
      then the stored quotes, which are looked up under the symbol as typed. */
  function MarketQuote(w: World, cmd: PlaceCommand): Option<Quote> {
    var own, global := LastTick(w.cache, cmd.symbol, cmd.groupId), LastTick(w.cache, cmd.symbol, None);
    var ownKey, globalKey := QuoteKey(cmd.symbol, cmd.groupId), QuoteKey(cmd.symbol, None);
    if own.Some? then own
    else if global.Some? then global
    else if cmd.groupId.Some? && ownKey in w.db.prices then Some(w.db.prices[ownKey])
    else if globalKey in w.db.prices then Some(w.db.prices[globalKey])
    else None
  }

  /** Whether the tick loop tries to fill the cached order. */
  predicate Fillable(o: Order, group: Option<string>, q: Quote) {
    o.status == Pending && Eligible(o, group) && Crossed(o, q)
  }

  ghost function LoopAttempt(w: World, id: Id, group: Option<string>, q: Quote): Option<Phase> {
    if id in w.cache.orders && Fillable(w.cache.orders[id], group, q) then Attempt(w.cache.orders[id], q) else None
  }

  predicate InIndex(w: World, o: Order) {
    o.id in PendingIds(w.cache, o.symbol)
  }

  // ---------------------------------------------------------------- steps

  /** One step of filling or refusing. `None` means the phase is over. A fault is a failed publish, or
      for the script and the last removal a failed Redis call; cache calls cannot fail. */
  function PhaseStep(w: World, ph: Phase, fault: bool): (World, Option<Phase>) {
    match ph
    case Script(o, q, leverage) =>
      var price := SidePrice(o.side, q);
      var (db, reply) := AtomicFill(w.db, o.id, price, o.size, leverage);
      if fault then (w, None)
      else (match reply
            case FillDone =>
              (w.(db := db, history := w.history.(fills := w.history.fills + [Fill(o.id, price, q)])), Some(Committed(o, q)))
            case FillNotPending(status) => (w, if status == Filled then Some(Sync(o, q)) else None)
            case FillRefused => (w, None))
    case Committed(o, q) =>
      if fault then (w.(history := Skipped(w, o)), None) else (w, Some(Sync(o, q)))
    case Sync(o, q) => (w.(cache := UpdateOrder(w.cache, AsFilled(o, SidePrice(o.side, q)))), Some(Drop(o)))
    case Drop(o) => (Removed(w, o), None)
    case Refusing(o) =>
      if fault then (w, None)
      else (w.(db := SetOrder(w.db, o.id, o.(status := Rejected))), Some(RefusedSync(o)))
    case RefusedSync(o) => (w.(cache := UpdateOrder(w.cache, o.(status := Rejected))), Some(RefusedDrop(o)))
    case RefusedDrop(o) => (Removed(w, o), Some(RefusedZRem(o)))
    case RefusedZRem(o) => (if fault then w else w.(db := ZRem(w.db, o.symbol, o.id)), None)
  }

  /** A handler gave up before removing a finished order from the cache. */
  function Skipped(w: World, o: Order): History {
    if InIndex(w, o) then w.history.(stale := w.history.stale + {o.id}) else w.history
  }

  function Removed(w: World, o: Order): World {
    w.(cache := RemovePending(w.cache, o.symbol, o.id), history := w.history.(stale := w.history.stale - {o.id}))
  }

  /** Adding to the cache an order that was finished meanwhile leaves a stale entry. */
  function Added(w: World, o: Order): World {
    var finished := o.id in w.db.orders && w.db.orders[o.id].status != Pending;
    w.(cache := AddPending(w.cache, o.symbol, o.id, o),
       history := w.history.(stale := if finished then w.history.stale + {o.id} else w.history.stale))
  }

  /** On the placing path a fill whose events cannot be published is only logged. */
  ghost function NextPlace(e: Engine, fault: bool): Engine {
    var w := e.w;
    match e.place
    case PlaceIdle => e
    case Keyed(cmd) =>
      if fault then e.(place := PlaceIdle)
      else e.(w := w.(db := SetOrder(w.db, cmd.orderId, MakeOrder(cmd))), place := Stored(cmd))
    case Stored(cmd) =>
      if fault then e.(w := w.(history := w.history.(unqueued := w.history.unqueued + {cmd.orderId})), place := PlaceIdle)
      else e.(w := w.(db := ZAdd(w.db, MakeOrder(cmd).symbol, cmd.orderId)), place := Queued(cmd))
    case Queued(cmd) => e.(w := Added(w, MakeOrder(cmd)), place := Cached(cmd))
    case Cached(cmd) => e.(place := if fault || cmd.orderType.Limit? then PlaceIdle else Accepted(cmd))
    case Accepted(cmd) =>
      var q := MarketQuote(w, cmd);
      var ph := if q.Some? then Attempt(MakeOrder(cmd), q.value) else None;
      e.(place := if ph.Some? then PlaceWork(cmd, ph.value) else PlaceIdle)
    case PlaceWork(cmd, phase) =>
      var (w', phase') := PhaseStep(w, phase, fault && !phase.Committed?);
      e.(w := w', place := if phase'.Some? then PlaceWork(cmd, phase'.value) else PlaceIdle)
  }

  ghost function NextTick(e: Engine, fault: bool): Engine {
    var w := e.w;
    match e.tick
    case TickIdle => e
    case Snapped(symbol, group, q, ids) =>
      if fault then e.(tick := TickIdle)
      else e.(w := w.(db := w.db.(prices := w.db.prices[QuoteKey(symbol, group) := q])), tick := Priced(symbol, group, q, ids))
    case Priced(symbol, group, q, ids) =>
      e.(w := w.(cache := UpdateTick(w.cache, symbol, group, q)), tick := Looping(group, q, ids))
    case Looping(group, q, ids) =>
      if ids == [] then e.(tick := TickIdle)
      else
        var ph := LoopAttempt(w, ids[0], group, q);
        e.(tick := if ph.Some? then TickWork(group, q, ids[1..], ph.value) else Looping(group, q, ids[1..]))
    case TickWork(group, q, ids, phase) =>
      var (w', phase') := PhaseStep(w, phase, fault);
      e.(w := w', tick := if phase'.Some? then TickWork(group, q, ids, phase'.value) else Looping(group, q, ids))
  }

  /** The cancel handler trusts the cached copy, else the stored one. */
  function CopyForCancel(w: World, orderId: Id): Option<Order> {
    if orderId in w.cache.orders then Some(w.cache.orders[orderId])
    else if orderId in w.db.orders then Some(w.db.orders[orderId])
    else None
  }

  function NextCancel(e: Engine, fault: bool): Engine {
    var w := e.w;
    match e.cancel
    case CancelIdle => e
    case Found(o) =>
      var (db, cancelled) := AtomicCancel(w.db, o.id);
      if fault || !cancelled then e.(cancel := CancelIdle)
      else e.(w := w.(db := db), cancel := CancelCommitted(o))
    case CancelCommitted(o) =>
      if fault then e.(w := w.(history := Skipped(w, o)), cancel := CancelIdle)
      else e.(w := Removed(w, o), cancel := CancelIdle)
  }

  // ---------------------------------------------------------------- restart

  function Loadable(db: Db, symbol: string): set<Id> {
    set id | id in ZMembers(db, symbol) && id in db.orders && db.orders[id].status == Pending
  }

  /** The cache built from a store: every member of a pending set whose record is pending. */
  function WarmCache(db: Db): CacheState {
    CacheState(
      map symbol | symbol in db.zsets && Loadable(db, symbol) != {} :: Loadable(db, symbol),
      map id | id in db.orders && (exists symbol :: symbol in db.zsets && id in Loadable(db, symbol)) :: db.orders[id],
      map[])
  }

  /** What start-up gets to see: an unlisted pending set is taken for empty, a record not got for missing. */
  function ReadBack(db: Db, unread: Unread): Db {
    db.(zsets := map symbol | symbol in db.zsets && symbol !in unread.sets :: db.zsets[symbol] - unread.records)
  }

  /** The queued pending orders that this leaves out. */
  function Overlooked(db: Db, unread: Unread): set<Id> {
    set id |
      && id in db.orders && db.orders[id].status == Pending && id in ZMembers(db, db.orders[id].symbol)
      && (db.orders[id].symbol in unread.sets || id in unread.records)
  }

  function Restarted(e: Engine, unread: Unread): Engine {
    var lost := if e.place.Stored? then {e.place.cmd.orderId} else {};
    var h := e.w.history.(stale := {}, unqueued := e.w.history.unqueued + lost, overlooked := Overlooked(e.w.db, unread));
    Engine(World(e.w.db, WarmCache(ReadBack(e.w.db, unread)), h), PlaceIdle, TickIdle, CancelIdle)
  }

  // ---------------------------------------------------------------- the system

  /** An action that does not apply leaves the engine unchanged. */
  ghost function Next(e: Engine, a: Action): Engine {
    match a
    case PlaceArrives(cmd, valid) =>
      if !e.place.PlaceIdle? || cmd.idempotencyKey in e.w.db.keys || !Acceptable(cmd, valid) then e
      else e.(w := e.w.(db := e.w.db.(keys := e.w.db.keys + {cmd.idempotencyKey})), place := Keyed(cmd))
    case PlaceStep(fault) => NextPlace(e, fault)
    case TickArrives(symbol, group, raw, ids) =>
      var q := RepairQuote(raw);
      var sym := NormalizeSymbol(symbol);
      if !e.tick.TickIdle? || q.None? || !Lists(ids, PendingIds(e.w.cache, sym)) then e
      else if ids == [] && LastTick(e.w.cache, sym, group) == q then e
      else e.(tick := Snapped(sym, group, q.value, ids))
    case TickStep(fault) => NextTick(e, fault)
    case CancelArrives(orderId, userId) =>
      var o := CopyForCancel(e.w, orderId);
      if !e.cancel.CancelIdle? || o.None? || o.value.userId != userId || o.value.status != Pending then e
      else e.(cancel := Found(o.value))
    case CancelStep(fault) => NextCancel(e, fault)
    case Restart(unread) => Restarted(e, unread)
  }

  ghost function Run(e: Engine, actions: seq<Action>): Engine
    decreases |actions|
  {
    if actions == [] then e else Run(Next(e, actions[0]), actions[1..])
  }

  /** A command that names a known order is a redelivery and carries the key recorded for it. */
  predicate Admissible(e: Engine, a: Action) {
    a.PlaceArrives? && a.cmd.orderId in e.w.db.orders ==> a.cmd.idempotencyKey in e.w.db.keys
  }

  ghost predicate AdmissibleRun(e: Engine, actions: seq<Action>)
    decreases |actions|
  {
    actions != [] ==> Admissible(e, actions[0]) && AdmissibleRun(Next(e, actions[0]), actions[1..])
  }

  const FRESH := Engine(World(Db(map[], map[], map[], {}), EMPTY_CACHE, EMPTY_HISTORY), PlaceIdle, TickIdle, CancelIdle)

  predicate AtRest(e: Engine) {
    e.place.PlaceIdle? && e.tick.TickIdle? && e.cancel.CancelIdle?
  }
}
