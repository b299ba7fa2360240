/** What a user or a tick brings about, told from the message itself: the terms of stored orders, who may
    cancel, at which side of which quote a fill happens, and what becomes of each order. Nothing here
    goes by the functions the engine itself uses to get there. */
module EngineOutcomes {
  import opened Contracts
  import opened Symbols
  import opened Orders
  import opened OrderCaches
  import opened RedisStores
  import opened EngineSteps
  import opened EngineInvariant
  import opened EngineSafety
  import opened EngineTheorems
  import opened EngineQuotes
  import opened HandlerRuns
  import opened Handlers
  import opened TickGuarantees
  import opened SequentialCalls
  import opened Slippage
  import EL = EffectiveLeverage

  // ---------------------------------------------------------------- where an order's terms come from

  /** The record carries the command's terms, field by field, its symbol trimmed and in upper case. */
  predicate HasTermsOf(o: Order, cmd: PlaceCommand) {
    && o.id == cmd.orderId && o.userId == cmd.userId && o.groupId == cmd.groupId
    && o.symbol == NormalizeSymbol(cmd.symbol)
    && o.side == cmd.side && o.orderType == cmd.orderType && o.size == cmd.size && o.limitPrice == cmd.limitPrice
    && o.minLeverage == cmd.minLeverage && o.maxLeverage == cmd.maxLeverage && o.leverageTiers == cmd.leverageTiers
    && o.requestedBid == cmd.requestedBid && o.requestedAsk == cmd.requestedAsk && o.maxSlippageBps == cmd.maxSlippageBps
  }

  /** What the placing handler accepts. */
  predicate WellAsked(cmd: PlaceCommand, valid: bool) {
    && valid && cmd.size > 0.0
    && (cmd.orderType.Limit? ==> cmd.limitPrice.Some? && cmd.limitPrice.value > 0.0)
  }

  predicate Placed(a: Action, o: Order) {
    a.PlaceArrives? && WellAsked(a.cmd, a.valid) && HasTermsOf(o, a.cmd)
  }

  ghost predicate PlacedIn(past: seq<Action>, o: Order) {
    exists i :: 0 <= i < |past| && Placed(past[i], o)
  }

  ghost predicate CommandIn(past: seq<Action>, cmd: PlaceCommand) {
    exists i :: 0 <= i < |past| && past[i].PlaceArrives? && past[i].cmd == cmd && WellAsked(cmd, past[i].valid)
  }

  ghost predicate TermsSourced(past: seq<Action>, e: Engine) {
    && (forall id :: id in e.w.db.orders ==> PlacedIn(past, e.w.db.orders[id]))
    && (!e.place.PlaceIdle? ==> CommandIn(past, e.place.cmd))
  }

  lemma PlacedLater(past: seq<Action>, a: Action, o: Order)
    requires PlacedIn(past, o)
    ensures PlacedIn(past + [a], o)
  {
    var i :| 0 <= i < |past| && Placed(past[i], o);
    assert (past + [a])[i] == past[i];
  }

  lemma CommandLater(past: seq<Action>, a: Action, cmd: PlaceCommand)
    requires CommandIn(past, cmd)
    ensures CommandIn(past + [a], cmd)
  {
    var i :| 0 <= i < |past| && past[i].PlaceArrives? && past[i].cmd == cmd && WellAsked(cmd, past[i].valid);
    assert (past + [a])[i] == past[i];
  }

  lemma SameTermsPlaced(past: seq<Action>, o: Order, o': Order)
    requires PlacedIn(past, o) && SameTerms(o, o')
    ensures PlacedIn(past, o')
  {
    var i :| 0 <= i < |past| && Placed(past[i], o);
    assert Placed(past[i], o');
  }

  /** Only the first write of a placing adds a record, and it is the command's. */
  lemma NewRecord(e: Engine, a: Action, id: Id)
    requires id in Next(e, a).w.db.orders && id !in e.w.db.orders
    requires PhasesOk(e.w.db, PlacePhase(e.place)) && PhasesOk(e.w.db, TickPhase(e.tick))
    ensures e.place.Keyed? && HasTermsOf(Next(e, a).w.db.orders[id], e.place.cmd)
  {
    match a
    case PlaceStep(fault) => if e.place.PlaceWork? { NoNewRecord(e.w, e.place.phase, fault && !e.place.phase.Committed?); }
    case TickStep(fault) => if e.tick.TickWork? { NoNewRecord(e.w, e.tick.phase, fault); } else { TickElsewhere(e, fault); }
    case CancelStep(fault) => NoNewCancelled(e, fault);
    case _ =>
  }

  lemma NoNewCancelled(e: Engine, fault: bool)
    ensures NextCancel(e, fault).w.db.orders.Keys == e.w.db.orders.Keys
  {
  }

  lemma NoNewRecord(w: World, ph: Phase, fault: bool)
    requires PhaseOk(w.db, ph)
    ensures PhaseStep(w, ph, fault).0.db.orders.Keys == w.db.orders.Keys
  {
  }

  lemma TaskCommand(past: seq<Action>, e: Engine, a: Action)
    requires !e.place.PlaceIdle? ==> CommandIn(past, e.place.cmd)
    ensures !Next(e, a).place.PlaceIdle? ==> CommandIn(past + [a], Next(e, a).place.cmd)
  {
    if !e.place.PlaceIdle? { CommandLater(past, a, e.place.cmd); }
    if a.PlaceArrives? {
      assert (past + [a])[|past|] == a;
    } else {
      SameCommand(e, a);
    }
  }

  lemma SameCommand(e: Engine, a: Action)
    requires !a.PlaceArrives?
    ensures !Next(e, a).place.PlaceIdle? ==> !e.place.PlaceIdle? && Next(e, a).place.cmd == e.place.cmd
  {
    match a
    case PlaceStep(fault) =>
    case TickStep(fault) =>
    case CancelStep(fault) =>
    case _ =>
  }

  lemma KeyedPlaced(past: seq<Action>, cmd: PlaceCommand, o: Order)
    requires CommandIn(past, cmd) && HasTermsOf(o, cmd)
    ensures PlacedIn(past, o)
  {
    var i :| 0 <= i < |past| && past[i].PlaceArrives? && past[i].cmd == cmd && WellAsked(cmd, past[i].valid);
    assert Placed(past[i], o);
  }

  lemma StepTermsSourced(past: seq<Action>, e: Engine, a: Action)
    requires Inv(e) && Admissible(e, a) && TermsSourced(past, e)
    ensures TermsSourced(past + [a], Next(e, a))
  {
    NextGood(e, a);
    var db, db' := e.w.db, Next(e, a).w.db;
    forall id | id in db'.orders ensures PlacedIn(past + [a], db'.orders[id]) {
      if id in db.orders {
        assert OrderMoves(db.orders[id], db'.orders[id]);
        SameTermsPlaced(past, db.orders[id], db'.orders[id]);
      } else {
        NewRecord(e, a, id);
        KeyedPlaced(past, e.place.cmd, db'.orders[id]);
      }
      PlacedLater(past, a, db'.orders[id]);
    }
    TaskCommand(past, e, a);
  }

  /** `all` is the whole run, `past` the part of it that led to `e`. */
  lemma {:induction false} RunTermsSourced(all: seq<Action>, past: seq<Action>, e: Engine, actions: seq<Action>)
    requires Inv(e) && AdmissibleRun(e, actions) && TermsSourced(past, e) && all == past + actions
    ensures TermsSourced(all, Run(e, actions))
    decreases |actions|
  {
    Regroup(past, actions);
    if actions != [] {
      NextGood(e, actions[0]);
      StepTermsSourced(past, e, actions[0]);
      RunTermsSourced(all, past + [actions[0]], Next(e, actions[0]), actions[1..]);
    }
  }

  /** In every interleaving, every stored order, whatever has become of it, carries the terms of an
      acceptable command of the run that named it. */
  lemma StoredAsAsked(actions: seq<Action>, id: Id)
    requires AdmissibleRun(FRESH, actions) && id in Run(FRESH, actions).w.db.orders
    ensures
      var o := Run(FRESH, actions).w.db.orders[id];
      o.id == id && exists i :: 0 <= i < |actions| && Placed(actions[i], o)
  {
    FreshGood();
    assert actions == [] + actions;
    RunTermsSourced(actions, [], FRESH, actions);
    assert Run(FRESH, actions).w.db.orders[id].id == id by {
      RunGood(FRESH, actions);
      NamedByKey(Run(FRESH, actions).w.db, id);
    }
  }

  lemma NamedByKey(db: Db, id: Id)
    requires DbOk(db) && id in db.orders
    ensures db.orders[id].id == id
  {
    assert OrderOk(id, db.orders[id]);
  }

  // ---------------------------------------------------------------- who may cancel

  ghost predicate CancelledBy(past: seq<Action>, id: Id, userId: Id) {
    exists i :: 0 <= i < |past| && past[i] == CancelArrives(id, userId)
  }

  ghost predicate CancelsSourced(past: seq<Action>, e: Engine) {
    && (forall id :: Status(e.w.db, id, Cancelled) ==> CancelledBy(past, id, e.w.db.orders[id].userId))
    && (!e.cancel.CancelIdle? ==> CancelledBy(past, e.cancel.o.id, e.cancel.o.userId))
  }

  lemma CancelledLater(past: seq<Action>, a: Action, id: Id, userId: Id)
    requires CancelledBy(past, id, userId)
    ensures CancelledBy(past + [a], id, userId)
  {
    var i :| 0 <= i < |past| && past[i] == CancelArrives(id, userId);
    assert (past + [a])[i] == past[i];
  }

  /** The one step that makes an order cancelled is the script's, for the order in hand. */
  lemma NewlyCancelled(e: Engine, a: Action, id: Id)
    requires CancelOk(e.w.db, e.cancel) && Status(Next(e, a).w.db, id, Cancelled) && !Status(e.w.db, id, Cancelled)
    ensures e.cancel.Found? && e.cancel.o.id == id && id in e.w.db.orders && e.w.db.orders[id].userId == e.cancel.o.userId
  {
    match a
    case PlaceStep(fault) => if e.place.PlaceWork? { NoneCancelled(e.w, e.place.phase, fault && !e.place.phase.Committed?, id); }
    case TickStep(fault) => if e.tick.TickWork? { NoneCancelled(e.w, e.tick.phase, fault, id); } else { TickElsewhere(e, fault); }
    case CancelStep(fault) => CancelIsOwn(e.w.db, e.cancel, fault);
    case _ =>
  }

  lemma CancelIsOwn(db: Db, c: CancelTask, fault: bool)
    requires CancelOk(db, c)
    ensures c.Found? ==> c.o.id in db.orders && db.orders[c.o.id].userId == c.o.userId
  {
  }

  lemma NoneCancelled(w: World, ph: Phase, fault: bool, id: Id)
    requires Status(PhaseStep(w, ph, fault).0.db, id, Cancelled)
    ensures Status(w.db, id, Cancelled)
  {
  }

  /** A cancel is taken up only from the owner of the copy it finds, and that is the order it names. */
  lemma TakenUp(e: Engine, a: Action)
    requires Inv(e) && !Next(e, a).cancel.CancelIdle?
    ensures
      var o := Next(e, a).cancel.o;
      (a == CancelArrives(o.id, o.userId)) || (!e.cancel.CancelIdle? && o == e.cancel.o)
  {
    match a
    case PlaceStep(fault) =>
    case TickStep(fault) =>
    case CancelStep(fault) =>
    case CancelArrives(orderId, userId) =>
      if Next(e, a) != e { FoundIsNamed(e.w, PlacePhase(e.place), TickPhase(e.tick), orderId); }
    case _ =>
  }

  lemma FoundIsNamed(w: World, a: Option<Phase>, b: Option<Phase>, id: Id)
    requires DbOk(w.db) && CopiesOk(w, a, b) && CopyForCancel(w, id).Some?
    ensures CopyForCancel(w, id).value.id == id
  {
    if id in w.db.orders { assert OrderOk(id, w.db.orders[id]); }
  }

  lemma StepCancelsSourced(past: seq<Action>, e: Engine, a: Action)
    requires Inv(e) && Admissible(e, a) && CancelsSourced(past, e)
    ensures CancelsSourced(past + [a], Next(e, a))
  {
    NextGood(e, a);
    var e' := Next(e, a);
    forall id | Status(e'.w.db, id, Cancelled) ensures CancelledBy(past + [a], id, e'.w.db.orders[id].userId) {
      if !Status(e.w.db, id, Cancelled) { NewlyCancelled(e, a, id); }
      assert OrderMoves(e.w.db.orders[id], e'.w.db.orders[id]);
      CancelledLater(past, a, id, e.w.db.orders[id].userId);
    }
    if !e'.cancel.CancelIdle? {
      TakenUp(e, a);
      if a == CancelArrives(e'.cancel.o.id, e'.cancel.o.userId) {
        assert (past + [a])[|past|] == a;
      } else {
        CancelledLater(past, a, e'.cancel.o.id, e'.cancel.o.userId);
      }
    }
  }

  lemma {:induction false} RunCancelsSourced(all: seq<Action>, past: seq<Action>, e: Engine, actions: seq<Action>)
    requires Inv(e) && AdmissibleRun(e, actions) && CancelsSourced(past, e) && all == past + actions
    ensures CancelsSourced(all, Run(e, actions))
    decreases |actions|
  {
    Regroup(past, actions);
    if actions != [] {
      NextGood(e, actions[0]);
      StepCancelsSourced(past, e, actions[0]);
      RunCancelsSourced(all, past + [actions[0]], Next(e, actions[0]), actions[1..]);
    }
  }

  /** In every interleaving, a cancelled order was named by a cancel of the run that came from its owner. */
  lemma CancelledByOwner(actions: seq<Action>, id: Id)
    requires AdmissibleRun(FRESH, actions) && Status(Run(FRESH, actions).w.db, id, Cancelled)
    ensures CancelledBy(actions, id, Run(FRESH, actions).w.db.orders[id].userId)
  {
    FreshGood();
    assert actions == [] + actions;
    RunCancelsSourced(actions, [], FRESH, actions);
  }

  /** One whole call changes an order's record exactly if it names that order, comes from its owner, and
      finds it pending; the order is then cancelled and out of its pending set. No other record changes.
      At rest any cached copy is pending, so the copy has no say. */
  lemma CancelChangesIff(w: World, orderId: Id, userId: Id, unannounced: bool, id: Id)
    requires Rests(w) && id in w.db.orders
    ensures
      var db', o := Handle(w, Cancel(orderId, userId, unannounced)).db, w.db.orders[id];
      && id in db'.orders
      && (db'.orders[id] != o <==> id == orderId && o.userId == userId && o.status == Pending)
      && (db'.orders[id] != o ==> db'.orders[id] == o.(status := Cancelled) && id !in ZMembers(db', o.symbol))
  {
    CopyTells(w, orderId);
    CancelActs(w, orderId, userId, unannounced);
  }

  lemma CancelActs(w: World, orderId: Id, userId: Id, unannounced: bool)
    requires
      var copy := CopyForCancel(w, orderId);
      && (copy.Some? <==> orderId in w.db.orders)
      && (copy.Some? ==> copy.value.id == orderId && copy.value.userId == w.db.orders[orderId].userId)
      && (copy.Some? && w.db.orders[orderId].status == Pending ==> copy.value.status == Pending)
    ensures
      Handle(w, Cancel(orderId, userId, unannounced)).db
        == if orderId in w.db.orders && w.db.orders[orderId].userId == userId && w.db.orders[orderId].status == Pending
           then ZRem(SetOrder(w.db, orderId, w.db.orders[orderId].(status := Cancelled)), w.db.orders[orderId].symbol, orderId)
           else w.db
  {
    var e := Next(Resting(w), CancelArrives(orderId, userId));
    if e.cancel.Found? { CancelRuns(w, e.cancel.o, unannounced); }
  }

  /** At rest the copy that a cancel goes by has the owner of the record, and is pending if the record is. */
  lemma CopyTells(w: World, id: Id)
    requires Rests(w)
    ensures
      var copy := CopyForCancel(w, id);
      && (copy.Some? <==> id in w.db.orders)
      && (copy.Some? ==> copy.value.id == id && copy.value.userId == w.db.orders[id].userId)
      && (copy.Some? && w.db.orders[id].status == Pending ==> copy.value.status == Pending)
  {
    if id in w.cache.orders {
      CopyIs(w, id);
    } else if id in w.db.orders {
      assert OrderOk(id, w.db.orders[id]);
    }
  }

  lemma CancelRuns(w: World, o: Order, unannounced: bool)
    ensures
      var db' := FinishCancel(Resting(w).(cancel := Found(o)), unannounced).w.db;
      db' == if o.id in w.db.orders && w.db.orders[o.id].status == Pending
             then ZRem(SetOrder(w.db, o.id, w.db.orders[o.id].(status := Cancelled)), w.db.orders[o.id].symbol, o.id) else w.db
  {
    var e := Resting(w).(cancel := Found(o));
    var e' := NextCancel(e, false);
    assert FinishCancel(e, unannounced) == FinishCancel(e', unannounced);
    if e'.cancel.CancelCommitted? { CancelEnds(e'.w, o, unannounced); }
  }

  // ---------------------------------------------------------------- at which side of which quote

  /** The ask of a tick as the engine takes it: an ask under the bid becomes the bid and a basis point. */
  function TickAsk(raw: Quote): real {
    if raw.ask < raw.bid then raw.bid * 1.0001 else raw.ask
  }

  lemma Repaired(raw: Quote)
    ensures RepairQuote(raw) == if raw.bid <= 0.0 || raw.ask <= 0.0 then None else Some(Quote(raw.bid, TickAsk(raw)))
  {
  }

  /** In every interleaving, a filled buy was filled at the ask and a filled sell at the bid of a tick
      message of the run that was for it. */
  lemma FilledAtItsSide(actions: seq<Action>, id: Id)
    requires AdmissibleRun(FRESH, actions) && Status(Run(FRESH, actions).w.db, id, OrderStatus.Filled)
    ensures
      var o := Run(FRESH, actions).w.db.orders[id];
      exists i :: 0 <= i < |actions| && Serves(actions[i], o)
        && actions[i].raw.bid > 0.0 && actions[i].raw.ask > 0.0
        && o.averageFillPrice == Some(if o.side.Buy? then TickAsk(actions[i].raw) else actions[i].raw.bid)
  {
    FilledOrdersQuoted(actions, id);
    var o := Run(FRESH, actions).w.db.orders[id];
    var q :| FromTick(actions, o, q) && o.averageFillPrice.value == SidePrice(o.side, q);
    var i :| 0 <= i < |actions| && Brought(actions[i], q) && Serves(actions[i], o);
    Repaired(actions[i].raw);
  }

  // ---------------------------------------------------------------- what a quote means to an order

  predicate MeantFor(o: Order, symbol: string, group: Option<string>) {
    o.symbol == symbol && (group.None? || o.groupId.None? || o.groupId.value == group.value)
  }

  ghost predicate HasLeverage(o: Order, price: real) {
    var leverage := EL.Effective(o.size * price, o.minLeverage, o.maxLeverage, o.leverageTiers);
    leverage.Some? && leverage.value > 0.0
  }

  /** The record of a pending order after an attempt at this price. */
  ghost predicate Attempted(o: Order, o': Order, price: real, unpublished: bool) {
    if !HasLeverage(o, price) || (!WithinTolerance(o, price) && unpublished) then o' == o
    else if !WithinTolerance(o, price) then o' == o.(status := Rejected)
    else o' == o.(status := Filled, filledSize := o.size, averageFillPrice := Some(price))
  }

  lemma Meanings(o: Order, group: Option<string>, q: Quote)
    ensures
      var price := if o.side.Buy? then q.ask else q.bid;
      && SidePrice(o.side, q) == price
      && (Eligible(o, group) <==> MeantFor(o, o.symbol, group))
      && (Crossed(o, q) <==> WithinLimit(o, price))
      && (Resolves(o, q) <==> HasLeverage(o, price))
  {
    LeverageTells(o, q);
  }

  lemma LeverageTells(o: Order, q: Quote)
    ensures Resolves(o, q) <==> HasLeverage(o, if o.side.Buy? then q.ask else q.bid)
  {
    var price := if o.side.Buy? then q.ask else q.bid;
    EitherWay(o, price);
    assert LeverageOf(o, SidePrice(o.side, q)) == EL.Effective(o.size * price, o.minLeverage, o.maxLeverage, o.leverageTiers);
  }

  lemma EitherWay(o: Order, price: real)
    ensures Notional(o, price) == o.size * price
  {
  }

  lemma SlipsIs(o: Order, q: Quote)
    ensures Slips(o, q) <==> !WithinTolerance(o, if o.side.Buy? then q.ask else q.bid)
  {
    var price := if o.side.Buy? then q.ask else q.bid;
    CheckedIff(o.side, price, o.requestedBid, o.requestedAsk, o.maxSlippageBps);
    if o.requestedBid.Some? && o.requestedAsk.Some? && o.maxSlippageBps.Some? {
      var bid, ask := o.requestedBid.value, o.requestedAsk.value;
      if (if o.side.Buy? then ask else bid) > 0.0 { SlippageExact(o.side, price, bid, ask, o.maxSlippageBps.value); }
    }
  }

  // ---------------------------------------------------------------- what one tick brings about

  /** One tick message, handled to its end, decided order by order from the raw message and the stored
      records: a tick with a side that is not positive changes nothing; else an order that is pending and
      not left out of the cache is attempted exactly if the tick is for it and reaches its limit, at the
      ask for a buy and at the bid for a sell; and an order left out is not touched. */
  lemma TickOutcome(w: World, symbol: string, group: Option<string>, raw: Quote, ids: seq<Id>, unpublished: set<Id>, id: Id)
    requires Rests(w) && Lists(ids, PendingIds(w.cache, NormalizeSymbol(symbol))) && Status(w.db, id, Pending)
    ensures
      var w' := Handle(w, Tick(symbol, group, raw, ids, unpublished));
      var o := w.db.orders[id];
      var price := if o.side.Buy? then TickAsk(raw) else raw.bid;
      && (raw.bid <= 0.0 || raw.ask <= 0.0 ==> w' == w)
      && id in w'.db.orders
      && (raw.bid > 0.0 && raw.ask > 0.0 ==>
            if MeantFor(o, NormalizeSymbol(symbol), group) && WithinLimit(o, price) && !LeftOut(w, id)
            then Attempted(o, w'.db.orders[id], price, id in unpublished)
            else w'.db.orders[id] == o)
  {
    TickCall(w, symbol, group, raw, ids);
    Repaired(raw);
    if raw.bid > 0.0 && raw.ask > 0.0 {
      NormalizeIdempotent(symbol);
      PendingTried(w, NormalizeSymbol(symbol), group, Quote(raw.bid, TickAsk(raw)), ids, unpublished, id);
    }
  }

  lemma PendingTried(w: World, symbol: string, group: Option<string>, q: Quote, ids: seq<Id>, unpublished: set<Id>, id: Id)
    requires Rests(w) && GoodQuote(q) && NormalizeSymbol(symbol) == symbol && Lists(ids, PendingIds(w.cache, symbol))
    requires Status(w.db, id, Pending)
    ensures
      var w', o := FinishTick(TickTaken(w, symbol, group, q, ids), unpublished).w, w.db.orders[id];
      var price := if o.side.Buy? then q.ask else q.bid;
      && id in w'.db.orders
      && if MeantFor(o, symbol, group) && WithinLimit(o, price) && !LeftOut(w, id)
         then Attempted(o, w'.db.orders[id], price, id in unpublished)
         else w'.db.orders[id] == o
  {
    TickExact(w, symbol, group, q, ids, unpublished, id);
    StaleNotPending(w, id);
    PendingTrial(w.db.orders[id], group, q, id in unpublished);
    assert OrderOk(id, w.db.orders[id]);
  }

  lemma PendingTrial(o: Order, group: Option<string>, q: Quote, unpublished: bool)
    requires o.status == Pending && o.filledSize == 0.0 && o.averageFillPrice == None
    ensures Resolves(o, q) ==> Attempted(o, AfterTrial(o, q, unpublished), if o.side.Buy? then q.ask else q.bid, unpublished)
    ensures !Resolves(o, q) ==> Attempted(o, o, if o.side.Buy? then q.ask else q.bid, unpublished)
    ensures Eligible(o, group) <==> MeantFor(o, o.symbol, group)
    ensures Crossed(o, q) <==> WithinLimit(o, if o.side.Buy? then q.ask else q.bid)
  {
    Meanings(o, group, q);
    SlipsIs(o, q);
  }

  /** Ticking changes no other quote than the tick's own. */
  lemma {:induction false} LoopKeepsQuotes(e: Engine, unpublished: set<Id>)
    requires e.tick.TickIdle? || e.tick.Looping? || e.tick.TickWork?
    ensures FinishTick(e, unpublished).w.cache.lastTicks == e.w.cache.lastTicks
    decreases TickStage(e.tick), TickLeft(e.tick), if e.tick.TickWork? then PhaseRank(e.tick.phase) else 0
  {
    if !e.tick.TickIdle? {
      var fault := e.tick.TickWork? && PublishFails(e.tick.phase, e.tick.phase.o.id in unpublished);
      assert FinishTick(e, unpublished) == FinishTick(NextTick(e, fault), unpublished);
      LoopKeepsQuotes(NextTick(e, fault), unpublished);
    }
  }

  /** After a tick with positive sides the engine remembers its bid, and its ask or the repaired one, under
      its symbol and group. */
  lemma TickRemembered(w: World, symbol: string, group: Option<string>, raw: Quote, ids: seq<Id>, unpublished: set<Id>)
    requires Lists(ids, PendingIds(w.cache, NormalizeSymbol(symbol))) && raw.bid > 0.0 && raw.ask > 0.0
    ensures LastTick(Handle(w, Tick(symbol, group, raw, ids, unpublished)).cache, symbol, group) == Some(Quote(raw.bid, TickAsk(raw)))
  {
    var sym, q := NormalizeSymbol(symbol), Quote(raw.bid, TickAsk(raw));
    TickCall(w, symbol, group, raw, ids);
    Repaired(raw);
    NormalizeIdempotent(symbol);
    if !(ids == [] && LastTick(w.cache, sym, group) == Some(q)) {
      TickStarts(w, sym, group, q, ids, unpublished);
      var w1 := World(w.db.(prices := w.db.prices[QuoteKey(sym, group) := q]), UpdateTick(w.cache, sym, group, q), w.history);
      LoopKeepsQuotes(Ticking(w1, Looping(group, q, ids)), unpublished);
    }
  }

  // ---------------------------------------------------------------- what one placing brings about

  /** The quote for an immediate fill, if there is one: the cached tick of the order's group goes before
      the cached global one, both before the stored quotes, and the group's stored one before the global. */
  predicate QuotedAt(w: World, cmd: PlaceCommand, q: Option<Quote>) {
    var own, global := LastTick(w.cache, cmd.symbol, cmd.groupId), LastTick(w.cache, cmd.symbol, None);
    var ownKey, globalKey := cmd.symbol + ":" + GroupText(cmd.groupId), cmd.symbol + ":";
    && (own.Some? ==> q == own)
    && (own.None? && global.Some? ==> q == global)
    && (own.None? && global.None? && cmd.groupId.Some? && ownKey in w.db.prices ==> q == Some(w.db.prices[ownKey]))
    && (own.None? && global.None? && (cmd.groupId.None? || ownKey !in w.db.prices) && globalKey in w.db.prices ==>
          q == Some(w.db.prices[globalKey]))
    && (own.None? && global.None? && (cmd.groupId.None? || ownKey !in w.db.prices) && globalKey !in w.db.prices ==> q.None?)
  }

  /** The new record as it was stored, before any fill. */
  ghost predicate NewOrder(o: Order, cmd: PlaceCommand) {
    HasTermsOf(o, cmd) && o.status == Pending && o.filledSize == 0.0 && o.averageFillPrice == None
  }

  /** One placing message, handled to its end: a repeated key or an unacceptable command changes nothing;
      any other uses up its key and leaves the command's own order and no other change to records. A
      limit order, or one whose acceptance goes unpublished, then rests, queued and cached; any other is
      attempted at once at its side of the quote there is. */
  lemma PlaceOutcome(w: World, cmd: PlaceCommand, valid: bool, faults: PlaceFaults) returns (placed: Order, q: Option<Quote>)
    requires Rests(w) && Proper(w, Place(cmd, valid, faults))
    ensures
      var w' := Handle(w, Place(cmd, valid, faults));
      if cmd.idempotencyKey in w.db.keys || !WellAsked(cmd, valid) then w' == w
      else
        && NewOrder(placed, cmd) && QuotedAt(w, cmd, q)
        && w'.db.keys == w.db.keys + {cmd.idempotencyKey}
        && cmd.orderId in w'.db.orders && w'.db.orders == w.db.orders[cmd.orderId := w'.db.orders[cmd.orderId]]
        && var o := w'.db.orders[cmd.orderId];
           if cmd.orderType.Limit? || faults.acceptUnpublished || q.None?
           then o == placed && cmd.orderId in ZMembers(w'.db, o.symbol) && cmd.orderId in PendingIds(w'.cache, cmd.symbol)
           else Attempted(placed, o, if cmd.side.Buy? then q.value.ask else q.value.bid, faults.refusalUnpublished)
  {
    placed, q := MakeOrder(cmd), MarketQuote(w, cmd);
    QuoteFound(w, cmd);
    if cmd.idempotencyKey !in w.db.keys && WellAsked(cmd, valid) {
      var w0 := w.(db := w.db.(keys := w.db.keys + {cmd.idempotencyKey}));
      assert Next(Resting(w), PlaceArrives(cmd, valid)) == Resting(w0).(place := Keyed(cmd));
      PlaceStores(w0, cmd, faults);
      StockedQuote(w, Stocked(w0, placed), cmd);
      StockedOutcome(w0, cmd, faults, q);
    }
  }

  ghost predicate PlacedWell(w: World, w': World, cmd: PlaceCommand, placed: Order, q: Option<Quote>, faults: PlaceFaults) {
    && w'.db.keys == w.db.keys
    && cmd.orderId in w'.db.orders && w'.db.orders == w.db.orders[cmd.orderId := w'.db.orders[cmd.orderId]]
    && var o := w'.db.orders[cmd.orderId];
       if cmd.orderType.Limit? || faults.acceptUnpublished || q.None?
       then o == placed && cmd.orderId in ZMembers(w'.db, o.symbol) && cmd.orderId in PendingIds(w'.cache, cmd.symbol)
       else Attempted(placed, o, if cmd.side.Buy? then q.value.ask else q.value.bid, faults.refusalUnpublished)
  }

  lemma StockedOutcome(w: World, cmd: PlaceCommand, faults: PlaceFaults, q: Option<Quote>)
    requires MarketQuote(Stocked(w, MakeOrder(cmd)), cmd) == q
    ensures PlacedWell(w, FinishPlace(Resting(Stocked(w, MakeOrder(cmd))).(place := Cached(cmd)), faults).w, cmd, MakeOrder(cmd), q, faults)
  {
    var o := MakeOrder(cmd);
    var w1 := Stocked(w, o);
    NormalizeIdempotent(cmd.symbol);
    if cmd.orderType.Limit? || faults.acceptUnpublished {
      PlaceEndsAtCache(w1, cmd, faults);
    } else {
      TriedAtOnce(w1, cmd, faults, q);
    }
  }

  /** Stored, queued and cached. */
  function Stocked(w: World, o: Order): World {
    w.(db := ZAdd(SetOrder(w.db, o.id, o), o.symbol, o.id), cache := AddPending(w.cache, o.symbol, o.id, o))
  }

  lemma QuoteFound(w: World, cmd: PlaceCommand)
    ensures QuotedAt(w, cmd, MarketQuote(w, cmd))
  {
    assert QuoteKey(cmd.symbol, cmd.groupId) == cmd.symbol + ":" + GroupText(cmd.groupId);
    assert QuoteKey(cmd.symbol, None) == cmd.symbol + ":";
  }

  lemma StockedQuote(w: World, w1: World, cmd: PlaceCommand)
    requires w1.db.prices == w.db.prices && w1.cache.lastTicks == w.cache.lastTicks
    ensures MarketQuote(w1, cmd) == MarketQuote(w, cmd)
  {
  }

  lemma TriedAtOnce(w: World, cmd: PlaceCommand, faults: PlaceFaults, q: Option<Quote>)
    requires cmd.orderType.Market? && !faults.acceptUnpublished && MarketQuote(w, cmd) == q
    requires cmd.orderId in w.db.orders && w.db.orders[cmd.orderId] == MakeOrder(cmd)
    ensures
      var w', o := FinishPlace(Resting(w).(place := Cached(cmd)), faults).w, MakeOrder(cmd);
      && w'.db.keys == w.db.keys && o.id in w'.db.orders && w'.db.orders == w.db.orders[o.id := w'.db.orders[o.id]]
      && (q.None? ==> w' == w)
      && (q.Some? ==>
            Attempted(o, w'.db.orders[o.id], if o.side.Buy? then q.value.ask else q.value.bid, faults.refusalUnpublished))
  {
    var o := MakeOrder(cmd);
    PlaceAccepts(w, cmd, faults);
    if q.Some? {
      AttemptOnCopy(o, o, q.value);
      PendingTrial(o, None, q.value, faults.refusalUnpublished);
      if Attempt(o, q.value).Some? {
        var ph := Attempt(o, q.value).value;
        PlaceFinishesPhase(w, cmd, ph, faults);
        FirstTrial(w, o, q.value, ph, faults.refusalUnpublished);
      }
    }
  }

  lemma FirstTrial(w: World, o: Order, q: Quote, ph: Phase, refused: bool)
    requires Attempt(o, q) == Some(ph) && o.status == Pending && o.id in w.db.orders && w.db.orders[o.id] == o
    requires o.orderType.Market? && o.filledSize == 0.0 && o.averageFillPrice == None
    ensures
      var w' := FinishPhase(w, ph, ph.Refusing? && refused);
      w'.db.keys == w.db.keys && w'.db.orders == w.db.orders[o.id := AfterTrial(o, q, refused)]
  {
    AttemptOnCopy(o, o, q);
    if ph.Refusing? {
      if refused { assert FinishPhase(w, ph, true) == w && w.db.orders == w.db.orders[o.id := o]; } else { FinishRefusing(w, o); }
    } else {
      FinishCommitted(PhaseStep(w, ph, false).0, o, q, false);
    }
  }

  // ---------------------------------------------------------------- pending sets hold what is pending

  /** An order is in the pending set of its symbol exactly while it is pending, and in no other. */
  ghost predicate SetsExact(db: Db) {
    forall symbol, id :: id in ZMembers(db, symbol) <==> Status(db, id, Pending) && db.orders[id].symbol == symbol
  }

  /** The record of `id` is written, and the id leaves its set if the order is no longer pending. */
  lemma WriteKeepsSets(db: Db, db': Db, id: Id)
    requires SetsExact(db) && id in db.orders && id in db'.orders && db'.orders == db.orders[id := db'.orders[id]]
    requires db'.orders[id].symbol == db.orders[id].symbol && db'.orders[id].status != Pending
    requires db'.zsets == ZRem(db, db.orders[id].symbol, id).zsets
    ensures SetsExact(db')
  {
    forall symbol, k ensures k in ZMembers(db', symbol) <==> Status(db', k, Pending) && db'.orders[k].symbol == symbol {
      assert k in ZMembers(db', symbol) <==> k in ZMembers(db, symbol) && !(symbol == db.orders[id].symbol && k == id);
    }
  }

  lemma ScriptDb(w: World, o: Order, q: Quote, leverage: real, unpublished: bool)
    ensures FinishPhase(w, Script(o, q, leverage), unpublished).db == AtomicFill(w.db, o.id, SidePrice(o.side, q), o.size, leverage).0
  {
    var (w1, ph1) := PhaseStep(w, Script(o, q, leverage), false);
    if ph1.Some? {
      assert FinishPhase(w, Script(o, q, leverage), unpublished) == FinishPhase(w1, ph1.value, unpublished);
      if ph1.value.Committed? { FinishCommitted(w1, o, q, unpublished); } else { FinishSync(w1, o, q, unpublished); }
    }
  }

  lemma PhaseSets(w: World, ph: Phase, unpublished: bool)
    requires SetsExact(w.db) && (ph.Script? || ph.Refusing?)
    requires ph.o.id in w.db.orders && w.db.orders[ph.o.id].symbol == ph.o.symbol
    ensures SetsExact(FinishPhase(w, ph, unpublished).db)
  {
    var db' := FinishPhase(w, ph, unpublished).db;
    if ph.Script? {
      ScriptDb(w, ph.o, ph.q, ph.leverage, unpublished);
      if db' != w.db { WriteKeepsSets(w.db, db', ph.o.id); }
    } else if !unpublished {
      FinishRefusing(w, ph.o);
      WriteKeepsSets(w.db, db', ph.o.id);
    }
  }

  lemma {:induction false} LoopSets(w: World, group: Option<string>, q: Quote, ids: seq<Id>, unpublished: set<Id>)
    requires Rests(w) && GoodQuote(q) && SetsExact(w.db)
    ensures SetsExact(FinishTick(Ticking(w, Looping(group, q, ids)), unpublished).w.db)
    decreases |ids|
  {
    if ids == [] {
      LoopEnds(w, group, q, unpublished);
    } else {
      var id, rest := ids[0], ids[1..];
      assert ids == [id] + rest;
      TickTurn(w, group, q, id, rest, unpublished);
      var ph := LoopAttempt(w, id, group, q);
      if ph.None? {
        LoopSets(w, group, q, rest, unpublished);
      } else {
        AttemptKeepsSets(w, group, q, id, id in unpublished);
        LoopSets(FinishPhase(w, ph.value, id in unpublished), group, q, rest, unpublished);
      }
    }
  }

  lemma AttemptKeepsSets(w: World, group: Option<string>, q: Quote, id: Id, unpublished: bool)
    requires Rests(w) && GoodQuote(q) && SetsExact(w.db) && LoopAttempt(w, id, group, q).Some?
    ensures
      var ph := LoopAttempt(w, id, group, q).value;
      ph.o.id == id && Rests(FinishPhase(w, ph, unpublished)) && SetsExact(FinishPhase(w, ph, unpublished).db)
  {
    TryOneRests(w, id, group, q, unpublished);
    LoopAttemptIs(w, id, group, q);
    PhaseSets(w, LoopAttempt(w, id, group, q).value, unpublished);
  }

  lemma TickSets(w: World, symbol: string, group: Option<string>, raw: Quote, ids: seq<Id>, unpublished: set<Id>)
    requires Rests(w) && SetsExact(w.db)
    ensures SetsExact(Handle(w, Tick(symbol, group, raw, ids, unpublished)).db)
  {
    TickCall(w, symbol, group, raw, ids);
    var q, sym := RepairQuote(raw), NormalizeSymbol(symbol);
    if q.Some? && Lists(ids, PendingIds(w.cache, sym)) && !TickTaken(w, sym, group, q.value, ids).tick.TickIdle? {
      TickStarts(w, sym, group, q.value, ids, unpublished);
      var w1 := w.(db := w.db.(prices := w.db.prices[QuoteKey(sym, group) := q.value]));
      PricesGood(w, QuoteKey(sym, group), q.value, None, CancelIdle, PlaceIdle);
      TicksGood(w1, sym, group, q.value, None, CancelIdle, PlaceIdle);
      var w2 := w1.(cache := UpdateTick(w1.cache, sym, group, q.value));
      SameSets(w.db, w2.db);
      LoopSets(w2, group, q.value, ids, unpublished);
    }
  }

  lemma SameSets(db: Db, db': Db)
    requires SetsExact(db) && db'.orders == db.orders && db'.zsets == db.zsets
    ensures SetsExact(db')
  {
    assert forall symbol :: ZMembers(db', symbol) == ZMembers(db, symbol);
    assert forall id :: Status(db', id, Pending) <==> Status(db, id, Pending);
  }

  lemma StockedSets(w: World, o: Order)
    requires SetsExact(w.db) && o.id !in w.db.orders && o.status == Pending
    ensures SetsExact(Stocked(w, o).db)
  {
    var db' := Stocked(w, o).db;
    forall symbol, k ensures k in ZMembers(db', symbol) <==> Status(db', k, Pending) && db'.orders[k].symbol == symbol {
      assert k in ZMembers(db', symbol) <==> k in ZMembers(w.db, symbol) || (symbol == o.symbol && k == o.id);
      assert Status(w.db, k, Pending) ==> k != o.id;
    }
  }

  lemma PlaceSets(w: World, cmd: PlaceCommand, valid: bool, faults: PlaceFaults)
    requires SetsExact(w.db) && Proper(w, Place(cmd, valid, faults))
    ensures SetsExact(Handle(w, Place(cmd, valid, faults)).db)
  {
    if cmd.idempotencyKey !in w.db.keys && WellAsked(cmd, valid) {
      var w0, o := w.(db := w.db.(keys := w.db.keys + {cmd.idempotencyKey})), MakeOrder(cmd);
      assert Next(Resting(w), PlaceArrives(cmd, valid)) == Resting(w0).(place := Keyed(cmd));
      PlaceStores(w0, cmd, faults);
      SameSets(w.db, w0.db);
      StockedSets(w0, o);
      CachedSets(Stocked(w0, o), cmd, faults);
    }
  }

  lemma CachedSets(w: World, cmd: PlaceCommand, faults: PlaceFaults)
    requires SetsExact(w.db) && cmd.orderId in w.db.orders && w.db.orders[cmd.orderId] == MakeOrder(cmd)
    ensures SetsExact(FinishPlace(Resting(w).(place := Cached(cmd)), faults).w.db)
  {
    if cmd.orderType.Limit? || faults.acceptUnpublished {
      PlaceEndsAtCache(w, cmd, faults);
    } else {
      PlaceAccepts(w, cmd, faults);
      var q, o := MarketQuote(w, cmd), MakeOrder(cmd);
      if q.Some? && Attempt(o, q.value).Some? {
        var ph := Attempt(o, q.value).value;
        AttemptOnCopy(o, o, q.value);
        PlaceFinishesPhase(w, cmd, ph, faults);
        PhaseSets(w, ph, ph.Refusing? && faults.refusalUnpublished);
      }
    }
  }

  lemma CallSets(w: World, call: Call)
    requires Rests(w) && SetsExact(w.db) && Proper(w, call)
    ensures SetsExact(Handle(w, call).db)
  {
    match call
    case Place(cmd, valid, faults) => PlaceSets(w, cmd, valid, faults);
    case Tick(symbol, group, raw, ids, unpublished) => TickSets(w, symbol, group, raw, ids, unpublished);
    case Cancel(orderId, userId, unannounced) => CancelSets(w, orderId, userId, unannounced);
    case Reboot(_) =>
  }

  lemma CancelSets(w: World, orderId: Id, userId: Id, unannounced: bool)
    requires SetsExact(w.db)
    ensures SetsExact(Handle(w, Cancel(orderId, userId, unannounced)).db)
  {
    var e := Next(Resting(w), CancelArrives(orderId, userId));
    if e.cancel.Found? {
      var o := e.cancel.o;
      CancelRuns(w, o, unannounced);
      if o.id in w.db.orders && w.db.orders[o.id].status == Pending {
        WriteKeepsSets(w.db, Handle(w, Cancel(orderId, userId, unannounced)).db, o.id);
      }
    }
  }

  lemma {:induction false} CallsKeepSets(w: World, calls: seq<Call>)
    requires Rests(w) && SetsExact(w.db) && ProperCalls(w, calls)
    ensures SetsExact(HandleAll(w, calls).db)
    decreases |calls|
  {
    if calls != [] {
      HandleRests(w, calls[0]);
      CallSets(w, calls[0]);
      CallsKeepSets(Handle(w, calls[0]), calls[1..]);
    }
  }

  /** With one message at a time, whatever publishes and start-up reads fail, each pending set holds exactly
      the pending orders of its symbol. */
  lemma QueuesExact(calls: seq<Call>, symbol: string, id: Id)
    requires ProperCalls(FRESH.w, calls)
    ensures
      var db := HandleAll(FRESH.w, calls).db;
      id in ZMembers(db, symbol) <==> id in db.orders && db.orders[id].status == Pending && db.orders[id].symbol == symbol
  {
    FreshGood();
    CallsKeepSets(FRESH.w, calls);
    MemberIff(HandleAll(FRESH.w, calls).db, symbol, id);
  }

  lemma MemberIff(db: Db, symbol: string, id: Id)
    requires SetsExact(db)
    ensures id in ZMembers(db, symbol) <==> id in db.orders && db.orders[id].status == Pending && db.orders[id].symbol == symbol
  {
    assert id in ZMembers(db, symbol) <==> Status(db, id, Pending) && db.orders[id].symbol == symbol;
  }
}
