/** Where the price of a fill comes from: a quote some tick message brought, for this order's symbol and
    group, short of two quotes sharing a key. */
module EngineQuotes {
  import opened Contracts
  import opened Symbols
  import opened Orders
  import opened OrderCaches
  import opened RedisStores
  import opened EngineSteps
  import opened EngineInvariant
  import opened EngineSafety
  import opened EngineTheorems

  /** The message brought the quote, repaired if need be. */
  predicate Brought(a: Action, q: Quote) {
    a.TickArrives? && RepairQuote(a.raw) == Some(q)
  }

  predicate Keys(a: Action, key: string) {
    a.TickArrives? && QuoteKey(NormalizeSymbol(a.symbol), a.group) == key
  }

  /** A market order looks its quote up by key: its own group's or the global one, under the symbol as the
      user typed it or in normal form. */
  ghost predicate LooksUp(o: Order, key: string) {
    exists typed :: NormalizeSymbol(typed) == o.symbol && (key == QuoteKey(typed, o.groupId) || key == QuoteKey(typed, None))
  }

  /** The message's quote is for this order: it ticks the order's symbol for a group that may fill it, or
      it sits under a key at which the order looks. */
  ghost predicate Serves(a: Action, o: Order) {
    && a.TickArrives?
    && ((NormalizeSymbol(a.symbol) == o.symbol && Eligible(o, a.group))
        || LooksUp(o, QuoteKey(NormalizeSymbol(a.symbol), a.group)))
  }

  ghost predicate FromTick(past: seq<Action>, o: Order, q: Quote) {
    exists i :: 0 <= i < |past| && Brought(past[i], q) && Serves(past[i], o)
  }

  ghost predicate UnderKey(past: seq<Action>, key: string, q: Quote) {
    exists i :: 0 <= i < |past| && Brought(past[i], q) && Keys(past[i], key)
  }

  // ---------------------------------------------------------------- the invariant

  ghost predicate QuotesSourced(past: seq<Action>, w: World) {
    && (forall key :: key in w.db.prices ==> UnderKey(past, key, w.db.prices[key]))
    && (forall key :: key in w.cache.lastTicks ==> UnderKey(past, key, w.cache.lastTicks[key]))
  }

  ghost predicate FillSourced(past: seq<Action>, db: Db, f: Fill) {
    f.id in db.orders && FromTick(past, db.orders[f.id], f.quote)
  }

  ghost predicate FillsSourced(past: seq<Action>, w: World) {
    forall i :: 0 <= i < |w.history.fills| ==> FillSourced(past, w.db, w.history.fills[i])
  }

  ghost predicate PhaseSourced(past: seq<Action>, ph: Option<Phase>) {
    ph.Some? && ph.value.Script? ==> FromTick(past, ph.value.o, ph.value.q)
  }

  /** The tick in progress was brought by `a`, and the orders still to be tried are of its symbol. */
  ghost predicate TickOfMessage(a: Action, db: Db, t: TickTask)
    requires !t.TickIdle?
  {
    && Brought(a, t.q) && a.group == t.group
    && (t.Snapped? || t.Priced? ==> t.symbol == NormalizeSymbol(a.symbol))
    && forall id :: id in t.ids ==> id in db.orders && db.orders[id].symbol == NormalizeSymbol(a.symbol)
  }

  ghost predicate TickSourced(past: seq<Action>, db: Db, t: TickTask) {
    !t.TickIdle? ==> exists i :: 0 <= i < |past| && TickOfMessage(past[i], db, t)
  }

  ghost predicate Sourced(past: seq<Action>, e: Engine) {
    && QuotesSourced(past, e.w) && FillsSourced(past, e.w)
    && PhaseSourced(past, PlacePhase(e.place)) && PhaseSourced(past, TickPhase(e.tick))
    && TickSourced(past, e.w.db, e.tick)
  }

  // ---------------------------------------------------------------- a longer past, and moved orders

  lemma LaterFromTick(past: seq<Action>, a: Action, o: Order, q: Quote)
    requires FromTick(past, o, q)
    ensures FromTick(past + [a], o, q)
  {
    var i :| 0 <= i < |past| && Brought(past[i], q) && Serves(past[i], o);
    assert (past + [a])[i] == past[i];
  }

  lemma LaterUnderKey(past: seq<Action>, a: Action, key: string, q: Quote)
    requires UnderKey(past, key, q)
    ensures UnderKey(past + [a], key, q)
  {
    var i :| 0 <= i < |past| && Brought(past[i], q) && Keys(past[i], key);
    assert (past + [a])[i] == past[i];
  }

  lemma LaterTick(past: seq<Action>, a: Action, db: Db, t: TickTask)
    requires TickSourced(past, db, t)
    ensures TickSourced(past + [a], db, t)
  {
    if !t.TickIdle? {
      var i :| 0 <= i < |past| && TickOfMessage(past[i], db, t);
      assert (past + [a])[i] == past[i];
    }
  }

  lemma LaterFills(past: seq<Action>, a: Action, w: World)
    requires FillsSourced(past, w)
    ensures FillsSourced(past + [a], w)
  {
    forall i | 0 <= i < |w.history.fills| ensures FillSourced(past + [a], w.db, w.history.fills[i]) {
      assert FillSourced(past, w.db, w.history.fills[i]);
      LaterFromTick(past, a, w.db.orders[w.history.fills[i].id], w.history.fills[i].quote);
    }
  }

  lemma LaterQuotes(past: seq<Action>, a: Action, w: World)
    requires QuotesSourced(past, w)
    ensures QuotesSourced(past + [a], w)
  {
    forall key | key in w.db.prices ensures UnderKey(past + [a], key, w.db.prices[key]) {
      LaterUnderKey(past, a, key, w.db.prices[key]);
    }
    forall key | key in w.cache.lastTicks ensures UnderKey(past + [a], key, w.cache.lastTicks[key]) {
      LaterUnderKey(past, a, key, w.cache.lastTicks[key]);
    }
  }

  lemma LaterPhase(past: seq<Action>, a: Action, ph: Option<Phase>)
    requires PhaseSourced(past, ph)
    ensures PhaseSourced(past + [a], ph)
  {
    if ph.Some? && ph.value.Script? { LaterFromTick(past, a, ph.value.o, ph.value.q); }
  }

  lemma Later(past: seq<Action>, a: Action, e: Engine)
    requires Sourced(past, e)
    ensures Sourced(past + [a], e)
  {
    LaterQuotes(past, a, e.w);
    LaterFills(past, a, e.w);
    LaterPhase(past, a, PlacePhase(e.place));
    LaterPhase(past, a, TickPhase(e.tick));
    LaterTick(past, a, e.w.db, e.tick);
  }

  /** Only symbol and group of an order matter. */
  lemma SameTermsSource(past: seq<Action>, o: Order, o': Order, q: Quote)
    requires SameTerms(o, o') && FromTick(past, o, q)
    ensures FromTick(past, o', q)
  {
    var i :| 0 <= i < |past| && Brought(past[i], q) && Serves(past[i], o);
    ServesSame(past[i], o, o');
  }

  lemma ServesSame(a: Action, o: Order, o': Order)
    requires o.symbol == o'.symbol && o.groupId == o'.groupId && Serves(a, o)
    ensures Serves(a, o')
  {
    var key := QuoteKey(NormalizeSymbol(a.symbol), a.group);
    if LooksUp(o, key) {
      var typed :| NormalizeSymbol(typed) == o.symbol && (key == QuoteKey(typed, o.groupId) || key == QuoteKey(typed, None));
      assert NormalizeSymbol(typed) == o'.symbol;
      assert LooksUp(o', key);
    }
  }

  lemma FillMoves(past: seq<Action>, db: Db, db': Db, f: Fill)
    requires FillSourced(past, db, f) && f.id in db'.orders && SameTerms(db.orders[f.id], db'.orders[f.id])
    ensures FillSourced(past, db', f)
  {
    SameTermsSource(past, db.orders[f.id], db'.orders[f.id], f.quote);
  }

  lemma FillsMove(past: seq<Action>, w: World, w': World)
    requires FillsSourced(past, w) && Moves(w.db, w'.db) && w'.history.fills == w.history.fills
    ensures FillsSourced(past, w')
  {
    forall i | 0 <= i < |w.history.fills| ensures FillSourced(past, w'.db, w.history.fills[i]) {
      assert FillSourced(past, w.db, w.history.fills[i]);
      assert OrderMoves(w.db.orders[w.history.fills[i].id], w'.db.orders[w.history.fills[i].id]);
      FillMoves(past, w.db, w'.db, w.history.fills[i]);
    }
  }

  lemma TickMoves(past: seq<Action>, db: Db, db': Db, t: TickTask, t': TickTask)
    requires TickSourced(past, db, t) && Moves(db, db')
    requires t'.TickIdle? || (!t.TickIdle? && t'.q == t.q && t'.group == t.group && forall id :: id in t'.ids ==> id in t.ids)
    requires (t'.Snapped? ==> t.Snapped? && t'.symbol == t.symbol) && (t'.Priced? ==> (t.Snapped? || t.Priced?) && t'.symbol == t.symbol)
    ensures TickSourced(past, db', t')
  {
    if !t'.TickIdle? {
      var i :| 0 <= i < |past| && TickOfMessage(past[i], db, t);
      forall id | id in t'.ids ensures id in db'.orders && db'.orders[id].symbol == NormalizeSymbol(past[i].symbol) {
        assert OrderMoves(db.orders[id], db'.orders[id]);
      }
      assert TickOfMessage(past[i], db', t');
    }
  }

  // ---------------------------------------------------------------- each step

  /** Filling and refusing: the one step that logs a fill is the script's, with the phase's own quote. */
  lemma PhaseStepSources(w: World, ph: Phase, fault: bool)
    ensures
      var (w', ph') := PhaseStep(w, ph, fault);
      && w'.db.prices == w.db.prices && w'.cache.lastTicks == w.cache.lastTicks
      && (ph'.Some? ==> !ph'.value.Script?)
      && (w'.history.fills == w.history.fills
          || (ph.Script? && ph.o.id in w'.db.orders
              && w'.history.fills == w.history.fills + [Fill(ph.o.id, SidePrice(ph.o.side, ph.q), ph.q)]))
  {
  }

  lemma PhaseFillsSourced(past: seq<Action>, w: World, ph: Phase, fault: bool)
    requires FillsSourced(past, w) && PhaseSourced(past, Some(ph)) && PhaseOk(w.db, ph) && Moves(w.db, PhaseStep(w, ph, fault).0.db)
    ensures FillsSourced(past, PhaseStep(w, ph, fault).0)
  {
    PhaseStepSources(w, ph, fault);
    var w' := PhaseStep(w, ph, fault).0;
    FillsMove(past, w, w'.(history := w.history));
    if w'.history.fills != w.history.fills {
      assert OrderMoves(w.db.orders[ph.o.id], w'.db.orders[ph.o.id]);
      SameTermsSource(past, ph.o, w'.db.orders[ph.o.id], ph.q);
      var fills := w.history.fills;
      forall i | 0 <= i < |fills| ensures FillSourced(past, w'.db, fills[i]) {
        assert FillSourced(past, w'.(history := w.history).db, fills[i]);
      }
    }
  }

  /** Whatever quote an immediate market fill finds was brought by a tick under a key of the order's. */
  lemma MarketQuoteSourced(past: seq<Action>, w: World, cmd: PlaceCommand)
    requires QuotesSourced(past, w) && MarketQuote(w, cmd).Some?
    ensures FromTick(past, MakeOrder(cmd), MarketQuote(w, cmd).value)
  {
    var q, o, norm := MarketQuote(w, cmd).value, MakeOrder(cmd), NormalizeSymbol(cmd.symbol);
    NormalizeIdempotent(cmd.symbol);
    if LastTick(w.cache, cmd.symbol, cmd.groupId).Some? {
      KeyServes(past, o, norm, cmd.groupId, q);
    } else if LastTick(w.cache, cmd.symbol, None).Some? {
      KeyServes(past, o, norm, None, q);
    } else if cmd.groupId.Some? && QuoteKey(cmd.symbol, cmd.groupId) in w.db.prices {
      KeyServes(past, o, cmd.symbol, cmd.groupId, q);
    } else {
      KeyServes(past, o, cmd.symbol, None, q);
    }
  }

  lemma KeyServes(past: seq<Action>, o: Order, typed: string, group: Option<string>, q: Quote)
    requires UnderKey(past, QuoteKey(typed, group), q)
    requires NormalizeSymbol(typed) == o.symbol && (group == o.groupId || group.None?)
    ensures FromTick(past, o, q)
  {
    var key := QuoteKey(typed, group);
    var i :| 0 <= i < |past| && Brought(past[i], q) && Keys(past[i], key);
    assert LooksUp(o, key);
    assert Serves(past[i], o);
  }

  lemma AcceptedSourced(past: seq<Action>, e: Engine, fault: bool)
    requires QuotesSourced(past, e.w) && e.place.Accepted?
    ensures PhaseSourced(past, PlacePhase(NextPlace(e, fault).place))
  {
    var q := MarketQuote(e.w, e.place.cmd);
    if q.Some? {
      MarketQuoteSourced(past, e.w, e.place.cmd);
      var ph := Attempt(MakeOrder(e.place.cmd), q.value);
    }
  }

  lemma PlaceElsewhere(e: Engine, fault: bool)
    requires !e.place.PlaceWork?
    ensures
      var e' := NextPlace(e, fault);
      && e'.w.db.prices == e.w.db.prices && e'.w.cache.lastTicks == e.w.cache.lastTicks
      && e'.w.history.fills == e.w.history.fills && e'.tick == e.tick
      && (!e.place.Accepted? ==> PlacePhase(e'.place).None?)
  {
  }

  lemma PlaceSourced(past: seq<Action>, e: Engine, fault: bool)
    requires Inv(e) && Sourced(past, e)
    ensures Sourced(past, NextPlace(e, fault))
  {
    var e' := NextPlace(e, fault);
    PlaceStepGood(e, fault);
    TickMoves(past, e.w.db, e'.w.db, e.tick, e.tick);
    if e.place.PlaceWork? {
      var failed := fault && !e.place.phase.Committed?;
      PhaseStepSources(e.w, e.place.phase, failed);
      PhaseFillsSourced(past, e.w, e.place.phase, failed);
    } else {
      PlaceElsewhere(e, fault);
      FillsMove(past, e.w, e'.w);
      if e.place.Accepted? { AcceptedSourced(past, e, fault); }
    }
  }

  lemma SnappedSourced(past: seq<Action>, e: Engine, fault: bool)
    requires QuotesSourced(past, e.w) && TickSourced(past, e.w.db, e.tick) && (e.tick.Snapped? || e.tick.Priced?)
    ensures QuotesSourced(past, NextTick(e, fault).w)
  {
    var t := e.tick;
    var i :| 0 <= i < |past| && TickOfMessage(past[i], e.w.db, t);
    NormalizeIdempotent(past[i].symbol);
    assert Keys(past[i], QuoteKey(t.symbol, t.group));
    assert UnderKey(past, QuoteKey(t.symbol, t.group), t.q);
  }

  lemma LoopSourced(past: seq<Action>, w: World, a: Option<Phase>, t: TickTask)
    requires CopiesOk(w, a, None) && TickSourced(past, w.db, t) && t.Looping? && t.ids != []
    ensures PhaseSourced(past, LoopAttempt(w, t.ids[0], t.group, t.q))
  {
    var id := t.ids[0];
    var ph := LoopAttempt(w, id, t.group, t.q);
    var i :| 0 <= i < |past| && TickOfMessage(past[i], w.db, t);
    if ph.Some? && ph.value.Script? {
      assert id in t.ids && SameTerms(w.cache.orders[id], w.db.orders[id]);
      assert Serves(past[i], w.cache.orders[id]);
      assert ph.value.o == w.cache.orders[id] && ph.value.q == t.q;
    }
  }

  lemma TickTaskSteps(e: Engine, fault: bool)
    ensures
      var t, t' := e.tick, NextTick(e, fault).tick;
      && (t'.TickIdle? || (!t.TickIdle? && t'.q == t.q && t'.group == t.group && forall id :: id in t'.ids ==> id in t.ids))
      && !(t'.Snapped? && !t.Snapped?) && (t'.Priced? ==> t.Snapped? && t'.symbol == t.symbol)
      && NextTick(e, fault).place == e.place
      && (t.Snapped? && t'.Snapped? ==> t'.symbol == t.symbol)
  {
  }

  lemma TickElsewhereSources(e: Engine, fault: bool)
    requires !e.tick.TickWork?
    ensures
      var e' := NextTick(e, fault);
      && e'.w.history.fills == e.w.history.fills
      && (!e.tick.Snapped? && !e.tick.Priced? ==> e'.w == e.w)
      && TickPhase(e'.tick) == if e.tick.Looping? && e.tick.ids != [] then LoopAttempt(e.w, e.tick.ids[0], e.tick.group, e.tick.q) else None
  {
  }

  lemma TickStepSourced(past: seq<Action>, e: Engine, fault: bool)
    requires Inv(e) && Sourced(past, e)
    ensures Sourced(past, NextTick(e, fault))
  {
    var e' := NextTick(e, fault);
    TickStepGood(e, fault);
    TickTaskSteps(e, fault);
    TickMoves(past, e.w.db, e'.w.db, e.tick, e'.tick);
    if e.tick.TickWork? {
      PhaseStepSources(e.w, e.tick.phase, fault);
      PhaseFillsSourced(past, e.w, e.tick.phase, fault);
    } else {
      TickElsewhereSources(e, fault);
      FillsMove(past, e.w, e'.w);
      if e.tick.Snapped? || e.tick.Priced? {
        SnappedSourced(past, e, fault);
      } else if e.tick.Looping? && e.tick.ids != [] {
        LoopSourced(past, e.w, PlacePhase(e.place), e.tick);
      }
    }
  }

  lemma ArrivesSourced(past: seq<Action>, e: Engine, a: Action)
    requires Inv(e) && Sourced(past, e) && a.TickArrives?
    ensures Sourced(past + [a], Next(e, a))
  {
    Later(past, a, e);
    var e' := Next(e, a);
    if e' != e {
      var sym := NormalizeSymbol(a.symbol);
      NormalizeIdempotent(a.symbol);
      ListedOfSymbol(e.w, sym, a.ids);
      assert (past + [a])[|past|] == a;
      assert TickOfMessage(a, e.w.db, e'.tick);
    }
  }

  lemma ListedOfSymbol(w: World, symbol: string, ids: seq<Id>)
    requires EntriesOk(w) && NormalizeSymbol(symbol) == symbol && Lists(ids, PendingIds(w.cache, symbol))
    ensures forall id :: id in ids ==> id in w.db.orders && w.db.orders[id].symbol == symbol
  {
    forall id | id in ids ensures id in w.db.orders && w.db.orders[id].symbol == symbol {
      assert id in PendingIds(w.cache, symbol);
    }
  }

  lemma RestSourced(past: seq<Action>, e: Engine, a: Action)
    requires Inv(e) && Admissible(e, a) && Sourced(past, e) && (a.PlaceArrives? || a.CancelArrives? || a.CancelStep? || a.Restart?)
    ensures Sourced(past, Next(e, a))
  {
    var e' := Next(e, a);
    assert Moves(e.w.db, e'.w.db) by { NextGood(e, a); }
    RestIs(e, a);
    RestMoves(past, e, e');
  }

  /** These actions bring no quote and log no fill. */
  ghost predicate BringsNothing(e: Engine, e': Engine) {
    && (e'.tick == e.tick || e'.tick.TickIdle?)
    && (PlacePhase(e'.place) == PlacePhase(e.place) || PlacePhase(e'.place).None?)
    && e'.w.history.fills == e.w.history.fills && e'.w.db.prices == e.w.db.prices
    && (e'.w.cache.lastTicks == e.w.cache.lastTicks || e'.w.cache.lastTicks == map[])
  }

  lemma RestIs(e: Engine, a: Action)
    requires a.PlaceArrives? || a.CancelArrives? || a.CancelStep? || a.Restart?
    ensures BringsNothing(e, Next(e, a))
  {
  }

  lemma RestMoves(past: seq<Action>, e: Engine, e': Engine)
    requires Sourced(past, e) && BringsNothing(e, e') && Moves(e.w.db, e'.w.db)
    ensures Sourced(past, e')
  {
    TickMoves(past, e.w.db, e'.w.db, e.tick, e'.tick);
    FillsMove(past, e.w, e'.w);
  }

  lemma NextSourced(past: seq<Action>, e: Engine, a: Action)
    requires Inv(e) && Admissible(e, a) && Sourced(past, e)
    ensures Sourced(past + [a], Next(e, a))
  {
    match a
    case TickArrives(_, _, _, _) => ArrivesSourced(past, e, a);
    case PlaceStep(fault) =>
      PlaceSourced(past, e, fault);
      Later(past, a, Next(e, a));
    case TickStep(fault) =>
      TickStepSourced(past, e, fault);
      Later(past, a, Next(e, a));
    case _ =>
      RestSourced(past, e, a);
      Later(past, a, Next(e, a));
  }

  lemma StepSourced(past: seq<Action>, e: Engine, a: Action)
    requires Inv(e) && Admissible(e, a) && Sourced(past, e)
    ensures Inv(Next(e, a)) && Sourced(past + [a], Next(e, a))
  {
    NextGood(e, a);
    NextSourced(past, e, a);
  }

  lemma Regroup(past: seq<Action>, actions: seq<Action>)
    ensures actions == [] ==> past + actions == past
    ensures actions != [] ==> past + actions == past + [actions[0]] + actions[1..]
  {
  }

  /** `all` is the whole run, `past` the part of it that led to `e`. */
  lemma {:induction false} RunSourced(all: seq<Action>, past: seq<Action>, e: Engine, actions: seq<Action>)
    requires Inv(e) && AdmissibleRun(e, actions) && Sourced(past, e) && all == past + actions
    ensures Sourced(all, Run(e, actions))
    decreases |actions|
  {
    Regroup(past, actions);
    if actions != [] {
      StepSourced(past, e, actions[0]);
      RunSourced(all, past + [actions[0]], Next(e, actions[0]), actions[1..]);
    }
  }

  /** Every filled order in every reachable state was filled at its side of a quote that a tick message
      of the run brought for it. */
  lemma FilledOrdersQuoted(actions: seq<Action>, id: Id)
    requires AdmissibleRun(FRESH, actions) && Status(Run(FRESH, actions).w.db, id, OrderStatus.Filled)
    ensures
      var o := Run(FRESH, actions).w.db.orders[id];
      o.averageFillPrice.Some?
      && exists q :: FromTick(actions, o, q) && o.averageFillPrice.value == SidePrice(o.side, q)
  {
    FreshGood();
    FreshSourced();
    RunGood(FRESH, actions);
    assert actions == [] + actions;
    RunSourced(actions, [], FRESH, actions);
    FilledFrom(actions, Run(FRESH, actions).w, id);
  }

  lemma FreshSourced()
    ensures Sourced([], FRESH)
  {
  }

  lemma FilledFrom(past: seq<Action>, w: World, id: Id)
    requires FillsOk(w) && FillsSourced(past, w) && Status(w.db, id, OrderStatus.Filled)
    ensures
      var o := w.db.orders[id];
      o.averageFillPrice.Some? && exists q :: FromTick(past, o, q) && o.averageFillPrice.value == SidePrice(o.side, q)
  {
    var i :| 0 <= i < |w.history.fills| && w.history.fills[i].id == id;
    assert FillOk(w.db, w.history.fills[i]) && FillSourced(past, w.db, w.history.fills[i]);
  }

  // ---------------------------------------------------------------- shared keys

  function GroupText(group: Option<string>): string {
    if group.Some? then group.value else ""
  }

  /** The longer symbol runs on, past a colon, into what the shorter one's group is. */
  predicate RunsInto(s: string, g: string, s': string, g': string) {
    |s| < |s'| && s'[..|s|] == s && s'[|s|] == ':' && g == s'[|s| + 1..] + ":" + g'
  }

  /** Two quotes share a key exactly when symbol and group are the same, an empty group counting as none,
      or when a colon in one symbol makes it run into the other's group. */
  lemma SharedKeyIff(s: string, group: Option<string>, s': string, group': Option<string>)
    ensures QuoteKey(s, group) == QuoteKey(s', group')
            <==> (s == s' && GroupText(group) == GroupText(group'))
                 || RunsInto(s, GroupText(group), s', GroupText(group'))
                 || RunsInto(s', GroupText(group'), s, GroupText(group))
  {
    var g, g' := GroupText(group), GroupText(group');
    assert QuoteKey(s, group) == s + ":" + g && QuoteKey(s', group') == s' + ":" + g';
    if |s| == |s'| {
      SameLength(s, g, s', g');
    } else if |s| < |s'| {
      ShorterRunsInto(s, g, s', g');
    } else {
      ShorterRunsInto(s', g', s, g);
    }
  }

  lemma SameLength(s: string, g: string, s': string, g': string)
    requires |s| == |s'|
    ensures s + ":" + g == s' + ":" + g' <==> s == s' && g == g'
  {
    var a, b := s + ":" + g, s' + ":" + g';
    assert a[..|s|] == s && b[..|s|] == s' && a[|s| + 1..] == g && b[|s| + 1..] == g';
  }

  lemma ShorterRunsInto(s: string, g: string, s': string, g': string)
    requires |s| < |s'|
    ensures s + ":" + g == s' + ":" + g' <==> RunsInto(s, g, s', g')
  {
    var a, b := s + ":" + g, s' + ":" + g';
    assert a[..|s|] == s && a[|s|] == ':' && a[|s| + 1..] == g;
    assert b[..|s|] == s'[..|s|] && b[|s|] == s'[|s|];
    assert b[|s| + 1..] == s'[|s| + 1..] + ":" + g';
    if RunsInto(s, g, s', g') {
      assert a == a[..|s|] + [a[|s|]] + a[|s| + 1..];
      assert b == b[..|s|] + [b[|s|]] + b[|s| + 1..];
    }
  }

  /** A colon survives normalising, so a normal-form symbol without one was typed without one. */
  lemma {:induction false} TrimStartColon(s: string)
    ensures ':' in s <==> ':' in TrimStart(s)
  {
    if s != "" && IsSpace(s[0]) {
      TrimStartColon(s[1..]);
      assert s == [s[0]] + s[1..];
    }
  }

  lemma {:induction false} TrimEndColon(s: string)
    ensures ':' in s <==> ':' in TrimEnd(s)
  {
    if s != "" && IsSpace(s[|s| - 1]) {
      TrimEndColon(s[..|s| - 1]);
      assert s == s[..|s| - 1] + [s[|s| - 1]];
    }
  }

  lemma NormalColon(s: string)
    ensures ':' in s <==> ':' in NormalizeSymbol(s)
  {
    TrimStartColon(s);
    TrimEndColon(TrimStart(s));
    var t := Trim(s);
    if ':' in t { var i :| 0 <= i < |t| && t[i] == ':'; assert Upper(t)[i] == ':'; }
    if ':' in Upper(t) { var i :| 0 <= i < |t| && Upper(t)[i] == ':'; assert t[i] == ':'; }
  }

  /** Where neither the order's symbol nor the tick's has a colon, the quote is of the order's own symbol
      and of its own group, of no group, or, in the tick loop, of any group if the order has none. */
  lemma OwnQuoteUnlessColon(a: Action, o: Order)
    requires Serves(a, o) && ':' !in o.symbol && ':' !in NormalizeSymbol(a.symbol)
    ensures NormalizeSymbol(a.symbol) == o.symbol
    ensures o.groupId.None? || GroupText(a.group) == "" || GroupText(a.group) == GroupText(o.groupId)
  {
    var sym := NormalizeSymbol(a.symbol);
    if !(sym == o.symbol && Eligible(o, a.group)) {
      var key := QuoteKey(sym, a.group);
      var typed :| NormalizeSymbol(typed) == o.symbol && (key == QuoteKey(typed, o.groupId) || key == QuoteKey(typed, None));
      NormalColon(typed);
      SharedKeyIff(sym, a.group, typed, o.groupId);
      SharedKeyIff(sym, a.group, typed, None);
      NormalizeIdempotent(a.symbol);
    }
  }
}
