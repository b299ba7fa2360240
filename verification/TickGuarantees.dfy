/** What one tick, run to its end, does to every order. */
module TickGuarantees {
  import opened Contracts
  import opened Symbols
  import opened Orders
  import opened OrderCaches
  import opened RedisStores
  import opened EngineSteps
  import opened EngineInvariant
  import opened EngineSafety
  import opened EngineTheorems
  import opened HandlerRuns
  import opened Handlers

  ghost predicate Rests(w: World) {
    Inv(Resting(w))
  }

  // ---------------------------------------------------------------- one order

  lemma {:induction false} FinishPhaseGood(w: World, ph: Phase, unpublished: bool)
    requires Good(w, Some(ph), None, CancelIdle, PlaceIdle)
    ensures Rests(FinishPhase(w, ph, unpublished))
    decreases PhaseRank(ph)
  {
    var fault := PublishFails(ph, unpublished);
    PhaseStepGood(w, ph, fault, None, CancelIdle, PlaceIdle);
    var (w', ph') := PhaseStep(w, ph, fault);
    if ph'.Some? { FinishPhaseGood(w', ph'.value, unpublished); }
  }

  /** The stored record of an order after the loop has tried it. */
  function TriedRecord(o: Order, ph: Option<Phase>, q: Quote, unpublished: bool): Order {
    if ph.None? then o
    else if ph.value.Script? then (if o.status == Pending then AsFilled(o, SidePrice(o.side, q)) else o)
    else if unpublished then o else ph.value.o.(status := Rejected)
  }

  /** Whether trying it takes the order out of the cache. */
  predicate Evicted(o: Order, ph: Option<Phase>, unpublished: bool) {
    && ph.Some?
    && if ph.value.Script? then (o.status == Pending && !unpublished) || o.status == OrderStatus.Filled else !unpublished
  }

  lemma TryOneRests(w: World, id: Id, group: Option<string>, q: Quote, unpublished: bool)
    requires Rests(w) && GoodQuote(q) && LoopAttempt(w, id, group, q).Some?
    ensures
      var ph := LoopAttempt(w, id, group, q).value;
      PhaseOk(w.db, ph) && Rests(FinishPhase(w, ph, unpublished))
  {
    LoopAttemptOk(w, None, id, group, q);
    var ph := LoopAttempt(w, id, group, q);
    TaskSwapped(w, None, ph, None, CancelIdle, CancelIdle, PlaceIdle);
    FinishPhaseGood(w, ph.value, unpublished);
  }

  lemma LoopAttemptIs(w: World, id: Id, group: Option<string>, q: Quote)
    requires CopiesOk(w, None, None) && LoopAttempt(w, id, group, q).Some?
    ensures
      var ph := LoopAttempt(w, id, group, q).value;
      && ph.o.id == id && id in w.db.orders && id in w.cache.orders
      && (ph.Refusing? || (ph.Script? && ph.q == q))
  {
  }

  lemma TryOne(w: World, id: Id, group: Option<string>, q: Quote, unpublished: bool)
    requires Rests(w) && GoodQuote(q) && LoopAttempt(w, id, group, q).Some?
    ensures
      var ph := LoopAttempt(w, id, group, q);
      var w' := FinishPhase(w, ph.value, unpublished);
      && ph.value.o.id == id && id in w.db.orders && id in w.cache.orders
      && Rests(w')
      && w'.db.orders == w.db.orders[id := TriedRecord(w.db.orders[id], ph, q, unpublished)]
      && w'.cache.orders == (if Evicted(w.db.orders[id], ph, unpublished) then w.cache.orders - {id} else w.cache.orders)
  {
    TryOneRests(w, id, group, q, unpublished);
    LoopAttemptIs(w, id, group, q);
    PhaseDone(w, LoopAttempt(w, id, group, q).value, q, unpublished);
  }

  lemma PhaseDone(w: World, ph: Phase, q: Quote, unpublished: bool)
    requires PhaseOk(w.db, ph) && (ph.Refusing? || (ph.Script? && ph.q == q))
    ensures
      var w', id := FinishPhase(w, ph, unpublished), ph.o.id;
      && id in w.db.orders
      && w'.db.orders == w.db.orders[id := TriedRecord(w.db.orders[id], Some(ph), q, unpublished)]
      && w'.cache.orders == (if Evicted(w.db.orders[id], Some(ph), unpublished) then w.cache.orders - {id} else w.cache.orders)
  {
    if ph.Refusing? {
      TriedRefusal(w, ph.o, unpublished);
    } else {
      TriedScript(w, ph.o, q, ph.leverage, unpublished);
    }
  }

  lemma TriedRefusal(w: World, o: Order, unpublished: bool)
    ensures
      var w' := FinishPhase(w, Refusing(o), unpublished);
      && w'.db.orders == (if unpublished then w.db.orders else w.db.orders[o.id := o.(status := Rejected)])
      && w'.cache.orders == (if unpublished then w.cache.orders else w.cache.orders - {o.id})
  {
    if !unpublished { FinishRefusing(w, o); }
  }

  lemma TriedScript(w: World, o: Order, q: Quote, leverage: real, unpublished: bool)
    requires PhaseOk(w.db, Script(o, q, leverage))
    ensures
      var w' := FinishPhase(w, Script(o, q, leverage), unpublished);
      var record, ph := w.db.orders[o.id], Some(Script(o, q, leverage));
      && w'.db.orders == w.db.orders[o.id := TriedRecord(record, ph, q, unpublished)]
      && w'.cache.orders == (if Evicted(record, ph, unpublished) then w.cache.orders - {o.id} else w.cache.orders)
  {
    var (w1, ph1) := PhaseStep(w, Script(o, q, leverage), false);
    if ph1.Some? {
      assert FinishPhase(w, Script(o, q, leverage), unpublished) == FinishPhase(w1, ph1.value, unpublished);
      if ph1.value.Committed? {
        FinishCommitted(w1, o, q, unpublished);
      } else {
        FinishSync(w1, o, q, unpublished);
      }
    }
  }

  // ---------------------------------------------------------------- the whole loop

  /** What the loop attempts on each order, judged from the cache as the loop found it. */
  type Attempts = Id -> Option<Phase>

  ghost function AttemptsIn(w: World, group: Option<string>, q: Quote): Attempts {
    (id: Id) => LoopAttempt(w, id, group, q)
  }

  /** The loop treats each order by itself, so what becomes of its record does not depend on the order
      in which the cache lists the ids. */
  ghost predicate Records(w: World, w': World, tries: Attempts, q: Quote, ids: seq<Id>, unpublished: set<Id>) {
    && w'.db.orders.Keys == w.db.orders.Keys
    && forall id :: id in w.db.orders ==>
         w'.db.orders[id] == if id in ids then TriedRecord(w.db.orders[id], tries(id), q, id in unpublished)
                             else w.db.orders[id]
  }

  /** The same for the cached copies: nothing is added, and evicted orders are gone. */
  ghost predicate Copies(w: World, w': World, tries: Attempts, ids: seq<Id>, unpublished: set<Id>) {
    forall id :: id in w'.cache.orders <==>
      id in w.cache.orders && !(id in ids && id in w.db.orders && Evicted(w.db.orders[id], tries(id), id in unpublished))
  }

  ghost predicate SameCopies(w: World, w': World) {
    forall id :: id in w'.cache.orders ==> id in w.cache.orders && w'.cache.orders[id] == w.cache.orders[id]
  }

  /** One turn of the loop, seen from outside. */
  ghost predicate Turn(w: World, w1: World, id: Id, ph: Option<Phase>, q: Quote, unpublished: bool) {
    && (ph.Some? ==> id in w.db.orders)
    && w1.db.orders == (if ph.Some? then w.db.orders[id := TriedRecord(w.db.orders[id], ph, q, unpublished)] else w.db.orders)
    && w1.cache.orders == (if ph.Some? && Evicted(w.db.orders[id], ph, unpublished) then w.cache.orders - {id} else w.cache.orders)
  }

  lemma RecordsCompose(w: World, w1: World, w': World, tries: Attempts, tries1: Attempts, q: Quote, id: Id, rest: seq<Id>, unpublished: set<Id>)
    requires id !in rest && Turn(w, w1, id, tries(id), q, id in unpublished)
    requires forall k :: k in rest ==> tries1(k) == tries(k)
    requires Records(w1, w', tries1, q, rest, unpublished)
    ensures Records(w, w', tries, q, [id] + rest, unpublished)
  {
    forall k | k in w.db.orders
      ensures w'.db.orders[k] == if k in [id] + rest then TriedRecord(w.db.orders[k], tries(k), q, k in unpublished)
                                 else w.db.orders[k]
    {
      if k != id { assert w1.db.orders[k] == w.db.orders[k]; }
    }
  }

  lemma CopiesCompose(w: World, w1: World, w': World, tries: Attempts, tries1: Attempts, q: Quote, id: Id, rest: seq<Id>, unpublished: set<Id>)
    requires id !in rest && Turn(w, w1, id, tries(id), q, id in unpublished)
    requires forall k :: k in rest ==> tries1(k) == tries(k)
    requires Copies(w1, w', tries1, rest, unpublished)
    ensures Copies(w, w', tries, [id] + rest, unpublished)
  {
    assert forall k :: k != id ==> (k in w1.db.orders <==> k in w.db.orders);
    assert forall k :: k != id && k in w.db.orders ==> w1.db.orders[k] == w.db.orders[k];
    assert forall k :: k != id ==> (k in w1.cache.orders <==> k in w.cache.orders);
    assert forall k :: k in [id] + rest <==> k == id || k in rest;
  }

  /** What the loop attempts on the remaining orders is not affected by the turn. */
  lemma OthersUntouched(w: World, w1: World, id: Id, ph: Option<Phase>, group: Option<string>, q: Quote, k: Id, unpublished: bool)
    requires Turn(w, w1, id, ph, q, unpublished) && k != id
    ensures LoopAttempt(w1, k, group, q) == LoopAttempt(w, k, group, q)
  {
    assert k in w1.cache.orders <==> k in w.cache.orders;
    assert k in w.cache.orders ==> w1.cache.orders[k] == w.cache.orders[k];
  }

  lemma LoopTurn(w: World, group: Option<string>, q: Quote, id: Id, rest: seq<Id>, unpublished: set<Id>) returns (w1: World)
    requires Rests(w) && GoodQuote(q)
    ensures Rests(w1) && Turn(w, w1, id, LoopAttempt(w, id, group, q), q, id in unpublished)
    ensures FinishTick(Ticking(w, Looping(group, q, [id] + rest)), unpublished)
         == FinishTick(Ticking(w1, Looping(group, q, rest)), unpublished)
  {
    TickTurn(w, group, q, id, rest, unpublished);
    var ph := LoopAttempt(w, id, group, q);
    if ph.None? {
      w1 := w;
    } else {
      TryOne(w, id, group, q, id in unpublished);
      w1 := FinishPhase(w, ph.value, id in unpublished);
    }
  }

  lemma {:induction false} LoopDecides(w: World, group: Option<string>, q: Quote, ids: seq<Id>, unpublished: set<Id>)
    requires Rests(w) && GoodQuote(q)
    requires forall i, j :: 0 <= i < j < |ids| ==> ids[i] != ids[j]
    ensures
      var w' := FinishTick(Ticking(w, Looping(group, q, ids)), unpublished).w;
      && Rests(w')
      && Records(w, w', AttemptsIn(w, group, q), q, ids, unpublished)
      && Copies(w, w', AttemptsIn(w, group, q), ids, unpublished)
      && SameCopies(w, w')
    decreases |ids|
  {
    if ids == [] {
      LoopEnds(w, group, q, unpublished);
    } else {
      var id, rest := ids[0], ids[1..];
      assert ids == [id] + rest;
      var w1 := LoopTurn(w, group, q, id, rest, unpublished);
      LoopDecides(w1, group, q, rest, unpublished);
      var w' := FinishTick(Ticking(w, Looping(group, q, ids)), unpublished).w;
      var tries, tries1 := AttemptsIn(w, group, q), AttemptsIn(w1, group, q);
      forall k | k in rest ensures tries1(k) == tries(k) {
        OthersUntouched(w, w1, id, tries(id), group, q, k, id in unpublished);
      }
      RecordsCompose(w, w1, w', tries, tries1, q, id, rest, unpublished);
      CopiesCompose(w, w1, w', tries, tries1, q, id, rest, unpublished);
    }
  }

  lemma LoopEnds(w: World, group: Option<string>, q: Quote, unpublished: set<Id>)
    ensures FinishTick(Ticking(w, Looping(group, q, [])), unpublished) == Resting(w)
  {
    assert FinishTick(Ticking(w, Looping(group, q, [])), unpublished) == FinishTick(Ticking(w, TickIdle), unpublished);
  }

  // ---------------------------------------------------------------- the whole tick

  /** The orders a tick looks at: the cache's index, told from the stored records. */
  predicate Listed(w: World, id: Id) {
    (Status(w.db, id, Pending) && !LeftOut(w, id)) || id in w.history.stale
  }

  ghost predicate Resolves(o: Order, q: Quote) {
    var leverage := LeverageOf(o, SidePrice(o.side, q));
    leverage.Some? && leverage.value > 0.0
  }

  predicate Slips(o: Order, q: Quote) {
    o.orderType.Market? && SlippageOf(o, SidePrice(o.side, q)).Exceeded?
  }

  /** The tick tries the order: told from the stored record alone. */
  ghost predicate Tries(w: World, id: Id, symbol: string, group: Option<string>, q: Quote) {
    && id in w.db.orders && Listed(w, id)
    && var o := w.db.orders[id];
       o.symbol == symbol && Eligible(o, group) && Crossed(o, q) && Resolves(o, q)
  }

  function AsRejected(o: Order): Order {
    o.(status := Rejected, filledSize := 0.0, averageFillPrice := None)
  }

  function AfterTrial(o: Order, q: Quote, unpublished: bool): Order {
    if Slips(o, q) then (if unpublished then o else AsRejected(o))
    else if o.status == Pending then AsFilled(o, SidePrice(o.side, q))
    else o
  }

  /** A pending copy is attempted like the record it was taken from. */
  lemma AttemptOnCopy(copy: Order, o: Order, q: Quote)
    requires SameTerms(copy, o) && copy.status == Pending && copy.filledSize == 0.0 && copy.averageFillPrice == None
    ensures Attempt(copy, q).Some? <==> Resolves(o, q)
    ensures Attempt(copy, q).Some? ==> (Attempt(copy, q).value.Refusing? <==> Slips(o, q))
    ensures Attempt(copy, q).Some? ==> Attempt(copy, q).value.Refusing? || Attempt(copy, q).value.Script?
    ensures Attempt(copy, q).Some? ==> Attempt(copy, q).value.o == copy
    ensures copy.(status := Rejected) == AsRejected(o)
  {
    SameLeverage(copy, o, SidePrice(o.side, q));
    SameSlippage(copy, o, SidePrice(o.side, q));
  }

  lemma SameLeverage(a: Order, b: Order, price: real)
    requires SameTerms(a, b)
    ensures LeverageOf(a, price) == LeverageOf(b, price)
  {
    assert Notional(a, price) == Notional(b, price);
  }

  lemma SameSlippage(a: Order, b: Order, price: real)
    requires SameTerms(a, b)
    ensures SlippageOf(a, price) == SlippageOf(b, price)
  {
  }

  lemma ListedIs(w: World, symbol: string, id: Id)
    requires Rests(w) && NormalizeSymbol(symbol) == symbol
    ensures id in PendingIds(w.cache, symbol) <==> id in w.db.orders && Listed(w, id) && w.db.orders[id].symbol == symbol
    ensures id in w.db.orders ==> (Listed(w, id) <==> id in w.cache.orders)
  {
    CacheAtRest(Resting(w));
  }

  lemma CopyIs(w: World, id: Id)
    requires Rests(w) && id in w.cache.orders
    ensures id in w.db.orders && PendingCopy(w.db, w.cache.orders[id])
    ensures w.cache.orders[id].id == id && SameTerms(w.cache.orders[id], w.db.orders[id])
  {
  }

  lemma TickDecides(w: World, symbol: string, group: Option<string>, q: Quote, ids: seq<Id>, unpublished: set<Id>)
    requires Rests(w) && GoodQuote(q) && Lists(ids, PendingIds(w.cache, symbol))
    ensures
      var w' := FinishTick(TickTaken(w, symbol, group, q, ids), unpublished).w;
      && Rests(w')
      && Records(w, w', AttemptsIn(w, group, q), q, ids, unpublished)
      && Copies(w, w', AttemptsIn(w, group, q), ids, unpublished)
      && SameCopies(w, w')
  {
    if !TickTaken(w, symbol, group, q, ids).tick.TickIdle? {
      TickStarts(w, symbol, group, q, ids, unpublished);
      var w1 := w.(db := w.db.(prices := w.db.prices[QuoteKey(symbol, group) := q]));
      PricesGood(w, QuoteKey(symbol, group), q, None, CancelIdle, PlaceIdle);
      TicksGood(w1, symbol, group, q, None, CancelIdle, PlaceIdle);
      var w2 := w1.(cache := UpdateTick(w1.cache, symbol, group, q));
      LoopDecides(w2, group, q, ids, unpublished);
      SameStart(w, w2, group, q, ids, unpublished);
    }
  }

  /** Recording the quote changes nothing the loop goes by. */
  lemma SameStart(w: World, w2: World, group: Option<string>, q: Quote, ids: seq<Id>, unpublished: set<Id>)
    requires w2.db.orders == w.db.orders && w2.cache.orders == w.cache.orders
    ensures
      var w' := FinishTick(Ticking(w2, Looping(group, q, ids)), unpublished).w;
      && (Records(w2, w', AttemptsIn(w2, group, q), q, ids, unpublished) ==> Records(w, w', AttemptsIn(w, group, q), q, ids, unpublished))
      && (Copies(w2, w', AttemptsIn(w2, group, q), ids, unpublished) ==> Copies(w, w', AttemptsIn(w, group, q), ids, unpublished))
      && (SameCopies(w2, w') ==> SameCopies(w, w'))
  {
    assert forall id :: AttemptsIn(w2, group, q)(id) == AttemptsIn(w, group, q)(id);
  }

  /** One tick, run to its end, decided order by order from the stored records alone: which records it
      changes and how, and which orders it takes out of the cache. */
  lemma TickExact(w: World, symbol: string, group: Option<string>, q: Quote, ids: seq<Id>, unpublished: set<Id>, id: Id)
    requires Rests(w) && GoodQuote(q) && NormalizeSymbol(symbol) == symbol && Lists(ids, PendingIds(w.cache, symbol))
    requires id in w.db.orders
    ensures
      var w' := FinishTick(TickTaken(w, symbol, group, q, ids), unpublished).w;
      var o := w.db.orders[id];
      && id in w'.db.orders
      && w'.db.orders[id] == (if Tries(w, id, symbol, group, q) then AfterTrial(o, q, id in unpublished) else o)
      && (id in w'.cache.orders <==> Listed(w, id) && !(Tries(w, id, symbol, group, q) && Leaves(o, q, id in unpublished)))
  {
    TickDecides(w, symbol, group, q, ids, unpublished);
    ListedIs(w, symbol, id);
    var ph := LoopAttempt(w, id, group, q);
    if id in ids {
      CopyIs(w, id);
      TrialIs(w.cache.orders[id], w.db.orders[id], group, q, id in unpublished);
      assert ph.Some? <==> Tries(w, id, symbol, group, q);
    }
  }

  /** Trying the order takes it out of the cache. */
  predicate Leaves(o: Order, q: Quote, unpublished: bool) {
    if Slips(o, q) then !unpublished else (o.status == Pending && !unpublished) || o.status == OrderStatus.Filled
  }

  lemma TrialIs(copy: Order, o: Order, group: Option<string>, q: Quote, unpublished: bool)
    requires SameTerms(copy, o) && copy.status == Pending && copy.filledSize == 0.0 && copy.averageFillPrice == None
    ensures Fillable(copy, group, q) <==> Eligible(o, group) && Crossed(o, q)
    ensures Attempt(copy, q).Some? <==> Resolves(o, q)
    ensures Attempt(copy, q).Some? ==> TriedRecord(o, Attempt(copy, q), q, unpublished) == AfterTrial(o, q, unpublished)
    ensures Attempt(copy, q).Some? ==> (Evicted(o, Attempt(copy, q), unpublished) <==> Leaves(o, q, unpublished))
  {
    AttemptOnCopy(copy, o, q);
  }

  /** The tick is for the limit order, crosses its limit, and its leverage resolves. */
  ghost predicate Due(o: Order, symbol: string, group: Option<string>, q: Quote) {
    o.orderType.Limit? && o.symbol == symbol && Eligible(o, group) && Crossed(o, q) && Resolves(o, q)
  }

  /** After a tick a pending limit order that was due by it is still pending exactly if the cache had left
      it out, being unqueued or overlooked by start-up; and an order that was for another symbol or group,
      or not crossed, is as it was. */
  lemma CrossedOrderRestsIff(w: World, symbol: string, group: Option<string>, q: Quote, ids: seq<Id>, unpublished: set<Id>)
    requires Rests(w) && GoodQuote(q) && NormalizeSymbol(symbol) == symbol && Lists(ids, PendingIds(w.cache, symbol))
    ensures
      var w' := FinishTick(TickTaken(w, symbol, group, q, ids), unpublished).w;
      && w'.db.orders.Keys == w.db.orders.Keys
      && (forall id :: Status(w.db, id, Pending) && Due(w.db.orders[id], symbol, group, q) ==>
            (Status(w'.db, id, Pending) <==> LeftOut(w, id)))
      && (forall id :: Status(w'.db, id, Pending) && Due(w'.db.orders[id], symbol, group, q) ==> LeftOut(w, id))
      && (forall id :: id in w.db.orders ==>
            var o := w.db.orders[id];
            o.symbol != symbol || !Eligible(o, group) || !Crossed(o, q) ==> w'.db.orders[id] == o)
  {
    TickDecides(w, symbol, group, q, ids, unpublished);
    var w' := FinishTick(TickTaken(w, symbol, group, q, ids), unpublished).w;
    forall id | id in w.db.orders ensures RestsUncrossed(w, w', id, symbol, group, q) {
      OneOrderRests(w, symbol, group, q, ids, unpublished, id);
    }
    forall id | Status(w'.db, id, Pending) && Due(w'.db.orders[id], symbol, group, q) ensures LeftOut(w, id) {
      assert id in w'.db.orders.Keys;
      assert RestsUncrossed(w, w', id, symbol, group, q);
    }
    forall id | id in w.db.orders
      ensures
        var o := w.db.orders[id];
        o.symbol != symbol || !Eligible(o, group) || !Crossed(o, q) ==> w'.db.orders[id] == o
    {
      assert RestsUncrossed(w, w', id, symbol, group, q);
    }
    forall id | Status(w.db, id, Pending) && Due(w.db.orders[id], symbol, group, q)
      ensures Status(w'.db, id, Pending) <==> LeftOut(w, id)
    {
      assert RestsUncrossed(w, w', id, symbol, group, q);
    }
  }

  ghost predicate RestsUncrossed(w: World, w': World, id: Id, symbol: string, group: Option<string>, q: Quote)
    requires id in w.db.orders
  {
    && id in w'.db.orders
    && var o, o' := w.db.orders[id], w'.db.orders[id];
       && (o.symbol != symbol || !Eligible(o, group) || !Crossed(o, q) ==> o' == o)
       && (o.status == Pending && Due(o, symbol, group, q) ==> (o'.status == Pending <==> LeftOut(w, id)))
       && (o'.status == Pending && Due(o', symbol, group, q) ==> o.status == Pending && Due(o, symbol, group, q))
  }

  lemma OneOrderRests(w: World, symbol: string, group: Option<string>, q: Quote, ids: seq<Id>, unpublished: set<Id>, id: Id)
    requires Rests(w) && GoodQuote(q) && NormalizeSymbol(symbol) == symbol && Lists(ids, PendingIds(w.cache, symbol))
    requires id in w.db.orders
    ensures RestsUncrossed(w, FinishTick(TickTaken(w, symbol, group, q, ids), unpublished).w, id, symbol, group, q)
  {
    TickExact(w, symbol, group, q, ids, unpublished, id);
    if w.db.orders[id].status == Pending { StaleNotPending(w, id); }
  }

  lemma StaleNotPending(w: World, id: Id)
    requires Rests(w) && Status(w.db, id, Pending)
    ensures id !in w.history.stale
  {
  }

  /** A cache entry left behind by a fill whose events went unpublished: the next tick that would fill
      it again finds it filled, leaves the record alone and takes the entry out. An entry left behind
      by a cancel is only taken out by a slipping tick (which see) or by a restart. */
  lemma StaleEntryHealed(w: World, symbol: string, group: Option<string>, q: Quote, ids: seq<Id>, unpublished: set<Id>, id: Id)
    requires Rests(w) && GoodQuote(q) && NormalizeSymbol(symbol) == symbol && Lists(ids, PendingIds(w.cache, symbol))
    requires id in w.history.stale && Tries(w, id, symbol, group, q) && !Slips(w.db.orders[id], q)
    ensures
      var w' := FinishTick(TickTaken(w, symbol, group, q, ids), unpublished).w;
      && id in w'.db.orders
      && w'.db.orders[id] == w.db.orders[id]
      && (id in w'.cache.orders <==> w.db.orders[id].status != OrderStatus.Filled)
      && (id in w'.history.stale <==> w.db.orders[id].status != OrderStatus.Filled)
  {
    TickDecides(w, symbol, group, q, ids, unpublished);
    TickExact(w, symbol, group, q, ids, unpublished, id);
    CacheAtRest(Resting(w));
    assert Finished(w.db, id);
    var w' := FinishTick(TickTaken(w, symbol, group, q, ids), unpublished).w;
    CacheAtRest(Resting(w'));
  }

  /** The stored rejection of a market order that had already been filled or cancelled: a tick run
      without interruption writes it exactly for a stale entry whose fill price would slip now. */
  ghost predicate Overwrites(w: World, id: Id, symbol: string, group: Option<string>, q: Quote, unpublished: set<Id>) {
    && id in w.history.stale && id !in unpublished
    && Tries(w, id, symbol, group, q) && Slips(w.db.orders[id], q)
    && w.db.orders[id].status != Rejected
  }

  lemma TickOverwritesIff(w: World, symbol: string, group: Option<string>, q: Quote, ids: seq<Id>, unpublished: set<Id>, id: Id)
    requires Rests(w) && GoodQuote(q) && NormalizeSymbol(symbol) == symbol && Lists(ids, PendingIds(w.cache, symbol))
    requires Finished(w.db, id)
    ensures
      var w' := FinishTick(TickTaken(w, symbol, group, q, ids), unpublished).w;
      && id in w'.db.orders
      && (w'.db.orders[id] != w.db.orders[id] <==> Overwrites(w, id, symbol, group, q, unpublished))
      && (w'.db.orders[id] != w.db.orders[id] ==> w'.db.orders[id] == AsRejected(w.db.orders[id]))
  {
    TickExact(w, symbol, group, q, ids, unpublished, id);
    assert OrderOk(id, w.db.orders[id]);
  }
}
