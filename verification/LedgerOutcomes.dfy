/** What a command does to the ledger, told from the command itself: its verdict and price, the side of
    the position it goes into, and the terms of its record. Nothing here goes by the functions the ledger
    itself uses to get there. */
module LedgerOutcomes {
  import opened Contracts
  import opened Orders
  import opened Liquidation
  import opened Ledgers
  import opened LedgerTheorems
  import EL = EffectiveLeverage

  // ---------------------------------------------------------------- the verdict

  /** A market order goes at the ask or the bid, a limit order at its limit. */
  predicate GoesAt(cmd: PlaceCommand, q: Quote, price: real) {
    if cmd.orderType.Limit? then cmd.limitPrice == Some(price) else price == if cmd.side.Buy? then q.ask else q.bid
  }

  /** A limit order is triggered once the side it trades at reaches its limit. */
  predicate Due(cmd: PlaceCommand, q: Quote) {
    cmd.orderType.Limit? ==>
      cmd.limitPrice.Some? && if cmd.side.Buy? then q.ask <= cmd.limitPrice.value else cmd.limitPrice.value <= q.bid
  }

  function FreeMarginOf(book: Book, user: Id): real {
    if user in book.balances then book.balances[user].freeMargin else 10000.0
  }

  /** With a leverage for its cost, and that margin at hand, the order is executed. */
  ghost predicate FundedAt(book: Book, cmd: PlaceCommand, price: real, cost: real, margin: real, v: Verdict) {
    var leverage := EL.Effective(cost, cmd.minLeverage, cmd.maxLeverage, cmd.leverageTiers);
    if leverage.None? || leverage.value <= 0.0 then v == NoLeverage
    else v == if margin <= FreeMarginOf(book, cmd.userId) then Executed(price, leverage.value, margin) else NoFunds
  }

  /** `margin` times the leverage that the cost gets is the cost. */
  ghost predicate Covers(cmd: PlaceCommand, cost: real, margin: real) {
    var leverage := EL.Effective(cost, cmd.minLeverage, cmd.maxLeverage, cmd.leverageTiers);
    leverage.Some? ==> margin * leverage.value == cost
  }

  /** The verdict on a command, case by case; an executed order's margin is its cost over its leverage and
      covered by free margin, the opening balance being ten thousand. */
  lemma VerdictIs(book: Book, cmd: PlaceCommand, price: real, cost: real, margin: real)
    requires cmd.symbol in book.quotes && Due(cmd, book.quotes[cmd.symbol]) ==> GoesAt(cmd, book.quotes[cmd.symbol], price)
    requires cost == cmd.size * price && Covers(cmd, cost, margin)
    ensures
      var v := Judge(book, cmd);
      if (cmd.userId, cmd.idempotencyKey) in book.keys then v == Duplicate
      else if cmd.symbol !in book.quotes then v == NoQuote
      else if cmd.orderType.Limit? && cmd.limitPrice.None? then v == NoLimitPrice
      else if !Due(cmd, book.quotes[cmd.symbol]) then v == Resting
      else FundedAt(book, cmd, price, cost, margin, v)
  {
    if cmd.symbol in book.quotes && Due(cmd, book.quotes[cmd.symbol]) {
      PriceIs(cmd, book.quotes[cmd.symbol], price);
      CostIs(cmd, price);
      MarginIs(cmd, price, cost, margin);
      FundedIs(book, cmd, price, cost, margin);
    }
  }

  lemma PriceIs(cmd: PlaceCommand, q: Quote, price: real)
    requires Due(cmd, q) && GoesAt(cmd, q, price)
    ensures Triggered(cmd, q) && ExecutionPrice(cmd, q) == price
  {
  }

  lemma CostIs(cmd: PlaceCommand, price: real)
    ensures Cost(cmd, price) == cmd.size * price
  {
  }

  lemma MarginIs(cmd: PlaceCommand, price: real, cost: real, margin: real)
    requires cost == cmd.size * price && Covers(cmd, cost, margin)
    ensures
      var leverage := EL.Effective(cost, cmd.minLeverage, cmd.maxLeverage, cmd.leverageTiers);
      leverage.Some? && leverage.value > 0.0 ==> CalculateMargin(cmd.size, price, leverage.value) == margin
  {
    var leverage := EL.Effective(cost, cmd.minLeverage, cmd.maxLeverage, cmd.leverageTiers);
    if leverage.Some? && leverage.value > 0.0 {
      MarginOver(cmd.size, price, leverage.value, cost);
      OneQuotient(cost, leverage.value, margin);
    }
  }

  lemma MarginOver(size: real, price: real, leverage: real, cost: real)
    requires leverage > 0.0 && cost == size * price
    ensures CalculateMargin(size, price, leverage) == cost / leverage
  {
  }

  lemma OneQuotient(cost: real, leverage: real, margin: real)
    requires leverage > 0.0 && margin * leverage == cost
    ensures cost / leverage == margin
  {
  }

  lemma FundedIs(book: Book, cmd: PlaceCommand, price: real, cost: real, margin: real)
    requires Cost(cmd, price) == cost
    requires
      var leverage := EL.Effective(cost, cmd.minLeverage, cmd.maxLeverage, cmd.leverageTiers);
      leverage.Some? && leverage.value > 0.0 ==> CalculateMargin(cmd.size, price, leverage.value) == margin
    ensures FundedAt(book, cmd, price, cost, margin, Funded(book, cmd, price))
  {
  }

  /** A key that a command uses up names the order: the one drawn for it, or its own if the order rests. */
  lemma KeyNames(book: Book, cmd: PlaceCommand, orderId: Id, newId: Id, hit: Option<Id>, reach: Reach)
    requires cmd.size > 0.0 && (cmd.userId, cmd.idempotencyKey) !in book.keys
    ensures
      var v, keys' := Judge(book, cmd), Place(book, cmd, orderId, newId, hit, reach).keys;
      keys' == if v.NoQuote? || v.NoLimitPrice? then book.keys
               else book.keys[(cmd.userId, cmd.idempotencyKey) := if v.Resting? then cmd.orderId else orderId]
  {
    KeysWritten(book, cmd, Judge(book, cmd), orderId, newId, hit, reach);
  }

  lemma KeysWritten(book: Book, cmd: PlaceCommand, v: Verdict, orderId: Id, newId: Id, hit: Option<Id>, reach: Reach)
    requires cmd.size > 0.0
    ensures
      CarriedOut(book, cmd, v, orderId, newId, hit, reach).keys
        == if v.Duplicate? || v.NoQuote? || v.NoLimitPrice? then book.keys
           else book.keys[(cmd.userId, cmd.idempotencyKey) := if v.Resting? then cmd.orderId else orderId]
  {
  }

  // ---------------------------------------------------------------- the position

  /** What an executed order leaves: a buy its size on a long, a sell on a short, of its user and symbol, and
      no other position changed. A new position starts on the order's terms; one it merges into keeps its
      entry price and leverage, and its value at the average price grows by the order's. */
  lemma ExecutedPosition(book: Book, cmd: PlaceCommand, orderId: Id, newId: Id, hit: Option<Id>, reach: Reach)
    requires OwnersOk(book.positions, book.owned) && Possible(book, Event.Placed(cmd, orderId, newId, hit, reach)) && cmd.size > 0.0
    ensures
      var v, positions' := Judge(book, cmd), Place(book, cmd, orderId, newId, hit, reach).positions;
      if !v.Executed? || !InBook(reach) then positions' == book.positions
      else if hit.None? then newId !in book.positions && Opens(book.positions, positions', cmd, v, newId)
      else hit.value in book.positions && Enlarges(book.positions, positions', cmd, v, hit.value)
  {
    var v := Judge(book, cmd);
    CarriedPositions(book, cmd, v, orderId, newId, hit, reach);
    if v.Executed? && InBook(reach) { UpdatedPositions(book.positions, book.owned, cmd, v, hit, newId, !reach.Unlisted?); }
  }

  lemma UpdatedPositions(positions: Positions, owned: Owners, cmd: PlaceCommand, v: Verdict, hit: Option<Id>, newId: Id, listed: bool)
    requires v.Executed? && cmd.size > 0.0 && newId !in positions && OwnersOk(positions, owned)
    requires Found(positions, owned, cmd.userId, cmd.symbol, SideOf(cmd.side), hit)
    ensures
      var positions' := UpdatePosition(positions, owned, TermsOf(cmd, v), v.leverage, hit, newId, listed).0;
      if hit.None? then Opens(positions, positions', cmd, v, newId)
      else hit.value in positions && Enlarges(positions, positions', cmd, v, hit.value)
  {
    if hit.Some? {
      var p := positions[hit.value];
      MergedValue(p, cmd.size, v.price, v.margin);
    }
  }

  predicate IsFor(p: Position, cmd: PlaceCommand) {
    p.userId == cmd.userId && p.symbol == cmd.symbol && p.side == (if cmd.side.Buy? then Long else Short) && p.status.Open?
  }

  predicate Opens(positions: Positions, positions': Positions, cmd: PlaceCommand, v: Verdict, id: Id)
    requires v.Executed?
  {
    && id in positions' && positions' == positions[id := positions'[id]]
    && var p' := positions'[id];
       && IsFor(p', cmd) && p'.size == cmd.size && p'.margin == v.margin
       && p'.entryPrice == v.price && p'.avgPrice == v.price && p'.leverage == v.leverage
  }

  predicate Enlarges(positions: Positions, positions': Positions, cmd: PlaceCommand, v: Verdict, id: Id)
    requires v.Executed? && id in positions
  {
    && id in positions' && positions' == positions[id := positions'[id]]
    && var p, p' := positions[id], positions'[id];
       && IsFor(p, cmd) && IsFor(p', cmd)
       && p'.size == p.size + cmd.size && p'.margin == p.margin + v.margin
       && Worth(p'.avgPrice, p'.size) == Worth(p.avgPrice, p.size) + Worth(v.price, cmd.size)
       && p'.entryPrice == p.entryPrice && p'.leverage == p.leverage
  }

  lemma CarriedPositions(book: Book, cmd: PlaceCommand, v: Verdict, orderId: Id, newId: Id, hit: Option<Id>, reach: Reach)
    requires cmd.size > 0.0
    ensures
      CarriedOut(book, cmd, v, orderId, newId, hit, reach).positions
        == if v.Executed? && InBook(reach)
           then UpdatePosition(book.positions, book.owned, TermsOf(cmd, v), v.leverage, hit, newId, !reach.Unlisted?).0
           else book.positions
  {
  }

  lemma MergedValue(p: Position, size: Size, price: real, margin: real)
    ensures Worth(Merge(p, size, price, margin).avgPrice, p.size + size) == Worth(p.avgPrice, p.size) + Worth(price, size)
  {
    QuotientTimes(p.avgPrice * p.size + price * size, p.size + size);
  }

  // ---------------------------------------------------------------- buys are longs, sells are shorts

  function PositionsOf(positions: Positions, user: Id, symbol: string, side: PositionSide): set<Id> {
    set id | id in positions && positions[id].userId == user && positions[id].symbol == symbol && positions[id].side == side
  }

  ghost function SizeTotal(positions: Positions, ids: set<Id>): real
    decreases |ids|
  {
    if ids == {} then 0.0
    else
      var id :| id in ids;
      (if id in positions then positions[id].size else 0.0) + SizeTotal(positions, ids - {id})
  }

  lemma {:induction false} SizeTotalSplit(positions: Positions, ids: set<Id>, id: Id)
    requires id in ids
    ensures SizeTotal(positions, ids) == (if id in positions then positions[id].size else 0.0) + SizeTotal(positions, ids - {id})
    decreases |ids|
  {
    var first :| first in ids && SizeTotal(positions, ids)
      == (if first in positions then positions[first].size else 0.0) + SizeTotal(positions, ids - {first});
    if first != id {
      SizeTotalSplit(positions, ids - {first}, id);
      SizeTotalSplit(positions, ids - {id}, first);
      assert ids - {first} - {id} == ids - {id} - {first};
    }
  }

  lemma {:induction false} SizeTotalSame(a: Positions, b: Positions, ids: set<Id>)
    requires forall id :: id in ids ==> id in a && id in b && a[id].size == b[id].size
    ensures SizeTotal(a, ids) == SizeTotal(b, ids)
    decreases |ids|
  {
    if ids != {} {
      var id :| id in ids;
      SizeTotalSplit(a, ids, id);
      SizeTotalSplit(b, ids, id);
      SizeTotalSame(a, b, ids - {id});
    }
  }

  /** The user's total size on one side of a symbol. */
  ghost function Holding(positions: Positions, user: Id, symbol: string, side: PositionSide): real {
    SizeTotal(positions, PositionsOf(positions, user, symbol, side))
  }

  /** One position of a key gained `gain`, and nothing else changed. */
  lemma OneGains(a: Positions, b: Positions, id: Id, gain: real, user: Id, symbol: string, side: PositionSide)
    requires id in b && b == a[id := b[id]]
    requires if id in a then a[id].userId == b[id].userId && a[id].symbol == b[id].symbol && a[id].side == b[id].side
                             && b[id].size == a[id].size + gain
             else b[id].size == gain
    ensures Holding(b, user, symbol, side)
         == Holding(a, user, symbol, side) + if b[id].userId == user && b[id].symbol == symbol && b[id].side == side then gain else 0.0
  {
    var before, after := PositionsOf(a, user, symbol, side), PositionsOf(b, user, symbol, side);
    assert before - {id} == after - {id};
    SizeTotalSame(a, b, before - {id});
    if id in before { SizeTotalSplit(a, before, id); } else { assert before - {id} == before; }
    if id in after { SizeTotalSplit(b, after, id); } else { assert after - {id} == after; }
  }

  /** What the event trades for the user on this side, told from its command. */
  ghost function TradedBy(book: Book, ev: Event, user: Id, symbol: string, side: Side): real {
    if ev.Placed? && ev.cmd.size > 0.0 && ev.cmd.userId == user && ev.cmd.symbol == symbol && ev.cmd.side == side
       && Judge(book, ev.cmd).Executed? && InBook(ev.reach)
    then ev.cmd.size else 0.0
  }

  ghost function Traded(book: Book, events: seq<Event>, user: Id, symbol: string, side: Side): real
    decreases |events|
  {
    if events == [] then 0.0
    else TradedBy(book, events[0], user, symbol, side) + Traded(Step(book, events[0]), events[1..], user, symbol, side)
  }

  lemma StepHolds(book: Book, ev: Event, user: Id, symbol: string)
    requires OwnersOk(book.positions, book.owned) && Possible(book, ev)
    ensures Holding(Step(book, ev).positions, user, symbol, Long)
         == Holding(book.positions, user, symbol, Long) + TradedBy(book, ev, user, symbol, Buy)
    ensures Holding(Step(book, ev).positions, user, symbol, Short)
         == Holding(book.positions, user, symbol, Short) + TradedBy(book, ev, user, symbol, Sell)
  {
    if ev.Placed? && ev.cmd.size > 0.0 {
      ExecutedPosition(book, ev.cmd, ev.orderId, ev.positionId, ev.hit, ev.reach);
      if Judge(book, ev.cmd).Executed? && InBook(ev.reach) {
        var id := if ev.hit.Some? then ev.hit.value else ev.positionId;
        BothSides(book.positions, Step(book, ev).positions, id, ev.cmd, user, symbol);
      }
    }
  }

  lemma BothSides(a: Positions, b: Positions, id: Id, cmd: PlaceCommand, user: Id, symbol: string)
    requires id in b && b == a[id := b[id]]
    requires b[id].userId == cmd.userId && b[id].symbol == cmd.symbol && b[id].side == if cmd.side.Buy? then Long else Short
    requires if id in a then a[id].userId == b[id].userId && a[id].symbol == b[id].symbol && a[id].side == b[id].side
                             && b[id].size == a[id].size + cmd.size
             else b[id].size == cmd.size
    ensures
      var own := cmd.userId == user && cmd.symbol == symbol;
      && Holding(b, user, symbol, Long) == Holding(a, user, symbol, Long) + (if own && cmd.side.Buy? then cmd.size else 0.0)
      && Holding(b, user, symbol, Short) == Holding(a, user, symbol, Short) + (if own && cmd.side.Sell? then cmd.size else 0.0)
  {
    OneGains(a, b, id, cmd.size, user, symbol, Long);
    OneGains(a, b, id, cmd.size, user, symbol, Short);
  }

  lemma {:induction false} RunHolds(book: Book, events: seq<Event>, user: Id, symbol: string)
    requires Sound(book) && PossibleRun(book, events)
    ensures Holding(Run(book, events).positions, user, symbol, Long)
         == Holding(book.positions, user, symbol, Long) + Traded(book, events, user, symbol, Buy)
    ensures Holding(Run(book, events).positions, user, symbol, Short)
         == Holding(book.positions, user, symbol, Short) + Traded(book, events, user, symbol, Sell)
    decreases |events|
  {
    if events != [] {
      StepSound(book, events[0]);
      StepHolds(book, events[0], user, symbol);
      RunHolds(Step(book, events[0]), events[1..], user, symbol);
    }
  }

  /** Over every run, what a user is long of a symbol is the sum of the sizes of the user's executed buys
      that got as far as a position, and what the user is short of it that of the sells. */
  lemma BuysAreLongs(events: seq<Event>, user: Id, symbol: string)
    requires PossibleRun(EMPTY_BOOK, events)
    ensures Holding(Run(EMPTY_BOOK, events).positions, user, symbol, Long) == Traded(EMPTY_BOOK, events, user, symbol, Buy)
    ensures Holding(Run(EMPTY_BOOK, events).positions, user, symbol, Short) == Traded(EMPTY_BOOK, events, user, symbol, Sell)
  {
    EmptySound();
    RunHolds(EMPTY_BOOK, events, user, symbol);
    assert PositionsOf(map[], user, symbol, Long) == {} && PositionsOf(map[], user, symbol, Short) == {};
  }

  // ---------------------------------------------------------------- order records

  /** The record carries the terms of the event's command. */
  predicate AskedFor(ev: Event, r: OrderRecord) {
    && ev.Placed? && ev.cmd.size > 0.0
    && r.userId == ev.cmd.userId && r.symbol == ev.cmd.symbol && r.side == ev.cmd.side && r.orderType == ev.cmd.orderType
    && r.limitPrice == ev.cmd.limitPrice && r.size == ev.cmd.size
  }

  /** One event adds or rewrites at most the record of its own order, on the command's terms; it leaves every
      other alone, except that a cancel marks the pending order it names. */
  lemma StepRecords(book: Book, ev: Event, id: Id)
    requires id in Step(book, ev).orders
    ensures
      var r' := Step(book, ev).orders[id];
      || (id in book.orders && r' == book.orders[id])
      || AskedFor(ev, r')
      || (ev == CancelAsked(id) && id in book.orders && book.orders[id].status == Pending && r' == book.orders[id].(status := Cancelled))
  {
    match ev
    case Placed(cmd, orderId, positionId, hit, reach) =>
      if cmd.size > 0.0 { CarriedRecords(book, cmd, Judge(book, cmd), orderId, positionId, hit, reach, id); }
    case _ =>
  }

  lemma CarriedRecords(book: Book, cmd: PlaceCommand, v: Verdict, orderId: Id, positionId: Id, hit: Option<Id>, reach: Reach, id: Id)
    requires cmd.size > 0.0 && id in CarriedOut(book, cmd, v, orderId, positionId, hit, reach).orders
    ensures
      var r' := CarriedOut(book, cmd, v, orderId, positionId, hit, reach).orders[id];
      || (id in book.orders && r' == book.orders[id])
      || (AskedFor(Event.Placed(cmd, orderId, positionId, hit, reach), r')
          && r'.status == (if v.Executed? then OrderStatus.Filled else Pending) && id == if v.Executed? then orderId else cmd.orderId)
  {
  }

  ghost predicate RecordsAsked(past: seq<Event>, orders: map<Id, OrderRecord>) {
    forall id :: id in orders ==> exists i :: 0 <= i < |past| && AskedFor(past[i], orders[id])
  }

  lemma StepAsked(past: seq<Event>, book: Book, ev: Event)
    requires RecordsAsked(past, book.orders)
    ensures RecordsAsked(past + [ev], Step(book, ev).orders)
  {
    var orders' := Step(book, ev).orders;
    forall id | id in orders' ensures exists i :: 0 <= i < |past + [ev]| && AskedFor((past + [ev])[i], orders'[id]) {
      StepRecords(book, ev, id);
      if AskedFor(ev, orders'[id]) {
        assert (past + [ev])[|past|] == ev;
      } else {
        var i :| 0 <= i < |past| && AskedFor(past[i], book.orders[id]);
        assert (past + [ev])[i] == past[i];
      }
    }
  }

  lemma {:induction false} RunAsked(all: seq<Event>, past: seq<Event>, book: Book, events: seq<Event>)
    requires RecordsAsked(past, book.orders) && all == past + events
    ensures RecordsAsked(all, Run(book, events).orders)
    decreases |events|
  {
    if events == [] {
      assert all == past;
    } else {
      assert all == past + [events[0]] + events[1..];
      StepAsked(past, book, events[0]);
      RunAsked(all, past + [events[0]], Step(book, events[0]), events[1..]);
    }
  }

  /** Over every run, every order record carries the terms of a command of the run. */
  lemma RecordsAsAsked(events: seq<Event>, id: Id)
    requires id in Run(EMPTY_BOOK, events).orders
    ensures exists i :: 0 <= i < |events| && AskedFor(events[i], Run(EMPTY_BOOK, events).orders[id])
  {
    assert events == [] + events;
    RunAsked(events, [], EMPTY_BOOK, events);
  }

  predicate InCents(amount: real, cents: int) {
    amount == cents as real / 100.0
  }

  /** A deposit request is stored exactly if its amount is from ten to a million and a whole number of cents. */
  lemma RequestedIff(book: Book, id: Id, user: Id, amount: real)
    requires id !in book.requests
    ensures
      var requests' := Step(book, DepositAsked(id, user, amount)).requests;
      && (id in requests' <==> 10.0 <= amount && amount <= 1000000.0 && exists cents :: InCents(amount, cents))
      && (id in requests' ==> requests'[id].userId == user && requests'[id].amount == amount && !requests'[id].approved)
  {
    var cents := (amount * 100.0).Floor;
    assert amount * 100.0 == cents as real <==> InCents(amount, cents);
    if c :| InCents(amount, c) { assert amount * 100.0 == c as real; }
  }
}
