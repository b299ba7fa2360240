/** Balances, positions and idempotency keys as the execution engine and the deposit desk keep them. */
module Ledgers {
  import opened Contracts
  import opened Orders
  import opened Liquidation
  import EL = EffectiveLeverage

  datatype Balance = Balance(available: real, locked: real, equity: real, marginUsed: real, freeMargin: real)

  type Size = r: real | r > 0.0 witness 1.0

  datatype PositionStatus = Open | Closed

  datatype Position = Position(
    userId: Id,
    symbol: string,
    side: PositionSide,
    size: Size,
    entryPrice: real,
    avgPrice: real,
    leverage: real,
    margin: real,
    status: PositionStatus)

  datatype OrderRecord = OrderRecord(userId: Id, symbol: string, side: Side, orderType: OrderType, limitPrice: Option<real>,
                                     size: real, status: OrderStatus)

  datatype Deposit = Deposit(userId: Id, amount: real, approved: bool)

  /** How far the writes of an order got before Redis failed, if it did: the idempotency key, the
      reservation, the order record, the position record, its place in the user's position set, or all
      of them. */
  datatype Reach = Keyed | Reserved | Recorded | Unlisted | Booked | Settled

  datatype Terms = Terms(userId: Id, symbol: string, side: PositionSide, size: Size, price: real, margin: real)

  /** One executed order that got as far as its reservation: `into` is the position it was to go into,
      `isNew` says whether that position was new. */
  datatype Entry = Entry(t: Terms, reach: Reach, into: Id, isNew: bool)

  /** One deposit credited, as far as its six field writes got. */
  datatype Credit = Credit(request: Id, userId: Id, amount: real, fields: nat)

  /** One balance written, and how many deposits had been credited by then. */
  datatype Written = Written(userId: Id, balance: Balance, credits: nat)

  /** What happened, for stating properties: executed orders, balances written, deposits credited, and
      the users who got the opening balance. */
  datatype Log = Log(entries: seq<Entry>, writes: seq<Written>, credits: seq<Credit>, granted: set<Id>)

  datatype Book = Book(
    keys: map<(Id, string), Id>,
    balances: map<Id, Balance>,
    orders: map<Id, OrderRecord>,
    positions: map<Id, Position>,
    owned: map<Id, set<Id>>,
    quotes: map<string, Quote>,
    requests: map<Id, Deposit>,
    log: Log)

  const EMPTY_BOOK := Book(map[], map[], map[], map[], map[], map[], map[], Log([], [], [], {}))

  const OPENING := Balance(10000.0, 0.0, 10000.0, 0.0, 10000.0)
  const NOTHING := Balance(0.0, 0.0, 0.0, 0.0, 0.0)

  // ---------------------------------------------------------------- the verdict on a command

  datatype Verdict =
    | Duplicate
    | NoQuote
    | NoLimitPrice
    | Resting
    | NoLeverage
    | NoFunds
    | Executed(price: real, leverage: real, margin: real)

  /** A user never seen before trades on the opening balance. */
  function TradingBalance(book: Book, user: Id): Balance {
    if user in book.balances then book.balances[user] else OPENING
  }

  predicate Triggered(cmd: PlaceCommand, q: Quote) {
    match cmd.orderType
    case Market => true
    case Limit =>
      cmd.limitPrice.Some? && (if cmd.side.Buy? then q.ask <= cmd.limitPrice.value else q.bid >= cmd.limitPrice.value)
  }

  /** A market order executes at the quote, a triggered limit order at its limit. */
  function ExecutionPrice(cmd: PlaceCommand, q: Quote): real {
    if cmd.orderType.Limit? && cmd.limitPrice.Some? then cmd.limitPrice.value else SidePrice(cmd.side, q)
  }

  function Cost(cmd: PlaceCommand, price: real): real {
    cmd.size * price
  }

  ghost function Funded(book: Book, cmd: PlaceCommand, price: real): Verdict {
    var leverage := EL.Effective(Cost(cmd, price), cmd.minLeverage, cmd.maxLeverage, cmd.leverageTiers);
    if leverage.None? || leverage.value <= 0.0 then NoLeverage
    else
      var margin := CalculateMargin(cmd.size, price, leverage.value);
      if HasSufficientMargin(TradingBalance(book, cmd.userId).freeMargin, margin)
      then Executed(price, leverage.value, margin)
      else NoFunds
  }

  ghost function Judge(book: Book, cmd: PlaceCommand): Verdict {
    if (cmd.userId, cmd.idempotencyKey) in book.keys then Duplicate
    else if cmd.symbol !in book.quotes then NoQuote
    else if cmd.orderType.Limit? && cmd.limitPrice.None? then NoLimitPrice
    else if !Triggered(cmd, book.quotes[cmd.symbol]) then Resting
    else Funded(book, cmd, ExecutionPrice(cmd, book.quotes[cmd.symbol]))
  }

  // ---------------------------------------------------------------- the writes

  function SideOf(side: Side): PositionSide {
    if side.Buy? then Long else Short
  }

  function Remember(book: Book, cmd: PlaceCommand, orderId: Id): Book {
    book.(keys := book.keys[(cmd.userId, cmd.idempotencyKey) := orderId])
  }

  function RecordOf(cmd: PlaceCommand, status: OrderStatus): OrderRecord {
    OrderRecord(cmd.userId, cmd.symbol, cmd.side, cmd.orderType, cmd.limitPrice, cmd.size, status)
  }

  /** The margin of an executed order is first reserved, then moved to used margin. */
  function Reservation(b: Balance, margin: real): Balance {
    b.(locked := b.locked + margin, freeMargin := b.freeMargin - margin)
  }

  function Settlement(b: Balance, margin: real): Balance {
    b.(marginUsed := b.marginUsed + margin, locked := b.locked - margin)
  }

  type Positions = map<Id, Position>

  type Owners = map<Id, set<Id>>

  function OwnedBy(owned: Owners, user: Id): set<Id> {
    if user in owned then owned[user] else {}
  }

  predicate Matches(positions: Positions, owned: Owners, id: Id, user: Id, symbol: string, side: PositionSide) {
    && id in OwnedBy(owned, user) && id in positions
    && positions[id].symbol == symbol && positions[id].side == side && positions[id].status.Open?
  }

  /** `hit` is a matching position of the user, if there is one. */
  ghost predicate Found(positions: Positions, owned: Owners, user: Id, symbol: string, side: PositionSide, hit: Option<Id>) {
    match hit
    case Some(id) => Matches(positions, owned, id, user, symbol, side)
    case None => forall id :: !Matches(positions, owned, id, user, symbol, side)
  }

  /** Size, volume-weighted price and margin after one more fill. */
  function Merge(p: Position, size: Size, price: real, margin: real): Position {
    p.(avgPrice := (p.avgPrice * p.size + price * size) / (p.size + size), size := p.size + size, margin := p.margin + margin)
  }

  function NewPosition(t: Terms, leverage: real): Position {
    Position(t.userId, t.symbol, t.side, t.size, t.price, t.price, leverage, t.margin, Open)
  }

  /** A new position is a record first and a member of the user's set second. */
  function UpdatePosition(positions: Positions, owned: Owners, t: Terms, leverage: real, hit: Option<Id>, newId: Id, listed: bool)
    : (Positions, Owners)
  {
    match hit
    case Some(id) =>
      (if id in positions then positions[id := Merge(positions[id], t.size, t.price, t.margin)] else positions, owned)
    case None =>
      (positions[newId := NewPosition(t, leverage)],
       if listed then owned[t.userId := OwnedBy(owned, t.userId) + {newId}] else owned)
  }

  function TermsOf(cmd: PlaceCommand, v: Verdict): Terms
    requires v.Executed? && cmd.size > 0.0
  {
    Terms(cmd.userId, cmd.symbol, SideOf(cmd.side), cmd.size, v.price, v.margin)
  }

  /** The order got as far as writing the position record. */
  predicate InBook(reach: Reach) {
    reach.Unlisted? || reach.Booked? || reach.Settled?
  }

  function Granted(book: Book, user: Id): set<Id> {
    if user in book.balances then book.log.granted else book.log.granted + {user}
  }

  function EntryOf(t: Terms, reach: Reach, hit: Option<Id>, positionId: Id): Entry {
    Entry(t, reach, if hit.Some? then hit.value else positionId, hit.None?)
  }

  /** The balances an executed order writes. */
  function ChargeWrites(b: Balance, t: Terms, reach: Reach, credits: nat): seq<Written> {
    var reserved := Reservation(b, t.margin);
    [Written(t.userId, reserved, credits)]
      + if reach.Settled? then [Written(t.userId, Settlement(reserved, t.margin), credits)] else []
  }

  /** Reserve, record, write the position, list it, settle, as far as `reach` says. */
  function Execute(book: Book, cmd: PlaceCommand, t: Terms, leverage: real, orderId: Id, hit: Option<Id>, positionId: Id, reach: Reach): Book {
    var b := TradingBalance(book, t.userId);
    var reserved := Reservation(b, t.margin);
    var (positions, owned) :=
      if InBook(reach) then UpdatePosition(book.positions, book.owned, t, leverage, hit, positionId, !reach.Unlisted?)
      else (book.positions, book.owned);
    Book(book.keys,
         book.balances[t.userId := if reach.Settled? then Settlement(reserved, t.margin) else reserved],
         if reach.Reserved? then book.orders else book.orders[orderId := RecordOf(cmd, OrderStatus.Filled)],
         positions, owned, book.quotes, book.requests,
         Log(book.log.entries + [EntryOf(t, reach, hit, positionId)],
             book.log.writes + ChargeWrites(b, t, reach, |book.log.credits|),
             book.log.credits, Granted(book, t.userId)))
  }

  /** Carrying out a verdict. Whatever passes the quote and the limit price writes its key first. */
  function CarriedOut(book: Book, cmd: PlaceCommand, v: Verdict, orderId: Id, positionId: Id, hit: Option<Id>, reach: Reach): Book
    requires cmd.size > 0.0
  {
    match v
    case Duplicate => book
    case NoQuote => book
    case NoLimitPrice => book
    case Resting =>
      var remembered := Remember(book, cmd, cmd.orderId);
      if reach.Keyed? then remembered
      else remembered.(orders := book.orders[cmd.orderId := RecordOf(cmd, Pending)])
    case NoLeverage => Remember(book, cmd, orderId)
    case NoFunds => Remember(book, cmd, orderId)
    case Executed(_, leverage, _) =>
      var remembered := Remember(book, cmd, orderId);
      if reach.Keyed? then remembered
      else Execute(remembered, cmd, TermsOf(cmd, v), leverage, orderId, hit, positionId, reach)
  }

  /** One place-order command. `orderId` and `positionId` are the ids drawn for a new order and a new
      position, `hit` the position the scan ran into. */
  ghost function Place(book: Book, cmd: PlaceCommand, orderId: Id, positionId: Id, hit: Option<Id>, reach: Reach): Book
    requires cmd.size > 0.0
  {
    CarriedOut(book, cmd, Judge(book, cmd), orderId, positionId, hit, reach)
  }

  function CancelOrder(book: Book, orderId: Id): (Book, bool) {
    if orderId !in book.orders || book.orders[orderId].status != Pending then (book, false)
    else (book.(orders := book.orders[orderId := book.orders[orderId].(status := Cancelled)]), true)
  }

  /** A deposit is between 10 and a million, in whole cents. */
  predicate Depositable(amount: real) {
    10.0 <= amount <= 1000000.0 && (amount * 100.0) == (amount * 100.0).Floor as real
  }

  function RequestDeposit(book: Book, id: Id, user: Id, amount: real): (Book, bool) {
    if !Depositable(amount) then (book, false)
    else (book.(requests := book.requests[id := Deposit(user, amount, false)]), true)
  }

  /** The fields are written one by one: available, locked, equity, used margin, free margin, time. */
  function Deposited(b: Balance, amount: real, fields: nat): Balance {
    b.(available := if fields >= 1 then b.available + amount else b.available,
       equity := if fields >= 3 then b.equity + amount else b.equity,
       freeMargin := if fields >= 5 then b.freeMargin + amount else b.freeMargin)
  }

  /** The request is marked first and the balance credited after; `fields` says how many of its six
      fields were written before Redis failed. A field never stored counts as zero here. */
  function ApproveDeposit(book: Book, id: Id, fields: nat): (Book, bool) {
    if id !in book.requests || book.requests[id].approved then (book, false)
    else
      var d := book.requests[id];
      var marked := book.requests[id := d.(approved := true)];
      if fields == 0 then (book.(requests := marked), false)
      else
        var b := Deposited(if d.userId in book.balances then book.balances[d.userId] else NOTHING, d.amount, fields);
        (book.(requests := marked,
               balances := book.balances[d.userId := b],
               log := book.log.(writes := book.log.writes + [Written(d.userId, b, |book.log.credits| + 1)],
                                credits := book.log.credits + [Credit(id, d.userId, d.amount, fields)])),
         fields >= 6)
  }

  // ---------------------------------------------------------------- the program

  class Ledger {
    var keys: map<(Id, string), Id>
    var balances: map<Id, Balance>
    var orders: map<Id, OrderRecord>
    var positions: map<Id, Position>
    var owned: map<Id, set<Id>>
    var quotes: map<string, Quote>
    var requests: map<Id, Deposit>
    ghost var log: Log

    ghost function View(): Book
      reads this
    {
      Book(keys, balances, orders, positions, owned, quotes, requests, log)
    }

    constructor ()
      ensures View() == EMPTY_BOOK
    {
      keys, balances, orders, positions, owned, quotes, requests := map[], map[], map[], map[], map[], map[], map[];
      log := Log([], [], [], {});
    }

    method WriteBalance(user: Id, b: Balance)
      modifies this`balances, this`log
      ensures balances == old(balances)[user := b]
      ensures log == old(log).(writes := old(log.writes) + [Written(user, b, |old(log.credits)|)])
    {
      balances := balances[user := b];
      log := log.(writes := log.writes + [Written(user, b, |log.credits|)]);
    }

    static method MergeFill(p: Position, t: Terms) returns (p': Position)
      ensures p' == Merge(p, t.size, t.price, t.margin)
    {
      var totalSize := p.size + t.size;
      var totalNotional := p.avgPrice * p.size + t.price * t.size;
      p' := p.(avgPrice := totalNotional / totalSize, size := totalSize);
      p' := p'.(margin := p'.margin + t.margin);
    }

    /** Scans the user's positions, in whatever order they come, for an open one of this symbol and
        side; merges the fill into the first one found, or opens a new position: first its record, then
        its place in the set, unless Redis fails in between. */
    method UpdateUserPosition(t: Terms, leverage: real, newId: Id, listed: bool) returns (positionId: Id, ghost hit: Option<Id>)
      modifies this`positions, this`owned
      ensures Found(old(positions), old(owned), t.userId, t.symbol, t.side, hit)
      ensures (positions, owned) == UpdatePosition(old(positions), old(owned), t, leverage, hit, newId, listed)
      ensures positionId == if hit.Some? then hit.value else newId
    {
      var mine := if t.userId in owned then owned[t.userId] else {};
      var rest := mine;
      while rest != {}
        invariant rest <= mine
        invariant forall id :: id in mine - rest ==> !Matches(positions, owned, id, t.userId, t.symbol, t.side)
        decreases |rest|
      {
        var id :| id in rest;
        rest := rest - {id};
        if id in positions {
          var p := positions[id];
          if p.symbol == t.symbol && p.status.Open? && p.side == t.side {
            p := MergeFill(p, t);
            positions := positions[id := p];
            return id, Some(id);
          }
        }
      }
      positions := positions[newId := Position(t.userId, t.symbol, t.side, t.size, t.price, t.price, leverage, t.margin, Open)];
      if !listed { return newId, None; }
      owned := owned[t.userId := mine + {newId}];
      return newId, None;
    }

    method ReserveMargin(cmd: PlaceCommand, margin: real) returns (balance: Balance)
      modifies this`balances, this`log
      ensures balance == Reservation(TradingBalance(old(View()), cmd.userId), margin)
      ensures balances == old(balances)[cmd.userId := balance]
      ensures log == old(log).(writes := old(log.writes) + [Written(cmd.userId, balance, |old(log.credits)|)],
                               granted := Granted(old(View()), cmd.userId))
    {
      balance := if cmd.userId in balances then balances[cmd.userId] else OPENING;
      log := if cmd.userId in balances then log else log.(granted := log.granted + {cmd.userId});
      balance := balance.(locked := balance.locked + margin, freeMargin := balance.freeMargin - margin);
      WriteBalance(cmd.userId, balance);
    }

    /** Where the program decides: key, quote, trigger, leverage, margin, in that order. */
    method JudgeOrder(cmd: PlaceCommand) returns (v: Verdict)
      ensures v == Judge(View(), cmd)
    {
      if (cmd.userId, cmd.idempotencyKey) in keys { return Duplicate; }
      if cmd.symbol !in quotes { return NoQuote; }
      var q := quotes[cmd.symbol];
      var price := SidePrice(cmd.side, q);
      if cmd.orderType.Limit? {
        if cmd.limitPrice.None? { return NoLimitPrice; }
        price := cmd.limitPrice.value;
        var triggers := if cmd.side.Buy? then q.ask <= price else q.bid >= price;
        if !triggers { return Resting; }
      }
      var leverage := EL.ComputeEffectiveLeverage(Cost(cmd, price), cmd.minLeverage, cmd.maxLeverage, cmd.leverageTiers);
      if leverage.None? || leverage.value <= 0.0 { return NoLeverage; }
      var margin := CalculateMargin(cmd.size, price, leverage.value);
      var balance := if cmd.userId in balances then balances[cmd.userId] else OPENING;
      if HasSufficientMargin(balance.freeMargin, margin) {
        return Executed(price, leverage.value, margin);
      }
      return NoFunds;
    }

    method ExecutePlaceOrder(cmd: PlaceCommand, orderId: Id, positionId: Id, reach: Reach)
      returns (v: Verdict, ghost hit: Option<Id>)
      requires cmd.size > 0.0
      modifies this
      ensures v == Judge(old(View()), cmd)
      ensures v.Executed? && InBook(reach) ==> Found(old(positions), old(owned), cmd.userId, cmd.symbol, SideOf(cmd.side), hit)
      ensures View() == Place(old(View()), cmd, orderId, positionId, hit, reach)
    {
      v := JudgeOrder(cmd);
      hit := CarryOut(cmd, v, orderId, positionId, reach);
    }

    method CarryOut(cmd: PlaceCommand, v: Verdict, orderId: Id, positionId: Id, reach: Reach) returns (ghost hit: Option<Id>)
      requires cmd.size > 0.0
      modifies this
      ensures v.Executed? && InBook(reach) ==> Found(old(positions), old(owned), cmd.userId, cmd.symbol, SideOf(cmd.side), hit)
      ensures View() == CarriedOut(old(View()), cmd, v, orderId, positionId, hit, reach)
    {
      hit := None;
      if v.Duplicate? || v.NoQuote? || v.NoLimitPrice? { return; }
      if v.Resting? {
        keys := keys[(cmd.userId, cmd.idempotencyKey) := cmd.orderId];
        if reach.Keyed? { return; }
        StoreOrder(cmd, cmd.orderId, Pending);
        return;
      }
      keys := keys[(cmd.userId, cmd.idempotencyKey) := orderId];
      if v.NoLeverage? || v.NoFunds? || reach.Keyed? { return; }
      hit := Fill(cmd, TermsOf(cmd, v), v.leverage, orderId, positionId, reach);
    }

    /** Reserves the margin, then stores order and position, then moves the reservation to used margin. */
    method Fill(cmd: PlaceCommand, t: Terms, leverage: real, orderId: Id, positionId: Id, reach: Reach) returns (ghost hit: Option<Id>)
      requires t.userId == cmd.userId && !reach.Keyed?
      modifies this
      ensures InBook(reach) ==> Found(old(positions), old(owned), t.userId, t.symbol, t.side, hit)
      ensures View() == Execute(old(View()), cmd, t, leverage, orderId, hit, positionId, reach)
    {
      hit := None;
      ghost var b, writes := TradingBalance(View(), t.userId), log.writes;
      var balance := ReserveMargin(cmd, t.margin);
      if !reach.Reserved? { StoreOrder(cmd, orderId, OrderStatus.Filled); }
      if InBook(reach) { hit := BookAndSettle(t, leverage, positionId, balance, reach); }
      log := log.(entries := log.entries + [EntryOf(t, reach, hit, positionId)]);
      assert balance == Reservation(b, t.margin);
      assert balances == old(balances)[t.userId := if reach.Settled? then Settlement(balance, t.margin) else balance];
      assert log.writes == writes + ChargeWrites(b, t, reach, |log.credits|);
    }

    method BookAndSettle(t: Terms, leverage: real, positionId: Id, reserved: Balance, reach: Reach) returns (ghost hit: Option<Id>)
      requires InBook(reach)
      modifies this`positions, this`owned, this`balances, this`log
      ensures Found(old(positions), old(owned), t.userId, t.symbol, t.side, hit)
      ensures (positions, owned) == UpdatePosition(old(positions), old(owned), t, leverage, hit, positionId, !reach.Unlisted?)
      ensures !reach.Settled? ==> balances == old(balances) && log == old(log)
      ensures reach.Settled? ==>
        && balances == old(balances)[t.userId := Settlement(reserved, t.margin)]
        && log == old(log).(writes := old(log.writes) + [Written(t.userId, Settlement(reserved, t.margin), |old(log.credits)|)])
    {
      var id;
      id, hit := UpdateUserPosition(t, leverage, positionId, !reach.Unlisted?);
      if !reach.Settled? { return; }
      SettleMargin(t.userId, reserved, t.margin);
    }

    method SettleMargin(user: Id, reserved: Balance, margin: real)
      modifies this`balances, this`log
      ensures balances == old(balances)[user := Settlement(reserved, margin)]
      ensures log == old(log).(writes := old(log.writes) + [Written(user, Settlement(reserved, margin), |old(log.credits)|)])
    {
      var balance := reserved.(marginUsed := reserved.marginUsed + margin);
      balance := balance.(locked := balance.locked - margin);
      WriteBalance(user, balance);
    }

    method StoreOrder(cmd: PlaceCommand, orderId: Id, status: OrderStatus)
      modifies this`orders
      ensures orders == old(orders)[orderId := RecordOf(cmd, status)]
    {
      orders := orders[orderId := OrderRecord(cmd.userId, cmd.symbol, cmd.side, cmd.orderType, cmd.limitPrice, cmd.size, status)];
    }

    method ExecuteCancelOrder(orderId: Id) returns (ok: bool)
      modifies this`orders
      ensures (View(), ok) == CancelOrder(old(View()), orderId)
    {
      if orderId !in orders { return false; }
      var order := orders[orderId];
      if order.status != Pending { return false; }
      orders := orders[orderId := order.(status := Cancelled)];
      ok := true;
    }

    method CreateDepositRequest(id: Id, user: Id, amount: real) returns (ok: bool)
      modifies this`requests
      ensures (View(), ok) == RequestDeposit(old(View()), id, user, amount)
    {
      if amount < 10.0 || amount > 1000000.0 || amount * 100.0 != (amount * 100.0).Floor as real { return false; }
      requests := requests[id := Deposit(user, amount, false)];
      ok := true;
    }

    /** Marks the request, then writes the six fields of the balance one by one; `fields` of them get
        through. */
    method Approve(id: Id, fields: nat) returns (ok: bool)
      modifies this`requests, this`balances, this`log
      ensures (View(), ok) == ApproveDeposit(old(View()), id, fields)
    {
      if id !in requests { return false; }
      var d := requests[id];
      if d.approved { return false; }
      requests := requests[id := d.(approved := true)];
      var stored := if d.userId in balances then balances[d.userId] else NOTHING;
      var b := stored.(available := stored.available + d.amount);
      b := b.(equity := b.equity + d.amount);
      b := b.(freeMargin := b.freeMargin + d.amount);
      if fields < 1 { return false; }
      log := log.(credits := log.credits + [Credit(id, d.userId, d.amount, fields)]);
      stored := stored.(available := b.available);
      if fields >= 2 { stored := stored.(locked := b.locked); }
      if fields >= 3 { stored := stored.(equity := b.equity); }
      if fields >= 4 { stored := stored.(marginUsed := b.marginUsed); }
      if fields >= 5 { stored := stored.(freeMargin := b.freeMargin); }
      WriteBalance(d.userId, stored);
      ok := fields >= 6;
    }
  }

  // ---------------------------------------------------------------- runs

  datatype Event =
    | Quoted(symbol: string, q: Quote)
    | Placed(cmd: PlaceCommand, orderId: Id, positionId: Id, hit: Option<Id>, reach: Reach)
    | CancelAsked(orderId: Id)
    | DepositAsked(id: Id, userId: Id, amount: real)
    | DepositApproved(id: Id, fields: nat)

  /** The API refuses a size that is not positive before it gets here. */
  ghost function Step(book: Book, ev: Event): Book {
    match ev
    case Quoted(symbol, q) => book.(quotes := book.quotes[symbol := q])
    case Placed(cmd, orderId, positionId, hit, reach) =>
      if cmd.size > 0.0 then Place(book, cmd, orderId, positionId, hit, reach) else book
    case CancelAsked(orderId) => CancelOrder(book, orderId).0
    case DepositAsked(id, userId, amount) => RequestDeposit(book, id, userId, amount).0
    case DepositApproved(id, fields) => ApproveDeposit(book, id, fields).0
  }

  /** Drawn ids are new, and the position found is one the scan can find. */
  ghost predicate Possible(book: Book, ev: Event) {
    match ev
    case Placed(cmd, orderId, positionId, hit, reach) =>
      positionId !in book.positions && Found(book.positions, book.owned, cmd.userId, cmd.symbol, SideOf(cmd.side), hit)
    case DepositAsked(id, _, _) => id !in book.requests
    case _ => true
  }

  ghost function Run(book: Book, events: seq<Event>): Book
    decreases |events|
  {
    if events == [] then book else Run(Step(book, events[0]), events[1..])
  }

  ghost predicate PossibleRun(book: Book, events: seq<Event>)
    decreases |events|
  {
    events != [] ==> Possible(book, events[0]) && PossibleRun(Step(book, events[0]), events[1..])
  }
}
