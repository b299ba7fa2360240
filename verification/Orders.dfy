/** Orders, quotes and fills as the order engine stores them. */
module Orders {
  import opened Contracts
  import opened Symbols
  import opened EffectiveLeverage
  import opened Slippage

  type Id = nat

  datatype Order = Order(
    id: Id,
    userId: Id,
    symbol: string,
    groupId: Option<string>,
    side: Side,
    orderType: OrderType,
    size: real,
    limitPrice: Option<real>,
    status: OrderStatus,
    filledSize: real,
    averageFillPrice: Option<real>,
    minLeverage: Option<int32>,
    maxLeverage: Option<int32>,
    leverageTiers: Option<seq<Tier>>,
    requestedBid: Option<real>,
    requestedAsk: Option<real>,
    maxSlippageBps: Option<int32>)

  datatype PlaceCommand = PlaceCommand(
    orderId: Id,
    userId: Id,
    symbol: string,
    groupId: Option<string>,
    side: Side,
    orderType: OrderType,
    size: real,
    limitPrice: Option<real>,
    idempotencyKey: string,
    minLeverage: Option<int32>,
    maxLeverage: Option<int32>,
    leverageTiers: Option<seq<Tier>>,
    requestedBid: Option<real>,
    requestedAsk: Option<real>,
    maxSlippageBps: Option<int32>)

  /** One committed fill: which order, at what price, on which quote. */
  datatype Fill = Fill(id: Id, price: real, quote: Quote)

  /** The pending order a command asks for; its symbol is stored in normal form. */
  function MakeOrder(cmd: PlaceCommand): Order {
    Order(cmd.orderId, cmd.userId, NormalizeSymbol(cmd.symbol), cmd.groupId, cmd.side, cmd.orderType, cmd.size,
          cmd.limitPrice, Pending, 0.0, None, cmd.minLeverage, cmd.maxLeverage, cmd.leverageTiers,
          cmd.requestedBid, cmd.requestedAsk, cmd.maxSlippageBps)
  }

  /** The two records are the same order, possibly at different points of its life. */
  predicate SameTerms(a: Order, b: Order) {
    a.(status := b.status, filledSize := b.filledSize, averageFillPrice := b.averageFillPrice) == b
  }

  function AsFilled(o: Order, price: real): Order {
    o.(status := Filled, filledSize := o.size, averageFillPrice := Some(price))
  }

  /** A limit order is crossed by a quote when the side it would trade at is no worse than its limit. */
  predicate Crossed(o: Order, q: Quote) {
    match o.orderType
    case Market => true
    case Limit =>
      o.limitPrice.Some? &&
      match o.side
      case Buy => q.ask <= o.limitPrice.value
      case Sell => q.bid >= o.limitPrice.value
  }

  function SlippageOf(o: Order, price: real): Outcome {
    CheckSlippage(o.side, price, o.requestedBid, o.requestedAsk, o.maxSlippageBps)
  }

  function Notional(o: Order, price: real): real {
    price * o.size
  }

  ghost function LeverageOf(o: Order, price: real): Option<real> {
    Effective(Notional(o, price), o.minLeverage, o.maxLeverage, o.leverageTiers)
  }

  /** What the user was promised about the price of a fill. */
  predicate Protected(o: Order, price: real) {
    match o.orderType
    case Limit =>
      o.limitPrice.Some? && (if o.side.Buy? then price <= o.limitPrice.value else price >= o.limitPrice.value)
    case Market => !SlippageOf(o, price).Exceeded?
  }

  predicate GoodQuote(q: Quote) {
    0.0 < q.bid <= q.ask
  }

  /** A quote with a non-positive side is dropped; an inverted one gets a spread of one basis point. */
  function RepairQuote(q: Quote): Option<Quote> {
    if q.bid <= 0.0 || q.ask <= 0.0 then None
    else if q.ask < q.bid then Some(Quote(q.bid, q.bid + q.bid * 0.0001))
    else Some(q)
  }

  /** Whether a tick for `group` may fill the order: a global tick fills any, a group tick its own
      group's orders and those without a group. */
  predicate Eligible(o: Order, group: Option<string>) {
    group.None? || o.groupId.None? || o.groupId == group
  }

  /** Key of a quote: the normal-form symbol, a colon, and the group if any. */
  function QuoteKey(symbol: string, group: Option<string>): string {
    symbol + ":" + (if group.Some? then group.value else "")
  }
}
