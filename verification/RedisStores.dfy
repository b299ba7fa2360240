/** The engine's slice of Redis: order records, the pending sets, quotes and idempotency keys,
    with the two scripts that change an order's status atomically. */
module RedisStores {
  import opened Contracts
  import opened Orders

  /** `zsets` maps a symbol to the members of its pending set. */
  datatype Db = Db(orders: map<Id, Order>, zsets: map<string, set<Id>>, prices: map<string, Quote>, keys: set<string>)

  datatype FillReply = FillDone | FillNotPending(status: OrderStatus) | FillRefused

  function ZMembers(db: Db, symbol: string): set<Id> {
    if symbol in db.zsets then db.zsets[symbol] else {}
  }

  function ZAdd(db: Db, symbol: string, id: Id): Db {
    db.(zsets := db.zsets[symbol := ZMembers(db, symbol) + {id}])
  }

  function ZRem(db: Db, symbol: string, id: Id): Db {
    db.(zsets := db.zsets[symbol := ZMembers(db, symbol) - {id}])
  }

  function SetOrder(db: Db, id: Id, o: Order): Db {
    db.(orders := db.orders[id := o])
  }

  predicate LimitMet(o: Order, price: real) {
    o.orderType.Limit? && o.limitPrice.Some? ==>
      if o.side.Buy? then price <= o.limitPrice.value else price >= o.limitPrice.value
  }

  /** The fill script: acts only on a pending order whose limit the price respects. */
  function AtomicFill(db: Db, id: Id, price: real, size: real, leverage: real): (Db, FillReply) {
    if leverage <= 0.0 || id !in db.orders then (db, FillRefused)
    else
      var o := db.orders[id];
      if o.status != Pending then (db, FillNotPending(o.status))
      else if !LimitMet(o, price) then (db, FillRefused)
      else
        var filled := o.(status := Filled, filledSize := size, averageFillPrice := Some(price));
        (ZRem(SetOrder(db, id, filled), o.symbol, id), FillDone)
  }

  /** The cancel script: acts only on a pending order. */
  function AtomicCancel(db: Db, id: Id): (Db, bool) {
    if id !in db.orders || db.orders[id].status != Pending then (db, false)
    else
      var o := db.orders[id];
      (ZRem(SetOrder(db, id, o.(status := Cancelled)), o.symbol, id), true)
  }

  class RedisStore {
    var orders: map<Id, Order>
    var zsets: map<string, set<Id>>
    var prices: map<string, Quote>
    var keys: set<string>

    ghost function View(): Db
      reads this
    {
      Db(orders, zsets, prices, keys)
    }

    method ZRemove(symbol: string, id: Id)
      modifies this`zsets
      ensures View() == ZRem(old(View()), symbol, id)
    {
      var members := if symbol in zsets then zsets[symbol] else {};
      zsets := zsets[symbol := members - {id}];
    }

    method ZInsert(symbol: string, id: Id)
      modifies this`zsets
      ensures View() == ZAdd(old(View()), symbol, id)
    {
      var members := if symbol in zsets then zsets[symbol] else {};
      zsets := zsets[symbol := members + {id}];
    }

    method PutOrder(o: Order)
      modifies this`orders
      ensures View() == SetOrder(old(View()), o.id, o)
    {
      orders := orders[o.id := o];
    }

    method FillOrder(id: Id, price: real, size: real, leverage: real) returns (reply: FillReply)
      modifies this`orders, this`zsets
      ensures (View(), reply) == AtomicFill(old(View()), id, price, size, leverage)
    {
      if leverage <= 0.0 { return FillRefused; }
      if id !in orders { return FillRefused; }
      var o := orders[id];
      if o.status != Pending { return FillNotPending(o.status); }
      if o.orderType.Limit? && o.limitPrice.Some? {
        if o.side.Buy? && price > o.limitPrice.value { return FillRefused; }
        if o.side.Sell? && price < o.limitPrice.value { return FillRefused; }
      }
      orders := orders[id := o.(status := Filled, filledSize := size, averageFillPrice := Some(price))];
      ZRemove(o.symbol, id);
      reply := FillDone;
    }

    method CancelOrder(id: Id) returns (cancelled: bool)
      modifies this`orders, this`zsets
      ensures (View(), cancelled) == AtomicCancel(old(View()), id)
    {
      if id !in orders { return false; }
      var o := orders[id];
      if o.status != Pending { return false; }
      orders := orders[id := o.(status := Cancelled)];
      ZRemove(o.symbol, id);
      cancelled := true;
    }
  }
}
