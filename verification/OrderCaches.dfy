/** The in-memory index of pending orders. Redis is the source of truth; this is its fast copy. */
module OrderCaches {
  import opened Contracts
  import opened Symbols
  import opened Orders

  /** The cache's contents as a value. */
  datatype CacheState = CacheState(pending: map<string, set<Id>>, orders: map<Id, Order>, lastTicks: map<string, Quote>)

  const EMPTY_CACHE := CacheState(map[], map[], map[])

  function PendingIds(c: CacheState, symbol: string): set<Id> {
    var key := NormalizeSymbol(symbol);
    if key in c.pending then c.pending[key] else {}
  }

  function LastTick(c: CacheState, symbol: string, group: Option<string>): Option<Quote> {
    var key := QuoteKey(NormalizeSymbol(symbol), group);
    if key in c.lastTicks then Some(c.lastTicks[key]) else None
  }

  function AddPending(c: CacheState, symbol: string, id: Id, order: Order): CacheState {
    c.(pending := c.pending[NormalizeSymbol(symbol) := PendingIds(c, symbol) + {id}], orders := c.orders[id := order])
  }

  function RemovePending(c: CacheState, symbol: string, id: Id): CacheState {
    var key := NormalizeSymbol(symbol);
    c.(pending := if key in c.pending then c.pending[key := c.pending[key] - {id}] else c.pending,
       orders := c.orders - {id})
  }

  function UpdateOrder(c: CacheState, order: Order): CacheState {
    c.(orders := c.orders[order.id := order])
  }

  function UpdateTick(c: CacheState, symbol: string, group: Option<string>, q: Quote): CacheState {
    c.(lastTicks := c.lastTicks[QuoteKey(NormalizeSymbol(symbol), group) := q])
  }

  /** `ids` lists the members of `s`, each once, in some order. */
  ghost predicate Lists(ids: seq<Id>, s: set<Id>) {
    && (forall i :: 0 <= i < |ids| ==> ids[i] in s)
    && (forall id :: id in s ==> id in ids)
    && (forall i, j :: 0 <= i < j < |ids| ==> ids[i] != ids[j])
  }

  class OrderCache {
    var pendingOrders: map<string, set<Id>>
    var orders: map<Id, Order>
    var lastTicks: map<string, Quote>

    ghost function View(): CacheState
      reads this
    {
      CacheState(pendingOrders, orders, lastTicks)
    }

    constructor ()
      ensures View() == EMPTY_CACHE
    {
      pendingOrders, orders, lastTicks := map[], map[], map[];
    }

    method AddPendingOrder(symbol: string, id: Id, order: Order)
      modifies this
      ensures View() == AddPending(old(View()), symbol, id, order)
    {
      var key := NormalizeSymbol(symbol);
      if key !in pendingOrders {
        pendingOrders := pendingOrders[key := {}];
      }
      pendingOrders := pendingOrders[key := pendingOrders[key] + {id}];
      orders := orders[id := order];
      assert pendingOrders == AddPending(old(View()), symbol, id, order).pending;
    }

    method RemovePendingOrder(symbol: string, id: Id)
      modifies this
      ensures View() == RemovePending(old(View()), symbol, id)
    {
      var key := NormalizeSymbol(symbol);
      if key in pendingOrders {
        pendingOrders := pendingOrders[key := pendingOrders[key] - {id}];
      }
      orders := orders - {id};
    }

    /** The hash set's iteration order is unspecified: any listing may come back. */
    method GetPendingOrders(symbol: string) returns (ids: seq<Id>)
      ensures Lists(ids, PendingIds(View(), symbol))
    {
      var key := NormalizeSymbol(symbol);
      ids := [];
      if key in pendingOrders {
        var rest := pendingOrders[key];
        while rest != {}
          invariant rest <= pendingOrders[key]
          invariant Lists(ids, pendingOrders[key] - rest)
          decreases |rest|
        {
          var id :| id in rest;
          ids := ids + [id];
          rest := rest - {id};
        }
      }
    }

    method GetOrder(id: Id) returns (order: Option<Order>)
      ensures order == if id in View().orders then Some(View().orders[id]) else None
    {
      order := if id in orders then Some(orders[id]) else None;
    }

    method UpdateCachedOrder(order: Order)
      modifies this
      ensures View() == UpdateOrder(old(View()), order)
    {
      orders := orders[order.id := order];
    }

    method UpdateLastTick(symbol: string, group: Option<string>, q: Quote)
      modifies this
      ensures View() == UpdateTick(old(View()), symbol, group, q)
    {
      lastTicks := lastTicks[QuoteKey(NormalizeSymbol(symbol), group) := q];
    }

    method GetLastTick(symbol: string, group: Option<string>) returns (q: Option<Quote>)
      ensures q == LastTick(View(), symbol, group)
    {
      var key := QuoteKey(NormalizeSymbol(symbol), group);
      q := if key in lastTicks then Some(lastTicks[key]) else None;
    }
  }
}
