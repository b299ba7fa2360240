/** What the ledger keeps over every run: money is conserved, margins add up, and a position is the
    sum of its fills; and exactly which broken-off writes spoil what. */
module LedgerTheorems {
  import opened Contracts
  import opened Orders
  import opened Liquidation
  import opened Ledgers
  import EL = EffectiveLeverage

  // ---------------------------------------------------------------- totals over the log

  datatype Key = Key(userId: Id, symbol: string, side: PositionSide)

  function KeyOf(p: Position): Key {
    Key(p.userId, p.symbol, p.side)
  }

  function EntryKey(e: Entry): Key {
    Key(e.t.userId, e.t.symbol, e.t.side)
  }

  /** The entry wrote its position record. */
  predicate Booking(e: Entry) {
    InBook(e.reach)
  }

  /** The entry wrote a new position record and broke off before listing it. */
  predicate Orphaning(e: Entry) {
    e.isNew && e.reach.Unlisted?
  }

  predicate BookedUnder(e: Entry, key: Key) {
    Booking(e) && EntryKey(e) == key
  }

  predicate BookedInto(e: Entry, id: Id) {
    Booking(e) && e.into == id
  }

  function Worth(price: real, size: real): real {
    price * size
  }

  /** What to add up. */
  datatype Measure =
    | Unsettled(userId: Id)      // margin reserved and never moved
    | Used(userId: Id)           // margin moved to used margin
    | Listed(userId: Id)         // margin booked on positions in the user's set
    | HalfDone(userId: Id)       // of that, margin never moved to used margin
    | AnyRecord(userId: Id)     // margin booked on any position of the user
    | Unmoved(userId: Id)        // of that, margin never moved to used margin
    | SizeIn(id: Id)
    | NotionalIn(id: Id)
    | MarginIn(id: Id)
    | SizeUnder(key: Key)
    | SizeElsewhere(key: Key, id: Id)

  function Part(m: Measure, e: Entry): real {
    match m
    case Unsettled(u) => if e.t.userId == u && !e.reach.Settled? then e.t.margin else 0.0
    case Used(u) => if e.t.userId == u && e.reach.Settled? then e.t.margin else 0.0
    case Listed(u) => if e.t.userId == u && Booking(e) && !Orphaning(e) then e.t.margin else 0.0
    case HalfDone(u) => if e.t.userId == u && Booking(e) && !Orphaning(e) && !e.reach.Settled? then e.t.margin else 0.0
    case AnyRecord(u) => if e.t.userId == u && Booking(e) then e.t.margin else 0.0
    case Unmoved(u) => if e.t.userId == u && Booking(e) && !e.reach.Settled? then e.t.margin else 0.0
    case SizeIn(id) => if BookedInto(e, id) then e.t.size else 0.0
    case NotionalIn(id) => if BookedInto(e, id) then Worth(e.t.price, e.t.size) else 0.0
    case MarginIn(id) => if BookedInto(e, id) then e.t.margin else 0.0
    case SizeUnder(key) => if BookedUnder(e, key) then e.t.size else 0.0
    case SizeElsewhere(key, id) => if BookedUnder(e, key) && e.into != id then e.t.size else 0.0
  }

  function SumTo(m: Measure, es: seq<Entry>, n: nat): real
    requires n <= |es|
  {
    if n == 0 then 0.0 else SumTo(m, es, n - 1) + Part(m, es[n - 1])
  }

  function Sum(m: Measure, es: seq<Entry>): real {
    SumTo(m, es, |es|)
  }

  lemma {:induction false} SumPrefix(m: Measure, es: seq<Entry>, e: Entry, n: nat)
    requires n <= |es|
    ensures SumTo(m, es + [e], n) == SumTo(m, es, n)
  {
    if n > 0 { SumPrefix(m, es, e, n - 1); }
  }

  lemma SumSnoc(m: Measure, es: seq<Entry>, e: Entry)
    ensures Sum(m, es + [e]) == Sum(m, es) + Part(m, e)
  {
    SumPrefix(m, es, e, |es|);
  }

  lemma {:induction false} SumZero(m: Measure, es: seq<Entry>, n: nat)
    requires n <= |es| && forall i :: 0 <= i < |es| ==> Part(m, es[i]) == 0.0
    ensures SumTo(m, es, n) == 0.0
  {
    if n > 0 { SumZero(m, es, n - 1); }
  }

  /** Deposits of the user, among the first `n`, whose credit got as far as field `field`. */
  function CreditedTo(u: Id, cs: seq<Credit>, n: nat, field: nat): real
    requires n <= |cs|
  {
    if n == 0 then 0.0
    else CreditedTo(u, cs, n - 1, field) + (if cs[n - 1].userId == u && cs[n - 1].fields >= field then cs[n - 1].amount else 0.0)
  }

  lemma {:induction false} CreditedPrefix(u: Id, cs: seq<Credit>, c: Credit, n: nat, field: nat)
    requires n <= |cs|
    ensures CreditedTo(u, cs + [c], n, field) == CreditedTo(u, cs, n, field)
  {
    if n > 0 { CreditedPrefix(u, cs, c, n - 1, field); }
  }

  lemma CreditedSnoc(u: Id, cs: seq<Credit>, c: Credit, field: nat)
    ensures CreditedTo(u, cs + [c], |cs| + 1, field)
         == CreditedTo(u, cs, |cs|, field) + (if c.userId == u && c.fields >= field then c.amount else 0.0)
  {
    CreditedPrefix(u, cs, c, |cs|, field);
  }

  lemma {:induction false} CreditedZero(u: Id, cs: seq<Credit>, n: nat, field: nat)
    requires n <= |cs| && forall i :: 0 <= i < |cs| ==> cs[i].userId != u
    ensures CreditedTo(u, cs, n, field) == 0.0
  {
    if n > 0 { CreditedZero(u, cs, n - 1, field); }
  }

  ghost function MarginTotal(positions: Positions, ids: set<Id>): real
    decreases |ids|
  {
    if ids == {} then 0.0
    else
      var id :| id in ids;
      (if id in positions then positions[id].margin else 0.0) + MarginTotal(positions, ids - {id})
  }

  lemma {:induction false} MarginTotalSplit(positions: Positions, ids: set<Id>, id: Id)
    requires id in ids
    ensures MarginTotal(positions, ids)
         == (if id in positions then positions[id].margin else 0.0) + MarginTotal(positions, ids - {id})
    decreases |ids|
  {
    var first :| first in ids && MarginTotal(positions, ids)
      == (if first in positions then positions[first].margin else 0.0) + MarginTotal(positions, ids - {first});
    if first != id {
      MarginTotalSplit(positions, ids - {first}, id);
      MarginTotalSplit(positions, ids - {id}, first);
      assert ids - {first} - {id} == ids - {id} - {first};
    }
  }

  lemma {:induction false} MarginTotalSame(a: Positions, b: Positions, ids: set<Id>)
    requires forall id :: id in ids ==> id in a && id in b && a[id].margin == b[id].margin
    ensures MarginTotal(a, ids) == MarginTotal(b, ids)
    decreases |ids|
  {
    if ids != {} {
      var id :| id in ids;
      MarginTotalSplit(a, ids, id);
      MarginTotalSplit(b, ids, id);
      MarginTotalSame(a, b, ids - {id});
    }
  }

  // ---------------------------------------------------------------- the invariant

  type Balances = map<Id, Balance>

  /** A balance of the user, told from the first `n` credits: each field holds what reached it. */
  predicate Holds(b: Balance, u: Id, cs: seq<Credit>, n: nat, granted: bool)
    requires n <= |cs|
  {
    var opening := if granted then 10000.0 else 0.0;
    && b.available == CreditedTo(u, cs, n, 1) + opening
    && b.equity == CreditedTo(u, cs, n, 3) + opening
    && b.freeMargin + b.marginUsed + b.locked == CreditedTo(u, cs, n, 5) + opening
    && b.freeMargin >= 0.0
  }

  predicate MarginsAre(b: Balance, u: Id, es: seq<Entry>) {
    b.locked == Sum(Unsettled(u), es) && b.marginUsed == Sum(Used(u), es)
  }

  predicate WriteIs(w: Written, cs: seq<Credit>, granted: set<Id>) {
    w.credits <= |cs| && Holds(w.balance, w.userId, cs, w.credits, w.userId in granted)
  }

  ghost predicate WritesOk(writes: seq<Written>, cs: seq<Credit>, granted: set<Id>) {
    forall i :: 0 <= i < |writes| ==> WriteIs(writes[i], cs, granted)
  }

  ghost predicate HoldingsOk(balances: Balances, cs: seq<Credit>, granted: set<Id>) {
    forall u :: u in balances ==> Holds(balances[u], u, cs, |cs|, u in granted)
  }

  ghost predicate ReservesOk(balances: Balances, es: seq<Entry>) {
    forall u :: u in balances ==> MarginsAre(balances[u], u, es)
  }

  /** Only users with a stored balance appear in the log. */
  predicate UsersOk(balances: Balances, log: Log) {
    && (forall i :: 0 <= i < |log.entries| ==> log.entries[i].t.userId in balances)
    && (forall i :: 0 <= i < |log.credits| ==> log.credits[i].userId in balances)
    && (forall i :: 0 <= i < |log.writes| ==> log.writes[i].userId in balances)
    && (forall u :: u in log.granted ==> u in balances)
  }

  predicate PositionIs(id: Id, p: Position, es: seq<Entry>) {
    && p.size == Sum(SizeIn(id), es)
    && Worth(p.avgPrice, p.size) == Sum(NotionalIn(id), es)
    && p.margin == Sum(MarginIn(id), es)
  }

  predicate Homed(e: Entry, positions: Positions) {
    Booking(e) ==> e.into in positions && KeyOf(positions[e.into]) == EntryKey(e)
  }

  /** Every position record is the sum of the entries booked into it. */
  ghost predicate PositionsOk(positions: Positions, es: seq<Entry>) {
    && (forall id :: id in positions ==> PositionIs(id, positions[id], es))
    && (forall i :: 0 <= i < |es| ==> Homed(es[i], positions))
  }

  /** Sets list open positions of their user, at most one of each symbol and side. */
  ghost predicate OwnersOk(positions: Positions, owned: Owners) {
    && (forall id :: id in positions ==> positions[id].status.Open?)
    && (forall u, id :: id in OwnedBy(owned, u) ==> id in positions && positions[id].userId == u)
    && (forall u, i, j :: i in OwnedBy(owned, u) && j in OwnedBy(owned, u) && KeyOf(positions[i]) == KeyOf(positions[j]) ==> i == j)
  }

  /** An entry's position is listed unless the entry orphaned it; an orphaned position takes no other. */
  ghost predicate ListingOk(owned: Owners, es: seq<Entry>) {
    && (forall i :: 0 <= i < |es| && Booking(es[i]) ==> (Orphaning(es[i]) <==> es[i].into !in OwnedBy(owned, es[i].t.userId)))
    && (forall i, j :: 0 <= i < |es| && 0 <= j < |es| && Booking(es[i]) && Orphaning(es[j]) && es[i].into == es[j].into ==> i == j)
  }

  /** Positions are orphaned only before one of their symbol and side is listed. */
  ghost predicate OrphansFirst(es: seq<Entry>) {
    forall i, j :: 0 <= i < j < |es| && Booking(es[i]) && Orphaning(es[j]) && EntryKey(es[i]) == EntryKey(es[j]) ==> Orphaning(es[i])
  }

  function RecordsOf(positions: Positions, user: Id): set<Id> {
    set id | id in positions && positions[id].userId == user
  }

  ghost predicate MarginsOk(positions: Positions, owned: Owners, es: seq<Entry>) {
    && (forall u :: MarginTotal(positions, OwnedBy(owned, u)) == Sum(Listed(u), es))
    && (forall u :: MarginTotal(positions, RecordsOf(positions, u)) == Sum(AnyRecord(u), es))
  }

  ghost predicate CreditsOk(requests: map<Id, Deposit>, cs: seq<Credit>) {
    && (forall i :: 0 <= i < |cs| ==> cs[i].request in requests && requests[cs[i].request] == Deposit(cs[i].userId, cs[i].amount, true))
    && (forall i, j :: 0 <= i < j < |cs| ==> cs[i].request != cs[j].request)
    && (forall id :: id in requests ==> requests[id].amount >= 10.0)
  }

  predicate EntriesOk(es: seq<Entry>) {
    forall i :: 0 <= i < |es| ==> es[i].t.margin >= 0.0
  }

  ghost predicate AccountsOk(book: Book) {
    && HoldingsOk(book.balances, book.log.credits, book.log.granted)
    && WritesOk(book.log.writes, book.log.credits, book.log.granted)
    && ReservesOk(book.balances, book.log.entries)
    && UsersOk(book.balances, book.log)
  }

  ghost predicate BookOk(book: Book) {
    && PositionsOk(book.positions, book.log.entries)
    && OwnersOk(book.positions, book.owned)
    && ListingOk(book.owned, book.log.entries)
    && OrphansFirst(book.log.entries)
    && MarginsOk(book.positions, book.owned, book.log.entries)
  }

  ghost predicate Sound(book: Book) {
    AccountsOk(book) && BookOk(book) && CreditsOk(book.requests, book.log.credits) && EntriesOk(book.log.entries)
  }

  // ---------------------------------------------------------------- the verdict

  lemma CostOverLeverage(cost: real, leverage: real)
    requires cost >= 0.0 && leverage > 0.0
    ensures cost / leverage >= 0.0
  {
    var r := cost / leverage;
    assert r * leverage == cost;
    assert r < 0.0 ==> r * leverage < 0.0;
  }

  lemma FundedFacts(book: Book, cmd: PlaceCommand, price: real)
    requires Funded(book, cmd, price).Executed?
    ensures
      var v := Funded(book, cmd, price);
      && v.price == price && v.leverage > 0.0
      && 0.0 <= v.margin <= TradingBalance(book, cmd.userId).freeMargin
  {
    var v := Funded(book, cmd, price);
    assert Cost(cmd, price) >= 0.0;
    MarginIsCostOverLeverage(cmd, price, v.leverage);
    CostOverLeverage(Cost(cmd, price), v.leverage);
  }

  lemma MarginIsCostOverLeverage(cmd: PlaceCommand, price: real, leverage: real)
    requires leverage > 0.0
    ensures CalculateMargin(cmd.size, price, leverage) == Cost(cmd, price) / leverage
  {
  }

  /** An executed order's margin is not negative and is covered by free margin. */
  lemma ExecutedFacts(book: Book, cmd: PlaceCommand)
    requires Judge(book, cmd).Executed?
    ensures
      var v := Judge(book, cmd);
      && 0.0 <= v.margin <= TradingBalance(book, cmd.userId).freeMargin
      && (cmd.userId, cmd.idempotencyKey) !in book.keys
  {
    FundedFacts(book, cmd, ExecutionPrice(cmd, book.quotes[cmd.symbol]));
  }

  lemma QuotientTimes(cost: real, leverage: real)
    requires leverage > 0.0
    ensures cost / leverage * leverage == cost
  {
  }

  lemma FundedTerms(book: Book, cmd: PlaceCommand, price: real)
    requires Funded(book, cmd, price).Executed?
    ensures
      var v := Funded(book, cmd, price);
      && v.price == price && Worth(v.margin, v.leverage) == Cost(cmd, price)
      && cmd.minLeverage.Some? && cmd.maxLeverage.Some?
      && cmd.minLeverage.value as real <= v.leverage <= cmd.maxLeverage.value as real
  {
    var v := Funded(book, cmd, price);
    MarginIsCostOverLeverage(cmd, price, v.leverage);
    QuotientTimes(Cost(cmd, price), v.leverage);
  }

  lemma JudgedPrice(book: Book, cmd: PlaceCommand)
    requires Judge(book, cmd).Executed?
    ensures cmd.symbol in book.quotes && Triggered(cmd, book.quotes[cmd.symbol])
    ensures Judge(book, cmd) == Funded(book, cmd, ExecutionPrice(cmd, book.quotes[cmd.symbol]))
  {
  }

  lemma PriceTerms(cmd: PlaceCommand, q: Quote)
    requires Triggered(cmd, q)
    ensures
      var price := ExecutionPrice(cmd, q);
      && (cmd.orderType.Market? ==> price == if cmd.side.Buy? then q.ask else q.bid)
      && (cmd.orderType.Limit? ==> cmd.limitPrice == Some(price))
      && (cmd.orderType.Limit? && cmd.side.Buy? ==> q.ask <= price)
      && (cmd.orderType.Limit? && cmd.side.Sell? ==> price <= q.bid)
  {
  }

  /** On what terms an order executes: a market order at the quote's side, a limit order at its own
      limit, even where the quote is better; margin times leverage is the cost, and the leverage lies
      within the user's bounds. */
  lemma ExecutedTerms(book: Book, cmd: PlaceCommand, v: Verdict)
    requires v == Judge(book, cmd) && v.Executed?
    ensures cmd.symbol in book.quotes
    ensures
      var q := book.quotes[cmd.symbol];
      && (cmd.orderType.Market? ==> v.price == if cmd.side.Buy? then q.ask else q.bid)
      && (cmd.orderType.Limit? ==> cmd.limitPrice == Some(v.price))
      && (cmd.orderType.Limit? && cmd.side.Buy? ==> q.ask <= v.price)
      && (cmd.orderType.Limit? && cmd.side.Sell? ==> v.price <= q.bid)
    ensures Worth(v.margin, v.leverage) == Cost(cmd, v.price)
    ensures cmd.minLeverage.Some? && cmd.maxLeverage.Some?
    ensures cmd.minLeverage.value as real <= v.leverage <= cmd.maxLeverage.value as real
  {
    JudgedPrice(book, cmd);
    var q := book.quotes[cmd.symbol];
    PriceTerms(cmd, q);
    FundedTerms(book, cmd, ExecutionPrice(cmd, q));
  }

  // ---------------------------------------------------------------- balances

  lemma FirstHolding(balances: Balances, log: Log, u: Id)
    requires UsersOk(balances, log) && u !in balances
    ensures u !in log.granted
    ensures forall field :: CreditedTo(u, log.credits, |log.credits|, field) == 0.0
  {
    forall field ensures CreditedTo(u, log.credits, |log.credits|, field) == 0.0 {
      CreditedZero(u, log.credits, |log.credits|, field);
    }
  }

  lemma FirstReserve(balances: Balances, log: Log, u: Id)
    requires UsersOk(balances, log) && u !in balances
    ensures Sum(Unsettled(u), log.entries) == 0.0 && Sum(Used(u), log.entries) == 0.0
  {
    SumZero(Unsettled(u), log.entries, |log.entries|);
    SumZero(Used(u), log.entries, |log.entries|);
  }

  lemma TradingHolds(book: Book, u: Id)
    requires AccountsOk(book)
    ensures Holds(TradingBalance(book, u), u, book.log.credits, |book.log.credits|, u in Granted(book, u))
  {
    if u !in book.balances { FirstHolding(book.balances, book.log, u); }
  }

  lemma TradingReserves(book: Book, u: Id)
    requires AccountsOk(book)
    ensures MarginsAre(TradingBalance(book, u), u, book.log.entries)
  {
    if u !in book.balances { FirstReserve(book.balances, book.log, u); }
  }

  function Charged(b: Balance, margin: real, reach: Reach): Balance {
    var reserved := Reservation(b, margin);
    if reach.Settled? then Settlement(reserved, margin) else reserved
  }

  lemma ChargedHolds(b: Balance, margin: real, reach: Reach, u: Id, cs: seq<Credit>, n: nat, granted: bool)
    requires n <= |cs| && Holds(b, u, cs, n, granted) && 0.0 <= margin <= b.freeMargin
    ensures Holds(Reservation(b, margin), u, cs, n, granted)
    ensures Holds(Charged(b, margin, reach), u, cs, n, granted)
  {
  }

  lemma ChargedMargins(b: Balance, e: Entry, es: seq<Entry>)
    requires MarginsAre(b, e.t.userId, es)
    ensures MarginsAre(Charged(b, e.t.margin, e.reach), e.t.userId, es + [e])
  {
    SumSnoc(Unsettled(e.t.userId), es, e);
    SumSnoc(Used(e.t.userId), es, e);
  }

  lemma OtherMargins(b: Balance, u: Id, e: Entry, es: seq<Entry>)
    requires u != e.t.userId && MarginsAre(b, u, es)
    ensures MarginsAre(b, u, es + [e])
  {
    SumSnoc(Unsettled(u), es, e);
    SumSnoc(Used(u), es, e);
  }

  lemma ExecuteHoldings(book: Book, t: Terms, reach: Reach)
    requires AccountsOk(book) && 0.0 <= t.margin <= TradingBalance(book, t.userId).freeMargin
    ensures HoldingsOk(book.balances[t.userId := Charged(TradingBalance(book, t.userId), t.margin, reach)],
                       book.log.credits, Granted(book, t.userId))
  {
    TradingHolds(book, t.userId);
    ChargedHolds(TradingBalance(book, t.userId), t.margin, reach, t.userId, book.log.credits, |book.log.credits|,
                 t.userId in Granted(book, t.userId));
  }

  lemma ExecuteReserves(book: Book, e: Entry)
    requires AccountsOk(book)
    ensures ReservesOk(book.balances[e.t.userId := Charged(TradingBalance(book, e.t.userId), e.t.margin, e.reach)], book.log.entries + [e])
  {
    var b := TradingBalance(book, e.t.userId);
    TradingReserves(book, e.t.userId);
    ChargedMargins(b, e, book.log.entries);
    forall u | u in book.balances && u != e.t.userId ensures MarginsAre(book.balances[u], u, book.log.entries + [e]) {
      OtherMargins(book.balances[u], u, e, book.log.entries);
    }
  }

  /** A grant made now concerns a user of whom nothing was written before. */
  lemma EarlierWrites(book: Book, u: Id)
    requires AccountsOk(book)
    ensures WritesOk(book.log.writes, book.log.credits, Granted(book, u))
  {
    var writes := book.log.writes;
    forall i | 0 <= i < |writes| ensures WriteIs(writes[i], book.log.credits, Granted(book, u)) {
      assert WriteIs(writes[i], book.log.credits, book.log.granted) && writes[i].userId in book.balances;
    }
  }

  lemma ExecuteWrites(book: Book, t: Terms, reach: Reach)
    requires AccountsOk(book) && 0.0 <= t.margin <= TradingBalance(book, t.userId).freeMargin
    ensures
      var n := |book.log.credits|;
      WritesOk(book.log.writes + ChargeWrites(TradingBalance(book, t.userId), t, reach, n), book.log.credits, Granted(book, t.userId))
  {
    var b, cs := TradingBalance(book, t.userId), book.log.credits;
    EarlierWrites(book, t.userId);
    TradingHolds(book, t.userId);
    ChargedHolds(b, t.margin, reach, t.userId, cs, |cs|, t.userId in Granted(book, t.userId));
    var added := ChargeWrites(b, t, reach, |cs|);
    forall i | 0 <= i < |added| ensures WriteIs(added[i], cs, Granted(book, t.userId)) {
      assert added[i].balance == Reservation(b, t.margin) || added[i].balance == Charged(b, t.margin, reach);
    }
  }

  lemma ExecuteUsers(book: Book, cmd: PlaceCommand, t: Terms, leverage: real, orderId: Id, hit: Option<Id>, newId: Id, reach: Reach)
    requires UsersOk(book.balances, book.log)
    ensures
      var book' := Execute(book, cmd, t, leverage, orderId, hit, newId, reach);
      UsersOk(book'.balances, book'.log)
  {
  }

  lemma ExecuteAccounts(book: Book, cmd: PlaceCommand, t: Terms, leverage: real, orderId: Id, hit: Option<Id>, newId: Id, reach: Reach)
    requires AccountsOk(book) && 0.0 <= t.margin <= TradingBalance(book, t.userId).freeMargin
    ensures AccountsOk(Execute(book, cmd, t, leverage, orderId, hit, newId, reach))
  {
    ExecuteHoldings(book, t, reach);
    ExecuteWrites(book, t, reach);
    ExecuteReserves(book, EntryOf(t, reach, hit, newId));
    ExecuteUsers(book, cmd, t, leverage, orderId, hit, newId, reach);
  }

  // ---------------------------------------------------------------- positions

  /** The position that takes the fill, before and after. */
  ghost predicate Takes(before: Option<Position>, after: Position, t: Terms) {
    && KeyOf(after) == Key(t.userId, t.symbol, t.side) && after.status.Open?
    && (before.Some? ==> KeyOf(before.value) == KeyOf(after))
    && after.size == (if before.Some? then before.value.size else 0.0) + t.size
    && after.margin == (if before.Some? then before.value.margin else 0.0) + t.margin
    && Worth(after.avgPrice, after.size) == (if before.Some? then Worth(before.value.avgPrice, before.value.size) else 0.0) + Worth(t.price, t.size)
  }

  function At(positions: Positions, id: Id): Option<Position> {
    if id in positions then Some(positions[id]) else None
  }

  ghost predicate HasListed(positions: Positions, owned: Owners, key: Key) {
    exists id :: id in OwnedBy(owned, key.userId) && id in positions && KeyOf(positions[id]) == key
  }

  /** The entry was merged into a listed position or opened one, which it may have orphaned. */
  ghost predicate Books(positions: Positions, owned: Owners, positions': Positions, owned': Owners, e: Entry) {
    && Booking(e) && (e.isNew <==> e.into !in positions)
    && e.into in positions' && Takes(At(positions, e.into), positions'[e.into], e.t)
    && positions' == positions[e.into := positions'[e.into]]
    && (e.isNew ==> !HasListed(positions, owned, EntryKey(e)))
    && (!e.isNew ==> e.into in OwnedBy(owned, e.t.userId))
    && OwnedBy(owned', e.t.userId) == (if Orphaning(e) then OwnedBy(owned, e.t.userId) else OwnedBy(owned, e.t.userId) + {e.into})
    && (forall u :: u != e.t.userId ==> OwnedBy(owned', u) == OwnedBy(owned, u))
  }

  lemma MergedWorth(p: Position, size: Size, price: real, margin: real)
    ensures
      var q := Merge(p, size, price, margin);
      && KeyOf(q) == KeyOf(p) && q.status == p.status
      && q.size == p.size + size && q.margin == p.margin + margin
      && Worth(q.avgPrice, q.size) == Worth(p.avgPrice, p.size) + Worth(price, size)
  {
    var total := p.size + size;
    var q := (p.avgPrice * p.size + price * size) / total;
    assert q * total == p.avgPrice * p.size + price * size;
  }

  lemma UpdateBooks(positions: Positions, owned: Owners, t: Terms, leverage: real, hit: Option<Id>, newId: Id, reach: Reach)
    requires OwnersOk(positions, owned) && InBook(reach) && newId !in positions
    requires Found(positions, owned, t.userId, t.symbol, t.side, hit)
    ensures
      var (positions', owned') := UpdatePosition(positions, owned, t, leverage, hit, newId, !reach.Unlisted?);
      Books(positions, owned, positions', owned', EntryOf(t, reach, hit, newId))
  {
    if hit.Some? {
      MergedWorth(positions[hit.value], t.size, t.price, t.margin);
    } else {
      forall k | k in OwnedBy(owned, t.userId) && k in positions ensures KeyOf(positions[k]) != Key(t.userId, t.symbol, t.side) {
        assert !Matches(positions, owned, k, t.userId, t.symbol, t.side);
      }
    }
  }

  lemma PositionAfter(id: Id, p: Position, es: seq<Entry>, e: Entry)
    requires PositionIs(id, p, es) && !BookedInto(e, id)
    ensures PositionIs(id, p, es + [e])
  {
    SumSnoc(SizeIn(id), es, e);
    SumSnoc(NotionalIn(id), es, e);
    SumSnoc(MarginIn(id), es, e);
  }

  lemma NothingInto(positions: Positions, es: seq<Entry>, id: Id)
    requires PositionsOk(positions, es) && id !in positions
    ensures Sum(SizeIn(id), es) == 0.0 && Sum(NotionalIn(id), es) == 0.0 && Sum(MarginIn(id), es) == 0.0
  {
    forall i | 0 <= i < |es| ensures !BookedInto(es[i], id) { assert Homed(es[i], positions); }
    SumZero(SizeIn(id), es, |es|);
    SumZero(NotionalIn(id), es, |es|);
    SumZero(MarginIn(id), es, |es|);
  }

  lemma TakenPosition(positions: Positions, es: seq<Entry>, e: Entry, after: Position)
    requires PositionsOk(positions, es) && Booking(e) && Takes(At(positions, e.into), after, e.t)
    ensures PositionIs(e.into, after, es + [e])
  {
    SumSnoc(SizeIn(e.into), es, e);
    SumSnoc(NotionalIn(e.into), es, e);
    SumSnoc(MarginIn(e.into), es, e);
    if e.into in positions {
      assert PositionIs(e.into, positions[e.into], es);
    } else {
      NothingInto(positions, es, e.into);
    }
  }

  lemma BooksPositions(positions: Positions, owned: Owners, positions': Positions, owned': Owners, es: seq<Entry>, e: Entry)
    requires PositionsOk(positions, es) && Books(positions, owned, positions', owned', e)
    ensures PositionsOk(positions', es + [e])
  {
    TakenPosition(positions, es, e, positions'[e.into]);
    forall k | k in positions && k != e.into ensures PositionIs(k, positions[k], es + [e]) {
      PositionAfter(k, positions[k], es, e);
    }
    BooksHomes(positions, owned, positions', owned', es, e);
  }

  lemma BooksHomes(positions: Positions, owned: Owners, positions': Positions, owned': Owners, es: seq<Entry>, e: Entry)
    requires Books(positions, owned, positions', owned', e)
    requires forall i :: 0 <= i < |es| ==> Homed(es[i], positions)
    ensures
      var es' := es + [e];
      forall i :: 0 <= i < |es'| ==> Homed(es'[i], positions')
  {
    forall i | 0 <= i < |es| ensures Homed(es[i], positions') { assert Homed(es[i], positions); }
  }

  lemma BooksOwners(positions: Positions, owned: Owners, positions': Positions, owned': Owners, e: Entry)
    requires OwnersOk(positions, owned) && Books(positions, owned, positions', owned', e)
    ensures OwnersOk(positions', owned')
  {
    forall u, id | id in OwnedBy(owned', u) ensures id in positions' && positions'[id].userId == u {
      assert id in OwnedBy(owned, u) || id == e.into;
    }
    forall u, i, j | i in OwnedBy(owned', u) && j in OwnedBy(owned', u) && KeyOf(positions'[i]) == KeyOf(positions'[j]) ensures i == j {
      assert i in OwnedBy(owned, u) || i == e.into;
      assert j in OwnedBy(owned, u) || j == e.into;
    }
  }

  lemma BooksListing(positions: Positions, owned: Owners, positions': Positions, owned': Owners, es: seq<Entry>, e: Entry)
    requires PositionsOk(positions, es) && OwnersOk(positions, owned) && ListingOk(owned, es)
    requires Books(positions, owned, positions', owned', e)
    ensures ListingOk(owned', es + [e])
  {
    forall i | 0 <= i < |es| && Booking(es[i])
      ensures es[i].into in OwnedBy(owned', es[i].t.userId) <==> es[i].into in OwnedBy(owned, es[i].t.userId)
      ensures es[i].into == e.into ==> !Orphaning(es[i]) && !Orphaning(e)
    {
      assert Homed(es[i], positions);
    }
  }

  lemma BooksOrphans(positions: Positions, owned: Owners, positions': Positions, owned': Owners, es: seq<Entry>, e: Entry)
    requires PositionsOk(positions, es) && ListingOk(owned, es) && OrphansFirst(es) && Books(positions, owned, positions', owned', e)
    ensures OrphansFirst(es + [e])
  {
    forall i | 0 <= i < |es| && Booking(es[i]) && Orphaning(e) && EntryKey(es[i]) == EntryKey(e) ensures Orphaning(es[i]) {
      assert Homed(es[i], positions);
      assert es[i].into in OwnedBy(owned, es[i].t.userId) ==> HasListed(positions, owned, EntryKey(e));
    }
  }

  lemma OneMoreMargin(positions: Positions, positions': Positions, mine: set<Id>, mine': set<Id>, id: Id, margin: real)
    requires forall k :: k in mine ==> k in positions
    requires id in positions' && positions' == positions[id := positions'[id]] && mine' == mine + {id}
    requires id in positions <==> id in mine
    requires positions'[id].margin == (if id in positions then positions[id].margin else 0.0) + margin
    ensures MarginTotal(positions', mine') == MarginTotal(positions, mine) + margin
  {
    MarginTotalSplit(positions', mine', id);
    assert mine' - {id} == mine - {id};
    MarginTotalSame(positions, positions', mine - {id});
    if id in mine { MarginTotalSplit(positions, mine, id); } else { assert mine - {id} == mine; }
  }

  lemma BooksListedMargin(positions: Positions, owned: Owners, positions': Positions, owned': Owners, es: seq<Entry>, e: Entry, u: Id)
    requires OwnersOk(positions, owned) && Books(positions, owned, positions', owned', e)
    requires MarginTotal(positions, OwnedBy(owned, u)) == Sum(Listed(u), es)
    ensures MarginTotal(positions', OwnedBy(owned', u)) == Sum(Listed(u), es + [e])
  {
    SumSnoc(Listed(u), es, e);
    if u == e.t.userId && !Orphaning(e) {
      OneMoreMargin(positions, positions', OwnedBy(owned, u), OwnedBy(owned', u), e.into, e.t.margin);
    } else {
      MarginTotalSame(positions, positions', OwnedBy(owned, u));
    }
  }

  lemma BooksRecordMargin(positions: Positions, owned: Owners, positions': Positions, owned': Owners, es: seq<Entry>, e: Entry, u: Id)
    requires Books(positions, owned, positions', owned', e)
    requires MarginTotal(positions, RecordsOf(positions, u)) == Sum(AnyRecord(u), es)
    ensures MarginTotal(positions', RecordsOf(positions', u)) == Sum(AnyRecord(u), es + [e])
  {
    SumSnoc(AnyRecord(u), es, e);
    if u == e.t.userId {
      assert RecordsOf(positions', u) == RecordsOf(positions, u) + {e.into};
      OneMoreMargin(positions, positions', RecordsOf(positions, u), RecordsOf(positions', u), e.into, e.t.margin);
    } else {
      assert RecordsOf(positions', u) == RecordsOf(positions, u);
      MarginTotalSame(positions, positions', RecordsOf(positions, u));
    }
  }

  lemma BooksMargins(positions: Positions, owned: Owners, positions': Positions, owned': Owners, es: seq<Entry>, e: Entry)
    requires OwnersOk(positions, owned) && MarginsOk(positions, owned, es) && Books(positions, owned, positions', owned', e)
    ensures MarginsOk(positions', owned', es + [e])
  {
    forall u ensures MarginTotal(positions', OwnedBy(owned', u)) == Sum(Listed(u), es + [e]) {
      BooksListedMargin(positions, owned, positions', owned', es, e, u);
    }
    forall u ensures MarginTotal(positions', RecordsOf(positions', u)) == Sum(AnyRecord(u), es + [e]) {
      BooksRecordMargin(positions, owned, positions', owned', es, e, u);
    }
  }

  /** An entry that never reached the position book leaves every total alone. */
  lemma Unbooked(positions: Positions, owned: Owners, es: seq<Entry>, e: Entry)
    requires PositionsOk(positions, es) && MarginsOk(positions, owned, es) && !Booking(e)
    ensures PositionsOk(positions, es + [e]) && MarginsOk(positions, owned, es + [e])
  {
    forall id | id in positions ensures PositionIs(id, positions[id], es + [e]) {
      PositionAfter(id, positions[id], es, e);
    }
    forall u
      ensures MarginTotal(positions, OwnedBy(owned, u)) == Sum(Listed(u), es + [e])
      ensures MarginTotal(positions, RecordsOf(positions, u)) == Sum(AnyRecord(u), es + [e])
    {
      SumSnoc(Listed(u), es, e);
      SumSnoc(AnyRecord(u), es, e);
    }
  }

  lemma UnbookedOrder(owned: Owners, es: seq<Entry>, e: Entry)
    requires ListingOk(owned, es) && OrphansFirst(es) && !Booking(e)
    ensures ListingOk(owned, es + [e]) && OrphansFirst(es + [e])
  {
  }

  lemma BookingBook(book: Book, t: Terms, leverage: real, hit: Option<Id>, newId: Id, reach: Reach)
    requires BookOk(book) && InBook(reach)
    requires newId !in book.positions && Found(book.positions, book.owned, t.userId, t.symbol, t.side, hit)
    ensures
      var (positions', owned') := UpdatePosition(book.positions, book.owned, t, leverage, hit, newId, !reach.Unlisted?);
      var es' := book.log.entries + [EntryOf(t, reach, hit, newId)];
      && PositionsOk(positions', es') && OwnersOk(positions', owned') && ListingOk(owned', es') && OrphansFirst(es')
      && MarginsOk(positions', owned', es')
  {
    var positions, owned, es := book.positions, book.owned, book.log.entries;
    var (positions', owned') := UpdatePosition(positions, owned, t, leverage, hit, newId, !reach.Unlisted?);
    var e := EntryOf(t, reach, hit, newId);
    UpdateBooks(positions, owned, t, leverage, hit, newId, reach);
    BooksPositions(positions, owned, positions', owned', es, e);
    BooksOwners(positions, owned, positions', owned', e);
    BooksListing(positions, owned, positions', owned', es, e);
    BooksOrphans(positions, owned, positions', owned', es, e);
    BooksMargins(positions, owned, positions', owned', es, e);
  }

  lemma ExecuteBook(book: Book, cmd: PlaceCommand, t: Terms, leverage: real, orderId: Id, hit: Option<Id>, newId: Id, reach: Reach)
    requires BookOk(book)
    requires newId !in book.positions && Found(book.positions, book.owned, t.userId, t.symbol, t.side, hit)
    ensures BookOk(Execute(book, cmd, t, leverage, orderId, hit, newId, reach))
  {
    if InBook(reach) {
      BookingBook(book, t, leverage, hit, newId, reach);
    } else {
      Unbooked(book.positions, book.owned, book.log.entries, EntryOf(t, reach, hit, newId));
      UnbookedOrder(book.owned, book.log.entries, EntryOf(t, reach, hit, newId));
    }
  }

  // ---------------------------------------------------------------- every step

  lemma ExecuteRest(book: Book, cmd: PlaceCommand, t: Terms, leverage: real, orderId: Id, hit: Option<Id>, newId: Id, reach: Reach)
    requires EntriesOk(book.log.entries) && t.margin >= 0.0
    ensures
      var book' := Execute(book, cmd, t, leverage, orderId, hit, newId, reach);
      EntriesOk(book'.log.entries) && book'.requests == book.requests && book'.log.credits == book.log.credits
  {
  }

  lemma ExecuteSound(book: Book, cmd: PlaceCommand, t: Terms, leverage: real, orderId: Id, hit: Option<Id>, newId: Id, reach: Reach)
    requires Sound(book) && 0.0 <= t.margin <= TradingBalance(book, t.userId).freeMargin
    requires newId !in book.positions && Found(book.positions, book.owned, t.userId, t.symbol, t.side, hit)
    ensures Sound(Execute(book, cmd, t, leverage, orderId, hit, newId, reach))
  {
    ExecuteAccounts(book, cmd, t, leverage, orderId, hit, newId, reach);
    ExecuteBook(book, cmd, t, leverage, orderId, hit, newId, reach);
    ExecuteRest(book, cmd, t, leverage, orderId, hit, newId, reach);
  }

  lemma PlaceSound(book: Book, cmd: PlaceCommand, orderId: Id, newId: Id, hit: Option<Id>, reach: Reach)
    requires Sound(book) && cmd.size > 0.0
    requires newId !in book.positions && Found(book.positions, book.owned, cmd.userId, cmd.symbol, SideOf(cmd.side), hit)
    ensures Sound(Place(book, cmd, orderId, newId, hit, reach))
  {
    var v := Judge(book, cmd);
    if v.Executed? { ExecutedFacts(book, cmd); }
    CarriedOutSound(book, cmd, v, orderId, newId, hit, reach);
  }

  lemma CarriedOutSound(book: Book, cmd: PlaceCommand, v: Verdict, orderId: Id, newId: Id, hit: Option<Id>, reach: Reach)
    requires Sound(book) && cmd.size > 0.0
    requires v.Executed? ==> 0.0 <= v.margin <= TradingBalance(book, cmd.userId).freeMargin
    requires newId !in book.positions && Found(book.positions, book.owned, cmd.userId, cmd.symbol, SideOf(cmd.side), hit)
    ensures Sound(CarriedOut(book, cmd, v, orderId, newId, hit, reach))
  {
    if v.Executed? && !reach.Keyed? {
      CarriedThroughSound(book, cmd, v, orderId, newId, hit, reach);
    } else {
      LeftSound(book, cmd, v, orderId, newId, hit, reach);
    }
  }

  lemma CarriedThroughSound(book: Book, cmd: PlaceCommand, v: Verdict, orderId: Id, newId: Id, hit: Option<Id>, reach: Reach)
    requires Sound(book) && cmd.size > 0.0 && v.Executed? && !reach.Keyed?
    requires 0.0 <= v.margin <= TradingBalance(book, cmd.userId).freeMargin
    requires newId !in book.positions && Found(book.positions, book.owned, cmd.userId, cmd.symbol, SideOf(cmd.side), hit)
    ensures Sound(CarriedOut(book, cmd, v, orderId, newId, hit, reach))
  {
    var remembered := Remember(book, cmd, orderId);
    RememberSound(book, cmd, orderId);
    RememberKeeps(book, cmd, orderId);
    ExecuteSound(remembered, cmd, TermsOf(cmd, v), v.leverage, orderId, hit, newId, reach);
    CarriedThroughIs(book, cmd, v, orderId, newId, hit, reach);
  }

  lemma CarriedThroughIs(book: Book, cmd: PlaceCommand, v: Verdict, orderId: Id, newId: Id, hit: Option<Id>, reach: Reach)
    requires cmd.size > 0.0 && v.Executed? && !reach.Keyed?
    ensures CarriedOut(book, cmd, v, orderId, newId, hit, reach)
         == Execute(Remember(book, cmd, orderId), cmd, TermsOf(cmd, v), v.leverage, orderId, hit, newId, reach)
  {
  }

  lemma RememberKeeps(book: Book, cmd: PlaceCommand, orderId: Id)
    ensures
      var book' := Remember(book, cmd, orderId);
      && book'.positions == book.positions && book'.owned == book.owned
      && TradingBalance(book', cmd.userId) == TradingBalance(book, cmd.userId)
  {
  }

  lemma LeftSound(book: Book, cmd: PlaceCommand, v: Verdict, orderId: Id, newId: Id, hit: Option<Id>, reach: Reach)
    requires Sound(book) && cmd.size > 0.0 && (v.Executed? ==> reach.Keyed?)
    ensures Sound(CarriedOut(book, cmd, v, orderId, newId, hit, reach))
  {
    RememberSound(book, cmd, orderId);
    RememberSound(book, cmd, cmd.orderId);
  }

  lemma RememberSound(book: Book, cmd: PlaceCommand, orderId: Id)
    requires Sound(book)
    ensures Sound(Remember(book, cmd, orderId))
  {
  }

  lemma ApprovedHolds(b: Balance, u: Id, cs: seq<Credit>, c: Credit, granted: bool)
    requires Holds(b, u, cs, |cs|, granted) && c.amount >= 0.0
    ensures Holds(if c.userId == u then Deposited(b, c.amount, c.fields) else b, u, cs + [c], |cs| + 1, granted)
  {
    CreditedSnoc(u, cs, c, 1);
    CreditedSnoc(u, cs, c, 3);
    CreditedSnoc(u, cs, c, 5);
  }

  lemma EarlierHolds(w: Written, cs: seq<Credit>, c: Credit, granted: set<Id>)
    requires WriteIs(w, cs, granted)
    ensures WriteIs(w, cs + [c], granted)
  {
    CreditedPrefix(w.userId, cs, c, w.credits, 1);
    CreditedPrefix(w.userId, cs, c, w.credits, 3);
    CreditedPrefix(w.userId, cs, c, w.credits, 5);
  }

  function Stored(balances: Balances, u: Id): Balance {
    if u in balances then balances[u] else NOTHING
  }

  lemma StoredHolds(book: Book, u: Id)
    requires AccountsOk(book)
    ensures Holds(Stored(book.balances, u), u, book.log.credits, |book.log.credits|, u in book.log.granted)
  {
    if u !in book.balances { FirstHolding(book.balances, book.log, u); }
  }

  lemma ApprovedHoldings(book: Book, c: Credit)
    requires AccountsOk(book) && c.amount >= 0.0
    ensures HoldingsOk(book.balances[c.userId := Deposited(Stored(book.balances, c.userId), c.amount, c.fields)],
                       book.log.credits + [c], book.log.granted)
  {
    StoredHolds(book, c.userId);
    ApprovedHolds(Stored(book.balances, c.userId), c.userId, book.log.credits, c, c.userId in book.log.granted);
    forall u | u in book.balances && u != c.userId
      ensures Holds(book.balances[u], u, book.log.credits + [c], |book.log.credits| + 1, u in book.log.granted)
    {
      ApprovedHolds(book.balances[u], u, book.log.credits, c, u in book.log.granted);
    }
  }

  lemma ApprovedWrites(book: Book, c: Credit)
    requires AccountsOk(book) && c.amount >= 0.0
    ensures
      var b := Deposited(Stored(book.balances, c.userId), c.amount, c.fields);
      WritesOk(book.log.writes + [Written(c.userId, b, |book.log.credits| + 1)], book.log.credits + [c], book.log.granted)
  {
    StoredHolds(book, c.userId);
    ApprovedHolds(Stored(book.balances, c.userId), c.userId, book.log.credits, c, c.userId in book.log.granted);
    var writes := book.log.writes;
    forall i | 0 <= i < |writes| ensures WriteIs(writes[i], book.log.credits + [c], book.log.granted) {
      EarlierHolds(writes[i], book.log.credits, c, book.log.granted);
    }
  }

  lemma ApprovedReserves(book: Book, c: Credit)
    requires AccountsOk(book)
    ensures ReservesOk(book.balances[c.userId := Deposited(Stored(book.balances, c.userId), c.amount, c.fields)], book.log.entries)
  {
    if c.userId !in book.balances { FirstReserve(book.balances, book.log, c.userId); }
    assert forall u :: u in book.balances ==> MarginsAre(book.balances[u], u, book.log.entries);
  }

  lemma ApprovedUsers(balances: Balances, log: Log, b: Balance, c: Credit, w: Written)
    requires UsersOk(balances, log) && w.userId == c.userId
    ensures UsersOk(balances[c.userId := b], log.(writes := log.writes + [w], credits := log.credits + [c]))
  {
  }

  lemma ApprovedCredits(requests: map<Id, Deposit>, cs: seq<Credit>, id: Id, fields: nat)
    requires CreditsOk(requests, cs) && id in requests && !requests[id].approved
    ensures
      var d := requests[id];
      var marked := requests[id := d.(approved := true)];
      CreditsOk(marked, cs) && CreditsOk(marked, cs + [Credit(id, d.userId, d.amount, fields)])
  {
    forall i | 0 <= i < |cs| ensures cs[i].request != id {
    }
  }

  lemma ApproveSound(book: Book, id: Id, fields: nat)
    requires Sound(book)
    ensures Sound(ApproveDeposit(book, id, fields).0)
  {
    if id in book.requests && !book.requests[id].approved {
      var d := book.requests[id];
      ApprovedCredits(book.requests, book.log.credits, id, fields);
      if fields > 0 {
        var c := Credit(id, d.userId, d.amount, fields);
        var b := Deposited(Stored(book.balances, d.userId), d.amount, fields);
        ApprovedHoldings(book, c);
        ApprovedWrites(book, c);
        ApprovedReserves(book, c);
        ApprovedUsers(book.balances, book.log, b, c, Written(d.userId, b, |book.log.credits| + 1));
      }
    }
  }

  lemma RequestedCredits(requests: map<Id, Deposit>, cs: seq<Credit>, id: Id, d: Deposit)
    requires CreditsOk(requests, cs) && id !in requests && d.amount >= 10.0
    ensures CreditsOk(requests[id := d], cs)
  {
  }

  lemma StepSound(book: Book, ev: Event)
    requires Sound(book) && Possible(book, ev)
    ensures Sound(Step(book, ev))
  {
    match ev
    case Quoted(_, _) =>
    case Placed(cmd, orderId, positionId, hit, reach) =>
      if cmd.size > 0.0 { PlaceSound(book, cmd, orderId, positionId, hit, reach); }
    case CancelAsked(_) =>
    case DepositAsked(id, user, amount) =>
      if Depositable(amount) { RequestedCredits(book.requests, book.log.credits, id, Deposit(user, amount, false)); }
    case DepositApproved(id, fields) => ApproveSound(book, id, fields);
  }

  lemma {:induction false} RunSound(book: Book, events: seq<Event>)
    requires Sound(book) && PossibleRun(book, events)
    ensures Sound(Run(book, events))
    decreases |events|
  {
    if events != [] {
      StepSound(book, events[0]);
      RunSound(Step(book, events[0]), events[1..]);
    }
  }

  lemma EmptySound()
    ensures Sound(EMPTY_BOOK)
  {
  }

  // ---------------------------------------------------------------- money

  /** Two fields of the user's balance received the same deposits exactly when none broke off between them. */
  lemma {:induction false} SameCreditsIff(u: Id, cs: seq<Credit>, n: nat, lo: nat, hi: nat)
    requires n <= |cs| && lo <= hi && forall i :: 0 <= i < |cs| ==> cs[i].amount > 0.0
    ensures CreditedTo(u, cs, n, hi) <= CreditedTo(u, cs, n, lo)
    ensures CreditedTo(u, cs, n, hi) == CreditedTo(u, cs, n, lo)
            <==> forall i :: 0 <= i < n && cs[i].userId == u ==> !(lo <= cs[i].fields < hi)
  {
    if n > 0 { SameCreditsIff(u, cs, n - 1, lo, hi); }
  }

  /** No deposit of the user, among the first `n`, broke off after field `lo` and before field `hi`. */
  predicate NoneBroken(u: Id, cs: seq<Credit>, n: nat, lo: nat, hi: nat)
    requires n <= |cs|
  {
    forall i :: 0 <= i < n && cs[i].userId == u ==> !(lo <= cs[i].fields < hi)
  }

  lemma AddsUpIff(b: Balance, u: Id, cs: seq<Credit>, n: nat, granted: bool)
    requires n <= |cs| && Holds(b, u, cs, n, granted) && forall i :: 0 <= i < |cs| ==> cs[i].amount > 0.0
    ensures b.freeMargin + b.marginUsed + b.locked == b.equity <==> NoneBroken(u, cs, n, 3, 5)
    ensures b.available == b.equity <==> NoneBroken(u, cs, n, 1, 3)
  {
    SameCreditsIff(u, cs, n, 3, 5);
    SameCreditsIff(u, cs, n, 1, 3);
  }

  lemma AmountsPositive(book: Book)
    requires Sound(book)
    ensures forall i :: 0 <= i < |book.log.credits| ==> book.log.credits[i].amount > 0.0
  {
  }

  /** Over every run, every balance written after an order or a deposit holds the opening balance, if
      the user got one, and exactly the deposits whose credit reached the field; free margin is never
      below zero; and the balance adds up exactly when no earlier deposit of its user broke off
      between the equity field and the free-margin field. */
  lemma MoneyConserved(events: seq<Event>, i: nat)
    requires PossibleRun(EMPTY_BOOK, events) && i < |Run(EMPTY_BOOK, events).log.writes|
    ensures
      var log := Run(EMPTY_BOOK, events).log;
      var w := log.writes[i];
      && w.credits <= |log.credits|
      && Holds(w.balance, w.userId, log.credits, w.credits, w.userId in log.granted)
      && (w.balance.freeMargin + w.balance.marginUsed + w.balance.locked == w.balance.equity
          <==> NoneBroken(w.userId, log.credits, w.credits, 3, 5))
      && (w.balance.available == w.balance.equity <==> NoneBroken(w.userId, log.credits, w.credits, 1, 3))
  {
    EmptySound();
    RunSound(EMPTY_BOOK, events);
    var book := Run(EMPTY_BOOK, events);
    var w := book.log.writes[i];
    assert WriteIs(w, book.log.credits, book.log.granted);
    AmountsPositive(book);
    AddsUpIff(w.balance, w.userId, book.log.credits, w.credits, w.userId in book.log.granted);
  }

  /** The same of every stored balance, with all credits so far. */
  lemma StoredMoneyConserved(events: seq<Event>, u: Id)
    requires PossibleRun(EMPTY_BOOK, events) && u in Run(EMPTY_BOOK, events).balances
    ensures
      var book := Run(EMPTY_BOOK, events);
      var b, cs := book.balances[u], book.log.credits;
      && Holds(b, u, cs, |cs|, u in book.log.granted)
      && (b.freeMargin + b.marginUsed + b.locked == b.equity <==> NoneBroken(u, cs, |cs|, 3, 5))
      && (b.available == b.equity <==> NoneBroken(u, cs, |cs|, 1, 3))
  {
    EmptySound();
    RunSound(EMPTY_BOOK, events);
    var book := Run(EMPTY_BOOK, events);
    AmountsPositive(book);
    AddsUpIff(book.balances[u], u, book.log.credits, |book.log.credits|, u in book.log.granted);
  }

  /** Each request is credited at most once, and only when approved. */
  lemma CreditedOnce(events: seq<Event>)
    requires PossibleRun(EMPTY_BOOK, events)
    ensures
      var book := Run(EMPTY_BOOK, events);
      var cs := book.log.credits;
      && (forall i, j :: 0 <= i < j < |cs| ==> cs[i].request != cs[j].request)
      && (forall i :: 0 <= i < |cs| ==> cs[i].request in book.requests && book.requests[cs[i].request] == Deposit(cs[i].userId, cs[i].amount, true))
  {
    EmptySound();
    RunSound(EMPTY_BOOK, events);
  }

  // ---------------------------------------------------------------- margins at rest

  predicate Summed(m: Measure) {
    m.Unsettled? || m.HalfDone? || m.Unmoved? || m.SizeElsewhere?
  }

  lemma {:induction false} NonNegative(m: Measure, es: seq<Entry>, n: nat)
    requires Summed(m) && EntriesOk(es) && n <= |es|
    ensures SumTo(m, es, n) >= 0.0
    ensures SumTo(m, es, n) == 0.0 <==> forall i :: 0 <= i < n ==> Part(m, es[i]) == 0.0
  {
    if n > 0 { NonNegative(m, es, n - 1); }
  }

  lemma {:induction false} UsedSplits(u: Id, es: seq<Entry>, n: nat)
    requires n <= |es|
    ensures SumTo(Listed(u), es, n) == SumTo(Used(u), es, n) + SumTo(HalfDone(u), es, n)
    ensures SumTo(AnyRecord(u), es, n) == SumTo(Used(u), es, n) + SumTo(Unmoved(u), es, n)
  {
    if n > 0 { UsedSplits(u, es, n - 1); }
  }

  lemma NoneOf(m: Measure, es: seq<Entry>)
    requires Summed(m) && EntriesOk(es)
    ensures Sum(m, es) == 0.0 <==> forall i :: 0 <= i < |es| ==> Part(m, es[i]) == 0.0
  {
    NonNegative(m, es, |es|);
  }

  /** Nothing stays locked exactly when no order of the user broke off before its last write with some
      margin. Used margin is the sum of the margins in the user's position set exactly when none with
      margin broke off after its position was in the set; and of the margins on all the user's position
      records exactly when none broke off after writing its record. */
  lemma MarginsAtRest(events: seq<Event>, u: Id)
    requires PossibleRun(EMPTY_BOOK, events) && u in Run(EMPTY_BOOK, events).balances
    ensures
      var book := Run(EMPTY_BOOK, events);
      var b, es := book.balances[u], book.log.entries;
      && (b.locked == 0.0 <==> forall i :: 0 <= i < |es| ==> Part(Unsettled(u), es[i]) == 0.0)
      && (b.marginUsed == MarginTotal(book.positions, OwnedBy(book.owned, u))
          <==> forall i :: 0 <= i < |es| ==> Part(HalfDone(u), es[i]) == 0.0)
      && (b.marginUsed == MarginTotal(book.positions, RecordsOf(book.positions, u))
          <==> forall i :: 0 <= i < |es| ==> Part(Unmoved(u), es[i]) == 0.0)
  {
    EmptySound();
    RunSound(EMPTY_BOOK, events);
    var book := Run(EMPTY_BOOK, events);
    var es := book.log.entries;
    assert MarginsAre(book.balances[u], u, es);
    NoneOf(Unsettled(u), es);
    NoneOf(HalfDone(u), es);
    NoneOf(Unmoved(u), es);
    UsedSplits(u, es, |es|);
  }

  predicate EntriesSettled(es: seq<Entry>) {
    forall i :: 0 <= i < |es| ==> es[i].reach.Settled?
  }

  predicate Unbroken(events: seq<Event>) {
    forall i :: 0 <= i < |events| && events[i].Placed? ==> events[i].reach.Settled?
  }

  /** Over every run in which no order broke off half-way nothing stays locked, used margin is the sum
      of the margins of the user's positions, and all of these are in the user's set. */
  lemma UnbrokenRunSettles(events: seq<Event>, u: Id)
    requires PossibleRun(EMPTY_BOOK, events) && Unbroken(events) && u in Run(EMPTY_BOOK, events).balances
    ensures
      var book := Run(EMPTY_BOOK, events);
      && book.balances[u].locked == 0.0
      && book.balances[u].marginUsed == MarginTotal(book.positions, OwnedBy(book.owned, u))
      && book.balances[u].marginUsed == MarginTotal(book.positions, RecordsOf(book.positions, u))
  {
    AllSettled(EMPTY_BOOK, events);
    MarginsAtRest(events, u);
  }

  lemma StepSettled(book: Book, ev: Event)
    requires EntriesSettled(book.log.entries) && (ev.Placed? ==> ev.reach.Settled?)
    ensures EntriesSettled(Step(book, ev).log.entries)
  {
    match ev
    case Placed(cmd, orderId, positionId, hit, reach) =>
      if cmd.size > 0.0 { CarriedOutLog(book, cmd, Judge(book, cmd), orderId, positionId, hit, reach); }
    case _ =>
  }

  lemma CarriedOutLog(book: Book, cmd: PlaceCommand, v: Verdict, orderId: Id, positionId: Id, hit: Option<Id>, reach: Reach)
    requires cmd.size > 0.0
    ensures CarriedOut(book, cmd, v, orderId, positionId, hit, reach).log.entries
         == if v.Executed? && !reach.Keyed? then book.log.entries + [EntryOf(TermsOf(cmd, v), reach, hit, positionId)] else book.log.entries
  {
  }

  lemma {:induction false} AllSettled(book: Book, events: seq<Event>)
    requires EntriesSettled(book.log.entries) && Unbroken(events)
    ensures EntriesSettled(Run(book, events).log.entries)
    decreases |events|
  {
    if events != [] {
      StepSettled(book, events[0]);
      AllSettled(Step(book, events[0]), events[1..]);
    }
  }

  // ---------------------------------------------------------------- positions are their fills

  /** Bounds on the price of every fill into a position bound its notional total by its size total. */
  lemma {:induction false} NotionalBounds(id: Id, es: seq<Entry>, n: nat, lo: real, hi: real)
    requires n <= |es|
    requires forall i :: 0 <= i < |es| && BookedInto(es[i], id) ==> lo <= es[i].t.price <= hi
    ensures Worth(lo, SumTo(SizeIn(id), es, n)) <= SumTo(NotionalIn(id), es, n) <= Worth(hi, SumTo(SizeIn(id), es, n))
  {
    if n > 0 {
      NotionalBounds(id, es, n - 1, lo, hi);
      var t, size := es[n - 1].t, SumTo(SizeIn(id), es, n - 1);
      if BookedInto(es[n - 1], id) {
        WorthAdds(lo, size, t.size);
        WorthAdds(hi, size, t.size);
        WorthGrows(lo, t.price, t.size);
        WorthGrows(t.price, hi, t.size);
      }
    }
  }

  lemma WorthAdds(price: real, a: real, b: real)
    ensures Worth(price, a + b) == Worth(price, a) + Worth(price, b)
  {
  }

  lemma WorthGrows(a: real, b: real, size: real)
    requires a <= b && size > 0.0
    ensures Worth(a, size) <= Worth(b, size)
  {
    assert (b - a) * size >= 0.0;
  }

  lemma WorthReflects(a: real, b: real, size: real)
    requires Worth(a, size) <= Worth(b, size) && size > 0.0
    ensures a <= b
  {
    assert a > b ==> (a - b) * size > 0.0;
  }

  /** Over every run a position is exactly the sum of the fills booked into it: size, notional and
      margin add up, and its average price lies between any bounds on their prices. */
  lemma PositionIsItsFills(events: seq<Event>, id: Id, lo: real, hi: real)
    requires PossibleRun(EMPTY_BOOK, events) && id in Run(EMPTY_BOOK, events).positions
    ensures
      var book := Run(EMPTY_BOOK, events);
      var p, es := book.positions[id], book.log.entries;
      && PositionIs(id, p, es)
      && ((forall i :: 0 <= i < |es| && BookedInto(es[i], id) ==> lo <= es[i].t.price <= hi) ==> lo <= p.avgPrice <= hi)
  {
    EmptySound();
    RunSound(EMPTY_BOOK, events);
    var book := Run(EMPTY_BOOK, events);
    var p, es := book.positions[id], book.log.entries;
    assert PositionIs(id, p, es);
    if forall i :: 0 <= i < |es| && BookedInto(es[i], id) ==> lo <= es[i].t.price <= hi {
      NotionalBounds(id, es, |es|, lo, hi);
      WorthReflects(lo, p.avgPrice, p.size);
      WorthReflects(p.avgPrice, hi, p.size);
    }
  }

  /** An earlier fill under the key broke off between position record and set, and a later one was booked. */
  ghost predicate Resumed(es: seq<Entry>, key: Key) {
    exists a, b :: 0 <= a < b < |es| && BookedUnder(es[a], key) && Orphaning(es[a]) && BookedUnder(es[b], key)
  }

  ghost predicate Only(positions: Positions, key: Key) {
    forall i, j :: i in positions && j in positions && KeyOf(positions[i]) == key && KeyOf(positions[j]) == key ==> i == j
  }

  /** A position record was opened by some entry. */
  lemma SomeFill(positions: Positions, es: seq<Entry>, id: Id) returns (k: nat)
    requires PositionsOk(positions, es) && id in positions
    ensures k < |es| && BookedInto(es[k], id) && EntryKey(es[k]) == KeyOf(positions[id])
  {
    assert PositionIs(id, positions[id], es);
    if forall i :: 0 <= i < |es| ==> !BookedInto(es[i], id) { SumZero(SizeIn(id), es, |es|); }
    k :| 0 <= k < |es| && BookedInto(es[k], id);
    assert Homed(es[k], positions);
  }

  lemma TwoMeansResumed(positions: Positions, owned: Owners, es: seq<Entry>, i: Id, j: Id)
    requires PositionsOk(positions, es) && OwnersOk(positions, owned) && ListingOk(owned, es) && OrphansFirst(es)
    requires i in positions && j in positions && i != j && KeyOf(positions[i]) == KeyOf(positions[j])
    ensures Resumed(es, KeyOf(positions[i]))
  {
    var x := SomeFill(positions, es, i);
    var y := SomeFill(positions, es, j);
    if Orphaning(es[x]) && x > y { assert Orphaning(es[y]); }
    if Orphaning(es[y]) && y > x { assert Orphaning(es[x]); }
  }

  lemma ResumedMeansTwo(positions: Positions, owned: Owners, es: seq<Entry>, key: Key)
    requires PositionsOk(positions, es) && ListingOk(owned, es) && Resumed(es, key)
    ensures !Only(positions, key)
  {
    var a, b :| 0 <= a < b < |es| && BookedUnder(es[a], key) && Orphaning(es[a]) && BookedUnder(es[b], key);
    assert Homed(es[a], positions) && Homed(es[b], positions);
    assert es[a].into != es[b].into;
  }

  /** Over every run, a user has at most one open position of a symbol and side exactly when no fill
      was booked after an earlier one had broken off between writing its position and listing it. */
  lemma OnePositionIff(events: seq<Event>, key: Key)
    requires PossibleRun(EMPTY_BOOK, events)
    ensures
      var book := Run(EMPTY_BOOK, events);
      && (Only(book.positions, key) <==> !Resumed(book.log.entries, key))
      && forall id :: id in book.positions ==> book.positions[id].status.Open?
  {
    EmptySound();
    RunSound(EMPTY_BOOK, events);
    var book := Run(EMPTY_BOOK, events);
    if Resumed(book.log.entries, key) {
      ResumedMeansTwo(book.positions, book.owned, book.log.entries, key);
    }
    if i, j :| i in book.positions && j in book.positions && KeyOf(book.positions[i]) == key && KeyOf(book.positions[j]) == key && i != j {
      TwoMeansResumed(book.positions, book.owned, book.log.entries, i, j);
    }
  }

  lemma {:induction false} SizeSplits(key: Key, id: Id, positions: Positions, es: seq<Entry>, n: nat)
    requires n <= |es| && forall i :: 0 <= i < |es| ==> Homed(es[i], positions)
    requires id in positions && KeyOf(positions[id]) == key
    ensures SumTo(SizeUnder(key), es, n) == SumTo(SizeIn(id), es, n) + SumTo(SizeElsewhere(key, id), es, n)
  {
    if n > 0 {
      SizeSplits(key, id, positions, es, n - 1);
      assert Homed(es[n - 1], positions);
    }
  }

  /** A position holds all that was booked for its user, symbol and side exactly when no fill was
      resumed after such a break. */
  lemma PositionHoldsAllIff(events: seq<Event>, id: Id)
    requires PossibleRun(EMPTY_BOOK, events) && id in Run(EMPTY_BOOK, events).positions
    ensures
      var book := Run(EMPTY_BOOK, events);
      var p, es := book.positions[id], book.log.entries;
      p.size == Sum(SizeUnder(KeyOf(p)), es) <==> !Resumed(es, KeyOf(p))
  {
    EmptySound();
    RunSound(EMPTY_BOOK, events);
    OnePositionIff(events, KeyOf(Run(EMPTY_BOOK, events).positions[id]));
    var book := Run(EMPTY_BOOK, events);
    HoldsAllIffOnly(book.positions, book.log.entries, id);
  }

  lemma HoldsAllIffOnly(positions: Positions, es: seq<Entry>, id: Id)
    requires PositionsOk(positions, es) && EntriesOk(es) && id in positions
    ensures positions[id].size == Sum(SizeUnder(KeyOf(positions[id])), es) <==> Only(positions, KeyOf(positions[id]))
  {
    var key := KeyOf(positions[id]);
    assert PositionIs(id, positions[id], es);
    SizeSplits(key, id, positions, es, |es|);
    NoneOf(SizeElsewhere(key, id), es);
    if Only(positions, key) {
      forall i | 0 <= i < |es| ensures Part(SizeElsewhere(key, id), es[i]) == 0.0 { assert Homed(es[i], positions); }
    }
    if j :| j in positions && KeyOf(positions[j]) == key && j != id {
      var k := SomeFill(positions, es, j);
      assert Part(SizeElsewhere(key, id), es[k]) > 0.0;
    }
  }

  /** Whatever order the position set is scanned in, the scan ends at the same position. */
  lemma ScanOrderIrrelevant(events: seq<Event>, user: Id, symbol: string, side: PositionSide, hit: Option<Id>, hit': Option<Id>)
    requires PossibleRun(EMPTY_BOOK, events)
    requires
      var book := Run(EMPTY_BOOK, events);
      Found(book.positions, book.owned, user, symbol, side, hit) && Found(book.positions, book.owned, user, symbol, side, hit')
    ensures hit == hit'
  {
    EmptySound();
    RunSound(EMPTY_BOOK, events);
    var book := Run(EMPTY_BOOK, events);
    SameHit(book.positions, book.owned, user, symbol, side, hit, hit');
  }

  lemma SameHit(positions: Positions, owned: Owners, user: Id, symbol: string, side: PositionSide, hit: Option<Id>, hit': Option<Id>)
    requires OwnersOk(positions, owned)
    requires Found(positions, owned, user, symbol, side, hit) && Found(positions, owned, user, symbol, side, hit')
    ensures hit == hit'
  {
    if hit.Some? { assert Matches(positions, owned, hit.value, user, symbol, side); }
    if hit'.Some? { assert Matches(positions, owned, hit'.value, user, symbol, side); }
  }

  // ---------------------------------------------------------------- two open positions

  const RUNGS := [EL.Tier(EL.Num(0.0), EL.Open, 10)]

  /** A market buy of one unit. */
  function BuyOne(symbol: string, key: string): PlaceCommand {
    PlaceCommand(0, 7, symbol, None, Buy, Market, 1.0, None, key, Some(1), Some(100), Some(RUNGS), None, None, None)
  }

  /** Two buys at 100, the first of which breaks off between position record and position set. */
  function BrokenThenWhole(symbol: string): seq<Event> {
    [Quoted(symbol, Quote(100.0, 100.0)),
     Placed(BuyOne(symbol, "first"), 1, 11, None, Unlisted),
     Placed(BuyOne(symbol, "second"), 2, 12, None, Settled)]
  }

  lemma OneRungAnswers()
    ensures EL.Effective(100.0, Some(1), Some(100), Some(RUNGS)) == Some(10.0)
  {
    var i := EL.EffectiveOnLadder(RUNGS, 1, 100, 100.0);
  }

  lemma BuyExecutes(book: Book, symbol: string, key: string)
    requires (7, key) !in book.keys && symbol in book.quotes && book.quotes[symbol] == Quote(100.0, 100.0)
    requires TradingBalance(book, 7).freeMargin >= 10.0
    ensures Judge(book, BuyOne(symbol, key)) == Executed(100.0, 10.0, 10.0)
  {
    OneRungAnswers();
    assert Cost(BuyOne(symbol, key), 100.0) == 100.0;
    assert CalculateMargin(1.0, 100.0, 10.0) == 10.0;
  }

  lemma FirstBuy(book: Book, symbol: string)
    requires book == EMPTY_BOOK.(quotes := map[symbol := Quote(100.0, 100.0)])
    ensures
      var ev := BrokenThenWhole(symbol)[1];
      var book' := Step(book, ev);
      && Possible(book, ev)
      && book'.positions.Keys == {11} && book'.owned == map[] && book'.keys.Keys == {(7, "first")}
      && book'.quotes == book.quotes && TradingBalance(book', 7).freeMargin == 9990.0
      && KeyOf(book'.positions[11]) == Key(7, symbol, Long) && book'.positions[11].status.Open?
  {
    BuyExecutes(book, symbol, "first");
  }

  lemma SecondBuy(book: Book, symbol: string)
    requires book.positions.Keys == {11} && book.owned == map[] && book.keys.Keys == {(7, "first")}
    requires book.quotes == map[symbol := Quote(100.0, 100.0)] && TradingBalance(book, 7).freeMargin == 9990.0
    ensures
      var ev := BrokenThenWhole(symbol)[2];
      var book' := Step(book, ev);
      && Possible(book, ev)
      && book'.positions.Keys == {11, 12} && book'.positions[11] == book.positions[11]
      && KeyOf(book'.positions[12]) == Key(7, symbol, Long) && book'.positions[12].status.Open?
  {
    BuyExecutes(book, symbol, "second");
  }

  lemma ThreeSteps(book: Book, a: Event, b: Event, c: Event)
    ensures Run(book, [a, b, c]) == Step(Step(Step(book, a), b), c)
    ensures PossibleRun(book, [a, b, c]) <==>
      Possible(book, a) && Possible(Step(book, a), b) && Possible(Step(Step(book, a), b), c)
  {
    var book1, book2 := Step(book, a), Step(Step(book, a), b);
    assert [a, b, c][1..] == [b, c] && [b, c][1..] == [c] && [c][1..] == [];
    assert Run(book2, [c]) == Run(Step(book2, c), []) && Run(book1, [b, c]) == Run(book2, [c]);
    assert PossibleRun(book2, [c]) <==> Possible(book2, c);
    assert PossibleRun(book1, [b, c]) <==> Possible(book1, b) && Possible(book2, c);
  }

  /** A failure between the two Redis calls that write a new position leaves the user with two open
      positions of the same symbol and side once the next order executes. */
  lemma TwoOpenPositions(symbol: string)
    ensures
      var events := BrokenThenWhole(symbol);
      var book := Run(EMPTY_BOOK, events);
      && PossibleRun(EMPTY_BOOK, events)
      && book.positions.Keys == {11, 12}
      && KeyOf(book.positions[11]) == KeyOf(book.positions[12])
      && book.positions[11].status.Open? && book.positions[12].status.Open?
  {
    var events := BrokenThenWhole(symbol);
    var quoted := Step(EMPTY_BOOK, events[0]);
    ThreeSteps(EMPTY_BOOK, events[0], events[1], events[2]);
    FirstBuy(quoted, symbol);
    SecondBuy(Step(quoted, events[1]), symbol);
  }

  // ---------------------------------------------------------------- idempotency

  /** A command uses up its key exactly when it gets past the quote and the limit price; it changes
      balances, positions or the position sets only when it is executed and gets past its key. */
  lemma KeyUsedIff(book: Book, cmd: PlaceCommand, orderId: Id, positionId: Id, hit: Option<Id>, reach: Reach)
    requires cmd.size > 0.0
    ensures
      var v := Judge(book, cmd);
      var book' := Place(book, cmd, orderId, positionId, hit, reach);
      && ((cmd.userId, cmd.idempotencyKey) in book'.keys <==> !v.NoQuote? && !v.NoLimitPrice?)
      && (book' == book <==> v.Duplicate? || v.NoQuote? || v.NoLimitPrice?)
      && (book'.log != book.log <==> v.Executed? && !reach.Keyed?)
      && (!v.Executed? || reach.Keyed? ==> book'.balances == book.balances && book'.positions == book.positions && book'.owned == book.owned)
  {
    var v := Judge(book, cmd);
    assert v.Duplicate? <==> (cmd.userId, cmd.idempotencyKey) in book.keys;
    CarriedOutKeys(book, cmd, v, orderId, positionId, hit, reach);
  }

  lemma ExecuteLogs(book: Book, cmd: PlaceCommand, t: Terms, leverage: real, orderId: Id, hit: Option<Id>, positionId: Id, reach: Reach)
    ensures
      var book' := Execute(book, cmd, t, leverage, orderId, hit, positionId, reach);
      book'.keys == book.keys && |book'.log.entries| == |book.log.entries| + 1
  {
  }

  lemma CarriedOutKeys(book: Book, cmd: PlaceCommand, v: Verdict, orderId: Id, positionId: Id, hit: Option<Id>, reach: Reach)
    requires cmd.size > 0.0 && (v.Duplicate? <==> (cmd.userId, cmd.idempotencyKey) in book.keys)
    ensures
      var book' := CarriedOut(book, cmd, v, orderId, positionId, hit, reach);
      && ((cmd.userId, cmd.idempotencyKey) in book'.keys <==> !v.NoQuote? && !v.NoLimitPrice?)
      && (book' == book <==> v.Duplicate? || v.NoQuote? || v.NoLimitPrice?)
      && (book'.log != book.log <==> v.Executed? && !reach.Keyed?)
      && (!v.Executed? || reach.Keyed? ==> book'.balances == book.balances && book'.positions == book.positions && book'.owned == book.owned)
      && book.keys.Keys <= book'.keys.Keys
  {
    var book' := CarriedOut(book, cmd, v, orderId, positionId, hit, reach);
    var key := (cmd.userId, cmd.idempotencyKey);
    if v.Executed? && !reach.Keyed? {
      ExecuteLogs(Remember(book, cmd, orderId), cmd, TermsOf(cmd, v), v.leverage, orderId, hit, positionId, reach);
    }
    assert book'.keys != book.keys <==> key in book'.keys && key !in book.keys;
  }

  lemma KeysStay(book: Book, ev: Event)
    ensures book.keys.Keys <= Step(book, ev).keys.Keys
  {
    match ev
    case Placed(cmd, orderId, positionId, hit, reach) =>
      if cmd.size > 0.0 {
        assert Judge(book, cmd).Duplicate? <==> (cmd.userId, cmd.idempotencyKey) in book.keys;
        CarriedOutKeys(book, cmd, Judge(book, cmd), orderId, positionId, hit, reach);
      }
    case _ =>
  }

  lemma {:induction false} KeysStayOverRuns(book: Book, events: seq<Event>)
    ensures book.keys.Keys <= Run(book, events).keys.Keys
    decreases |events|
  {
    if events != [] {
      KeysStay(book, events[0]);
      KeysStayOverRuns(Step(book, events[0]), events[1..]);
    }
  }

  predicate SameKey(a: Event, b: Event) {
    a.Placed? && b.Placed? && a.cmd.userId == b.cmd.userId && a.cmd.idempotencyKey == b.cmd.idempotencyKey
  }

  /** Whatever happens in between, once a command has had any effect, no later command of the same user
      with the same key has any: balances, positions, orders and keys all stay as they were. */
  lemma KeyEffectiveOnce(book: Book, first: Event, between: seq<Event>, second: Event)
    requires SameKey(first, second) && Step(book, first) != book
    ensures
      var later := Run(Step(book, first), between);
      Step(later, second) == later
  {
    KeyUsedIff(book, first.cmd, first.orderId, first.positionId, first.hit, first.reach);
    KeysStayOverRuns(Step(book, first), between);
    var later := Run(Step(book, first), between);
    if second.cmd.size > 0.0 {
      assert Judge(later, second.cmd) == Duplicate;
    }
  }
}
