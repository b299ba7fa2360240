/** Unrealized profit per position and per user, in micro-USD, refreshed tick by tick. */
module UnrealizedIndex {
  import opened Contracts
  import opened Symbols
  import opened Orders

  // ---------------------------------------------------------------- micro-USD

  const I64_MAX: int := 0x7fff_ffff_ffff_ffff
  const I64_MIN: int := -0x8000_0000_0000_0000

  function Truncate(x: real): int {
    if x >= 0.0 then x.Floor else -((-x).Floor)
  }

  predicate FitsI64(n: int) {
    I64_MIN <= n <= I64_MAX
  }

  /** Truncated toward zero; an amount that does not fit 64 bits counts as zero. */
  function Micro(usd: real): int {
    var scaled := Truncate(usd * 1000000.0);
    if FitsI64(scaled) then scaled else 0
  }

  /** In micro-USD the amount lies within 64 bits once truncated. */
  predicate InRange(usd: real) {
    -9223372036854775809.0 < usd * 1000000.0 < 9223372036854775808.0
  }

  /** Truncation loses less than one micro-USD, toward zero, as long as the amount is in range; an amount
      out of range counts as nothing. */
  lemma MicroError(usd: real)
    ensures InRange(usd) ==> Abs(Micro(usd) as real - usd * 1000000.0) < 1.0
    ensures InRange(usd) ==> Abs(Micro(usd) as real) <= Abs(usd * 1000000.0)
    ensures !InRange(usd) ==> Micro(usd) == 0
    ensures InRange(usd) ==> Micro(-usd) == -Micro(usd) || Micro(usd) == I64_MIN
  {
    assert -usd * 1000000.0 == -(usd * 1000000.0);
  }

  // ---------------------------------------------------------------- currencies

  function NormCurrency(code: string): string {
    var u := Upper(Trim(code));
    if u == "USDT" then "USD" else u
  }

  /** One entry of the rates document: a currency and its rate, or text that is no number. */
  datatype RateEntry = RateEntry(currency: string, rate: Option<real>)

  type Rates = map<string, real>

  /** `i` is an entry that sets the rate of `key`. */
  predicate Gives(entries: seq<RateEntry>, i: int, key: string) {
    && 0 <= i < |entries| && entries[i].rate.Some? && entries[i].rate.value > 0.0
    && Upper(Trim(entries[i].currency)) == key
  }

  /** One malformed rate spoils the document; rates that are not positive are left out; the dollar is 1. */
  method ParseRates(entries: seq<RateEntry>) returns (rates: Option<Rates>)
    ensures rates.None? <==> exists i :: 0 <= i < |entries| && entries[i].rate.None?
    ensures rates.Some? ==>
      && (forall key :: key in rates.value <==> key == "USD" || key == "USDT" || exists i :: Gives(entries, i, key))
      && (forall key :: key in rates.value && key != "USD" && key != "USDT" ==>
            exists i :: Gives(entries, i, key) && entries[i].rate.value == rates.value[key])
      && rates.value["USD"] == 1.0 && rates.value["USDT"] == 1.0
  {
    var out: Rates := map[];
    for n := 0 to |entries|
      invariant forall i :: 0 <= i < n ==> entries[i].rate.Some?
      invariant forall key :: key in out <==> exists i :: i < n && Gives(entries, i, key)
      invariant forall key :: key in out ==> exists i :: i < n && Gives(entries, i, key) && entries[i].rate.value == out[key]
    {
      var key := Upper(Trim(entries[n].currency));
      if entries[n].rate.None? { return None; }
      if entries[n].rate.value > 0.0 {
        assert Gives(entries, n, key);
        out := out[key := entries[n].rate.value];
      }
    }
    out := out["USD" := 1.0];
    out := out["USDT" := 1.0];
    return Some(out);
  }

  /** Through the dollar: multiply by the target's rate, divide by the source's. */
  function Convert(amount: real, from: string, to: string, rates: Rates): Option<real> {
    var f, t := NormCurrency(from), NormCurrency(to);
    if f == t then Some(amount)
    else if f !in rates || t !in rates || rates[f] == 0.0 then None
    else Some(Exchanged(amount, rates[t], rates[f]))
  }

  function Exchanged(amount: real, rateTo: real, rateFrom: real): real
    requires rateFrom != 0.0
  {
    amount * rateTo / rateFrom
  }

  const QUOTES: seq<string> := [
    "USDT", "USDC", "EUR", "GBP", "AUD", "NZD", "CAD", "CHF", "JPY", "SGD", "TRY", "SEK", "NOK",
    "DKK", "CNH", "HKD", "HUF", "PLN", "ZAR", "MXN", "CNY", "USD"]

  predicate EndsWith(s: string, suffix: string) {
    |suffix| <= |s| && s[|s| - |suffix|..] == suffix
  }

  /** The first listed currency that ends the symbol, else the dollar. */
  ghost predicate IsQuote(symbol: string, q: string) {
    var s := Upper(Trim(symbol));
    || (exists k :: 0 <= k < |QUOTES| && QUOTES[k] == q && EndsWith(s, q) && forall j :: 0 <= j < k ==> !EndsWith(s, QUOTES[j]))
    || (q == "USD" && forall j :: 0 <= j < |QUOTES| ==> !EndsWith(s, QUOTES[j]))
  }

  method InferQuote(symbol: string) returns (q: string)
    ensures IsQuote(symbol, q)
  {
    var s := Upper(Trim(symbol));
    for k := 0 to |QUOTES|
      invariant forall j :: 0 <= j < k ==> !EndsWith(s, QUOTES[j])
    {
      if EndsWith(s, QUOTES[k]) { return QUOTES[k]; }
    }
    return "USD";
  }

  // ---------------------------------------------------------------- positions and aggregates

  datatype Direction = GoesLong | GoesShort | Unclear

  /** The fields of a position record that the refresh reads or writes. */
  datatype Held = Held(
    userId: Option<Id>,
    groupId: string,
    open: bool,
    side: Direction,
    size: real,
    avgPrice: real,
    unrealized: real,
    micro: Option<int>)

  datatype Index = Index(
    positions: map<Id, Held>,
    bySymbol: map<string, set<Id>>,
    byUser: map<Id, set<Id>>,
    swap: map<Id, int>,
    totals: map<Id, int>)

  datatype Mark = Mark(bid: real, ask: real, quote: string, rates: Rates)

  /** The Redis calls of one refresh that fail: position records read as empty, the pipeline that writes the
      batch breaking off without some of them, swaps read as zero, and aggregate scripts that do not run.
      Only the second is noticed. */
  datatype Misses = Misses(unread: set<Id>, unwritten: Option<set<Id>>, unswapped: set<Id>, unsummed: set<Id>)

  const NO_MISSES := Misses({}, None, {}, {})

  /** One refresh: symbol, group if any, prices and rates, and what fails. */
  datatype Tick = Tick(symbol: string, group: Option<string>, m: Mark, f: Misses)

  function Profit(p: Held, m: Mark): real {
    match p.side
    case GoesLong => (m.bid - p.avgPrice) * p.size
    case GoesShort => (p.avgPrice - m.ask) * p.size
    case Unclear => p.unrealized
  }

  /** A profit in a currency without a rate counts as zero. */
  function InUsd(profit: real, m: Mark): real {
    var usd := Convert(profit, m.quote, "USD", m.rates);
    if usd.Some? then usd.value else 0.0
  }

  function Marked(p: Held, m: Mark): Held {
    p.(unrealized := Profit(p, m), micro := Some(Micro(InUsd(Profit(p, m), m))))
  }

  function Members<K>(sets: map<K, set<Id>>, k: K): set<Id> {
    if k in sets then sets[k] else {}
  }

  /** Open, listed under the symbol, of the tick's group unless the tick is global, and read. */
  predicate Touched(ix: Index, t: Tick, id: Id) {
    && id in Members(ix.bySymbol, t.symbol) && id in ix.positions && id !in t.f.unread
    && ix.positions[id].open && (t.group.None? || ix.positions[id].groupId == t.group.value)
  }

  function LeftUnwritten(f: Misses): set<Id> {
    if f.unwritten.Some? then f.unwritten.value else {}
  }

  predicate Written(ix: Index, t: Tick, id: Id) {
    Touched(ix, t, id) && id !in LeftUnwritten(t.f)
  }

  function Contribution(positions: map<Id, Held>, id: Id): int {
    if id in positions && positions[id].open && positions[id].micro.Some? then positions[id].micro.value else 0
  }

  ghost function SumOver(positions: map<Id, Held>, ids: set<Id>): int
    decreases |ids|
  {
    if ids == {} then 0
    else
      var id :| id in ids;
      Contribution(positions, id) + SumOver(positions, ids - {id})
  }

  lemma {:induction false} SumSplit(positions: map<Id, Held>, ids: set<Id>, id: Id)
    requires id in ids
    ensures SumOver(positions, ids) == Contribution(positions, id) + SumOver(positions, ids - {id})
    decreases |ids|
  {
    var first :| first in ids && SumOver(positions, ids) == Contribution(positions, first) + SumOver(positions, ids - {first});
    if first != id {
      SumSplit(positions, ids - {first}, id);
      SumSplit(positions, ids - {id}, first);
      assert ids - {first} - {id} == ids - {id} - {first};
    }
  }

  lemma {:induction false} SumSame(a: map<Id, Held>, b: map<Id, Held>, ids: set<Id>)
    requires forall id :: id in ids ==> Contribution(a, id) == Contribution(b, id)
    ensures SumOver(a, ids) == SumOver(b, ids)
    decreases |ids|
  {
    if ids != {} {
      var id :| id in ids;
      SumSplit(a, ids, id);
      SumSplit(b, ids, id);
      SumSame(a, b, ids - {id});
    }
  }

  function SwapOf(swap: map<Id, int>, user: Id): int {
    if user in swap then swap[user] else 0
  }

  /** What the user's aggregate should be. */
  ghost function NetOf(ix: Index, user: Id): int {
    SumOver(ix.positions, Members(ix.byUser, user)) - SwapOf(ix.swap, user)
  }

  ghost predicate Coherent(ix: Index, user: Id) {
    user in ix.totals && ix.totals[user] == NetOf(ix, user)
  }

  /** Owner of some position the tick touches. */
  ghost predicate Affected(ix: Index, t: Tick, user: Id) {
    exists id :: Touched(ix, t, id) && ix.positions[id].userId == Some(user)
  }

  /** Whose aggregate is computed anew. */
  ghost predicate Summed(ix: Index, t: Tick, user: Id) {
    Affected(ix, t, user) && t.f.unwritten.None? && user !in t.f.unsummed
  }

  function SwapRead(swap: map<Id, int>, f: Misses, user: Id): int {
    if user in f.unswapped then 0 else SwapOf(swap, user)
  }

  /** What a refresh does: touched positions are re-marked as far as they are written, the totals of their
      owners recomputed, and nothing else changes. */
  ghost predicate Refreshed(ix: Index, ix': Index, t: Tick) {
    && ix' == ix.(positions := ix'.positions, totals := ix'.totals)
    && ix'.positions.Keys == ix.positions.Keys
    && (forall id :: id in ix.positions ==>
          ix'.positions[id] == if Written(ix, t, id) then Marked(ix.positions[id], t.m) else ix.positions[id])
    && (forall user :: Summed(ix, t, user) ==>
          user in ix'.totals && ix'.totals[user] == SumOver(ix'.positions, Members(ix.byUser, user)) - SwapRead(ix.swap, t.f, user))
    && (forall user :: !Summed(ix, t, user) ==>
          (user in ix'.totals <==> user in ix.totals) && (user in ix.totals ==> ix'.totals[user] == ix.totals[user]))
  }

  /** The group of a tick as the refresh reads it: blank means global. */
  function TickGroup(group: Option<string>): Option<string> {
    if group.Some? && Trim(group.value) != "" then Some(Trim(group.value)) else None
  }

  class PositionIndex {
    var positions: map<Id, Held>
    var bySymbol: map<string, set<Id>>
    var byUser: map<Id, set<Id>>
    var swap: map<Id, int>
    var totals: map<Id, int>

    ghost function View(): Index
      reads this
    {
      Index(positions, bySymbol, byUser, swap, totals)
    }

    /** The aggregate script: adds up the open positions of the user and takes off the swap it is given. */
    method AggregateUser(user: Id, swapped: int)
      modifies this`totals
      ensures totals == old(totals)[user := SumOver(positions, Members(byUser, user)) - swapped]
    {
      var ids := if user in byUser then byUser[user] else {};
      var rest := ids;
      var sum := 0;
      while rest != {}
        invariant sum + SumOver(positions, rest) == SumOver(positions, ids)
        invariant totals == old(totals)
        decreases |rest|
      {
        var id :| id in rest;
        SumSplit(positions, rest, id);
        if id in positions && positions[id].open && positions[id].micro.Some? {
          sum := sum + positions[id].micro.value;
        }
        rest := rest - {id};
      }
      totals := totals[user := sum - swapped];
    }

    /** Computes the new fields of every touched position before any is written. */
    method Batch(t: Tick) returns (batch: map<Id, Held>)
      ensures forall id :: id in batch <==> Touched(View(), t, id)
      ensures forall id :: id in batch ==> id in positions && batch[id] == Marked(positions[id], t.m)
    {
      var ids := if t.symbol in bySymbol then bySymbol[t.symbol] else {};
      var rest := ids;
      batch := map[];
      while rest != {}
        invariant rest <= ids
        invariant forall id :: id in batch <==> id !in rest && Touched(View(), t, id)
        invariant forall id :: id in batch ==> id in positions && batch[id] == Marked(positions[id], t.m)
        decreases |rest|
      {
        var id :| id in rest;
        rest := rest - {id};
        if id !in t.f.unread && id in positions && positions[id].open {
          var p := positions[id];
          if t.group.None? || p.groupId == t.group.value {
            batch := batch[id := Marked(p, t.m)];
          }
        }
      }
    }

    /** Writes the batch but for `unwritten`, and names the owners. */
    method WriteBatch(batch: map<Id, Held>, unwritten: set<Id>) returns (affected: set<Id>)
      requires batch.Keys <= positions.Keys
      modifies this`positions
      ensures positions.Keys == old(positions).Keys
      ensures forall id :: id in positions ==>
        positions[id] == if id in batch && id !in unwritten then batch[id] else old(positions)[id]
      ensures forall user :: user in affected <==> OwnsOne(batch, {}, user)
    {
      affected := {};
      var rest := batch.Keys;
      while rest != {}
        invariant rest <= batch.Keys
        invariant positions.Keys == old(positions).Keys
        invariant forall id :: id in positions ==>
          positions[id] == if id in batch && id !in rest && id !in unwritten then batch[id] else old(positions)[id]
        invariant forall user :: user in affected <==> OwnsOne(batch, rest, user)
        decreases |rest|
      {
        var id :| id in rest;
        OneMoreOwner(batch, rest, id);
        rest := rest - {id};
        if id !in unwritten { positions := positions[id := batch[id]]; }
        if batch[id].userId.Some? { affected := affected + {batch[id].userId.value}; }
      }
    }

    /** `rates` is what the rates document holds, if it can be read at all; `listed` whether the symbol's
        positions can be. */
    method RefreshSymbol(symbol: string, bid: real, ask: real, tickGroup: Option<string>, rates: Option<Rates>, listed: bool, f: Misses)
      returns (ok: bool, quote: string)
      modifies this`positions, this`totals
      ensures IsQuote(Trim(symbol), quote)
      ensures rates.None? || !listed ==> ok && View() == old(View())
      ensures rates.Some? && listed ==>
        var t := Tick(Trim(symbol), TickGroup(tickGroup), Mark(bid, ask, quote, rates.value), f);
        && Refreshed(old(View()), View(), t)
        && (ok <==> f.unwritten.None? || forall id :: !Touched(old(View()), t, id))
    {
      var sym := Trim(symbol);
      quote := InferQuote(sym);
      if rates.None? || !listed { return true, quote; }
      ok := RefreshGroup(Tick(sym, TickGroup(tickGroup), Mark(bid, ask, quote, rates.value), f));
    }

    method RefreshGroup(t: Tick) returns (ok: bool)
      modifies this`positions, this`totals
      ensures Refreshed(old(View()), View(), t)
      ensures ok <==> t.f.unwritten.None? || forall id :: !Touched(old(View()), t, id)
    {
      ghost var ix := View();
      var batch := Batch(t);
      if batch == map[] {
        NothingTouched(ix, batch, t);
        return true;
      }
      assert exists id :: id in batch;
      var affected := WriteBatch(batch, LeftUnwritten(t.f));
      ok := t.f.unwritten.None?;
      OwnersAreAffected(ix, batch, affected, t);
      ghost var marked := View();
      if ok { AggregateAll(affected, t.f); }
      RefreshDone(ix, marked, View(), batch, if ok then affected - t.f.unsummed else {}, t);
    }

    /** A failed script is ignored, a swap that cannot be read counts as zero. */
    method AggregateAll(users: set<Id>, f: Misses)
      modifies this`totals
      ensures forall user :: user in users - f.unsummed ==>
        user in totals && totals[user] == SumOver(positions, Members(byUser, user)) - SwapRead(swap, f, user)
      ensures forall user :: user !in users - f.unsummed ==>
        (user in totals <==> user in old(totals)) && (user in totals ==> totals[user] == old(totals)[user])
    {
      var rest := users;
      while rest != {}
        invariant rest <= users
        invariant forall user :: user in users - f.unsummed && user !in rest ==>
          user in totals && totals[user] == SumOver(positions, Members(byUser, user)) - SwapRead(swap, f, user)
        invariant forall user :: user !in users - f.unsummed || user in rest ==>
          (user in totals <==> user in old(totals)) && (user in totals ==> totals[user] == old(totals)[user])
        decreases |rest|
      {
        var user :| user in rest;
        var swapped := if user !in f.unswapped && user in swap then swap[user] else 0;
        if user !in f.unsummed { AggregateUser(user, swapped); }
        rest := rest - {user};
      }
    }
  }

  /** Some position of the batch is the user's, those in `rest` aside. */
  ghost predicate OwnsOne(batch: map<Id, Held>, rest: set<Id>, user: Id) {
    exists id :: id in batch && id !in rest && batch[id].userId == Some(user)
  }

  lemma OneMoreOwner(batch: map<Id, Held>, rest: set<Id>, id: Id)
    requires id in rest && rest <= batch.Keys
    ensures forall user: Id :: OwnsOne(batch, rest - {id}, user) <==> OwnsOne(batch, rest, user) || batch[id].userId == Some(user)
  {
  }

  lemma NothingTouched(ix: Index, batch: map<Id, Held>, t: Tick)
    requires batch == map[] && forall id :: id in batch <==> Touched(ix, t, id)
    ensures Refreshed(ix, ix, t)
  {
  }

  lemma RefreshDone(ix: Index, marked: Index, ix': Index, batch: map<Id, Held>, summed: set<Id>, t: Tick)
    requires forall id :: id in batch <==> Touched(ix, t, id)
    requires forall id :: id in batch ==> id in ix.positions && batch[id] == Marked(ix.positions[id], t.m)
    requires forall user: Id :: user in summed <==> Summed(ix, t, user)
    requires marked == ix.(positions := marked.positions) && marked.positions.Keys == ix.positions.Keys
    requires forall id :: id in ix.positions ==>
      marked.positions[id] == if id in batch && id !in LeftUnwritten(t.f) then batch[id] else ix.positions[id]
    requires ix' == marked.(totals := ix'.totals)
    requires forall user :: user in summed ==>
      user in ix'.totals && ix'.totals[user] == SumOver(marked.positions, Members(marked.byUser, user)) - SwapRead(marked.swap, t.f, user)
    requires forall user :: user !in summed ==>
      (user in ix'.totals <==> user in ix.totals) && (user in ix'.totals ==> ix'.totals[user] == ix.totals[user])
    ensures Refreshed(ix, ix', t)
  {
  }

  lemma OwnersAreAffected(ix: Index, batch: map<Id, Held>, affected: set<Id>, t: Tick)
    requires forall id :: id in batch <==> Touched(ix, t, id)
    requires forall id :: id in batch ==> id in ix.positions && batch[id].userId == ix.positions[id].userId
    requires forall user: Id :: user in affected <==> OwnsOne(batch, {}, user)
    ensures forall user: Id :: user in affected <==> Affected(ix, t, user)
  {
  }

  // ---------------------------------------------------------------- what a refresh keeps

  /** Positions filed under a user are that user's. */
  ghost predicate Filed(ix: Index) {
    forall user: Id, id: Id :: id in Members(ix.byUser, user) && id in ix.positions ==> ix.positions[id].userId == Some(user)
  }

  /** By how much the user's sum moves when the positions `ids` are marked. */
  ghost function Shift(positions: map<Id, Held>, ids: set<Id>, m: Mark): int
    requires ids <= positions.Keys
    decreases |ids|
  {
    if ids == {} then 0
    else
      var id :| id in ids;
      Micro(InUsd(Profit(positions[id], m), m)) - Contribution(positions, id) + Shift(positions, ids - {id}, m)
  }

  lemma {:induction false} ShiftSplit(positions: map<Id, Held>, ids: set<Id>, m: Mark, id: Id)
    requires ids <= positions.Keys && id in ids
    ensures Shift(positions, ids, m)
         == Micro(InUsd(Profit(positions[id], m), m)) - Contribution(positions, id) + Shift(positions, ids - {id}, m)
    decreases |ids|
  {
    var first :| first in ids && Shift(positions, ids, m)
      == Micro(InUsd(Profit(positions[first], m), m)) - Contribution(positions, first) + Shift(positions, ids - {first}, m);
    if first != id {
      ShiftSplit(positions, ids - {first}, m, id);
      ShiftSplit(positions, ids - {id}, m, first);
      assert ids - {first} - {id} == ids - {id} - {first};
    }
  }

  /** The user's positions that the refresh writes. */
  function WrittenOf(ix: Index, t: Tick, user: Id): set<Id> {
    set id | id in Members(ix.byUser, user) && Written(ix, t, id)
  }

  ghost function ShiftOf(ix: Index, t: Tick, user: Id): int {
    Shift(ix.positions, WrittenOf(ix, t, user), t.m)
  }

  lemma {:induction false} SumShifts(a: map<Id, Held>, b: map<Id, Held>, ids: set<Id>, written: set<Id>, m: Mark)
    requires a.Keys == b.Keys && written <= ids && written <= a.Keys
    requires forall id :: id in a ==> b[id] == if id in written then Marked(a[id], m) else a[id]
    requires forall id :: id in written ==> a[id].open
    ensures SumOver(b, ids) == SumOver(a, ids) + Shift(a, written, m)
    decreases |written|
  {
    if written == {} {
      SumSame(a, b, ids);
    } else {
      var id :| id in written;
      var mid := b[id := a[id]];
      SumShifts(a, mid, ids, written - {id}, m);
      ShiftSplit(a, written, m, id);
      SumSplit(mid, ids, id);
      SumSplit(b, ids, id);
      SumSame(mid, b, ids - {id});
    }
  }

  lemma RefreshShifts(ix: Index, ix': Index, t: Tick, user: Id)
    requires Filed(ix) && Refreshed(ix, ix', t)
    ensures Filed(ix')
    ensures NetOf(ix', user) == NetOf(ix, user) + ShiftOf(ix, t, user)
    ensures !Affected(ix, t, user) ==> ShiftOf(ix, t, user) == 0
  {
    assert forall id :: id in ix.positions ==> ix'.positions[id].userId == ix.positions[id].userId;
    var ids, written := Members(ix.byUser, user), WrittenOf(ix, t, user);
    SumShiftsAmong(ix.positions, ix'.positions, ids, written, t.m);
    assert forall id :: id in written ==> Touched(ix, t, id) && ix.positions[id].userId == Some(user);
  }

  /** Marks on positions that are not the user's do not move the user's sum. */
  lemma SumShiftsAmong(a: map<Id, Held>, b: map<Id, Held>, ids: set<Id>, written: set<Id>, m: Mark)
    requires a.Keys == b.Keys && written <= ids && written <= a.Keys
    requires forall id :: id in ids && id in a ==> b[id] == if id in written then Marked(a[id], m) else a[id]
    requires forall id :: id in written ==> a[id].open
    ensures SumOver(b, ids) == SumOver(a, ids) + Shift(a, written, m)
  {
    var c := map id | id in a :: if id in written then Marked(a[id], m) else a[id];
    SumShifts(a, c, ids, written, m);
    SumSame(b, c, ids);
  }

  /** How far the stored aggregate is from the net value of the stored positions. */
  ghost function Off(ix: Index, user: Id): int
    requires user in ix.totals
  {
    ix.totals[user] - NetOf(ix, user)
  }

  /** How far it is after a refresh that found it `before` off. */
  ghost function OffAfter(ix: Index, t: Tick, user: Id, before: int): int {
    if Summed(ix, t, user) then SwapOf(ix.swap, user) - SwapRead(ix.swap, t.f, user) else before - ShiftOf(ix, t, user)
  }

  lemma RefreshDrifts(ix: Index, ix': Index, t: Tick, user: Id)
    requires Filed(ix) && Refreshed(ix, ix', t) && (user in ix.totals || Summed(ix, t, user))
    ensures Filed(ix') && user in ix'.totals
    ensures Off(ix', user) == OffAfter(ix, t, user, if user in ix.totals then Off(ix, user) else 0)
  {
    RefreshShifts(ix, ix', t, user);
  }

  /** A refresh leaves every other user's aggregate as right or wrong as it was. A user it affects has a
      right one afterwards exactly if the script ran and the swap was read or is zero, or if the script
      did not run and the marks written for the user add up to what the aggregate was off before. */
  lemma RefreshCoherentIff(ix: Index, ix': Index, t: Tick, user: Id)
    requires Filed(ix) && Refreshed(ix, ix', t)
    ensures Filed(ix')
    ensures !Affected(ix, t, user) ==> (Coherent(ix', user) <==> Coherent(ix, user))
    ensures Affected(ix, t, user) ==>
      (Coherent(ix', user)
       <==> if t.f.unwritten.None? && user !in t.f.unsummed then user !in t.f.unswapped || SwapOf(ix.swap, user) == 0
            else user in ix.totals && Off(ix, user) == ShiftOf(ix, t, user))
  {
    RefreshShifts(ix, ix', t, user);
  }

  ghost predicate RefreshedAll(states: seq<Index>, ticks: seq<Tick>) {
    && |states| == |ticks| + 1
    && forall i :: 0 <= i < |ticks| ==> Refreshed(states[i], states[i + 1], ticks[i])
  }

  /** How far off the first `n` refreshes leave the aggregate. */
  ghost function OffAfterAll(states: seq<Index>, ticks: seq<Tick>, n: nat, user: Id): int
    requires n <= |ticks| < |states| && user in states[0].totals
  {
    if n == 0 then Off(states[0], user)
    else OffAfter(states[n - 1], ticks[n - 1], user, OffAfterAll(states, ticks, n - 1, user))
  }

  /** Over any sequence of refreshes, whatever fails in them, a user's aggregate is off by exactly what
      follows from the last script that ran and the marks written since, and it is right exactly if that
      is nothing. */
  lemma {:induction false} TicksCoherentIff(states: seq<Index>, ticks: seq<Tick>, n: nat, user: Id)
    requires RefreshedAll(states, ticks) && n <= |ticks| && Filed(states[0]) && user in states[0].totals
    ensures Filed(states[n]) && user in states[n].totals
    ensures Off(states[n], user) == OffAfterAll(states, ticks, n, user)
    ensures Coherent(states[n], user) <==> OffAfterAll(states, ticks, n, user) == 0
  {
    if n > 0 {
      TicksCoherentIff(states, ticks, n - 1, user);
      RefreshDrifts(states[n - 1], states[n], ticks[n - 1], user);
    }
  }

  /** The refresh does all it should for this user; positions may still go unread. */
  predicate SoundFor(t: Tick, user: Id) {
    t.f.unwritten.None? && user !in t.f.unsummed && user !in t.f.unswapped
  }

  /** In particular a right aggregate stays right through refreshes that read the swap and run the script. */
  lemma {:induction false} TicksKeepCoherence(states: seq<Index>, ticks: seq<Tick>, n: nat, user: Id)
    requires RefreshedAll(states, ticks) && n <= |ticks| && Filed(states[0]) && Coherent(states[0], user)
    requires forall i :: 0 <= i < n ==> SoundFor(ticks[i], user)
    ensures Filed(states[n]) && Coherent(states[n], user)
  {
    if n > 0 {
      TicksKeepCoherence(states, ticks, n - 1, user);
      RefreshCoherentIff(states[n - 1], states[n], ticks[n - 1], user);
    }
  }

  // ---------------------------------------------------------------- aggregates left behind

  /** User 7 is long one unit at `price`, valued at nothing so far, and owes one dollar of swap. */
  function OneLong(price: real): Index {
    Index(map[1 := Held(Some(7), "", true, GoesLong, 1.0, price, 0.0, Some(0))], map["EURUSD" := {1}], map[7 := {1}],
          map[7 := 1000000], map[7 := -1000000])
  }

  function OneUp(price: real, f: Misses): Tick {
    Tick("EURUSD", None, Mark(price + 1.0, price + 1.0, "USD", map["USD" := 1.0]), f)
  }

  lemma OneSum(positions: map<Id, Held>)
    requires 1 in positions
    ensures SumOver(positions, {1}) == Contribution(positions, 1)
  {
    SumSplit(positions, {1}, 1);
    assert {1} - {1} == {};
  }

  /** The price rises by a dollar. If the script does not run, the aggregate still says minus one dollar;
      if the swap cannot be read, it says plus one; it should say nothing. */
  lemma AggregateLeftBehind(price: real, ix': Index, f: Misses)
    requires f == NO_MISSES.(unsummed := {7}) || f == NO_MISSES.(unswapped := {7})
    requires Refreshed(OneLong(price), ix', OneUp(price, f))
    ensures Coherent(OneLong(price), 7) && !Coherent(ix', 7)
    ensures NetOf(ix', 7) == 0 && 7 in ix'.totals && ix'.totals[7] == if 7 in f.unsummed then -1000000 else 1000000
  {
    var ix, t := OneLong(price), OneUp(price, f);
    OneSum(ix.positions);
    OneSum(ix'.positions);
    assert Touched(ix, t, 1) && Written(ix, t, 1);
    assert Affected(ix, t, 7);
    OneUpMarked(price, t.m);
  }

  lemma OneUpMarked(price: real, m: Mark)
    requires m == Mark(price + 1.0, price + 1.0, "USD", map["USD" := 1.0])
    ensures Marked(OneLong(price).positions[1], m).micro == Some(1000000) && Marked(OneLong(price).positions[1], m).open
  {
    var p := OneLong(price).positions[1];
    assert Profit(p, m) == 1.0;
    assert InUsd(1.0, m) == 1.0;
    assert Truncate(1.0 * 1000000.0) == 1000000;
  }

  // ---------------------------------------------------------------- how exact it is

  predicate OpenAt(positions: map<Id, Held>, id: Id) {
    id in positions && positions[id].open
  }

  /** The exact dollar value of a position; only open ones count. */
  function Worth(positions: map<Id, Held>, exact: map<Id, real>, id: Id): real {
    if OpenAt(positions, id) && id in exact then exact[id] else 0.0
  }

  ghost function ExactOver(positions: map<Id, Held>, exact: map<Id, real>, ids: set<Id>): real
    decreases |ids|
  {
    if ids == {} then 0.0
    else
      var id :| id in ids;
      Worth(positions, exact, id) + ExactOver(positions, exact, ids - {id})
  }

  lemma {:induction false} ExactSplit(positions: map<Id, Held>, exact: map<Id, real>, ids: set<Id>, id: Id)
    requires id in ids
    ensures ExactOver(positions, exact, ids) == Worth(positions, exact, id) + ExactOver(positions, exact, ids - {id})
    decreases |ids|
  {
    var first :| first in ids
      && ExactOver(positions, exact, ids) == Worth(positions, exact, first) + ExactOver(positions, exact, ids - {first});
    if first != id {
      ExactSplit(positions, exact, ids - {first}, id);
      ExactSplit(positions, exact, ids - {id}, first);
      assert ids - {first} - {id} == ids - {id} - {first};
    }
  }

  /** Every open position carries the truncation of its exact value, which fits. */
  ghost predicate Fresh(positions: map<Id, Held>, exact: map<Id, real>, ids: set<Id>) {
    forall id :: id in ids && id in positions && positions[id].open ==>
      id in exact && InRange(exact[id]) && positions[id].micro == Some(Micro(exact[id]))
  }

  function OpenIn(positions: map<Id, Held>, ids: set<Id>): set<Id> {
    set id | id in ids && OpenAt(positions, id)
  }

  /** Less than `n` apart, or equal if `n` is zero. */
  predicate Closer(x: real, y: real, n: nat) {
    Abs(x - y) <= n as real && (n > 0 ==> Abs(x - y) < n as real)
  }

  lemma CloserAdds(x: real, y: real, n: nat, x1: real, y1: real)
    requires Closer(x, y, n) && Abs(x1 - y1) < 1.0
    ensures Closer(x1 + x, y1 + y, n + 1)
  {
  }

  lemma {:induction false} SumError(positions: map<Id, Held>, exact: map<Id, real>, ids: set<Id>)
    requires Fresh(positions, exact, ids)
    ensures Closer(SumOver(positions, ids) as real, ExactOver(positions, exact, ids) * 1000000.0, |OpenIn(positions, ids)|)
    decreases |ids|
  {
    if ids == {} {
      assert OpenIn(positions, ids) == {};
    } else {
      var id :| id in ids;
      SumSplit(positions, ids, id);
      ExactSplit(positions, exact, ids, id);
      SumError(positions, exact, ids - {id});
      OneLessOpen(positions, ids, id);
      if OpenAt(positions, id) {
        MicroError(exact[id]);
        CloserAdds(SumOver(positions, ids - {id}) as real, ExactOver(positions, exact, ids - {id}) * 1000000.0,
                   |OpenIn(positions, ids - {id})|, Contribution(positions, id) as real, Worth(positions, exact, id) * 1000000.0);
      }
    }
  }

  lemma OneLessOpen(positions: map<Id, Held>, ids: set<Id>, id: Id)
    requires id in ids
    ensures |OpenIn(positions, ids)| == |OpenIn(positions, ids - {id})| + if OpenAt(positions, id) then 1 else 0
  {
    assert OpenIn(positions, ids - {id}) == OpenIn(positions, ids) - {id};
  }

  /** The aggregate is less than n micro-USD from the exact net value of the user's n open positions. */
  ghost predicate NearNet(total: int, positions: map<Id, Held>, exact: map<Id, real>, ids: set<Id>, swap: int) {
    Closer(total as real, ExactOver(positions, exact, ids) * 1000000.0 - swap as real, |OpenIn(positions, ids)|)
  }

  /** A coherent aggregate over freshly marked positions is that near. */
  lemma AggregateError(ix: Index, exact: map<Id, real>, user: Id)
    requires Coherent(ix, user) && Fresh(ix.positions, exact, Members(ix.byUser, user))
    ensures NearNet(ix.totals[user], ix.positions, exact, Members(ix.byUser, user), SwapOf(ix.swap, user))
  {
    SumError(ix.positions, exact, Members(ix.byUser, user));
  }

  /** The refresh freshens: if every open position of the user is touched, has a clear side and its
      currency a rate, its exact dollar value fits, and nothing fails for the user, then the aggregate it
      leaves is less than n micro-USD from the exact net value at the tick's prices. */
  lemma RefreshIsExact(ix: Index, ix': Index, t: Tick, user: Id, exact: map<Id, real>)
    requires Filed(ix) && Refreshed(ix, ix', t)
    requires Affected(ix, t, user) && SoundFor(t, user) && IsQuote(t.symbol, t.m.quote)
    requires forall id :: id in OpenIn(ix.positions, Members(ix.byUser, user)) ==>
      Touched(ix, t, id) && ExactAt(ix.positions[id], t.m, exact, id)
    ensures user in ix'.totals
    ensures NearNet(ix'.totals[user], ix.positions, exact, Members(ix.byUser, user), SwapOf(ix.swap, user))
  {
    var ids := Members(ix.byUser, user);
    assert Coherent(ix', user) by { RefreshCoherentIff(ix, ix', t, user); }
    TouchedFresh(ix, ix', t, ids, exact);
    AggregateError(ix', exact, user);
    assert ExactOver(ix.positions, exact, ids) == ExactOver(ix'.positions, exact, ids) by {
      ExactSame(ix.positions, ix'.positions, exact, ids);
    }
  }

  lemma TouchedFresh(ix: Index, ix': Index, t: Tick, ids: set<Id>, exact: map<Id, real>)
    requires Refreshed(ix, ix', t) && t.f.unwritten.None? && IsQuote(t.symbol, t.m.quote)
    requires forall id :: id in OpenIn(ix.positions, ids) ==> Touched(ix, t, id) && ExactAt(ix.positions[id], t.m, exact, id)
    ensures OpenIn(ix'.positions, ids) == OpenIn(ix.positions, ids)
    ensures forall id :: id in ids ==> (OpenAt(ix.positions, id) <==> OpenAt(ix'.positions, id))
    ensures Fresh(ix'.positions, exact, ids)
  {
    forall id | id in ids && id in ix.positions && ix.positions[id].open
      ensures id in exact && InRange(exact[id]) && ix'.positions[id].micro == Some(Micro(exact[id]))
    {
      assert id in OpenIn(ix.positions, ids);
      MarkedExactly(ix.positions[id], t.m, t.symbol, exact, id);
    }
  }

  /** What a position has won or lost at these prices: a long is sold at the bid, a short bought back at
      the ask. */
  predicate Gains(p: Held, bid: real, ask: real, gain: real) {
    match p.side
    case GoesLong => gain == (bid - p.avgPrice) * p.size
    case GoesShort => gain == (p.avgPrice - ask) * p.size
    case Unclear => gain == p.unrealized
  }

  predicate HasRate(quote: string, rates: Rates) {
    quote == "USD" || quote == "USDT" || (quote in rates && "USD" in rates && rates[quote] != 0.0)
  }

  /** An amount in the currency `quote` counts as so many dollars; without a rate it counts as nothing. */
  predicate CountsInUsd(gain: real, quote: string, rates: Rates, usd: real) {
    if quote == "USD" || quote == "USDT" then usd == gain
    else if quote !in rates || "USD" !in rates || rates[quote] == 0.0 then usd == 0.0
    else usd == gain * rates["USD"] / rates[quote]
  }

  /** `exact` holds the position's dollar value at the tick's prices, and it is in range. */
  predicate ExactAt(p: Held, m: Mark, exact: map<Id, real>, id: Id) {
    && !p.side.Unclear? && id in exact && InRange(exact[id]) && HasRate(m.quote, m.rates)
    && CountsInUsd(if p.side.GoesLong? then (m.bid - p.avgPrice) * p.size else (p.avgPrice - m.ask) * p.size,
                   m.quote, m.rates, exact[id])
  }

  lemma CodeKept(q: string)
    requires |q| == 3 || |q| == 4
    requires forall i :: 0 <= i < |q| ==> 'A' <= q[i] <= 'Z'
    ensures Upper(Trim(q)) == q
  {
    TrimTrims(q);
    assert forall i :: 0 <= i < |q| ==> Upper(q)[i] == q[i];
  }

  lemma QuotesKept()
    ensures forall k :: 0 <= k < |QUOTES| ==> |QUOTES[k]| == 3 || |QUOTES[k]| == 4
    ensures forall k, i :: 0 <= k < |QUOTES| && 0 <= i < |QUOTES[k]| ==> 'A' <= QUOTES[k][i] <= 'Z'
  {
  }

  lemma InferredKept(symbol: string, q: string)
    requires IsQuote(symbol, q)
    ensures Upper(Trim(q)) == q && Upper(Trim("USD")) == "USD"
  {
    QuotesKept();
    if k :| 0 <= k < |QUOTES| && QUOTES[k] == q { CodeKept(q); }
    CodeKept("USD");
  }

  lemma GainIs(p: Held, m: Mark, gain: real)
    requires Gains(p, m.bid, m.ask, gain)
    ensures Profit(p, m) == gain
  {
  }

  lemma UsdIs(gain: real, m: Mark, symbol: string, usd: real)
    requires IsQuote(symbol, m.quote) && CountsInUsd(gain, m.quote, m.rates, usd)
    ensures InUsd(gain, m) == usd
  {
    InferredKept(symbol, m.quote);
    ConvertIs(gain, m.quote, m.rates);
    if m.quote in m.rates && "USD" in m.rates && m.rates[m.quote] != 0.0 { ExchangedIs(gain, m.rates["USD"], m.rates[m.quote]); }
  }

  lemma ExchangedIs(amount: real, rateTo: real, rateFrom: real)
    requires rateFrom != 0.0
    ensures Exchanged(amount, rateTo, rateFrom) == amount * rateTo / rateFrom
  {
  }

  lemma ConvertIs(gain: real, quote: string, rates: Rates)
    requires Upper(Trim(quote)) == quote && Upper(Trim("USD")) == "USD"
    ensures quote == "USD" || quote == "USDT" ==> Convert(gain, quote, "USD", rates) == Some(gain)
    ensures quote != "USD" && quote != "USDT" ==>
      Convert(gain, quote, "USD", rates)
        == if quote !in rates || "USD" !in rates || rates[quote] == 0.0 then None else Some(Exchanged(gain, rates["USD"], rates[quote]))
  {
    assert NormCurrency("USD") == "USD";
    assert NormCurrency(quote) == if quote == "USDT" then "USD" else quote;
  }

  /** The value that a mark gives a position: its gain in the quote currency, and that in dollars. */
  lemma MarkIs(p: Held, m: Mark, symbol: string, gain: real, usd: real)
    requires IsQuote(symbol, m.quote) && Gains(p, m.bid, m.ask, gain) && CountsInUsd(gain, m.quote, m.rates, usd)
    ensures Marked(p, m) == p.(unrealized := gain, micro := Some(Micro(usd)))
  {
    GainIs(p, m, gain);
    UsdIs(gain, m, symbol, usd);
  }

  /** A refresh leaves every written position with its gain at the tick's prices and that in micro-USD; a long
      gains exactly if the bid is above its average price, a short exactly if the ask is below it. */
  lemma RefreshMarks(ix: Index, ix': Index, t: Tick, id: Id, gain: real, usd: real)
    requires Refreshed(ix, ix', t) && Written(ix, t, id) && IsQuote(t.symbol, t.m.quote)
    requires Gains(ix.positions[id], t.m.bid, t.m.ask, gain) && CountsInUsd(gain, t.m.quote, t.m.rates, usd)
    ensures id in ix'.positions && ix'.positions[id] == ix.positions[id].(unrealized := gain, micro := Some(Micro(usd)))
    ensures
      var p, p' := ix.positions[id], ix'.positions[id];
      p.size > 0.0 ==>
        && (p.side.GoesLong? ==> (p'.unrealized > 0.0 <==> t.m.bid > p.avgPrice))
        && (p.side.GoesShort? ==> (p'.unrealized > 0.0 <==> t.m.ask < p.avgPrice))
  {
    MarkIs(ix.positions[id], t.m, t.symbol, gain, usd);
    GainSign(ix.positions[id], t.m.bid, t.m.ask, gain);
  }

  lemma GainSign(p: Held, bid: real, ask: real, gain: real)
    requires Gains(p, bid, ask, gain)
    ensures p.size > 0.0 && p.side.GoesLong? ==> (gain > 0.0 <==> bid > p.avgPrice)
    ensures p.size > 0.0 && p.side.GoesShort? ==> (gain > 0.0 <==> ask < p.avgPrice)
  {
    if p.size > 0.0 {
      SameSign(bid - p.avgPrice, p.size);
      SameSign(p.avgPrice - ask, p.size);
    }
  }

  lemma SameSign(x: real, size: real)
    requires size > 0.0
    ensures x * size > 0.0 <==> x > 0.0
  {
  }

  /** Which positions a tick message writes: those in the list of its trimmed symbol that are open, of its
      trimmed group unless that is absent or blank, read, and reached by the pipeline. */
  lemma WrittenIff(ix: Index, symbol: string, group: Option<string>, m: Mark, f: Misses, id: Id)
    ensures Written(ix, Tick(Trim(symbol), TickGroup(group), m, f), id)
      <==> && Trim(symbol) in ix.bySymbol && id in ix.bySymbol[Trim(symbol)]
           && id in ix.positions && ix.positions[id].open
           && (group.None? || Trim(group.value) == "" || ix.positions[id].groupId == Trim(group.value))
           && id !in f.unread && (f.unwritten.None? || id !in f.unwritten.value)
  {
  }

  lemma MarkedExactly(p: Held, m: Mark, symbol: string, exact: map<Id, real>, id: Id)
    requires ExactAt(p, m, exact, id) && IsQuote(symbol, m.quote)
    ensures Marked(p, m).micro == Some(Micro(exact[id])) && Marked(p, m).open == p.open
  {
    var gain := if p.side.GoesLong? then (m.bid - p.avgPrice) * p.size else (p.avgPrice - m.ask) * p.size;
    assert Gains(p, m.bid, m.ask, gain);
    MarkIs(p, m, symbol, gain, exact[id]);
  }

  lemma {:induction false} ExactSame(a: map<Id, Held>, b: map<Id, Held>, exact: map<Id, real>, ids: set<Id>)
    requires forall id :: id in ids ==> (OpenAt(a, id) <==> OpenAt(b, id))
    ensures ExactOver(a, exact, ids) == ExactOver(b, exact, ids)
    decreases |ids|
  {
    if ids != {} {
      var id :| id in ids;
      ExactSplit(a, exact, ids, id);
      ExactSplit(b, exact, ids, id);
      ExactSame(a, b, exact, ids - {id});
    }
  }
}
