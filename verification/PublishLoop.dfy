/** The data provider's price loop: it publishes a symbol only when its raw price has moved, its record
    of what it published has been cleared, or the set of groups has changed. */
module PublishLoop {
  import opened Contracts
  import opened GroupFingerprint

  /** A percentage added to each side. */
  datatype Markup = Markup(bidPct: real, askPct: real)

  type Markups = map<(string, string), Markup>

  function Raised(x: real, pct: real): real {
    x * (1.0 + pct / 100.0)
  }

  /** The quote a group sees. */
  function Marked(markups: Markups, symbol: string, group: string, raw: Quote): Quote {
    if (symbol, group) in markups
    then Quote(Raised(raw.bid, markups[(symbol, group)].bidPct), Raised(raw.ask, markups[(symbol, group)].askPct))
    else raw
  }

  /** The last quote handed to each room and each tick subject, by symbol and group, and the last price
      message of each symbol. */
  datatype Sent = Sent(
    rooms: map<(string, Option<string>), Quote>,
    ticks: map<(string, Option<string>), Quote>,
    prices: map<string, map<string, Quote>>)

  /** What the loop reads: subscribed symbols, group ids, latest raw prices, markups. */
  datatype World = World(symbols: set<string>, groups: set<string>, feed: map<string, Quote>, markups: Markups)

  /** What the loop remembers: raw prices published, and the fingerprint of the groups. */
  datatype Memory = Memory(published: map<string, Quote>, fingerprint: string)

  /** The world as a pass sees it whose markup lookups for `failed` fail: a lookup that fails yields the
      raw quote, as if there were no markup. */
  function Blind(w: World, failed: set<(string, string)>): World {
    w.(markups := w.markups - failed)
  }

  // ---------------------------------------------------------------- publishing one symbol

  function GroupKeys(symbol: string, groups: set<string>): set<(string, Option<string>)> {
    set g | g in groups :: (symbol, Some(g))
  }

  function RoomsFor(w: World, symbol: string, raw: Quote): map<(string, Option<string>), Quote> {
    map key | key in GroupKeys(symbol, w.groups) + {(symbol, None)} ::
      if key.1.Some? then Marked(w.markups, symbol, key.1.value, raw) else raw
  }

  /** Without groups one tick goes out for the symbol as such, else one per group. */
  function TicksFor(w: World, symbol: string, raw: Quote): map<(string, Option<string>), Quote> {
    if w.groups == {} then
      map[(symbol, None) := raw]
    else
      map key | key in GroupKeys(symbol, w.groups) ::
        if key.1.Some? then Marked(w.markups, symbol, key.1.value, raw) else raw
  }

  function PricesFor(w: World, symbol: string, raw: Quote): map<string, Quote> {
    if w.groups == {} then map["" := raw] else map g | g in w.groups :: Marked(w.markups, symbol, g, raw)
  }

  function Publish(sent: Sent, w: World, symbol: string, raw: Quote): Sent {
    Sent(sent.rooms + RoomsFor(w, symbol, raw),
         sent.ticks + TicksFor(w, symbol, raw),
         sent.prices[symbol := PricesFor(w, symbol, raw)])
  }

  /** What was last published for the symbol is what publishing `raw` now would say. */
  predicate Current(sent: Sent, w: World, symbol: string, raw: Quote) {
    && (forall g :: g in w.groups ==>
          (symbol, Some(g)) in sent.rooms && sent.rooms[(symbol, Some(g))] == Marked(w.markups, symbol, g, raw))
    && (symbol, None) in sent.rooms && sent.rooms[(symbol, None)] == raw
    && (forall g :: g in w.groups ==>
          (symbol, Some(g)) in sent.ticks && sent.ticks[(symbol, Some(g))] == Marked(w.markups, symbol, g, raw))
    && (w.groups == {} ==> (symbol, None) in sent.ticks && sent.ticks[(symbol, None)] == raw)
    && symbol in sent.prices && sent.prices[symbol] == PricesFor(w, symbol, raw)
  }

  lemma PublishMakesCurrent(sent: Sent, w: World, symbol: string, raw: Quote)
    ensures Current(Publish(sent, w, symbol, raw), w, symbol, raw)
  {
    forall g | g in w.groups ensures (symbol, Some(g)) in GroupKeys(symbol, w.groups) {
    }
  }

  /** Publishing what is current changes nothing. */
  lemma CurrentIsFixed(sent: Sent, w: World, symbol: string, raw: Quote)
    requires Current(sent, w, symbol, raw)
    ensures Publish(sent, w, symbol, raw) == sent
  {
    assert Publish(sent, w, symbol, raw).rooms == sent.rooms;
    assert Publish(sent, w, symbol, raw).ticks == sent.ticks;
    assert Publish(sent, w, symbol, raw).prices == sent.prices;
  }

  lemma OthersStayCurrent(sent: Sent, w: World, symbol: string, raw: Quote, other: string, otherRaw: Quote)
    requires Current(sent, w, symbol, raw) && other != symbol
    ensures Current(Publish(sent, w, other, otherRaw), w, symbol, raw)
  {
    var sent' := Publish(sent, w, other, otherRaw);
    assert forall k: Option<string> :: (symbol, k) !in RoomsFor(w, other, otherRaw) && (symbol, k) !in TicksFor(w, other, otherRaw);
  }

  // ---------------------------------------------------------------- one pass

  datatype Turned = Turned(published: map<string, Quote>, sent: Sent)

  function Turn(t: Turned, w: World, symbol: string): Turned {
    if symbol !in w.feed then t
    else
      var raw := w.feed[symbol];
      if symbol in t.published && t.published[symbol] == raw then t
      else Turned(t.published[symbol := raw], Publish(t.sent, w, symbol, raw))
  }

  function Turns(t: Turned, w: World, symbols: seq<string>): Turned
    decreases |symbols|
  {
    if symbols == [] then t else Turns(Turn(t, w, symbols[0]), w, symbols[1..])
  }

  /** A changed fingerprint clears the record. */
  function Noticed(memory: Memory, ids: seq<string>): Memory {
    var fp := Fingerprint(ids);
    if memory.fingerprint != fp then Memory(map[], fp) else memory
  }

  function Pass(memory: Memory, sent: Sent, w: World, symbols: seq<string>, ids: seq<string>): (Memory, Sent) {
    var noticed := Noticed(memory, ids);
    var t := Turns(Turned(noticed.published, sent), w, symbols);
    (Memory(t.published, noticed.fingerprint), t.sent)
  }

  /** The loop that skips nothing. */
  function PassAlways(sent: Sent, w: World, symbols: seq<string>): Sent
    decreases |symbols|
  {
    if symbols == [] then sent
    else PassAlways(if symbols[0] in w.feed then Publish(sent, w, symbols[0], w.feed[symbols[0]]) else sent, w, symbols[1..])
  }

  lemma MessageIs(message: map<string, Quote>, w: World, symbol: string, raw: Quote, ids: seq<string>)
    requires Lists(ids, w.groups) && message.Keys == set g | g in ids
    requires forall g :: g in message ==> message[g] == Marked(w.markups, symbol, g, raw)
    ensures (if message == map[] then map["" := raw] else message) == PricesFor(w, symbol, raw)
  {
    assert message.Keys == w.groups;
    if w.groups != {} { assert message == PricesFor(w, symbol, raw); }
  }

  lemma RoomsAre(before: map<(string, Option<string>), Quote>, handed: map<(string, Option<string>), Quote>,
                 w: World, symbol: string, raw: Quote, ids: seq<string>)
    requires Lists(ids, w.groups)
    requires forall key :: key in handed <==> key in before || (key.0 == symbol && key.1.Some? && key.1.value in ids)
    requires forall key :: key in handed ==>
      handed[key] == if key.0 == symbol && key.1.Some? && key.1.value in ids
                     then Marked(w.markups, symbol, key.1.value, raw) else before[key]
    ensures handed[(symbol, None) := raw] == before + RoomsFor(w, symbol, raw)
  {
    var a, b := handed[(symbol, None) := raw], before + RoomsFor(w, symbol, raw);
    forall key ensures key in GroupKeys(symbol, w.groups) <==> key.0 == symbol && key.1.Some? && key.1.value in ids {
      if key.0 == symbol && key.1.Some? { assert key == (symbol, Some(key.1.value)); }
    }
    assert a.Keys == b.Keys;
  }

  class PriceLoop {
    var published: map<string, Quote>
    var fingerprint: string
    var rooms: map<(string, Option<string>), Quote>
    var ticks: map<(string, Option<string>), Quote>
    var prices: map<string, map<string, Quote>>

    ghost function View(): (Memory, Sent)
      reads this
    {
      (Memory(published, fingerprint), Sent(rooms, ticks, prices))
    }

    constructor ()
      ensures View() == (Memory(map[], ""), Sent(map[], map[], map[]))
    {
      published, fingerprint, rooms, ticks, prices := map[], "", map[], map[], map[];
    }

    /** Looks up each group's markup, hands the group its quote and lists it in the price message. */
    method HandToGroups(w: World, symbol: string, raw: Quote, ids: seq<string>, failed: set<(string, string)>)
      returns (message: map<string, Quote>)
      modifies this`rooms
      ensures message.Keys == set g | g in ids
      ensures forall g :: g in message ==> message[g] == Marked(Blind(w, failed).markups, symbol, g, raw)
      ensures forall key :: key in rooms <==> key in old(rooms) || (key.0 == symbol && key.1.Some? && key.1.value in ids)
      ensures forall key :: key in rooms ==>
        rooms[key] == if key.0 == symbol && key.1.Some? && key.1.value in ids
                      then Marked(Blind(w, failed).markups, symbol, key.1.value, raw) else old(rooms)[key]
    {
      message := map[];
      ghost var markups := Blind(w, failed).markups;
      for i := 0 to |ids|
        invariant message.Keys == set g | g in ids[..i]
        invariant forall g :: g in message ==> message[g] == Marked(markups, symbol, g, raw)
        invariant forall key :: key in rooms <==> key in old(rooms) || (key.0 == symbol && key.1.Some? && key.1.value in ids[..i])
        invariant forall key :: key in rooms ==>
          rooms[key] == if key.0 == symbol && key.1.Some? && key.1.value in ids[..i]
                        then Marked(markups, symbol, key.1.value, raw) else old(rooms)[key]
      {
        var q := LookUp(w, symbol, ids[i], raw, failed);
        assert ids[..i + 1] == ids[..i] + [ids[i]];
        message := message[ids[i] := q];
        rooms := rooms[(symbol, Some(ids[i])) := q];
      }
      assert ids[..|ids|] == ids;
    }

    /** A failed markup lookup falls back to the raw quote. */
    static method LookUp(w: World, symbol: string, group: string, raw: Quote, failed: set<(string, string)>) returns (q: Quote)
      ensures q == Marked(Blind(w, failed).markups, symbol, group, raw)
    {
      if (symbol, group) in failed { return raw; }
      q := Marked(w.markups, symbol, group, raw);
    }

    /** The groups' rooms, then the symbol's own room with the raw quote; then the price message; then
        the ticks, with the quotes looked up before. */
    method PublishSymbol(w: World, symbol: string, raw: Quote, ids: seq<string>, failed: set<(string, string)>)
      requires Lists(ids, w.groups)
      modifies this`rooms, this`ticks, this`prices
      ensures View().1 == Publish(old(View().1), Blind(w, failed), symbol, raw)
    {
      var quotes := HandToGroups(w, symbol, raw, ids, failed);
      var message := quotes;
      MessageIs(message, Blind(w, failed), symbol, raw, ids);
      RoomsAre(old(rooms), rooms, Blind(w, failed), symbol, raw, ids);
      if message == map[] {
        message := map["" := raw];
      }
      rooms := rooms[(symbol, None) := raw];
      prices := prices[symbol := message];
      PublishTicks(Blind(w, failed), symbol, raw, ids, quotes);
    }

    method PublishTicks(ghost w: World, symbol: string, raw: Quote, ids: seq<string>, quotes: map<string, Quote>)
      requires Lists(ids, w.groups) && quotes.Keys == set g | g in ids
      requires forall g :: g in quotes ==> quotes[g] == Marked(w.markups, symbol, g, raw)
      modifies this`ticks
      ensures ticks == old(ticks) + TicksFor(w, symbol, raw)
    {
      EmptyListing(ids, w.groups);
      if ids == [] {
        ticks := ticks[(symbol, None) := raw];
        return;
      }
      for i := 0 to |ids|
        invariant forall key :: key in ticks <==> key in old(ticks) || (key.0 == symbol && key.1.Some? && key.1.value in ids[..i])
        invariant forall key :: key in ticks ==>
          ticks[key] == if key.0 == symbol && key.1.Some? && key.1.value in ids[..i]
                        then Marked(w.markups, symbol, key.1.value, raw) else old(ticks)[key]
      {
        assert ids[..i + 1] == ids[..i] + [ids[i]];
        assert ids[i] in quotes;
        ticks := ticks[(symbol, Some(ids[i])) := quotes[ids[i]]];
      }
      assert ids[..|ids|] == ids;
    }

    /** `symbols` and `ids` are what the two hash sets give out, in their own order; `failed` names the
        markup lookups that fail during the pass. */
    method RunPass(w: World, symbols: seq<string>, ids: seq<string>, failed: set<(string, string)>)
      requires Lists(symbols, w.symbols) && Lists(ids, w.groups)
      modifies this
      ensures View() == Pass(old(View()).0, old(View()).1, Blind(w, failed), symbols, ids)
    {
      var fp := Fingerprint(ids);
      if fingerprint != fp {
        fingerprint := fp;
        published := map[];
      }
      ghost var seen := Blind(w, failed);
      ghost var target := Turns(Turned(published, View().1), seen, symbols);
      assert symbols[0..] == symbols;
      for i := 0 to |symbols|
        invariant fingerprint == fp
        invariant Turns(Turned(published, View().1), seen, symbols[i..]) == target
      {
        var symbol := symbols[i];
        assert symbols[i..][0] == symbol && symbols[i..][1..] == symbols[i + 1..];
        if symbol in w.feed {
          var raw := w.feed[symbol];
          if symbol in published && published[symbol] == raw { continue; }
          PublishSymbol(w, symbol, raw, ids, failed);
          published := published[symbol := raw];
        }
      }
      assert symbols[|symbols|..] == [];
    }
  }

  // ---------------------------------------------------------------- skipping loses nothing

  datatype System = System(w: World, memory: Memory, heard: seq<string>, sent: Sent, always: Sent)

  /** A markup change and the clearing it triggers are one step; it also re-reads the groups if it can. */
  datatype Event =
    | FeedMoves(symbol: string, raw: Quote)
    | FeedLost(symbol: string)
    | Subscribed(symbol: string)
    | Unsubscribed(symbol: string)
    | GroupsReread(groups: set<string>)
    | MarkupsChange(markups: Markups, reread: Option<set<string>>)
    | PassRuns(symbols: seq<string>, ids: seq<string>)

  function Step(s: System, e: Event): System {
    var w := s.w;
    match e
    case FeedMoves(symbol, raw) => s.(w := w.(feed := w.feed[symbol := raw]))
    case FeedLost(symbol) => s.(w := w.(feed := w.feed - {symbol}))
    case Subscribed(symbol) => s.(w := w.(symbols := w.symbols + {symbol}))
    case Unsubscribed(symbol) => s.(w := w.(symbols := w.symbols - {symbol}))
    case GroupsReread(groups) => s.(w := w.(groups := groups))
    case MarkupsChange(markups, reread) =>
      s.(w := w.(markups := markups, groups := if reread.Some? then reread.value else w.groups),
         memory := s.memory.(published := map[]))
    case PassRuns(symbols, ids) =>
      var (memory, sent) := Pass(s.memory, s.sent, w, symbols, ids);
      s.(memory := memory, heard := ids, sent := sent, always := PassAlways(s.always, w, symbols))
  }

  predicate PlainIds(groups: set<string>) {
    forall g :: g in groups ==> Plain(g)
  }

  /** Group ids are plain, and a pass sees the sets as they are, in some order. */
  ghost predicate Proper(s: System, e: Event) {
    match e
    case GroupsReread(groups) => PlainIds(groups)
    case MarkupsChange(_, reread) => reread.Some? ==> PlainIds(reread.value)
    case PassRuns(symbols, ids) => Lists(symbols, s.w.symbols) && Lists(ids, s.w.groups)
    case _ => true
  }

  function Run(s: System, events: seq<Event>): System
    decreases |events|
  {
    if events == [] then s else Run(Step(s, events[0]), events[1..])
  }

  ghost predicate ProperRun(s: System, events: seq<Event>)
    decreases |events|
  {
    events != [] ==> Proper(s, events[0]) && ProperRun(Step(s, events[0]), events[1..])
  }

  const START := System(World({}, {}, map[], map[]), Memory(map[], ""), [], Sent(map[], map[], map[]), Sent(map[], map[], map[]))

  /** The groups as the last pass saw them. */
  function Heard(s: System): set<string> {
    set g | g in s.heard
  }

  /** Everything on record as published is current for the groups last seen and today's markups. */
  ghost predicate RecordCurrent(sent: Sent, w: World, published: map<string, Quote>) {
    forall symbol :: symbol in published ==> Current(sent, w, symbol, published[symbol])
  }

  ghost predicate Faithful(s: System) {
    && s.sent == s.always
    && PlainIds(s.w.groups) && PlainIds(Heard(s)) && Lists(s.heard, Heard(s))
    && s.memory.fingerprint == Fingerprint(s.heard)
    && RecordCurrent(s.sent, s.w.(groups := Heard(s)), s.memory.published)
  }

  lemma TurnFaithful(t: Turned, w: World, symbol: string)
    requires RecordCurrent(t.sent, w, t.published)
    ensures
      var t' := Turn(t, w, symbol);
      && RecordCurrent(t'.sent, w, t'.published)
      && (symbol in w.feed ==>
            t'.sent == Publish(t.sent, w, symbol, w.feed[symbol]) && Current(t'.sent, w, symbol, w.feed[symbol])
            && symbol in t'.published && t'.published[symbol] == w.feed[symbol])
      && (symbol !in w.feed ==> t' == t)
      && (forall s :: s != symbol && s in t.published ==> s in t'.published && t'.published[s] == t.published[s])
  {
    var t' := Turn(t, w, symbol);
    if symbol in w.feed {
      var raw := w.feed[symbol];
      if symbol in t.published && t.published[symbol] == raw {
        CurrentIsFixed(t.sent, w, symbol, raw);
      } else {
        PublishMakesCurrent(t.sent, w, symbol, raw);
        forall s | s in t'.published && s != symbol ensures Current(t'.sent, w, s, t'.published[s]) {
          OthersStayCurrent(t.sent, w, s, t.published[s], symbol, raw);
        }
      }
    }
  }

  lemma {:induction false} TurnsFaithful(t: Turned, w: World, symbols: seq<string>)
    requires RecordCurrent(t.sent, w, t.published)
    ensures
      var t' := Turns(t, w, symbols);
      && RecordCurrent(t'.sent, w, t'.published)
      && t'.sent == PassAlways(t.sent, w, symbols)
      && (forall s :: s in t.published && (s !in w.feed || t.published[s] == w.feed[s]) ==>
            s in t'.published && t'.published[s] == t.published[s])
      && (forall s :: s in symbols && s in w.feed ==> s in t'.published && t'.published[s] == w.feed[s])
    decreases |symbols|
  {
    if symbols != [] {
      TurnFaithful(t, w, symbols[0]);
      TurnsFaithful(Turn(t, w, symbols[0]), w, symbols[1..]);
      assert symbols == [symbols[0]] + symbols[1..];
    }
  }

  /** After a pass the record is current for the groups the pass saw, and so is every subscribed symbol
      that has a price. */
  lemma PassFaithful(s: System, symbols: seq<string>, ids: seq<string>)
    requires Faithful(s) && Lists(symbols, s.w.symbols) && Lists(ids, s.w.groups)
    ensures
      var s' := Step(s, PassRuns(symbols, ids));
      && Faithful(s')
      && forall symbol :: symbol in s.w.symbols && symbol in s.w.feed ==> Current(s'.sent, s.w, symbol, s.w.feed[symbol])
  {
    var s' := Step(s, PassRuns(symbols, ids));
    FingerprintExact(s.heard, ids, Heard(s), s.w.groups);
    assert Heard(s') == s.w.groups;
    assert s.w.(groups := Heard(s')) == s.w;
    var noticed := Noticed(s.memory, ids);
    assert RecordCurrent(s.sent, s.w, noticed.published);
    TurnsFaithful(Turned(noticed.published, s.sent), s.w, symbols);
  }

  lemma StepFaithful(s: System, e: Event)
    requires Faithful(s) && Proper(s, e)
    ensures Faithful(Step(s, e))
  {
    match e
    case PassRuns(symbols, ids) => PassFaithful(s, symbols, ids);
    case FeedMoves(symbol, raw) => SameView(s, Step(s, e));
    case FeedLost(symbol) => SameView(s, Step(s, e));
    case Subscribed(symbol) => SameView(s, Step(s, e));
    case Unsubscribed(symbol) => SameView(s, Step(s, e));
    case GroupsReread(groups) => SameView(s, Step(s, e));
    case MarkupsChange(_, _) =>
  }

  /** Feed, subscriptions and unheard groups do not enter into what is current. */
  lemma SameView(s: System, s': System)
    requires Faithful(s) && PlainIds(s'.w.groups)
    requires s' == s.(w := s'.w) && s'.w.markups == s.w.markups
    ensures Faithful(s')
  {
    forall symbol | symbol in s.memory.published
      ensures Current(s.sent, s'.w.(groups := Heard(s')), symbol, s.memory.published[symbol])
    {
      assert Current(s.sent, s.w.(groups := Heard(s)), symbol, s.memory.published[symbol]);
    }
  }

  lemma {:induction false} RunFaithful(s: System, events: seq<Event>)
    requires Faithful(s) && ProperRun(s, events)
    ensures Faithful(Run(s, events))
    decreases |events|
  {
    if events != [] {
      StepFaithful(s, events[0]);
      RunFaithful(Step(s, events[0]), events[1..]);
    }
  }

  /** Downstream the loop cannot be told from one that publishes every symbol on every pass; and right
      after a pass every subscribed symbol with a price shows each group its markup of that price. */
  lemma SkippingLosesNothing(events: seq<Event>, symbols: seq<string>, ids: seq<string>)
    requires ProperRun(START, events)
    requires Lists(symbols, Run(START, events).w.symbols) && Lists(ids, Run(START, events).w.groups)
    ensures Run(START, events).sent == Run(START, events).always
    ensures
      var s := Run(START, events);
      var s' := Step(s, PassRuns(symbols, ids));
      && s'.sent == s'.always
      && forall symbol :: symbol in s.w.symbols && symbol in s.w.feed ==> Current(s'.sent, s.w, symbol, s.w.feed[symbol])
  {
    assert Fingerprint([]) == "";
    assert Faithful(START);
    RunFaithful(START, events);
    PassFaithful(Run(START, events), symbols, ids);
  }

  /** What a group is shown: each side raised by its own percentage, or the raw quote without a markup. */
  predicate ShownRight(q: Quote, markups: Markups, symbol: string, group: string, raw: Quote) {
    if (symbol, group) in markups then
      && q.bid == raw.bid + raw.bid * markups[(symbol, group)].bidPct / 100.0
      && q.ask == raw.ask + raw.ask * markups[(symbol, group)].askPct / 100.0
    else q == raw
  }

  /** Right after a pass, in every run, each subscribed symbol with a price shows each group, in its room, its
      tick and the price message, the bid and the ask raised by the group's own percentages; shows everybody
      else the raw price; and without groups sends that alone. */
  lemma ShownAfterPass(events: seq<Event>, symbols: seq<string>, ids: seq<string>, symbol: string, group: string)
    requires ProperRun(START, events)
    requires Lists(symbols, Run(START, events).w.symbols) && Lists(ids, Run(START, events).w.groups)
    requires symbol in Run(START, events).w.symbols && symbol in Run(START, events).w.feed
    ensures
      var s := Run(START, events);
      var raw, sent, room := s.w.feed[symbol], Step(s, PassRuns(symbols, ids)).sent, (symbol, Some(group));
      && (symbol, None) in sent.rooms && sent.rooms[(symbol, None)] == raw
      && symbol in sent.prices
      && (group in s.w.groups ==>
            && room in sent.rooms && ShownRight(sent.rooms[room], s.w.markups, symbol, group, raw)
            && room in sent.ticks && ShownRight(sent.ticks[room], s.w.markups, symbol, group, raw)
            && group in sent.prices[symbol] && ShownRight(sent.prices[symbol][group], s.w.markups, symbol, group, raw))
      && (s.w.groups == {} ==>
            (symbol, None) in sent.ticks && sent.ticks[(symbol, None)] == raw && sent.prices[symbol] == map["" := raw])
  {
    SkippingLosesNothing(events, symbols, ids);
    var s := Run(START, events);
    RaisedRight(s.w.markups, symbol, group, s.w.feed[symbol]);
  }

  lemma RaisedRight(markups: Markups, symbol: string, group: string, raw: Quote)
    ensures ShownRight(Marked(markups, symbol, group, raw), markups, symbol, group, raw)
  {
    if (symbol, group) in markups {
      var m := markups[(symbol, group)];
      RaiseIs(raw.bid, m.bidPct);
      RaiseIs(raw.ask, m.askPct);
    }
  }

  lemma RaiseIs(x: real, pct: real)
    ensures Raised(x, pct) == x + x * pct / 100.0
  {
  }
}
