/** The price loop step by step. Between any two of its waits the feed, the groups, the subscriptions and
    the markups may change, and a markup lookup may fail. */
module PublishSteps {
  import opened Contracts
  import opened GroupFingerprint
  import opened PublishLoop

  /** What one markup lookup saw; a lookup that fails sees no markup. `epoch` counts markup changes. */
  datatype Look = Look(failed: bool, markups: Markups, epoch: nat)

  type Looks = map<string, Look>

  /** The loop holds the ids its pass began with and the symbols still to come. */
  datatype Task =
    | Idle
    | Between(symbols: seq<string>, ids: seq<string>)
    | Priced(symbol: string, raw: Quote, symbols: seq<string>, ids: seq<string>)                               // raw price read
    | Looking(symbol: string, raw: Quote, looks: Looks, todo: seq<string>, symbols: seq<string>, ids: seq<string>)
    | Handed(symbol: string, raw: Quote, looks: Looks, symbols: seq<string>, ids: seq<string>)                 // to record

  /** `taken` remembers the lookups behind each recorded price. */
  datatype Provider = Provider(s: System, task: Task, taken: map<string, Looks>, epoch: nat)

  datatype Move =
    | Outside(e: Event)
    | Begin(symbols: seq<string>, ids: seq<string>)
    | Continue(fail: bool)

  function Seen(look: Look, symbol: string, g: string, raw: Quote): Quote {
    if look.failed then raw else Marked(look.markups, symbol, g, raw)
  }

  function MessageOf(looks: Looks, symbol: string, raw: Quote): map<string, Quote> {
    if looks == map[] then map["" := raw] else map g | g in looks :: Seen(looks[g], symbol, g, raw)
  }

  function TicksOf(looks: Looks, symbol: string, raw: Quote): map<(string, Option<string>), Quote> {
    if looks == map[] then
      map[(symbol, None) := raw]
    else
      map key | key in GroupKeys(symbol, looks.Keys) ::
        if key.1.Some? && key.1.value in looks then Seen(looks[key.1.value], symbol, key.1.value, raw) else raw
  }

  function HandOver(sent: Sent, symbol: string, g: string, q: Quote): Sent {
    sent.(rooms := sent.rooms[(symbol, Some(g)) := q])
  }

  /** The symbol's own room, the price message and the ticks. */
  function PublishRest(sent: Sent, symbol: string, raw: Quote, looks: Looks): Sent {
    Sent(sent.rooms[(symbol, None) := raw],
         sent.ticks + TicksOf(looks, symbol, raw),
         sent.prices[symbol := MessageOf(looks, symbol, raw)])
  }

  function HeardWorld(s: System): World {
    s.w.(groups := Heard(s))
  }

  /** One step of the loop; the loop that always publishes goes along and publishes where this one skips.
      A symbol unsubscribed since the pass began is subscribed again, unless that fails. */
  function Advance(p: Provider, fail: bool): Provider {
    var s := p.s;
    match p.task
    case Idle => p
    case Between(symbols, ids) =>
      if symbols == [] then p.(task := Idle)
      else
        var symbol, rest := symbols[0], symbols[1..];
        if symbol !in s.w.symbols && fail then p.(task := Between(rest, ids))
        else
          var s' := s.(w := s.w.(symbols := s.w.symbols + {symbol}));
          p.(s := s', task := if symbol in s.w.feed then Priced(symbol, s.w.feed[symbol], rest, ids) else Between(rest, ids))
    case Priced(symbol, raw, symbols, ids) =>
      if symbol in s.memory.published && s.memory.published[symbol] == raw
      then p.(s := s.(always := Publish(s.always, HeardWorld(s), symbol, raw)), task := Between(symbols, ids))
      else p.(task := Looking(symbol, raw, map[], ids, symbols, ids))
    case Looking(symbol, raw, looks, todo, symbols, ids) =>
      if todo == []
      then p.(s := s.(sent := PublishRest(s.sent, symbol, raw, looks), always := PublishRest(s.always, symbol, raw, looks)),
              task := Handed(symbol, raw, looks, symbols, ids))
      else
        var look := Look(fail, s.w.markups, p.epoch);
        var q := Seen(look, symbol, todo[0], raw);
        p.(s := s.(sent := HandOver(s.sent, symbol, todo[0], q), always := HandOver(s.always, symbol, todo[0], q)),
           task := Looking(symbol, raw, looks[todo[0] := look], todo[1..], symbols, ids))
    case Handed(symbol, raw, looks, symbols, ids) =>
      p.(s := s.(memory := s.memory.(published := s.memory.published[symbol := raw])),
         taken := p.taken[symbol := looks], task := Between(symbols, ids))
  }

  function Next(p: Provider, m: Move): Provider {
    match m
    case Outside(e) =>
      if e.PassRuns? then p else p.(s := Step(p.s, e), epoch := if e.MarkupsChange? then p.epoch + 1 else p.epoch)
    case Begin(symbols, ids) =>
      if !p.task.Idle? then p
      else p.(s := p.s.(memory := Noticed(p.s.memory, ids), heard := ids), task := Between(symbols, ids))
    case Continue(fail) => Advance(p, fail)
  }

  /** A pass begins with the ids as they are; its symbols are those read a moment before. */
  ghost predicate Sane(p: Provider, m: Move) {
    match m
    case Outside(e) => Proper(p.s, e)
    case Begin(_, ids) => Lists(ids, p.s.w.groups)
    case Continue(_) => true
  }

  function RunAll(p: Provider, moves: seq<Move>): Provider
    decreases |moves|
  {
    if moves == [] then p else RunAll(Next(p, moves[0]), moves[1..])
  }

  ghost predicate SaneRun(p: Provider, moves: seq<Move>)
    decreases |moves|
  {
    moves != [] ==> Sane(p, moves[0]) && SaneRun(Next(p, moves[0]), moves[1..])
  }

  const AWAKE := Provider(START, Idle, map[], 0)

  // ---------------------------------------------------------------- the invariant

  /** What was last published for the symbol is what the lookups say. */
  predicate Shows(sent: Sent, symbol: string, raw: Quote, looks: Looks) {
    && (forall g :: g in looks ==> (symbol, Some(g)) in sent.rooms && sent.rooms[(symbol, Some(g))] == Seen(looks[g], symbol, g, raw))
    && (symbol, None) in sent.rooms && sent.rooms[(symbol, None)] == raw
    && (forall g :: g in looks ==> (symbol, Some(g)) in sent.ticks && sent.ticks[(symbol, Some(g))] == Seen(looks[g], symbol, g, raw))
    && (looks == map[] ==> (symbol, None) in sent.ticks && sent.ticks[(symbol, None)] == raw)
    && symbol in sent.prices && sent.prices[symbol] == MessageOf(looks, symbol, raw)
  }

  predicate InHand(t: Task, symbol: string) {
    (t.Looking? || t.Handed?) && t.symbol == symbol
  }

  /** A look of the present epoch saw the present markups. */
  predicate Dated(p: Provider, looks: Looks) {
    forall g :: g in looks ==> looks[g].epoch <= p.epoch && (looks[g].epoch == p.epoch ==> looks[g].markups == p.s.w.markups)
  }

  predicate RoomsShow(sent: Sent, symbol: string, raw: Quote, looks: Looks) {
    forall g :: g in looks ==> (symbol, Some(g)) in sent.rooms && sent.rooms[(symbol, Some(g))] == Seen(looks[g], symbol, g, raw)
  }

  ghost predicate TaskOk(p: Provider) {
    match p.task
    case Idle => true
    case Between(_, ids) => ids == p.s.heard
    case Priced(_, _, _, ids) => ids == p.s.heard
    case Looking(symbol, raw, looks, todo, _, ids) =>
      && ids == p.s.heard && Dated(p, looks) && RoomsShow(p.s.sent, symbol, raw, looks)
      && |todo| <= |ids| && todo == ids[|ids| - |todo|..] && forall g :: g in looks <==> g in ids[..|ids| - |todo|]
    case Handed(symbol, raw, looks, _, ids) =>
      ids == p.s.heard && Dated(p, looks) && looks.Keys == Heard(p.s) && Shows(p.s.sent, symbol, raw, looks)
  }

  predicate RecordOk(p: Provider, symbol: string)
    requires symbol in p.s.memory.published
  {
    && symbol in p.taken && p.taken[symbol].Keys == Heard(p.s) && Dated(p, p.taken[symbol])
    && (InHand(p.task, symbol) || Shows(p.s.sent, symbol, p.s.memory.published[symbol], p.taken[symbol]))
  }

  ghost predicate RecordsOk(p: Provider) {
    forall symbol :: symbol in p.s.memory.published ==> RecordOk(p, symbol)
  }

  ghost predicate GroupsOk(s: System) {
    && PlainIds(s.w.groups) && PlainIds(Heard(s)) && Lists(s.heard, Heard(s))
    && s.memory.fingerprint == Fingerprint(s.heard)
  }

  ghost predicate Consistent(p: Provider) {
    GroupsOk(p.s) && TaskOk(p) && RecordsOk(p)
  }

  lemma OutsideConsistent(p: Provider, e: Event)
    requires Consistent(p) && Proper(p.s, e)
    ensures Consistent(Next(p, Outside(e)))
  {
    if !e.PassRuns? {
      var p' := Next(p, Outside(e));
      assert Heard(p'.s) == Heard(p.s);
      forall symbol | symbol in p'.s.memory.published ensures RecordOk(p', symbol) {
        assert RecordOk(p, symbol);
      }
    }
  }

  lemma BeginConsistent(p: Provider, symbols: seq<string>, ids: seq<string>)
    requires Consistent(p) && p.task.Idle? && Lists(ids, p.s.w.groups)
    ensures Consistent(Next(p, Begin(symbols, ids)))
  {
    var p' := Next(p, Begin(symbols, ids));
    FingerprintExact(p.s.heard, ids, Heard(p.s), p.s.w.groups);
    assert Heard(p'.s) == p.s.w.groups;
    forall symbol | symbol in p'.s.memory.published ensures RecordOk(p', symbol) {
      assert RecordOk(p, symbol);
    }
  }

  lemma HandOverKeeps(sent: Sent, symbol: string, g: string, q: Quote, other: string, raw: Quote, looks: Looks)
    requires other != symbol && Shows(sent, other, raw, looks)
    ensures Shows(HandOver(sent, symbol, g, q), other, raw, looks)
  {
  }

  lemma RestKeeps(sent: Sent, symbol: string, raw: Quote, looks: Looks, other: string, otherRaw: Quote, otherLooks: Looks)
    requires other != symbol && Shows(sent, other, otherRaw, otherLooks)
    ensures Shows(PublishRest(sent, symbol, raw, looks), other, otherRaw, otherLooks)
  {
    assert forall k: Option<string> :: (other, k) !in TicksOf(looks, symbol, raw);
  }

  lemma RestShows(sent: Sent, symbol: string, raw: Quote, looks: Looks)
    requires RoomsShow(sent, symbol, raw, looks)
    ensures Shows(PublishRest(sent, symbol, raw, looks), symbol, raw, looks)
  {
    forall g | g in looks ensures (symbol, Some(g)) in GroupKeys(symbol, looks.Keys) {
    }
  }

  lemma LookConsistent(p: Provider, fail: bool)
    requires Consistent(p) && p.task.Looking? && p.task.todo != []
    ensures Consistent(Advance(p, fail))
  {
    var t, p' := p.task, Advance(p, fail);
    var n, g := |t.ids| - |t.todo|, t.todo[0];
    assert t.ids[..n + 1] == t.ids[..n] + [g];
    assert t.todo[1..] == t.ids[n + 1..];
    forall symbol | symbol in p'.s.memory.published ensures RecordOk(p', symbol) {
      assert RecordOk(p, symbol);
      if symbol != t.symbol {
        HandOverKeeps(p.s.sent, t.symbol, g, Seen(Look(fail, p.s.w.markups, p.epoch), t.symbol, g, t.raw),
                      symbol, p.s.memory.published[symbol], p.taken[symbol]);
      }
    }
  }

  lemma RestRecords(p: Provider, fail: bool)
    requires RecordsOk(p) && p.task.Looking? && p.task.todo == []
    ensures RecordsOk(Advance(p, fail))
  {
    var t, p' := p.task, Advance(p, fail);
    forall symbol | symbol in p'.s.memory.published ensures RecordOk(p', symbol) {
      assert RecordOk(p, symbol);
      if symbol != t.symbol {
        RestKeeps(p.s.sent, t.symbol, t.raw, t.looks, symbol, p.s.memory.published[symbol], p.taken[symbol]);
      }
    }
  }

  lemma RestTask(p: Provider, fail: bool)
    requires TaskOk(p) && p.task.Looking? && p.task.todo == []
    ensures TaskOk(Advance(p, fail))
  {
    var t := p.task;
    assert t.ids[..|t.ids|] == t.ids;
    assert t.looks.Keys == Heard(p.s);
    RestShows(p.s.sent, t.symbol, t.raw, t.looks);
  }

  lemma RestConsistent(p: Provider, fail: bool)
    requires Consistent(p) && p.task.Looking? && p.task.todo == []
    ensures Consistent(Advance(p, fail))
  {
    RestRecords(p, fail);
    RestTask(p, fail);
  }

  lemma RecordConsistent(p: Provider, fail: bool)
    requires Consistent(p) && p.task.Handed?
    ensures Consistent(Advance(p, fail))
  {
    var p' := Advance(p, fail);
    forall symbol | symbol in p'.s.memory.published ensures RecordOk(p', symbol) {
      if symbol != p.task.symbol { assert RecordOk(p, symbol); }
    }
  }

  /** Nothing was sent or recorded. */
  lemma SameRecords(p: Provider, p': Provider)
    requires RecordsOk(p) && !p.task.Looking? && !p.task.Handed?
    requires p'.s.sent == p.s.sent && p'.s.memory == p.s.memory && p'.s.heard == p.s.heard
    requires p'.s.w.markups == p.s.w.markups && p'.taken == p.taken && p'.epoch == p.epoch
    ensures RecordsOk(p')
  {
    forall symbol | symbol in p'.s.memory.published ensures RecordOk(p', symbol) {
      assert RecordOk(p, symbol);
    }
  }

  lemma PricedConsistent(p: Provider, fail: bool)
    requires Consistent(p) && p.task.Priced?
    ensures Consistent(Advance(p, fail))
  {
    var ids := p.task.ids;
    assert ids[|ids| - |ids|..] == ids && ids[..|ids| - |ids|] == [];
    SameRecords(p, Advance(p, fail));
  }

  lemma OtherConsistent(p: Provider, fail: bool)
    requires Consistent(p) && (p.task.Idle? || p.task.Between?)
    ensures Consistent(Advance(p, fail))
  {
    var p' := Advance(p, fail);
    assert Heard(p'.s) == Heard(p.s);
    SameRecords(p, p');
  }

  lemma NextConsistent(p: Provider, m: Move)
    requires Consistent(p) && Sane(p, m)
    ensures Consistent(Next(p, m))
  {
    match m
    case Outside(e) => OutsideConsistent(p, e);
    case Begin(symbols, ids) => if p.task.Idle? { BeginConsistent(p, symbols, ids); }
    case Continue(fail) =>
      if p.task.Looking? {
        if p.task.todo == [] { RestConsistent(p, fail); } else { LookConsistent(p, fail); }
      } else if p.task.Handed? {
        RecordConsistent(p, fail);
      } else if p.task.Priced? {
        PricedConsistent(p, fail);
      } else {
        OtherConsistent(p, fail);
      }
  }

  lemma {:induction false} RunConsistent(p: Provider, moves: seq<Move>)
    requires Consistent(p) && SaneRun(p, moves)
    ensures Consistent(RunAll(p, moves))
    decreases |moves|
  {
    if moves != [] {
      NextConsistent(p, moves[0]);
      RunConsistent(Next(p, moves[0]), moves[1..]);
    }
  }

  lemma AwakeConsistent()
    ensures Consistent(AWAKE)
  {
  }

  // ---------------------------------------------------------------- when a record is current

  /** The lookup did no harm: it succeeded and no markup change landed between it and the record, or the
      quote it gave is the right one all the same. */
  predicate Harmless(p: Provider, look: Look, symbol: string, g: string, raw: Quote) {
    if look.failed then Marked(p.s.w.markups, symbol, g, raw) == raw
    else look.epoch == p.epoch || Marked(look.markups, symbol, g, raw) == Marked(p.s.w.markups, symbol, g, raw)
  }

  lemma HarmlessIs(p: Provider, look: Look, symbol: string, g: string, raw: Quote)
    requires look.epoch == p.epoch ==> look.markups == p.s.w.markups
    ensures Harmless(p, look, symbol, g, raw) <==> Seen(look, symbol, g, raw) == Marked(p.s.w.markups, symbol, g, raw)
  {
  }

  lemma ShowsCurrentIff(sent: Sent, w: World, symbol: string, raw: Quote, looks: Looks)
    requires Shows(sent, symbol, raw, looks) && looks.Keys == w.groups
    ensures Current(sent, w, symbol, raw)
            <==> forall g :: g in looks ==> Seen(looks[g], symbol, g, raw) == Marked(w.markups, symbol, g, raw)
  {
    if forall g :: g in looks ==> Seen(looks[g], symbol, g, raw) == Marked(w.markups, symbol, g, raw) {
      assert MessageOf(looks, symbol, raw) == PricesFor(w, symbol, raw);
    }
  }

  /** In every reachable state a price on record, which later passes will skip until it moves, is current
      for every group exactly when every lookup behind it was harmless. Whoever clears the record clears
      it all, so a surviving record has seen no markup change since it was written. */
  lemma RecordedCurrentIff(moves: seq<Move>, symbol: string)
    requires SaneRun(AWAKE, moves)
    requires
      var p := RunAll(AWAKE, moves);
      symbol in p.s.memory.published && !InHand(p.task, symbol)
    ensures
      var p := RunAll(AWAKE, moves);
      var raw := p.s.memory.published[symbol];
      && symbol in p.taken && p.taken[symbol].Keys == Heard(p.s)
      && (Current(p.s.sent, HeardWorld(p.s), symbol, raw)
          <==> forall g :: g in p.taken[symbol] ==> Harmless(p, p.taken[symbol][g], symbol, g, raw))
  {
    AwakeConsistent();
    RunConsistent(AWAKE, moves);
    var p := RunAll(AWAKE, moves);
    var raw := p.s.memory.published[symbol];
    assert RecordOk(p, symbol);
    var looks := p.taken[symbol];
    ShowsCurrentIff(p.s.sent, HeardWorld(p.s), symbol, raw, looks);
    forall g | g in looks
      ensures Harmless(p, looks[g], symbol, g, raw) <==> Seen(looks[g], symbol, g, raw) == Marked(p.s.w.markups, symbol, g, raw)
    {
      HarmlessIs(p, looks[g], symbol, g, raw);
    }
  }

  // ---------------------------------------------------------------- gentle runs

  /** No lookup fails, and no markup change lands between a lookup and the record it leads to. */
  predicate Gentle(p: Provider, m: Move) {
    match m
    case Continue(fail) => p.task.Looking? && p.task.todo != [] ==> !fail
    case Outside(e) => e.MarkupsChange? && (p.task.Looking? || p.task.Handed?) ==> p.task.looks == map[]
    case Begin(_, _) => true
  }

  predicate GentleRun(p: Provider, moves: seq<Move>)
    decreases |moves|
  {
    moves != [] ==> Gentle(p, moves[0]) && GentleRun(Next(p, moves[0]), moves[1..])
  }

  predicate CleanLooks(p: Provider, looks: Looks) {
    forall g :: g in looks ==> !looks[g].failed && looks[g].epoch == p.epoch
  }

  ghost predicate Clean(p: Provider) {
    && p.s.sent == p.s.always
    && (p.task.Looking? || p.task.Handed? ==> CleanLooks(p, p.task.looks))
    && forall symbol :: symbol in p.s.memory.published && symbol in p.taken ==> CleanLooks(p, p.taken[symbol])
  }

  predicate Skips(p: Provider) {
    p.task.Priced? && p.task.symbol in p.s.memory.published && p.s.memory.published[p.task.symbol] == p.task.raw
  }

  /** A skip loses nothing, because what is on record is current. */
  lemma SkipIsFree(p: Provider)
    requires Consistent(p) && Clean(p) && Skips(p)
    ensures Publish(p.s.always, HeardWorld(p.s), p.task.symbol, p.task.raw) == p.s.always
  {
    assert RecordOk(p, p.task.symbol);
    CleanIsCurrent(p, p.task.symbol);
    CurrentIsFixed(p.s.always, HeardWorld(p.s), p.task.symbol, p.task.raw);
  }

  lemma PricedIs(p: Provider, fail: bool)
    requires p.task.Priced? && (Skips(p) ==> Publish(p.s.always, HeardWorld(p.s), p.task.symbol, p.task.raw) == p.s.always)
    ensures
      var p' := Advance(p, fail);
      p'.s == p.s && p'.taken == p.taken && p'.epoch == p.epoch && (p'.task.Between? || (p'.task.Looking? && p'.task.looks == map[]))
  {
  }

  lemma SkipClean(p: Provider, fail: bool)
    requires Consistent(p) && Clean(p) && p.task.Priced?
    ensures Clean(Advance(p, fail))
  {
    if Skips(p) { SkipIsFree(p); }
    PricedIs(p, fail);
  }

  lemma CleanIsCurrent(p: Provider, symbol: string)
    requires Clean(p) && symbol in p.s.memory.published && RecordOk(p, symbol) && !InHand(p.task, symbol)
    ensures Current(p.s.sent, HeardWorld(p.s), symbol, p.s.memory.published[symbol])
  {
    var raw, looks := p.s.memory.published[symbol], p.taken[symbol];
    assert CleanLooks(p, looks);
    ShowsCurrentIff(p.s.sent, HeardWorld(p.s), symbol, raw, looks);
  }

  lemma OutsideClean(p: Provider, e: Event)
    requires Clean(p) && Gentle(p, Outside(e))
    ensures Clean(Next(p, Outside(e)))
  {
  }

  lemma BeginClean(p: Provider, symbols: seq<string>, ids: seq<string>)
    requires Clean(p)
    ensures Clean(Next(p, Begin(symbols, ids)))
  {
  }

  lemma LoopClean(p: Provider, fail: bool)
    requires Clean(p) && Gentle(p, Continue(fail)) && !p.task.Priced?
    ensures Clean(Advance(p, fail))
  {
    if p.task.Handed? { assert CleanLooks(p, p.task.looks); }
  }

  lemma NextClean(p: Provider, m: Move)
    requires Consistent(p) && Clean(p) && Gentle(p, m)
    ensures Clean(Next(p, m))
  {
    match m
    case Outside(e) => OutsideClean(p, e);
    case Begin(symbols, ids) => BeginClean(p, symbols, ids);
    case Continue(fail) => if p.task.Priced? { SkipClean(p, fail); } else { LoopClean(p, fail); }
  }

  lemma {:induction false} RunClean(p: Provider, moves: seq<Move>)
    requires Consistent(p) && Clean(p) && SaneRun(p, moves) && GentleRun(p, moves)
    ensures Consistent(RunAll(p, moves)) && Clean(RunAll(p, moves))
    decreases |moves|
  {
    if moves != [] {
      NextConsistent(p, moves[0]);
      NextClean(p, moves[0]);
      RunClean(Next(p, moves[0]), moves[1..]);
    }
  }

  /** In every run in which no lookup fails and no markup change lands between a lookup and its record,
      with everything else interleaved at will, the messages are those of a loop that never skips, and
      every price on record is current. */
  lemma GentleRunsLoseNothing(moves: seq<Move>)
    requires SaneRun(AWAKE, moves) && GentleRun(AWAKE, moves)
    ensures
      var p := RunAll(AWAKE, moves);
      && p.s.sent == p.s.always
      && forall symbol :: symbol in p.s.memory.published && !InHand(p.task, symbol) ==>
           Current(p.s.sent, HeardWorld(p.s), symbol, p.s.memory.published[symbol])
  {
    AwakeConsistent();
    RunClean(AWAKE, moves);
    var p := RunAll(AWAKE, moves);
    forall symbol | symbol in p.s.memory.published && !InHand(p.task, symbol)
      ensures Current(p.s.sent, HeardWorld(p.s), symbol, p.s.memory.published[symbol])
    {
      assert RecordOk(p, symbol);
      CleanIsCurrent(p, symbol);
    }
  }

  // ---------------------------------------------------------------- an uninterrupted pass

  function Stage(t: Task): nat {
    match t
    case Idle => 0
    case Between(symbols, _) => 5 * |symbols| + 1
    case Priced(_, _, symbols, _) => 5 * |symbols| + 5
    case Looking(_, _, _, _, symbols, _) => 5 * |symbols| + 4
    case Handed(_, _, _, symbols, _) => 5 * |symbols| + 3
  }

  function Todo(t: Task): nat {
    if t.Looking? then |t.todo| else 0
  }

  predicate LookupFails(t: Task, failed: set<(string, string)>) {
    t.Looking? && t.todo != [] && (t.symbol, t.todo[0]) in failed
  }

  /** Runs the pass to its end; `failed` names the lookups that fail. */
  function Finish(p: Provider, failed: set<(string, string)>): Provider
    decreases Stage(p.task), Todo(p.task)
  {
    if p.task.Idle? then p else Finish(Advance(p, LookupFails(p.task, failed)), failed)
  }

  /** Part of a symbol's groups have been looked up and handed their quotes. */
  ghost predicate PartWay(p: Provider, before: Sent, failed: set<(string, string)>) {
    && p.task.Looking?
    && (forall g :: g in p.task.looks ==>
          p.task.looks[g].failed == ((p.task.symbol, g) in failed) && p.task.looks[g].markups == p.s.w.markups)
    && p.s.sent.ticks == before.ticks && p.s.sent.prices == before.prices
    && (forall key :: key in p.s.sent.rooms <==>
          key in before.rooms || (key.0 == p.task.symbol && key.1.Some? && key.1.value in p.task.looks))
    && (forall key :: key in p.s.sent.rooms ==>
          p.s.sent.rooms[key] ==
            if key.0 == p.task.symbol && key.1.Some? && key.1.value in p.task.looks
            then Seen(p.task.looks[key.1.value], p.task.symbol, key.1.value, p.task.raw) else before.rooms[key])
  }

  lemma SeenIsBlind(look: Look, w: World, failed: set<(string, string)>, symbol: string, g: string, raw: Quote)
    requires look.failed == ((symbol, g) in failed) && look.markups == w.markups
    ensures Seen(look, symbol, g, raw) == Marked(Blind(w, failed).markups, symbol, g, raw)
  {
  }

  predicate Agree(looks: Looks, w: World, symbol: string, raw: Quote) {
    looks.Keys == w.groups && forall g :: g in looks ==> Seen(looks[g], symbol, g, raw) == Marked(w.markups, symbol, g, raw)
  }

  lemma RestTicks(looks: Looks, w: World, symbol: string, raw: Quote)
    requires Agree(looks, w, symbol, raw)
    ensures TicksOf(looks, symbol, raw) == TicksFor(w, symbol, raw)
  {
  }

  lemma RestMessage(looks: Looks, w: World, symbol: string, raw: Quote)
    requires Agree(looks, w, symbol, raw)
    ensures MessageOf(looks, symbol, raw) == PricesFor(w, symbol, raw)
  {
  }

  /** All groups done: the rest completes what publishing in one go would have sent. */
  lemma RestIsPublish(p: Provider, before: Sent, failed: set<(string, string)>)
    requires PartWay(p, before, failed) && p.task.looks.Keys == p.s.w.groups
    ensures PublishRest(p.s.sent, p.task.symbol, p.task.raw, p.task.looks)
         == Publish(before, Blind(p.s.w, failed), p.task.symbol, p.task.raw)
  {
    var t, w := p.task, Blind(p.s.w, failed);
    forall g | g in t.looks ensures Seen(t.looks[g], t.symbol, g, t.raw) == Marked(w.markups, t.symbol, g, t.raw) {
      SeenIsBlind(t.looks[g], p.s.w, failed, t.symbol, g, t.raw);
    }
    RestRooms(p, before, failed);
    RestTicks(t.looks, w, t.symbol, t.raw);
    RestMessage(t.looks, w, t.symbol, t.raw);
  }

  lemma RestRooms(p: Provider, before: Sent, failed: set<(string, string)>)
    requires PartWay(p, before, failed) && p.task.looks.Keys == p.s.w.groups
    ensures p.s.sent.rooms[(p.task.symbol, None) := p.task.raw]
         == before.rooms + RoomsFor(Blind(p.s.w, failed), p.task.symbol, p.task.raw)
  {
    var t, w := p.task, Blind(p.s.w, failed);
    var a, b := p.s.sent.rooms[(t.symbol, None) := t.raw], before.rooms + RoomsFor(w, t.symbol, t.raw);
    forall key ensures key in GroupKeys(t.symbol, w.groups) <==> key.0 == t.symbol && key.1.Some? && key.1.value in t.looks {
      if key.0 == t.symbol && key.1.Some? { assert key == (t.symbol, Some(key.1.value)); }
    }
    assert a.Keys == b.Keys;
    forall key | key in a ensures a[key] == b[key] {
      if key.0 == t.symbol && key.1.Some? && key.1.value in t.looks {
        SeenIsBlind(t.looks[key.1.value], p.s.w, failed, t.symbol, key.1.value, t.raw);
      }
    }
  }

  /** The state once the symbol in hand is done with. */
  ghost predicate SymbolDone(p: Provider, p': Provider, before: Sent, failed: set<(string, string)>)
    requires p.task.Looking?
  {
    && p'.task == Between(p.task.symbols, p.task.ids)
    && p'.s.w == p.s.w && p'.s.heard == p.s.heard
    && p'.s.memory == p.s.memory.(published := p.s.memory.published[p.task.symbol := p.task.raw])
    && p'.s.sent == Publish(before, Blind(p.s.w, failed), p.task.symbol, p.task.raw)
  }

  lemma {:induction false} LookingEnds(p: Provider, before: Sent, failed: set<(string, string)>) returns (p': Provider)
    requires PartWay(p, before, failed) && p.task.looks.Keys + (set g | g in p.task.todo) == p.s.w.groups
    ensures Finish(p, failed) == Finish(p', failed) && SymbolDone(p, p', before, failed)
    decreases |p.task.todo|
  {
    if p.task.todo == [] {
      assert p.task.looks.Keys == p.s.w.groups;
      p' := LookingLast(p, before, failed);
    } else {
      var q := Advance(p, LookupFails(p.task, failed));
      assert p.task.todo == [p.task.todo[0]] + p.task.todo[1..];
      LookPartWay(p, before, failed);
      assert q.task.looks.Keys + (set g | g in q.task.todo) == p.s.w.groups;
      assert Finish(p, failed) == Finish(q, failed);
      p' := LookingEnds(q, before, failed);
    }
  }

  lemma LookingLast(p: Provider, before: Sent, failed: set<(string, string)>) returns (p': Provider)
    requires PartWay(p, before, failed) && p.task.todo == [] && p.task.looks.Keys == p.s.w.groups
    ensures Finish(p, failed) == Finish(p', failed) && SymbolDone(p, p', before, failed)
  {
    p' := Advance(Advance(p, false), false);
    TwoMore(p, failed);
    RestIsPublish(p, before, failed);
  }

  lemma TwoMore(p: Provider, failed: set<(string, string)>)
    requires p.task.Looking? && p.task.todo == []
    ensures
      var p' := Advance(Advance(p, false), false);
      && Finish(p, failed) == Finish(p', failed)
      && p'.task == Between(p.task.symbols, p.task.ids) && p'.s.w == p.s.w && p'.s.heard == p.s.heard
      && p'.s.memory == p.s.memory.(published := p.s.memory.published[p.task.symbol := p.task.raw])
      && p'.s.sent == PublishRest(p.s.sent, p.task.symbol, p.task.raw, p.task.looks)
  {
    var q := Advance(p, false);
    assert Finish(p, failed) == Finish(q, failed);
    assert Finish(q, failed) == Finish(Advance(q, false), failed);
  }

  lemma LookPartWay(p: Provider, before: Sent, failed: set<(string, string)>)
    requires PartWay(p, before, failed) && p.task.todo != []
    ensures
      var q := Advance(p, LookupFails(p.task, failed));
      && PartWay(q, before, failed) && q.s.w == p.s.w && q.s.memory == p.s.memory && q.s.heard == p.s.heard
      && q.task == p.task.(looks := q.task.looks, todo := p.task.todo[1..])
      && q.task.looks.Keys == p.task.looks.Keys + {p.task.todo[0]}
  {
  }

  lemma {:induction false} PassEnds(p: Provider, failed: set<(string, string)>)
    requires p.task.Between? && Lists(p.task.ids, p.s.w.groups) && forall symbol :: symbol in p.task.symbols ==> symbol in p.s.w.symbols
    ensures
      var p' := Finish(p, failed);
      var t := Turns(Turned(p.s.memory.published, p.s.sent), Blind(p.s.w, failed), p.task.symbols);
      && p'.task.Idle? && p'.s.w == p.s.w && p'.s.sent == t.sent
      && p'.s.memory == p.s.memory.(published := t.published)
    decreases |p.task.symbols|
  {
    var symbols, ids := p.task.symbols, p.task.ids;
    var q := Advance(p, false);
    assert Finish(p, failed) == Finish(q, failed);
    if symbols != [] {
      var symbol := symbols[0];
      assert p.s.w.symbols + {symbol} == p.s.w.symbols;
      assert q.s == p.s;
      if symbol in p.s.w.feed {
        var next := Advance(q, false);
        assert Finish(q, failed) == Finish(next, failed);
        if Skips(q) {
          PassEnds(next, failed);
        } else {
          assert (set g | g in ids) == p.s.w.groups;
          var done := LookingEnds(next, p.s.sent, failed);
          PassEnds(done, failed);
        }
      } else {
        PassEnds(q, failed);
      }
    }
  }

  /** A pass with nothing in between leaves what the pass as a whole is specified to leave. */
  lemma UninterruptedPass(p: Provider, symbols: seq<string>, ids: seq<string>, failed: set<(string, string)>)
    requires p.task.Idle? && Lists(symbols, p.s.w.symbols) && Lists(ids, p.s.w.groups)
    ensures
      var p' := Finish(Next(p, Begin(symbols, ids)), failed);
      p'.task.Idle? && (p'.s.memory, p'.s.sent) == Pass(p.s.memory, p.s.sent, Blind(p.s.w, failed), symbols, ids)
  {
    PassEnds(Next(p, Begin(symbols, ids)), failed);
  }

  // ---------------------------------------------------------------- two runs that lose a markup

  const HUNDRED := Quote(100.0, 100.0)

  function OneAndTwo(symbol: string, group: string): Markups {
    map[(symbol, group) := Markup(1.0, 2.0)]
  }

  const GO := Continue(false)

  /** A pass over one symbol and one group whose lookup may fail, and `during` landing between lookup and
      record. */
  function OnePass(symbol: string, group: string, fail: bool, during: seq<Move>): seq<Move> {
    [Begin([symbol], [group]), GO, GO, Continue(fail)] + during + [GO, GO, GO]
  }

  function SkippingPass(symbol: string, group: string): seq<Move> {
    [Begin([symbol], [group]), GO, GO, GO]
  }

  function SetUp(symbol: string, group: string, markups: Markups): seq<Move> {
    [Outside(Subscribed(symbol)), Outside(GroupsReread({group})), Outside(FeedMoves(symbol, HUNDRED)), Outside(MarkupsChange(markups, None))]
  }

  /** The markup arrives while the first pass is between looking it up and recording the price. */
  function LateClear(symbol: string, group: string): seq<Move> {
    SetUp(symbol, group, map[])
      + OnePass(symbol, group, false, [Outside(MarkupsChange(OneAndTwo(symbol, group), None))])
      + SkippingPass(symbol, group)
  }

  /** The markup is there all along, but the first pass fails to read it. */
  function FailedLookup(symbol: string, group: string): seq<Move> {
    SetUp(symbol, group, OneAndTwo(symbol, group)) + OnePass(symbol, group, true, []) + SkippingPass(symbol, group)
  }

  lemma {:induction false} RunSplits(p: Provider, a: seq<Move>, b: seq<Move>)
    ensures RunAll(p, a + b) == RunAll(RunAll(p, a), b)
    ensures SaneRun(p, a + b) <==> SaneRun(p, a) && SaneRun(RunAll(p, a), b)
    decreases |a|
  {
    if a == [] {
      assert a + b == b;
    } else {
      assert (a + b)[1..] == a[1..] + b;
      RunSplits(Next(p, a[0]), a[1..], b);
    }
  }

  lemma RunFour(p: Provider, a: Move, b: Move, c: Move, d: Move)
    ensures RunAll(p, [a, b, c, d]) == Next(Next(Next(Next(p, a), b), c), d)
    ensures SaneRun(p, [a, b, c, d])
            <==> Sane(p, a) && Sane(Next(p, a), b) && Sane(Next(Next(p, a), b), c) && Sane(Next(Next(Next(p, a), b), c), d)
  {
    var p1 := Next(p, a);
    var p2 := Next(p1, b);
    var p3 := Next(p2, c);
    assert [a, b, c, d][1..] == [b, c, d] && [b, c, d][1..] == [c, d] && [c, d][1..] == [d] && [d][1..] == [];
    assert RunAll(p3, [d]) == Next(p3, d) && RunAll(p2, [c, d]) == RunAll(p3, [d]) && RunAll(p1, [b, c, d]) == RunAll(p2, [c, d]);
    assert SaneRun(p3, [d]) <==> Sane(p3, d);
    assert SaneRun(p2, [c, d]) <==> Sane(p2, c) && SaneRun(p3, [d]);
    assert SaneRun(p1, [b, c, d]) <==> Sane(p1, b) && SaneRun(p2, [c, d]);
  }

  lemma RunThree(p: Provider, a: Move, b: Move, c: Move)
    ensures RunAll(p, [a, b, c]) == Next(Next(Next(p, a), b), c)
    ensures SaneRun(p, [a, b, c]) <==> Sane(p, a) && Sane(Next(p, a), b) && Sane(Next(Next(p, a), b), c)
  {
    var p1 := Next(p, a);
    var p2 := Next(p1, b);
    assert [a, b, c][1..] == [b, c] && [b, c][1..] == [c] && [c][1..] == [];
    assert RunAll(p2, [c]) == Next(p2, c) && RunAll(p1, [b, c]) == RunAll(p2, [c]);
    assert SaneRun(p2, [c]) <==> Sane(p2, c);
    assert SaneRun(p1, [b, c]) <==> Sane(p1, b) && SaneRun(p2, [c]);
  }

  /** One subscribed symbol at a hundred, one group. */
  predicate Scene(p: Provider, symbol: string, group: string, markups: Markups) {
    p.s.w == World({symbol}, {group}, map[symbol := HUNDRED], markups)
  }

  lemma AfterSetUp(symbol: string, group: string, markups: Markups)
    requires Plain(group)
    ensures
      var p := RunAll(AWAKE, SetUp(symbol, group, markups));
      SaneRun(AWAKE, SetUp(symbol, group, markups)) && Scene(p, symbol, group, markups) && p.task.Idle? && p.s.memory.published == map[]
  {
    var m := SetUp(symbol, group, markups);
    RunFour(AWAKE, m[0], m[1], m[2], m[3]);
  }

  /** Up to the lookup. */
  lemma FirstHalf(p: Provider, symbol: string, group: string, markups: Markups, fail: bool)
    requires Scene(p, symbol, group, markups) && p.task.Idle? && p.s.memory.published == map[]
    ensures
      var m := [Begin([symbol], [group]), GO, GO, Continue(fail)];
      var p', look := RunAll(p, m), Look(fail, markups, p.epoch);
      && SaneRun(p, m) && Scene(p', symbol, group, markups)
      && p'.task == Looking(symbol, HUNDRED, map[group := look], [], [], [group])
      && p'.s.memory == Memory(map[], Fingerprint([group])) && p'.s.heard == [group]
      && (symbol, Some(group)) in p'.s.sent.rooms && p'.s.sent.rooms[(symbol, Some(group))] == Seen(look, symbol, group, HUNDRED)
  {
    RunFour(p, Begin([symbol], [group]), GO, GO, Continue(fail));
    var p1 := Next(p, Begin([symbol], [group]));
    assert p1.task == Between([symbol], [group]) && p1.s.memory == Memory(map[], Fingerprint([group]));
    var p2 := Next(p1, GO);
    assert p2.s.w.symbols == {symbol};
    assert p2.task == Priced(symbol, HUNDRED, [], [group]);
    var p3 := Next(p2, GO);
    assert p3.task == Looking(symbol, HUNDRED, map[], [group], [], [group]);
  }

  lemma SecondHalf(p: Provider, symbol: string, group: string, markups: Markups, look: Look)
    requires Scene(p, symbol, group, markups) && p.s.heard == [group] && p.s.memory == Memory(map[], Fingerprint([group]))
    requires p.task == Looking(symbol, HUNDRED, map[group := look], [], [], [group])
    requires (symbol, Some(group)) in p.s.sent.rooms
    ensures
      var p' := RunAll(p, [GO, GO, GO]);
      && SaneRun(p, [GO, GO, GO]) && Scene(p', symbol, group, markups) && p'.task.Idle? && p'.s.heard == [group]
      && p'.s.memory == Memory(map[symbol := HUNDRED], Fingerprint([group]))
      && (symbol, Some(group)) in p'.s.sent.rooms
      && p'.s.sent.rooms[(symbol, Some(group))] == p.s.sent.rooms[(symbol, Some(group))]
  {
    RunThree(p, GO, GO, GO);
  }

  /** The second pass skips the symbol; a loop that always publishes would not have. */
  lemma SecondPass(p: Provider, symbol: string, group: string, markups: Markups)
    requires Scene(p, symbol, group, markups) && p.task.Idle? && p.s.heard == [group]
    requires p.s.memory == Memory(map[symbol := HUNDRED], Fingerprint([group]))
    ensures
      var p' := RunAll(p, SkippingPass(symbol, group));
      && SaneRun(p, SkippingPass(symbol, group)) && p'.task.Idle? && p'.s.w == p.s.w && p'.s.sent == p.s.sent
      && p'.s.memory == p.s.memory
      && (symbol, Some(group)) in p'.s.always.rooms
      && p'.s.always.rooms[(symbol, Some(group))] == Marked(markups, symbol, group, HUNDRED)
  {
    RunFour(p, Begin([symbol], [group]), GO, GO, GO);
    var p1 := Next(p, Begin([symbol], [group]));
    assert p1.task == Between([symbol], [group]) && p1.s == p.s;
    var p2 := Next(p1, GO);
    assert p2.s.w.symbols == {symbol};
    assert p2.task == Priced(symbol, HUNDRED, [], [group]) && p2.s == p.s;
    assert Heard(p2.s) == {group};
    PublishMakesCurrent(p2.s.always, HeardWorld(p2.s), symbol, HUNDRED);
  }

  /** After two whole passes the group is still shown the unmarked price, while a loop that always
      publishes has put it right. */
  ghost predicate MarkupLost(p: Provider, symbol: string, group: string) {
    && p.task.Idle? && Scene(p, symbol, group, OneAndTwo(symbol, group))
    && symbol in p.s.memory.published
    && (symbol, Some(group)) in p.s.sent.rooms && p.s.sent.rooms[(symbol, Some(group))] == HUNDRED
    && (symbol, Some(group)) in p.s.always.rooms && p.s.always.rooms[(symbol, Some(group))] == Quote(101.0, 102.0)
  }

  lemma MarkedUp(symbol: string, group: string)
    ensures Marked(OneAndTwo(symbol, group), symbol, group, HUNDRED) == Quote(101.0, 102.0)
    ensures Marked(map[], symbol, group, HUNDRED) == HUNDRED
  {
    assert Raised(100.0, 1.0) == 101.0 && Raised(100.0, 2.0) == 102.0;
  }

  /** A markup change that lands between a lookup and the record it leads to stays unseen until the
      price moves, although its clearing was carried out. */
  lemma LateClearLosesMarkup(symbol: string, group: string)
    requires Plain(group)
    ensures SaneRun(AWAKE, LateClear(symbol, group)) && MarkupLost(RunAll(AWAKE, LateClear(symbol, group)), symbol, group)
  {
    var markups, change := OneAndTwo(symbol, group), Outside(MarkupsChange(OneAndTwo(symbol, group), None));
    var a, b := SetUp(symbol, group, map[]), [Begin([symbol], [group]), GO, GO, GO];
    AfterSetUp(symbol, group, map[]);
    var p1 := RunAll(AWAKE, a);
    FirstHalf(p1, symbol, group, map[], false);
    var p2 := RunAll(p1, b);
    var p3 := Next(p2, change);
    assert RunAll(p2, [change]) == p3 && SaneRun(p2, [change]) by { assert [change][1..] == []; }
    MarkedUp(symbol, group);
    SecondHalf(p3, symbol, group, markups, Look(false, map[], p1.epoch));
    var p4 := RunAll(p3, [GO, GO, GO]);
    SecondPass(p4, symbol, group, markups);
    RunSplits(p1, b, [change]);
    RunSplits(p1, b + [change], [GO, GO, GO]);
    assert OnePass(symbol, group, false, [change]) == b + [change] + [GO, GO, GO];
    RunSplits(AWAKE, a, OnePass(symbol, group, false, [change]));
    RunSplits(AWAKE, a + OnePass(symbol, group, false, [change]), SkippingPass(symbol, group));
  }

  /** So does a markup whose lookup failed once, with nothing interleaved at all. */
  lemma FailedLookupLosesMarkup(symbol: string, group: string)
    requires Plain(group)
    ensures SaneRun(AWAKE, FailedLookup(symbol, group)) && MarkupLost(RunAll(AWAKE, FailedLookup(symbol, group)), symbol, group)
  {
    var markups := OneAndTwo(symbol, group);
    var a, b := SetUp(symbol, group, markups), [Begin([symbol], [group]), GO, GO, Continue(true)];
    AfterSetUp(symbol, group, markups);
    var p1 := RunAll(AWAKE, a);
    FirstHalf(p1, symbol, group, markups, true);
    var p2 := RunAll(p1, b);
    MarkedUp(symbol, group);
    SecondHalf(p2, symbol, group, markups, Look(true, markups, p1.epoch));
    var p3 := RunAll(p2, [GO, GO, GO]);
    SecondPass(p3, symbol, group, markups);
    RunSplits(p1, b, [GO, GO, GO]);
    assert OnePass(symbol, group, true, []) == b + [GO, GO, GO];
    RunSplits(AWAKE, a, OnePass(symbol, group, true, []));
    RunSplits(AWAKE, a + OnePass(symbol, group, true, []), SkippingPass(symbol, group));
  }
}
