/** What reaches the readers of the price loop. Rooms are fed in memory, but the price message and each
    tick may fail to go out, and the loop records the price all the same. */
module PublishDelivery {
  import opened Contracts
  import opened GroupFingerprint
  import opened PublishLoop
  import opened PublishSteps

  /** What fails to go out when the loop publishes a symbol: the price message, and the ticks of some
      groups. */
  datatype Loss = Loss(message: bool, ticks: set<Option<string>>)

  /** The loop and what came through; `unsaid` and `unticked` are the channels whose latest message was
      lost. */
  datatype Line = Line(p: Provider, got: Sent, unsaid: set<string>, unticked: set<(string, Option<string>)>)

  datatype Stride = Stride(move: Move, loss: Loss)

  predicate Publishes(p: Provider, m: Move) {
    m.Continue? && p.task.Looking? && p.task.todo == []
  }

  function Posted(l: Line, loss: Loss): Line
    requires l.p.task.Looking?
  {
    var t := l.p.task;
    var ticks := TicksOf(t.looks, t.symbol, t.raw);
    var missed := set key | key in ticks && key.1 in loss.ticks;
    l.(got := Sent(l.got.rooms, l.got.ticks + (ticks - missed),
                   if loss.message then l.got.prices else l.got.prices[t.symbol := MessageOf(t.looks, t.symbol, t.raw)]),
       unsaid := if loss.message then l.unsaid + {t.symbol} else l.unsaid - {t.symbol},
       unticked := (l.unticked - ticks.Keys) + missed)
  }

  function Onward(l: Line, s: Stride): Line {
    var l', p' := if Publishes(l.p, s.move) then Posted(l, s.loss) else l, Next(l.p, s.move);
    l'.(p := p', got := l'.got.(rooms := p'.s.sent.rooms))
  }

  function Walk(l: Line, strides: seq<Stride>): Line
    decreases |strides|
  {
    if strides == [] then l else Walk(Onward(l, strides[0]), strides[1..])
  }

  function MovesOf(strides: seq<Stride>): (moves: seq<Move>)
    ensures |moves| == |strides|
  {
    if strides == [] then [] else [strides[0].move] + MovesOf(strides[1..])
  }

  const NEW_LINE := Line(AWAKE, START.sent, {}, {})

  /** The loop does not notice what is lost. */
  lemma {:induction false} WalkRuns(l: Line, strides: seq<Stride>)
    ensures Walk(l, strides).p == RunAll(l.p, MovesOf(strides))
    decreases |strides|
  {
    if strides != [] {
      WalkRuns(Onward(l, strides[0]), strides[1..]);
      assert MovesOf(strides)[0] == strides[0].move && MovesOf(strides)[1..] == MovesOf(strides[1..]);
    }
  }

  // ---------------------------------------------------------------- what came through

  /** Apart from the channels whose latest message was lost, what came through is what was sent. */
  ghost predicate Received(l: Line) {
    && l.got.rooms == l.p.s.sent.rooms
    && (forall key :: key in l.p.s.sent.ticks && key !in l.unticked ==> key in l.got.ticks && l.got.ticks[key] == l.p.s.sent.ticks[key])
    && (forall symbol :: symbol in l.p.s.sent.prices && symbol !in l.unsaid ==>
          symbol in l.got.prices && l.got.prices[symbol] == l.p.s.sent.prices[symbol])
  }

  /** Only publishing sends ticks and price messages. */
  lemma OtherMovesSendNone(p: Provider, m: Move)
    requires !Publishes(p, m)
    ensures Next(p, m).s.sent.ticks == p.s.sent.ticks && Next(p, m).s.sent.prices == p.s.sent.prices
  {
  }

  lemma PublishingSends(p: Provider, m: Move)
    requires Publishes(p, m)
    ensures
      var t, sent' := p.task, Next(p, m).s.sent;
      && sent'.ticks == p.s.sent.ticks + TicksOf(t.looks, t.symbol, t.raw)
      && sent'.prices == p.s.sent.prices[t.symbol := MessageOf(t.looks, t.symbol, t.raw)]
  {
  }

  lemma OnwardReceived(l: Line, s: Stride)
    requires Received(l)
    ensures Received(Onward(l, s))
  {
    if Publishes(l.p, s.move) {
      PublishingSends(l.p, s.move);
    } else {
      OtherMovesSendNone(l.p, s.move);
    }
  }

  lemma {:induction false} WalkReceived(l: Line, strides: seq<Stride>)
    requires Received(l)
    ensures Received(Walk(l, strides))
    decreases |strides|
  {
    if strides != [] {
      OnwardReceived(l, strides[0]);
      WalkReceived(Onward(l, strides[0]), strides[1..]);
    }
  }

  /** The channel's latest message was lost, and what came through before it said something else. */
  predicate TickMissed(l: Line, key: (string, Option<string>)) {
    key in l.unticked && key in l.p.s.sent.ticks && (key in l.got.ticks ==> l.got.ticks[key] != l.p.s.sent.ticks[key])
  }

  predicate MessageMissed(l: Line, symbol: string) {
    symbol in l.unsaid && symbol in l.p.s.sent.prices
    && (symbol in l.got.prices ==> l.got.prices[symbol] != l.p.s.sent.prices[symbol])
  }

  /** The tick channels of a symbol: one per group, or one for the symbol as such. */
  function TickKeys(symbol: string, groups: set<string>): set<(string, Option<string>)> {
    if groups == {} then {(symbol, None)} else GroupKeys(symbol, groups)
  }

  /** In every reachable state, what the readers have of a price on record is current for every group
      exactly when every lookup behind it was harmless and none of its latest messages was lost, short of
      a lost one that only repeated what had come through before. */
  lemma DeliveredCurrentIff(strides: seq<Stride>, symbol: string)
    requires SaneRun(AWAKE, MovesOf(strides))
    requires
      var p := Walk(NEW_LINE, strides).p;
      symbol in p.s.memory.published && !InHand(p.task, symbol)
    ensures
      var l := Walk(NEW_LINE, strides);
      var p := l.p;
      var raw := p.s.memory.published[symbol];
      && symbol in p.taken
      && (Current(l.got, HeardWorld(p.s), symbol, raw)
          <==> && (forall g :: g in p.taken[symbol] ==> Harmless(p, p.taken[symbol][g], symbol, g, raw))
               && !MessageMissed(l, symbol)
               && forall key :: key in TickKeys(symbol, Heard(p.s)) ==> !TickMissed(l, key))
  {
    var l := Walk(NEW_LINE, strides);
    var raw := l.p.s.memory.published[symbol];
    WalkRuns(NEW_LINE, strides);
    WalkReceived(NEW_LINE, strides);
    RecordedCurrentIff(MovesOf(strides), symbol);
    var looks := RecordShows(MovesOf(strides), symbol);
    CurrentThrough(l, HeardWorld(l.p.s), symbol, raw, looks);
  }

  lemma RecordShows(moves: seq<Move>, symbol: string) returns (looks: Looks)
    requires SaneRun(AWAKE, moves)
    requires
      var p := RunAll(AWAKE, moves);
      symbol in p.s.memory.published && !InHand(p.task, symbol)
    ensures
      var p := RunAll(AWAKE, moves);
      looks.Keys == Heard(p.s) && Shows(p.s.sent, symbol, p.s.memory.published[symbol], looks)
  {
    AwakeConsistent();
    RunConsistent(AWAKE, moves);
    var p := RunAll(AWAKE, moves);
    assert RecordOk(p, symbol);
    looks := p.taken[symbol];
  }

  /** Current downstream means current as sent and nothing missed: the rooms, which lose nothing, tell
      whether the lookups were right. */
  lemma CurrentThrough(l: Line, w: World, symbol: string, raw: Quote, looks: Looks)
    requires Received(l) && Shows(l.p.s.sent, symbol, raw, looks) && looks.Keys == w.groups
    ensures Current(l.got, w, symbol, raw)
            <==> Current(l.p.s.sent, w, symbol, raw) && !MessageMissed(l, symbol)
                 && forall key :: key in TickKeys(symbol, w.groups) ==> !TickMissed(l, key)
  {
    ShowsCurrentIff(l.p.s.sent, w, symbol, raw, looks);
    if Current(l.p.s.sent, w, symbol, raw) {
      GotOrMissed(l, w, symbol, raw);
    }
  }

  lemma GotOrMissed(l: Line, w: World, symbol: string, raw: Quote)
    requires Received(l) && Current(l.p.s.sent, w, symbol, raw)
    ensures Current(l.got, w, symbol, raw)
            <==> !MessageMissed(l, symbol) && forall key :: key in TickKeys(symbol, w.groups) ==> !TickMissed(l, key)
  {
    var got, sent := l.got, l.p.s.sent;
    forall key | key in TickKeys(symbol, w.groups)
      ensures key in sent.ticks && (!TickMissed(l, key) <==> key in got.ticks && got.ticks[key] == sent.ticks[key])
    {
    }
    if w.groups != {} {
      forall g | g in w.groups ensures (symbol, Some(g)) in TickKeys(symbol, w.groups) {
      }
    }
  }

  // ---------------------------------------------------------------- a price message that is never sent again

  /** The loop's run with every price message lost. */
  function Mute(moves: seq<Move>): seq<Stride> {
    if moves == [] then [] else [Stride(moves[0], Loss(true, {}))] + Mute(moves[1..])
  }

  lemma {:induction false} MuteMoves(moves: seq<Move>)
    ensures MovesOf(Mute(moves)) == moves
    decreases |moves|
  {
    if moves != [] {
      MuteMoves(moves[1..]);
      assert Mute(moves)[1..] == Mute(moves[1..]);
      assert moves == [moves[0]] + moves[1..];
    }
  }

  lemma {:induction false} MuteSaysNothing(l: Line, moves: seq<Move>, symbol: string)
    requires symbol !in l.got.prices
    ensures symbol !in Walk(l, Mute(moves)).got.prices
    decreases |moves|
  {
    if moves != [] {
      assert Mute(moves)[0] == Stride(moves[0], Loss(true, {})) && Mute(moves)[1..] == Mute(moves[1..]);
      MuteSaysNothing(Onward(l, Mute(moves)[0]), moves[1..], symbol);
    }
  }

  /** The only price message of the first pass is lost; the second pass finds the price on record and
      stays silent. */
  function FirstMessageLost(symbol: string, group: string): seq<Move> {
    SetUp(symbol, group, map[]) + OnePass(symbol, group, false, []) + SkippingPass(symbol, group)
  }

  lemma LostMessageNotRepeated(symbol: string, group: string)
    requires Plain(group)
    ensures
      var moves := FirstMessageLost(symbol, group);
      var l := Walk(NEW_LINE, Mute(moves));
      && SaneRun(AWAKE, moves) && MovesOf(Mute(moves)) == moves && l.p.task.Idle?
      && symbol in l.p.s.memory.published && l.p.s.memory.published[symbol] == HUNDRED
      && symbol in l.p.s.w.feed && l.p.s.w.feed[symbol] == HUNDRED
      && symbol !in l.got.prices
  {
    var moves := FirstMessageLost(symbol, group);
    MuteMoves(moves);
    WalkRuns(NEW_LINE, Mute(moves));
    MuteSaysNothing(NEW_LINE, moves, symbol);
    var a, b := SetUp(symbol, group, map[]), [Begin([symbol], [group]), GO, GO, GO];
    AfterSetUp(symbol, group, map[]);
    var p1 := RunAll(AWAKE, a);
    FirstHalf(p1, symbol, group, map[], false);
    var p2 := RunAll(p1, b);
    SecondHalf(p2, symbol, group, map[], Look(false, map[], p1.epoch));
    var p3 := RunAll(p2, [GO, GO, GO]);
    SecondPass(p3, symbol, group, map[]);
    RunSplits(p1, b, [GO, GO, GO]);
    assert OnePass(symbol, group, false, []) == b + [GO, GO, GO];
    RunSplits(AWAKE, a, OnePass(symbol, group, false, []));
    RunSplits(AWAKE, a + OnePass(symbol, group, false, []), SkippingPass(symbol, group));
  }
}
