/** The web client's price stream: which symbols it has asked for, across sockets, logins and failures. */
module PriceStream {
  import opened Contracts
  import opened SymbolKeys

  datatype Phase = Connecting | Open | Closing

  /** `gateway` says which of the two endpoints the socket was opened to. */
  datatype Socket = Socket(phase: Phase, gateway: bool)

  /** `dataProvider` says whether a separate endpoint is configured for users who are not logged in.
      `sent` and `wanted` record what was subscribed on the present socket and what the callers want. */
  datatype Client = Client(
    dataProvider: bool,
    ws: Option<Socket>,
    loggedIn: bool,
    authenticated: bool,
    pending: set<string>,
    subscribed: set<string>,
    paused: bool,
    sent: set<string>,
    wanted: set<string>)

  /** `refused` says that opening a socket throws. Socket events are those of the present socket. */
  datatype Event =
    | Subscribe(symbols: seq<string>, refused: bool)
    | Unsubscribe(symbols: seq<string>)
    | Disconnect
    | SetToken(present: bool, refused: bool)
    | TimerFires(refused: bool)
    | Opened
    | AuthSucceeded
    | AuthFailed
    | TokenReady(ok: bool)      // the fresh token asked for at open or login has come
    | TokenRetried(ok: bool)    // the one asked for after an auth error has come
    | Closed

  predicate Gateway(c: Client) {
    c.loggedIn || !c.dataProvider
  }

  predicate IsOpen(c: Client) {
    c.ws.Some? && c.ws.value.phase.Open?
  }

  /** Ticks are allowed: the socket is open and, at the gateway, logged in. */
  predicate Ready(c: Client) {
    IsOpen(c) && (Gateway(c) ==> c.authenticated)
  }

  function SendSubscribe(c: Client, keys: set<string>): Client {
    if Ready(c) then c.(sent := c.sent + keys, subscribed := c.subscribed + keys)
    else c.(pending := c.pending + keys)
  }

  function Connect(c: Client, refused: bool): Client {
    if c.paused then c
    else if c.ws.Some? && !c.ws.value.phase.Closing? then c
    else if refused then c.(ws := None)
    else c.(ws := Some(Socket(Connecting, Gateway(c))), sent := {})
  }

  function Keys(symbols: seq<string>): set<string> {
    KeysOf(ToSet(symbols))
  }

  function KeysGiven(symbols: seq<string>): set<string> {
    set raw | raw in symbols :: NormalizeSymbolKey(raw)
  }

  function CloseSocket(c: Client): Client {
    if c.ws.Some? then c.(ws := Some(c.ws.value.(phase := Closing))) else c
  }

  function Subscribed(c: Client, keys: set<string>, refused: bool): Client {
    if keys == {} then c else SendSubscribe(Connect(c.(wanted := c.wanted + keys), refused), keys)
  }

  function TokenSet(c: Client, refused: bool): Client {
    var c' := c.(loggedIn := true, paused := false);
    if c'.ws.None? then Connect(c', refused)
    else if c'.ws.value.phase.Open? && c'.ws.value.gateway != Gateway(c')
    then CloseSocket(c'.(pending := c'.pending + c'.subscribed))
    else c'
  }

  function SocketOpened(c: Client): Client
    requires c.ws.Some?
  {
    var c' := c.(ws := Some(c.ws.value.(phase := Open)), authenticated := !c.ws.value.gateway);
    if c.ws.value.gateway then c' else SendSubscribe(c'.(pending := {}), KeysOf(c.subscribed + c.pending))
  }

  function Next(c: Client, e: Event): Client {
    match e
    case Subscribe(symbols, refused) => Subscribed(c, Keys(symbols), refused)
    case Unsubscribe(symbols) => c.(subscribed := c.subscribed - KeysGiven(symbols), wanted := c.wanted - KeysGiven(symbols))
    case Disconnect => c.(ws := None, authenticated := false, pending := {}, subscribed := {}, paused := false, wanted := {})
    case SetToken(present, refused) =>
      if present then TokenSet(c, refused) else c.(loggedIn := false, authenticated := false, paused := false)
    case TimerFires(refused) => Connect(c, refused)
    case Opened => if c.ws.Some? && c.ws.value.phase.Connecting? then SocketOpened(c) else c
    case AuthSucceeded =>
      if c.ws.None? || c.ws.value.phase.Connecting? then c
      else SendSubscribe(c.(authenticated := true, pending := {}), KeysOf(c.pending))
    case AuthFailed => if c.ws.None? || c.ws.value.phase.Connecting? then c else c.(authenticated := false)
    case TokenReady(ok) => if ok then c.(loggedIn := true) else c
    case TokenRetried(ok) =>
      if ok && IsOpen(c) && Gateway(c) then c.(loggedIn := true)
      else if !ok && Gateway(c) then CloseSocket(c.(paused := true))
      else c
    case Closed =>
      if c.ws.None? then c else c.(ws := None, authenticated := false, pending := c.pending + c.subscribed)
  }

  // ---------------------------------------------------------------- the program

  class PriceStreamClient {
    const dataProvider: bool
    var ws: Option<Socket>
    var loggedIn: bool
    var authenticated: bool
    var pendingSymbols: set<string>
    var subscribedSymbols: set<string>
    var authPaused: bool
    ghost var sent: set<string>
    ghost var wanted: set<string>

    ghost function View(): Client
      reads this
    {
      Client(dataProvider, ws, loggedIn, authenticated, pendingSymbols, subscribedSymbols, authPaused, sent, wanted)
    }

    constructor (dataProvider: bool)
      ensures View() == Start(dataProvider)
    {
      this.dataProvider := dataProvider;
      ws, loggedIn, authenticated, pendingSymbols, subscribedSymbols, authPaused := None, false, false, {}, {}, false;
      sent, wanted := {}, {};
    }

    predicate AtGateway()
      reads this
      ensures AtGateway() == Gateway(View())
    {
      loggedIn || !dataProvider
    }

    method OpenSocket(refused: bool)
      modifies this
      ensures View() == Connect(old(View()), refused)
    {
      if authPaused { return; }
      if ws.Some? && ws.value.phase.Open? { return; }
      if ws.Some? && ws.value.phase.Connecting? { return; }
      if refused {
        ws := None;
        return;
      }
      ws := Some(Socket(Connecting, AtGateway()));
      sent := {};
    }

    method Send(symbols: seq<string>)
      modifies this
      ensures View() == SendSubscribe(old(View()), ToSet(symbols))
    {
      if ws.Some? && ws.value.phase.Open? && (if AtGateway() then authenticated else true) {
        sent := sent + ToSet(symbols);
        subscribedSymbols := subscribedSymbols + ToSet(symbols);
      } else {
        pendingSymbols := pendingSymbols + ToSet(symbols);
      }
    }

    /** Serves both the subscribe and the resync call. */
    method SubscribeTo(symbols: seq<string>, refused: bool)
      modifies this
      ensures View() == Next(old(View()), Subscribe(symbols, refused))
    {
      var normalized := NormalizeWsSubscribeSymbols(symbols);
      WsSymbolsExact(symbols);
      if |normalized| == 0 {
        assert Keys(symbols) == {};
        return;
      }
      assert normalized[0] in Keys(symbols);
      wanted := wanted + Keys(symbols);
      OpenSocket(refused);
      Send(normalized);
    }

    method UnsubscribeFrom(symbols: seq<string>)
      modifies this
      ensures View() == Next(old(View()), Unsubscribe(symbols))
    {
      for i := 0 to |symbols|
        invariant View() == old(View()).(subscribed := old(subscribedSymbols) - KeysGiven(symbols[..i]))
      {
        assert symbols[..i + 1] == symbols[..i] + [symbols[i]];
        subscribedSymbols := subscribedSymbols - {NormalizeSymbolKey(symbols[i])};
      }
      assert symbols[..|symbols|] == symbols;
      wanted := wanted - KeysGiven(symbols);
    }

    method Leave()
      modifies this
      ensures View() == Next(old(View()), Disconnect)
    {
      ws, authenticated, pendingSymbols, subscribedSymbols, authPaused := None, false, {}, {}, false;
      wanted := {};
    }

    method SetAuthToken(present: bool, refused: bool)
      modifies this
      ensures View() == Next(old(View()), SetToken(present, refused))
    {
      loggedIn := present;
      if !present {
        authenticated, authPaused := false, false;
        return;
      }
      authPaused := false;
      if ws.Some? && ws.value.phase.Open? {
        if ws.value.gateway != AtGateway() {
          pendingSymbols := pendingSymbols + subscribedSymbols;
          ws := Some(ws.value.(phase := Closing));
        }
      } else if ws.None? {
        OpenSocket(refused);
      }
    }

    /** Any listing of the set. */
    static method Spread(s: set<string>) returns (listing: seq<string>)
      ensures ToSet(listing) == s
    {
      listing := [];
      var rest := s;
      while rest != {}
        invariant rest <= s && ToSet(listing) == s - rest
        decreases |rest|
      {
        var x :| x in rest;
        assert ToSet(listing + [x]) == ToSet(listing) + {x};
        listing := listing + [x];
        rest := rest - {x};
      }
    }

    method OnOpen()
      requires ws.Some? && ws.value.phase.Connecting?
      modifies this
      ensures View() == Next(old(View()), Opened)
    {
      ws := Some(ws.value.(phase := Open));
      authenticated := !ws.value.gateway;
      if !ws.value.gateway {
        var listing := Spread(subscribedSymbols + pendingSymbols);
        var all := NormalizeWsSubscribeSymbols(listing);
        WsSymbolsExact(listing);
        pendingSymbols := {};
        Flush(all);
      }
    }

    method Flush(batch: seq<string>)
      modifies this
      ensures View() == SendSubscribe(old(View()), ToSet(batch))
    {
      if |batch| > 0 { Send(batch); } else { assert ToSet(batch) == {}; }
    }

    method OnAuthSuccess()
      requires ws.Some? && !ws.value.phase.Connecting?
      modifies this
      ensures View() == Next(old(View()), AuthSucceeded)
    {
      authenticated := true;
      var listing := Spread(pendingSymbols);
      var batch := NormalizeWsSubscribeSymbols(listing);
      WsSymbolsExact(listing);
      pendingSymbols := {};
      Flush(batch);
    }

    method OnAuthError()
      requires ws.Some? && !ws.value.phase.Connecting?
      modifies this
      ensures View() == Next(old(View()), AuthFailed)
    {
      authenticated := false;
    }

    method OnTokenRetried(ok: bool)
      modifies this
      ensures View() == Next(old(View()), TokenRetried(ok))
    {
      if ok && ws.Some? && ws.value.phase.Open? && AtGateway() {
        loggedIn := true;
        return;
      }
      if !ok && AtGateway() {
        authPaused := true;
        if ws.Some? { ws := Some(ws.value.(phase := Closing)); }
      }
    }

    method OnClose()
      requires ws.Some?
      modifies this
      ensures View() == Next(old(View()), Closed)
    {
      ws := None;
      authenticated := false;
      pendingSymbols := pendingSymbols + subscribedSymbols;
    }
  }

  // ---------------------------------------------------------------- subscriptions survive

  function Start(dataProvider: bool): Client {
    Client(dataProvider, None, false, false, {}, {}, false, {}, {})
  }

  predicate StableKey(k: string) {
    k != "" && NormalizeSymbolKey(k) == k
  }

  predicate TidyEvent(e: Event) {
    e.Subscribe? ==> forall i :: 0 <= i < |e.symbols| ==> Tidy(e.symbols[i])
  }

  /** Nothing wanted is forgotten. */
  ghost predicate Kept(c: Client) {
    && c.wanted <= c.pending + c.subscribed
    && forall k :: k in c.wanted ==> StableKey(k)
  }

  lemma TidyKeysStable(symbols: seq<string>)
    requires forall i :: 0 <= i < |symbols| ==> Tidy(symbols[i])
    ensures forall k :: k in Keys(symbols) ==> StableKey(k)
  {
    forall k | k in Keys(symbols) ensures StableKey(k) {
      var raw :| raw in symbols && Keyed(raw) && NormalizeSymbolKey(raw) == k;
      KeyIdempotentIff(raw);
    }
  }

  lemma KeptKeys(c: Client, keys: set<string>)
    requires Kept(c)
    ensures forall k :: k in c.wanted && k in keys ==> k in KeysOf(keys)
  {
    forall k | k in c.wanted && k in keys ensures k in KeysOf(keys) { TidyKeysStay(keys, k); }
  }

  lemma SubscribeKeeps(c: Client, keys: set<string>, refused: bool)
    requires Kept(c) && forall k :: k in keys ==> StableKey(k)
    ensures Kept(Subscribed(c, keys, refused))
  {
  }

  lemma FlushKeeps(c: Client, keys: set<string>)
    requires c.wanted <= c.pending + c.subscribed + keys && forall k :: k in c.wanted ==> StableKey(k)
    ensures Kept(SendSubscribe(c, keys))
  {
  }

  lemma StepKeeps(c: Client, e: Event)
    requires Kept(c) && TidyEvent(e)
    ensures Kept(Next(c, e))
  {
    match e
    case Subscribe(symbols, refused) =>
      TidyKeysStable(symbols);
      SubscribeKeeps(c, Keys(symbols), refused);
    case Opened =>
      if c.ws.Some? && c.ws.value.phase.Connecting? && !c.ws.value.gateway {
        KeptKeys(c, c.subscribed + c.pending);
        FlushKeeps(c.(ws := Some(c.ws.value.(phase := Open)), authenticated := true, pending := {}), KeysOf(c.subscribed + c.pending));
      }
    case AuthSucceeded =>
      KeptKeys(c, c.pending);
      FlushKeeps(c.(authenticated := true, pending := {}), KeysOf(c.pending));
    case _ =>
  }

  function Run(c: Client, events: seq<Event>): Client
    decreases |events|
  {
    if events == [] then c else Run(Next(c, events[0]), events[1..])
  }

  /** Through any sequence of events, whatever the endpoint does, every symbol subscribed and not since
      unsubscribed or dropped by a disconnect is pending or subscribed. */
  lemma {:induction false} SubscriptionsSurvive(c: Client, events: seq<Event>)
    requires Kept(c) && forall i :: 0 <= i < |events| ==> TidyEvent(events[i])
    ensures Kept(Run(c, events))
    decreases |events|
  {
    if events != [] {
      StepKeeps(c, events[0]);
      SubscriptionsSurvive(Next(c, events[0]), events[1..]);
    }
  }

  // ---------------------------------------------------------------- and are sent

  /** A new socket is opened while the old one is still closing. */
  predicate Overlaps(c: Client, e: Event) {
    && c.ws.Some? && c.ws.value.phase.Closing? && !c.paused
    && ((e.Subscribe? && Keys(e.symbols) != {}) || e.TimerFires?)
  }

  /** The event neither overlaps sockets nor changes the endpoint. */
  predicate Orderly(c: Client, e: Event) {
    !Overlaps(c, e) && Gateway(Next(c, e)) == Gateway(c)
  }

  predicate OrderlyRun(c: Client, events: seq<Event>)
    decreases |events|
  {
    events != [] ==> Orderly(c, events[0]) && OrderlyRun(Next(c, events[0]), events[1..])
  }

  ghost predicate Tracked(c: Client) {
    && Kept(c)
    && (c.ws.None? ==> c.wanted <= c.pending)
    && (c.ws.Some? ==> c.wanted <= c.pending + c.sent && c.ws.value.gateway == Gateway(c))
    && (c.ws.Some? && c.ws.value.phase.Connecting? ==> c.wanted <= c.pending)
    && (Ready(c) ==> c.pending == {})
  }

  lemma SubscribeTracked(c: Client, symbols: seq<string>, refused: bool)
    requires Tracked(c) && Orderly(c, Subscribe(symbols, refused)) && TidyEvent(Subscribe(symbols, refused))
    ensures Tracked(Next(c, Subscribe(symbols, refused)))
  {
    TidyKeysStable(symbols);
    if Keys(symbols) != {} { ConnectTracked(c.(wanted := c.wanted + Keys(symbols)), Keys(symbols), refused); }
  }

  /** Everything wanted but `keys`, which are about to be asked for, is where it should be. */
  ghost predicate TrackedBut(c: Client, keys: set<string>) {
    && c.wanted <= c.pending + c.subscribed + keys
    && (forall k :: k in c.wanted ==> StableKey(k))
    && (c.ws.None? ==> c.wanted <= c.pending + keys)
    && (c.ws.Some? ==> c.wanted <= c.pending + c.sent + keys && c.ws.value.gateway == Gateway(c))
    && (c.ws.Some? && c.ws.value.phase.Connecting? ==> c.wanted <= c.pending + keys)
    && (Ready(c) ==> c.pending == {})
  }

  lemma ConnectTracked(c: Client, keys: set<string>, refused: bool)
    requires TrackedBut(c, keys) && (c.ws.Some? && c.ws.value.phase.Closing? ==> c.paused)
    ensures TrackedBut(Connect(c, refused), keys)
  {
  }

  lemma StepTracked(c: Client, e: Event)
    requires Tracked(c) && Orderly(c, e) && TidyEvent(e)
    ensures Tracked(Next(c, e))
  {
    StepKeeps(c, e);
    match e
    case Subscribe(symbols, refused) => SubscribeTracked(c, symbols, refused);
    case Opened => KeptKeys(c, c.subscribed + c.pending);
    case AuthSucceeded => KeptKeys(c, c.pending);
    case _ =>
  }

  /** With one socket at a time and a fixed endpoint, whenever the client is ready every wanted symbol
      has been sent on the present socket. */
  lemma {:induction false} ReadyMeansSent(c: Client, events: seq<Event>)
    requires Tracked(c) && OrderlyRun(c, events) && forall i :: 0 <= i < |events| ==> TidyEvent(events[i])
    ensures
      var c' := Run(c, events);
      Tracked(c') && (Ready(c') ==> c'.wanted <= c'.sent)
    decreases |events|
  {
    if events != [] {
      StepTracked(c, events[0]);
      ReadyMeansSent(Next(c, events[0]), events[1..]);
    }
  }

  lemma StartTracked(dataProvider: bool)
    ensures Tracked(Start(dataProvider))
  {
  }

  /** So it is from the start. */
  lemma ReadyMeansSentFromStart(dataProvider: bool, events: seq<Event>)
    requires OrderlyRun(Start(dataProvider), events) && forall i :: 0 <= i < |events| ==> TidyEvent(events[i])
    ensures
      var c := Run(Start(dataProvider), events);
      Ready(c) ==> c.wanted <= c.sent
  {
    StartTracked(dataProvider);
    ReadyMeansSent(Start(dataProvider), events);
  }

  // ---------------------------------------------------------------- exactly what overlapping sockets lose

  /** All keys the client holds are stable, its queue is empty when it is ready, and nothing wanted is
      forgotten but perhaps `keys`, which are about to be sent or queued. */
  ghost predicate SteadyBut(c: Client, keys: set<string>) {
    && c.wanted <= c.pending + c.subscribed + keys
    && (forall k :: k in c.wanted || k in c.pending || k in c.subscribed || k in keys ==> StableKey(k))
    && (c.ws.Some? ==> c.ws.value.gateway == Gateway(c))
    && (c.ws.Some? && c.ws.value.phase.Connecting? ==> c.sent == {})
    && (Ready(c) ==> c.pending == {})
  }

  ghost predicate Steady(c: Client) {
    SteadyBut(c, {})
  }

  /** Wanted, but neither queued nor sent on the present socket. */
  function Missing(c: Client): set<string> {
    c.wanted - c.pending - (if c.ws.Some? then c.sent else {})
  }

  function Asked(e: Event): set<string> {
    if e.Subscribe? then Keys(e.symbols) else {}
  }

  /** What goes missing is what is wanted and outside the queue when a new socket is opened over one that
      is still closing. It is found again when it is asked for again, when the socket closes, and when a
      raw-feed socket opens; and it is forgotten when it is given up. */
  function NextMissing(missing: set<string>, c: Client, e: Event): set<string> {
    if Overlaps(c, e) then c.wanted - c.pending - Asked(e)
    else
      match e
      case Subscribe(symbols, _) => missing - Keys(symbols)
      case Unsubscribe(symbols) => missing - KeysGiven(symbols)
      case Disconnect => {}
      case Opened => if c.ws.Some? && c.ws.value.phase.Connecting? && !c.ws.value.gateway then {} else missing
      case Closed => if c.ws.Some? then {} else missing
      case _ => missing
  }

  lemma StableKeysFixed(keys: set<string>)
    requires forall k :: k in keys ==> StableKey(k)
    ensures KeysOf(keys) == keys
  {
    forall k | k in keys ensures k in KeysOf(keys) { TidyKeysStay(keys, k); }
  }

  lemma ConnectSteady(c: Client, keys: set<string>, refused: bool)
    requires SteadyBut(c, keys)
    ensures
      var c' := Connect(c, refused);
      && SteadyBut(c', keys)
      && Missing(c') == if c.ws.Some? && c.ws.value.phase.Closing? && !c.paused then c.wanted - c.pending else Missing(c)
  {
  }

  lemma SendSteady(c: Client, keys: set<string>)
    requires SteadyBut(c, keys)
    ensures Steady(SendSubscribe(c, keys)) && Missing(SendSubscribe(c, keys)) == Missing(c) - keys
  {
  }

  lemma SubscribeSteady(c: Client, keys: set<string>, refused: bool)
    requires Steady(c) && keys != {} && forall k :: k in keys ==> StableKey(k)
    ensures
      var c' := Subscribed(c, keys, refused);
      && Steady(c')
      && Missing(c') == if c.ws.Some? && c.ws.value.phase.Closing? && !c.paused then c.wanted - c.pending - keys else Missing(c) - keys
  {
    var c1 := c.(wanted := c.wanted + keys);
    WantedSteady(c, keys);
    ConnectSteady(c1, keys, refused);
    SendSteady(Connect(c1, refused), keys);
  }

  lemma WantedSteady(c: Client, keys: set<string>)
    requires Steady(c) && forall k :: k in keys ==> StableKey(k)
    ensures
      var c' := c.(wanted := c.wanted + keys);
      SteadyBut(c', keys) && Missing(c') - keys == Missing(c) - keys && c'.wanted - c'.pending - keys == c.wanted - c.pending - keys
  {
  }

  lemma OpenedSteady(c: Client)
    requires Steady(c) && c.ws.Some? && c.ws.value.phase.Connecting?
    ensures
      var c' := SocketOpened(c);
      Steady(c') && Missing(c') == if c.ws.value.gateway then Missing(c) else {}
  {
    StableKeysFixed(c.subscribed + c.pending);
    if !c.ws.value.gateway {
      SendSteady(c.(ws := Some(c.ws.value.(phase := Open)), authenticated := true, pending := {}), c.subscribed + c.pending);
    }
  }

  lemma AuthSucceededSteady(c: Client)
    requires Steady(c) && c.ws.Some? && !c.ws.value.phase.Connecting?
    ensures
      var c' := SendSubscribe(c.(authenticated := true, pending := {}), KeysOf(c.pending));
      Steady(c') && Missing(c') == Missing(c)
  {
    StableKeysFixed(c.pending);
    QueueTaken(c);
    SendSteady(c.(authenticated := true, pending := {}), c.pending);
  }

  lemma QueueTaken(c: Client)
    requires Steady(c) && c.ws.Some? && !c.ws.value.phase.Connecting?
    ensures
      var c' := c.(authenticated := true, pending := {});
      SteadyBut(c', c.pending) && Missing(c') - c.pending == Missing(c)
  {
  }

  predicate FixedEndpoint(c: Client, e: Event) {
    Gateway(Next(c, e)) == Gateway(c)
  }

  lemma OtherSteady(c: Client, e: Event)
    requires Steady(c) && FixedEndpoint(c, e)
    requires !e.Subscribe? && !e.TimerFires? && !e.Opened? && !e.AuthSucceeded?
    ensures Steady(Next(c, e)) && Missing(Next(c, e)) == NextMissing(Missing(c), c, e)
  {
    if e.SetToken? && e.present && c.ws.None? { ConnectSteady(c.(loggedIn := true, paused := false), {}, e.refused); }
  }

  lemma StepMissing(c: Client, e: Event)
    requires Steady(c) && FixedEndpoint(c, e) && TidyEvent(e)
    ensures Steady(Next(c, e)) && Missing(Next(c, e)) == NextMissing(Missing(c), c, e)
  {
    match e
    case Subscribe(symbols, refused) =>
      TidyKeysStable(symbols);
      if Keys(symbols) != {} { SubscribeSteady(c, Keys(symbols), refused); }
    case TimerFires(refused) => ConnectSteady(c, {}, refused);
    case Opened => if c.ws.Some? && c.ws.value.phase.Connecting? { OpenedSteady(c); }
    case AuthSucceeded => if c.ws.Some? && !c.ws.value.phase.Connecting? { AuthSucceededSteady(c); }
    case _ => OtherSteady(c, e);
  }

  /** An overlap keeps everything wanted queued or sent exactly when all that is wanted was in the queue
      or is being asked for. */
  lemma OverlapHarmlessIff(c: Client, e: Event)
    requires Tracked(c) && Overlaps(c, e) && TidyEvent(e) && FixedEndpoint(c, e)
    ensures Tracked(Next(c, e)) <==> c.wanted <= c.pending + Asked(e)
  {
    StepKeeps(c, e);
  }

  function MissingOver(missing: set<string>, c: Client, events: seq<Event>): set<string>
    decreases |events|
  {
    if events == [] then missing else MissingOver(NextMissing(missing, c, events[0]), Next(c, events[0]), events[1..])
  }

  predicate FixedRun(c: Client, events: seq<Event>)
    decreases |events|
  {
    events != [] ==> FixedEndpoint(c, events[0]) && FixedRun(Next(c, events[0]), events[1..])
  }

  lemma {:induction false} RunMissing(c: Client, events: seq<Event>)
    requires Steady(c) && FixedRun(c, events) && forall i :: 0 <= i < |events| ==> TidyEvent(events[i])
    ensures Steady(Run(c, events)) && Missing(Run(c, events)) == MissingOver(Missing(c), c, events)
    decreases |events|
  {
    if events != [] {
      StepMissing(c, events[0]);
      RunMissing(Next(c, events[0]), events[1..]);
    }
  }

  /** With a fixed endpoint, in every run from the start, overlaps included: what a ready client wants and
      has not sent on the present socket is exactly what overlaps left outside the queue and nothing
      since has brought back. In particular it has sent everything iff that is nothing. */
  lemma ReadyHasSentIff(dataProvider: bool, events: seq<Event>)
    requires FixedRun(Start(dataProvider), events) && forall i :: 0 <= i < |events| ==> TidyEvent(events[i])
    requires Ready(Run(Start(dataProvider), events))
    ensures
      var c, lost := Run(Start(dataProvider), events), MissingOver({}, Start(dataProvider), events);
      c.wanted - c.sent == lost && (c.wanted <= c.sent <==> lost == {})
  {
    StartSteady(dataProvider);
    RunMissing(Start(dataProvider), events);
    ReadyMisses(Run(Start(dataProvider), events));
  }

  lemma StartSteady(dataProvider: bool)
    ensures Steady(Start(dataProvider)) && Missing(Start(dataProvider)) == {}
  {
  }

  lemma ReadyMisses(c: Client)
    requires Steady(c) && Ready(c)
    ensures Missing(c) == c.wanted - c.sent && (c.wanted <= c.sent <==> Missing(c) == {})
  {
  }

  // ---------------------------------------------------------------- exactly what unsubscribing leaves behind

  /** A login at the gateway flushes the queue; the opening of a raw-feed socket flushes everything the
      client holds. */
  predicate Flushes(c: Client, e: Event) {
    || (e.AuthSucceeded? && IsOpen(c))
    || (e.Opened? && c.ws.Some? && c.ws.value.phase.Connecting? && !c.ws.value.gateway)
  }

  /** The keys a flush subscribes on the wire. */
  function Payload(c: Client, e: Event): set<string> {
    if e.Opened? then KeysOf(c.subscribed + c.pending) else KeysOf(c.pending)
  }

  lemma PayloadIsSent(c: Client, e: Event)
    requires Flushes(c, e)
    ensures Next(c, e).sent == c.sent + Payload(c, e)
  {
  }

  /** After a key is unsubscribed, the next flush asks for it again exactly if it was in the queue, in
      every state of the client. */
  lemma UnsubscribedAskedAgainIff(c: Client, symbols: seq<string>, e: Event, k: string)
    requires Steady(c) && k in KeysGiven(symbols) && Flushes(Next(c, Unsubscribe(symbols)), e)
    ensures k in Payload(Next(c, Unsubscribe(symbols)), e) <==> k in c.pending
  {
    var c' := Next(c, Unsubscribe(symbols));
    StableKeysFixed(c'.pending);
    StableKeysFixed(c'.subscribed + c'.pending);
  }

  // ---------------------------------------------------------------- where it fails

  lemma OneKey(symbol: string)
    ensures Keys([symbol]) == if Keyed(symbol) then {NormalizeSymbolKey(symbol)} else {}
    ensures KeysGiven([symbol]) == {NormalizeSymbolKey(symbol)}
  {
    assert ToSet([symbol]) == {symbol};
  }

  lemma StableKeyed(k: string)
    requires StableKey(k)
    ensures Keyed(k) && Keys([k]) == {k} && KeysOf({k}) == {k}
  {
    TidyKeysStay({k}, k);
    OneKey(k);
    assert ToSet([k]) == {k};
  }

  /** A single subscription made before the gateway socket is ready is kept exactly if the symbol is
      tidy: otherwise the key is normalised a second time on its way out and what was asked for is
      neither pending nor subscribed. */
  lemma KeptIffTidy(symbol: string)
    requires Keyed(symbol)
    ensures
      var c := Next(Next(Next(Start(false), Subscribe([symbol], false)), Opened), AuthSucceeded);
      c.wanted == {NormalizeSymbolKey(symbol)} && (c.wanted <= c.pending + c.subscribed <==> Tidy(symbol))
  {
    var k := NormalizeSymbolKey(symbol);
    OneKey(symbol);
    SubscribedIs(Start(false), {k});
    var c1 := Next(Start(false), Subscribe([symbol], false));
    FirstLogin(c1, k);
    KeptIfStable(symbol);
  }

  lemma FirstLogin(c: Client, k: string)
    requires c.ws == Some(Socket(Connecting, true)) && c.pending == {k} && c.subscribed == {} && Gateway(c)
    ensures
      var c' := Next(Next(c, Opened), AuthSucceeded);
      c'.wanted == c.wanted && c'.pending == {} && c'.subscribed == KeysOf({k})
  {
    OpenedIs(c);
    var c1 := Next(c, Opened);
    assert Ready(c1.(authenticated := true));
  }

  lemma KeptIfStable(symbol: string)
    requires Keyed(symbol)
    ensures {NormalizeSymbolKey(symbol)} <= KeysOf({NormalizeSymbolKey(symbol)}) <==> Tidy(symbol)
  {
    var k := NormalizeSymbolKey(symbol);
    KeyIdempotentIff(symbol);
    if NormalizeSymbolKey(k) == k { TidyKeysStay({k}, k); }
  }

  /** With overlapping sockets a wanted symbol can stay unsent on a ready socket: the login fails for
      good, a new token arrives while the socket is still closing, and the next subscription opens a
      second socket that hears only of itself. */
  lemma OverlapForgets(a: string, b: string)
    requires StableKey(a) && StableKey(b) && a != b
    ensures
      var c := Run(Start(false), Overlapping(a, b));
      Ready(c) && a in c.wanted && a in c.subscribed && a !in c.sent
  {
    LiveIs(a);
    RetokenedIs(a);
    SecondSocket(a, b);
    RunNine(Start(false), Overlapping(a, b));
  }

  /** The login was lost for good, and a new token came while the socket was closing. */
  function Retokened(a: string): Client {
    Live(a).(ws := Some(Socket(Closing, true)), loggedIn := true, authenticated := false)
  }

  lemma RetokenedIs(a: string)
    ensures Next(Next(Next(Live(a), AuthFailed), TokenRetried(false)), SetToken(true, false)) == Retokened(a)
  {
  }

  lemma SecondSocket(a: string, b: string)
    requires StableKey(b) && a != b
    ensures
      var c := Next(Next(Next(Retokened(a), Subscribe([b], false)), Opened), AuthSucceeded);
      Ready(c) && a in c.wanted && a in c.subscribed && a !in c.sent
  {
    OneSubscription(Retokened(a), b);
    var c := Next(Retokened(a), Subscribe([b], false));
    assert c.pending == {b} && c.sent == {};
    StableKeyed(b);
    LoggedIn(c);
  }

  /** Subscribed to one symbol on a ready gateway socket. */
  function Live(a: string): Client {
    Client(false, Some(Socket(Open, true)), false, true, {}, {a}, false, {a}, {a})
  }

  lemma LiveIs(a: string)
    requires StableKey(a)
    ensures Next(Next(Next(Start(false), Subscribe([a], false)), Opened), AuthSucceeded) == Live(a)
  {
    OneSubscription(Start(false), a);
    StableKeyed(a);
    LoggedIn(Next(Start(false), Subscribe([a], false)));
  }

  lemma SubscribedIs(c: Client, keys: set<string>)
    requires keys != {} && !c.paused && (c.ws.None? || c.ws.value.phase.Closing?)
    ensures Subscribed(c, keys, false)
         == c.(ws := Some(Socket(Connecting, Gateway(c))), sent := {}, wanted := c.wanted + keys, pending := c.pending + keys)
  {
  }

  lemma OneSubscription(c: Client, a: string)
    requires StableKey(a) && !c.paused && (c.ws.None? || c.ws.value.phase.Closing?)
    ensures Next(c, Subscribe([a], false))
         == c.(ws := Some(Socket(Connecting, Gateway(c))), sent := {}, wanted := c.wanted + {a}, pending := c.pending + {a})
  {
    StableKeyed(a);
    SubscribedIs(c, {a});
  }

  lemma OpenedIs(c: Client)
    requires c.ws == Some(Socket(Connecting, true))
    ensures Next(c, Opened) == c.(ws := Some(Socket(Open, true)), authenticated := false)
  {
  }

  lemma AuthSucceededIs(c: Client, keys: set<string>)
    requires c.ws == Some(Socket(Open, true)) && keys == KeysOf(c.pending)
    ensures Next(c, AuthSucceeded)
         == c.(authenticated := true, pending := {}, sent := c.sent + keys, subscribed := c.subscribed + keys)
  {
  }

  lemma LoggedIn(c: Client)
    requires c.ws == Some(Socket(Connecting, true)) && Gateway(c) && KeysOf(c.pending) == c.pending
    ensures Next(Next(c, Opened), AuthSucceeded)
         == c.(ws := Some(Socket(Open, true)), authenticated := true, pending := {},
               sent := c.sent + c.pending, subscribed := c.subscribed + c.pending)
  {
    OpenedIs(c);
    AuthSucceededIs(Next(c, Opened), c.pending);
  }

  function Overlapping(a: string, b: string): seq<Event> {
    [Subscribe([a], false), Opened, AuthSucceeded, AuthFailed, TokenRetried(false), SetToken(true, false),
     Subscribe([b], false), Opened, AuthSucceeded]
  }

  lemma RunNine(c: Client, es: seq<Event>)
    requires |es| == 9
    ensures Run(c, es) == Next(Next(Next(Next(Next(Next(Next(Next(Next(c, es[0]), es[1]), es[2]), es[3]), es[4]), es[5]), es[6]), es[7]), es[8])
  {
    var c3 := Next(Next(Next(c, es[0]), es[1]), es[2]);
    var c6 := Next(Next(Next(c3, es[3]), es[4]), es[5]);
    RunThree(c, es);
    RunThree(c3, es[3..]);
    RunThree(c6, es[6..]);
    assert es[3..][3..] == es[6..] && es[6..][3..] == [];
  }

  lemma RunThree(c: Client, es: seq<Event>)
    requires |es| >= 3
    ensures Run(c, es) == Run(Next(Next(Next(c, es[0]), es[1]), es[2]), es[3..])
  {
    assert es[1..][1..] == es[2..] && es[2..][1..] == es[3..];
    assert Run(Next(c, es[0]), es[1..]) == Run(Next(Next(c, es[0]), es[1]), es[2..]);
  }

  /** Unsubscribing does not reach the pending list: a symbol taken back before the socket is ready is
      subscribed all the same. */
  lemma UnsubscribedReturns(a: string)
    requires StableKey(a)
    ensures
      var c := Next(Next(Next(Next(Start(false), Subscribe([a], false)), Unsubscribe([a])), Opened), AuthSucceeded);
      Ready(c) && a !in c.wanted && a in c.sent
  {
    var c1 := Next(Start(false), Subscribe([a], false));
    OneSubscription(Start(false), a);
    OneKey(a);
    var c2 := Next(c1, Unsubscribe([a]));
    assert c2 == c1.(wanted := {});
    StableKeyed(a);
    LoggedIn(c2);
  }

  // ---------------------------------------------------------------- what the client does not do

  function AskedAfter(asked: set<string>, e: Event): set<string> {
    match e
    case Subscribe(symbols, _) => asked + Keys(symbols)
    case Disconnect => {}
    case _ => asked
  }

  /** The keys asked for since the last disconnect; `asked` are those from before the run. */
  function AskedSince(asked: set<string>, events: seq<Event>): set<string>
    decreases |events|
  {
    if events == [] then asked else AskedSince(AskedAfter(asked, events[0]), events[1..])
  }

  ghost predicate Within(c: Client, asked: set<string>) {
    c.pending + c.subscribed <= asked && forall k :: k in asked ==> StableKey(k)
  }

  lemma SubscribeAsks(c: Client, symbols: seq<string>, refused: bool, asked: set<string>)
    requires Within(c, asked) && TidyEvent(Subscribe(symbols, refused))
    ensures Within(Next(c, Subscribe(symbols, refused)), asked + Keys(symbols))
  {
    TidyKeysStable(symbols);
  }

  lemma StepAsks(c: Client, e: Event, asked: set<string>)
    requires Within(c, asked) && TidyEvent(e)
    ensures Within(Next(c, e), AskedAfter(asked, e))
  {
    match e
    case Subscribe(symbols, refused) => SubscribeAsks(c, symbols, refused, asked);
    case Opened => OpenedAsks(c, asked);
    case AuthSucceeded => LoginAsks(c, asked);
    case _ =>
  }

  lemma OpenedAsks(c: Client, asked: set<string>)
    requires Within(c, asked)
    ensures Within(Next(c, Opened), asked)
  {
    if c.ws.Some? && c.ws.value.phase.Connecting? && !c.ws.value.gateway {
      var keys := c.subscribed + c.pending;
      assert forall k :: k in keys ==> StableKey(k);
      StableKeysFixed(keys);
      var c' := c.(ws := Some(Socket(Open, false)), authenticated := true, pending := {});
      FlushAdds(c', keys);
    }
  }

  lemma FlushAdds(c: Client, keys: set<string>)
    ensures SendSubscribe(c, keys).pending + SendSubscribe(c, keys).subscribed == c.pending + c.subscribed + keys
  {
  }

  lemma LoginAsks(c: Client, asked: set<string>)
    requires Within(c, asked)
    ensures Within(Next(c, AuthSucceeded), asked)
  {
    StableKeysFixed(c.pending);
  }

  /** Over every run the client keeps on its list, and queues, only what was asked for since the last
      disconnect. */
  lemma {:induction false} OnlyAskedFor(c: Client, events: seq<Event>, asked: set<string>)
    requires c.pending + c.subscribed <= asked && (forall k :: k in asked ==> StableKey(k))
    requires forall i :: 0 <= i < |events| ==> TidyEvent(events[i])
    ensures Run(c, events).pending + Run(c, events).subscribed <= AskedSince(asked, events)
    decreases |events|
  {
    if events != [] {
      StepAsks(c, events[0], asked);
      OnlyAskedFor(Next(c, events[0]), events[1..], AskedAfter(asked, events[0]));
    }
  }

  /** Not logged in, at the gateway, which is all this client has. */
  predicate LoggedOut(c: Client) {
    !c.dataProvider && !c.authenticated && (c.ws.Some? ==> c.ws.value.gateway)
  }

  lemma StaysLoggedOut(c: Client, e: Event)
    requires LoggedOut(c) && !e.AuthSucceeded?
    ensures LoggedOut(Next(c, e)) && Next(c, e).sent <= c.sent
  {
  }

  /** At a gateway-only client that is not logged in, whatever happens short of a login, nothing is sent: so
      it is at the start, after a failed login, and after the socket has closed. */
  lemma {:induction false} ReadyNeedsLogin(c: Client, events: seq<Event>)
    requires LoggedOut(c) && forall i :: 0 <= i < |events| ==> !events[i].AuthSucceeded?
    ensures !Ready(Run(c, events)) && Run(c, events).sent <= c.sent
    decreases |events|
  {
    if events != [] {
      StaysLoggedOut(c, events[0]);
      ReadyNeedsLogin(Next(c, events[0]), events[1..]);
    }
  }

  /** Each of these brings that about. */
  lemma LoginLost(c: Client, e: Event)
    requires !c.dataProvider && c.ws.Some? && c.ws.value.gateway
    requires (e.AuthFailed? && !c.ws.value.phase.Connecting?) || e.Closed? || e.Disconnect?
    ensures LoggedOut(Next(c, e))
  {
  }

  predicate Shut(c: Client) {
    c.paused && (c.ws.Some? ==> c.ws.value.phase.Closing?)
  }

  /** Once a gateway login could not be retried, the client opens no socket and sends nothing until it is
      given a token or disconnected. */
  lemma {:induction false} ShutUntilToken(c: Client, events: seq<Event>)
    requires Shut(c) && forall i :: 0 <= i < |events| ==> !events[i].SetToken? && !events[i].Disconnect?
    ensures Shut(Run(c, events)) && !Ready(Run(c, events)) && Run(c, events).sent <= c.sent
    decreases |events|
  {
    if events != [] {
      StaysShut(c, events[0]);
      ShutUntilToken(Next(c, events[0]), events[1..]);
    }
  }

  lemma StaysShut(c: Client, e: Event)
    requires Shut(c) && !e.SetToken? && !e.Disconnect?
    ensures Shut(Next(c, e)) && Next(c, e).sent <= c.sent
  {
  }

  lemma RetryShuts(c: Client)
    requires Gateway(c)
    ensures Shut(Next(c, TokenRetried(false)))
  {
  }
}
