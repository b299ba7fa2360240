/** One handler call with nothing interleaved: the same steps, run to completion. */
module HandlerRuns {
  import opened Contracts
  import opened Symbols
  import opened Orders
  import opened OrderCaches
  import opened RedisStores
  import opened EngineSteps

  /** An engine at rest around a world. */
  function Resting(w: World): Engine {
    Engine(w, PlaceIdle, TickIdle, CancelIdle)
  }

  function Ticking(w: World, t: TickTask): Engine {
    Engine(w, PlaceIdle, t, CancelIdle)
  }

  function PhaseRank(ph: Phase): nat {
    match ph
    case Script(_, _, _) => 8
    case Committed(_, _) => 7
    case Sync(_, _) => 6
    case Drop(_) => 5
    case Refusing(_) => 4
    case RefusedSync(_) => 3
    case RefusedDrop(_) => 2
    case RefusedZRem(_) => 1
  }

  /** NATS refuses the events about the order: this is where the handler notices. */
  predicate PublishFails(ph: Phase, unpublished: bool) {
    unpublished && (ph.Committed? || ph.Refusing?)
  }

  function FinishPhase(w: World, ph: Phase, unpublished: bool): World
    decreases PhaseRank(ph)
  {
    var (w', ph') := PhaseStep(w, ph, PublishFails(ph, unpublished));
    if ph'.Some? then FinishPhase(w', ph'.value, unpublished) else w'
  }

  function TickStage(t: TickTask): nat {
    match t
    case TickIdle => 0
    case Snapped(_, _, _, _) => 3
    case Priced(_, _, _, _) => 2
    case Looping(_, _, _) => 1
    case TickWork(_, _, _, _) => 1
  }

  function TickLeft(t: TickTask): nat {
    match t
    case Looping(_, _, ids) => 2 * |ids|
    case TickWork(_, _, ids, _) => 2 * |ids| + 1
    case _ => 0
  }

  /** Runs the tick task to its end; `unpublished` names the orders whose events NATS refuses. */
  ghost function FinishTick(e: Engine, unpublished: set<Id>): Engine
    decreases TickStage(e.tick), TickLeft(e.tick), if e.tick.TickWork? then PhaseRank(e.tick.phase) else 0
  {
    if e.tick.TickIdle? then e
    else
      var fault := e.tick.TickWork? && PublishFails(e.tick.phase, e.tick.phase.o.id in unpublished);
      FinishTick(NextTick(e, fault), unpublished)
  }

  datatype PlaceFaults = PlaceFaults(acceptUnpublished: bool, refusalUnpublished: bool)

  function PlaceRank(p: PlaceTask): nat {
    match p
    case PlaceIdle => 0
    case Keyed(_) => 14
    case Stored(_) => 13
    case Queued(_) => 12
    case Cached(_) => 11
    case Accepted(_) => 10
    case PlaceWork(_, phase) => PhaseRank(phase)
  }

  ghost function FinishPlace(e: Engine, faults: PlaceFaults): Engine
    decreases PlaceRank(e.place)
  {
    if e.place.PlaceIdle? then e
    else
      var fault :=
        || (e.place.Cached? && faults.acceptUnpublished)
        || (e.place.PlaceWork? && e.place.phase.Refusing? && faults.refusalUnpublished);
      FinishPlace(NextPlace(e, fault), faults)
  }

  ghost function FinishCancel(e: Engine, unpublished: bool): Engine
    decreases match e.cancel case CancelIdle => 0 case Found(_) => 2 case CancelCommitted(_) => 1
  {
    if e.cancel.CancelIdle? then e else FinishCancel(NextCancel(e, e.cancel.CancelCommitted? && unpublished), unpublished)
  }

  /** Bringing the cached copy up to date and then removing it. */
  function SyncedAndDropped(w: World, o: Order, updated: Order): World {
    Removed(w.(cache := UpdateOrder(w.cache, updated)), o)
  }

  lemma FinishSync(w: World, o: Order, q: Quote, unpublished: bool)
    ensures FinishPhase(w, Sync(o, q), unpublished) == SyncedAndDropped(w, o, AsFilled(o, SidePrice(o.side, q)))
  {
    var w' := w.(cache := UpdateOrder(w.cache, AsFilled(o, SidePrice(o.side, q))));
    assert FinishPhase(w', Drop(o), unpublished) == Removed(w', o);
  }

  lemma FinishCommitted(w: World, o: Order, q: Quote, unpublished: bool)
    ensures FinishPhase(w, Committed(o, q), unpublished)
         == if unpublished then w.(history := Skipped(w, o))
            else SyncedAndDropped(w, o, AsFilled(o, SidePrice(o.side, q)))
  {
    FinishSync(w, o, q, unpublished);
  }

  lemma FinishRefusing(w: World, o: Order)
    ensures
      var stored := w.(db := SetOrder(w.db, o.id, o.(status := Rejected)));
      var dropped := SyncedAndDropped(stored, o, o.(status := Rejected));
      FinishPhase(w, Refusing(o), false) == dropped.(db := ZRem(dropped.db, o.symbol, o.id))
  {
    var stored := w.(db := SetOrder(w.db, o.id, o.(status := Rejected)));
    var updated := stored.(cache := UpdateOrder(stored.cache, o.(status := Rejected)));
    assert FinishPhase(w, Refusing(o), false) == FinishPhase(stored, RefusedSync(o), false);
    assert FinishPhase(stored, RefusedSync(o), false) == FinishPhase(updated, RefusedDrop(o), false);
    FinishRefusedDrop(updated, o);
  }

  lemma FinishRefusedDrop(w: World, o: Order)
    ensures FinishPhase(w, RefusedDrop(o), false) == Removed(w, o).(db := ZRem(Removed(w, o).db, o.symbol, o.id))
  {
    assert FinishPhase(w, RefusedDrop(o), false) == FinishPhase(Removed(w, o), RefusedZRem(o), false);
  }

  /** The loop waits for the order in hand to be done with. */
  lemma {:induction false} TickFinishesPhase(w: World, group: Option<string>, q: Quote, ids: seq<Id>, ph: Phase, unpublished: set<Id>)
    ensures FinishTick(Ticking(w, TickWork(group, q, ids, ph)), unpublished)
         == FinishTick(Ticking(FinishPhase(w, ph, ph.o.id in unpublished), Looping(group, q, ids)), unpublished)
    decreases PhaseRank(ph)
  {
    var e := Ticking(w, TickWork(group, q, ids, ph));
    var fault := PublishFails(ph, ph.o.id in unpublished);
    var (w', ph') := PhaseStep(w, ph, fault);
    assert FinishTick(e, unpublished) == FinishTick(NextTick(e, fault), unpublished);
    if ph'.Some? {
      assert ph'.value.o == ph.o;
      TickFinishesPhase(w', group, q, ids, ph'.value, unpublished);
    }
  }

  /** Past its publishing points a phase no longer depends on NATS. */
  lemma {:induction false} PublishedAlready(w: World, ph: Phase)
    requires !ph.Script? && !ph.Committed? && !ph.Refusing?
    ensures FinishPhase(w, ph, true) == FinishPhase(w, ph, false)
    decreases PhaseRank(ph)
  {
    var (w', ph') := PhaseStep(w, ph, false);
    if ph'.Some? { PublishedAlready(w', ph'.value); }
  }

  /** On the placing path only the acceptance and the refusal depend on NATS. */
  lemma {:induction false} PlaceFinishesPhase(w: World, cmd: PlaceCommand, ph: Phase, faults: PlaceFaults)
    ensures FinishPlace(Resting(w).(place := PlaceWork(cmd, ph)), faults)
         == Resting(FinishPhase(w, ph, ph.Refusing? && faults.refusalUnpublished))
    decreases PhaseRank(ph)
  {
    var e := Resting(w).(place := PlaceWork(cmd, ph));
    var fault := ph.Refusing? && faults.refusalUnpublished;
    var (w', ph') := PhaseStep(w, ph, fault);
    assert FinishPlace(e, faults) == FinishPlace(NextPlace(e, fault), faults);
    if ph'.Some? {
      PlaceFinishesPhase(w', cmd, ph'.value, faults);
      if ph.Refusing? { PublishedAlready(w', ph'.value); }
    }
  }

  /** An uninterrupted tick is one of the interleaved runs. */
  lemma {:induction false} FinishTickIsRun(e: Engine, unpublished: set<Id>) returns (actions: seq<Action>)
    ensures Run(e, actions) == FinishTick(e, unpublished)
    ensures AdmissibleRun(e, actions)
    ensures FinishTick(e, unpublished) == e.(w := FinishTick(e, unpublished).w, tick := TickIdle)
    decreases TickStage(e.tick), TickLeft(e.tick), if e.tick.TickWork? then PhaseRank(e.tick.phase) else 0
  {
    if e.tick.TickIdle? {
      actions := [];
    } else {
      var fault := e.tick.TickWork? && PublishFails(e.tick.phase, e.tick.phase.o.id in unpublished);
      var rest := FinishTickIsRun(NextTick(e, fault), unpublished);
      actions := [TickStep(fault)] + rest;
      assert actions[1..] == rest;
    }
  }

  /** So is an uninterrupted placing, and an uninterrupted cancel. */
  lemma {:induction false} FinishPlaceIsRun(e: Engine, faults: PlaceFaults) returns (actions: seq<Action>)
    ensures Run(e, actions) == FinishPlace(e, faults)
    ensures AdmissibleRun(e, actions)
    ensures FinishPlace(e, faults) == e.(w := FinishPlace(e, faults).w, place := PlaceIdle)
    decreases PlaceRank(e.place)
  {
    if e.place.PlaceIdle? {
      actions := [];
    } else {
      var fault :=
        || (e.place.Cached? && faults.acceptUnpublished)
        || (e.place.PlaceWork? && e.place.phase.Refusing? && faults.refusalUnpublished);
      var rest := FinishPlaceIsRun(NextPlace(e, fault), faults);
      actions := [PlaceStep(fault)] + rest;
      assert actions[1..] == rest;
    }
  }

  lemma {:induction false} FinishCancelIsRun(e: Engine, unpublished: bool) returns (actions: seq<Action>)
    ensures Run(e, actions) == FinishCancel(e, unpublished)
    ensures AdmissibleRun(e, actions)
    ensures FinishCancel(e, unpublished) == e.(w := FinishCancel(e, unpublished).w, cancel := CancelIdle)
    decreases match e.cancel case CancelIdle => 0 case Found(_) => 2 case CancelCommitted(_) => 1
  {
    if e.cancel.CancelIdle? {
      actions := [];
    } else {
      var fault := e.cancel.CancelCommitted? && unpublished;
      var rest := FinishCancelIsRun(NextCancel(e, fault), unpublished);
      actions := [CancelStep(fault)] + rest;
      assert actions[1..] == rest;
    }
  }
}
