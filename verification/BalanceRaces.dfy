/** One user's balance under concurrent handlers. Placing reads the balance once and writes its own copy
    back twice; approving reads the request's status, marks it, reads the balance and writes it back.
    Nothing locks the balance or the request in between. */
module BalanceRaces {
  import opened Contracts
  import opened Orders
  import opened Ledgers

  /** What a handler has in hand. */
  datatype Task =
    | Selected(request: Id, amount: real)                  // status read as pending
    | Marked(request: Id, amount: real)                    // request marked approved
    | Crediting(request: Id, amount: real, copy: Balance)  // balance read
    | Reserving(margin: real, copy: Balance)               // balance read, margin found sufficient
    | Settling(margin: real, copy: Balance)                // reservation written

  /** `due` is what the balance should be: everything credited, reserved and settled, and the opening
      balance once the first balance was written by an order. `selected` and `credited` log requests in
      order. */
  datatype Desk = Desk(
    stored: Option<Balance>,
    approved: map<Id, bool>,
    amounts: map<Id, real>,
    tasks: map<Id, Task>,
    due: Balance,
    selected: seq<Id>,
    credited: seq<Id>)

  datatype Action =
    | Select(task: Id, request: Id)
    | Read(task: Id, margin: real)
    | Act(task: Id)
    | Break(task: Id)

  function StoredOr(stored: Option<Balance>, default: Balance): Balance {
    if stored.Some? then stored.value else default
  }

  function Plus(a: Balance, b: Balance): Balance {
    Balance(a.available + b.available, a.locked + b.locked, a.equity + b.equity, a.marginUsed + b.marginUsed,
            a.freeMargin + b.freeMargin)
  }

  function Advance(d: Desk, id: Id): Desk
    requires id in d.tasks
  {
    match d.tasks[id]
    case Selected(request, amount) => d.(approved := d.approved[request := true], tasks := d.tasks[id := Marked(request, amount)])
    case Marked(request, amount) => d.(tasks := d.tasks[id := Crediting(request, amount, StoredOr(d.stored, NOTHING))])
    case Crediting(request, amount, copy) =>
      d.(stored := Some(Deposited(copy, amount, 6)), due := Deposited(d.due, amount, 6),
         credited := d.credited + [request], tasks := d.tasks - {id})
    case Reserving(margin, copy) =>
      d.(stored := Some(Reservation(copy, margin)),
         due := Reservation(if d.stored.None? then Plus(d.due, OPENING) else d.due, margin),
         tasks := d.tasks[id := Settling(margin, Reservation(copy, margin))])
    case Settling(margin, copy) =>
      d.(stored := Some(Settlement(copy, margin)), due := Settlement(d.due, margin), tasks := d.tasks - {id})
  }

  function Next(d: Desk, a: Action): Desk {
    match a
    case Select(task, request) =>
      if task in d.tasks || request !in d.approved || d.approved[request] || request !in d.amounts then d
      else d.(tasks := d.tasks[task := Selected(request, d.amounts[request])], selected := d.selected + [request])
    case Read(task, margin) =>
      var copy := StoredOr(d.stored, OPENING);
      if task in d.tasks || margin < 0.0 || copy.freeMargin < margin then d
      else d.(tasks := d.tasks[task := Reserving(margin, copy)])
    case Act(task) => if task in d.tasks then Advance(d, task) else d
    case Break(task) => d.(tasks := d.tasks - {task})
  }

  function Run(d: Desk, actions: seq<Action>): Desk
    decreases |actions|
  {
    if actions == [] then d else Run(Next(d, actions[0]), actions[1..])
  }

  // ---------------------------------------------------------------- what no interleaving breaks

  predicate AddsUp(b: Balance) {
    b.freeMargin + b.marginUsed + b.locked == b.equity && b.available == b.equity && b.freeMargin >= 0.0
  }

  predicate TaskOk(t: Task) {
    match t
    case Selected(_, amount) => amount >= 0.0
    case Marked(_, amount) => amount >= 0.0
    case Crediting(_, amount, copy) => amount >= 0.0 && AddsUp(copy)
    case Reserving(margin, copy) => 0.0 <= margin <= copy.freeMargin && AddsUp(copy)
    case Settling(_, copy) => AddsUp(copy)
  }

  predicate Whole(d: Desk) {
    && (d.stored.Some? ==> AddsUp(d.stored.value))
    && (forall id :: id in d.tasks ==> TaskOk(d.tasks[id]))
    && (forall r :: r in d.amounts ==> d.amounts[r] >= 0.0)
  }

  lemma StepWhole(d: Desk, a: Action)
    requires Whole(d)
    ensures Whole(Next(d, a))
  {
    if a.Act? && a.task in d.tasks { assert TaskOk(d.tasks[a.task]); }
  }

  /** However the handlers interleave and wherever they break off, as long as a balance is written whole
      the stored balance adds up. */
  lemma {:induction false} RacesKeepAddingUp(d: Desk, actions: seq<Action>)
    requires Whole(d)
    ensures Whole(Run(d, actions))
    decreases |actions|
  {
    if actions != [] {
      StepWhole(d, actions[0]);
      RacesKeepAddingUp(Next(d, actions[0]), actions[1..]);
    }
  }

  // ---------------------------------------------------------------- what they do break

  datatype Field = Available | Locked | Equity | MarginUsed | FreeMargin

  function Get(b: Balance, f: Field): real {
    match f
    case Available => b.available
    case Locked => b.locked
    case Equity => b.equity
    case MarginUsed => b.marginUsed
    case FreeMargin => b.freeMargin
  }

  /** What the user is short of in this field. */
  function Short(d: Desk, f: Field): real {
    Get(d.due, f) - Get(StoredOr(d.stored, NOTHING), f)
  }

  /** The task is about to write the balance it holds a copy of. */
  predicate Writes(t: Task) {
    t.Crediting? || t.Reserving? || t.Settling?
  }

  /** In this field the copy is still what is stored; an order's copy of no balance is the opening one. */
  predicate Timely(d: Desk, t: Task, f: Field)
    requires Writes(t)
  {
    Get(t.copy, f) == Get(StoredOr(d.stored, if t.Crediting? then NOTHING else OPENING), f)
  }

  /** A settling order has written a balance before. */
  predicate Started(d: Desk) {
    d.stored.None? ==> forall id :: id in d.tasks ==> !d.tasks[id].Settling?
  }

  predicate TimelyStep(d: Desk, a: Action, f: Field) {
    a.Act? && a.task in d.tasks && Writes(d.tasks[a.task]) ==> Timely(d, d.tasks[a.task], f)
  }

  /** A balance write makes money appear in a field or vanish from it, be it equity, locked, used or free
      margin, exactly when that field is no longer what it was in the copy; no other step does. */
  lemma MoneyKeptIff(d: Desk, a: Action, f: Field)
    requires Started(d)
    ensures Short(Next(d, a), f) == Short(d, f) <==> TimelyStep(d, a, f)
  {
  }

  predicate TimelyRun(d: Desk, actions: seq<Action>, f: Field)
    decreases |actions|
  {
    actions != [] ==> TimelyStep(d, actions[0], f) && TimelyRun(Next(d, actions[0]), actions[1..], f)
  }

  /** If every write works on a copy that is timely in a field, the field is what it should be throughout. */
  lemma {:induction false} TimelyRunsConserve(d: Desk, actions: seq<Action>, f: Field)
    requires Started(d) && TimelyRun(d, actions, f)
    ensures Started(Run(d, actions)) && Short(Run(d, actions), f) == Short(d, f)
    decreases |actions|
  {
    if actions != [] {
      MoneyKeptIff(d, actions[0], f);
      TimelyRunsConserve(Next(d, actions[0]), actions[1..], f);
    }
  }

  // ---------------------------------------------------------------- credits

  predicate Owes(t: Task) {
    t.Selected? || t.Marked? || t.Crediting?
  }

  /** Whether the task has the request in hand: selected and not yet credited. */
  function Owed(tasks: map<Id, Task>, id: Id, request: Id): nat {
    if id in tasks && Owes(tasks[id]) && tasks[id].request == request then 1 else 0
  }

  ghost function InHand(tasks: map<Id, Task>, ids: set<Id>, request: Id): nat
    decreases |ids|
  {
    if ids == {} then 0
    else
      var id :| id in ids;
      Owed(tasks, id, request) + InHand(tasks, ids - {id}, request)
  }

  lemma {:induction false} InHandSplit(tasks: map<Id, Task>, ids: set<Id>, request: Id, id: Id)
    requires id in ids
    ensures InHand(tasks, ids, request) == Owed(tasks, id, request) + InHand(tasks, ids - {id}, request)
    decreases |ids|
  {
    var first :| first in ids
      && InHand(tasks, ids, request) == Owed(tasks, first, request) + InHand(tasks, ids - {first}, request);
    if first != id {
      InHandSplit(tasks, ids - {first}, request, id);
      InHandSplit(tasks, ids - {id}, request, first);
      assert ids - {first} - {id} == ids - {id} - {first};
    }
  }

  lemma {:induction false} InHandSame(a: map<Id, Task>, b: map<Id, Task>, ids: set<Id>, request: Id)
    requires forall id :: id in ids ==> Owed(a, id, request) == Owed(b, id, request)
    ensures InHand(a, ids, request) == InHand(b, ids, request)
    decreases |ids|
  {
    if ids != {} {
      var id :| id in ids;
      InHandSplit(a, ids, request, id);
      InHandSplit(b, ids, request, id);
      InHandSame(a, b, ids - {id}, request);
    }
  }

  lemma InHandOne(tasks: map<Id, Task>, request: Id, id: Id)
    ensures InHand(tasks, tasks.Keys, request) == Owed(tasks, id, request) + InHand(tasks, tasks.Keys - {id}, request)
  {
    if id in tasks { InHandSplit(tasks, tasks.Keys, request, id); } else { assert tasks.Keys - {id} == tasks.Keys; }
  }

  /** Only the task `id` moved. */
  lemma OneMoved(a: map<Id, Task>, b: map<Id, Task>, id: Id, request: Id)
    requires a.Keys - {id} == b.Keys - {id} && forall k :: k in a && k != id ==> k in b && a[k] == b[k]
    ensures InHand(b, b.Keys, request) + Owed(a, id, request) == InHand(a, a.Keys, request) + Owed(b, id, request)
  {
    InHandOne(a, request, id);
    InHandOne(b, request, id);
    InHandSame(a, b, a.Keys - {id}, request);
  }

  function Times(s: seq<Id>, request: Id): nat {
    if s == [] then 0 else Times(s[..|s| - 1], request) + if s[|s| - 1] == request then 1 else 0
  }

  lemma TimesSnoc(s: seq<Id>, x: Id, request: Id)
    ensures Times(s + [x], request) == Times(s, request) + if x == request then 1 else 0
  {
    assert (s + [x])[..|s|] == s;
  }

  /** Selections are credits, past or in hand. */
  ghost predicate Accounted(d: Desk, request: Id) {
    Times(d.selected, request) == Times(d.credited, request) + InHand(d.tasks, d.tasks.Keys, request)
  }

  lemma StepMovesOne(d: Desk, a: Action)
    requires !a.Break?
    ensures
      var tasks' := Next(d, a).tasks;
      d.tasks.Keys - {a.task} == tasks'.Keys - {a.task} && forall k :: k in d.tasks && k != a.task ==> k in tasks' && d.tasks[k] == tasks'[k]
  {
  }

  lemma StepOwes(d: Desk, a: Action, request: Id)
    requires !a.Break?
    ensures
      var d' := Next(d, a);
      Times(d'.selected, request) + Owed(d.tasks, a.task, request) + Times(d.credited, request)
        == Times(d.selected, request) + Owed(d'.tasks, a.task, request) + Times(d'.credited, request)
  {
    match a
    case Select(task, r) => TimesSnoc(d.selected, r, request);
    case Read(_, _) =>
    case Act(task) => if task in d.tasks && d.tasks[task].Crediting? { TimesSnoc(d.credited, d.tasks[task].request, request); }
  }

  lemma StepAccounted(d: Desk, a: Action, request: Id)
    requires Accounted(d, request) && !a.Break?
    ensures Accounted(Next(d, a), request)
  {
    StepMovesOne(d, a);
    OneMoved(d.tasks, Next(d, a).tasks, a.task, request);
    StepOwes(d, a, request);
  }

  lemma {:induction false} RunAccounted(d: Desk, actions: seq<Action>, request: Id)
    requires Accounted(d, request) && forall i :: 0 <= i < |actions| ==> !actions[i].Break?
    ensures Accounted(Run(d, actions), request)
    decreases |actions|
  {
    if actions != [] {
      StepAccounted(d, actions[0], request);
      RunAccounted(Next(d, actions[0]), actions[1..], request);
    }
  }

  /** When all handlers are done, each request was credited exactly as often as its status was read as
      pending: twice, if a second handler read it before the first had marked it. */
  lemma CreditsAreSelections(d: Desk, actions: seq<Action>, request: Id)
    requires d.tasks == map[] && d.selected == [] && d.credited == []
    requires forall i :: 0 <= i < |actions| ==> !actions[i].Break?
    requires Run(d, actions).tasks == map[]
    ensures Times(Run(d, actions).credited, request) == Times(Run(d, actions).selected, request)
  {
    RunAccounted(d, actions, request);
  }

  /** The step reads the request's status as pending. */
  predicate Takes(d: Desk, a: Action, request: Id) {
    && a.Select? && a.request == request && a.task !in d.tasks
    && request in d.approved && !d.approved[request] && request in d.amounts
  }

  lemma TakesOnce(d: Desk, a: Action, request: Id)
    ensures Times(Next(d, a).selected, request) == Times(d.selected, request) + if Takes(d, a, request) then 1 else 0
  {
    if a.Select? { TimesSnoc(d.selected, a.request, request); }
  }

  /** A second handler reads the request's status after a first one has and before it is marked; `taken`
      says that a first one has already. */
  predicate TakenTwice(d: Desk, actions: seq<Action>, request: Id, taken: bool)
    decreases |actions|
  {
    && actions != []
    && ((taken && Takes(d, actions[0], request))
        || TakenTwice(Next(d, actions[0]), actions[1..], request, taken || Takes(d, actions[0], request)))
  }

  lemma {:induction false} SelectionsGrow(d: Desk, actions: seq<Action>, request: Id)
    ensures Times(Run(d, actions).selected, request) >= Times(d.selected, request)
    decreases |actions|
  {
    if actions != [] {
      TakesOnce(d, actions[0], request);
      SelectionsGrow(Next(d, actions[0]), actions[1..], request);
    }
  }

  lemma {:induction false} SelectedTwiceIff(d: Desk, actions: seq<Action>, request: Id)
    requires Times(d.selected, request) <= 1
    ensures Times(Run(d, actions).selected, request) >= 2
            <==> TakenTwice(d, actions, request, Times(d.selected, request) == 1)
    decreases |actions|
  {
    if actions != [] {
      var d' := Next(d, actions[0]);
      TakesOnce(d, actions[0], request);
      if Times(d'.selected, request) <= 1 {
        SelectedTwiceIff(d', actions[1..], request);
      } else {
        SelectionsGrow(d', actions[1..], request);
      }
    }
  }

  /** From a clean desk and with no handler breaking off, a request is credited at most once unless a
      second handler reads its status between the first one's reading and the marking; and once all
      handlers are done, exactly then. */
  lemma CreditedTwiceIff(d: Desk, actions: seq<Action>, request: Id)
    requires d.tasks == map[] && d.selected == [] && d.credited == []
    requires forall i :: 0 <= i < |actions| ==> !actions[i].Break?
    ensures !TakenTwice(d, actions, request, false) ==> Times(Run(d, actions).credited, request) <= 1
    ensures Run(d, actions).tasks == map[] ==>
      (Times(Run(d, actions).credited, request) >= 2 <==> TakenTwice(d, actions, request, false))
  {
    SelectedTwiceIff(d, actions, request);
    RunAccounted(d, actions, request);
  }

  // ---------------------------------------------------------------- three runs

  /** A deposit request of 100 and a stored balance of 1000. */
  const OPEN_DESK := Desk(Some(Balance(1000.0, 0.0, 1000.0, 0.0, 1000.0)), map[5 := false], map[5 := 100.0], map[],
                          Balance(1000.0, 0.0, 1000.0, 0.0, 1000.0), [], [])

  const TWICE := [Select(1, 5), Select(2, 5), Act(1), Act(1), Act(1), Act(2), Act(2), Act(2)]

  lemma TwiceStart()
    ensures
      var d := Run(OPEN_DESK, TWICE[..4]);
      d == OPEN_DESK.(approved := map[5 := true], selected := [5, 5],
                      tasks := map[1 := Crediting(5, 100.0, OPEN_DESK.stored.value), 2 := Selected(5, 100.0)])
  {
    RunFour(OPEN_DESK, TWICE[..4]);
  }

  lemma TwiceEnd(d: Desk)
    requires d == OPEN_DESK.(approved := map[5 := true], selected := [5, 5],
                             tasks := map[1 := Crediting(5, 100.0, OPEN_DESK.stored.value), 2 := Selected(5, 100.0)])
    ensures
      var d' := Next(Next(Next(Next(d, Act(1)), Act(2)), Act(2)), Act(2));
      d'.tasks == map[] && d'.credited == [5, 5] && d'.stored.Some? && d'.stored.value.equity == 1200.0
  {
    var d1 := Next(d, Act(1));
    assert d1.tasks == map[2 := Selected(5, 100.0)] && d1.stored.value.equity == 1100.0;
    var d2 := Next(Next(d1, Act(2)), Act(2));
    assert d2.tasks == map[2 := Crediting(5, 100.0, d1.stored.value)];
  }

  /** Two administrators approve the same request at once: it is credited twice. */
  lemma CreditedTwice()
    ensures
      var d := Run(OPEN_DESK, TWICE);
      d.tasks == map[] && d.credited == [5, 5] && d.stored.Some? && d.stored.value.equity == 1200.0
  {
    TwiceStart();
    var d := Run(OPEN_DESK, TWICE[..4]);
    TwiceEnd(d);
    RunFour(OPEN_DESK, TWICE[..4]);
    RunFour(OPEN_DESK, TWICE);
    RunFour(d, TWICE[4..]);
    assert TWICE[..4][4..] == [] && TWICE[4..][4..] == [];
  }

  /** A deposit is selected and marked, an order reads the balance, and the deposit's handler reads it too. */
  const BOTH_READ := [Select(1, 5), Act(1), Read(2, 10.0), Act(1)]

  /** The deposit is credited and the order writes back twice. */
  const BOTH_WRITE := [Act(1), Act(2), Act(2)]

  lemma LostStart()
    ensures
      var held := OPEN_DESK.stored.value;
      Run(OPEN_DESK, BOTH_READ)
        == OPEN_DESK.(approved := map[5 := true], selected := [5],
                      tasks := map[1 := Crediting(5, 100.0, held), 2 := Reserving(10.0, held)])
  {
    var d1 := Next(Next(OPEN_DESK, Select(1, 5)), Act(1));
    assert d1 == OPEN_DESK.(approved := map[5 := true], selected := [5], tasks := map[1 := Marked(5, 100.0)]);
    RunFour(OPEN_DESK, BOTH_READ);
    assert BOTH_READ[4..] == [];
  }

  lemma LostEnd(d: Desk, held: Balance)
    requires d.stored == Some(held) && d.due == held && d.credited == []
    requires d.tasks == map[1 := Crediting(5, 100.0, held), 2 := Reserving(10.0, held)]
    ensures
      var d' := Next(Next(Next(d, Act(1)), Act(2)), Act(2));
      && d'.tasks == map[] && d'.credited == [5] && Short(d', Equity) == 100.0
      && d'.stored == Some(Settlement(Reservation(held, 10.0), 10.0))
  {
    var d1 := Next(d, Act(1));
    assert d1.tasks == map[2 := Reserving(10.0, held)] && d1.due == Deposited(held, 100.0, 6);
    var d2 := Next(d1, Act(2));
    assert d2.tasks == map[2 := Settling(10.0, Reservation(held, 10.0))];
    assert d2.due == Reservation(d1.due, 10.0);
  }

  lemma {:induction false} RunJoined(d: Desk, a: seq<Action>, b: seq<Action>)
    ensures Run(d, a + b) == Run(Run(d, a), b)
    decreases |a|
  {
    if a == [] {
      assert a + b == b;
    } else {
      assert (a + b)[1..] == a[1..] + b;
      RunJoined(Next(d, a[0]), a[1..], b);
    }
  }

  /** A deposit credited between an order's reading the balance and writing it back is lost. */
  lemma DepositLost()
    ensures
      var d := Run(OPEN_DESK, BOTH_READ + BOTH_WRITE);
      && d.tasks == map[] && d.credited == [5] && Short(d, Equity) == 100.0
      && d.stored == Some(Settlement(Reservation(OPEN_DESK.stored.value, 10.0), 10.0))
  {
    RunJoined(OPEN_DESK, BOTH_READ, BOTH_WRITE);
    LostStart();
    var d := Run(OPEN_DESK, BOTH_READ);
    LostEnd(d, OPEN_DESK.stored.value);
    RunThree(d, BOTH_WRITE);
  }

  /** Two orders read the balance before either writes it back. */
  function Crossing(m: real, n: real): seq<Action> {
    [Read(1, m), Read(2, n), Act(1), Act(2)] + [Act(1), Act(2)]
  }

  lemma BothReserved(m: real, n: real)
    requires 0.0 <= m <= 1000.0 && 0.0 <= n <= 1000.0
    ensures
      var d, held := OPEN_DESK, OPEN_DESK.stored.value;
      Next(Next(Next(Next(d, Read(1, m)), Read(2, n)), Act(1)), Act(2))
        == d.(stored := Some(Reservation(held, n)), due := Reservation(Reservation(d.due, m), n),
              tasks := map[1 := Settling(m, Reservation(held, m)), 2 := Settling(n, Reservation(held, n))])
  {
    var d, held := OPEN_DESK, OPEN_DESK.stored.value;
    var d2 := Next(Next(d, Read(1, m)), Read(2, n));
    assert d2.tasks == map[1 := Reserving(m, held), 2 := Reserving(n, held)];
    var d3 := Next(d2, Act(1));
    assert d3.tasks == map[1 := Settling(m, Reservation(held, m)), 2 := Reserving(n, held)];
  }

  /** The second order's copies know nothing of the first: its margin is neither locked nor used in the
      end, and free again, although both orders were executed. */
  lemma MarginLost(m: real, n: real)
    requires 0.0 <= m <= 1000.0 && 0.0 <= n <= 1000.0
    ensures
      var d := Run(OPEN_DESK, Crossing(m, n));
      && d.tasks == map[] && d.due.marginUsed == m + n
      && d.stored == Some(Balance(1000.0, 0.0, 1000.0, n, 1000.0 - n))
      && Short(d, MarginUsed) == m && Short(d, FreeMargin) == -m && Short(d, Equity) == 0.0
  {
    var actions := Crossing(m, n);
    BothReserved(m, n);
    RunFour(OPEN_DESK, actions);
    assert actions[4..] == [Act(1), Act(2)] && actions[4..][1..] == [Act(2)] && [Act(2)][1..] == [];
    var held := OPEN_DESK.stored.value;
    var d := Next(Next(Next(Next(OPEN_DESK, Read(1, m)), Read(2, n)), Act(1)), Act(2));
    var d1 := Next(d, Act(1));
    assert d1.tasks == map[2 := Settling(n, Reservation(held, n))];
    assert Run(d, [Act(1), Act(2)]) == Run(d1, [Act(2)]);
    assert Run(d1, [Act(2)]) == Run(Next(d1, Act(2)), []);
  }

  lemma RunThree(d: Desk, actions: seq<Action>)
    requires |actions| == 3
    ensures Run(d, actions) == Next(Next(Next(d, actions[0]), actions[1]), actions[2])
  {
    assert actions[1..][1..] == actions[2..] && actions[2..][1..] == [];
    var d1 := Next(d, actions[0]);
    var d2 := Next(d1, actions[1]);
    assert Run(d1, actions[1..]) == Run(d2, actions[2..]);
    assert Run(d2, actions[2..]) == Run(Next(d2, actions[2]), []);
  }

  lemma RunFour(d: Desk, actions: seq<Action>)
    requires |actions| >= 4
    ensures Run(d, actions) == Run(Next(Next(Next(Next(d, actions[0]), actions[1]), actions[2]), actions[3]), actions[4..])
  {
    assert actions[1..][1..] == actions[2..] && actions[2..][1..] == actions[3..] && actions[3..][1..] == actions[4..];
    var d1 := Next(d, actions[0]);
    var d2 := Next(d1, actions[1]);
    assert Run(d1, actions[1..]) == Run(d2, actions[2..]);
    assert Run(d2, actions[2..]) == Run(Next(d2, actions[2]), actions[3..]);
  }
}
