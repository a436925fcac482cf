/** The queue of hotplug calls: one call runs at a time, later events of an
    interface are merged into one pending event. */
module HotplugQueue {
  import opened Options
  import opened Events

  type Id = nat

  datatype Call = Call(id: Id, ev: Event)

  /** Everything the queue works on. calls lists the hotplug calls asked for so
      far, whether or not a process could be started for them. */
  datatype Queue = Queue(
    current: Option<Id>,
    currentEv: Event,
    pending: seq<Id>,
    hotplugEv: map<Id, Event>,
    taskPending: bool,
    calls: History<Call>)

  const EMPTY := Queue(None, Down, [], map[], false, Nothing)

  /** forks(k) says whether a process can be started for call k. */
  type Forks = nat -> bool

  predicate Distinct(s: seq<Id>) {
    forall i, j :: 0 <= i < j < |s| ==> s[i] != s[j]
  }

  predicate Queueable(ev: Event) {
    ev == Up || ev == Down || ev == Update
  }

  /** An interface waits at most once, with an event to hand out. */
  ghost predicate Sound(q: Queue) {
    Distinct(q.pending) && forall i :: i in q.pending ==> i in q.hotplugEv && Queueable(q.hotplugEv[i])
  }

  /** What every step keeps: whenever an interface waits or is being served, a
      process is running. */
  ghost predicate Inv(q: Queue) {
    Sound(q) && (q.current.Some? || q.pending != [] ==> q.taskPending)
  }

  /** No process runs and the next call may be made. */
  ghost predicate Ready(q: Queue) {
    Sound(q) && q.current.None? && !q.taskPending
  }

  // ---- the steps ---------------------------------------------------------------

  /** Starts the first pending call; a call whose process cannot be started
      counts as completed and the next one is tried. */
  function NextCall(q: Queue, forks: Forks): (r: Queue)
    requires Ready(q)
    ensures Inv(r)
    ensures q.pending != [] ==> |r.pending| < |q.pending|
    ensures Count(r.calls) + |r.pending| == Count(q.calls) + |q.pending|
    decreases |q.pending|
  {
    if q.pending == [] then q
    else
      var started := Started(q);
      if forks(Count(q.calls)) then started.(taskPending := true)
      else NextCall(started.(current := None), forks)
  }

  function Started(q: Queue): Queue
    requires q.pending != [] && q.pending[0] in q.hotplugEv
  {
    var id := q.pending[0];
    var ev := q.hotplugEv[id];
    q.(current := Some(id), currentEv := ev, pending := q.pending[1..], calls := Then(q.calls, Call(id, ev)))
  }

  /** The running process has ended. */
  function Completed(q: Queue, forks: Forks): (r: Queue)
    requires Inv(q)
    ensures Inv(r)
  {
    NextCall(q.(current := None, taskPending := false), forks)
  }

  /** Merges a new event into what is waiting. */
  function Merge(q: Queue, id: Id, ev: Event): Queue
    requires Inv(q)
  {
    if id in q.pending then
      if q.current == Some(id) then
        if ev != Update then q.(hotplugEv := q.hotplugEv[id := ev]) else q
      else if !(q.hotplugEv[id] == Up && ev == Update) then q.(hotplugEv := q.hotplugEv[id := ev])
      else q
    else if q.current == Some(id) && ev == q.currentEv && ev != Update then q
    else q.(hotplugEv := q.hotplugEv[id := ev], pending := q.pending + [id])
  }

  function Enqueued(q: Queue, id: Id, ev: Event, forks: Forks): (r: Queue)
    requires Inv(q) && Queueable(ev)
    ensures Inv(r)
  {
    var m := Merge(q, id, ev);
    if !m.taskPending && m.current.None? then NextCall(m, forks) else m
  }

  function Without(s: seq<Id>, id: Id): (r: seq<Id>)
    ensures forall i :: i in r <==> i in s && i != id
    ensures |r| <= |s|
    ensures Distinct(s) ==> Distinct(r)
  {
    if s == [] then []
    else if s[0] == id then Without(s[1..], id)
    else
      var r := [s[0]] + Without(s[1..], id);
      assert Distinct(s) ==> s[0] !in s[1..];
      r
  }

  /** A freed interface leaves the queue; its running process goes on. */
  function Dequeued(q: Queue, id: Id): (r: Queue)
    requires Inv(q)
    ensures Inv(r)
  {
    q.(current := if q.current == Some(id) then None else q.current, pending := Without(q.pending, id))
  }

  /** What the event callback does with an event. */
  function Deliver(q: Queue, id: Id, ev: Event, forks: Forks): (r: Queue)
    requires Inv(q)
    ensures Inv(r)
  {
    match ev {
      case LinkUp => q
      case Up => Enqueued(q, id, ev, forks)
      case Update => Enqueued(q, id, ev, forks)
      case Down => Enqueued(q, id, ev, forks)
      case Free => Dequeued(q, id)
      case Reload => q
    }
  }

  // ---- what has been handed out --------------------------------------------------

  function HandedTo(calls: History<Call>, id: Id): History<Event> {
    match calls {
      case Nothing => Nothing
      case Then(before, c) => if c.id == id then Then(HandedTo(before, id), c.ev) else HandedTo(before, id)
    }
  }

  /** Whether the last UP or DOWN handed out for an interface was an UP. */
  predicate HandedUp(q: Queue, id: Id) {
    EndsUp(HandedTo(q.calls, id))
  }

  /** What the last UP or DOWN handed out will be once nothing is waiting. */
  predicate Outcome(q: Queue, id: Id)
    requires Inv(q) || Ready(q)
  {
    if id in q.pending && q.hotplugEv[id] != Update then q.hotplugEv[id] == Up else HandedUp(q, id)
  }

  /** The event being served is the last one handed out. */
  ghost predicate CurrentIsLast(q: Queue) {
    q.current.Some? && q.currentEv != Update ==> HandedUp(q, q.current.value) == (q.currentEv == Up)
  }

  lemma StartedKeepsOutcome(q: Queue, id: Id)
    requires Ready(q) && q.pending != []
    ensures Ready(Started(q).(current := None))
    ensures Outcome(Started(q).(current := None), id) == Outcome(q, id)
    ensures CurrentIsLast(Started(q))
  {
    var first := q.pending[0];
    assert first !in q.pending[1..];
    assert id != first ==> (id in q.pending <==> id in q.pending[1..]) by {
      assert q.pending == [first] + q.pending[1..];
    }
  }

  /** Handing out calls does not change any outcome. */
  lemma {:induction false} NextCallKeepsOutcome(q: Queue, id: Id, forks: Forks)
    requires Ready(q)
    ensures Outcome(NextCall(q, forks), id) == Outcome(q, id)
    ensures CurrentIsLast(NextCall(q, forks))
    decreases |q.pending|
  {
    if q.pending != [] {
      StartedKeepsOutcome(q, id);
      if !forks(Count(q.calls)) {
        NextCallKeepsOutcome(Started(q).(current := None), id, forks);
      }
    }
  }

  /** Which events would lose an outcome: an update that replaces a waiting DOWN
      of an interface whose last handed-out event was UP. */
  predicate LosesDown(q: Queue, id: Id, ev: Event)
    requires Inv(q)
  {
    && ev == Update && q.current != Some(id) && id in q.pending && q.hotplugEv[id] == Down && HandedUp(q, id)
  }

  /** What the outcome should be once an event has been queued. */
  predicate Said(q: Queue, id: Id, ev: Event)
    requires Inv(q)
  {
    ev == Up || (ev != Down && Outcome(q, id))
  }

  lemma MergeOutcome(q: Queue, id: Id, ev: Event)
    requires Inv(q) && CurrentIsLast(q) && Queueable(ev)
    ensures var m := Merge(q, id, ev);
            && (Inv(m) || Ready(m))
            && m.calls == q.calls && CurrentIsLast(m)
            && (Outcome(m, id) == Said(q, id, ev) <==> !LosesDown(q, id, ev))
            && (forall j :: j != id ==> Outcome(m, j) == Outcome(q, j))
  {}

  /** Merging is right exactly when it does not lose a DOWN; the other
      interfaces are never affected. */
  lemma EnqueuedOutcome(q: Queue, id: Id, ev: Event, forks: Forks)
    requires Inv(q) && CurrentIsLast(q) && Queueable(ev)
    ensures var r := Enqueued(q, id, ev, forks);
            && CurrentIsLast(r)
            && (Outcome(r, id) == Said(q, id, ev) <==> !LosesDown(q, id, ev))
            && (forall j :: j != id ==> Outcome(r, j) == Outcome(q, j))
  {
    var m := Merge(q, id, ev);
    MergeOutcome(q, id, ev);
    if !m.taskPending && m.current.None? {
      forall j ensures Outcome(NextCall(m, forks), j) == Outcome(m, j) {
        NextCallKeepsOutcome(m, j, forks);
      }
      NextCallKeepsOutcome(m, id, forks);
    }
  }

  // ---- whole runs ---------------------------------------------------------------

  datatype Input = Emit(id: Id, ev: Event) | Exit

  function Step(q: Queue, x: Input, forks: Forks): (r: Queue)
    requires Inv(q)
    ensures Inv(r)
  {
    match x {
      case Emit(id, ev) => Deliver(q, id, ev, forks)
      case Exit => if q.taskPending then Completed(q, forks) else q
    }
  }

  function Run(xs: History<Input>, forks: Forks): (r: Queue)
    ensures Inv(r)
  {
    if xs.Nothing? then EMPTY else Step(Run(xs.before, forks), xs.last, forks)
  }

  /** The events one interface emitted. */
  function EmittedBy(xs: History<Input>, id: Id): History<Event> {
    match xs {
      case Nothing => Nothing
      case Then(before, x) =>
        if x.Emit? && x.id == id then Then(EmittedBy(before, id), x.ev) else EmittedBy(before, id)
    }
  }

  ghost predicate Disciplined(xs: History<Input>) {
    forall id {:trigger EmittedBy(xs, id)} :: LifeOf(EmittedBy(xs, id)) != Broken
  }

  /** An outcome is right if it is what the interface said last. */
  ghost predicate OutcomeRight(q: Queue, l: Life, id: Id)
    requires Inv(q)
  {
    l != Gone ==> Outcome(q, id) == (l == Active)
  }

  lemma DisciplinedBefore(xs: History<Input>)
    requires xs.Then? && Disciplined(xs)
    ensures Disciplined(xs.before)
  {
    forall id ensures LifeOf(EmittedBy(xs.before, id)) != Broken {
      assert LifeOf(EmittedBy(xs, id)) != Broken;
    }
  }

  lemma DequeueKeepsOutcome(q: Queue, id: Id, j: Id)
    requires Inv(q) && CurrentIsLast(q)
    ensures CurrentIsLast(Dequeued(q, id))
    ensures j != id ==> Outcome(Dequeued(q, id), j) == Outcome(q, j)
  {}

  lemma StepKeepsOutcome(q: Queue, x: Input, forks: Forks, l: Life, id: Id)
    requires Inv(q) && CurrentIsLast(q) && OutcomeRight(q, l, id) && l != Broken
    requires x.Emit? && x.id == id ==> Next(l, x.ev) != Broken
    ensures CurrentIsLast(Step(q, x, forks))
    ensures OutcomeRight(Step(q, x, forks), if x.Emit? && x.id == id then Next(l, x.ev) else l, id)
  {
    match x {
      case Exit =>
        if q.taskPending {
          NextCallKeepsOutcome(q.(current := None, taskPending := false), id, forks);
        }
      case Emit(i, ev) =>
        match ev {
          case Up => EnqueuedOutcome(q, i, ev, forks);
          case Down => EnqueuedOutcome(q, i, ev, forks);
          case Update => EnqueuedOutcome(q, i, ev, forks);
          case Free => DequeueKeepsOutcome(q, i, id);
          case LinkUp =>
          case Reload =>
        }
    }
  }

  /** Merging never changes the outcome: over every run in which each interface
      keeps to the order of events, what the last handed-out UP or DOWN of an
      interface is or will be is what it last said. */
  lemma {:induction false} CoalescingKeepsOutcome(xs: History<Input>, forks: Forks, id: Id)
    requires Disciplined(xs)
    ensures CurrentIsLast(Run(xs, forks))
    ensures OutcomeRight(Run(xs, forks), LifeOf(EmittedBy(xs, id)), id)
  {
    if xs.Then? {
      DisciplinedBefore(xs);
      CoalescingKeepsOutcome(xs.before, forks, id);
      assert LifeOf(EmittedBy(xs, id)) != Broken;
      StepKeepsOutcome(Run(xs.before, forks), xs.last, forks, LifeOf(EmittedBy(xs.before, id)), id);
    }
  }

  /** Once nothing waits, the last UP or DOWN handed out for an interface that
      still exists is the last one it emitted. */
  lemma DrainedMeansDelivered(xs: History<Input>, forks: Forks, id: Id)
    requires Disciplined(xs) && id !in Run(xs, forks).pending
    requires LifeOf(EmittedBy(xs, id)) != Gone
    ensures HandedUp(Run(xs, forks), id) == EndsUp(EmittedBy(xs, id))
  {
    CoalescingKeepsOutcome(xs, forks, id);
    assert LifeOf(EmittedBy(xs, id)) != Broken;
    ActiveIffEndsUp(EmittedBy(xs, id));
  }

  /** A run that goes on with n process exits and nothing else. */
  function WithExits(xs: History<Input>, n: nat): History<Input> {
    if n == 0 then xs else Then(WithExits(xs, n - 1), Exit)
  }

  lemma RunThen(xs: History<Input>, x: Input, forks: Forks)
    ensures Run(Then(xs, x), forks) == Step(Run(xs, forks), x, forks)
  {
    hide Step;
  }

  lemma ExitShortens(q: Queue, forks: Forks)
    requires Inv(q)
    ensures |Step(q, Exit, forks).pending| <= if q.pending == [] then 0 else |q.pending| - 1
  {}

  /** The queue does not stall: with no new events, as many process exits as
      there are waiting interfaces empty it. */
  lemma {:induction false} Drains(xs: History<Input>, forks: Forks, n: nat)
    ensures |Run(WithExits(xs, n), forks).pending| <= |Run(xs, forks).pending| - n
            || Run(WithExits(xs, n), forks).pending == []
  {
    hide Step;
    if n > 0 {
      Drains(xs, forks, n - 1);
      RunThen(WithExits(xs, n - 1), Exit, forks);
      ExitShortens(Run(WithExits(xs, n - 1), forks), forks);
    }
  }

  predicate Queued(x: Input) {
    x.Emit? && Queueable(x.ev)
  }

  function QueuedCount(xs: History<Input>): nat {
    if xs.Nothing? then 0 else QueuedCount(xs.before) + if Queued(xs.last) then 1 else 0
  }

  lemma StepCounts(q: Queue, x: Input, forks: Forks)
    requires Inv(q)
    ensures var r := Step(q, x, forks);
            Count(r.calls) + |r.pending| <= Count(q.calls) + |q.pending| + if Queued(x) then 1 else 0
  {}

  /** No call is invented: there are never more calls and waiting interfaces
      than events queued. */
  lemma {:induction false} CallsAreQueued(xs: History<Input>, forks: Forks)
    ensures Count(Run(xs, forks).calls) + |Run(xs, forks).pending| <= QueuedCount(xs)
  {
    if xs.Then? {
      CallsAreQueued(xs.before, forks);
      StepCounts(Run(xs.before, forks), xs.last, forks);
    }
  }

  /** A run in which interface 2 is being served and interface 1, whose ifup was
      handed out, has a DOWN waiting. */
  function Busy(): History<Input> {
    Then(Then(Then(Then(Nothing, Emit(1, Up)), Exit), Emit(2, Up)), Emit(1, Down))
  }

  lemma BusyState(forks: Forks)
    requires forall k :: forks(k)
    ensures Run(Busy(), forks) ==
            Queue(Some(2), Up, [1], map[1 := Down, 2 := Up], true, Then(Then(Nothing, Call(1, Up)), Call(2, Up)))
  {
    var a := Then(Nothing, Emit(1, Up));
    assert Run(a, forks) == Queue(Some(1), Up, [], map[1 := Up], true, Then(Nothing, Call(1, Up)));
    var b := Then(a, Exit);
    assert Run(b, forks) == Queue(None, Up, [], map[1 := Up], false, Then(Nothing, Call(1, Up)));
    var c := Then(b, Emit(2, Up));
    assert Run(c, forks) ==
           Queue(Some(2), Up, [], map[1 := Up, 2 := Up], true, Then(Then(Nothing, Call(1, Up)), Call(2, Up)));
    assert Run(Busy(), forks) == Step(Run(c, forks), Emit(1, Down), forks);
  }

  lemma BusyEmits(id: Id)
    ensures EmittedBy(Busy(), id) ==
            if id == 1 then Then(Then(Nothing, Up), Down) else if id == 2 then Then(Nothing, Up) else Nothing
  {
    var b := Then(Then(Nothing, Emit(1, Up)), Exit);
    assert EmittedBy(Then(Nothing, Emit(1, Up)), id) == if id == 1 then Then(Nothing, Up) else Nothing;
    assert EmittedBy(b, id) == EmittedBy(Then(Nothing, Emit(1, Up)), id);
    assert EmittedBy(Then(b, Emit(2, Up)), id) == if id == 2 then Then(EmittedBy(b, id), Up) else EmittedBy(b, id);
  }

  lemma BusyUpdated(forks: Forks)
    requires forall k :: forks(k)
    ensures Run(Then(Busy(), Emit(1, Update)), forks) ==
            Queue(Some(2), Up, [1], map[1 := Update, 2 := Up], true, Then(Then(Nothing, Call(1, Up)), Call(2, Up)))
  {
    hide Run, Busy;
    BusyState(forks);
    RunThen(Busy(), Emit(1, Update), forks);
    UpdateReplaces(Run(Busy(), forks), forks);
  }

  lemma UpdateReplaces(q: Queue, forks: Forks)
    requires Inv(q) && q.current == Some(2) && q.pending == [1] && q.hotplugEv == map[1 := Down, 2 := Up]
    ensures Step(q, Emit(1, Update), forks) == q.(hotplugEv := map[1 := Update, 2 := Up])
  {
    hide NextCall;
    assert 1 in q.pending;
    assert q.hotplugEv[1 := Update] == map[1 := Update, 2 := Up];
    assert Merge(q, 1, Update) == q.(hotplugEv := q.hotplugEv[1 := Update]);
  }

  /** Out of order it goes wrong: a DOWN followed by an UPDATE while another
      interface is being served is handed out as an update only. */
  lemma UpdateAfterDownLosesDown(forks: Forks)
    requires forall k :: forks(k)
    ensures var xs := Then(Then(Busy(), Emit(1, Update)), Exit);
            var q := Run(xs, forks);
            q.pending == [] && !EndsUp(EmittedBy(xs, 1)) && HandedUp(q, 1)
  {
    hide Run, Busy, Step;
    BusyUpdated(forks);
    BusyEmits(1);
    var c := Then(Busy(), Emit(1, Update));
    assert EmittedBy(c, 1) == Then(EmittedBy(Busy(), 1), Update);
    ExitServesFirst(Run(c, forks), forks);
    RunThen(c, Exit, forks);
  }

  lemma ExitServesFirst(q: Queue, forks: Forks)
    requires Inv(q) && q.pending != [] && forks(Count(q.calls))
    ensures Step(q, Exit, forks) == Started(q).(taskPending := true)
  {}

  // ---- freed interfaces -----------------------------------------------------------

  /** Freeing an interface changes what will have been handed out last exactly if
      a waiting UP or DOWN would have changed it. */
  lemma DequeuedOutcome(q: Queue, id: Id)
    requires Inv(q)
    ensures Outcome(Dequeued(q, id), id) == Outcome(q, id) <==>
            !(id in q.pending && q.hotplugEv[id] != Update && (q.hotplugEv[id] == Up) != HandedUp(q, id))
  {}

  /** The run up to the FREE of an interface. */
  function BeforeFree(xs: History<Input>, id: Id): (r: History<Input>)
    requires LifeOf(EmittedBy(xs, id)) == Gone
    ensures Began(r, xs)
  {
    if xs.last == Emit(id, Free) then xs.before else BeforeFree(xs.before, id)
  }

  /** A DOWN waits for an interface whose last handed-out event was UP. */
  predicate DownWaits(q: Queue, id: Id)
    requires Inv(q)
  {
    id in q.pending && q.hotplugEv[id] == Down && HandedUp(q, id)
  }

  /** An interface that does not wait is left alone. */
  lemma {:induction false} NextCallSkips(q: Queue, id: Id, forks: Forks)
    requires Ready(q) && id !in q.pending
    ensures var r := NextCall(q, forks); id !in r.pending && HandedTo(r.calls, id) == HandedTo(q.calls, id)
    decreases |q.pending|
  {
    if q.pending != [] {
      StartedKeepsOutcome(q, id);
      if !forks(Count(q.calls)) {
        NextCallSkips(Started(q).(current := None), id, forks);
      }
    }
  }

  lemma StepSkips(q: Queue, x: Input, id: Id, forks: Forks)
    requires Inv(q) && id !in q.pending && (x.Emit? ==> x.id != id)
    ensures var r := Step(q, x, forks); id !in r.pending && HandedTo(r.calls, id) == HandedTo(q.calls, id)
  {
    hide NextCall, HandedTo;
    match x {
      case Exit =>
        if q.taskPending { NextCallSkips(q.(current := None, taskPending := false), id, forks); }
      case Emit(i, ev) =>
        if Queueable(ev) {
          var m := Merge(q, i, ev);
          if !m.taskPending && m.current.None? { NextCallSkips(m, id, forks); }
        } else if ev == Free {
        }
    }
  }

  lemma {:induction false} NothingAfterFree(xs: History<Input>, forks: Forks, id: Id)
    requires Disciplined(xs) && LifeOf(EmittedBy(xs, id)) == Gone
    ensures id !in Run(xs, forks).pending
    ensures HandedTo(Run(xs, forks).calls, id) == HandedTo(Run(BeforeFree(xs, id), forks).calls, id)
  {
    hide Step, HandedTo;
    var q := Run(xs.before, forks);
    if xs.last == Emit(id, Free) {
      assert Step(q, xs.last, forks) == Dequeued(q, id) by { FreeStep(q, id, forks); }
    } else {
      DisciplinedBefore(xs);
      NothingAfterFree(xs.before, forks, id);
      StepSkips(q, xs.last, id, forks);
    }
  }

  lemma FreeStep(q: Queue, id: Id, forks: Forks)
    requires Inv(q)
    ensures Step(q, Emit(id, Free), forks) == Dequeued(q, id)
  {}

  lemma {:induction false} BeganDisciplined(ys: History<Input>, xs: History<Input>)
    requires Disciplined(xs) && Began(ys, xs)
    ensures Disciplined(ys)
  {
    if ys != xs {
      DisciplinedBefore(xs);
      BeganDisciplined(ys, xs.before);
    }
  }

  lemma {:induction false} IdleBeforeFree(xs: History<Input>, id: Id)
    requires LifeOf(EmittedBy(xs, id)) == Gone
    ensures LifeOf(EmittedBy(BeforeFree(xs, id), id)) == Idle
  {
    if xs.last != Emit(id, Free) { IdleBeforeFree(xs.before, id); }
  }

  /** For an interface that was freed, the last UP or DOWN handed out is the last
      one it emitted exactly if no DOWN was waiting after a handed-out UP when
      FREE came; the free drops that DOWN for good. */
  lemma FreedMeansDeliveredIff(xs: History<Input>, forks: Forks, id: Id)
    requires Disciplined(xs) && LifeOf(EmittedBy(xs, id)) == Gone
    ensures HandedUp(Run(xs, forks), id) == EndsUp(EmittedBy(xs, id)) <==>
            !DownWaits(Run(BeforeFree(xs, id), forks), id)
  {
    hide Run, BeforeFree;
    var b := BeforeFree(xs, id);
    NothingAfterFree(xs, forks, id);
    BeganDisciplined(b, xs);
    IdleBeforeFree(xs, id);
    CoalescingKeepsOutcome(b, forks, id);
    ActiveIffEndsUp(EmittedBy(xs, id));
  }

  /** It happens in a run that is in order. */
  lemma FreeLosesDown(forks: Forks)
    requires forall k :: forks(k)
    ensures var xs := Then(Busy(), Emit(1, Free));
            var q := Run(xs, forks);
            Disciplined(xs) && q.pending == [] && HandedUp(q, 1) && !EndsUp(EmittedBy(xs, 1))
  {
    hide Run, Busy, Step;
    BusyState(forks);
    var xs := Then(Busy(), Emit(1, Free));
    RunThen(Busy(), Emit(1, Free), forks);
    FreeStep(Run(Busy(), forks), 1, forks);
    forall id ensures LifeOf(EmittedBy(xs, id)) != Broken {
      BusyEmits(id);
      assert EmittedBy(xs, id) == if id == 1 then Then(EmittedBy(Busy(), 1), Free) else EmittedBy(Busy(), id);
    }
    BusyEmits(1);
  }

  // ---- the queue as the daemon keeps it ---------------------------------------------

  class EventQueue {
    var current: Option<Id>
    var currentEv: Event
    var pending: seq<Id>
    var hotplugEv: map<Id, Event>
    var taskPending: bool
    var calls: History<Call>

    /** The state as one value. */
    function View(): Queue
      reads this
    {
      Queue(current, currentEv, pending, hotplugEv, taskPending, calls)
    }

    constructor ()
      ensures View() == EMPTY
    {
      current, currentEv, pending, hotplugEv, taskPending, calls := None, Down, [], map[], false, Nothing;
    }

    method RunCmd(id: Id, ev: Event, forks: Forks)
      requires current == Some(id) && currentEv == ev
      requires Ready(View().(current := None))
      modifies this
      ensures Inv(View())
      ensures var q := old(View()).(calls := Then(old(calls), Call(id, ev)));
              View() == if forks(Count(old(calls))) then q.(taskPending := true)
                        else NextCall(q.(current := None), forks)
      decreases |pending|, 2
    {
      var started := forks(Count(calls));
      calls := Then(calls, Call(id, ev));
      if !started {
        TaskComplete(forks);
        return;
      }
      taskPending := true;
    }

    method CallHotplug(forks: Forks)
      requires Ready(View())
      modifies this
      ensures View() == NextCall(old(View()), forks)
      decreases |pending|, 0
    {
      if pending == [] {
        return;
      }
      current := Some(pending[0]);
      currentEv := hotplugEv[pending[0]];
      pending := pending[1..];
      RunCmd(current.value, currentEv, forks);
    }

    method TaskComplete(forks: Forks)
      requires Ready(View().(current := None))
      modifies this
      ensures View() == NextCall(old(View()).(current := None), forks)
      decreases |pending|, 1
    {
      current := None;
      CallHotplug(forks);
    }

    /** The event loop reports the end of the running process. */
    method ProcessExit(forks: Forks)
      requires Inv(View()) && taskPending
      modifies this
      ensures View() == Completed(old(View()), forks)
    {
      taskPending := false;
      TaskComplete(forks);
    }

    method QueueEvent(id: Id, ev: Event, forks: Forks)
      requires Inv(View())
      requires Queueable(ev) || ev == LinkUp
      modifies this
      ensures View() == Deliver(old(View()), id, ev, forks)
    {
      if ev == LinkUp {
        return;
      }
      if current == Some(id) {
        if id in pending {
          if ev != Update {
            hotplugEv := hotplugEv[id := ev];
          }
        } else if ev != currentEv || ev == Update {
          hotplugEv := hotplugEv[id := ev];
          pending := pending + [id];
        }
      } else {
        if id in pending {
          if !(hotplugEv[id] == Up && ev == Update) {
            hotplugEv := hotplugEv[id := ev];
          }
        } else {
          hotplugEv := hotplugEv[id := ev];
          pending := pending + [id];
        }
      }
      if !taskPending && current.None? {
        CallHotplug(forks);
      }
    }

    method DequeueEvent(id: Id)
      requires Inv(View())
      modifies this
      ensures View() == Dequeued(old(View()), id)
    {
      if current == Some(id) {
        current := None;
      }
      pending := Without(pending, id);
    }

    method InterfaceEventCb(id: Id, ev: Event, forks: Forks)
      requires Inv(View())
      modifies this
      ensures Inv(View()) && View() == Deliver(old(View()), id, ev, forks)
    {
      match ev {
        case LinkUp => QueueEvent(id, ev, forks);
        case Up => QueueEvent(id, ev, forks);
        case Update => QueueEvent(id, ev, forks);
        case Down => QueueEvent(id, ev, forks);
        case Free => DequeueEvent(id);
        case Reload =>
      }
    }

    /** Whatever comes in: the runs of the model are the runs of the daemon. */
    method Handle(x: Input, forks: Forks)
      requires Inv(View())
      modifies this
      ensures Inv(View()) && View() == Step(old(View()), x, forks)
    {
      match x {
        case Emit(id, ev) => InterfaceEventCb(id, ev, forks);
        case Exit =>
          if taskPending { ProcessExit(forks); }
      }
    }
  }
}
