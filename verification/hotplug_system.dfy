/** Interfaces and hotplug queue together: any number of interfaces, stepped in
    any order, with hotplug processes ending at any time in between. */
module HotplugSystem {
  import opened Events
  import S = ShellInterface
  import ShellSafety
  import ShellRuns
  import Q = HotplugQueue

  datatype Input = OnIface(id: Q.Id, x: S.Input) | HotplugExit

  /** The interfaces and what their steps and the ends of hotplug processes fed
      into the queue, in order. */
  datatype Sys = Sys(ifs: map<Q.Id, S.Iface>, fed: History<Q.Input>)

  /** The events of to that came after from, each passed on to the queue. */
  function Feed(fed: History<Q.Input>, id: Q.Id, from: History<Event>, to: History<Event>): History<Q.Input> {
    if to == from || to.Nothing? then fed
    else Then(Feed(fed, id, from, to.before), Q.Emit(id, to.last))
  }

  function Step(s: Sys, x: Input, envs: Q.Id -> S.Env): Sys {
    match x {
      case HotplugExit => s.(fed := Then(s.fed, Q.Exit))
      case OnIface(id, y) =>
        if id !in s.ifs then s
        else
          var t := S.Step(s.ifs[id], y, envs(id));
          Sys(s.ifs[id := t], Feed(s.fed, id, s.ifs[id].log, t.log))
    }
  }

  function Run(s: Sys, xs: History<Input>, envs: Q.Id -> S.Env): Sys {
    if xs.Nothing? then s else Step(Run(s, xs.before, envs), xs.last, envs)
  }

  /** The queue after it has been fed. */
  function Queue(s: Sys, forks: Q.Forks): Q.Queue {
    Q.Run(s.fed, forks)
  }

  ghost predicate Initial(s: Sys) {
    s.fed == Nothing && forall id :: id in s.ifs ==> S.Initial(s.ifs[id])
  }

  function LogOf(s: Sys, id: Q.Id): History<Event> {
    if id in s.ifs then s.ifs[id].log else Nothing
  }

  /** Every interface keeps its invariant, and the queue has been fed exactly
      the events it emitted. */
  ghost predicate Inv(s: Sys) {
    && (forall id :: id in s.ifs ==> ShellSafety.Inv(s.ifs[id]))
    && (forall id {:trigger Q.EmittedBy(s.fed, id)} :: Q.EmittedBy(s.fed, id) == LogOf(s, id))
  }

  lemma {:induction false} FeedEmits(fed: History<Q.Input>, id: Q.Id, from: History<Event>, to: History<Event>, j: Q.Id)
    requires Began(from, to) && Q.EmittedBy(fed, id) == from
    ensures Q.EmittedBy(Feed(fed, id, from, to), j) == if j == id then to else Q.EmittedBy(fed, j)
  {
    if to != from {
      FeedEmits(fed, id, from, to.before, j);
    }
  }

  lemma StepKeeps(s: Sys, x: Input, envs: Q.Id -> S.Env)
    requires Inv(s)
    ensures Inv(Step(s, x, envs))
  {
    hide S.Step, ShellSafety.Inv;
    var t := Step(s, x, envs);
    if x.OnIface? && x.id in s.ifs {
      ShellRuns.StepKeeps(s.ifs[x.id], x.x, envs(x.id));
      assert Q.EmittedBy(s.fed, x.id) == LogOf(s, x.id);
      forall j ensures Q.EmittedBy(t.fed, j) == LogOf(t, j) {
        FeedEmits(s.fed, x.id, s.ifs[x.id].log, t.ifs[x.id].log, j);
        assert Q.EmittedBy(s.fed, j) == LogOf(s, j);
      }
    } else {
      forall j ensures Q.EmittedBy(t.fed, j) == LogOf(t, j) {
        assert Q.EmittedBy(s.fed, j) == LogOf(s, j);
      }
    }
  }

  lemma {:induction false} RunKeeps(s: Sys, xs: History<Input>, envs: Q.Id -> S.Env)
    requires Initial(s)
    ensures Inv(Run(s, xs, envs))
  {
    hide Step;
    if xs.Then? {
      RunKeeps(s, xs.before, envs);
      StepKeeps(Run(s, xs.before, envs), xs.last, envs);
    }
  }

  /** What the interfaces feed into the queue is in the order it relies on. */
  lemma FedInOrder(s: Sys)
    requires Inv(s)
    ensures Q.Disciplined(s.fed)
  {
    forall id ensures LifeOf(Q.EmittedBy(s.fed, id)) != Broken {
      assert Q.EmittedBy(s.fed, id) == LogOf(s, id);
    }
  }

  /** Whenever no call is waiting for an interface that still exists, the last
      ifup or ifdown handed out for it says whether it is up: after any
      interleaving of the steps of any number of interfaces, failed starts of
      hotplug processes included. */
  lemma HotplugMatchesState(s: Sys, xs: History<Input>, envs: Q.Id -> S.Env, forks: Q.Forks, id: Q.Id)
    requires Initial(s)
    requires var t := Run(s, xs, envs); id in t.ifs && t.ifs[id].alive && id !in Queue(t, forks).pending
    ensures var t := Run(s, xs, envs); Q.HandedUp(Queue(t, forks), id) <==> t.ifs[id].st == S.IfsUp
  {
    hide Run, Q.Run;
    var t := Run(s, xs, envs);
    RunKeeps(s, xs, envs);
    FedInOrder(t);
    assert Q.EmittedBy(t.fed, id) == LogOf(t, id);
    Q.DrainedMeansDelivered(t.fed, forks, id);
    ActiveIffEndsUp(t.ifs[id].log);
  }

  /** The same with calls still waiting: what is or will be handed out last. */
  lemma HotplugWillMatchState(s: Sys, xs: History<Input>, envs: Q.Id -> S.Env, forks: Q.Forks, id: Q.Id)
    requires Initial(s)
    requires var t := Run(s, xs, envs); id in t.ifs && t.ifs[id].alive
    ensures var t := Run(s, xs, envs); Q.Outcome(Queue(t, forks), id) <==> t.ifs[id].st == S.IfsUp
  {
    hide Run, Q.Run;
    var t := Run(s, xs, envs);
    RunKeeps(s, xs, envs);
    FedInOrder(t);
    assert Q.EmittedBy(t.fed, id) == LogOf(t, id);
    Q.CoalescingKeepsOutcome(t.fed, forks, id);
  }

  /** For an interface that has been freed, the last call handed out is the
      ifdown that belongs to its last ifup exactly if that one was not still
      waiting when the interface was freed. */
  lemma FreedHotplugIff(s: Sys, xs: History<Input>, envs: Q.Id -> S.Env, forks: Q.Forks, id: Q.Id)
    requires Initial(s)
    requires var t := Run(s, xs, envs); id in t.ifs && !t.ifs[id].alive
    ensures var t := Run(s, xs, envs);
            && LifeOf(Q.EmittedBy(t.fed, id)) == Gone
            && (Q.HandedUp(Queue(t, forks), id) <==> Q.DownWaits(Q.Run(Q.BeforeFree(t.fed, id), forks), id))
  {
    hide Run, Q.Run, Q.BeforeFree;
    var t := Run(s, xs, envs);
    RunKeeps(s, xs, envs);
    FedInOrder(t);
    assert Q.EmittedBy(t.fed, id) == LogOf(t, id);
    Q.FreedMeansDeliveredIff(t.fed, forks, id);
    ActiveIffEndsUp(t.ifs[id].log);
  }
}
