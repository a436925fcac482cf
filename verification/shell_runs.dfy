/** Whole runs of an interface: the order of its events and the end of
    every teardown. */
module ShellRuns {
  import opened Events
  import opened ShellInterface
  import opened ShellSafety

  predicate Command(x: Input) {
    x.InUp? || x.InDown? || x.InStartPending? || x.InAvailable? || x.InEnabled? || x.InLinkState? || x.InTopoChange?
  }

  predicate Change(x: Input) {
    x.InL3LinkDown? || x.InMainDev? || x.InChangeConfig? || x.InRemove? || x.InConfigInit?
  }

  lemma CommandStep(s: Iface, x: Input, e: Env)
    requires s.alive && Command(x)
    ensures x.InUp? ==> Step(s, x, e) == SetUp(s, e)
    ensures x.InDown? ==> Step(s, x, e) == SetDown(if x.all then s else s.(autostart := false), e)
    ensures x.InStartPending? ==> Step(s, x, e) == if s.available && s.autostart then SetUp(s, e) else s
    ensures x.InAvailable? ==> Step(s, x, e) == SetAvailable(s, x.b, e)
    ensures x.InEnabled? ==> Step(s, x, e) == SetEnabled(s, x.b, e)
    ensures x.InLinkState? ==> Step(s, x, e) == SetLinkState(s, x.b, e)
    ensures x.InTopoChange? ==> Step(s, x, e) == Tell(s, CmdRenew, e)
  {
    hide SetUp, SetDown, SetAvailable, SetEnabled, SetLinkState, Tell;
  }

  lemma TopoChangeKeeps(s: Iface, e: Env)
    requires Inv(s) && s.alive
    ensures Inv(Tell(s, CmdRenew, e)) && Stays(s, Tell(s, CmdRenew, e))
  {
    hide Handler;
    RenewKeeps(s.p, e);
  }

  lemma CommandKeeps(s: Iface, x: Input, e: Env)
    requires Inv(s) && s.alive && Command(x)
    ensures var t := Step(s, x, e); Inv(t) && Stays(s, t)
  {
    hide SetUp, SetDown, SetAvailable, CheckState, SetLinkState, Tell, Inv, Stays;
    StaysItself(s);
    match x {
      case InUp => SetUpKeeps(s, e);
      case InDown(all) => InDownKeeps(s, all, e);
      case InStartPending => if s.available && s.autostart { SetUpKeeps(s, e); }
      case InAvailable(b) => SetAvailableKeeps(s, b, e);
      case InEnabled(b) => SetEnabledKeeps(s, b, e);
      case InLinkState(b) => SetLinkStateKeeps(s, b, e);
      case InTopoChange => TopoChangeKeeps(s, e);
    }
  }

  lemma InDownKeeps(s: Iface, all: bool, e: Env)
    requires Inv(s) && s.alive
    ensures var t := SetDown(if all then s else s.(autostart := false), e); Inv(t) && Stays(s, t)
  {
    hide SetDown, Inv, Stays;
    var n := if all then s else s.(autostart := false);
    SettingsKeep(s, n);
    PostponedOnlyInTeardown(n);
    SetDownKeeps(n, e);
    StaysAfter(s, n, SetDown(n, e));
  }

  lemma PostponedOnlyInTeardown(s: Iface)
    requires Inv(s)
    ensures ProtoInv(s.p) && Coupled(s) && LogInv(s) && (s.st == IfsDown ==> s.configState == IfcNormal)
  {}

  lemma SetEnabledKeeps(s: Iface, b: bool, e: Env)
    requires Inv(s) && s.alive
    ensures var t := SetEnabled(s, b, e); Inv(t) && Stays(s, t)
  {
    hide CheckState, Inv, Stays;
    if s.enabled == b {
      StaysItself(s);
    } else {
      var n := s.(enabled := b);
      SettingsKeep(s, n);
      CheckStateKeeps(n, e);
      StaysAfter(s, n, CheckState(n, e));
    }
  }

  /** Whether a step lets go of a protocol whose setup script was started and
      not torn down: a reload or a removal of an interface that is down. */
  predicate Abandons(s: Iface, x: Input) {
    && s.alive && s.st == IfsDown && PhaseOf(s.p.scripts) == Opened
    && (x.InRemove? || (x.InChangeConfig? && Reloads(s, x.reload, x.autostart)))
  }

  ghost predicate Counts(s: Iface, x: Input, t: Iface) {
    Abandoned(t.p.scripts) == Abandoned(s.p.scripts) + if Abandons(s, x) then 1 else 0
  }

  lemma StaysCounts(s: Iface, x: Input, t: Iface)
    requires Stays(s, t) && !Abandons(s, x)
    ensures Handled(s, t) && Counts(s, x, t)
            && (s.st == IfsTeardown ==> t.st == IfsTeardown && t.detached == s.detached)
  {}

  lemma InRemoveKeeps(s: Iface, e: Env)
    requires Inv(s) && s.alive
    ensures var t := SetConfigState(s, IfcRemove, e);
            && Inv(t) && Handled(s, t) && Counts(s, InRemove, t)
            && (s.st == IfsTeardown ==> t.st == IfsTeardown && t.detached == s.detached)
  {
    hide SetConfigState, Inv, Handled, PhaseOf, Abandoned;
    SetConfigStateKeeps(s, IfcRemove, e);
  }

  lemma InChangeConfigKeeps(s: Iface, x: Input, e: Env)
    requires Inv(s) && s.alive && x.InChangeConfig?
    ensures var t := ChangeConfig(s, x.reload, x.autostart, x.forceLink, e);
            && Inv(t) && Handled(s, t) && Counts(s, x, t)
            && (s.st == IfsTeardown ==> t.st == IfsTeardown && t.detached == s.detached)
  {
    hide ChangeConfig, Inv, Handled, PhaseOf, Abandoned, Reloads;
    ChangeConfigKeeps(s, x.reload, x.autostart, x.forceLink, e);
  }

  lemma ChangeStep(s: Iface, x: Input, e: Env)
    requires s.alive && Change(x)
    ensures x.InL3LinkDown? ==> Step(s, x, e) == if s.p.flags.teardownOnL3LinkDown then Tell(s, CmdTeardown, e) else s
    ensures x.InMainDev? ==> Step(s, x, e) == SetMainDev(s, x.dev, e)
    ensures x.InChangeConfig? ==> Step(s, x, e) == ChangeConfig(s, x.reload, x.autostart, x.forceLink, e)
    ensures x.InRemove? ==> Step(s, x, e) == SetConfigState(s, IfcRemove, e)
    ensures x.InConfigInit? ==> Step(s, x, e) == s.(configInit := x.b)
  {
    hide Tell, SetMainDev, ChangeConfig, SetConfigState;
  }

  lemma InL3LinkDownKeeps(s: Iface, e: Env)
    requires Inv(s) && s.alive
    ensures var t := Step(s, InL3LinkDown, e); Inv(t) && Stays(s, t)
  {
    hide Tell, Inv, Stays;
    StaysItself(s);
    if s.p.flags.teardownOnL3LinkDown { TellTeardownKeeps(s, e); }
  }

  lemma InMainDevKeeps(s: Iface, dev: nat, e: Env)
    requires Inv(s) && s.alive
    ensures var t := Step(s, InMainDev(dev), e); Inv(t) && Stays(s, t)
  {
    hide SetMainDev, Inv, Stays;
    SetMainDevKeeps(s, dev, e);
  }

  lemma InConfigInitKeeps(s: Iface, b: bool, e: Env)
    requires Inv(s) && s.alive
    ensures var t := Step(s, InConfigInit(b), e); Inv(t) && Stays(s, t)
  {
    hide Inv, Stays;
    SettingsKeep(s, s.(configInit := b));
  }

  lemma ChangeKeeps(s: Iface, x: Input, e: Env)
    requires Inv(s) && s.alive && Change(x)
    ensures var t := Step(s, x, e);
            && Inv(t) && Handled(s, t) && Counts(s, x, t)
            && (s.st == IfsTeardown ==> t.st == IfsTeardown && t.detached == s.detached)
  {
    hide Step, Inv, Handled, Stays, Counts;
    ChangeStep(s, x, e);
    if x.InRemove? {
      InRemoveKeeps(s, e);
    } else if x.InChangeConfig? {
      InChangeConfigKeeps(s, x, e);
    } else {
      match x {
        case InL3LinkDown => InL3LinkDownKeeps(s, e);
        case InMainDev(dev) => InMainDevKeeps(s, dev, e);
        case InConfigInit(b) => InConfigInitKeeps(s, b, e);
      }
      StaysCounts(s, x, Step(s, x, e));
    }
  }

  predicate Exit(x: Input) {
    x.InScriptExit? || x.InProtoExit? || x.InTeardownTimer? || x.InCheckupTimer?
  }

  /** The reaction to an end, seen from the state before it. */
  ghost predicate Ended(s: Iface, t: Iface) {
    && Inv(t) && Progress(s, t) && (t.downs == s.downs ==> t.configState == s.configState)
    && Abandoned(t.p.scripts) == Abandoned(s.p.scripts)
  }

  lemma ScriptExitKeeps(s: Iface, e: Env)
    requires Inv(s) && s.alive && s.p.scriptPending
    ensures Ended(s, Step(s, InScriptExit, e))
  {
    hide TaskFinish;
    TaskFinishKeeps(s.(p := s.p.(scriptPending := false)), ScriptTask, e);
  }

  lemma ProtoExitKeeps(s: Iface, e: Env)
    requires Inv(s) && s.alive && s.p.protoPending
    ensures Ended(s, Step(s, InProtoExit, e))
  {
    hide TaskFinish;
    TaskFinishKeeps(s.(p := s.p.(protoPending := false)), ProtoTask, e);
  }

  lemma CheckupKeeps(s: Iface, e: Env)
    requires Inv(s) && s.alive && s.p.checkupTimer
    ensures Ended(s, Step(s, InCheckupTimer, e))
  {
    hide Tell;
    var t := s.(p := s.p.(checkupTimer := false));
    if !t.autostart || t.st == IfsUp {
    } else {
      TellTeardownKeeps(t, e);
    }
  }

  lemma ExitKeeps(s: Iface, x: Input, e: Env)
    requires Inv(s) && s.alive && Exit(x)
    ensures Ended(s, Step(s, x, e))
  {
    hide TaskFinish, TeardownTimeout, CheckupTimeout;
    if x == InScriptExit && s.p.scriptPending {
      ScriptExitKeeps(s, e);
    } else if x == InProtoExit && s.p.protoPending {
      ProtoExitKeeps(s, e);
    } else if x == InTeardownTimer && s.p.teardownTimer {
      TeardownTimeoutKeeps(s, e);
    } else if x == InCheckupTimer && s.p.checkupTimer {
      CheckupKeeps(s, e);
    } else {
      assert Step(s, x, e) == s;
    }
  }

  predicate Notification(x: Input) {
    x.InLink? || x.InRun? || x.InBlockRestart? || x.InSetupFailed? || x.InDependencyDown?
    || x.InSetData?
  }

  lemma NotificationStep(s: Iface, x: Input, e: Env)
    requires s.alive && Notification(x)
    ensures x.InLink? ==> Step(s, x, e) == UpdateLink(s, x.up, x.keep, x.devOk, x.updated)
    ensures x.InRun? ==> Step(s, x, e) == s.(p := RunCommand(s.p, x.argsOk, e))
    ensures x.InBlockRestart? ==> Step(s, x, e) == s.(autostart := false)
    ensures x.InSetupFailed? ==> Step(s, x, e) == SetupFail(s, e)
    ensures x.InDependencyDown? ==> Step(s, x, e) == DependencyDown(s, e)
    ensures x.InSetData? ==> Step(s, x, e) == ParseData(s, x.changed)
  {
    hide UpdateLink, RunCommand, SetupFail, DependencyDown, ParseData;
  }

  lemma InSetupFailedKeeps(s: Iface, e: Env)
    requires Inv(s) && s.alive
    ensures var t := SetupFail(s, e); Inv(t) && Stays(s, t)
  {
    hide Tell, ProtoLinkLost, Inv, Stays;
    if s.p.sm == SIdle {
      LinkLostTeardownKeeps(s, e);
    } else if s.p.sm == SSetup {
      TellTeardownKeeps(s, e);
    } else {
      StaysItself(s);
    }
  }

  lemma InSetDataKeeps(s: Iface, changed: bool)
    requires Inv(s) && s.alive
    ensures Inv(ParseData(s, changed)) && Stays(s, ParseData(s, changed))
  {
    if changed && s.st == IfsUp {
    } else {
    }
  }

  lemma InRunKeeps(s: Iface, argsOk: bool, e: Env)
    requires Inv(s) && s.alive
    ensures var t := s.(p := RunCommand(s.p, argsOk, e)); Inv(t) && Stays(s, t)
  {}

  lemma NotificationKeeps(s: Iface, x: Input, e: Env)
    requires Inv(s) && s.alive && Notification(x)
    ensures var t := Step(s, x, e); Inv(t) && Stays(s, t)
  {
    hide UpdateLink, Tell, ProtoLinkLost, SetupFail, RunCommand, ParseData, Inv, Stays;
    StaysItself(s);
    match x {
      case InLink(up, keep, devOk, updated) => UpdateLinkKeeps(s, up, keep, devOk, updated);
      case InRun(argsOk) => InRunKeeps(s, argsOk, e);
      case InBlockRestart => SettingsKeep(s, s.(autostart := false));
      case InSetupFailed => InSetupFailedKeeps(s, e);
      case InDependencyDown => LinkLostTeardownKeeps(s, e);
      case InSetData(changed) => InSetDataKeeps(s, changed);
    }
  }

  /** Every step keeps the invariant, none puts off the end of a teardown, and
      one abandons a setup script exactly if it lets go of the protocol of an
      interface that is down with that script not torn down. */
  lemma StepKeeps(s: Iface, x: Input, e: Env)
    requires Inv(s)
    ensures var t := Step(s, x, e); Inv(t) && Progress(s, t) && Counts(s, x, t)
  {
    hide Step, Inv, Stays, Handled, Ended, Progress, PhaseOf, Abandoned;
    var t := Step(s, x, e);
    if !s.alive {
      DeadStays(s, x, e);
      StaysItself(s);
      StaysIsProgress(s, t);
    } else if Command(x) {
      CommandKeeps(s, x, e);
      StaysIsProgress(s, t);
      StaysCounts(s, x, t);
    } else if Change(x) {
      ChangeKeeps(s, x, e);
      HandledIsProgress(s, t);
    } else if Exit(x) {
      ExitKeeps(s, x, e);
      EndedIsProgress(s, t);
    } else {
      NotificationKeeps(s, x, e);
      StaysIsProgress(s, t);
      StaysCounts(s, x, t);
    }
  }

  lemma HandledIsProgress(s: Iface, t: Iface)
    requires Inv(s) && Inv(t) && Handled(s, t)
    requires s.st == IfsTeardown ==> t.st == IfsTeardown && t.detached == s.detached
    ensures Progress(s, t)
  {}

  lemma EndedIsProgress(s: Iface, t: Iface)
    requires Ended(s, t)
    ensures Inv(t) && Progress(s, t) && Abandoned(t.p.scripts) == Abandoned(s.p.scripts)
  {}

  lemma DeadStays(s: Iface, x: Input, e: Env)
    requires !s.alive
    ensures Step(s, x, e) == s
  {}

  lemma {:induction false} RunKeeps(s: Iface, xs: History<Input>, e: Env)
    requires Inv(s)
    ensures Inv(Run(s, xs, e))
  {
    hide Step;
    if xs.Then? {
      RunKeeps(s, xs.before, e);
      StepKeeps(Run(s, xs.before, e), xs.last, e);
    }
  }

  /** In every state an interface can reach, the timer runs exactly while the
      protocol is aborting or tearing down, an interface in teardown has such a
      protocol, and a pending removal or reload has such an interface. */
  lemma ReachableStates(s: Iface, xs: History<Input>, e: Env)
    requires Initial(s)
    ensures Inv(Run(s, xs, e))
  {
    RunKeeps(s, xs, e);
  }

  /** The events of an interface come in order: UP and DOWN alternate, updates
      and link events lie between an UP and its DOWN, and it is up exactly if
      the last of UP and DOWN was UP. */
  lemma EventDiscipline(s: Iface, xs: History<Input>, e: Env, h: History<Event>)
    requires Initial(s) && Began(h, Run(s, xs, e).log) && h.Then?
    ensures h.last == Up || h.last == Reload || h.last == Free <==> !EndsUp(h.before)
    ensures h.last == Free ==> h == Run(s, xs, e).log && !Run(s, xs, e).alive
  {
    RunKeeps(s, xs, e);
    Alternates(Run(s, xs, e).log, h);
  }

  lemma UpIffLastEventUp(s: Iface, xs: History<Input>, e: Env)
    requires Initial(s)
    ensures var t := Run(s, xs, e); t.alive ==> (t.st == IfsUp <==> EndsUp(t.log))
    ensures LifeOf(Run(s, xs, e).log) != Broken
  {
    RunKeeps(s, xs, e);
    ActiveIffEndsUp(Run(s, xs, e).log);
  }

  // ---- teardown ends -----------------------------------------------------------------

  /** How often the teardown timer runs out in a run. */
  function Fires(xs: History<Input>): nat {
    if xs.Nothing? then 0 else Fires(xs.before) + if xs.last == InTeardownTimer then 1 else 0
  }

  lemma TimerStep(s: Iface, e: Env)
    requires Inv(s) && s.alive && Ending(s.p)
    ensures var t := Step(s, InTeardownTimer, e); t.downs > s.downs || Rank(t.p) < Rank(s.p)
  {
    hide TeardownTimeout;
    TeardownTimeoutKeeps(s, e);
  }

  /** As long as nothing is reported and the protocol is not let go of, every
      timer fire brings the end one closer. */
  lemma {:induction false} StillEnding(s: Iface, xs: History<Input>, e: Env)
    requires Inv(s) && s.alive && Ending(s.p)
    ensures var t := Run(s, xs, e);
            && t.downs >= s.downs && t.detached >= s.detached
            && (t.downs == s.downs && t.detached == s.detached ==>
                  t.alive && Ending(t.p) && Rank(t.p) + Fires(xs) <= Rank(s.p))
  {
    hide Step, Inv;
    if xs.Then? {
      var u := Run(s, xs.before, e);
      StillEnding(s, xs.before, e);
      RunKeeps(s, xs.before, e);
      StepKeeps(u, xs.last, e);
      if u.downs == s.downs && u.detached == s.detached && xs.last == InTeardownTimer {
        TimerStep(u, e);
      }
    }
  }

  /** Teardown always ends: whatever the children do, whether or not they can
      be started, and whatever else comes in, after at most two timer fires the
      protocol has reported DOWN, or was let go of because the interface itself
      was already down. */
  lemma TeardownEnds(s: Iface, xs: History<Input>, e: Env)
    requires Inv(s) && s.alive && Ending(s.p) && Fires(xs) >= 2
    ensures var t := Run(s, xs, e); t.downs > s.downs || t.detached > s.detached
  {
    StillEnding(s, xs, e);
  }

  lemma {:induction false} StillInTeardown(s: Iface, xs: History<Input>, e: Env)
    requires Inv(s) && s.alive && s.st == IfsTeardown
    ensures var t := Run(s, xs, e);
            && t.downs >= s.downs
            && (t.downs == s.downs ==> t.st == IfsTeardown && t.detached == s.detached && t.alive)
  {
    hide Step, Inv;
    if xs.Then? {
      StillInTeardown(s, xs.before, e);
      RunKeeps(s, xs.before, e);
      StepKeeps(Run(s, xs.before, e), xs.last, e);
    }
  }

  /** An interface in teardown gets its DOWN within two timer fires. */
  lemma DownFollows(s: Iface, xs: History<Input>, e: Env)
    requires Inv(s) && s.alive && s.st == IfsTeardown && Fires(xs) >= 2
    ensures Run(s, xs, e).downs > s.downs
  {
    TeardownEnds(s, xs, e);
    StillInTeardown(s, xs, e);
  }

  /** Whether an input makes the interface reload. */
  predicate Reloading(s: Iface, x: Input) {
    x.InChangeConfig? && Reloads(s, x.reload, x.autostart)
  }

  predicate NoReload(s: Iface, xs: History<Input>, e: Env) {
    xs.Then? ==> NoReload(s, xs.before, e) && !Reloading(Run(s, xs.before, e), xs.last)
  }

  lemma {:induction false} RemovalWaits(s: Iface, xs: History<Input>, e: Env)
    requires Inv(s) && s.configState == IfcRemove && NoReload(s, xs, e)
    ensures var t := Run(s, xs, e); !t.alive || (t.configState == IfcRemove && t.downs == s.downs)
  {
    hide Step, Inv;
    if xs.Then? {
      var u := Run(s, xs.before, e);
      RemovalWaits(s, xs.before, e);
      RunKeeps(s, xs.before, e);
      if u.alive { RemovalWaitsIff(u, xs.last, e); } else { DeadStays(u, xs.last, e); }
    }
  }

  /** A pending removal stays pending until the interface is gone, exactly unless
      a change of configuration makes it reload instead. */
  lemma RemovalWaitsIff(s: Iface, x: Input, e: Env)
    requires Inv(s) && s.alive && s.configState == IfcRemove
    ensures var t := Step(s, x, e);
            && (t.alive ==> (t.configState == IfcRemove <==> !Reloading(s, x)))
            && (t.alive ==> t.downs == s.downs) && (Reloading(s, x) ==> t.alive)
  {
    hide Step, Inv, Reloads;
    StepKeeps(s, x, e);
    PendingInTeardown(s);
    if Command(x) {
      CommandKeeps(s, x, e);
    } else if x.InChangeConfig? {
      ReconfiguredPending(s, x, e);
    } else if Change(x) {
      ChangeKeepsPending(s, x, e);
    } else if Exit(x) {
      ExitKeeps(s, x, e);
    } else {
      NotificationKeeps(s, x, e);
    }
  }

  lemma ReconfiguredPending(s: Iface, x: Input, e: Env)
    requires Inv(s) && s.alive && s.configState == IfcRemove && x.InChangeConfig?
    ensures var t := Step(s, x, e);
            t.alive && t.downs == s.downs && t.configState == if Reloading(s, x) then IfcReload else IfcRemove
  {
    hide Inv, Handled, Reloads, Step, SetConfigState, CheckState, Reconfigured;
    ChangeStep(s, x, e);
    PendingInTeardown(s);
    var n := Reconfigured(s, x.autostart, x.forceLink);
    ReconfiguredKeeps(s, x.autostart, x.forceLink);
    SameConfigState(s, x.autostart, x.forceLink);
    if Reloads(s, x.reload, x.autostart) {
      SetConfigStateKeeps(n, IfcReload, e);
    } else {
      hide Stays;
      if n.mainDev != NO_DEV {
        CheckStateKeeps(n, e);
        StaysPending(n, CheckState(n, e));
      } else {
      }
    }
  }

  lemma StaysPending(s: Iface, t: Iface)
    requires Stays(s, t)
    ensures t.alive == s.alive && t.downs == s.downs && t.configState == s.configState
  {}

  lemma SameConfigState(s: Iface, autostart: bool, forceLink: bool)
    ensures Reconfigured(s, autostart, forceLink).configState == s.configState
  {}

  lemma ChangeKeepsPending(s: Iface, x: Input, e: Env)
    requires Inv(s) && s.alive && s.configState == IfcRemove && Change(x) && !x.InChangeConfig?
    ensures var t := Step(s, x, e); t.configState == IfcRemove && t.downs == s.downs
  {
    hide Step, Inv;
    match x {
      case InL3LinkDown => InL3LinkDownKeeps(s, e);
      case InMainDev(dev) => InMainDevKeeps(s, dev, e);
      case InConfigInit(b) => InConfigInitKeeps(s, b, e);
      case InRemove =>
        ChangeStep(s, x, e);
        PendingInTeardown(s);
        SetConfigStateKeeps(s, IfcRemove, e);
    }
  }

  lemma PendingInTeardown(s: Iface)
    requires Inv(s) && s.configState != IfcNormal
    ensures s.st == IfsTeardown
  {}

  /** A removed interface is gone within two timer fires, unless a change of
      configuration makes it reload. */
  lemma RemovalCompletes(s: Iface, xs: History<Input>, e: Env)
    requires Inv(s) && s.alive && s.configState == IfcRemove && Fires(xs) >= 2 && NoReload(s, xs, e)
    ensures !Run(s, xs, e).alive
  {
    DownFollows(s, xs, e);
    RemovalWaits(s, xs, e);
  }

  // ---- where set-up does not get going ---------------------------------------------

  /** A set-up asks for the setup script exactly if the protocol is idle. */
  lemma SetupAskedIff(s: Iface, e: Env)
    ensures BeginSetup(s, e).p.starts == s.p.starts + (if s.p.sm == SIdle then 1 else 0)
    ensures BeginSetup(s, e).p == s.p <==> s.p.sm != SIdle
  {
    hide Handler;
    var r := Handler(s.p, CmdSetup, e);
    SetupHandlerAsksIff(s.p, e);
    if r.ok {
    } else {
    }
  }

  lemma SetupHandlerAsksIff(p: Proto, e: Env)
    ensures Handler(p, CmdSetup, e).p.starts == p.starts + (if p.sm == SIdle then 1 else 0)
    ensures Handler(p, CmdSetup, e).p == p <==> p.sm != SIdle
  {}

  lemma FailedStart(s: Iface, e: Env)
    requires s.st == IfsDown && s.p.sm == SIdle && e.start(s.p.starts) == ForkFailed
    ensures var t := BeginSetup(s, e);
            t.st == IfsDown && t.p == s.p.(sm := SSetup, starts := s.p.starts + 1, scriptPending := false,
                                           scripts := Then(s.p.scripts, SetupFailed))
            && t == s.(p := t.p, linkUpEvent := false)
  {}

  lemma SetupWithoutScript(s: Iface, e: Env)
    requires s.st == IfsDown && s.p.sm == SSetup
    ensures BeginSetup(s, e) == s.(st := IfsSetup)
  {}

  lemma UpBegins(s: Iface, e: Env)
    requires s.alive && s.st == IfsDown && s.available && s.mainDev == NO_DEV
    ensures Step(s, InUp, e) == BeginSetup(s.(autostart := true), e)
  {
    hide BeginSetup, ClaimMainDev;
  }

  /** If the setup script cannot be started the interface goes down but the
      protocol believes it is setting up: the next set-up starts nothing, arms
      nothing and leaves the interface waiting. */
  lemma FailedStartStalls(s: Iface, e: Env)
    requires Inv(s) && s.alive && s.st == IfsDown && s.p.sm == SIdle && s.available && s.mainDev == NO_DEV
    requires e.start(s.p.starts) == ForkFailed && !s.p.protoPending
    ensures var t := Step(s, InUp, e);
            var u := Step(t, InUp, e);
            && t.st == IfsDown && t.p.sm == SSetup && u.st == IfsSetup && u.p == t.p
            && !u.p.scriptPending && !u.p.protoPending && !u.p.teardownTimer
  {
    hide Step, BeginSetup;
    UpBegins(s, e);
    FailedStart(s.(autostart := true), e);
    var t := Step(s, InUp, e);
    UpBegins(t, e);
    SetupWithoutScript(t.(autostart := true), e);
  }
}
