/** What every run of an interface keeps. */
module ShellSafety {
  import opened Events
  import opened ShellInterface

  /** Setup and teardown scripts; letting go of the protocol closes as well. */
  datatype Phase = Closed | Opened | Wrong

  function NextPhase(p: Phase, c: Script): Phase {
    match c {
      case Setup => if p == Closed then Opened else Wrong
      case SetupFailed => if p == Closed then Closed else Wrong
      case Teardown => if p == Wrong then Wrong else Closed
      case Renew => p
      case LetGo => if p == Wrong then Wrong else Closed
    }
  }

  function PhaseOf(cs: History<Script>): Phase {
    if cs.Nothing? then Closed else NextPhase(PhaseOf(cs.before), cs.last)
  }

  /** How often a protocol was let go of with a started setup script that had
      not been torn down. */
  function Abandoned(cs: History<Script>): nat {
    if cs.Nothing? then 0
    else Abandoned(cs.before) + if cs.last == LetGo && PhaseOf(cs.before) == Opened then 1 else 0
  }

  /** What the protocol keeps: the teardown timer runs exactly while something
      is being ended, an abort waits for at least one process, and a started
      setup script is torn down before the next one is asked for. */
  predicate ProtoInv(p: Proto) {
    && (p.teardownTimer <==> Ending(p))
    && (p.sm == SSetupAbort ==> p.scriptPending || p.protoPending)
    && PhaseOf(p.scripts) != Wrong
    && (PhaseOf(p.scripts) == Opened ==> p.sm != STeardown)
  }

  function LifeFor(s: Iface): Life {
    if !s.alive then Gone else if s.st == IfsUp then Active else Idle
  }

  predicate LogInv(s: Iface) {
    LifeOf(s.log) == LifeFor(s)
  }

  /** An interface in teardown is being ended; one that is down with nothing
      being ended has no started setup script left to tear down. */
  predicate Coupled(s: Iface) {
    && (s.st == IfsTeardown ==> Ending(s.p))
    && (PhaseOf(s.p.scripts) == Opened && s.st == IfsDown ==> Ending(s.p))
  }

  /** A postponed reload or removal waits for a teardown that is under way. */
  predicate ConfigInv(s: Iface) {
    s.configState != IfcNormal ==> s.st == IfsTeardown
  }

  predicate Inv(s: Iface) {
    ProtoInv(s.p) && Coupled(s) && ConfigInv(s) && LogInv(s)
  }

  /** A step that neither reports DOWN nor lets go of the protocol leaves what
      is being ended, and a teardown, as it is. */
  ghost predicate Stays(s: Iface, t: Iface) {
    && t.alive == s.alive && t.downs == s.downs && t.detached == s.detached && t.configState == s.configState
    && (Ending(s.p) ==> t.p.sm == s.p.sm)
    && (s.st == IfsTeardown ==> t.st == IfsTeardown)
    && Began(s.log, t.log) && Abandoned(t.p.scripts) == Abandoned(s.p.scripts)
  }

  /** A step that may let go of the protocol, but reports nothing. */
  ghost predicate Handled(s: Iface, t: Iface) {
    && t.downs == s.downs && t.detached >= s.detached
    && (t.detached == s.detached ==> t.alive == s.alive && (Ending(s.p) ==> t.p.sm == s.p.sm))
    && Began(s.log, t.log)
  }

  /** One more protocol let go of with its setup script not torn down, if so. */
  ghost predicate LeavesSetUp(s: Iface, t: Iface) {
    Abandoned(t.p.scripts) == Abandoned(s.p.scripts) + if PhaseOf(s.p.scripts) == Opened then 1 else 0
  }

  /** Settings aside, the same interface. */
  ghost predicate SameRun(s: Iface, n: Iface) {
    && n.p == s.p && n.st == s.st && n.log == s.log && n.alive == s.alive && n.downs == s.downs
    && n.detached == s.detached
  }

  /** Whether what was postponed has been done. */
  predicate CarriedOut(c: ConfigState, s: Iface, t: Iface) {
    && (c == IfcRemove ==> !t.alive)
    && (c == IfcReload ==> t.detached > s.detached)
  }

  function Rank(p: Proto): nat {
    match p.sm {
      case SSetupAbort => 2
      case STeardown => 1
      case _ => 0
    }
  }

  /** How far the end of a teardown can be put off by one step: not at all. */
  ghost predicate Progress(s: Iface, t: Iface) {
    && t.downs >= s.downs && t.detached >= s.detached
    && (t.downs == s.downs && t.detached == s.detached && Ending(s.p) ==>
          t.alive == s.alive && Ending(t.p) && Rank(t.p) <= Rank(s.p))
    && (s.st == IfsTeardown && t.downs == s.downs ==>
          t.st == IfsTeardown && t.detached == s.detached && t.alive == s.alive)
    && (s.st == IfsTeardown && t.downs > s.downs ==> CarriedOut(s.configState, s, t))
    && Began(s.log, t.log)
  }

  lemma StaysItself(s: Iface)
    ensures Stays(s, s)
  {}

  lemma HandledFrom(s: Iface, n: Iface, t: Iface)
    requires SameRun(s, n) && Handled(n, t)
    ensures Handled(s, t) && (LeavesSetUp(n, t) ==> LeavesSetUp(s, t))
  {}

  lemma StaysFrom(s: Iface, n: Iface, t: Iface)
    requires SameRun(s, n) && Stays(n, t)
    ensures Handled(s, t) && (s.st == IfsTeardown ==> t.st == IfsTeardown && t.detached == s.detached)
    ensures Abandoned(t.p.scripts) == Abandoned(s.p.scripts)
  {}

  lemma StaysAfter(s: Iface, n: Iface, t: Iface)
    requires SameRun(s, n) && n.configState == s.configState && Stays(n, t)
    ensures Stays(s, t)
  {}

  lemma SettingsKeep(s: Iface, n: Iface)
    requires Inv(s) && SameRun(s, n) && n.configState == s.configState
    ensures Inv(n) && Stays(s, n)
  {}

  // ---- the protocol --------------------------------------------------------------

  /** After asking for a teardown the protocol is ending, whether or not the
      script could be started. */
  lemma TeardownKeeps(p: Proto, e: Env)
    requires ProtoInv(p)
    ensures var q := Handler(p, CmdTeardown, e).p;
            && ProtoInv(q) && Ending(q) && (Ending(p) ==> q == p) && (p.sm == SIdle ==> q.sm == STeardown)
            && Abandoned(q.scripts) == Abandoned(p.scripts)
  {
  }

  lemma RenewKeeps(p: Proto, e: Env)
    requires ProtoInv(p)
    ensures var q := Handler(p, CmdRenew, e).p;
            && ProtoInv(q) && q.sm == p.sm && PhaseOf(q.scripts) == PhaseOf(p.scripts)
            && Abandoned(q.scripts) == Abandoned(p.scripts)
  {
  }

  lemma SetupKeeps(p: Proto, e: Env)
    requires ProtoInv(p) && (PhaseOf(p.scripts) == Opened ==> Ending(p))
    ensures var r := Handler(p, CmdSetup, e);
            && ProtoInv(r.p) && (PhaseOf(r.p.scripts) == Opened ==> r.ok || Ending(r.p)) && (Ending(p) ==> r.p == p)
            && Abandoned(r.p.scripts) == Abandoned(p.scripts)
  {
  }

  lemma ScriptDoneKeeps(p: Proto, e: Env)
    requires ProtoInv(p) && !Ending(p)
    ensures var q := ScriptDone(p, e);
            && ProtoInv(q) && (PhaseOf(q.scripts) == Opened ==> PhaseOf(p.scripts) == Opened)
            && Abandoned(q.scripts) == Abandoned(p.scripts)
  {
    if p.renewPending {
      RenewKeeps(p, e);
    } else {
      TeardownKeeps(p, e);
    }
  }

  // ---- the interface ---------------------------------------------------------------

  lemma MarkDownKeeps(s: Iface)
    requires LogInv(s) && s.alive
    ensures var t := MarkDown(s);
            LogInv(t) && t.st == IfsDown && t.alive && t.p == s.p && t.configState == s.configState
            && Began(s.log, t.log)
  {
  }

  lemma SetDownKeeps(s: Iface, e: Env)
    requires ProtoInv(s.p) && Coupled(s) && LogInv(s) && s.alive
    requires s.st == IfsDown ==> s.configState == IfcNormal
    ensures Inv(SetDown(s, e)) && Stays(s, SetDown(s, e))
  {
    if s.st == IfsUp {
      TeardownKeeps(s.p, e);
    } else if s.st == IfsSetup {
      TeardownKeeps(s.p, e);
    } else {
    }
  }

  lemma BeginSetupKeeps(s: Iface, e: Env)
    requires Inv(s) && s.alive && s.st == IfsDown
    ensures Inv(BeginSetup(s, e)) && Stays(s, BeginSetup(s, e))
  {
    SetupKeeps(s.p, e);
    MarkDownKeeps(Tell(s.(st := IfsSetup), CmdSetup, e));
  }

  lemma CheckStateKeeps(s: Iface, e: Env)
    requires Inv(s) && s.alive
    ensures Inv(CheckState(s, e)) && Stays(s, CheckState(s, e))
  {
    hide BeginSetup, Handler;
    if s.st == IfsDown {
      BeginSetupKeeps(s, e);
    } else {
      TeardownKeeps(s.p, e);
      MarkDownKeeps(Tell(s, CmdTeardown, e));
    }
  }

  lemma SetLinkStateKeeps(s: Iface, b: bool, e: Env)
    requires Inv(s) && s.alive
    ensures Inv(SetLinkState(s, b, e)) && Stays(s, SetLinkState(s, b, e))
  {
    hide CheckState;
    if s.linkState == b {
    } else {
      var t := s.(linkState := b);
      CheckStateKeeps(t, e);
      var c := CheckState(t, e);
      if b && c.forceLink && c.st == IfsUp && !c.linkUpEvent {
        assert Inv(Emit(c, LinkUp).(linkUpEvent := true));
      } else {
      }
    }
  }

  lemma ClaimMainDevKeeps(s: Iface, e: Env)
    requires Inv(s) && s.alive
    ensures Inv(ClaimMainDev(s, e)) && Stays(s, ClaimMainDev(s, e))
  {
    hide CheckState;
    var c := s.(claims := s.claims + 1);
    if e.claim(s.claims) {
      CheckStateKeeps(c, e);
    } else {
    }
  }

  lemma SetUpKeeps(s: Iface, e: Env)
    requires Inv(s) && s.alive
    ensures Inv(SetUp(s, e)) && Stays(s, SetUp(s, e))
  {
    hide BeginSetup, ClaimMainDev;
    var a := s.(autostart := true);
    if a.st != IfsDown || !a.available {
    } else if a.mainDev == NO_DEV {
      BeginSetupKeeps(a, e);
    } else {
      ClaimMainDevKeeps(a, e);
    }
  }

  lemma SetAvailableKeeps(s: Iface, b: bool, e: Env)
    requires Inv(s) && s.alive
    ensures Inv(SetAvailable(s, b, e)) && Stays(s, SetAvailable(s, b, e))
  {
    hide SetUp, SetDown;
    if b {
      SetUpKeeps(s.(available := b), e);
    } else {
      SetDownKeeps(s.(available := b), e);
    }
  }

  lemma SetMainDevKeeps(s: Iface, dev: nat, e: Env)
    requires Inv(s) && s.alive
    ensures Inv(SetMainDev(s, dev, e)) && Stays(s, SetMainDev(s, dev, e))
  {
    hide SetAvailable, SetLinkState, Inv, Stays;
    if s.mainDev == dev {
      StaysItself(s);
    } else {
      SetAvailableKeeps(s, false, e);
      var u := SetAvailable(s, false, e);
      var a := u.(mainDev := dev);
      SettingsKeep(u, a);
      StaysOn(s, u, a);
      if dev != NO_DEV {
      } else {
        SetLinkStateKeeps(a, false, e);
        StaysOn(s, a, SetLinkState(a, false, e));
      }
    }
  }

  lemma StaysOn(s: Iface, u: Iface, t: Iface)
    requires Stays(s, u) && Stays(u, t)
    ensures Stays(s, t) && (s.alive ==> t.alive)
  {
    BeganTransitive(s.log, u.log, t.log);
  }

  /** A change of configuration is carried out while the interface is down. */
  predicate DownInv(s: Iface) {
    ProtoInv(s.p) && Coupled(s) && LogInv(s) && s.alive && s.st == IfsDown
  }

  lemma DoReloadKeeps(s: Iface, e: Env)
    requires DownInv(s)
    ensures var t := DoReload(s, e);
            LeavesSetUp(s, t) && PhaseOf(t.p.scripts) == Closed && DownInv(t)
            && t.configState == s.configState && t.downs == s.downs && t.detached == s.detached + 1
            && Began(s.log, t.log)
  {}

  lemma DoFreeKeeps(s: Iface)
    requires DownInv(s) && s.configState == IfcNormal
    ensures var t := DoFree(s);
            && Inv(t) && !t.alive && t.detached == s.detached + 1 && Handled(s, t) && LeavesSetUp(s, t)
  {}

  lemma ReloadedKeeps(n: Iface, e: Env)
    requires DownInv(n) && n.configState == IfcNormal
    ensures var t := GoOn(DoReload(n, e), e); Inv(t) && Handled(n, t) && t.detached > n.detached && LeavesSetUp(n, t)
  {
    hide GoOn, DoReload, ProtoInv, Coupled, LogInv, PhaseOf, Abandoned;
    DoReloadKeeps(n, e);
    var r := DoReload(n, e);
    GoOnKeeps(r, e);
    BeganTransitive(n.log, r.log, GoOn(r, e).log);
  }

  lemma HandleConfigChangeKeeps(s: Iface, e: Env)
    requires DownInv(s)
    ensures var t := HandleConfigChange(s, e);
            && Inv(t) && Handled(s, t) && CarriedOut(s.configState, s, t)
            && (s.configState != IfcNormal || PhaseOf(s.p.scripts) == Closed ==> LeavesSetUp(s, t))
  {
    hide GoOn, DoReload, DoFree, Inv, DownInv, PhaseOf, Abandoned, Handled, LeavesSetUp;
    var n := s.(configState := IfcNormal);
    Postponed(s);
    match s.configState {
      case IfcRemove =>
        DoFreeKeeps(n);
        HandledFrom(s, n, DoFree(n));
      case IfcReload =>
        ReloadedKeeps(n, e);
        HandledFrom(s, n, GoOn(DoReload(n, e), e));
      case IfcNormal =>
        GoOnKeeps(n, e);
        HandledFrom(s, n, GoOn(n, e));
    }
  }

  lemma Postponed(s: Iface)
    requires DownInv(s)
    ensures DownInv(s.(configState := IfcNormal))
  {}

  lemma GoOnKeeps(r: Iface, e: Env)
    requires DownInv(r) && r.configState == IfcNormal
    ensures var t := GoOn(r, e);
            && Inv(t) && Handled(r, t)
            && (PhaseOf(r.p.scripts) == Closed ==> LeavesSetUp(r, t))
  {
    hide SetUp, DoFree, ProtoInv, Coupled, LogInv, PhaseOf, Abandoned;
    if r.autostart && r.available {
      SetUpKeeps(r, e);
    } else if r.isDynamic {
      DoFreeKeeps(r);
      RemovedAtOnce(r, e);
    } else {
    }
  }

  lemma RemovedAtOnce(r: Iface, e: Env)
    requires r.st == IfsDown && r.configState == IfcNormal
    ensures SetConfigState(r, IfcRemove, e) == DoFree(r)
  {
    hide DoFree;
  }

  lemma SetDownInTeardown(s: Iface, e: Env)
    ensures s.st == IfsTeardown ==> SetDown(s, e) == s
  {
    hide Handler, Tell;
  }

  lemma SetConfigStateKeeps(s: Iface, c: ConfigState, e: Env)
    requires Inv(s) && s.alive && c != IfcNormal
    ensures var t := SetConfigState(s, c, e);
            && Inv(t) && Handled(s, t) && (s.st == IfsTeardown ==> t == s.(configState := c))
            && (if s.st == IfsDown then LeavesSetUp(s, t) else Abandoned(t.p.scripts) == Abandoned(s.p.scripts))
  {
    hide HandleConfigChange, SetDown;
    var n := s.(configState := c);
    if n.st == IfsDown {
      HandleConfigChangeKeeps(n, e);
    } else {
      SetDownKeeps(n, e);
      SetDownInTeardown(n, e);
    }
  }

  lemma ProtoDownKeeps(s: Iface, e: Env)
    requires ProtoInv(s.p) && LogInv(s) && s.alive && s.p.sm == SIdle && PhaseOf(s.p.scripts) != Opened
    requires s.st == IfsDown ==> s.configState == IfcNormal
    ensures var t := ProtoDown(s, e);
            && Inv(t) && t.downs == s.downs + 1 && t.detached >= s.detached && CarriedOut(s.configState, s, t)
            && Began(s.log, t.log) && Abandoned(t.p.scripts) == Abandoned(s.p.scripts)
  {
    hide HandleConfigChange;
    var d := s.(downs := s.downs + 1);
    if d.st == IfsDown {
    } else {
      MarkDownKeeps(d);
      HandleConfigChangeKeeps(MarkDown(d), e);
      BeganTransitive(s.log, MarkDown(d).log, HandleConfigChange(MarkDown(d), e).log);
    }
  }

  lemma ProtoLinkLostKeeps(s: Iface)
    requires Inv(s) && s.alive
    ensures var t := ProtoLinkLost(s);
            Inv(t) && t.p == s.p && t.st != IfsUp && Stays(s, t)
  {
    if s.st != IfsUp {
    } else {
    }
  }

  lemma TellTeardownKeeps(s: Iface, e: Env)
    requires Inv(s) && s.alive
    ensures Inv(Tell(s, CmdTeardown, e)) && Stays(s, Tell(s, CmdTeardown, e))
  {
    hide Handler;
    TeardownKeeps(s.p, e);
  }

  lemma LinkLostTeardownKeeps(s: Iface, e: Env)
    requires Inv(s) && s.alive
    ensures Inv(Tell(ProtoLinkLost(s), CmdTeardown, e)) && Stays(s, Tell(ProtoLinkLost(s), CmdTeardown, e))
  {
    hide Handler, ProtoLinkLost;
    ProtoLinkLostKeeps(s);
    TellTeardownKeeps(ProtoLinkLost(s), e);
  }

  /** When a process has ended or the timer has run out, and before the reaction
      to it, there may be nothing left to wait for. */
  predicate AlmostInv(s: Iface) {
    && (s.p.teardownTimer ==> Ending(s.p))
    && (Ending(s.p) ==> s.p.teardownTimer || !(s.p.scriptPending || s.p.protoPending))
    && PhaseOf(s.p.scripts) != Wrong && (PhaseOf(s.p.scripts) == Opened ==> s.p.sm != STeardown)
    && Coupled(s) && ConfigInv(s) && LogInv(s) && s.alive
  }

  lemma ScriptDoneStep(s: Iface, e: Env)
    requires Inv(s) && s.alive && !Ending(s.p)
    ensures var t := s.(p := ScriptDone(s.p, e)); Inv(t) && Stays(s, t)
  {
    hide ScriptDone;
    ScriptDoneKeeps(s.p, e);
  }

  lemma AbortDone(s: Iface, e: Env)
    requires AlmostInv(s) && s.p.sm == SSetupAbort
    ensures var t := Tell(s.(p := Settled(s.p)), CmdTeardown, e);
            && Inv(t) && Progress(s, t) && Rank(t.p) == 1 && t.configState == s.configState
            && Abandoned(t.p.scripts) == Abandoned(s.p.scripts)
  {
    hide Handler;
    TeardownKeeps(Settled(s.p), e);
  }

  lemma TaskFinishKeeps(s: Iface, task: Task, e: Env)
    requires AlmostInv(s)
    ensures var t := TaskFinish(s, task, e);
            && Inv(t) && Progress(s, t) && (t.downs == s.downs ==> t.configState == s.configState)
            && Abandoned(t.p.scripts) == Abandoned(s.p.scripts)
            && (Ending(s.p) && !(s.p.scriptPending || s.p.protoPending) ==> t.downs > s.downs || Rank(t.p) < Rank(s.p))
  {
    hide ProtoDown, Handler, Tell, ScriptDone, ProtoLinkLost, Settled;
    if s.p.sm == SSetupAbort {
      if s.p.scriptPending || s.p.protoPending {
        assert TaskFinish(s, task, e) == s;
      } else {
        AbortDone(s, e);
      }
    } else if s.p.sm == STeardown {
      if s.p.scriptPending || s.p.protoPending {
        assert TaskFinish(s, task, e) == s;
      } else {
        TeardownDone(s, e);
      }
    } else {
      ActiveTaskFinishKeeps(s, task, e);
    }
  }

  lemma ActiveTaskFinishKeeps(s: Iface, task: Task, e: Env)
    requires Inv(s) && s.alive && !Ending(s.p)
    ensures var t := TaskFinish(s, task, e);
            && Inv(t) && Progress(s, t) && t.configState == s.configState
            && Abandoned(t.p.scripts) == Abandoned(s.p.scripts)
  {
    hide Handler, Tell, ScriptDone, ProtoLinkLost;
    if task == ScriptTask {
      ScriptDoneStep(s, e);
    } else if task == ProtoTask {
      if s.p.sm == SIdle {
        LinkLostTeardownKeeps(s, e);
      } else {
        TellTeardownKeeps(s, e);
      }
    } else {
      assert TaskFinish(s, task, e) == s;
    }
  }

  lemma TeardownDone(s: Iface, e: Env)
    requires AlmostInv(s) && s.p.sm == STeardown
    ensures var t := ProtoDown(s.(p := Settled(s.p)), e);
            Inv(t) && Progress(s, t) && t.downs > s.downs && Abandoned(t.p.scripts) == Abandoned(s.p.scripts)
  {
    hide ProtoDown;
    ProtoDownKeeps(s.(p := Settled(s.p)), e);
  }

  // ---- steps and runs --------------------------------------------------------------

  lemma StaysIsProgress(s: Iface, t: Iface)
    requires Inv(s) && Stays(s, t)
    ensures Progress(s, t)
  {}

  lemma UpdateLinkKeeps(s: Iface, up: bool, keep: bool, devOk: bool, updated: bool)
    requires Inv(s) && s.alive
    ensures var t := UpdateLink(s, up, keep, devOk, updated); Inv(t) && Stays(s, t)
  {
    hide ProtoLinkLost;
    if Ending(s.p) {
    } else if !up {
      ProtoLinkLostKeeps(s);
    } else if !(keep && s.st == IfsUp) && !devOk {
    } else {
      ProtoUpKeeps(s, updated);
    }
  }

  lemma ProtoUpKeeps(s: Iface, updated: bool)
    requires Inv(s) && s.alive && !Ending(s.p)
    ensures var t := ProtoUp(s, updated).(p := s.p.(sm := SIdle)); Inv(t) && Stays(s, t)
  {
  }

  lemma ReconfiguredKeeps(s: Iface, autostart: bool, forceLink: bool)
    requires Inv(s)
    ensures var n := Reconfigured(s, autostart, forceLink); Inv(n) && SameRun(s, n) && n.mainDev == s.mainDev
  {
    hide Inv;
    SettingsKeep(s, Reconfigured(s, autostart, forceLink));
  }

  lemma ChangeConfigKeeps(s: Iface, reload: bool, autostart: bool, forceLink: bool, e: Env)
    requires Inv(s) && s.alive
    ensures var t := ChangeConfig(s, reload, autostart, forceLink, e);
            && Inv(t) && Handled(s, t) && (s.st == IfsTeardown ==> t.st == IfsTeardown && t.detached == s.detached)
            && (if s.st == IfsDown && Reloads(s, reload, autostart) then LeavesSetUp(s, t)
                else Abandoned(t.p.scripts) == Abandoned(s.p.scripts))
  {
    hide SetConfigState, CheckState, Inv, PhaseOf, Abandoned, Reconfigured, Reloads, Handled, Stays, LeavesSetUp;
    var n := Reconfigured(s, autostart, forceLink);
    ReconfiguredKeeps(s, autostart, forceLink);
    if Reloads(s, reload, autostart) {
      SetConfigStateKeeps(n, IfcReload, e);
      HandledFrom(s, n, SetConfigState(n, IfcReload, e));
    } else if n.mainDev != NO_DEV {
      CheckStateKeeps(n, e);
      StaysFrom(s, n, CheckState(n, e));
    } else {
      StaysItself(n);
      StaysFrom(s, n, n);
    }
  }

  lemma TeardownTimeoutKeeps(s: Iface, e: Env)
    requires Inv(s) && s.alive && s.p.teardownTimer
    ensures var t := TeardownTimeout(s, e);
            && Inv(t) && Progress(s, t) && (t.downs == s.downs ==> t.configState == s.configState)
            && Abandoned(t.p.scripts) == Abandoned(s.p.scripts)
            && (t.downs > s.downs || Rank(t.p) < Rank(s.p))
  {
    hide TaskFinish;
    TaskFinishKeeps(s.(p := s.p.(teardownTimer := false, scriptPending := false, protoPending := false)), NoTask, e);
  }
}
