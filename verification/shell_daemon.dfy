/** The interface and its protocol as the daemon keeps and updates them. */
module ShellDaemon {
  import opened Events
  import opened ShellInterface
  import opened ShellSafety
  import opened ShellRuns

  /** The protocol half, updated step by step by the handler. */
  class ProtoShellState {
    var sm: Sm
    var scriptPending: bool
    var protoPending: bool
    var renewPending: bool
    var teardownTimer: bool
    var checkupTimer: bool
    var flags: Flags
    var starts: nat
    var scripts: History<Script>

    function View(): Proto
      reads this
    {
      Proto(sm, scriptPending, protoPending, renewPending, teardownTimer, checkupTimer, flags, starts, scripts)
    }

    constructor (flags: Flags, starts: nat, scripts: History<Script>)
      ensures View() == Attached(flags, starts, scripts)
    {
      sm, scriptPending, protoPending, renewPending := SIdle, false, false, false;
      teardownTimer, checkupTimer := false, false;
      this.flags, this.starts, this.scripts := flags, starts, scripts;
    }

    /** Starts a script in the slot, killing what is in it. */
    method RunScript(script: Script, e: Env) returns (ok: bool)
      modifies this
      ensures Ret(View(), ok) == StartScript(old(View()), script, e)
    {
      var r := e.start(starts);
      starts := starts + 1;
      ok := r == Started;
      scripts := Then(scripts, Recorded(script, ok));
      if r == NoConfig {
        return;
      }
      scriptPending := false;
      if ok {
        scriptPending := true;
      }
    }

    method ProtoShellHandler(cmd: Cmd, e: Env) returns (ok: bool)
      modifies this
      ensures Ret(View(), ok) == Handler(old(View()), cmd, e)
    {
      hide StartScript;
      var action := Teardown;
      if cmd == CmdSetup {
        if sm != SIdle {
          return true;
        }
        action := Setup;
        sm := SSetup;
      } else if cmd == CmdRenew {
        if !flags.renewAvailable {
          return true;
        }
        if scriptPending {
          renewPending := true;
          return true;
        }
        renewPending := false;
        action := Renew;
      } else {
        if sm == SSetup && scriptPending {
          teardownTimer := true;
          renewPending := false;
          sm := SSetupAbort;
          return true;
        }
        if sm == STeardown {
          return true;
        }
        if sm == SSetupAbort {
          return false;
        }
        renewPending := false;
        sm := STeardown;
        teardownTimer := true;
      }
      ok := RunScript(action, e);
    }

    /** Everything has ended: both timers are cancelled. */
    method Settle()
      modifies this
      ensures View() == Settled(old(View()))
    {
      teardownTimer := false;
      checkupTimer := false;
      sm := SIdle;
    }

    /** The reaction to the end of a script while nothing is being ended. */
    method ScriptFinished(e: Env)
      modifies this
      ensures View() == ScriptDone(old(View()), e)
    {
      hide Handler;
      if renewPending {
        var _ := ProtoShellHandler(CmdRenew, e);
      } else if !flags.noTask && !protoPending && sm == SSetup {
        var _ := ProtoShellHandler(CmdTeardown, e);
      }
      if sm == SSetup && flags.checkup {
        checkupTimer := true;
      }
    }

    method ProtoShellRunCommand(argsOk: bool, e: Env)
      modifies this
      ensures View() == RunCommand(old(View()), argsOk, e)
    {
      if sm == STeardown || sm == SSetupAbort || !argsOk {
        return;
      }
      protoPending := false;
      if e.start(starts) == Started {
        protoPending := true;
      }
      starts := starts + 1;
    }
  }

  class Interface {
    var st: IfState
    var available: bool
    var autostart: bool
    var configAutostart: bool
    var enabled: bool
    var linkState: bool
    var forceLink: bool
    var linkUpEvent: bool
    var configState: ConfigState
    var isDynamic: bool
    var mainDev: nat
    var alive: bool
    var configInit: bool
    var proto: ProtoShellState
    var log: History<Event>
    var downs: nat
    var detached: nat
    var claims: nat

    function View(): Iface
      reads this, proto
    {
      Iface(st, available, autostart, configAutostart, enabled, linkState, forceLink, linkUpEvent, configState,
            isDynamic, mainDev, alive, configInit, proto.View(), log, downs, detached, claims)
    }

    constructor (proto: ProtoShellState, autostart: bool, forceLink: bool, isDynamic: bool, configInit: bool)
      requires proto.View() == Attached(proto.flags, 0, Nothing)
      ensures this.proto == proto && Initial(View())
    {
      st, available, this.autostart, configAutostart := IfsDown, false, autostart, autostart;
      enabled, linkState, this.forceLink, linkUpEvent := false, false, forceLink, false;
      configState, this.isDynamic, mainDev, alive := IfcNormal, isDynamic, NO_DEV, true;
      this.configInit, this.proto, log := configInit, proto, Nothing;
      downs, detached, claims := 0, 0, 0;
    }

    method InterfaceEvent(ev: Event)
      modifies this
      ensures proto == old(proto) && View() == Emit(old(View()), ev)
    {
      log := Then(log, ev);
    }

    method ProtoEvent(cmd: Cmd, e: Env) returns (ok: bool)
      modifies this, proto
      ensures proto == old(proto)
      ensures View() == Tell(old(View()), cmd, e) && ok == Handler(old(View()).p, cmd, e).ok
    {
      hide Handler;
      ok := proto.ProtoShellHandler(cmd, e);
    }

    method MarkInterfaceDown()
      modifies this
      ensures proto == old(proto) && View() == MarkDown(old(View()))
    {
      var state := st;
      if state == IfsDown {
        return;
      }
      linkUpEvent := false;
      st := IfsDown;
      if state == IfsUp {
        InterfaceEvent(Down);
      }
    }

    method InterfaceSetDown(e: Env)
      modifies this, proto
      ensures proto == old(proto) && View() == SetDown(old(View()), e)
    {
      hide Handler;
      var state := st;
      if state == IfsUp || state == IfsSetup {
        st := IfsTeardown;
        if state == IfsUp {
          InterfaceEvent(Down);
        }
        var _ := ProtoEvent(CmdTeardown, e);
      }
    }

    method BeginSetUp(e: Env)
      modifies this, proto
      ensures proto == old(proto) && View() == BeginSetup(old(View()), e)
    {
      hide Handler;
      st := IfsSetup;
      var ok := ProtoEvent(CmdSetup, e);
      if !ok {
        MarkInterfaceDown();
      }
    }

    method InterfaceCheckState(e: Env)
      modifies this, proto
      ensures proto == old(proto) && View() == CheckState(old(View()), e)
    {
      hide Handler, BeginSetup, MarkDown;
      var link := linkState || forceLink;
      if st == IfsUp || st == IfsSetup {
        if !enabled || !link {
          var _ := ProtoEvent(CmdTeardown, e);
          MarkInterfaceDown();
        }
      } else if st == IfsDown {
        if !available {
          return;
        }
        if autostart && enabled && link && !configInit {
          BeginSetUp(e);
        }
      }
    }

    method InterfaceSetEnabled(b: bool, e: Env)
      modifies this, proto
      ensures proto == old(proto) && View() == SetEnabled(old(View()), b, e)
    {
      hide CheckState;
      if enabled == b {
        return;
      }
      enabled := b;
      InterfaceCheckState(e);
    }

    method InterfaceSetLinkState(b: bool, e: Env)
      modifies this, proto
      ensures proto == old(proto) && View() == SetLinkState(old(View()), b, e)
    {
      hide CheckState;
      if linkState == b {
        return;
      }
      linkState := b;
      InterfaceCheckState(e);
      if b && forceLink && st == IfsUp && !linkUpEvent {
        InterfaceEvent(LinkUp);
        linkUpEvent := true;
      }
    }

    /** Claims the main device, which may call for a set-up. */
    method ClaimMainDevice(e: Env)
      modifies this, proto
      ensures proto == old(proto) && View() == ClaimMainDev(old(View()), e)
    {
      hide CheckState;
      var claimed := e.claim(claims);
      claims := claims + 1;
      if claimed {
        InterfaceCheckState(e);
      }
    }

    method InterfaceSetUp(e: Env)
      modifies this, proto
      ensures proto == old(proto) && View() == SetUp(old(View()), e)
    {
      hide BeginSetup, ClaimMainDev;
      autostart := true;
      if st != IfsDown {
        return;
      }
      if !available {
        return;
      }
      if mainDev != NO_DEV {
        ClaimMainDevice(e);
      } else {
        BeginSetUp(e);
      }
    }

    method InterfaceSetAvailable(b: bool, e: Env)
      modifies this, proto
      ensures proto == old(proto) && View() == SetAvailable(old(View()), b, e)
    {
      hide SetUp, SetDown;
      if available == b {
        return;
      }
      available := b;
      if b {
        if autostart && !configInit {
          InterfaceSetUp(e);
        }
      } else {
        InterfaceSetDown(e);
      }
    }

    method InterfaceSetMainDev(dev: nat, e: Env)
      modifies this, proto
      ensures proto == old(proto) && View() == SetMainDev(old(View()), dev, e)
    {
      hide SetAvailable, SetLinkState;
      if mainDev == dev {
        return;
      }
      InterfaceSetAvailable(false, e);
      mainDev := dev;
      if dev == NO_DEV {
        InterfaceSetLinkState(false, e);
      }
    }

    /** Lets go of the protocol state and attaches a new one. */
    method AttachProto(flags: Flags)
      modifies this
      ensures fresh(proto) && View() == Attach(old(View()), flags)
    {
      hide Attached;
      detached := detached + 1;
      proto := new ProtoShellState(flags, proto.starts, Then(proto.scripts, LetGo));
    }

    method CleanUpState()
      modifies this
      ensures proto == old(proto) && View() == CleanedUp(old(View()))
    {
      available := false;
      st := IfsDown;
      mainDev := NO_DEV;
    }

    method ClaimDevice(c: Claim)
      modifies this
      ensures proto == old(proto) && View() == ClaimedDevice(old(View()), c)
    {
      hide ProtoShellState.View;
      available := c.available;
      enabled := c.enabled;
      linkState := c.linkState;
      mainDev := c.mainDev;
    }

    method InterfaceDoReload(e: Env)
      modifies this
      ensures fresh(proto) && View() == DoReload(old(View()), e)
    {
      hide Emit, CleanedUp, Attach, ClaimedDevice;
      var c := e.claimed(detached);
      InterfaceEvent(Reload);
      CleanUpState();
      AttachProto(c.flags);
      ClaimDevice(c);
    }

    method InterfaceDoFree()
      modifies this
      ensures fresh(proto) && View() == DoFree(old(View()))
    {
      hide Emit, CleanedUp, Attach;
      InterfaceEvent(Free);
      CleanUpState();
      alive := false;
      AttachProto(proto.flags);
    }

    method InterfaceHandleConfigChange(e: Env)
      modifies this, proto
      ensures proto == old(proto) || fresh(proto)
      ensures View() == HandleConfigChange(old(View()), e)
      decreases if configState == IfcRemove then 0 else 3
    {
      hide GoOn, DoReload, DoFree;
      var state := configState;
      configState := IfcNormal;
      if state == IfcReload {
        InterfaceDoReload(e);
      } else if state == IfcRemove {
        InterfaceDoFree();
        return;
      }
      InterfaceGoOn(e);
    }

    method InterfaceGoOn(e: Env)
      modifies this, proto
      ensures proto == old(proto) || fresh(proto)
      ensures View() == GoOn(old(View()), e)
      decreases 2
    {
      hide SetUp;
      if autostart && available {
        InterfaceSetUp(e);
      } else if isDynamic {
        SetConfigurationState(IfcRemove, e);
      }
    }

    method SetConfigurationState(c: ConfigState, e: Env)
      modifies this, proto
      ensures proto == old(proto) || fresh(proto)
      ensures View() == SetConfigState(old(View()), c, e)
      decreases if c == IfcRemove then 1 else 4
    {
      hide SetDown, HandleConfigChange;
      configState := c;
      if st == IfsDown {
        InterfaceHandleConfigChange(e);
      } else {
        InterfaceSetDown(e);
      }
    }

    method OnProtoUp(updated: bool)
      modifies this
      ensures proto == old(proto) && View() == ProtoUp(old(View()), updated)
    {
      if st != IfsSetup {
        if st == IfsUp && updated {
          InterfaceEvent(Update);
        }
        return;
      }
      st := IfsUp;
      InterfaceEvent(Up);
    }

    method OnProtoDown(e: Env)
      modifies this, proto
      ensures proto == old(proto) || fresh(proto)
      ensures View() == ProtoDown(old(View()), e)
    {
      hide HandleConfigChange, MarkDown;
      downs := downs + 1;
      if st == IfsDown {
        return;
      }
      MarkInterfaceDown();
      InterfaceHandleConfigChange(e);
    }

    method OnProtoLinkLost()
      modifies this
      ensures proto == old(proto) && View() == ProtoLinkLost(old(View()))
    {
      if st != IfsUp {
        return;
      }
      MarkInterfaceDown();
      st := IfsSetup;
    }

    /** The end of a process while nothing is being ended. */
    method ActiveTaskFinish(task: Task, e: Env)
      requires !Ending(proto.View())
      modifies this, proto
      ensures proto == old(proto) && View() == TaskFinish(old(View()), task, e)
    {
      hide Handler, ScriptDone, ProtoLinkLost, Tell;
      if task == ProtoTask {
        if proto.sm == SIdle {
          OnProtoLinkLost();
        }
        var _ := ProtoEvent(CmdTeardown, e);
      } else if task == ScriptTask {
        proto.ScriptFinished(e);
      }
    }

    /** The end of a process while the protocol is ending. */
    method EndingTaskFinish(task: Task, e: Env)
      requires Ending(proto.View())
      modifies this, proto
      ensures proto == old(proto) || fresh(proto)
      ensures View() == TaskFinish(old(View()), task, e)
    {
      hide Handler, ProtoDown, Settled;
      if proto.scriptPending || proto.protoPending {
        return;
      }
      var aborted := proto.sm == SSetupAbort;
      proto.Settle();
      if aborted {
        var _ := ProtoEvent(CmdTeardown, e);
      } else {
        OnProtoDown(e);
      }
    }

    method ProtoShellTaskFinish(task: Task, e: Env)
      modifies this, proto
      ensures proto == old(proto) || fresh(proto)
      ensures View() == TaskFinish(old(View()), task, e)
    {
      hide TaskFinish;
      if proto.sm == SIdle || proto.sm == SSetup {
        ActiveTaskFinish(task, e);
      } else {
        EndingTaskFinish(task, e);
      }
    }

    method ProtoShellScriptCb(e: Env)
      modifies this, proto
      ensures proto == old(proto) || fresh(proto)
      ensures var s := old(View()); View() == TaskFinish(s.(p := s.p.(scriptPending := false)), ScriptTask, e)
    {
      hide TaskFinish;
      proto.scriptPending := false;
      ProtoShellTaskFinish(ScriptTask, e);
    }

    method ProtoShellTaskCb(e: Env)
      modifies this, proto
      ensures proto == old(proto) || fresh(proto)
      ensures var s := old(View()); View() == TaskFinish(s.(p := s.p.(protoPending := false)), ProtoTask, e)
    {
      hide TaskFinish;
      proto.protoPending := false;
      ProtoShellTaskFinish(ProtoTask, e);
    }

    method ProtoShellTeardownTimeout(e: Env)
      requires proto.teardownTimer
      modifies this, proto
      ensures proto == old(proto) || fresh(proto)
      ensures View() == TeardownTimeout(old(View()), e)
    {
      hide TaskFinish;
      proto.teardownTimer := false;
      proto.scriptPending := false;
      proto.protoPending := false;
      ProtoShellTaskFinish(NoTask, e);
    }

    method ProtoShellCheckupTimeout(e: Env)
      requires proto.checkupTimer
      modifies this, proto
      ensures proto == old(proto) && View() == CheckupTimeout(old(View()), e)
    {
      hide Handler;
      proto.checkupTimer := false;
      if !autostart {
        return;
      }
      if st == IfsUp {
        return;
      }
      var _ := ProtoEvent(CmdTeardown, e);
    }

    method ProtoShellUpdateLink(up: bool, keep: bool, devOk: bool, updated: bool)
      modifies this, proto
      ensures proto == old(proto) && View() == UpdateLink(old(View()), up, keep, devOk, updated)
    {
      hide ProtoUp, ProtoLinkLost;
      if proto.sm == STeardown || proto.sm == SSetupAbort {
        return;
      }
      if !up {
        OnProtoLinkLost();
        return;
      }
      var keeps := keep && st == IfsUp;
      if !keeps && !devOk {
        return;
      }
      OnProtoUp(updated);
      proto.sm := SIdle;
    }

    method ProtoShellSetupFailed(e: Env)
      modifies this, proto
      ensures proto == old(proto) && View() == SetupFail(old(View()), e)
    {
      hide Handler, ProtoLinkLost;
      if proto.sm == SIdle {
        OnProtoLinkLost();
        var _ := ProtoEvent(CmdTeardown, e);
      } else if proto.sm == SSetup {
        var _ := ProtoEvent(CmdTeardown, e);
      }
    }

    method BlockRestart()
      modifies this
      ensures proto == old(proto) && View() == old(View()).(autostart := false)
    {
      autostart := false;
    }

    method InterfaceParseData(changed: bool)
      modifies this
      ensures proto == old(proto) && View() == ParseData(old(View()), changed)
    {
      if changed && st == IfsUp {
        InterfaceEvent(Update);
      }
    }

    method ProtoShellDependencyDown(e: Env)
      modifies this, proto
      ensures proto == old(proto) && View() == DependencyDown(old(View()), e)
    {
      hide Handler, ProtoLinkLost;
      if proto.sm == SIdle {
        OnProtoLinkLost();
        var _ := ProtoEvent(CmdTeardown, e);
      }
    }

    method Reconfigure(newAutostart: bool, newForceLink: bool) returns (reload: bool)
      modifies this
      ensures proto == old(proto) && View() == Reconfigured(old(View()), newAutostart, newForceLink)
      ensures reload == Reloads(old(View()), false, newAutostart)
    {
      reload := false;
      if configAutostart != newAutostart {
        if configAutostart {
          reload := true;
        }
        autostart := newAutostart;
      }
      configAutostart := newAutostart;
      forceLink := newForceLink;
    }

    method InterfaceChangeConfig(reload: bool, newAutostart: bool, newForceLink: bool, e: Env)
      modifies this, proto
      ensures proto == old(proto) || fresh(proto)
      ensures View() == ChangeConfig(old(View()), reload, newAutostart, newForceLink, e)
    {
      hide SetConfigState, CheckState, Reconfigured;
      var reloads := Reconfigure(newAutostart, newForceLink);
      if reload || reloads {
        SetConfigurationState(IfcReload, e);
        return;
      }
      if mainDev != NO_DEV {
        InterfaceCheckState(e);
      }
    }

    method NotifyRunCommand(argsOk: bool, e: Env)
      modifies this, proto
      ensures proto == old(proto) && View() == old(View()).(p := RunCommand(old(View()).p, argsOk, e))
    {
      hide RunCommand;
      proto.ProtoShellRunCommand(argsOk, e);
    }

    // ---- whatever comes in --------------------------------------------------------

    method InterfaceDown(all: bool, e: Env)
      modifies this, proto
      ensures proto == old(proto)
      ensures View() == SetDown(if all then old(View()) else old(View()).(autostart := false), e)
    {
      hide SetDown;
      if !all {
        autostart := false;
      }
      InterfaceSetDown(e);
    }

    method StartPending(e: Env)
      modifies this, proto
      ensures proto == old(proto)
      ensures View() == if old(available) && old(autostart) then SetUp(old(View()), e) else old(View())
    {
      hide SetUp;
      if available && autostart {
        InterfaceSetUp(e);
      }
    }

    method HandleCommand(x: Input, e: Env)
      requires alive && Command(x)
      modifies this, proto
      ensures proto == old(proto) && View() == Step(old(View()), x, e)
    {
      hide Step, SetUp, SetDown, SetAvailable, SetEnabled, SetLinkState, Tell, Handler;
      CommandStep(View(), x, e);
      match x {
        case InUp => InterfaceSetUp(e);
        case InDown(all) => InterfaceDown(all, e);
        case InStartPending => StartPending(e);
        case InAvailable(b) => InterfaceSetAvailable(b, e);
        case InEnabled(b) => InterfaceSetEnabled(b, e);
        case InLinkState(b) => InterfaceSetLinkState(b, e);
        case InTopoChange => var _ := ProtoEvent(CmdRenew, e);
      }
    }

    method HandleChange(x: Input, e: Env)
      requires alive && Change(x)
      modifies this, proto
      ensures proto == old(proto) || fresh(proto)
      ensures View() == Step(old(View()), x, e)
    {
      hide Step, SetMainDev, ChangeConfig, SetConfigState, Tell, Handler;
      ChangeStep(View(), x, e);
      match x {
        case InL3LinkDown =>
          if proto.flags.teardownOnL3LinkDown {
            var _ := ProtoEvent(CmdTeardown, e);
          }
        case InMainDev(dev) => InterfaceSetMainDev(dev, e);
        case InChangeConfig(reload, autostart, forceLink) => InterfaceChangeConfig(reload, autostart, forceLink, e);
        case InRemove => SetConfigurationState(IfcRemove, e);
        case InConfigInit(b) => configInit := b;
      }
    }

    method HandleExit(x: Input, e: Env)
      requires alive && Exit(x)
      modifies this, proto
      ensures proto == old(proto) || fresh(proto)
      ensures View() == Step(old(View()), x, e)
    {
      hide TaskFinish, TeardownTimeout, CheckupTimeout;
      match x {
        case InScriptExit =>
          if proto.scriptPending { ProtoShellScriptCb(e); }
        case InProtoExit =>
          if proto.protoPending { ProtoShellTaskCb(e); }
        case InTeardownTimer =>
          if proto.teardownTimer { ProtoShellTeardownTimeout(e); }
        case InCheckupTimer =>
          if proto.checkupTimer { ProtoShellCheckupTimeout(e); }
      }
    }

    method HandleNotification(x: Input, e: Env)
      requires alive && Notification(x)
      modifies this, proto
      ensures proto == old(proto) && View() == Step(old(View()), x, e)
    {
      hide Step, UpdateLink, RunCommand, SetupFail, DependencyDown, ParseData;
      NotificationStep(View(), x, e);
      match x {
        case InLink(up, keep, devOk, updated) => ProtoShellUpdateLink(up, keep, devOk, updated);
        case InRun(argsOk) => NotifyRunCommand(argsOk, e);
        case InBlockRestart => BlockRestart();
        case InSetupFailed => ProtoShellSetupFailed(e);
        case InDependencyDown => ProtoShellDependencyDown(e);
        case InSetData(changed) => InterfaceParseData(changed);
      }
    }

    /** The runs of the model are the runs of the daemon, and every one keeps the
        invariant. */
    method Handle(x: Input, e: Env)
      requires Inv(View())
      modifies this, proto
      ensures proto == old(proto) || fresh(proto)
      ensures View() == Step(old(View()), x, e) && Inv(View()) && Progress(old(View()), View())
    {
      hide Step, Inv, Progress;
      StepKeeps(View(), x, e);
      if !alive {
        DeadStays(View(), x, e);
      } else if Command(x) {
        HandleCommand(x, e);
      } else if Change(x) {
        HandleChange(x, e);
      } else if Exit(x) {
        HandleExit(x, e);
      } else {
        HandleNotification(x, e);
      }
    }
  }
}
