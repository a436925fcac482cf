/** An interface and the shell protocol attached to it: two coupled state
    machines sharing a script, a daemon and two timers. Everything here is a
    function on states; the class of the next module carries it out in place.
    Callbacks of other users of the interface are taken not to come back to it
    before the step that triggered them has ended. */
module ShellInterface {
  import opened Events

  datatype IfState = IfsSetup | IfsUp | IfsTeardown | IfsDown
  datatype ConfigState = IfcNormal | IfcReload | IfcRemove
  datatype Sm = SIdle | SSetup | SSetupAbort | STeardown
  datatype Cmd = CmdSetup | CmdTeardown | CmdRenew
  datatype Task = NoTask | ScriptTask | ProtoTask

  /** Scripts asked for in the life of the interface, and when a protocol was
      let go of, with its processes and timers. */
  datatype Script = Setup | SetupFailed | Teardown | Renew | LetGo

  datatype Flags = Flags(renewAvailable: bool, noTask: bool, teardownOnL3LinkDown: bool, checkup: bool)

  /** The state of the protocol; starts counts the processes asked for. */
  datatype Proto = Proto(
    sm: Sm, scriptPending: bool, protoPending: bool, renewPending: bool,
    teardownTimer: bool, checkupTimer: bool, flags: Flags, starts: nat, scripts: History<Script>)

  /** The main device of an interface that has none. */
  const NO_DEV: nat := 0

  /** The interface. log lists its events, downs counts the times its protocol
      reported that it is down, detached the protocols let go of and claims the
      attempts to claim its device. */
  datatype Iface = Iface(
    st: IfState, available: bool, autostart: bool, configAutostart: bool, enabled: bool,
    linkState: bool, forceLink: bool, linkUpEvent: bool, configState: ConfigState,
    isDynamic: bool, mainDev: nat, alive: bool, configInit: bool,
    p: Proto, log: History<Event>, downs: nat, detached: nat, claims: nat)

  datatype StartResult = Started | ForkFailed | NoConfig

  /** What attaching the protocol again finds. */
  datatype Claim = Claim(available: bool, enabled: bool, linkState: bool, mainDev: nat, flags: Flags)

  /** Outcomes the daemon cannot choose, by the number of the attempt. */
  datatype Env = Env(start: nat -> StartResult, claim: nat -> bool, claimed: nat -> Claim)

  // ---- the protocol handler -----------------------------------------------------

  datatype Ret = Ret(p: Proto, ok: bool)

  function Recorded(script: Script, ok: bool): Script {
    if script == Setup && !ok then SetupFailed else script
  }

  /** Starting a process in the slot of the script kills what is in it. */
  function StartScript(p: Proto, script: Script, e: Env): Ret {
    var r := e.start(p.starts);
    Ret(p.(starts := p.starts + 1,
           scripts := Then(p.scripts, Recorded(script, r == Started)),
           scriptPending := if r == NoConfig then p.scriptPending else r == Started),
        r == Started)
  }

  function BeginTeardown(p: Proto, e: Env): Ret {
    StartScript(p.(renewPending := false, sm := STeardown, teardownTimer := true), Teardown, e)
  }

  function Handler(p: Proto, cmd: Cmd, e: Env): Ret {
    match cmd {
      case CmdSetup =>
        if p.sm == SIdle then StartScript(p.(sm := SSetup), Setup, e) else Ret(p, true)
      case CmdRenew =>
        if !p.flags.renewAvailable then Ret(p, true)
        else if p.scriptPending then Ret(p.(renewPending := true), true)
        else StartScript(p.(renewPending := false), Renew, e)
      case CmdTeardown =>
        match p.sm {
          case SSetup =>
            if p.scriptPending then Ret(p.(teardownTimer := true, renewPending := false, sm := SSetupAbort), true)
            else BeginTeardown(p, e)
          case SIdle => BeginTeardown(p, e)
          case STeardown => Ret(p, true)
          case SSetupAbort => Ret(p, false)
        }
    }
  }

  predicate Ending(p: Proto) {
    p.sm == STeardown || p.sm == SSetupAbort
  }

  /** A protocol that has just been attached. */
  function Attached(flags: Flags, starts: nat, scripts: History<Script>): Proto {
    Proto(SIdle, false, false, false, false, false, flags, starts, scripts)
  }

  // ---- the interface ---------------------------------------------------------------

  function Emit(s: Iface, ev: Event): Iface {
    s.(log := Then(s.log, ev))
  }

  /** Passes a command to the protocol. */
  function Tell(s: Iface, cmd: Cmd, e: Env): Iface {
    s.(p := Handler(s.p, cmd, e).p)
  }

  /** Down from any state; only an interface that was up says so. */
  function MarkDown(s: Iface): Iface {
    s.(st := IfsDown,
       linkUpEvent := s.linkUpEvent && s.st == IfsDown,
       log := if s.st == IfsUp then Then(s.log, Down) else s.log)
  }

  function SetDown(s: Iface, e: Env): Iface {
    if s.st == IfsUp then Tell(Emit(s.(st := IfsTeardown), Down), CmdTeardown, e)
    else if s.st == IfsSetup then Tell(s.(st := IfsTeardown), CmdTeardown, e)
    else s
  }

  function BeginSetup(s: Iface, e: Env): Iface {
    var t := Tell(s.(st := IfsSetup), CmdSetup, e);
    if Handler(s.p, CmdSetup, e).ok then t else MarkDown(t)
  }

  function CheckState(s: Iface, e: Env): Iface {
    var link := s.linkState || s.forceLink;
    match s.st {
      case IfsUp => if !s.enabled || !link then MarkDown(Tell(s, CmdTeardown, e)) else s
      case IfsSetup => if !s.enabled || !link then MarkDown(Tell(s, CmdTeardown, e)) else s
      case IfsDown =>
        if s.available && s.autostart && s.enabled && link && !s.configInit then BeginSetup(s, e) else s
      case IfsTeardown => s
    }
  }

  function SetEnabled(s: Iface, b: bool, e: Env): Iface {
    if s.enabled == b then s else CheckState(s.(enabled := b), e)
  }

  function SetLinkState(s: Iface, b: bool, e: Env): Iface {
    if s.linkState == b then s
    else
      var c := CheckState(s.(linkState := b), e);
      if b && c.forceLink && c.st == IfsUp && !c.linkUpEvent then Emit(c, LinkUp).(linkUpEvent := true) else c
  }

  function ClaimMainDev(s: Iface, e: Env): Iface {
    var c := s.(claims := s.claims + 1);
    if e.claim(s.claims) then CheckState(c, e) else c
  }

  function SetUp(s: Iface, e: Env): Iface {
    var a := s.(autostart := true);
    if a.st != IfsDown || !a.available then a
    else if a.mainDev == NO_DEV then BeginSetup(a, e)
    else ClaimMainDev(a, e)
  }

  function SetAvailable(s: Iface, b: bool, e: Env): Iface {
    if s.available == b then s
    else
      var a := s.(available := b);
      if !b then SetDown(a, e)
      else if a.autostart && !a.configInit then SetUp(a, e)
      else a
  }

  /** Another main device, or none. */
  function SetMainDev(s: Iface, dev: nat, e: Env): Iface {
    if s.mainDev == dev then s
    else
      var a := SetAvailable(s, false, e).(mainDev := dev);
      if dev != NO_DEV then a else SetLinkState(a, false, e)
  }

  /** The protocol state is freed, with its processes and timers, and a new one
      is attached. */
  function Attach(s: Iface, flags: Flags): Iface {
    s.(p := Attached(flags, s.p.starts, Then(s.p.scripts, LetGo)), detached := s.detached + 1)
  }

  /** The interface without a protocol and without its devices. */
  function CleanedUp(s: Iface): Iface {
    s.(available := false, st := IfsDown, mainDev := NO_DEV)
  }

  function ClaimedDevice(s: Iface, c: Claim): Iface {
    s.(available := c.available, enabled := c.enabled, linkState := c.linkState, mainDev := c.mainDev)
  }

  function DoReload(s: Iface, e: Env): Iface {
    var c := e.claimed(s.detached);
    ClaimedDevice(Attach(CleanedUp(Emit(s, Reload)), c.flags), c)
  }

  function DoFree(s: Iface): Iface {
    Attach(CleanedUp(Emit(s, Free)).(alive := false), s.p.flags)
  }

  function HandleConfigChange(s: Iface, e: Env): Iface
    decreases if s.configState == IfcRemove then 0 else 3
  {
    var n := s.(configState := IfcNormal);
    match s.configState {
      case IfcRemove => DoFree(n)
      case IfcReload => GoOn(DoReload(n, e), e)
      case IfcNormal => GoOn(n, e)
    }
  }

  /** What follows once nothing is postponed. */
  function GoOn(s: Iface, e: Env): Iface
    decreases 2
  {
    if s.autostart && s.available then SetUp(s, e)
    else if s.isDynamic then SetConfigState(s, IfcRemove, e)
    else s
  }

  function SetConfigState(s: Iface, c: ConfigState, e: Env): Iface
    decreases if c == IfcRemove then 1 else 4
  {
    var n := s.(configState := c);
    if n.st == IfsDown then HandleConfigChange(n, e) else SetDown(n, e)
  }

  /** Up from setup; an interface that is up already may have an update to tell. */
  function ProtoUp(s: Iface, updated: bool): Iface {
    s.(st := if s.st == IfsSetup then IfsUp else s.st,
       log := if s.st == IfsSetup then Then(s.log, Up)
              else if s.st == IfsUp && updated then Then(s.log, Update)
              else s.log)
  }

  function ProtoDown(s: Iface, e: Env): Iface {
    var d := s.(downs := s.downs + 1);
    if d.st == IfsDown then d else HandleConfigChange(MarkDown(d), e)
  }

  function ProtoLinkLost(s: Iface): Iface {
    if s.st != IfsUp then s else MarkDown(s).(st := IfsSetup)
  }

  // ---- the protocol's own events -----------------------------------------------------

  /** Everything has ended. */
  function Settled(p: Proto): Proto {
    p.(teardownTimer := false, checkupTimer := false, sm := SIdle)
  }

  function ScriptDone(p: Proto, e: Env): Proto {
    var q :=
      if p.renewPending then Handler(p, CmdRenew, e).p
      else if !p.flags.noTask && !p.protoPending && p.sm == SSetup then Handler(p, CmdTeardown, e).p
      else p;
    if q.sm == SSetup && q.flags.checkup then q.(checkupTimer := true) else q
  }

  function TaskFinish(s: Iface, task: Task, e: Env): Iface {
    match s.p.sm {
      case SIdle =>
        match task {
          case ProtoTask => Tell(ProtoLinkLost(s), CmdTeardown, e)
          case ScriptTask => s.(p := ScriptDone(s.p, e))
          case NoTask => s
        }
      case SSetup =>
        match task {
          case ProtoTask => Tell(s, CmdTeardown, e)
          case ScriptTask => s.(p := ScriptDone(s.p, e))
          case NoTask => s
        }
      case SSetupAbort =>
        if s.p.scriptPending || s.p.protoPending then s else Tell(s.(p := Settled(s.p)), CmdTeardown, e)
      case STeardown =>
        if s.p.scriptPending || s.p.protoPending then s else ProtoDown(s.(p := Settled(s.p)), e)
    }
  }

  function TeardownTimeout(s: Iface, e: Env): Iface {
    TaskFinish(s.(p := s.p.(teardownTimer := false, scriptPending := false, protoPending := false)), NoTask, e)
  }

  function CheckupTimeout(s: Iface, e: Env): Iface {
    var t := s.(p := s.p.(checkupTimer := false));
    if !t.autostart || t.st == IfsUp then t else Tell(t, CmdTeardown, e)
  }

  function UpdateLink(s: Iface, up: bool, keep: bool, devOk: bool, updated: bool): Iface {
    if Ending(s.p) then s
    else if !up then ProtoLinkLost(s)
    else if !(keep && s.st == IfsUp) && !devOk then s
    else ProtoUp(s, updated).(p := s.p.(sm := SIdle))
  }

  function RunCommand(p: Proto, argsOk: bool, e: Env): Proto {
    if Ending(p) || !argsOk then p
    else p.(starts := p.starts + 1, protoPending := e.start(p.starts) == Started)
  }

  function SetupFail(s: Iface, e: Env): Iface {
    match s.p.sm {
      case SIdle => Tell(ProtoLinkLost(s), CmdTeardown, e)
      case SSetup => Tell(s, CmdTeardown, e)
      case _ => s
    }
  }

  /** Data set from outside; an interface that is up tells of a change. */
  function ParseData(s: Iface, changed: bool): Iface {
    if changed && s.st == IfsUp then Emit(s, Update) else s
  }

  function DependencyDown(s: Iface, e: Env): Iface {
    if s.p.sm == SIdle then Tell(ProtoLinkLost(s), CmdTeardown, e) else s
  }

  function Reconfigured(s: Iface, autostart: bool, forceLink: bool): Iface {
    s.(autostart := if s.configAutostart != autostart then autostart else s.autostart,
       configAutostart := autostart, forceLink := forceLink)
  }

  /** Whether a change of configuration makes the interface reload. */
  predicate Reloads(s: Iface, reload: bool, autostart: bool) {
    reload || (s.configAutostart && !autostart)
  }

  function ChangeConfig(s: Iface, reload: bool, autostart: bool, forceLink: bool, e: Env): Iface {
    var n := Reconfigured(s, autostart, forceLink);
    if Reloads(s, reload, autostart) then SetConfigState(n, IfcReload, e)
    else if n.mainDev != NO_DEV then CheckState(n, e)
    else n
  }

  // ---- runs ----------------------------------------------------------------------------

  datatype Input =
    // commands and device events
    | InUp | InDown(all: bool) | InStartPending | InAvailable(b: bool) | InEnabled(b: bool) | InLinkState(b: bool)
    | InTopoChange | InL3LinkDown | InMainDev(dev: nat)
    | InChangeConfig(reload: bool, autostart: bool, forceLink: bool) | InRemove | InConfigInit(b: bool)
    // processes and timers
    | InScriptExit | InProtoExit | InTeardownTimer | InCheckupTimer
    // notifications
    | InLink(up: bool, keep: bool, devOk: bool, updated: bool) | InRun(argsOk: bool)
    | InBlockRestart | InSetupFailed | InDependencyDown | InSetData(changed: bool)

  function Step(s: Iface, x: Input, e: Env): Iface {
    if !s.alive then s else
    match x {
      case InUp => SetUp(s, e)
      case InDown(all) => SetDown(if all then s else s.(autostart := false), e)
      case InStartPending => if s.available && s.autostart then SetUp(s, e) else s
      case InAvailable(b) => SetAvailable(s, b, e)
      case InEnabled(b) => SetEnabled(s, b, e)
      case InLinkState(b) => SetLinkState(s, b, e)
      case InTopoChange => Tell(s, CmdRenew, e)
      case InL3LinkDown => if s.p.flags.teardownOnL3LinkDown then Tell(s, CmdTeardown, e) else s
      case InMainDev(dev) => SetMainDev(s, dev, e)
      case InChangeConfig(reload, autostart, forceLink) => ChangeConfig(s, reload, autostart, forceLink, e)
      case InRemove => SetConfigState(s, IfcRemove, e)
      case InConfigInit(b) => s.(configInit := b)
      case InScriptExit =>
        if s.p.scriptPending then TaskFinish(s.(p := s.p.(scriptPending := false)), ScriptTask, e) else s
      case InProtoExit => if s.p.protoPending then TaskFinish(s.(p := s.p.(protoPending := false)), ProtoTask, e) else s
      case InTeardownTimer => if s.p.teardownTimer then TeardownTimeout(s, e) else s
      case InCheckupTimer => if s.p.checkupTimer then CheckupTimeout(s, e) else s
      case InLink(up, keep, devOk, updated) => UpdateLink(s, up, keep, devOk, updated)
      case InRun(argsOk) => s.(p := RunCommand(s.p, argsOk, e))
      case InBlockRestart => s.(autostart := false)
      case InSetupFailed => SetupFail(s, e)
      case InDependencyDown => DependencyDown(s, e)
      case InSetData(changed) => ParseData(s, changed)
    }
  }

  function Run(s: Iface, xs: History<Input>, e: Env): Iface {
    if xs.Nothing? then s else Step(Run(s, xs.before, e), xs.last, e)
  }

  /** An interface that has just been created. */
  predicate Initial(s: Iface) {
    && s.st == IfsDown && s.configState == IfcNormal && s.alive && s.p == Attached(s.p.flags, 0, Nothing)
    && s.log == Nothing && s.downs == 0
  }
}
