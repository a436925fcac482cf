/** A wireless device: set-up with a limited number of retries, and a timer that
    ends a set-up that was cancelled while its script still runs. */
module Wireless {
  import opened Events

  datatype WState = WDown | WSetup | WUp | WTeardown
  datatype WConfig = WNormal | WReload | WRemove

  const WIRELESS_SETUP_RETRY: int := 3

  /** timer is the cancel timer, setups the number of set-up handlers launched,
      starts the number of handlers launched. strayed marks a device that was
      worked on after it had been freed; the model says nothing about it beyond
      that. */
  datatype Dev = Dev(
    st: WState, cancel: bool, timer: bool, scriptPending: bool, retry: int, retrySetupFailed: bool,
    autostart: bool, disabled: bool, configState: WConfig, configInit: bool, alive: bool, strayed: bool,
    setups: nat, starts: nat)

  /** ok(k) says whether the process of handler k can be started. */
  type Outcome = nat -> bool

  function RunHandler(w: Dev, up: bool, ok: Outcome): Dev {
    w.(scriptPending := ok(w.starts), starts := w.starts + 1, setups := w.setups + if up then 1 else 0)
  }

  predicate MaySetUp(w: Dev) {
    !w.disabled && !w.retrySetupFailed && w.autostart && w.st == WDown && !w.configInit
  }

  function TrySetUp(w: Dev, ok: Outcome): Dev {
    if MaySetUp(w) then RunHandler(w.(st := WSetup), true, ok) else w
  }

  function SetupCancel(w: Dev): Dev {
    w.(cancel := true, timer := true)
  }

  function TryDown(w: Dev, ok: Outcome): Dev {
    if w.st == WTeardown || w.st == WDown then w
    else if w.scriptPending then SetupCancel(w)
    else RunHandler(w.(st := WTeardown), false, ok)
  }

  function HandleConfigChange(w: Dev, ok: Outcome): Dev {
    if w.configState == WRemove then w.(alive := false)
    else TrySetUp(w, ok).(configState := WNormal)
  }

  function MarkDown(w: Dev, ok: Outcome): Dev {
    if !w.alive then w.(strayed := true)
    else HandleConfigChange(w.(cancel := false, st := WDown, timer := false), ok)
  }

  function MarkUp(w: Dev, ok: Outcome): Dev {
    if w.cancel then TryDown(w.(cancel := false), ok) else w.(st := WUp)
  }

  function RetrySetup(w: Dev, ok: Outcome): Dev {
    if w.st == WTeardown || w.st == WDown || w.cancel then w
    else TryDown(w.(retry := w.retry - 1, retrySetupFailed := w.retrySetupFailed || w.retry - 1 < 0), ok)
  }

  function ScriptDone(w: Dev, ok: Outcome): Dev {
    match w.st {
      case WSetup => RetrySetup(w, ok)
      case WTeardown => MarkDown(w, ok)
      case _ => w
    }
  }

  /** The cancel timer runs out: the script is killed and reported ended, and
      the device is marked down, whatever became of it. */
  function SetupTimeout(w: Dev, ok: Outcome): Dev {
    MarkDown(ScriptDone(w.(timer := false, scriptPending := false), ok), ok)
  }

  function SetConfigState(w: Dev, c: WConfig, ok: Outcome): Dev {
    if w.configState != WNormal then w
    else
      var n := w.(configState := c);
      if n.st == WDown then HandleConfigChange(n, ok) else TryDown(n, ok)
  }

  function SetUp(w: Dev, ok: Outcome): Dev {
    TrySetUp(w.(retry := WIRELESS_SETUP_RETRY, autostart := true), ok)
  }

  function SetDown(w: Dev, ok: Outcome): Dev {
    TryDown(w.(retrySetupFailed := false, autostart := false), ok)
  }

  datatype Input =
    // from outside
    | CmdUp | CmdDown | StartPending | ChangeDevice(disabled: bool) | ChangeInterface | Remove
    | SetRetry(n: int) | SetConfigInit(b: bool)
    // from the device
    | ScriptExit | Timeout | NotifyUp | RequiredProcessDied

  function Step(w: Dev, x: Input, ok: Outcome): Dev {
    if !w.alive then w else
    match x {
      case CmdUp => SetUp(w, ok)
      case CmdDown => SetDown(w, ok)
      case StartPending => TrySetUp(w, ok)
      case ChangeDevice(disabled) => SetConfigState(w.(disabled := disabled, retrySetupFailed := false), WReload, ok)
      case ChangeInterface => SetConfigState(w, WReload, ok)
      case Remove => SetConfigState(w, WRemove, ok)
      case SetRetry(n) => w.(retry := n)
      case SetConfigInit(b) => w.(configInit := b)
      case ScriptExit => if w.scriptPending then ScriptDone(w.(scriptPending := false), ok) else w
      case Timeout => if w.timer then SetupTimeout(w, ok) else w
      case NotifyUp => if w.st == WSetup then MarkUp(w, ok) else w
      case RequiredProcessDied => RetrySetup(w, ok)
    }
  }

  /** Commands and changes, as opposed to what the device does. */
  predicate FromOutside(x: Input) {
    !(x == ScriptExit || x == Timeout || x == NotifyUp || x == RequiredProcessDied)
  }

  function Run(w: Dev, xs: History<Input>, ok: Outcome): Dev {
    if xs.Nothing? then w else Step(Run(w, xs.before, ok), xs.last, ok)
  }

  const NEW :=
    Dev(WDown, false, false, false, WIRELESS_SETUP_RETRY, false, true, false, WNormal, false, true, false, 0, 0)

  // ---- the cancel timer ----------------------------------------------------------------

  /** A cancelled set-up has its timer armed, and an armed timer belongs to one or
      to a teardown that followed it. */
  predicate CancelInv(w: Dev) {
    && (w.cancel ==> w.timer)
    && (w.st == WDown ==> !w.timer)
    && (w.timer ==> (w.cancel && (w.st == WSetup || w.st == WUp)) || w.st == WTeardown)
    && (w.configState != WNormal && w.alive ==> w.st != WDown)
  }

  /** The timer belongs to a cancelled set-up. */
  predicate TimerInv(w: Dev) {
    CancelInv(w) && (w.timer ==> w.cancel) && (w.cancel ==> w.st == WSetup || w.st == WUp)
  }

  lemma TryDownKeeps(w: Dev, ok: Outcome)
    requires CancelInv(w)
    ensures CancelInv(TryDown(w, ok)) && (TimerInv(w) && !w.cancel ==> TimerInv(TryDown(w, ok)))
  {
    if w.st == WTeardown || w.st == WDown {
    } else if w.scriptPending {
    } else {
    }
  }

  lemma MarkDownKeeps(w: Dev, ok: Outcome)
    requires w.alive || TimerInv(w)
    ensures TimerInv(MarkDown(w, ok))
  {
    if !w.alive {
    } else if w.configState == WRemove {
    } else if MaySetUp(w.(cancel := false, st := WDown, timer := false)) {
    } else {
    }
  }

  lemma RetrySetupKeeps(w: Dev, ok: Outcome)
    requires CancelInv(w)
    ensures CancelInv(RetrySetup(w, ok)) && (TimerInv(w) ==> TimerInv(RetrySetup(w, ok)))
  {
    hide TryDown;
    if w.st == WTeardown || w.st == WDown || w.cancel {
    } else {
      TryDownKeeps(w.(retry := w.retry - 1, retrySetupFailed := w.retrySetupFailed || w.retry - 1 < 0), ok);
    }
  }

  lemma ScriptDoneKeeps(w: Dev, ok: Outcome)
    requires CancelInv(w) && w.alive
    ensures CancelInv(ScriptDone(w, ok)) && (TimerInv(w) ==> TimerInv(ScriptDone(w, ok)))
  {
    hide RetrySetup, MarkDown;
    if w.st == WSetup {
      RetrySetupKeeps(w, ok);
    } else if w.st == WTeardown {
      MarkDownKeeps(w, ok);
    } else {
    }
  }

  /** When the timer runs out the device is marked down in any case. */
  lemma SetupTimeoutKeeps(w: Dev, ok: Outcome)
    requires w.alive
    ensures TimerInv(SetupTimeout(w, ok))
  {
    hide MarkDown, ScriptDone, TimerInv;
    var c := w.(timer := false, scriptPending := false);
    ScriptDoneAlive(c, ok);
    MarkDownKeeps(c, ok);
    MarkDownKeeps(ScriptDone(c, ok), ok);
  }

  lemma ScriptDoneAlive(w: Dev, ok: Outcome)
    ensures if w.st == WTeardown then ScriptDone(w, ok) == MarkDown(w, ok)
            else ScriptDone(w, ok).alive == w.alive && ScriptDone(w, ok).strayed == w.strayed
  {
    hide MarkDown, TryDown;
    if w.st == WSetup {
      if w.cancel {
      } else {
        TryDownAlive(w.(retry := w.retry - 1, retrySetupFailed := w.retrySetupFailed || w.retry - 1 < 0), ok);
      }
    } else {
    }
  }

  lemma TryDownAlive(w: Dev, ok: Outcome)
    ensures var d := TryDown(w, ok); d.alive == w.alive && d.strayed == w.strayed
  {
    if w.st == WTeardown || w.st == WDown {
    } else if w.scriptPending {
    } else {
    }
  }

  lemma TimeoutOfCancelled(w: Dev, ok: Outcome)
    requires w.cancel && (w.st == WSetup || w.st == WUp)
    ensures SetupTimeout(w, ok) == MarkDown(w.(timer := false, scriptPending := false), ok)
  {
    hide MarkDown;
  }

  lemma SetConfigStateKeeps(w: Dev, c: WConfig, ok: Outcome)
    requires CancelInv(w) && c != WNormal
    ensures CancelInv(SetConfigState(w, c, ok))
  {
    hide TryDown;
    var n := w.(configState := c);
    if w.configState != WNormal {
    } else if n.st == WDown {
      if c == WRemove {
      } else if MaySetUp(n) {
      } else {
      }
    } else {
      TryDownKeeps(n, ok);
    }
  }

  lemma DownKeeps(w: Dev, ok: Outcome)
    requires CancelInv(w)
    ensures CancelInv(SetDown(w, ok))
  {
    hide TryDown;
    TryDownKeeps(w.(retrySetupFailed := false, autostart := false), ok);
  }

  lemma NotifyUpKeeps(w: Dev, ok: Outcome)
    requires CancelInv(w)
    ensures w.st == WSetup ==> CancelInv(MarkUp(w, ok))
  {
    if !w.cancel {
    } else if w.scriptPending {
    } else {
    }
  }

  lemma ChangeDeviceKeeps(w: Dev, disabled: bool, ok: Outcome)
    requires CancelInv(w)
    ensures CancelInv(SetConfigState(w.(disabled := disabled, retrySetupFailed := false), WReload, ok))
  {
    hide SetConfigState;
    SetConfigStateKeeps(w.(disabled := disabled, retrySetupFailed := false), WReload, ok);
  }

  lemma UpKeeps(w: Dev, ok: Outcome)
    requires CancelInv(w)
    ensures CancelInv(SetUp(w, ok))
  {
    hide TrySetUp;
    TrySetUpKeeps(w.(retry := WIRELESS_SETUP_RETRY, autostart := true), ok);
  }

  lemma ScriptExitKeeps(w: Dev, ok: Outcome)
    requires CancelInv(w) && w.alive
    ensures CancelInv(ScriptDone(w.(scriptPending := false), ok))
  {
    hide ScriptDone;
    ScriptDoneKeeps(w.(scriptPending := false), ok);
  }

  lemma OutsideKeeps(w: Dev, x: Input, ok: Outcome)
    requires CancelInv(w) && w.alive && FromOutside(x)
    ensures CancelInv(Step(w, x, ok))
  {
    hide SetUp, SetDown, TrySetUp, SetConfigState;
    match x {
      case CmdUp => UpKeeps(w, ok);
      case CmdDown => DownKeeps(w, ok);
      case StartPending => TrySetUpKeeps(w, ok);
      case ChangeDevice(disabled) => ChangeDeviceKeeps(w, disabled, ok);
      case ChangeInterface => SetConfigStateKeeps(w, WReload, ok);
      case Remove => SetConfigStateKeeps(w, WRemove, ok);
      case SetRetry(n) =>
      case SetConfigInit(b) =>
    }
  }

  lemma StepKeeps(w: Dev, x: Input, ok: Outcome)
    requires CancelInv(w)
    ensures CancelInv(Step(w, x, ok))
  {
    hide MarkUp, RetrySetup, ScriptDone, SetupTimeout, CancelInv;
    if !w.alive {
    } else if FromOutside(x) {
      hide Step;
      OutsideKeeps(w, x, ok);
    } else {
      match x {
        case ScriptExit => ScriptExitKeeps(w, ok);
        case Timeout => SetupTimeoutKeeps(w, ok);
        case NotifyUp => NotifyUpKeeps(w, ok);
        case RequiredProcessDied => RetrySetupKeeps(w, ok);
      }
    }
  }

  lemma TrySetUpKeeps(w: Dev, ok: Outcome)
    requires CancelInv(w)
    ensures CancelInv(TrySetUp(w, ok))
  {
    if MaySetUp(w) {
    } else {
    }
  }

  /** Whatever comes in, a cancelled set-up has its timer armed, and the timer is
      armed for nothing else but the teardown that may follow. */
  lemma {:induction false} CancelImpliesTimer(w: Dev, xs: History<Input>, ok: Outcome)
    requires CancelInv(w)
    ensures CancelInv(Run(w, xs, ok))
  {
    hide Step;
    if xs.Then? {
      CancelImpliesTimer(w, xs.before, ok);
      StepKeeps(Run(w, xs.before, ok), xs.last, ok);
    }
  }

  // ---- a timer that outlives its set-up ------------------------------------------------

  /** Inputs that end a set-up without looking whether it was cancelled. */
  predicate EndsSetUp(w: Dev, x: Input) {
    || (x == NotifyUp && w.st == WSetup) || x == CmdDown
    || ((x.ChangeDevice? || x == ChangeInterface || x == Remove) && w.configState == WNormal)
  }

  lemma TryDownTimer(w: Dev, ok: Outcome)
    requires TimerInv(w)
    ensures TimerInv(TryDown(w, ok)) <==> !(w.cancel && !w.scriptPending)
  {
    if w.st == WTeardown || w.st == WDown {
    } else if w.scriptPending {
    } else {
    }
  }

  lemma SetDownTimer(w: Dev, ok: Outcome)
    requires TimerInv(w)
    ensures TimerInv(SetDown(w, ok)) <==> !(w.cancel && !w.scriptPending)
  {
    hide TryDown;
    TryDownTimer(w.(retrySetupFailed := false, autostart := false), ok);
  }

  lemma MarkUpTimer(w: Dev, ok: Outcome)
    requires TimerInv(w) && w.st == WSetup
    ensures TimerInv(MarkUp(w, ok)) <==> !(w.cancel && !w.scriptPending)
  {
    if !w.cancel {
    } else if w.scriptPending {
    } else {
    }
  }

  lemma ConfigTimer(w: Dev, c: WConfig, ok: Outcome)
    requires TimerInv(w) && w.alive && c != WNormal
    ensures TimerInv(SetConfigState(w, c, ok)) <==> !(w.cancel && !w.scriptPending && w.configState == WNormal)
  {
    hide TryDown;
    var n := w.(configState := c);
    if w.configState != WNormal {
    } else if n.st == WDown {
      if c == WRemove {
      } else if MaySetUp(n) {
      } else {
      }
    } else {
      TryDownTimer(n, ok);
    }
  }

  lemma ChangeDeviceTimer(w: Dev, disabled: bool, ok: Outcome)
    requires TimerInv(w) && w.alive
    ensures var t := SetConfigState(w.(disabled := disabled, retrySetupFailed := false), WReload, ok);
            TimerInv(t) <==> !(w.cancel && !w.scriptPending && w.configState == WNormal)
  {
    hide SetConfigState;
    ConfigTimer(w.(disabled := disabled, retrySetupFailed := false), WReload, ok);
  }

  lemma SetUpTimer(w: Dev, ok: Outcome)
    requires TimerInv(w)
    ensures TimerInv(SetUp(w, ok)) && TimerInv(TrySetUp(w, ok))
  {
    if MaySetUp(w) {
    } else {
    }
    if MaySetUp(w.(retry := WIRELESS_SETUP_RETRY, autostart := true)) {
    } else {
    }
  }

  lemma ScriptExitTimer(w: Dev, ok: Outcome)
    requires TimerInv(w) && w.alive
    ensures TimerInv(ScriptDone(w.(scriptPending := false), ok))
  {
    hide ScriptDone;
    ScriptDoneKeeps(w.(scriptPending := false), ok);
  }

  lemma OutsideTimer(w: Dev, x: Input, ok: Outcome)
    requires TimerInv(w) && w.alive && FromOutside(x)
    ensures TimerInv(Step(w, x, ok)) <==> !(w.cancel && !w.scriptPending && EndsSetUp(w, x))
  {
    hide SetUp, SetDown, TrySetUp, SetConfigState;
    match x {
      case CmdUp => SetUpTimer(w, ok);
      case CmdDown => SetDownTimer(w, ok);
      case StartPending => SetUpTimer(w, ok);
      case ChangeDevice(disabled) => ChangeDeviceTimer(w, disabled, ok);
      case ChangeInterface => ConfigTimer(w, WReload, ok);
      case Remove => ConfigTimer(w, WRemove, ok);
      case SetRetry(n) =>
      case SetConfigInit(b) =>
    }
  }

  /** The cancel timer stays tied to a cancelled set-up exactly until such an
      input comes after the script of one has ended. */
  lemma TimerInvIff(w: Dev, x: Input, ok: Outcome)
    requires TimerInv(w) && w.alive
    ensures TimerInv(Step(w, x, ok)) <==> !(w.cancel && !w.scriptPending && EndsSetUp(w, x))
  {
    hide MarkUp, RetrySetup, ScriptDone, SetupTimeout;
    if FromOutside(x) {
      hide Step;
      OutsideTimer(w, x, ok);
    } else {
      match x {
        case ScriptExit => ScriptExitTimer(w, ok);
        case Timeout => SetupTimeoutKeeps(w, ok);
        case NotifyUp => if w.st == WSetup { MarkUpTimer(w, ok); }
        case RequiredProcessDied => RetrySetupKeeps(w, ok);
      }
    }
  }

  /** The timer runs out for a device in teardown whose removal is postponed. */
  predicate Strays(w: Dev, x: Input) {
    x == Timeout && w.alive && w.timer && w.st == WTeardown && w.configState == WRemove
  }

  lemma ConfigStrays(w: Dev, c: WConfig, ok: Outcome)
    requires w.alive
    ensures SetConfigState(w, c, ok).strayed == w.strayed
  {
    hide TryDown, TrySetUp;
    var n := w.(configState := c);
    if w.configState != WNormal {
    } else if n.st == WDown {
      TrySetUpStrays(n, ok);
    } else {
      TryDownAlive(n, ok);
    }
  }

  lemma TrySetUpStrays(w: Dev, ok: Outcome)
    ensures var t := TrySetUp(w, ok); t.strayed == w.strayed && t.alive == w.alive
  {
    if MaySetUp(w) {
    } else {
    }
  }

  lemma MarkDownStrays(w: Dev, ok: Outcome)
    ensures var t := MarkDown(w, ok);
            && (t.strayed <==> w.strayed || !w.alive)
            && (t.alive <==> w.alive && w.configState != WRemove)
  {
    hide TrySetUp;
    TrySetUpStrays(w.(cancel := false, st := WDown, timer := false), ok);
  }

  lemma MarkUpStrays(w: Dev, ok: Outcome)
    ensures MarkUp(w, ok).strayed == w.strayed
  {
    hide TryDown;
    TryDownAlive(w.(cancel := false), ok);
  }

  lemma RetrySetupStrays(w: Dev, ok: Outcome)
    ensures RetrySetup(w, ok).strayed == w.strayed
  {
    hide TryDown;
    TryDownAlive(w.(retry := w.retry - 1, retrySetupFailed := w.retrySetupFailed || w.retry - 1 < 0), ok);
  }

  lemma TimeoutStrays(w: Dev, ok: Outcome)
    requires w.alive && !w.strayed
    ensures SetupTimeout(w, ok).strayed <==> w.st == WTeardown && w.configState == WRemove
  {
    hide MarkDown, ScriptDone;
    var c := w.(timer := false, scriptPending := false);
    ScriptDoneAlive(c, ok);
    MarkDownStrays(c, ok);
    MarkDownStrays(ScriptDone(c, ok), ok);
  }

  lemma ScriptExitStrays(w: Dev, ok: Outcome)
    requires w.alive
    ensures ScriptDone(w.(scriptPending := false), ok).strayed == w.strayed
  {
    hide MarkDown, ScriptDone;
    var c := w.(scriptPending := false);
    ScriptDoneAlive(c, ok);
    MarkDownStrays(c, ok);
  }

  lemma OutsideStrays(w: Dev, x: Input, ok: Outcome)
    requires w.alive && FromOutside(x)
    ensures Step(w, x, ok).strayed == w.strayed
  {
    hide SetUp, SetDown, TrySetUp, SetConfigState;
    match x {
      case CmdUp => SetUpStrays(w, ok);
      case CmdDown => SetDownStrays(w, ok);
      case StartPending => TrySetUpStrays(w, ok);
      case ChangeDevice(disabled) => ConfigStrays(w.(disabled := disabled, retrySetupFailed := false), WReload, ok);
      case ChangeInterface => ConfigStrays(w, WReload, ok);
      case Remove => ConfigStrays(w, WRemove, ok);
      case SetRetry(n) =>
      case SetConfigInit(b) =>
    }
  }

  /** A step works on the device after freeing it exactly then; never while the
      timer is tied to a cancelled set-up. */
  lemma StraysIff(w: Dev, x: Input, ok: Outcome)
    requires !w.strayed
    ensures Step(w, x, ok).strayed <==> Strays(w, x)
    ensures TimerInv(w) ==> !Step(w, x, ok).strayed
  {
    hide MarkUp, RetrySetup, ScriptDone, SetupTimeout;
    if !w.alive {
    } else if FromOutside(x) {
      hide Step;
      OutsideStrays(w, x, ok);
    } else {
      match x {
        case ScriptExit => ScriptExitStrays(w, ok);
        case Timeout => TimeoutStrays(w, ok);
        case NotifyUp => MarkUpStrays(w, ok);
        case RequiredProcessDied => RetrySetupStrays(w, ok);
      }
    }
  }

  lemma SetUpStrays(w: Dev, ok: Outcome)
    ensures SetUp(w, ok).strayed == w.strayed
  {
    hide TrySetUp;
    TrySetUpStrays(w.(retry := WIRELESS_SETUP_RETRY, autostart := true), ok);
  }

  lemma SetDownStrays(w: Dev, ok: Outcome)
    ensures SetDown(w, ok).strayed == w.strayed
  {
    hide TryDown;
    TryDownAlive(w.(retrySetupFailed := false, autostart := false), ok);
  }

  ghost predicate NeverStrays(w: Dev, xs: History<Input>, ok: Outcome) {
    xs.Then? ==> NeverStrays(w, xs.before, ok) && !Strays(Run(w, xs.before, ok), xs.last)
  }

  /** No run works on a freed device unless the timer runs out in teardown while
      a removal is postponed. */
  lemma {:induction false} StrayedIff(w: Dev, xs: History<Input>, ok: Outcome)
    requires !w.strayed
    ensures Run(w, xs, ok).strayed <==> !NeverStrays(w, xs, ok)
    ensures Run(w, xs, ok).strayed ==> !Run(w, xs, ok).alive
  {
    hide Step, Strays;
    if xs.Then? {
      var v := Run(w, xs.before, ok);
      StrayedIff(w, xs.before, ok);
      if v.strayed {
        assert Step(v, xs.last, ok) == v by { DeadStays(v, xs.last, ok); }
      } else {
        StraysIff(v, xs.last, ok);
        if Step(v, xs.last, ok).strayed { StrayedIsDead(v, xs.last, ok); }
      }
    }
  }

  lemma DeadStays(w: Dev, x: Input, ok: Outcome)
    requires !w.alive
    ensures Step(w, x, ok) == w
  {}

  lemma StrayedIsDead(w: Dev, x: Input, ok: Outcome)
    requires !w.strayed && Step(w, x, ok).strayed
    ensures !Step(w, x, ok).alive
  {
    hide Step;
    StraysIff(w, x, ok);
    StrayedTimeout(w, ok);
  }

  lemma StrayedTimeout(w: Dev, ok: Outcome)
    requires w.alive && w.timer && w.st == WTeardown && w.configState == WRemove
    ensures !Step(w, Timeout, ok).alive
  {
    hide MarkDown, ScriptDone;
    var c := w.(timer := false, scriptPending := false);
    ScriptDoneAlive(c, ok);
    MarkDownStrays(c, ok);
    MarkDownStrays(ScriptDone(c, ok), ok);
  }

  /** A set-up that was cancelled for a process that died, and whose script has
      ended since; the timer has yet to run out. */
  const LATE := Then(Then(Then(Nothing, CmdUp), RequiredProcessDied), ScriptExit)

  const LATE_DEV := NEW.(st := WSetup, cancel := true, timer := true, retry := 2, setups := 1, starts := 1)

  lemma LateState(ok: Outcome)
    requires ok(0)
    ensures Run(NEW, LATE, ok) == LATE_DEV
  {
    var a, b := Then(Nothing, CmdUp), Then(Then(Nothing, CmdUp), RequiredProcessDied);
    assert Run(NEW, a, ok) == NEW.(st := WSetup, scriptPending := true, setups := 1, starts := 1);
    assert Run(NEW, b, ok) == Step(Run(NEW, a, ok), RequiredProcessDied, ok);
    assert Run(NEW, LATE, ok) == Step(Run(NEW, b, ok), ScriptExit, ok);
  }

  /** Removed after such a run, the device is freed when the timer runs out, and
      worked on once more. */
  lemma RemovedTooLate(xs: History<Input>, ok: Outcome)
    requires Run(NEW, xs, ok) == LATE_DEV
    ensures Run(NEW, Then(Then(xs, Remove), Timeout), ok).strayed
  {
    var r := Step(LATE_DEV, Remove, ok);
    assert r.st == WTeardown && r.timer && r.configState == WRemove && r.alive && !r.strayed;
    StraysIff(r, Timeout, ok);
    hide Step;
    assert Run(NEW, Then(xs, Remove), ok) == r;
    assert Run(NEW, Then(Then(xs, Remove), Timeout), ok) == Step(r, Timeout, ok);
  }

  // ---- the device as the daemon updates it ---------------------------------------------------

  class WirelessDevice {
    var st: WState
    var cancel: bool
    var timer: bool
    var scriptPending: bool
    var retry: int
    var retrySetupFailed: bool
    var autostart: bool
    var disabled: bool
    var configState: WConfig
    var configInit: bool
    var alive: bool
    var strayed: bool
    var setups: nat
    var starts: nat

    function View(): Dev
      reads this
    {
      Dev(st, cancel, timer, scriptPending, retry, retrySetupFailed, autostart, disabled, configState, configInit,
          alive, strayed, setups, starts)
    }

    constructor (disabled: bool)
      ensures View() == NEW.(disabled := disabled)
    {
      st, cancel, timer, scriptPending := WDown, false, false, false;
      retry, retrySetupFailed, autostart, this.disabled := WIRELESS_SETUP_RETRY, false, true, disabled;
      configState, configInit, alive, strayed, setups, starts := WNormal, false, true, false, 0, 0;
    }

    method RunSetupHandler(up: bool, ok: Outcome)
      modifies this
      ensures View() == RunHandler(old(View()), up, ok)
    {
      if up {
        setups := setups + 1;
      }
      scriptPending := ok(starts);
      starts := starts + 1;
    }

    method WirelessTrySetUp(ok: Outcome)
      modifies this
      ensures View() == TrySetUp(old(View()), ok)
    {
      hide RunHandler;
      if disabled {
        return;
      }
      if retrySetupFailed {
        return;
      }
      if !autostart {
        return;
      }
      if st != WDown || configInit {
        return;
      }
      st := WSetup;
      RunSetupHandler(true, ok);
    }

    method WirelessSetupCancel()
      modifies this
      ensures View() == if old(cancel) then old(View()) else SetupCancel(old(View()))
    {
      if cancel {
        return;
      }
      cancel := true;
      timer := true;
    }

    method WirelessTryDown(ok: Outcome)
      requires cancel ==> timer
      modifies this
      ensures View() == TryDown(old(View()), ok)
    {
      hide RunHandler;
      if st == WTeardown || st == WDown {
        return;
      }
      if scriptPending {
        WirelessSetupCancel();
        return;
      }
      st := WTeardown;
      RunSetupHandler(false, ok);
    }

    method WdevHandleConfigChange(ok: Outcome)
      modifies this
      ensures View() == HandleConfigChange(old(View()), ok)
    {
      hide TrySetUp;
      if configState == WRemove {
        alive := false;
        return;
      }
      WirelessTrySetUp(ok);
      configState := WNormal;
    }

    /** Nothing is said about a device that has been freed, but that it is
        worked on. */
    method WirelessMarkDown(ok: Outcome)
      modifies this
      ensures View() == MarkDown(old(View()), ok)
    {
      hide HandleConfigChange;
      if !alive {
        strayed := true;
        return;
      }
      cancel := false;
      st := WDown;
      timer := false;
      WdevHandleConfigChange(ok);
    }

    method WirelessMarkUp(ok: Outcome)
      requires CancelInv(View())
      modifies this
      ensures View() == MarkUp(old(View()), ok)
    {
      hide TryDown;
      if cancel {
        cancel := false;
        WirelessTryDown(ok);
        return;
      }
      st := WUp;
    }

    method WirelessRetrySetup(ok: Outcome)
      requires CancelInv(View())
      modifies this
      ensures View() == RetrySetup(old(View()), ok)
    {
      hide TryDown;
      if st == WTeardown || st == WDown || cancel {
        return;
      }
      retry := retry - 1;
      if retry < 0 {
        retrySetupFailed := true;
      }
      WirelessTryDown(ok);
    }

    method ScriptTaskCb(ok: Outcome)
      requires st == WSetup && !cancel ==> CancelInv(View())
      modifies this
      ensures View() == ScriptDone(old(View()), ok)
    {
      hide RetrySetup, MarkDown;
      match st {
        case WSetup =>
          if cancel {
            assert RetrySetup(View(), ok) == View() by { CancelledIsNotRetried(View(), ok); }
          } else {
            WirelessRetrySetup(ok);
          }
        case WTeardown => WirelessMarkDown(ok);
        case _ =>
      }
    }

    static lemma CancelledIsNotRetried(w: Dev, ok: Outcome)
      requires w.cancel
      ensures RetrySetup(w, ok) == w
    {}

    method WirelessSetupTimeout(ok: Outcome)
      requires CancelInv(View()) && timer
      modifies this
      ensures View() == SetupTimeout(old(View()), ok)
    {
      hide ScriptDone, MarkDown;
      timer := false;
      scriptPending := false;
      ScriptTaskCb(ok);
      WirelessMarkDown(ok);
    }

    method WirelessDeviceSetUp(ok: Outcome)
      modifies this
      ensures View() == SetUp(old(View()), ok)
    {
      hide TrySetUp;
      retry := WIRELESS_SETUP_RETRY;
      autostart := true;
      WirelessTrySetUp(ok);
    }

    method WirelessDeviceSetDown(ok: Outcome)
      requires CancelInv(View())
      modifies this
      ensures View() == SetDown(old(View()), ok)
    {
      hide TryDown;
      retrySetupFailed := false;
      autostart := false;
      WirelessTryDown(ok);
    }

    method WdevSetConfigState(c: WConfig, ok: Outcome)
      requires CancelInv(View()) && c != WNormal
      modifies this
      ensures View() == SetConfigState(old(View()), c, ok)
    {
      hide TryDown, HandleConfigChange;
      if configState != WNormal {
        return;
      }
      configState := c;
      if st == WDown {
        WdevHandleConfigChange(ok);
      } else {
        WirelessTryDown(ok);
      }
    }

    method WirelessDeviceSetRetry(n: int)
      modifies this
      ensures View() == old(View()).(retry := n)
    {
      retry := n;
    }

    method WdevChangeConfig(d: bool, ok: Outcome)
      requires CancelInv(View())
      modifies this
      ensures View() == SetConfigState(old(View()).(disabled := d, retrySetupFailed := false), WReload, ok)
    {
      hide SetConfigState;
      disabled := d;
      retrySetupFailed := false;
      WdevSetConfigState(WReload, ok);
    }

    method HandleCommand(x: Input, ok: Outcome)
      requires CancelInv(View()) && alive && FromOutside(x)
      modifies this
      ensures View() == Step(old(View()), x, ok)
    {
      hide SetUp, SetDown, TrySetUp, SetConfigState, CancelInv;
      match x {
        case CmdUp => WirelessDeviceSetUp(ok);
        case CmdDown => WirelessDeviceSetDown(ok);
        case StartPending => WirelessTrySetUp(ok);
        case ChangeDevice(d) => WdevChangeConfig(d, ok);
        case ChangeInterface => WdevSetConfigState(WReload, ok);
        case Remove => WdevSetConfigState(WRemove, ok);
        case SetRetry(n) => WirelessDeviceSetRetry(n);
        case SetConfigInit(b) => configInit := b;
      }
    }

    method HandleEvent(x: Input, ok: Outcome)
      requires CancelInv(View()) && alive && !FromOutside(x)
      modifies this
      ensures View() == Step(old(View()), x, ok)
    {
      hide MarkUp, RetrySetup, ScriptDone, SetupTimeout;
      match x {
        case ScriptExit =>
          if scriptPending {
            scriptPending := false;
            ScriptTaskCb(ok);
          }
        case Timeout =>
          if timer { WirelessSetupTimeout(ok); }
        case NotifyUp =>
          if st == WSetup { WirelessMarkUp(ok); }
        case RequiredProcessDied => WirelessRetrySetup(ok);
      }
    }

    /** Whatever comes in: the runs of the model are the runs of the daemon. */
    method Handle(x: Input, ok: Outcome)
      requires CancelInv(View())
      modifies this
      ensures View() == Step(old(View()), x, ok) && CancelInv(View())
    {
      hide Step;
      StepKeeps(View(), x, ok);
      if !alive {
        DeadStays(View(), x, ok);
      } else if FromOutside(x) {
        HandleCommand(x, ok);
      } else {
        HandleEvent(x, ok);
      }
    }
  }
}
