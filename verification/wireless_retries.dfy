/** How often a wireless device launches its set-up after one command. */
module WirelessRetries {
  import opened Events
  import opened Wireless

  /** NOTIFY_UP for a set-up that was cancelled and whose script has ended. */
  predicate LateUp(w: Dev, x: Input) {
    x == NotifyUp && w.st == WSetup && w.cancel && !w.scriptPending
  }

  /** What the device itself brings about, with or without late NOTIFY_UPs. */
  ghost predicate DeviceRun(w: Dev, xs: History<Input>, ok: Outcome, late: bool) {
    xs.Then? ==>
      && DeviceRun(w, xs.before, ok, late) && !FromOutside(xs.last)
      && (late || !LateUp(Run(w, xs.before, ok), xs.last))
  }

  /** No set-up is launched until something comes from outside. */
  predicate Blocked(w: Dev) {
    !w.alive || w.st == WDown || w.disabled || w.configInit || w.retrySetupFailed || w.configState == WRemove
  }

  /** How many set-ups the remaining retries stand for: one each, or two if it may
      end in a late NOTIFY_UP. */
  function Left(w: Dev, late: bool): (n: nat) {
    if w.retry <= 0 then 0 else if late then 2 * w.retry else w.retry
  }

  /** How many set-ups can still be launched. A teardown with the timer armed may
      be followed by two at once. */
  function Budget(w: Dev, late: bool): (n: nat) {
    if Blocked(w) then 0
    else if w.st == WTeardown then Left(w, late) + if w.timer then 2 else 1
    else if w.cancel then Left(w, late) + if late then 2 else 1
    else Left(w, late)
  }

  /** Not more than n launched or left to launch. */
  predicate Within(v: Dev, late: bool, n: int) {
    v.setups + Budget(v, late) <= n
  }

  lemma MarkDownBudget(w: Dev, ok: Outcome, late: bool)
    requires w.alive && w.st != WDown
    ensures Within(MarkDown(w, ok), late, w.setups + if Blocked(w) then 0 else 1 + Left(w, late))
  {
    if w.configState == WRemove {
    } else if MaySetUp(w.(cancel := false, st := WDown, timer := false)) {
    } else {
    }
  }

  lemma MarkDownShape(w: Dev, ok: Outcome)
    requires w.alive && w.st != WDown
    ensures var v := MarkDown(w, ok);
            && (v.alive && v.st != WDown ==> !Blocked(v) && !v.cancel && v.st == WSetup
                                             && v.setups == w.setups + 1 && v.retry == w.retry && !Blocked(w))
            && (!v.alive || v.st == WDown ==> v.setups == w.setups && MarkDown(v, ok).setups == v.setups
                                              && Blocked(MarkDown(v, ok)))
  {
    if w.configState == WRemove {
    } else if MaySetUp(w.(cancel := false, st := WDown, timer := false)) {
    } else {
    }
  }

  /** When the timer runs out in a teardown the device is marked down twice. */
  lemma MarkDownTwice(w: Dev, ok: Outcome, late: bool)
    requires w.alive && w.st == WTeardown
    ensures Within(MarkDown(MarkDown(w, ok), ok), late, w.setups + if Blocked(w) then 0 else 2 + Left(w, late))
  {
    hide MarkDown;
    var v := MarkDown(w, ok);
    MarkDownShape(w, ok);
    if v.alive && v.st != WDown { MarkDownBudget(v, ok, late); }
  }

  lemma TimeoutBudget(w: Dev, ok: Outcome, late: bool)
    requires CancelInv(w) && w.alive && w.timer
    ensures Within(SetupTimeout(w, ok), late, w.setups + Budget(w, late))
  {
    hide MarkDown;
    var c := w.(timer := false, scriptPending := false);
    if w.st == WTeardown {
      assert SetupTimeout(w, ok) == MarkDown(MarkDown(c, ok), ok);
      MarkDownTwice(c, ok, late);
    } else {
      TimeoutOfCancelled(w, ok);
      MarkDownBudget(c, ok, late);
    }
  }

  lemma RetryBudget(w: Dev, ok: Outcome, late: bool)
    requires CancelInv(w) && w.alive
    ensures Within(RetrySetup(w, ok), late, w.setups + Budget(w, late))
  {
    if w.st == WTeardown || w.st == WDown || w.cancel {
    } else if w.scriptPending {
    } else {
    }
  }

  lemma ScriptExitBudget(w: Dev, ok: Outcome, late: bool)
    requires CancelInv(w) && w.alive
    ensures Within(ScriptDone(w.(scriptPending := false), ok), late, w.setups + Budget(w, late))
  {
    hide RetrySetup, MarkDown;
    var d := w.(scriptPending := false);
    if w.st == WSetup {
      RetryBudget(d, ok, late);
    } else if w.st == WTeardown {
      MarkDownBudget(d, ok, late);
    } else {
    }
  }

  lemma NotifyBudget(w: Dev, ok: Outcome, late: bool)
    requires CancelInv(w) && w.alive && w.st == WSetup && (late || !LateUp(w, NotifyUp))
    ensures Within(MarkUp(w, ok), late, w.setups + Budget(w, late))
  {
    if !w.cancel {
    } else if w.scriptPending {
    } else {
    }
  }

  /** A step of the device launches no more set-ups than it takes from what can
      still be launched. */
  lemma DeviceStep(w: Dev, x: Input, ok: Outcome, late: bool)
    requires CancelInv(w) && !FromOutside(x) && (late || !LateUp(w, x))
    ensures CancelInv(Step(w, x, ok)) && Within(Step(w, x, ok), late, w.setups + Budget(w, late))
  {
    hide CancelInv, Budget, MarkUp, RetrySetup, ScriptDone, SetupTimeout;
    StepKeeps(w, x, ok);
    if w.alive {
      match x {
        case ScriptExit => if w.scriptPending { ScriptExitBudget(w, ok, late); }
        case Timeout => if w.timer { TimeoutBudget(w, ok, late); }
        case NotifyUp => if w.st == WSetup { NotifyBudget(w, ok, late); }
        case RequiredProcessDied => RetryBudget(w, ok, late);
      }
    }
  }

  lemma {:induction false} WithinBudget(w: Dev, xs: History<Input>, ok: Outcome, late: bool)
    requires CancelInv(w) && DeviceRun(w, xs, ok, late)
    ensures CancelInv(Run(w, xs, ok)) && Within(Run(w, xs, ok), late, w.setups + Budget(w, late))
  {
    hide Step, Budget, CancelInv;
    if xs.Then? {
      WithinBudget(w, xs.before, ok, late);
      DeviceStep(Run(w, xs.before, ok), xs.last, ok, late);
    }
  }

  /** The command comes in a teardown whose timer is still armed, and nothing else
      keeps the device from being set up. */
  predicate Twice(w: Dev) {
    && w.timer && w.st == WTeardown
    && !w.disabled && !w.retrySetupFailed && !w.configInit && w.configState != WRemove
  }

  lemma SetUpBudget(w: Dev, ok: Outcome)
    requires CancelInv(w) && w.alive
    ensures CancelInv(SetUp(w, ok))
    ensures Within(SetUp(w, ok), false, w.setups + WIRELESS_SETUP_RETRY + if Twice(w) then 2 else 1)
    ensures Within(SetUp(w, ok), true, w.setups + 2 * WIRELESS_SETUP_RETRY + if w.timer then 2 else 1)
  {
    UpKeeps(w, ok);
    if MaySetUp(w.(retry := WIRELESS_SETUP_RETRY, autostart := true)) {
    } else {
    }
  }

  /** From a set-up command on, in any state and whatever the device does: at most
      two set-up handlers for each retry and one more, or two if the timer is
      armed. Without a late NOTIFY_UP one for each retry and one more, or two if
      the command met a teardown with the timer armed. */
  lemma SetUpsAreBounded(w: Dev, xs: History<Input>, ok: Outcome)
    requires CancelInv(w) && w.alive && DeviceRun(SetUp(w, ok), xs, ok, true)
    ensures var n := Run(SetUp(w, ok), xs, ok).setups - w.setups;
            && n <= 2 * WIRELESS_SETUP_RETRY + (if w.timer then 2 else 1)
            && (DeviceRun(SetUp(w, ok), xs, ok, false) ==> n <= WIRELESS_SETUP_RETRY + if Twice(w) then 2 else 1)
  {
    hide Run, SetUp;
    SetUpBudget(w, ok);
    WithinBudget(SetUp(w, ok), xs, ok, true);
    if DeviceRun(SetUp(w, ok), xs, ok, false) { WithinBudget(SetUp(w, ok), xs, ok, false); }
  }

  // ---- the bounds are reached ------------------------------------------------------------

  /** Rounds of a failing set-up: the set-up script ends, then the teardown. */
  function Rounds(xs: History<Input>, n: nat): History<Input> {
    if n == 0 then xs else Then(Then(Rounds(xs, n - 1), ScriptExit), ScriptExit)
  }

  /** Rounds in which a process dies, the script ends, NOTIFY_UP comes and the
      timer runs out. */
  function LateRounds(xs: History<Input>, n: nat): History<Input> {
    if n == 0 then xs
    else Then(Then(Then(Then(LateRounds(xs, n - 1), RequiredProcessDied), ScriptExit), NotifyUp), Timeout)
  }

  /** Set up as far as the script goes, with n retries left. */
  predicate InSetup(w: Dev, n: nat) {
    && w.alive && w.st == WSetup && !w.cancel && w.scriptPending && !w.timer && !w.retrySetupFailed && w.retry >= n
    && w.autostart && !w.disabled && !w.configInit && w.configState == WNormal
  }

  lemma OneRound(w: Dev, ok: Outcome)
    requires InSetup(w, 1) && forall k :: ok(k)
    ensures Step(Step(w, ScriptExit, ok), ScriptExit, ok) ==
            w.(retry := w.retry - 1, setups := w.setups + 1, starts := w.starts + 2)
  {}

  lemma RunRound(w: Dev, xs: History<Input>, ok: Outcome, n: nat)
    requires n > 0
    ensures Run(w, Rounds(xs, n), ok) == Step(Step(Run(w, Rounds(xs, n - 1), ok), ScriptExit, ok), ScriptExit, ok)
  {
    hide Step;
  }

  lemma {:induction false} AfterRounds(w: Dev, xs: History<Input>, ok: Outcome, n: nat)
    requires InSetup(Run(w, xs, ok), n) && forall k :: ok(k)
    ensures var v := Run(w, xs, ok);
            Run(w, Rounds(xs, n), ok) == v.(retry := v.retry - n, setups := v.setups + n, starts := v.starts + 2 * n)
  {
    hide Step, Run;
    if n > 0 {
      AfterRounds(w, xs, ok, n - 1);
      OneRound(Run(w, Rounds(xs, n - 1), ok), ok);
      RunRound(w, xs, ok, n);
    }
  }

  /** Up to the NOTIFY_UP the timer is armed and nothing runs. */
  lemma LateRoundBegins(w: Dev, ok: Outcome)
    requires InSetup(w, 1) && forall k :: ok(k)
    ensures Step(Step(Step(w, RequiredProcessDied, ok), ScriptExit, ok), NotifyUp, ok) ==
            w.(retry := w.retry - 1, timer := true, st := WTeardown, starts := w.starts + 1)
  {}

  lemma LateRoundEnds(w: Dev, ok: Outcome)
    requires w.alive && w.st == WTeardown && w.timer && w.autostart && !Blocked(w) && forall k :: ok(k)
    ensures Step(w, Timeout, ok) ==
            w.(st := WSetup, cancel := false, timer := false, scriptPending := true, configState := WNormal,
               setups := w.setups + 2, starts := w.starts + 2)
  {
    var c := w.(timer := false, scriptPending := false);
    assert MarkDown(c, ok) ==
           w.(st := WSetup, cancel := false, timer := false, scriptPending := true, configState := WNormal,
              setups := w.setups + 1, starts := w.starts + 1);
  }

  lemma RunLateRound(w: Dev, xs: History<Input>, ok: Outcome, n: nat)
    requires n > 0
    ensures var u := Run(w, LateRounds(xs, n - 1), ok);
            Run(w, LateRounds(xs, n), ok) ==
            Step(Step(Step(Step(u, RequiredProcessDied, ok), ScriptExit, ok), NotifyUp, ok), Timeout, ok)
  {
    hide Step;
    var a := Then(LateRounds(xs, n - 1), RequiredProcessDied);
    var b := Then(a, ScriptExit);
    assert Run(w, b, ok) == Step(Run(w, a, ok), ScriptExit, ok);
    assert Run(w, Then(b, NotifyUp), ok) == Step(Run(w, b, ok), NotifyUp, ok);
    assert Run(w, Then(Then(b, NotifyUp), Timeout), ok) == Step(Run(w, Then(b, NotifyUp), ok), Timeout, ok);
  }

  lemma {:induction false} AfterLateRounds(w: Dev, xs: History<Input>, ok: Outcome, n: nat)
    requires InSetup(Run(w, xs, ok), n) && forall k :: ok(k)
    ensures var v := Run(w, xs, ok);
            Run(w, LateRounds(xs, n), ok) ==
            v.(retry := v.retry - n, setups := v.setups + 2 * n, starts := v.starts + 3 * n)
  {
    hide Step, Run;
    if n > 0 {
      AfterLateRounds(w, xs, ok, n - 1);
      var u := Run(w, LateRounds(xs, n - 1), ok);
      LateRoundBegins(u, ok);
      LateRoundEnds(u.(retry := u.retry - 1, timer := true, st := WTeardown, starts := u.starts + 1), ok);
      RunLateRound(w, xs, ok, n);
    }
  }

  lemma {:induction false} RoundsAreDevice(w: Dev, xs: History<Input>, ok: Outcome, n: nat)
    requires DeviceRun(w, xs, ok, false)
    ensures DeviceRun(w, Rounds(xs, n), ok, false)
  {
    if n > 0 { RoundsAreDevice(w, xs, ok, n - 1); }
  }

  lemma DeviceThen(w: Dev, xs: History<Input>, x: Input, ok: Outcome)
    requires DeviceRun(w, xs, ok, true) && !FromOutside(x)
    ensures DeviceRun(w, Then(xs, x), ok, true)
  {}

  lemma {:induction false} LateRoundsAreDevice(w: Dev, xs: History<Input>, ok: Outcome, n: nat)
    requires DeviceRun(w, xs, ok, true)
    ensures DeviceRun(w, LateRounds(xs, n), ok, true)
  {
    hide DeviceRun;
    if n > 0 {
      LateRoundsAreDevice(w, xs, ok, n - 1);
      var a := LateRounds(xs, n - 1);
      var b := Then(Then(a, RequiredProcessDied), ScriptExit);
      DeviceThen(w, a, RequiredProcessDied, ok);
      DeviceThen(w, Then(a, RequiredProcessDied), ScriptExit, ok);
      DeviceThen(w, b, NotifyUp, ok);
      DeviceThen(w, Then(b, NotifyUp), Timeout, ok);
    }
  }

  /** How a run begins that launches as often as it can. */
  function First(w: Dev): History<Input> {
    if Twice(w) then Then(Nothing, Timeout) else Nothing
  }

  /** Nothing is pending and the device may be set up, or Twice. */
  predicate Ready(w: Dev) {
    CancelInv(w) && w.alive && (Twice(w) || (MaySetUp(w.(autostart := true)) && w.configState == WNormal))
  }

  lemma FirstInSetup(w: Dev, ok: Outcome)
    requires Ready(w) && forall k :: ok(k)
    ensures var v := Run(SetUp(w, ok), First(w), ok);
            InSetup(v, WIRELESS_SETUP_RETRY) && v.setups == w.setups + if Twice(w) then 2 else 1
    ensures DeviceRun(SetUp(w, ok), First(w), ok, false) && DeviceRun(SetUp(w, ok), First(w), ok, true)
  {
    if Twice(w) {
      var s := SetUp(w, ok);
      assert s == w.(retry := WIRELESS_SETUP_RETRY, autostart := true);
      LateRoundEnds(s, ok);
      assert Run(s, Then(Nothing, Timeout), ok) == Step(s, Timeout, ok);
    } else {
    }
  }

  /** Set-ups that keep failing reach both bounds, one round after the other. */
  lemma BoundsAreReached(w: Dev, ok: Outcome, n: nat)
    requires Ready(w) && n <= WIRELESS_SETUP_RETRY && forall k :: ok(k)
    ensures var s, first := SetUp(w, ok), w.setups + if Twice(w) then 2 else 1;
            && DeviceRun(s, Rounds(First(w), n), ok, false) && Run(s, Rounds(First(w), n), ok).setups == first + n
            && DeviceRun(s, LateRounds(First(w), n), ok, true)
            && Run(s, LateRounds(First(w), n), ok).setups == first + 2 * n
  {
    hide Run, SetUp, DeviceRun;
    FirstInSetup(w, ok);
    AfterRounds(SetUp(w, ok), First(w), ok, n);
    RoundsAreDevice(SetUp(w, ok), First(w), ok, n);
    AfterLateRounds(SetUp(w, ok), First(w), ok, n);
    LateRoundsAreDevice(SetUp(w, ok), First(w), ok, n);
  }

  /** Without a late NOTIFY_UP a set-up command is followed by at most retry + 1
      launches, whatever the device does, exactly if it does not meet a teardown
      with the timer armed. */
  lemma RetriesAreBoundedIff(w: Dev)
    requires CancelInv(w) && w.alive
    ensures (forall ok: Outcome, xs: History<Input> | DeviceRun(SetUp(w, ok), xs, ok, false) ::
               Run(SetUp(w, ok), xs, ok).setups <= w.setups + WIRELESS_SETUP_RETRY + 1) <==> !Twice(w)
  {
    hide Run, SetUp, CancelInv;
    if Twice(w) {
      var ok: Outcome := k => true;
      var xs := Rounds(First(w), WIRELESS_SETUP_RETRY);
      BoundsAreReached(w, ok, WIRELESS_SETUP_RETRY);
      assert DeviceRun(SetUp(w, ok), xs, ok, false);
    } else {
      forall ok: Outcome, xs: History<Input> | DeviceRun(SetUp(w, ok), xs, ok, false)
        ensures Run(SetUp(w, ok), xs, ok).setups <= w.setups + WIRELESS_SETUP_RETRY + 1
      {
        SetUpBudget(w, ok);
        WithinBudget(SetUp(w, ok), xs, ok, false);
      }
    }
  }

  /** A set-down after the run that leaves a cancelled set-up without a script
      begins such a teardown. */
  lemma TwiceHappens(xs: History<Input>, ok: Outcome)
    requires Run(NEW, xs, ok) == LATE_DEV
    ensures Twice(Run(NEW, Then(xs, CmdDown), ok)) && Ready(Run(NEW, Then(xs, CmdDown), ok))
  {
    assert Run(NEW, Then(xs, CmdDown), ok) == Step(LATE_DEV, CmdDown, ok);
  }
}
