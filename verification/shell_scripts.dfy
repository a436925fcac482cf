/** Setup and teardown scripts over the whole life of an interface: when a
    started setup script gets its teardown, and exactly when it does not. */
module ShellScripts {
  import opened Events
  import opened ShellInterface
  import opened ShellSafety
  import opened ShellRuns

  /** A started setup script waits for its teardown, and its protocol is still
      there. */
  predicate LeftSetUp(cs: History<Script>) {
    cs.Then? && (cs.last == Setup || (cs.last == Renew && LeftSetUp(cs.before)))
  }

  /** A started setup script has had no teardown asked for, whatever came since. */
  predicate NotTornDown(cs: History<Script>) {
    cs.Then? && (cs.last == Setup || (cs.last != Teardown && NotTornDown(cs.before)))
  }

  /** Whenever a setup script was asked for or a protocol let go of, every setup
      script started before had had its teardown asked for. */
  predicate TornDown(cs: History<Script>) {
    cs.Then? ==>
      && TornDown(cs.before)
      && (cs.last == Setup || cs.last == SetupFailed || cs.last == LetGo ==> !NotTornDown(cs.before))
  }

  lemma {:induction false} OpenedIffLeftSetUp(cs: History<Script>)
    requires PhaseOf(cs) != Wrong
    ensures PhaseOf(cs) == Opened <==> LeftSetUp(cs)
  {
    if cs.Then? { OpenedIffLeftSetUp(cs.before); }
  }

  lemma {:induction false} TornDownIffNoneAbandoned(cs: History<Script>)
    requires PhaseOf(cs) != Wrong
    ensures TornDown(cs) <==> Abandoned(cs) == 0
    ensures Abandoned(cs) == 0 ==> (NotTornDown(cs) <==> PhaseOf(cs) == Opened)
  {
    if cs.Then? { TornDownIffNoneAbandoned(cs.before); }
  }

  lemma {:induction false} BeganNotWrong(h: History<Script>, cs: History<Script>)
    requires PhaseOf(cs) != Wrong && Began(h, cs)
    ensures PhaseOf(h) != Wrong
  {
    if h != cs { BeganNotWrong(h, cs.before); }
  }

  /** In every run a setup script is asked for only when the last one that was
      started has had its teardown asked for, or went with its protocol. */
  lemma SetupsAlternate(s: Iface, xs: History<Input>, e: Env, h: History<Script>)
    requires Initial(s) && Began(h, Run(s, xs, e).p.scripts) && h.Then?
    requires h.last == Setup || h.last == SetupFailed
    ensures !LeftSetUp(h.before)
  {
    RunKeeps(s, xs, e);
    BeganNotWrong(h, Run(s, xs, e).p.scripts);
    OpenedIffLeftSetUp(h.before);
  }

  /** A step lets go of a protocol with its setup script not torn down exactly if
      it removes or reloads an interface that is down but was left set up. Such
      a protocol is waiting to abort its set-up. */
  lemma AbandonsIff(s: Iface, x: Input, e: Env)
    requires Inv(s)
    ensures Abandoned(Step(s, x, e).p.scripts) > Abandoned(s.p.scripts) <==>
            && s.alive && s.st == IfsDown && LeftSetUp(s.p.scripts)
            && (x.InRemove? || (x.InChangeConfig? && Reloads(s, x.reload, x.autostart)))
    ensures s.alive && s.st == IfsDown && LeftSetUp(s.p.scripts) ==> s.p.sm == SSetupAbort
  {
    hide Step;
    StepKeeps(s, x, e);
    OpenedIffLeftSetUp(s.p.scripts);
  }

  /** No such step is taken in a run. */
  ghost predicate NoneAbandons(s: Iface, xs: History<Input>, e: Env) {
    xs.Then? ==> NoneAbandons(s, xs.before, e) && !Abandons(Run(s, xs.before, e), xs.last)
  }

  lemma {:induction false} AbandonedIff(s: Iface, xs: History<Input>, e: Env)
    requires Initial(s)
    ensures Abandoned(Run(s, xs, e).p.scripts) == 0 <==> NoneAbandons(s, xs, e)
  {
    hide Step, Inv, Progress, Abandons;
    if xs.Then? {
      AbandonedIff(s, xs.before, e);
      RunKeeps(s, xs.before, e) by { FreshKeeps(s); }
      StepKeeps(Run(s, xs.before, e), xs.last, e);
    }
  }

  lemma FreshKeeps(s: Iface)
    requires Initial(s)
    ensures Inv(s)
  {}

  /** Over the whole life of an interface, through reloads, removals, failed
      starts and whatever else comes in: every started setup script has its
      teardown asked for before the next setup and before its protocol is let
      go of exactly if no removal or reload met the interface down but left
      set up. */
  lemma SetupsAreTornDownIff(s: Iface, xs: History<Input>, e: Env)
    requires Initial(s)
    ensures TornDown(Run(s, xs, e).p.scripts) <==> NoneAbandons(s, xs, e)
  {
    hide Run;
    RunKeeps(s, xs, e);
    AbandonedIff(s, xs, e);
    TornDownIffNoneAbandoned(Run(s, xs, e).p.scripts);
  }

  // ---- it happens -----------------------------------------------------------------

  /** The device comes, with its link. */
  const PLUGGED :=
    Then(Then(Then(Then(Nothing, InMainDev(1)), InAvailable(true)), InEnabled(true)), InLinkState(true))

  /** The set-up has begun when the device is disabled; then the interface is
      removed. */
  const LOST := Then(Then(Then(PLUGGED, InUp), InEnabled(false)), InRemove)

  predicate Bare(s: Iface) {
    !s.available && !s.autostart && !s.enabled && !s.linkState && s.mainDev == NO_DEV && !s.configInit && s.claims == 0
  }

  lemma Plugged(s: Iface, e: Env)
    requires Initial(s) && Bare(s)
    ensures Run(s, PLUGGED, e) == s.(mainDev := 1, available := true, enabled := true, linkState := true)
  {
    hide BeginSetup, Tell;
    var a, b := Then(Nothing, InMainDev(1)), Then(Then(Nothing, InMainDev(1)), InAvailable(true));
    assert Run(s, a, e) == Step(s, InMainDev(1), e) == s.(mainDev := 1);
    assert Run(s, b, e) == Step(Run(s, a, e), InAvailable(true), e) == s.(mainDev := 1, available := true);
    assert Run(s, Then(b, InEnabled(true)), e) == s.(mainDev := 1, available := true, enabled := true);
  }

  lemma SetupBegins(s: Iface, e: Env)
    requires s.alive && s.st == IfsDown && s.available && s.enabled && s.linkState && s.mainDev != NO_DEV
    requires !s.configInit
    requires s.p == Attached(s.p.flags, 0, Nothing) && e.claim(s.claims) && e.start(0) == Started
    ensures Step(s, InUp, e) ==
            s.(autostart := true, claims := s.claims + 1, st := IfsSetup,
               p := s.p.(sm := SSetup, scriptPending := true, starts := 1, scripts := Then(Nothing, Setup)))
  {
    var c := s.(autostart := true, claims := s.claims + 1);
    assert SetUp(s, e) == CheckState(c, e) == BeginSetup(c, e);
  }

  lemma AbortsSetup(s: Iface, e: Env)
    requires s.alive && s.st == IfsSetup && s.p.sm == SSetup && s.p.scriptPending && s.enabled
    ensures Step(s, InEnabled(false), e) ==
            MarkDown(s.(enabled := false, p := s.p.(teardownTimer := true, renewPending := false, sm := SSetupAbort)))
  {
    hide MarkDown, BeginTeardown;
  }

  /** Losing the device in the middle of a set-up and then being removed leaves
      a started setup script without its teardown. */
  lemma RemovalSkipsTeardown(s: Iface, e: Env)
    requires Initial(s) && Bare(s) && e.claim(0) && e.start(0) == Started
    ensures var t := Run(s, LOST, e); !TornDown(t.p.scripts) && !t.alive && t.downs == 0
  {
    Plugged(s, e);
    var p := Run(s, PLUGGED, e);
    SetupBegins(p, e);
    var u := Step(p, InUp, e);
    AbortsSetup(u, e);
    var d := Step(u, InEnabled(false), e);
    ChangeStep(d, InRemove, e);
    FreedAtOnce(d, e);
    hide Step;
    assert Run(s, Then(PLUGGED, InUp), e) == u;
    assert Run(s, Then(Then(PLUGGED, InUp), InEnabled(false)), e) == d;
    assert Run(s, LOST, e) == Step(d, InRemove, e);
  }

  lemma FreedAtOnce(d: Iface, e: Env)
    requires d.st == IfsDown
    ensures var t := SetConfigState(d, IfcRemove, e);
            t.p.scripts == Then(d.p.scripts, LetGo) && !t.alive && t.downs == d.downs
  {}
}
