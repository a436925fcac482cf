/** Whole runs of claims and releases: counts are right, and active stacked
    devices hold what they stand on. */
module DeviceRuns {
  import opened Events
  import opened DeviceClaim
  import opened DeviceAtomicity

  lemma HeldFromBelow(tp: Topology, c: Core, m: Core, t: Core, u: User)
    requires ValidTopology(tp) && u in tp.target && Stacked(tp, tp.target[u])
    requires c.active.Keys == m.active.Keys == t.active.Keys == tp.kind.Keys
    requires forall v :: v != u ==> (v in m.claimed <==> v in c.claimed)
    requires forall e :: e in tp.kind && e != tp.target[u] ==> m.active[e] == c.active[e]
    requires var d, dep := tp.target[u], tp.kind[tp.target[u]].dep;
             && HeldUpTo(tp, c, Depth(tp, u)) && HeldUpTo(tp, t, Depth(tp, dep))
             && Frame(tp, m, t, dep, Depth(tp, dep))
             && (t.active[d] > 0 ==> dep in t.claimed)
    ensures HeldUpTo(tp, t, Depth(tp, u))
  {
    var d := tp.target[u];
    var r := Depth(tp, tp.kind[d].dep);
    forall e | Stacked(tp, e) && tp.rank[e] <= Depth(tp, u) && t.active[e] > 0
      ensures tp.kind[e].dep in t.claimed
    {
      if e != d && tp.rank[e] > r {
        NotOwnDep(tp, u, e);
        assert !InStack(tp, tp.kind[e].dep, r);
      }
    }
  }

  lemma HeldBelow(tp: Topology, c: Core, m: Core, u: User)
    requires ValidTopology(tp) && u in tp.target && Stacked(tp, tp.target[u])
    requires c.active.Keys == m.active.Keys == tp.kind.Keys
    requires forall v :: v != u ==> (v in m.claimed <==> v in c.claimed)
    requires forall e :: e in tp.kind && e != tp.target[u] ==> m.active[e] == c.active[e]
    requires HeldUpTo(tp, c, Depth(tp, u))
    ensures HeldUpTo(tp, m, Depth(tp, tp.kind[tp.target[u]].dep))
  {
    UserOutsideStack(tp, u);
  }

  lemma {:induction false} ClaimHolds(tp: Topology, c: Core, u: User, drv: Driver, k: nat)
    requires ValidTopology(tp) && c.active.Keys == tp.kind.Keys && u !in c.claimed
    requires LinkedUpTo(tp, c, Depth(tp, u)) && HeldUpTo(tp, c, Depth(tp, u))
    ensures var r := Claim(tp, c, u, drv, k); HeldUpTo(tp, r.c, Depth(tp, u))
    decreases Depth(tp, u) + 1, 1
  {
    if u in tp.target {
      hide Claim, SetUp, Release;
      var r, d, m := Claim(tp, c, u, drv, k), tp.target[u], Counting(tp, c, u);
      ClaimCases(tp, c, u, drv, k);
      ClaimIsAtomic(tp, c, u, drv, k);
      if c.active[d] != 0 {
        HeldCounting(tp, c, u);
      } else if Stacked(tp, d) {
        StackedHolds(tp, c, u, drv, k);
      } else {
        SimpleSetUp(tp, m, d, drv, k);
      }
    }
  }

  lemma {:induction false} StackedHolds(tp: Topology, c: Core, u: User, drv: Driver, k: nat)
    requires ValidTopology(tp) && c.active.Keys == tp.kind.Keys && u !in c.claimed && u in tp.target
    requires LinkedUpTo(tp, c, Depth(tp, u)) && HeldUpTo(tp, c, Depth(tp, u))
    requires Stacked(tp, tp.target[u]) && c.active[tp.target[u]] == 0
    ensures var s := SetUp(tp, Counting(tp, c, u), tp.target[u], drv, k);
            s.code == 0 ==> HeldUpTo(tp, s.c, Depth(tp, u))
    decreases Depth(tp, u) + 1, 0
  {
    hide Claim, SetUp, Release;
    var d, m := tp.target[u], Counting(tp, c, u);
    var dep, s := tp.kind[d].dep, SetUp(tp, m, d, drv, k);
    CountingKeepsBelow(tp, c, u);
    HeldBelow(tp, c, m, u);
    ClaimHolds(tp, m, dep, drv, k);
    ClaimIsAtomic(tp, m, dep, drv, k);
    SetUpCases(tp, m, d, drv, k);
    if s.code == 0 {
      ClaimFrame(tp, m, dep, drv, k);
      HeldFromBelow(tp, c, m, s.c, u);
    }
  }

  lemma HeldCounting(tp: Topology, c: Core, u: User)
    requires ValidTopology(tp) && c.active.Keys == tp.kind.Keys && u in tp.target
    requires HeldUpTo(tp, c, Depth(tp, u)) && (Stacked(tp, tp.target[u]) ==> c.active[tp.target[u]] != 0)
    ensures HeldUpTo(tp, Counting(tp, c, u), Depth(tp, u))
  {}

  lemma {:induction false} ReleaseHolds(tp: Topology, c: Core, u: User)
    requires ValidTopology(tp) && Counted(tp, c) && HeldUpTo(tp, c, Depth(tp, u))
    ensures HeldUpTo(tp, Release(tp, c, u), Depth(tp, u))
    decreases Depth(tp, u) + 1
  {
    hide Release;
    ReleaseCases(tp, c, u);
    if GoesOn(tp, c, u) {
      var l, dep := Lowered(tp, c, u), tp.kind[tp.target[u]].dep;
      UncountingKeeps(tp, c, u);
      CountedSame(tp, Uncounting(tp, c, u), l);
      HeldBelow(tp, c, l, u);
      ReleaseHolds(tp, l, dep);
      ReleaseFrame(tp, l, dep);
      HeldFromBelow(tp, c, l, Release(tp, l, dep), u);
    } else if u in c.claimed {
      UncountingKeeps(tp, c, u);
      HeldUncounting(tp, c, u);
    }
  }

  lemma HeldUncounting(tp: Topology, c: Core, u: User)
    requires ValidTopology(tp) && c.active.Keys == tp.kind.Keys && u in tp.target && u in c.claimed
    requires HeldUpTo(tp, c, Depth(tp, u)) && !GoesOn(tp, c, u) && c.active[tp.target[u]] > 0
    ensures HeldUpTo(tp, Uncounting(tp, c, u), Depth(tp, u))
  {
    forall e | Stacked(tp, e) && tp.rank[e] <= Depth(tp, u) ensures tp.kind[e].dep != u {
      NotOwnDep(tp, u, e);
    }
  }

  // ---- whole runs -------------------------------------------------------------------------

  /** A user that does not belong to a stacked device. */
  ghost predicate Outside(tp: Topology, u: User) {
    forall d {:trigger Stacked(tp, d)} :: Stacked(tp, d) ==> tp.kind[d].dep != u
  }

  /** What holds between operations. */
  ghost predicate Inv(tp: Topology, c: Core)
    requires ValidTopology(tp)
  {
    Counted(tp, c)
    && forall d {:trigger Stacked(tp, d)} :: Stacked(tp, d) && tp.kind[d].dep in c.claimed ==> c.active[d] > 0
  }

  /** Every active stacked device has claimed what it stands on. */
  ghost predicate Held(tp: Topology, c: Core)
    requires ValidTopology(tp) && c.active.Keys == tp.kind.Keys
  {
    forall d {:trigger Stacked(tp, d)} :: Stacked(tp, d) && c.active[d] > 0 ==> tp.kind[d].dep in c.claimed
  }

  /** A claim, a release, a user that is put on another device (device_add_user,
      and each step of device_replace), one that is taken off, and a device that
      is restarted on new settings. */
  datatype Op = DoClaim(u: User) | DoRelease(u: User) | DoMove(u: User, d: Dev) | DoRemove(u: User) | DoRestart(d: Dev)

  datatype Sys = Sys(tp: Topology, c: Core, calls: nat)

  /** No stacked device may end up on top of itself. */
  predicate CanMove(tp: Topology, u: User, d: Dev) {
    d in tp.kind && d in tp.rank && forall e | e in tp.kind && e in tp.rank && Stacked(tp, e) && tp.kind[e].dep == u ::
      tp.rank[d] < tp.rank[e]
  }

  function Moved(tp: Topology, u: User, d: Dev): Topology {
    tp.(target := tp.target[u := d])
  }

  function Removed(tp: Topology, u: User): Topology {
    tp.(target := tp.target - {u})
  }

  lemma MovedIsValid(tp: Topology, u: User, d: Dev)
    requires ValidTopology(tp)
    ensures CanMove(tp, u, d) ==> ValidTopology(Moved(tp, u, d))
    ensures ValidTopology(Removed(tp, u))
  {
    forall e | Stacked(Removed(tp, u), e) ensures Stacked(tp, e) {}
    forall e | Stacked(Moved(tp, u, d), e) ensures Stacked(tp, e) {}
  }

  ghost predicate ValidSys(s: Sys) {
    ValidTopology(s.tp) && s.c.active.Keys == s.tp.kind.Keys
  }

  function Move(s: Sys, u: User, d: Dev): (t: Sys)
    requires ValidSys(s) && CanMove(s.tp, u, d)
    ensures ValidSys(t)
  {
    MovedIsValid(s.tp, u, d);
    if u in s.tp.target && s.tp.target[u] == d then s
    else s.(tp := Moved(s.tp, u, d), c := Release(s.tp, s.c, u))
  }

  function TakeOff(s: Sys, u: User): (t: Sys)
    requires ValidSys(s)
    ensures ValidSys(t)
  {
    MovedIsValid(s.tp, u, 0);
    s.(tp := Removed(s.tp, u), c := Release(s.tp, s.c, u))
  }

  /** An active device is taken down and set up again, without its count. */
  function Restart(s: Sys, d: Dev, drv: Driver): (t: Sys)
    requires ValidSys(s) && d in s.tp.kind
    ensures ValidSys(t)
  {
    var r := SetUp(s.tp, SetDown(s.tp, s.c, d), d, drv, s.calls);
    s.(c := r.c, calls := r.calls)
  }

  function Step(s: Sys, x: Op, drv: Driver): (t: Sys)
    requires ValidSys(s)
    ensures ValidSys(t)
  {
    match x {
      case DoClaim(u) => var r := Claim(s.tp, s.c, u, drv, s.calls); s.(c := r.c, calls := r.calls)
      case DoRelease(u) => s.(c := Release(s.tp, s.c, u))
      case DoMove(u, d) => if CanMove(s.tp, u, d) then Move(s, u, d) else s
      case DoRemove(u) => TakeOff(s, u)
      case DoRestart(d) => if d in s.tp.kind && s.c.active[d] > 0 then Restart(s, d, drv) else s
    }
  }

  /** The set-up of a stacked device that is active fails when it is restarted. */
  predicate RestartFails(s: Sys, d: Dev, drv: Driver)
    requires ValidSys(s)
  {
    && Stacked(s.tp, d) && s.c.active[d] > 0
    && SetUp(s.tp, SetDown(s.tp, s.c, d), d, drv, s.calls).code != 0
  }

  function Start(tp: Topology): Sys {
    Sys(tp, Core(map d | d in tp.kind :: 0, {}, {}), 0)
  }

  function Run(tp: Topology, xs: History<Op>, drv: Driver): (t: Sys)
    requires ValidTopology(tp)
    ensures ValidSys(t)
  {
    if xs.Nothing? then Start(tp) else Step(Run(tp, xs.before, drv), xs.last, drv)
  }

  /** The users of stacked devices are claimed and released by these alone. */
  ghost predicate ByOutsiders(tp: Topology, xs: History<Op>) {
    xs.Then? ==> (xs.last.DoClaim? || xs.last.DoRelease? ==> Outside(tp, xs.last.u)) && ByOutsiders(tp, xs.before)
  }

  /** Keeping things up to the depth of an outside user keeps them everywhere. */
  lemma KeptEverywhere(tp: Topology, c: Core, t: Core, u: User)
    requires ValidTopology(tp) && c.active.Keys == t.active.Keys == tp.kind.Keys
    requires Inv(tp, c) && (Outside(tp, u) || u !in t.claimed) && Kept(tp, c, t, u, Depth(tp, u))
    ensures Inv(tp, t)
    ensures Outside(tp, u) && Held(tp, c) && HeldUpTo(tp, t, Depth(tp, u)) ==> Held(tp, t)
  {
    hide Counted;
    var r := Depth(tp, u);
    forall d | Stacked(tp, d) && tp.rank[d] > r
      ensures tp.kind[d].dep != u ==> (tp.kind[d].dep in t.claimed <==> tp.kind[d].dep in c.claimed)
      ensures t.active[d] == c.active[d]
    {
      assert !InStack(tp, tp.kind[d].dep, r);
    }
  }

  lemma InvParts(tp: Topology, c: Core, r: int)
    requires ValidTopology(tp) && c.active.Keys == tp.kind.Keys && Inv(tp, c)
    ensures Counted(tp, c) && LinkedUpTo(tp, c, r) && (Held(tp, c) ==> HeldUpTo(tp, c, r))
  {
    hide Counted;
  }

  lemma ClaimAgain(tp: Topology, c: Core, u: User, drv: Driver, k: nat)
    requires ValidTopology(tp) && c.active.Keys == tp.kind.Keys && u in c.claimed
    ensures Claim(tp, c, u, drv, k) == Ret(c, 0, k)
  {}

  lemma ClaimStep(tp: Topology, c: Core, u: User, drv: Driver, k: nat)
    requires ValidTopology(tp) && c.active.Keys == tp.kind.Keys && Inv(tp, c) && Outside(tp, u)
    ensures var t := Claim(tp, c, u, drv, k).c; Inv(tp, t) && (Held(tp, c) ==> Held(tp, t))
  {
    hide Claim, Counted, LinkedUpTo, HeldUpTo, Kept;
    InvParts(tp, c, Depth(tp, u));
    ClaimKeeps(tp, c, u, drv, k);
    if u in c.claimed {
      ClaimAgain(tp, c, u, drv, k);
    } else if Held(tp, c) {
      ClaimHolds(tp, c, u, drv, k);
    }
    KeptEverywhere(tp, c, Claim(tp, c, u, drv, k).c, u);
  }

  lemma ReleaseStep(tp: Topology, c: Core, u: User)
    requires ValidTopology(tp) && c.active.Keys == tp.kind.Keys && Inv(tp, c)
    ensures var t := Release(tp, c, u); Inv(tp, t) && u !in t.claimed && (Outside(tp, u) && Held(tp, c) ==> Held(tp, t))
  {
    hide Release, Counted, LinkedUpTo, HeldUpTo, Kept;
    InvParts(tp, c, Depth(tp, u));
    ReleaseKeeps(tp, c, u);
    if Held(tp, c) { ReleaseHolds(tp, c, u); }
    KeptEverywhere(tp, c, Release(tp, c, u), u);
  }

  /** A user that is not claimed can be put anywhere. */
  lemma UnclaimedMoves(tp: Topology, tq: Topology, c: Core, u: User)
    requires ValidTopology(tp) && ValidTopology(tq) && c.active.Keys == tp.kind.Keys && u !in c.claimed
    requires tq.kind == tp.kind && tq.rank == tp.rank
    requires forall v :: v != u ==>
               (v in tq.target <==> v in tp.target) && (v in tp.target ==> tq.target[v] == tp.target[v])
    ensures Inv(tp, c) ==> Inv(tq, c)
    ensures Held(tp, c) <==> Held(tq, c)
  {
    forall d ensures Stacked(tp, d) <==> Stacked(tq, d) {}
    forall d ensures UsersOf(tp, c.claimed, d) == UsersOf(tq, c.claimed, d) {}
  }

  lemma MoveKeeps(s: Sys, x: Op, drv: Driver)
    requires ValidSys(s) && Inv(s.tp, s.c) && (x.DoMove? || x.DoRemove?)
    ensures Inv(Step(s, x, drv).tp, Step(s, x, drv).c)
    ensures Outside(s.tp, x.u) && Held(s.tp, s.c) ==> Held(Step(s, x, drv).tp, Step(s, x, drv).c)
  {
    hide Release, Inv, Held;
    MovedIsValid(s.tp, x.u, if x.DoMove? then x.d else 0);
    ReleaseStep(s.tp, s.c, x.u);
    var t := Step(s, x, drv);
    if t.tp != s.tp || x.DoRemove? {
      UnclaimedMoves(s.tp, t.tp, Release(s.tp, s.c, x.u), x.u);
    }
  }

  /** Every active stacked device but d has claimed what it stands on. */
  ghost predicate HeldBut(tp: Topology, c: Core, d: Dev)
    requires ValidTopology(tp) && c.active.Keys == tp.kind.Keys
  {
    forall e {:trigger Stacked(tp, e)} :: Stacked(tp, e) && e != d && c.active[e] > 0 ==> tp.kind[e].dep in c.claimed
  }

  lemma SameInv(tp: Topology, c: Core, t: Core)
    requires ValidTopology(tp) && c.active.Keys == tp.kind.Keys && SameCounts(c, t)
    ensures Inv(tp, c) ==> Inv(tp, t)
    ensures Held(tp, c) ==> Held(tp, t)
  {
    hide Counted;
    if Inv(tp, c) { CountedSame(tp, c, t); }
  }

  /** Taking a stacked device down gives back what it stands on, and no more. */
  lemma TakenDown(tp: Topology, c: Core, d: Dev)
    requires ValidTopology(tp) && c.active.Keys == tp.kind.Keys && Inv(tp, c) && Stacked(tp, d)
    ensures var t, dep := SetDown(tp, c, d), tp.kind[d].dep;
            && t == Release(tp, WithoutLink(c, d), dep)
            && Inv(tp, t) && dep !in t.claimed && t.active[d] == c.active[d]
            && (Held(tp, c) ==> HeldBut(tp, t, d))
  {
    hide Release, Counted;
    var l, dep := WithoutLink(c, d), tp.kind[d].dep;
    SameInv(tp, c, l);
    ReleaseStep(tp, l, dep);
    ReleaseFrame(tp, l, dep);
    if Held(tp, c) {
      InvParts(tp, l, Depth(tp, dep));
      ReleaseHolds(tp, l, dep);
      HeldButBelow(tp, l, Release(tp, l, dep), d);
    }
  }

  lemma HeldButBelow(tp: Topology, l: Core, t: Core, d: Dev)
    requires ValidTopology(tp) && l.active.Keys == t.active.Keys == tp.kind.Keys && Stacked(tp, d) && HeldBut(tp, l, d)
    requires var dep := tp.kind[d].dep; Frame(tp, l, t, dep, Depth(tp, dep)) && HeldUpTo(tp, t, Depth(tp, dep))
    ensures HeldBut(tp, t, d)
  {
    var dep := tp.kind[d].dep;
    forall e | Stacked(tp, e) && e != d && t.active[e] > 0 ensures tp.kind[e].dep in t.claimed {
      if tp.rank[e] > Depth(tp, dep) { assert !InStack(tp, tp.kind[e].dep, Depth(tp, dep)); }
    }
  }

  /** Claiming what an active stacked device stands on. */
  lemma ClaimedAround(tp: Topology, m: Core, t: Core, d: Dev)
    requires ValidTopology(tp) && m.active.Keys == t.active.Keys == tp.kind.Keys && Inv(tp, m) && Stacked(tp, d)
    requires var dep := tp.kind[d].dep; Kept(tp, m, t, dep, Depth(tp, dep)) && t.active[d] > 0
    ensures Inv(tp, t)
    ensures var dep := tp.kind[d].dep;
            HeldBut(tp, m, d) && HeldUpTo(tp, t, Depth(tp, dep)) && dep in t.claimed ==> Held(tp, t)
  {
    hide Counted;
    var dep := tp.kind[d].dep;
    forall e | Stacked(tp, e) && e != d && tp.rank[e] > Depth(tp, dep)
      ensures tp.kind[e].dep in t.claimed <==> tp.kind[e].dep in m.claimed
      ensures t.active[e] == m.active[e]
    {
      assert !InStack(tp, tp.kind[e].dep, Depth(tp, dep));
    }
  }

  /** The set-up in a restart: right counts in any case, and what the device
      stands on claimed again exactly if it works. */
  lemma SetUpAgain(tp: Topology, m: Core, d: Dev, drv: Driver, k: nat)
    requires ValidTopology(tp) && m.active.Keys == tp.kind.Keys && Inv(tp, m) && Stacked(tp, d) && m.active[d] > 0
    requires tp.kind[d].dep !in m.claimed
    ensures var r := SetUp(tp, m, d, drv, k);
            && Inv(tp, r.c) && r.c.active[d] == m.active[d]
            && (r.code != 0 ==> tp.kind[d].dep !in r.c.claimed)
            && (r.code == 0 && HeldBut(tp, m, d) ==> Held(tp, r.c))
  {
    hide Claim, SetUp, Release, Counted, Inv, Held, Kept;
    var dep := tp.kind[d].dep;
    var r, a := SetUp(tp, m, d, drv, k), Claim(tp, m, dep, drv, k);
    InvParts(tp, m, Depth(tp, dep));
    SetUpFrame(tp, m, d, drv, k);
    ClaimIsAtomic(tp, m, dep, drv, k);
    if a.code != 0 { ReleaseUnclaimed(tp, a.c, dep); }
    SetUpUndone(tp, m, d, drv, k);
    SetUpCases(tp, m, d, drv, k);
    if r.code != 0 {
      SameInv(tp, m, r.c);
    } else {
      ClaimKeeps(tp, m, dep, drv, k);
      SameCountsKeeps(tp, m, a.c, r.c, dep, Depth(tp, dep));
      if HeldBut(tp, m, d) {
        ClaimHolds(tp, m, dep, drv, k) by { HeldBelowBut(tp, m, d); }
      }
      ClaimedAround(tp, m, r.c, d);
    }
  }

  lemma HeldBelowBut(tp: Topology, m: Core, d: Dev)
    requires ValidTopology(tp) && m.active.Keys == tp.kind.Keys && Stacked(tp, d) && HeldBut(tp, m, d)
    ensures HeldUpTo(tp, m, Depth(tp, tp.kind[d].dep))
  {}

  lemma PlainRestart(s: Sys, d: Dev, drv: Driver)
    requires ValidSys(s) && d in s.tp.kind && s.tp.kind[d].Simple?
    ensures Restart(s, d, drv) == s.(calls := s.calls + 1)
  {}

  /** A restart keeps the counts right, and it keeps every active stacked device
      holding what it stands on exactly if it does not fail. */
  lemma RestartHoldsIff(s: Sys, d: Dev, drv: Driver)
    requires ValidSys(s) && Inv(s.tp, s.c)
    ensures var t := Step(s, DoRestart(d), drv);
            Inv(t.tp, t.c) && t.tp == s.tp && (Held(s.tp, s.c) ==> (Held(t.tp, t.c) <==> !RestartFails(s, d, drv)))
  {
    hide SetUp, SetDown, Inv;
    if d in s.tp.kind && s.c.active[d] > 0 {
      if Stacked(s.tp, d) {
        TakenDown(s.tp, s.c, d);
        SetUpAgain(s.tp, SetDown(s.tp, s.c, d), d, drv, s.calls);
      } else {
        PlainRestart(s, d, drv);
      }
    }
  }

  /** An operation that is not done to what a stacked device stands on, and no
      restart that fails. */
  ghost predicate Gentle(s: Sys, x: Op, drv: Driver)
    requires ValidSys(s)
  {
    if x.DoRestart? then !RestartFails(s, x.d, drv) else Outside(s.tp, x.u)
  }

  lemma StepKeeps(s: Sys, x: Op, drv: Driver)
    requires ValidSys(s) && Inv(s.tp, s.c) && (x.DoClaim? || x.DoRelease? ==> Outside(s.tp, x.u))
    ensures var t := Step(s, x, drv); Inv(t.tp, t.c) && t.tp.kind == s.tp.kind
    ensures var t := Step(s, x, drv); Gentle(s, x, drv) && Held(s.tp, s.c) ==> Held(t.tp, t.c)
  {
    hide Claim, Release, SetUp, SetDown, Inv, Held, RestartFails;
    match x {
      case DoClaim(u) => ClaimStep(s.tp, s.c, u, drv, s.calls);
      case DoRelease(u) => ReleaseStep(s.tp, s.c, u);
      case DoMove(u, d) => MoveKeeps(s, x, drv);
      case DoRemove(u) => MoveKeeps(s, x, drv);
      case DoRestart(d) => RestartHoldsIff(s, d, drv);
    }
  }

  lemma StartIsInv(tp: Topology)
    requires ValidTopology(tp)
    ensures Inv(tp, Start(tp).c) && Held(tp, Start(tp).c)
  {
    forall d | d in tp.kind ensures |UsersOf(tp, {}, d)| == 0 {
      assert UsersOf(tp, {}, d) == {};
    }
  }

  /** In every reachable state active is the number of claimed users of the
      device, through claims, releases, users that change their device and
      restarts, failed ones included, so it is never negative. */
  lemma {:induction false} CountsAreRight(tp: Topology, xs: History<Op>, drv: Driver)
    requires ValidTopology(tp) && ByOutsiders(tp, xs)
    ensures var t := Run(tp, xs, drv); Inv(t.tp, t.c) && t.tp.kind == tp.kind
  {
    if xs.Nothing? {
      StartIsInv(tp);
    } else {
      hide Step, Inv;
      CountsAreRight(tp, xs.before, drv);
      var s := Run(tp, xs.before, drv);
      if !xs.last.DoRestart? { SameOutside(tp, s.tp, xs.last.u); }
      StepKeeps(s, xs.last, drv);
    }
  }

  lemma SameOutside(tp: Topology, tq: Topology, u: User)
    requires tp.kind == tq.kind
    ensures Outside(tp, u) <==> Outside(tq, u)
  {
    forall d ensures Stacked(tp, d) <==> Stacked(tq, d) {}
  }

  /** Users of stacked devices keep their device, and no restart fails. */
  ghost predicate StacksStay(tp: Topology, xs: History<Op>, drv: Driver)
    requires ValidTopology(tp)
  {
    xs.Then? ==> StacksStay(tp, xs.before, drv) && Gentle(Run(tp, xs.before, drv), xs.last, drv)
  }

  lemma {:induction false} StacksStayByOutsiders(tp: Topology, xs: History<Op>, drv: Driver)
    requires ValidTopology(tp) && StacksStay(tp, xs, drv)
    ensures ByOutsiders(tp, xs)
  {
    hide Step, Inv, RestartFails;
    if xs.Then? {
      StacksStayByOutsiders(tp, xs.before, drv);
      CountsAreRight(tp, xs.before, drv);
      if !xs.last.DoRestart? { SameOutside(tp, Run(tp, xs.before, drv).tp, xs.last.u); }
    }
  }

  /** Then a stacked device holds the device below exactly while it is active. */
  lemma {:induction false} ActiveStacksHold(tp: Topology, xs: History<Op>, drv: Driver)
    requires ValidTopology(tp) && StacksStay(tp, xs, drv)
    ensures var t := Run(tp, xs, drv);
            && t.tp.kind == tp.kind && Held(t.tp, t.c)
            && forall d :: Stacked(tp, d) ==> (tp.kind[d].dep in t.c.claimed <==> t.c.active[d] > 0)
  {
    StacksStayByOutsiders(tp, xs, drv);
    CountsAreRight(tp, xs, drv);
    if xs.Nothing? {
      StartIsInv(tp);
    } else {
      hide Step, RestartFails;
      ActiveStacksHold(tp, xs.before, drv);
      StacksStayByOutsiders(tp, xs.before, drv);
      CountsAreRight(tp, xs.before, drv);
      var s := Run(tp, xs.before, drv);
      if !xs.last.DoRestart? { SameOutside(tp, s.tp, xs.last.u); }
      StepKeeps(s, xs.last, drv);
    }
    HeldBothWays(tp, Run(tp, xs, drv));
  }

  lemma HeldBothWays(tp: Topology, t: Sys)
    requires ValidSys(t) && t.tp.kind == tp.kind && Inv(t.tp, t.c) && Held(t.tp, t.c)
    ensures forall d :: Stacked(tp, d) ==> (tp.kind[d].dep in t.c.claimed <==> t.c.active[d] > 0)
  {
    hide Counted;
    forall d ensures Stacked(tp, d) <==> Stacked(t.tp, d) {}
  }

  /** Moving the user of a stacked device keeps this exactly if the stacked
      device is not active: the move releases what it stands on. */
  lemma MoveHoldsIff(s: Sys, e: Dev, d: Dev, drv: Driver)
    requires ValidSys(s) && Inv(s.tp, s.c) && Held(s.tp, s.c) && Stacked(s.tp, e)
    requires var u := s.tp.kind[e].dep; CanMove(s.tp, u, d) && u in s.tp.target && s.tp.target[u] != d
    ensures var t := Step(s, DoMove(s.tp.kind[e].dep, d), drv); Held(t.tp, t.c) <==> s.c.active[e] <= 0
  {
    var u := s.tp.kind[e].dep;
    var t := Step(s, DoMove(u, d), drv);
    hide Release, Counted, Step;
    ReleaseStep(s.tp, s.c, u);
    MovedIsValid(s.tp, u, d);
    UnclaimedMoves(s.tp, Moved(s.tp, u, d), Release(s.tp, s.c, u), u);
    assert t.tp == Moved(s.tp, u, d) && t.c == Release(s.tp, s.c, u) by { MoveIs(s, u, d, drv); }
    if s.c.active[e] > 0 {
      ReleaseFrame(s.tp, s.c, u);
      assert t.c.active[e] > 0 && u !in t.c.claimed;
      assert !Held(s.tp, t.c);
    } else {
      assert u !in s.c.claimed;
      ReleaseUnclaimed(s.tp, s.c, u);
    }
  }

  lemma MoveIs(s: Sys, u: User, d: Dev, drv: Driver)
    requires ValidSys(s) && CanMove(s.tp, u, d) && u in s.tp.target && s.tp.target[u] != d
    ensures Step(s, DoMove(u, d), drv) == s.(tp := Moved(s.tp, u, d), c := Release(s.tp, s.c, u))
  {
    hide Release;
  }

  // ---- both happen -------------------------------------------------------------------------

  /** A VLAN on one of two plain devices, and somebody who uses it. */
  const STACK := Topology(map[0 := Simple, 1 := Simple, 2 := Vlan(10)], map[10 := 0, 20 := 2],
                          map[0 := 0, 1 := 0, 2 := 1])

  const IN_USE := Core(map[0 := 1, 1 := 0, 2 := 1], {10, 20}, {2})

  lemma StackIsValid()
    ensures ValidTopology(STACK)
  {
    forall d | Stacked(STACK, d) ensures d == 2 {}
  }

  /** The VLAN is set up from what nobody uses. */
  lemma StackSetUp(drv: Driver, m: Core, k: nat)
    requires drv(k) == 0 && ValidTopology(STACK)
    requires m == Core(map[0 := 0, 1 := 0, 2 := 1], {20}, {})
    ensures var n := Core(map[0 := 1, 1 := 0, 2 := 1], {20, 10}, {});
            && (drv(k + 1) == 0 && drv(k + 2) == 0 ==> SetUp(STACK, m, 2, drv, k) == Ret(WithLink(n, 2), 0, k + 3))
            && (drv(k + 1) != 0 ==> SetUp(STACK, m, 2, drv, k).code == -1)
  {
    hide Release;
    var n := Counting(STACK, m, 10);
    assert n == Core(map[0 := 1, 1 := 0, 2 := 1], {20, 10}, {});
    assert Stacked(STACK, 2);
    SimpleSetUp(STACK, n, 0, drv, k);
    ClaimCases(STACK, m, 10, drv, k);
    assert Claim(STACK, m, 10, drv, k) == Ret(n, 0, k + 1);
  }

  lemma FirstClaim(drv: Driver, c: Core)
    requires drv(0) == drv(1) == drv(2) == 0 && ValidTopology(STACK)
    requires c == Core(map[0 := 0, 1 := 0, 2 := 0], {}, {})
    ensures Claim(STACK, c, 20, drv, 0) == Ret(IN_USE, 0, 3)
  {
    hide Claim, SetUp, Release, ValidTopology;
    var m := Counting(STACK, c, 20);
    assert m == Core(map[0 := 0, 1 := 0, 2 := 1], {20}, {});
    StackSetUp(drv, m, 0);
    ClaimCases(STACK, c, 20, drv, 0);
  }

  lemma StackClaimed(drv: Driver)
    requires drv(0) == drv(1) == drv(2) == 0
    ensures ValidTopology(STACK) && Run(STACK, Then(Nothing, DoClaim(20)), drv) == Sys(STACK, IN_USE, 3)
  {
    hide Claim, SetUp, Release, ValidTopology;
    StackIsValid();
    assert Start(STACK).c.active == map[0 := 0, 1 := 0, 2 := 0];
    FirstClaim(drv, Start(STACK).c);
  }

  lemma StackInUse(drv: Driver)
    requires drv(0) == drv(1) == drv(2) == 0
    ensures ValidTopology(STACK) && Stacked(STACK, 2) && Inv(STACK, IN_USE) && Held(STACK, IN_USE)
  {
    hide Run, Counted;
    StackClaimed(drv);
    OneOutsider();
    CountsAreRight(STACK, Then(Nothing, DoClaim(20)), drv);
    forall d | Stacked(STACK, d) ensures d == 2 {}
  }

  /** After one claim, moving what the VLAN stands on leaves it without. */
  lemma MoveLetsGo(drv: Driver)
    requires drv(0) == drv(1) == drv(2) == 0
    ensures ValidTopology(STACK)
    ensures var t := Run(STACK, Then(Then(Nothing, DoClaim(20)), DoMove(10, 1)), drv); !Held(t.tp, t.c)
  {
    hide Step, Inv, Held;
    StackClaimed(drv);
    StackInUse(drv);
    MoveHoldsIff(Sys(STACK, IN_USE, 3), 2, 1, drv);
  }

  lemma OneOutsider()
    ensures ByOutsiders(STACK, Then(Nothing, DoClaim(20)))
  {
    forall d | Stacked(STACK, d) ensures STACK.kind[d].dep != 20 {}
  }

  /** After one claim, a restart in which the link cannot be made leaves an active
      VLAN that holds nothing. */
  lemma RestartLetsGo(drv: Driver)
    requires drv(0) == drv(1) == drv(2) == drv(3) == 0 && drv(4) != 0
    ensures ValidTopology(STACK)
    ensures var t := Run(STACK, Then(Then(Nothing, DoClaim(20)), DoRestart(2)), drv); !Held(t.tp, t.c)
  {
    hide Step, Inv, Held, SetUp, SetDown;
    StackClaimed(drv);
    StackInUse(drv);
    StackTakenDown();
    StackSetUp(drv, SetDown(STACK, IN_USE, 2), 3);
    RestartHoldsIff(Sys(STACK, IN_USE, 3), 2, drv);
  }

  lemma StackTakenDown()
    ensures ValidTopology(STACK) && SetDown(STACK, IN_USE, 2) == Core(map[0 := 0, 1 := 0, 2 := 1], {20}, {})
  {
    StackIsValid();
    assert Stacked(STACK, 2);
    var l := WithoutLink(IN_USE, 2);
    ReleaseCases(STACK, l, 10);
    assert Uncounting(STACK, l, 10) == Core(map[0 := 0, 1 := 0, 2 := 1], {20}, {});
  }
}
