/** The links that stacked devices have in the kernel: one exactly while the
    device is active, and none left behind by a claim that fails. */
module DeviceLinks {
  import opened Events
  import opened DeviceClaim
  import opened DeviceAtomicity
  import opened DeviceRuns

  /** Links of devices above rank r are the same. */
  ghost predicate SameAbove(tp: Topology, c: Core, t: Core, r: int)
    requires ValidTopology(tp)
  {
    forall e :: e in tp.kind && tp.rank[e] > r ==> (e in t.links <==> e in c.links)
  }

  lemma {:induction false} ReleaseLinks(tp: Topology, c: Core, u: User)
    requires ValidTopology(tp) && c.active.Keys == tp.kind.Keys
    ensures SameAbove(tp, c, Release(tp, c, u), Depth(tp, u))
    decreases Depth(tp, u) + 1
  {
    hide Release;
    ReleaseCases(tp, c, u);
    if GoesOn(tp, c, u) {
      StackBelow(tp, u);
      ReleaseLinks(tp, Lowered(tp, c, u), tp.kind[tp.target[u]].dep);
    } else {
    }
  }

  lemma {:induction false} ClaimLinks(tp: Topology, c: Core, u: User, drv: Driver, k: nat)
    requires ValidTopology(tp) && c.active.Keys == tp.kind.Keys
    ensures SameAbove(tp, c, Claim(tp, c, u, drv, k).c, Depth(tp, u))
    decreases Depth(tp, u) + 1, 3
  {
    if u in c.claimed {
      ClaimAgain(tp, c, u, drv, k);
    } else if u in tp.target {
      hide Claim, SetUp;
      var d, m := tp.target[u], Counting(tp, c, u);
      ClaimCases(tp, c, u, drv, k);
      if c.active[d] != 0 {
      } else if Stacked(tp, d) {
        SetUpLinks(tp, m, d, drv, k);
      } else {
        SimpleSetUp(tp, m, d, drv, k);
      }
    }
  }

  /** x and y have the same links above rank r, but for d. */
  ghost predicate SameBut(tp: Topology, x: Core, y: Core, r: int, d: Dev)
    requires ValidTopology(tp)
  {
    forall e :: e in tp.kind && e != d && tp.rank[e] > r ==> (e in y.links <==> e in x.links)
  }

  lemma SameButChain(tp: Topology, m: Core, a: Core, l: Core, t: Core, r: int, d: Dev)
    requires ValidTopology(tp) && d in tp.kind && tp.rank[d] > r
    requires SameAbove(tp, m, a, r) && SameAbove(tp, l, t, r)
    requires l == a || l == WithLink(a, d) || l == WithoutLink(a, d)
    ensures SameBut(tp, m, t, r, d) && (d in t.links <==> d in l.links) && (d in a.links <==> d in m.links)
  {}

  lemma SameAboveSelf(tp: Topology, c: Core, r: int)
    requires ValidTopology(tp)
    ensures SameAbove(tp, c, c, r)
  {}

  /** Setting up a stacked device touches no link above the device below but its
      own, which is there if it works; if it fails the link is not there, unless
      it was before. */
  ghost predicate OwnLinkOnly(tp: Topology, m: Core, d: Dev, drv: Driver, k: nat)
    requires ValidTopology(tp) && m.active.Keys == tp.kind.Keys && Stacked(tp, d)
  {
    var r := SetUp(tp, m, d, drv, k);
    && SameBut(tp, m, r.c, Depth(tp, tp.kind[d].dep), d)
    && (if r.code == 0 then d in r.c.links else d in r.c.links ==> d in m.links)
  }

  lemma {:induction false} SetUpLinks(tp: Topology, m: Core, d: Dev, drv: Driver, k: nat)
    requires ValidTopology(tp) && m.active.Keys == tp.kind.Keys && Stacked(tp, d)
    ensures OwnLinkOnly(tp, m, d, drv, k)
    ensures SameAbove(tp, m, SetUp(tp, m, d, drv, k).c, tp.rank[d])
    decreases tp.rank[d] + 1, 2
  {
    hide SetUp, Claim, Release, SameAbove;
    var dep := tp.kind[d].dep;
    var r, s, a := Depth(tp, dep), SetUp(tp, m, d, drv, k), Claim(tp, m, dep, drv, k);
    assert r < tp.rank[d];
    ClaimLinks(tp, m, dep, drv, k);
    SetUpCases(tp, m, d, drv, k);
    if a.code < 0 {
      SameAboveSelf(tp, a.c, r);
      SameButChain(tp, m, a.c, a.c, s.c, r, d);
    } else if s.code == 0 {
      SameAboveSelf(tp, s.c, r);
      SameButChain(tp, m, a.c, s.c, s.c, r, d);
    } else {
      var l :| (l == a.c || l == WithoutLink(a.c, d)) && s.c == Release(tp, l, dep);
      ReleaseLinks(tp, l, dep);
      SameButChain(tp, m, a.c, l, s.c, r, d);
    }
    AboveFromBut(tp, m, s.c, r, d);
  }

  lemma AboveFromBut(tp: Topology, m: Core, t: Core, r: int, d: Dev)
    requires ValidTopology(tp) && d in tp.kind && SameBut(tp, m, t, r, d) && r < tp.rank[d]
    ensures SameAbove(tp, m, t, tp.rank[d])
  {}

  /** The first claim on a stacked device without a link leaves it with one
      exactly if the claim works. */
  lemma ClaimLinkIff(tp: Topology, c: Core, u: User, drv: Driver, k: nat)
    requires ValidTopology(tp) && c.active.Keys == tp.kind.Keys && u !in c.claimed && u in tp.target
    requires var d := tp.target[u]; Stacked(tp, d) && c.active[d] == 0 && d !in c.links
    ensures tp.target[u] in Claim(tp, c, u, drv, k).c.links <==> Claim(tp, c, u, drv, k).code == 0
  {
    hide Claim, SetUp;
    ClaimCases(tp, c, u, drv, k);
    SetUpLinks(tp, Counting(tp, c, u), tp.target[u], drv, k);
  }

  // ---- whole runs ------------------------------------------------------------------------

  /** Up to rank r, a stacked device has its link exactly while it is active. */
  ghost predicate LinksUpTo(tp: Topology, c: Core, r: int)
    requires ValidTopology(tp) && c.active.Keys == tp.kind.Keys
  {
    forall d {:trigger Stacked(tp, d)} :: Stacked(tp, d) && tp.rank[d] <= r ==> (c.active[d] > 0 <==> d in c.links)
  }

  /** From the devices below and the device itself to all up to its rank. */
  lemma LinksFromBelow(tp: Topology, c: Core, m: Core, t: Core, u: User)
    requires ValidTopology(tp) && u in tp.target && Stacked(tp, tp.target[u])
    requires c.active.Keys == m.active.Keys == t.active.Keys == tp.kind.Keys
    requires LinksUpTo(tp, c, Depth(tp, u)) && LinksUpTo(tp, t, Depth(tp, tp.kind[tp.target[u]].dep))
    requires forall e :: e in tp.kind && e != tp.target[u] ==>
               m.active[e] == c.active[e] && (e in m.links <==> e in c.links)
    requires var d, dep := tp.target[u], tp.kind[tp.target[u]].dep;
             && Frame(tp, m, t, dep, Depth(tp, dep))
             && (forall e :: e in tp.kind && e != d && tp.rank[e] > Depth(tp, dep) ==> (e in t.links <==> e in m.links))
             && (t.active[d] > 0 <==> d in t.links)
    ensures LinksUpTo(tp, t, Depth(tp, u))
  {}

  lemma LinksBelow(tp: Topology, c: Core, m: Core, u: User)
    requires ValidTopology(tp) && u in tp.target && Stacked(tp, tp.target[u])
    requires c.active.Keys == m.active.Keys == tp.kind.Keys && LinksUpTo(tp, c, Depth(tp, u))
    requires forall e :: e in tp.kind && e != tp.target[u] ==>
               m.active[e] == c.active[e] && (e in m.links <==> e in c.links)
    ensures LinksUpTo(tp, m, Depth(tp, tp.kind[tp.target[u]].dep))
  {
    StackBelow(tp, u);
  }

  lemma {:induction false} ReleaseLinksFollow(tp: Topology, c: Core, u: User)
    requires ValidTopology(tp) && Counted(tp, c) && LinksUpTo(tp, c, Depth(tp, u))
    ensures LinksUpTo(tp, Release(tp, c, u), Depth(tp, u))
    decreases Depth(tp, u) + 1
  {
    hide Release;
    ReleaseCases(tp, c, u);
    if GoesOn(tp, c, u) {
      var l, dep := Lowered(tp, c, u), tp.kind[tp.target[u]].dep;
      UncountingKeeps(tp, c, u);
      CountedSame(tp, Uncounting(tp, c, u), l);
      StackBelow(tp, u);
      LinksBelow(tp, c, l, u);
      ReleaseLinksFollow(tp, l, dep);
      ReleaseFrame(tp, l, dep);
      ReleaseLinks(tp, l, dep);
      LinksFromBelow(tp, c, l, Release(tp, l, dep), u);
    } else if u in c.claimed {
      UncountingKeeps(tp, c, u);
    }
  }

  lemma {:induction false} ClaimLinksFollow(tp: Topology, c: Core, u: User, drv: Driver, k: nat)
    requires ValidTopology(tp) && Counted(tp, c) && u !in c.claimed
    requires LinkedUpTo(tp, c, Depth(tp, u)) && LinksUpTo(tp, c, Depth(tp, u))
    ensures LinksUpTo(tp, Claim(tp, c, u, drv, k).c, Depth(tp, u))
    decreases Depth(tp, u) + 1, 1
  {
    if u in tp.target {
      hide Claim, SetUp, Release;
      var d, m := tp.target[u], Counting(tp, c, u);
      ClaimCases(tp, c, u, drv, k);
      if c.active[d] != 0 {
        CountNotNegative(tp, c, d);
      } else if Stacked(tp, d) {
        CountingIsKept(tp, c, u);
        StackedLinksFollow(tp, c, u, drv, k);
      } else {
        SimpleSetUp(tp, m, d, drv, k);
      }
    }
  }

  lemma CountNotNegative(tp: Topology, c: Core, d: Dev)
    requires ValidTopology(tp) && Counted(tp, c) && d in tp.kind
    ensures c.active[d] >= 0
  {}

  lemma {:induction false} StackedLinksFollow(tp: Topology, c: Core, u: User, drv: Driver, k: nat)
    requires ValidTopology(tp) && Counted(tp, c) && u !in c.claimed && u in tp.target
    requires Stacked(tp, tp.target[u]) && c.active.Keys == tp.kind.Keys
    requires c.active[tp.target[u]] == 0 && Counted(tp, Counting(tp, c, u))
    requires LinkedUpTo(tp, c, Depth(tp, u)) && LinksUpTo(tp, c, Depth(tp, u))
    ensures var s := SetUp(tp, Counting(tp, c, u), tp.target[u], drv, k);
            LinksUpTo(tp, if s.code == 0 then s.c else Dropping(s.c, u, tp.target[u]), Depth(tp, u))
    decreases Depth(tp, u) + 1, 0
  {
    hide Claim, SetUp, Release, Counted;
    var d, m := tp.target[u], Counting(tp, c, u);
    var s, dep := SetUp(tp, m, d, drv, k), tp.kind[d].dep;
    var t := if s.code == 0 then s.c else Dropping(s.c, u, d);
    SetUpLinksFollow(tp, c, u, drv, k);
    SetUpLinks(tp, m, d, drv, k);
    SetUpFrame(tp, m, d, drv, k);
    StackBelow(tp, u);
    UserOutsideStack(tp, u);
    LinksBelow2(tp, s.c, t, u);
    LinksFromBelow(tp, c, if s.code == 0 then m else Dropping(m, u, d), t, u);
  }

  lemma LinksBelow2(tp: Topology, x: Core, y: Core, u: User)
    requires ValidTopology(tp) && u in tp.target && Stacked(tp, tp.target[u])
    requires x.active.Keys == y.active.Keys == tp.kind.Keys && x.links == y.links
    requires forall e :: e in tp.kind && e != tp.target[u] ==> y.active[e] == x.active[e]
    requires LinksUpTo(tp, x, Depth(tp, tp.kind[tp.target[u]].dep))
    ensures LinksUpTo(tp, y, Depth(tp, tp.kind[tp.target[u]].dep))
  {
    StackBelow(tp, u);
  }

  lemma {:induction false} SetUpLinksFollow(tp: Topology, c: Core, u: User, drv: Driver, k: nat)
    requires ValidTopology(tp) && Counted(tp, c) && u !in c.claimed && u in tp.target
    requires Stacked(tp, tp.target[u]) && c.active.Keys == tp.kind.Keys
    requires c.active[tp.target[u]] == 0 && Counted(tp, Counting(tp, c, u))
    requires LinkedUpTo(tp, c, Depth(tp, u)) && LinksUpTo(tp, c, Depth(tp, u))
    ensures var d := tp.target[u];
            LinksUpTo(tp, SetUp(tp, Counting(tp, c, u), d, drv, k).c, Depth(tp, tp.kind[d].dep))
    decreases Depth(tp, u)
  {
    hide Claim, SetUp, Release, Counted;
    var d, m := tp.target[u], Counting(tp, c, u);
    var dep := tp.kind[d].dep;
    var r, a := SetUp(tp, m, d, drv, k), Claim(tp, m, dep, drv, k);
    StackBelow(tp, u);
    CountingKeepsBelow(tp, c, u);
    LinksBelow(tp, c, m, u);
    ClaimLinksFollow(tp, m, dep, drv, k);
    ClaimKeeps(tp, m, dep, drv, k);
    OwnLink(tp, a.c, d);
    SetUpCases(tp, m, d, drv, k);
    if a.code == 0 && r.code != 0 {
      var l :| (l == a.c || l == WithoutLink(a.c, d)) && r.c == Release(tp, l, dep);
      CountedSame(tp, a.c, l);
      ReleaseLinksFollow(tp, l, dep);
    }
  }

  /** The link of a stacked device is above the device below it. */
  lemma OwnLink(tp: Topology, c: Core, d: Dev)
    requires ValidTopology(tp) && c.active.Keys == tp.kind.Keys && Stacked(tp, d)
    ensures var r := Depth(tp, tp.kind[d].dep);
            LinksUpTo(tp, c, r) ==> LinksUpTo(tp, WithLink(c, d), r) && LinksUpTo(tp, WithoutLink(c, d), r)
  {
    assert Depth(tp, tp.kind[d].dep) < tp.rank[d];
  }

  /** Every stacked device has its link exactly while it is active. */
  ghost predicate LinksFollow(tp: Topology, c: Core)
    requires ValidTopology(tp) && c.active.Keys == tp.kind.Keys
  {
    forall d {:trigger Stacked(tp, d)} :: Stacked(tp, d) ==> (c.active[d] > 0 <==> d in c.links)
  }

  lemma LinksAbove(tp: Topology, c: Core, t: Core, u: User, r: int)
    requires ValidTopology(tp) && c.active.Keys == t.active.Keys == tp.kind.Keys
    requires LinksFollow(tp, c) && LinksUpTo(tp, t, r) && SameAbove(tp, c, t, r) && Frame(tp, c, t, u, r)
    ensures LinksFollow(tp, t)
  {}

  lemma ClaimLinksStep(tp: Topology, c: Core, u: User, drv: Driver, k: nat)
    requires ValidTopology(tp) && c.active.Keys == tp.kind.Keys && Inv(tp, c) && LinksFollow(tp, c)
    ensures LinksFollow(tp, Claim(tp, c, u, drv, k).c)
  {
    hide Claim, Counted;
    InvParts(tp, c, Depth(tp, u));
    if u in c.claimed {
      ClaimAgain(tp, c, u, drv, k);
    } else {
      ClaimLinksFollow(tp, c, u, drv, k);
      ClaimLinks(tp, c, u, drv, k);
      ClaimFrame(tp, c, u, drv, k);
      LinksAbove(tp, c, Claim(tp, c, u, drv, k).c, u, Depth(tp, u));
    }
  }

  lemma ReleaseLinksStep(tp: Topology, c: Core, u: User)
    requires ValidTopology(tp) && c.active.Keys == tp.kind.Keys && Inv(tp, c) && LinksFollow(tp, c)
    ensures LinksFollow(tp, Release(tp, c, u))
  {
    hide Release, Counted;
    InvParts(tp, c, Depth(tp, u));
    ReleaseLinksFollow(tp, c, u);
    ReleaseLinks(tp, c, u);
    ReleaseFrame(tp, c, u);
    LinksAbove(tp, c, Release(tp, c, u), u, Depth(tp, u));
  }

  /** A claim that fails changes nothing at all: no count, no claimed flag, and
      no link of a stacked device, at any depth. */
  lemma FailedClaimChangesNothing(tp: Topology, c: Core, u: User, drv: Driver, k: nat)
    requires ValidTopology(tp) && c.active.Keys == tp.kind.Keys && Inv(tp, c) && LinksFollow(tp, c)
    requires Claim(tp, c, u, drv, k).code != 0
    ensures var t := Claim(tp, c, u, drv, k).c;
            SameCounts(t, c) &&
            forall d {:trigger Stacked(tp, d)} :: Stacked(tp, d) ==> (d in t.links <==> d in c.links)
  {
    hide Claim, Counted;
    InvParts(tp, c, Depth(tp, u));
    if u in c.claimed {
      ClaimAgain(tp, c, u, drv, k);
    } else {
      ClaimIsAtomic(tp, c, u, drv, k);
    }
    ClaimLinksStep(tp, c, u, drv, k);
  }

  // ---- restarts --------------------------------------------------------------------------

  /** Every stacked device but d, which is active, has its link exactly while it
      is active. */
  ghost predicate LinksBut(tp: Topology, c: Core, d: Dev)
    requires ValidTopology(tp) && c.active.Keys == tp.kind.Keys
  {
    forall e {:trigger Stacked(tp, e)} :: Stacked(tp, e) && e != d ==> (c.active[e] > 0 <==> e in c.links)
  }

  lemma LinksButBelow(tp: Topology, l: Core, t: Core, d: Dev)
    requires ValidTopology(tp) && l.active.Keys == t.active.Keys == tp.kind.Keys && Stacked(tp, d) && LinksBut(tp, l, d)
    requires var dep := tp.kind[d].dep;
             && Frame(tp, l, t, dep, Depth(tp, dep)) && LinksUpTo(tp, t, Depth(tp, dep))
             && SameBut(tp, l, t, Depth(tp, dep), d)
    ensures LinksBut(tp, t, d)
  {}

  lemma LinksButUpTo(tp: Topology, c: Core, d: Dev)
    requires ValidTopology(tp) && c.active.Keys == tp.kind.Keys && Stacked(tp, d) && LinksBut(tp, c, d)
    ensures LinksUpTo(tp, c, Depth(tp, tp.kind[d].dep))
  {}

  lemma ButFromAbove(tp: Topology, l: Core, t: Core, r: int, d: Dev)
    requires ValidTopology(tp) && SameAbove(tp, l, t, r)
    ensures SameBut(tp, l, t, r, d)
  {}

  lemma TakenDownLinks(tp: Topology, c: Core, d: Dev)
    requires ValidTopology(tp) && c.active.Keys == tp.kind.Keys && Inv(tp, c) && Stacked(tp, d) && LinksFollow(tp, c)
    ensures var t := SetDown(tp, c, d); LinksBut(tp, t, d) && d !in t.links
  {
    hide Release, Counted, Inv;
    var l, dep := WithoutLink(c, d), tp.kind[d].dep;
    TakenDown(tp, c, d);
    SameInv(tp, c, l);
    InvParts(tp, l, Depth(tp, dep));
    assert LinksBut(tp, l, d);
    LinksButUpTo(tp, l, d);
    ReleaseLinksFollow(tp, l, dep);
    ReleaseLinks(tp, l, dep);
    ReleaseFrame(tp, l, dep);
    ButFromAbove(tp, l, Release(tp, l, dep), Depth(tp, dep), d);
    LinksButBelow(tp, l, Release(tp, l, dep), d);
    assert Depth(tp, dep) < tp.rank[d];
  }

  lemma SetUpAgainLinks(tp: Topology, m: Core, d: Dev, drv: Driver, k: nat)
    requires ValidTopology(tp) && m.active.Keys == tp.kind.Keys && Inv(tp, m) && Stacked(tp, d) && m.active[d] > 0
    requires tp.kind[d].dep !in m.claimed && LinksBut(tp, m, d) && d !in m.links
    ensures var r := SetUp(tp, m, d, drv, k); LinksFollow(tp, r.c) <==> r.code == 0
  {
    hide Claim, SetUp, Release, Counted, Inv;
    var dep := tp.kind[d].dep;
    var r, a := SetUp(tp, m, d, drv, k), Claim(tp, m, dep, drv, k);
    SetUpAgain(tp, m, d, drv, k);
    SetUpLinks(tp, m, d, drv, k);
    SetUpFrame(tp, m, d, drv, k);
    InvParts(tp, m, Depth(tp, dep));
    LinksButUpTo(tp, m, d);
    ClaimLinksFollow(tp, m, dep, drv, k);
    ClaimKeeps(tp, m, dep, drv, k);
    OwnLink(tp, a.c, d);
    SetUpCases(tp, m, d, drv, k);
    if a.code == 0 && r.code != 0 {
      var l :| (l == a.c || l == WithoutLink(a.c, d)) && r.c == Release(tp, l, dep);
      CountedSame(tp, a.c, l);
      ReleaseLinksFollow(tp, l, dep);
    }
    LinksButBelow(tp, m, r.c, d);
  }

  /** A restart keeps links and activity together exactly if it does not fail. */
  lemma RestartLinksIff(s: Sys, d: Dev, drv: Driver)
    requires ValidSys(s) && Inv(s.tp, s.c) && LinksFollow(s.tp, s.c)
    ensures var t := Step(s, DoRestart(d), drv); t.tp == s.tp && (LinksFollow(t.tp, t.c) <==> !RestartFails(s, d, drv))
  {
    hide SetUp, SetDown, Inv;
    if d in s.tp.kind && s.c.active[d] > 0 {
      if Stacked(s.tp, d) {
        TakenDown(s.tp, s.c, d);
        TakenDownLinks(s.tp, s.c, d);
        SetUpAgainLinks(s.tp, SetDown(s.tp, s.c, d), d, drv, s.calls);
      } else {
        PlainRestart(s, d, drv);
      }
    }
  }

  // ---- runs ------------------------------------------------------------------------------

  lemma StepLinks(s: Sys, x: Op, drv: Driver)
    requires ValidSys(s) && Inv(s.tp, s.c) && LinksFollow(s.tp, s.c)
    requires x.DoRestart? ==> !RestartFails(s, x.d, drv)
    ensures var t := Step(s, x, drv); t.tp.kind == s.tp.kind && LinksFollow(t.tp, t.c)
  {
    hide Claim, Release, Restart, RestartFails, Inv;
    match x {
      case DoClaim(u) => ClaimLinksStep(s.tp, s.c, u, drv, s.calls);
      case DoRelease(u) => ReleaseLinksStep(s.tp, s.c, u);
      case DoMove(u, d) =>
        ReleaseLinksStep(s.tp, s.c, u);
        SameStacks(s, x, drv);
      case DoRemove(u) =>
        ReleaseLinksStep(s.tp, s.c, u);
        SameStacks(s, x, drv);
      case DoRestart(d) => RestartLinksIff(s, d, drv);
    }
  }

  lemma SameStacks(s: Sys, x: Op, drv: Driver)
    requires ValidSys(s) && (x.DoMove? || x.DoRemove?)
    ensures Step(s, x, drv).tp.kind == s.tp.kind && forall d :: Stacked(Step(s, x, drv).tp, d) <==> Stacked(s.tp, d)
  {
    hide Release;
  }

  ghost predicate NoRestartFails(tp: Topology, xs: History<Op>, drv: Driver)
    requires ValidTopology(tp)
  {
    xs.Then? ==>
      && NoRestartFails(tp, xs.before, drv)
      && (xs.last.DoRestart? ==> !RestartFails(Run(tp, xs.before, drv), xs.last.d, drv))
  }

  /** In every state reached without a failed restart a stacked device has its
      link in the kernel exactly while it is active. */
  lemma {:induction false} LinksAreRight(tp: Topology, xs: History<Op>, drv: Driver)
    requires ValidTopology(tp) && ByOutsiders(tp, xs) && NoRestartFails(tp, xs, drv)
    ensures var t := Run(tp, xs, drv); t.tp.kind == tp.kind && LinksFollow(t.tp, t.c)
  {
    CountsAreRight(tp, xs, drv);
    if xs.Then? {
      hide Step, Inv, LinksFollow, RestartFails;
      LinksAreRight(tp, xs.before, drv);
      CountsAreRight(tp, xs.before, drv);
      StepLinks(Run(tp, xs.before, drv), xs.last, drv);
    }
  }
}
