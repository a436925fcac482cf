/** A claim that fails changes nothing, and a release undoes a claim. */
module DeviceAtomicity {
  import opened DeviceClaim

  /** x and y agree on a user and the stack below it. */
  ghost predicate Agree(tp: Topology, x: Core, y: Core, u: User, r: int)
    requires ValidTopology(tp) && x.active.Keys == y.active.Keys == tp.kind.Keys
  {
    && (u in x.claimed <==> u in y.claimed)
    && (forall v :: InStack(tp, v, r) ==> (v in x.claimed <==> v in y.claimed))
    && (forall d :: d in tp.kind && tp.rank[d] <= r ==> x.active[d] == y.active[d])
  }

  lemma SameFromParts(tp: Topology, x: Core, y: Core, u: User, r: int)
    requires ValidTopology(tp) && x.active.Keys == y.active.Keys == tp.kind.Keys
    requires Agree(tp, x, y, u, r) && Frame(tp, x, y, u, r)
    ensures SameCounts(x, y)
  {}

  /** What is below a stacked device is below its users. */
  lemma StackBelow(tp: Topology, u: User)
    requires ValidTopology(tp) && u in tp.target && Stacked(tp, tp.target[u])
    ensures var dep := tp.kind[tp.target[u]].dep;
            && InStack(tp, dep, Depth(tp, u)) && Depth(tp, dep) < Depth(tp, u)
            && (forall v :: InStack(tp, v, Depth(tp, dep)) ==> InStack(tp, v, Depth(tp, u)))
  {}

  /** Releasing the last user of a stacked device goes on below. */
  predicate GoesOn(tp: Topology, c: Core, u: User)
    requires ValidTopology(tp) && c.active.Keys == tp.kind.Keys
  {
    u in c.claimed && u in tp.target && c.active[tp.target[u]] == 1 && Stacked(tp, tp.target[u])
  }

  function Lowered(tp: Topology, c: Core, u: User): (l: Core)
    requires u in tp.target && tp.target[u] in c.active
    ensures l.active.Keys == c.active.Keys
  {
    WithoutLink(Uncounting(tp, c, u), tp.target[u])
  }

  lemma ReleaseCases(tp: Topology, c: Core, u: User)
    requires ValidTopology(tp) && c.active.Keys == tp.kind.Keys
    ensures GoesOn(tp, c, u) ==> Release(tp, c, u) == Release(tp, Lowered(tp, c, u), tp.kind[tp.target[u]].dep)
    ensures !GoesOn(tp, c, u) ==>
              Release(tp, c, u) == if u in c.claimed && u in tp.target then Uncounting(tp, c, u) else c
  {}

  lemma FrameFromBelow(tp: Topology, c: Core, t: Core, u: User)
    requires ValidTopology(tp) && c.active.Keys == t.active.Keys == tp.kind.Keys
    requires u in tp.target && Stacked(tp, tp.target[u])
    requires var dep := tp.kind[tp.target[u]].dep; Frame(tp, Lowered(tp, c, u), t, dep, Depth(tp, dep))
    ensures Frame(tp, c, t, u, Depth(tp, u))
  {
    StackBelow(tp, u);
  }

  lemma {:induction false} ReleaseFrame(tp: Topology, c: Core, u: User)
    requires ValidTopology(tp) && c.active.Keys == tp.kind.Keys
    ensures Frame(tp, c, Release(tp, c, u), u, Depth(tp, u))
    decreases Depth(tp, u) + 1
  {
    hide Release;
    ReleaseCases(tp, c, u);
    if GoesOn(tp, c, u) {
      ReleaseFrame(tp, Lowered(tp, c, u), tp.kind[tp.target[u]].dep);
      FrameFromBelow(tp, c, Release(tp, c, u), u);
    } else {
    }
  }

  /** Releasing depends only on the user and the stack below it. */
  lemma {:induction false} ReleaseAgrees(tp: Topology, x: Core, y: Core, u: User)
    requires ValidTopology(tp) && x.active.Keys == y.active.Keys == tp.kind.Keys
    requires Agree(tp, x, y, u, Depth(tp, u))
    ensures Agree(tp, Release(tp, x, u), Release(tp, y, u), u, Depth(tp, u))
    decreases Depth(tp, u) + 1
  {
    hide Release;
    ReleaseCases(tp, x, u);
    ReleaseCases(tp, y, u);
    if GoesOn(tp, x, u) {
      var k, l, dep := Lowered(tp, x, u), Lowered(tp, y, u), tp.kind[tp.target[u]].dep;
      LoweredAgrees(tp, x, y, u);
      ReleaseAgrees(tp, k, l, dep);
      ReleaseFrame(tp, k, dep);
      ReleaseFrame(tp, l, dep);
      AgreeFromBelow(tp, k, l, Release(tp, k, dep), Release(tp, l, dep), u, dep);
    } else {
    }
  }

  lemma LoweredAgrees(tp: Topology, x: Core, y: Core, u: User)
    requires ValidTopology(tp) && x.active.Keys == y.active.Keys == tp.kind.Keys
    requires u in tp.target && Stacked(tp, tp.target[u]) && Agree(tp, x, y, u, Depth(tp, u))
    ensures var k, l, dep := Lowered(tp, x, u), Lowered(tp, y, u), tp.kind[tp.target[u]].dep;
            Agree(tp, k, l, u, Depth(tp, u)) && Agree(tp, k, l, dep, Depth(tp, dep))
  {
    StackBelow(tp, u);
  }

  lemma AgreeFromBelow(tp: Topology, k: Core, l: Core, x: Core, y: Core, u: User, dep: User)
    requires ValidTopology(tp) && u in tp.target && Stacked(tp, tp.target[u]) && dep == tp.kind[tp.target[u]].dep
    requires k.active.Keys == l.active.Keys == x.active.Keys == y.active.Keys == tp.kind.Keys
    requires Agree(tp, k, l, u, Depth(tp, u)) && Agree(tp, x, y, dep, Depth(tp, dep))
    requires Frame(tp, k, x, dep, Depth(tp, dep)) && Frame(tp, l, y, dep, Depth(tp, dep))
    ensures Agree(tp, x, y, u, Depth(tp, u))
  {
    UserOutsideStack(tp, u);
  }

  /** Releasing with the same counts gives the same counts. */
  lemma ReleaseSame(tp: Topology, x: Core, y: Core, u: User)
    requires ValidTopology(tp) && x.active.Keys == tp.kind.Keys && SameCounts(x, y)
    ensures SameCounts(Release(tp, x, u), Release(tp, y, u))
  {
    hide Release;
    ReleaseAgrees(tp, x, y, u);
    ReleaseFrame(tp, x, u);
    ReleaseFrame(tp, y, u);
    SameFromParts(tp, Release(tp, x, u), Release(tp, y, u), u, Depth(tp, u));
  }

  /** What setting up a stacked device leaves: either the claim below with the
      link, or that claim given back. */
  lemma SetUpCases(tp: Topology, m: Core, d: Dev, drv: Driver, k: nat)
    requires ValidTopology(tp) && m.active.Keys == tp.kind.Keys && Stacked(tp, d)
    ensures var r, a := SetUp(tp, m, d, drv, k), Claim(tp, m, tp.kind[d].dep, drv, k);
            && (a.code < 0 ==> r.c == a.c && r.code == a.code)
            && (a.code >= 0 && r.code == 0 ==> r.c == WithLink(a.c, d))
            && (a.code >= 0 && r.code != 0 ==>
                  exists l :: (l == a.c || l == WithoutLink(a.c, d)) && r.c == Release(tp, l, tp.kind[d].dep))
  {
    hide Claim, Release;
  }

  lemma ClaimCases(tp: Topology, c: Core, u: User, drv: Driver, k: nat)
    requires ValidTopology(tp) && c.active.Keys == tp.kind.Keys && u !in c.claimed && u in tp.target
    ensures var r, d, m := Claim(tp, c, u, drv, k), tp.target[u], Counting(tp, c, u);
            && (c.active[d] != 0 ==> r == Ret(m, 0, k))
            && (c.active[d] == 0 ==>
                  var s := SetUp(tp, m, d, drv, k);
                  r == if s.code == 0 then s else s.(c := Dropping(s.c, u, d)))
  {
    hide SetUp;
  }

  lemma {:induction false} SetUpFrame(tp: Topology, m: Core, d: Dev, drv: Driver, k: nat)
    requires ValidTopology(tp) && m.active.Keys == tp.kind.Keys && Stacked(tp, d)
    ensures var dep := tp.kind[d].dep; Frame(tp, m, SetUp(tp, m, d, drv, k).c, dep, Depth(tp, dep))
    decreases tp.rank[d] + 1, 0
  {
    hide Claim, SetUp, Release;
    var r, dep := SetUp(tp, m, d, drv, k), tp.kind[d].dep;
    var a := Claim(tp, m, dep, drv, k);
    assert Depth(tp, dep) < tp.rank[d];
    ClaimFrame(tp, m, dep, drv, k);
    SetUpCases(tp, m, d, drv, k);
    if a.code >= 0 && r.code != 0 {
      var l :| (l == a.c || l == WithoutLink(a.c, d)) && r.c == Release(tp, l, dep);
      ReleaseFrame(tp, l, dep);
    }
  }

  lemma {:induction false} ClaimFrame(tp: Topology, c: Core, u: User, drv: Driver, k: nat)
    requires ValidTopology(tp) && c.active.Keys == tp.kind.Keys
    ensures Frame(tp, c, Claim(tp, c, u, drv, k).c, u, Depth(tp, u))
    decreases Depth(tp, u) + 1, 1
  {
    hide SetUp;
    if u !in c.claimed && u in tp.target {
      hide Claim;
      var d, m := tp.target[u], Counting(tp, c, u);
      ClaimCases(tp, c, u, drv, k);
      if c.active[d] == 0 {
        if Stacked(tp, d) {
          SetUpFrame(tp, m, d, drv, k);
          StackBelow(tp, u);
        } else {
          SimpleSetUp(tp, m, d, drv, k);
        }
      }
    }
  }

  lemma SimpleSetUp(tp: Topology, m: Core, d: Dev, drv: Driver, k: nat)
    requires ValidTopology(tp) && m.active.Keys == tp.kind.Keys && d in tp.kind && tp.kind[d].Simple?
    ensures SetUp(tp, m, d, drv, k) == Ret(m, drv(k), k + 1)
  {}

  // ---- a failed claim changes nothing, a release undoes a claim ------------------------

  /** Claiming is atomic: a claim that fails leaves every count and every
      claimed flag as it was, and releasing after one that succeeds does, too;
      however deep the stack, and whichever driver call fails. */
  lemma {:induction false} ClaimIsAtomic(tp: Topology, c: Core, u: User, drv: Driver, k: nat)
    requires ValidTopology(tp) && c.active.Keys == tp.kind.Keys && u !in c.claimed
    requires LinkedUpTo(tp, c, Depth(tp, u))
    ensures var r := Claim(tp, c, u, drv, k);
            && (r.code != 0 ==> SameCounts(r.c, c))
            && (r.code == 0 ==> u in r.c.claimed && SameCounts(Release(tp, r.c, u), c))
    decreases Depth(tp, u) + 1, 1
  {
    if u in tp.target {
      hide Claim, SetUp, Release;
      var d, m := tp.target[u], Counting(tp, c, u);
      ClaimCases(tp, c, u, drv, k);
      if c.active[d] != 0 {
        ReleaseCases(tp, m, u);
        UncountCount(tp, c, u);
      } else {
        SetUpIsAtomic(tp, c, u, drv, k);
        DropCount(tp, c, SetUp(tp, m, d, drv, k).c, u);
      }
    }
  }

  lemma UncountCount(tp: Topology, c: Core, u: User)
    requires u !in c.claimed && u in tp.target && tp.target[u] in c.active
    ensures SameCounts(Uncounting(tp, Counting(tp, c, u), u), c)
  {}

  lemma DropCount(tp: Topology, c: Core, x: Core, u: User)
    requires u !in c.claimed && u in tp.target && tp.target[u] in c.active && c.active[tp.target[u]] == 0
    ensures SameCounts(x, Counting(tp, c, u)) ==> SameCounts(Dropping(x, u, tp.target[u]), c)
  {}

  lemma {:induction false} SetUpIsAtomic(tp: Topology, c: Core, u: User, drv: Driver, k: nat)
    requires ValidTopology(tp) && c.active.Keys == tp.kind.Keys && u !in c.claimed && u in tp.target
    requires LinkedUpTo(tp, c, Depth(tp, u)) && c.active[tp.target[u]] == 0
    ensures var m := Counting(tp, c, u);
            var r := SetUp(tp, m, tp.target[u], drv, k);
            && (r.code != 0 ==> SameCounts(r.c, m))
            && (r.code == 0 ==> u in r.c.claimed && SameCounts(Release(tp, r.c, u), c))
    decreases Depth(tp, u) + 1, 0
  {
    hide Claim, SetUp, Release;
    var d, m := tp.target[u], Counting(tp, c, u);
    if Stacked(tp, d) {
      var r, dep := SetUp(tp, m, d, drv, k), tp.kind[d].dep;
      var a := Claim(tp, m, dep, drv, k);
      CountingKeepsBelow(tp, c, u);
      ClaimIsAtomic(tp, m, dep, drv, k);
      SetUpUndone(tp, m, d, drv, k);
      SetUpCases(tp, m, d, drv, k);
      if r.code == 0 {
        ClaimFrame(tp, m, dep, drv, k);
        UndoStacked(tp, c, a.c, r.c, u);
      }
    } else {
      SimpleSetUp(tp, m, d, drv, k);
      ReleaseCases(tp, m, u);
      UncountCount(tp, c, u);
    }
  }

  /** A set-up that fails gives back what it claimed. */
  lemma SetUpUndone(tp: Topology, m: Core, d: Dev, drv: Driver, k: nat)
    requires ValidTopology(tp) && m.active.Keys == tp.kind.Keys && Stacked(tp, d)
    requires var r, a := SetUp(tp, m, d, drv, k), Claim(tp, m, tp.kind[d].dep, drv, k);
             && (a.code != 0 ==> SameCounts(a.c, m))
             && (a.code == 0 ==> SameCounts(Release(tp, a.c, tp.kind[d].dep), m))
    ensures SetUp(tp, m, d, drv, k).code != 0 ==> SameCounts(SetUp(tp, m, d, drv, k).c, m)
  {
    hide Claim, SetUp, Release;
    var r, dep := SetUp(tp, m, d, drv, k), tp.kind[d].dep;
    var a := Claim(tp, m, dep, drv, k);
    SetUpCases(tp, m, d, drv, k);
    if a.code >= 0 && r.code != 0 {
      var l :| (l == a.c || l == WithoutLink(a.c, d)) && r.c == Release(tp, l, dep);
      ReleaseSame(tp, a.c, l, dep);
    }
  }

  lemma ReleaseUnclaimed(tp: Topology, c: Core, u: User)
    requires ValidTopology(tp) && c.active.Keys == tp.kind.Keys && u !in c.claimed
    ensures Release(tp, c, u) == c
  {}

  lemma CountingKeepsBelow(tp: Topology, c: Core, u: User)
    requires ValidTopology(tp) && c.active.Keys == tp.kind.Keys && u !in c.claimed && u in tp.target
    requires LinkedUpTo(tp, c, Depth(tp, u)) && c.active[tp.target[u]] == 0 && Stacked(tp, tp.target[u])
    ensures var m, dep := Counting(tp, c, u), tp.kind[tp.target[u]].dep;
            dep !in m.claimed && LinkedUpTo(tp, m, Depth(tp, dep))
  {
    UserOutsideStack(tp, u);
  }

  /** Giving back a stacked device gives back the claim below it. */
  lemma UndoStacked(tp: Topology, c: Core, a: Core, r: Core, u: User)
    requires ValidTopology(tp) && c.active.Keys == a.active.Keys == tp.kind.Keys && u !in c.claimed && u in tp.target
    requires c.active[tp.target[u]] == 0 && Stacked(tp, tp.target[u]) && SameCounts(a, r)
    requires var m, dep := Counting(tp, c, u), tp.kind[tp.target[u]].dep;
             Frame(tp, m, a, dep, Depth(tp, dep)) && SameCounts(Release(tp, a, dep), m)
    ensures u in r.claimed && SameCounts(Release(tp, r, u), c)
  {
    hide Release;
    var d, m := tp.target[u], Counting(tp, c, u);
    var l, dep := Lowered(tp, r, u), tp.kind[d].dep;
    UndoParts(tp, c, a, r, u);
    ReleaseCases(tp, r, u);
    ReleaseAgrees(tp, a, l, dep);
    ReleaseFrame(tp, l, dep);
    var t := Release(tp, l, dep);
    assert Agree(tp, c, t, dep, Depth(tp, dep));
    UndoFrame(tp, c, a, l, t, u);
    SameFromParts(tp, c, t, dep, Depth(tp, dep));
  }

  lemma UndoParts(tp: Topology, c: Core, a: Core, r: Core, u: User)
    requires ValidTopology(tp) && c.active.Keys == a.active.Keys == tp.kind.Keys && u !in c.claimed && u in tp.target
    requires c.active[tp.target[u]] == 0 && Stacked(tp, tp.target[u]) && SameCounts(a, r)
    requires var m, dep := Counting(tp, c, u), tp.kind[tp.target[u]].dep; Frame(tp, m, a, dep, Depth(tp, dep))
    ensures var m, l, dep := Counting(tp, c, u), Lowered(tp, r, u), tp.kind[tp.target[u]].dep;
            && u in r.claimed && r.active[tp.target[u]] == 1
            && Agree(tp, a, l, dep, Depth(tp, dep)) && Agree(tp, m, c, dep, Depth(tp, dep))
  {
    UserOutsideStack(tp, u);
  }

  lemma UndoFrame(tp: Topology, c: Core, a: Core, l: Core, t: Core, u: User)
    requires ValidTopology(tp) && c.active.Keys == a.active.Keys == t.active.Keys == tp.kind.Keys
    requires u !in c.claimed && u in tp.target && c.active[tp.target[u]] == 0 && Stacked(tp, tp.target[u])
    requires a.active[tp.target[u]] == 1 && SameCounts(l, Uncounting(tp, a, u))
    requires var m, dep := Counting(tp, c, u), tp.kind[tp.target[u]].dep;
             Frame(tp, m, a, dep, Depth(tp, dep)) && Frame(tp, l, t, dep, Depth(tp, dep))
    ensures var dep := tp.kind[tp.target[u]].dep; Frame(tp, c, t, dep, Depth(tp, dep))
  {
    UserOutsideStack(tp, u);
  }

  lemma SameCountsKeeps(tp: Topology, c: Core, x: Core, y: Core, u: User, r: int)
    requires ValidTopology(tp) && c.active.Keys == x.active.Keys == tp.kind.Keys
             && Kept(tp, c, x, u, r) && SameCounts(x, y)
    ensures Kept(tp, c, y, u, r)
  {
    hide Counted;
    CountedSame(tp, x, y);
    assert LinkedUpTo(tp, y, r);
    assert Frame(tp, c, y, u, r);
  }

  lemma CountingIsKept(tp: Topology, c: Core, u: User)
    requires ValidTopology(tp) && Counted(tp, c) && LinkedUpTo(tp, c, Depth(tp, u)) && u !in c.claimed && u in tp.target
    ensures Kept(tp, c, Counting(tp, c, u), u, Depth(tp, u))
  {
    CountingKeeps(tp, c, u);
    forall e | Stacked(tp, e) && tp.rank[e] <= Depth(tp, u) ensures tp.kind[e].dep != u {
      NotOwnDep(tp, u, e);
    }
  }

  lemma {:induction false} ClaimKeeps(tp: Topology, c: Core, u: User, drv: Driver, k: nat)
    requires ValidTopology(tp) && Counted(tp, c) && LinkedUpTo(tp, c, Depth(tp, u))
    ensures Kept(tp, c, Claim(tp, c, u, drv, k).c, u, Depth(tp, u))
    decreases Depth(tp, u) + 1, 1
  {
    if u in c.claimed || u !in tp.target {
      assert Claim(tp, c, u, drv, k).c == c;
    } else {
      hide Claim, SetUp, Release;
      var r, d, m := Claim(tp, c, u, drv, k), tp.target[u], Counting(tp, c, u);
      CountingIsKept(tp, c, u);
      ClaimCases(tp, c, u, drv, k);
      ClaimIsAtomic(tp, c, u, drv, k);
      if r.code != 0 {
        SameCountsKeeps(tp, c, c, r.c, u, Depth(tp, u));
      } else if c.active[d] == 0 {
        if Stacked(tp, d) {
          StackedKeeps(tp, c, u, drv, k);
        } else {
          SimpleSetUp(tp, m, d, drv, k);
        }
      }
    }
  }

  lemma {:induction false} StackedKeeps(tp: Topology, c: Core, u: User, drv: Driver, k: nat)
    requires ValidTopology(tp) && c.active.Keys == tp.kind.Keys && LinkedUpTo(tp, c, Depth(tp, u))
    requires u !in c.claimed && u in tp.target && c.active[tp.target[u]] == 0 && Stacked(tp, tp.target[u])
    requires Counted(tp, Counting(tp, c, u)) && SetUp(tp, Counting(tp, c, u), tp.target[u], drv, k).code == 0
    ensures Kept(tp, c, SetUp(tp, Counting(tp, c, u), tp.target[u], drv, k).c, u, Depth(tp, u))
    decreases Depth(tp, u) + 1, 0
  {
    hide Claim, SetUp, Counted;
    var d, m := tp.target[u], Counting(tp, c, u);
    var dep := tp.kind[d].dep;
    var r, a := SetUp(tp, m, d, drv, k), Claim(tp, m, dep, drv, k);
    CountingKeepsBelow(tp, c, u);
    ClaimKeeps(tp, m, dep, drv, k);
    SetUpCases(tp, m, d, drv, k);
    ClaimFrame(tp, m, dep, drv, k);
    SameCountsKeeps(tp, m, a.c, r.c, dep, Depth(tp, dep));
    StepBelow(tp, c, m, r.c, u, dep);
  }
}
