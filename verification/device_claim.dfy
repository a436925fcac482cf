/** Claiming and releasing devices that are stacked on other devices. */
module DeviceClaim {

  type Dev = nat
  type User = nat

  /** A stacked device claims the device below through a user of its own. */
  datatype Kind = Simple | Vlan(dep: User) | MacVlan(dep: User)

  /** Who uses what. A user without an entry in target has no device; rank
      orders the stack, so that no device ends up on top of itself. */
  datatype Topology = Topology(kind: map<Dev, Kind>, target: map<User, Dev>, rank: map<Dev, nat>)

  /** What claiming changes: active counts, claimed users, and the links that
      exist in the kernel for stacked devices. */
  datatype Core = Core(active: map<Dev, int>, claimed: set<User>, links: set<Dev>)

  /** Drivers return zero or a negative code; device.c:114-154 returns 0 or -1. */
  type Code = c: int | c <= 0 witness 0

  /** Result of bringing something up: the state, the code returned, and how
      many driver calls have been made. */
  datatype Ret = Ret(c: Core, code: Code, calls: nat)

  /** drv(k) is what driver call k returns. */
  type Driver = nat -> Code

  predicate Stacked(tp: Topology, d: Dev) {
    d in tp.kind && !tp.kind[d].Simple?
  }

  ghost predicate ValidTopology(tp: Topology) {
    && tp.rank.Keys == tp.kind.Keys
    && (forall u :: u in tp.target ==> tp.target[u] in tp.kind)
    && (forall d {:trigger Stacked(tp, d)} :: Stacked(tp, d) && tp.kind[d].dep in tp.target ==>
          tp.rank[tp.target[tp.kind[d].dep]] < tp.rank[d])
    && (forall d, e {:trigger Stacked(tp, d), Stacked(tp, e)} ::
          Stacked(tp, d) && Stacked(tp, e) && tp.kind[d].dep == tp.kind[e].dep ==> d == e)
  }

  /** How deep the stack below a user is. */
  function Depth(tp: Topology, u: User): int
    requires ValidTopology(tp)
  {
    if u in tp.target then tp.rank[tp.target[u]] else -1
  }

  // ---- the operations -------------------------------------------------------------

  /** One more claimed user and one more on its device. */
  function Counting(tp: Topology, c: Core, u: User): Core
    requires u in tp.target && tp.target[u] in c.active
  {
    c.(claimed := c.claimed + {u}, active := c.active[tp.target[u] := c.active[tp.target[u]] + 1])
  }

  function Uncounting(tp: Topology, c: Core, u: User): Core
    requires u in tp.target && tp.target[u] in c.active
  {
    c.(claimed := c.claimed - {u}, active := c.active[tp.target[u] := c.active[tp.target[u]] - 1])
  }

  /** A failed claim puts the count back to zero. */
  function Dropping(c: Core, u: User, d: Dev): Core {
    c.(active := c.active[d := 0], claimed := c.claimed - {u})
  }

  function Claim(tp: Topology, c: Core, u: User, drv: Driver, k: nat): (r: Ret)
    requires ValidTopology(tp) && c.active.Keys == tp.kind.Keys
    ensures r.c.active.Keys == tp.kind.Keys
    decreases Depth(tp, u) + 1, 2
  {
    if u in c.claimed then Ret(c, 0, k)
    else if u !in tp.target then Ret(c, -1, k)
    else
      var d := tp.target[u];
      var t := Counting(tp, c, u);
      if t.active[d] != 1 then Ret(t, 0, k)
      else
        var r := SetUp(tp, t, d, drv, k);
        if r.code == 0 then r
        else r.(c := Dropping(r.c, u, d))
  }

  function SetUp(tp: Topology, c: Core, d: Dev, drv: Driver, k: nat): (r: Ret)
    requires ValidTopology(tp) && c.active.Keys == tp.kind.Keys && d in tp.kind
    ensures r.c.active.Keys == tp.kind.Keys
    decreases tp.rank[d] + 1, 1
  {
    match tp.kind[d] {
      case Simple => Ret(c, drv(k), k + 1)
      case Vlan(dep) => VlanSetUp(tp, c, d, dep, drv, k)
      case MacVlan(dep) => MacVlanSetUp(tp, c, d, dep, drv, k)
    }
  }

  /** A stacked device is brought up if its link is found: it was made just now or
      was there before, and has not been taken away in between. */
  predicate Found(c: Core, d: Dev, added: Code, kept: Code) {
    (added == 0 || d in c.links) && kept == 0
  }

  function WithLink(c: Core, d: Dev): Core {
    c.(links := c.links + {d})
  }

  function WithoutLink(c: Core, d: Dev): Core {
    c.(links := c.links - {d})
  }

  function VlanSetUp(tp: Topology, c: Core, d: Dev, dep: User, drv: Driver, k: nat): (r: Ret)
    requires ValidTopology(tp) && c.active.Keys == tp.kind.Keys && Stacked(tp, d) && tp.kind[d] == Vlan(dep)
    ensures r.c.active.Keys == tp.kind.Keys
    decreases tp.rank[d] + 1, 0
  {
    var r := Claim(tp, c, dep, drv, k);
    if r.code < 0 then r
    else
      var up := Found(r.c, d, drv(r.calls), drv(r.calls + 1));
      Ret(if up then WithLink(r.c, d) else Release(tp, WithoutLink(r.c, d), dep), if up then 0 else -1, r.calls + 2)
  }

  function MacVlanSetUp(tp: Topology, c: Core, d: Dev, dep: User, drv: Driver, k: nat): (r: Ret)
    requires ValidTopology(tp) && c.active.Keys == tp.kind.Keys && Stacked(tp, d) && tp.kind[d] == MacVlan(dep)
    ensures r.c.active.Keys == tp.kind.Keys
    decreases tp.rank[d] + 1, 0
  {
    var r := Claim(tp, c, dep, drv, k);
    if r.code < 0 then r else MacVlanAdd(tp, r.c, d, dep, drv, r.calls)
  }

  /** The second stage: the device below is claimed, the link is made. */
  function MacVlanAdd(tp: Topology, c: Core, d: Dev, dep: User, drv: Driver, k: nat): (r: Ret)
    requires ValidTopology(tp) && c.active.Keys == tp.kind.Keys && Stacked(tp, d) && tp.kind[d] == MacVlan(dep)
    ensures r.c.active.Keys == tp.kind.Keys
    decreases tp.rank[d], 4
  {
    if drv(k) < 0 then Ret(Release(tp, c, dep), drv(k), k + 1) else MacVlanEnable(tp, c, d, dep, drv, k + 1)
  }

  /** The last stage: the link exists, the device itself is brought up. */
  function MacVlanEnable(tp: Topology, c: Core, d: Dev, dep: User, drv: Driver, k: nat): (r: Ret)
    requires ValidTopology(tp) && c.active.Keys == tp.kind.Keys && Stacked(tp, d) && tp.kind[d] == MacVlan(dep)
    ensures r.c.active.Keys == tp.kind.Keys
    decreases tp.rank[d], 3
  {
    var up := Found(c, d, 0, drv(k));
    Ret(if up then WithLink(c, d) else Release(tp, WithoutLink(c, d), dep), if up then 0 else -1, k + 1)
  }

  function Release(tp: Topology, c: Core, u: User): (r: Core)
    requires ValidTopology(tp) && c.active.Keys == tp.kind.Keys
    ensures r.active.Keys == tp.kind.Keys
    decreases Depth(tp, u) + 1, 2
  {
    if u !in c.claimed || u !in tp.target then c
    else
      var d := tp.target[u];
      var t := Uncounting(tp, c, u);
      if t.active[d] != 0 then t else SetDown(tp, t, d)
  }

  function SetDown(tp: Topology, c: Core, d: Dev): (r: Core)
    requires ValidTopology(tp) && c.active.Keys == tp.kind.Keys && d in tp.kind
    ensures r.active.Keys == tp.kind.Keys
    decreases tp.rank[d] + 1, 0
  {
    match tp.kind[d] {
      case Simple => c
      case Vlan(dep) => assert Stacked(tp, d); Release(tp, WithoutLink(c, d), dep)
      case MacVlan(dep) => assert Stacked(tp, d); Release(tp, WithoutLink(c, d), dep)
    }
  }

  // ---- what they keep ------------------------------------------------------------------

  function UsersOf(tp: Topology, claimed: set<User>, d: Dev): set<User> {
    set u | u in claimed && u in tp.target && tp.target[u] == d
  }

  /** active is the number of claimed users. */
  ghost predicate Counted(tp: Topology, c: Core) {
    && c.active.Keys == tp.kind.Keys && c.claimed <= tp.target.Keys
    && forall d :: d in tp.kind ==> c.active[d] == |UsersOf(tp, c.claimed, d)|
  }

  /** Up to rank r, a stacked device whose own user is claimed is active. */
  ghost predicate LinkedUpTo(tp: Topology, c: Core, r: int)
    requires ValidTopology(tp) && c.active.Keys == tp.kind.Keys
  {
    forall d {:trigger Stacked(tp, d)} ::
      Stacked(tp, d) && tp.rank[d] <= r && tp.kind[d].dep in c.claimed ==> c.active[d] > 0
  }

  /** Up to rank r, an active stacked device has claimed the device below. */
  ghost predicate HeldUpTo(tp: Topology, c: Core, r: int)
    requires ValidTopology(tp) && c.active.Keys == tp.kind.Keys
  {
    forall d {:trigger Stacked(tp, d)} ::
      Stacked(tp, d) && tp.rank[d] <= r && c.active[d] > 0 ==> tp.kind[d].dep in c.claimed
  }

  /** A user that belongs to the stack up to rank r. */
  ghost predicate InStack(tp: Topology, v: User, r: int)
    requires ValidTopology(tp)
  {
    exists d {:trigger Stacked(tp, d)} :: Stacked(tp, d) && tp.rank[d] <= r && tp.kind[d].dep == v
  }

  /** Only u, the stack below it and its devices may differ. */
  ghost predicate Frame(tp: Topology, c: Core, t: Core, u: User, r: int)
    requires ValidTopology(tp) && c.active.Keys == t.active.Keys == tp.kind.Keys
  {
    && (forall v :: v != u && !InStack(tp, v, r) ==> (v in t.claimed <==> v in c.claimed))
    && (forall d :: d in tp.kind && tp.rank[d] > r ==> t.active[d] == c.active[d])
  }

  predicate SameCounts(c: Core, t: Core) {
    c.active == t.active && c.claimed == t.claimed
  }

  lemma UsersAdd(tp: Topology, claimed: set<User>, u: User, d: Dev)
    requires u !in claimed && u in tp.target
    ensures |UsersOf(tp, claimed + {u}, d)| == |UsersOf(tp, claimed, d)| + if tp.target[u] == d then 1 else 0
  {
    if tp.target[u] == d {
      assert UsersOf(tp, claimed + {u}, d) == UsersOf(tp, claimed, d) + {u};
    } else {
      assert UsersOf(tp, claimed + {u}, d) == UsersOf(tp, claimed, d);
    }
  }

  lemma UsersDrop(tp: Topology, claimed: set<User>, u: User, d: Dev)
    requires u in claimed && u in tp.target
    ensures |UsersOf(tp, claimed - {u}, d)| == |UsersOf(tp, claimed, d)| - if tp.target[u] == d then 1 else 0
  {
    UsersAdd(tp, claimed - {u}, u, d);
    assert claimed - {u} + {u} == claimed;
  }

  lemma CountingKeeps(tp: Topology, c: Core, u: User)
    requires ValidTopology(tp) && Counted(tp, c) && u !in c.claimed && u in tp.target
    ensures Counted(tp, Counting(tp, c, u))
  {
    forall d | d in tp.kind ensures Counting(tp, c, u).active[d] == |UsersOf(tp, c.claimed + {u}, d)| {
      UsersAdd(tp, c.claimed, u, d);
    }
  }

  lemma UncountingKeeps(tp: Topology, c: Core, u: User)
    requires ValidTopology(tp) && Counted(tp, c) && u in c.claimed
    ensures Counted(tp, Uncounting(tp, c, u))
    ensures c.active[tp.target[u]] > 0
  {
    forall d | d in tp.kind ensures Uncounting(tp, c, u).active[d] == |UsersOf(tp, c.claimed - {u}, d)| {
      UsersDrop(tp, c.claimed, u, d);
    }
    assert u in UsersOf(tp, c.claimed, tp.target[u]);
  }

  /** What a step on u, with the stack below it up to rank r, keeps. */
  ghost predicate Kept(tp: Topology, c: Core, t: Core, u: User, r: int)
    requires ValidTopology(tp) && c.active.Keys == tp.kind.Keys
  {
    Counted(tp, t) && LinkedUpTo(tp, t, r) && Frame(tp, c, t, u, r)
  }

  /** A step on the user of a stacked device fits into the step on a user of
      the device itself. */
  lemma StepBelow(tp: Topology, c: Core, m: Core, t: Core, u: User, dep: User)
    requires ValidTopology(tp) && c.active.Keys == tp.kind.Keys && u in tp.target
    requires var d := tp.target[u]; Stacked(tp, d) && tp.kind[d].dep == dep
    requires LinkedUpTo(tp, c, Depth(tp, u)) && m.active.Keys == tp.kind.Keys
    requires m.claimed <= c.claimed + {u} && forall v :: v != u ==> (v in m.claimed <==> v in c.claimed)
    requires forall e :: e in tp.kind && e != tp.target[u] ==> m.active[e] == c.active[e]
    requires Kept(tp, m, t, dep, Depth(tp, dep))
    requires dep in t.claimed ==> t.active[tp.target[u]] > 0
    ensures Kept(tp, c, t, u, Depth(tp, u))
  {
    var r, d := Depth(tp, dep), tp.target[u];
    forall e | Stacked(tp, e) && tp.rank[e] <= Depth(tp, u) && tp.kind[e].dep in t.claimed
      ensures t.active[e] > 0
    {
      if e != d && tp.rank[e] > r {
        assert !InStack(tp, tp.kind[e].dep, r);
        assert tp.kind[e].dep != u by { NotOwnDep(tp, u, e); }
      }
    }
    forall v | v != u && !InStack(tp, v, Depth(tp, u)) ensures v in t.claimed <==> v in c.claimed {
      assert v != dep;
    }
  }

  /** A user is not part of the stack below its own device. */
  lemma NotOwnDep(tp: Topology, u: User, e: Dev)
    requires ValidTopology(tp) && u in tp.target && Stacked(tp, e) && tp.rank[e] <= Depth(tp, u)
    ensures tp.kind[e].dep != u
  {}

  lemma {:induction false} ReleaseKeeps(tp: Topology, c: Core, u: User)
    requires ValidTopology(tp) && Counted(tp, c) && LinkedUpTo(tp, c, Depth(tp, u))
    ensures var t := Release(tp, c, u); Kept(tp, c, t, u, Depth(tp, u)) && u !in t.claimed
    decreases Depth(tp, u) + 1, 2
  {
    hide SetDown;
    if u in c.claimed {
      var m := Uncounting(tp, c, u);
      UncountingKeeps(tp, c, u);
      if m.active[tp.target[u]] == 0 {
        SetDownKeeps(tp, c, u);
      } else {
        assert Release(tp, c, u) == m;
      }
    } else {
    }
  }

  lemma {:induction false} SetDownKeeps(tp: Topology, c: Core, u: User)
    requires ValidTopology(tp) && c.active.Keys == tp.kind.Keys && u in c.claimed && u in tp.target
    requires Counted(tp, Uncounting(tp, c, u)) && LinkedUpTo(tp, c, Depth(tp, u))
    requires c.active[tp.target[u]] == 1
    ensures var t := SetDown(tp, Uncounting(tp, c, u), tp.target[u]); Kept(tp, c, t, u, Depth(tp, u)) && u !in t.claimed
    decreases Depth(tp, u) + 1, 0
  {
    hide Release, Counted;
    var m, d := Uncounting(tp, c, u), tp.target[u];
    if tp.kind[d].Simple? {
    } else {
      assert Stacked(tp, d);
      var l, dep := WithoutLink(m, d), tp.kind[d].dep;
      BelowIsLinked(tp, c, l, u);
      ReleaseKeeps(tp, l, dep);
      var t := Release(tp, l, dep);
      StepBelow(tp, c, l, t, u, dep);
      UserOutsideStack(tp, u);
      assert u !in t.claimed;
    }
  }

  lemma BelowIsLinked(tp: Topology, c: Core, l: Core, u: User)
    requires ValidTopology(tp) && c.active.Keys == tp.kind.Keys && u in tp.target && Stacked(tp, tp.target[u])
    requires Counted(tp, Uncounting(tp, c, u)) && LinkedUpTo(tp, c, Depth(tp, u))
    requires SameCounts(Uncounting(tp, c, u), l)
    ensures Counted(tp, l) && LinkedUpTo(tp, l, Depth(tp, tp.kind[tp.target[u]].dep))
  {}

  lemma UserOutsideStack(tp: Topology, u: User)
    requires ValidTopology(tp) && u in tp.target && Stacked(tp, tp.target[u])
    ensures !InStack(tp, u, Depth(tp, tp.kind[tp.target[u]].dep)) && tp.kind[tp.target[u]].dep != u
  {}

  lemma CountedSame(tp: Topology, x: Core, y: Core)
    requires ValidTopology(tp) && Counted(tp, x) && SameCounts(x, y)
    ensures Counted(tp, y)
  {}

  lemma WithoutKeeps(tp: Topology, c: Core, d: Dev, r: int)
    requires ValidTopology(tp) && c.active.Keys == tp.kind.Keys && Counted(tp, c) && LinkedUpTo(tp, c, r)
    ensures var l := WithoutLink(c, d); l.active.Keys == tp.kind.Keys && Counted(tp, l) && LinkedUpTo(tp, l, r)
  {
    hide Counted, LinkedUpTo;
    LinksDoNotMatter(tp, c, WithoutLink(c, d), r);
  }

  /** Kernel links play no part in the counts. */
  lemma LinksDoNotMatter(tp: Topology, c: Core, l: Core, r: int)
    requires ValidTopology(tp) && c.active.Keys == tp.kind.Keys && Counted(tp, c)
             && LinkedUpTo(tp, c, r) && SameCounts(c, l)
    ensures Counted(tp, l) && LinkedUpTo(tp, l, r)
  {
    hide Counted;
    CountedSame(tp, c, l);
  }
}
