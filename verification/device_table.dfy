/** The devices and their users as the daemon updates them. Device and user
    records are entries of tables here, not objects. */
module DeviceTable {
  import opened DeviceClaim
  import opened DeviceAtomicity
  import opened DeviceRuns

  class Devices {
    var tp: Topology
    var active: map<Dev, int>
    var claimed: set<User>
    var links: set<Dev>
    var calls: nat

    function View(): Core
      reads this
    {
      Core(active, claimed, links)
    }

    ghost function State(): Sys
      reads this
    {
      Sys(tp, View(), calls)
    }

    /** Counts are right, and the stack up to rank r is in order. */
    ghost predicate Valid(r: int)
      reads this
    {
      ValidTopology(tp) && active.Keys == tp.kind.Keys && Counted(tp, View()) && LinkedUpTo(tp, View(), r)
    }

    /** The rank up to which setting a device up or down touches the stack. */
    ghost function Below(d: Dev): int
      requires ValidTopology(tp)
      reads this
    {
      if Stacked(tp, d) then Depth(tp, tp.kind[d].dep) else -1
    }

    constructor (tp: Topology)
      requires ValidTopology(tp)
      ensures forall r :: Valid(r)
      ensures this.tp == tp && View() == Start(tp).c && calls == 0
    {
      hide Counted, LinkedUpTo;
      this.tp := tp;
      active, claimed, links, calls := Start(tp).c.active, {}, {}, 0;
      new;
      StartIsInv(tp);
      forall r ensures Valid(r) {
        InvParts(tp, View(), r);
      }
    }

    method ClaimDevice(u: User, drv: Driver) returns (ret: Code)
      requires ValidTopology(tp) && Valid(Depth(tp, u))
      modifies `active, `claimed, `links, `calls
      ensures Valid(Depth(tp, u))
      ensures Ret(View(), ret, calls) == Claim(tp, old(View()), u, drv, old(calls))
      decreases Depth(tp, u) + 1, 2
    {
      hide SetUp, Counted, LinkedUpTo;
      ghost var was := View();
      ClaimKeeps(tp, was, u, drv, calls);
      if u in claimed {
        return 0;
      }
      if u !in tp.target {
        return -1;
      }
      var d := tp.target[u];
      claimed := claimed + {u};
      active := active[d := active[d] + 1];
      if active[d] != 1 {
        return 0;
      }
      ReadyToSetUp(tp, was, u);
      ret := SetStateUp(d, drv);
      if ret != 0 {
        active := active[d := 0];
        claimed := claimed - {u};
      }
    }

    static lemma ReadyToSetUp(tp: Topology, c: Core, u: User)
      requires ValidTopology(tp) && Counted(tp, c) && LinkedUpTo(tp, c, Depth(tp, u))
               && u !in c.claimed && u in tp.target
      requires c.active[tp.target[u]] == 0
      ensures var m, d := Counting(tp, c, u), tp.target[u];
              Counted(tp, m) && LinkedUpTo(tp, m, if Stacked(tp, d) then Depth(tp, tp.kind[d].dep) else -1)
    {
      CountingKeeps(tp, c, u);
      if Stacked(tp, tp.target[u]) {
        CountingKeepsBelow(tp, c, u);
      } else {
        CountingIsKept(tp, c, u);
      }
    }

    method SetStateUp(d: Dev, drv: Driver) returns (ret: Code)
      requires ValidTopology(tp) && Valid(Below(d)) && d in tp.kind
      modifies `active, `claimed, `links, `calls
      ensures active.Keys == tp.kind.Keys
      ensures Ret(View(), ret, calls) == SetUp(tp, old(View()), d, drv, old(calls))
      decreases tp.rank[d] + 1, 1
    {
      hide VlanSetUp, MacVlanSetUp, Counted, LinkedUpTo;
      match tp.kind[d] {
        case Simple =>
          ret := drv(calls);
          calls := calls + 1;
        case Vlan(dep) => ret := VlanUp(d, dep, drv);
        case MacVlan(dep) => ret := MacVlanUp(d, dep, drv);
      }
    }

    method VlanUp(d: Dev, dep: User, drv: Driver) returns (ret: Code)
      requires ValidTopology(tp) && Stacked(tp, d) && tp.kind[d] == Vlan(dep) && Valid(Depth(tp, dep))
      modifies `active, `claimed, `links, `calls
      ensures active.Keys == tp.kind.Keys
      ensures Ret(View(), ret, calls) == VlanSetUp(tp, old(View()), d, dep, drv, old(calls))
      decreases tp.rank[d] + 1, 0
    {
      hide Claim, Release, Counted, LinkedUpTo, Found, WithLink, WithoutLink;
      ret := ClaimDevice(dep, drv);
      if ret < 0 {
        return;
      }
      ghost var lower := View();
      ret := AddVlan(d, drv);
      if ret != 0 {
        WithoutKeeps(tp, lower, d, Depth(tp, dep));
        ReleaseDevice(dep);
      }
    }

    /** Adds the link, without a look at the outcome, and brings it up. */
    method AddVlan(d: Dev, drv: Driver) returns (ret: Code)
      modifies `links, `calls
      ensures calls == old(calls) + 2
      ensures ret == if Found(old(View()), d, drv(old(calls)), drv(old(calls) + 1)) then 0 else -1
      ensures View() == if ret == 0 then WithLink(old(View()), d) else WithoutLink(old(View()), d)
    {
      if drv(calls) == 0 {
        links := links + {d};
      }
      calls := calls + 1;
      ret := Resolve(d, drv);
      assert links == if ret == 0 then old(links) + {d} else old(links) - {d};
    }

    /** Brings up what has a link of its name, which somebody else may have taken
        away by now. */
    method Resolve(d: Dev, drv: Driver) returns (ret: Code)
      modifies `links, `calls
      ensures calls == old(calls) + 1
      ensures ret == if d in old(links) && drv(old(calls)) == 0 then 0 else -1
      ensures links == if drv(old(calls)) == 0 then old(links) else old(links) - {d}
    {
      if drv(calls) != 0 {
        links := links - {d};
      }
      calls := calls + 1;
      ret := if d in links then 0 else -1;
    }

    method MacVlanUp(d: Dev, dep: User, drv: Driver) returns (ret: Code)
      requires ValidTopology(tp) && Stacked(tp, d) && tp.kind[d] == MacVlan(dep) && Valid(Depth(tp, dep))
      modifies `active, `claimed, `links, `calls
      ensures active.Keys == tp.kind.Keys
      ensures Ret(View(), ret, calls) == MacVlanSetUp(tp, old(View()), d, dep, drv, old(calls))
      decreases tp.rank[d] + 1, 0
    {
      hide Claim, MacVlanAdd, Counted, LinkedUpTo;
      ret := ClaimDevice(dep, drv);
      if ret < 0 {
        return;
      }
      ret := MacVlanLink(d, dep, drv);
    }

    method MacVlanLink(d: Dev, dep: User, drv: Driver) returns (ret: Code)
      requires ValidTopology(tp) && Stacked(tp, d) && tp.kind[d] == MacVlan(dep) && Valid(Depth(tp, dep))
      modifies `active, `claimed, `links, `calls
      ensures active.Keys == tp.kind.Keys
      ensures Ret(View(), ret, calls) == MacVlanAdd(tp, old(View()), d, dep, drv, old(calls))
      decreases tp.rank[d], 4
    {
      hide Release, MacVlanEnable, Counted, LinkedUpTo;
      ret := drv(calls);
      calls := calls + 1;
      if ret < 0 {
        ReleaseDevice(dep);
      } else {
        ret := MacVlanFinish(d, dep, drv);
      }
    }

    method MacVlanFinish(d: Dev, dep: User, drv: Driver) returns (ret: Code)
      requires ValidTopology(tp) && Stacked(tp, d) && tp.kind[d] == MacVlan(dep) && Valid(Depth(tp, dep))
      modifies `active, `claimed, `links, `calls
      ensures active.Keys == tp.kind.Keys
      ensures Ret(View(), ret, calls) == MacVlanEnable(tp, old(View()), d, dep, drv, old(calls))
      decreases tp.rank[d], 3
    {
      hide Release, Counted, LinkedUpTo;
      ghost var lower := View();
      links := links + {d};
      ret := Resolve(d, drv);
      assert ret == if Found(lower, d, 0, drv(old(calls))) then 0 else -1;
      if ret != 0 {
        links := links - {d};
        assert View() == WithoutLink(lower, d);
        WithoutKeeps(tp, lower, d, Depth(tp, dep));
        ReleaseDevice(dep);
      }
    }

    method ReleaseDevice(u: User)
      requires ValidTopology(tp) && Valid(Depth(tp, u))
      modifies `active, `claimed, `links, `calls
      ensures Valid(Depth(tp, u))
      ensures calls == old(calls) && View() == Release(tp, old(View()), u)
      decreases Depth(tp, u) + 1, 2
    {
      hide SetDown, Counted, LinkedUpTo;
      ghost var was := View();
      ReleaseKeeps(tp, was, u);
      if u !in claimed || u !in tp.target {
        return;
      }
      var d := tp.target[u];
      UncountingKeeps(tp, was, u);
      claimed := claimed - {u};
      active := active[d := active[d] - 1];
      assert active[d] >= 0;
      if active[d] != 0 {
        return;
      }
      if tp.kind[d].Simple? {
      } else {
        BelowIsLinked(tp, was, View(), u);
      }
      SetStateDown(d);
    }

    method SetStateDown(d: Dev)
      requires ValidTopology(tp) && d in tp.kind && active.Keys == tp.kind.Keys
      requires Stacked(tp, d) ==> Valid(Below(d))
      modifies `active, `claimed, `links, `calls
      ensures calls == old(calls) && View() == SetDown(tp, old(View()), d)
      decreases tp.rank[d] + 1, 1
    {
      hide Release, Counted, LinkedUpTo;
      ghost var was := View();
      match tp.kind[d] {
        case Simple =>
        case Vlan(dep) =>
          links := links - {d};
          LinksDoNotMatter(tp, was, View(), Depth(tp, dep));
          ReleaseDevice(dep);
        case MacVlan(dep) =>
          links := links - {d};
          LinksDoNotMatter(tp, was, View(), Depth(tp, dep));
          ReleaseDevice(dep);
      }
    }

    /** Puts a user on a device, taking it off the one it was on. */
    method AddUser(u: User, d: Dev)
      requires ValidTopology(tp) && Valid(Depth(tp, u)) && CanMove(tp, u, d)
      modifies this
      ensures ValidSys(State()) && State() == Move(old(State()), u, d)
    {
      hide Release, Counted, LinkedUpTo;
      MovedIsValid(tp, u, d);
      if u in tp.target && tp.target[u] == d {
        return;
      }
      if u in tp.target {
        ReleaseDevice(u);
      } else {
        NoDevice(tp, View(), u);
      }
      tp := Moved(tp, u, d);
    }

    static lemma NoDevice(tp: Topology, c: Core, u: User)
      requires ValidTopology(tp) && c.active.Keys == tp.kind.Keys && u !in tp.target
      ensures Release(tp, c, u) == c
    {}

    method RemoveUser(u: User)
      requires ValidTopology(tp) && Valid(Depth(tp, u))
      modifies this
      ensures ValidSys(State()) && State() == TakeOff(old(State()), u)
    {
      hide Release, Counted, LinkedUpTo;
      MovedIsValid(tp, u, 0);
      ReleaseDevice(u);
      tp := Removed(tp, u);
    }

    /** Takes an active device down and sets it up again. */
    method RestartDevice(d: Dev, drv: Driver)
      requires ValidSys(State()) && Inv(tp, View()) && d in tp.kind
      modifies this
      ensures ValidSys(State()) && State() == Restart(old(State()), d, drv)
    {
      hide SetUp, SetDown, Inv, Counted, LinkedUpTo;
      ghost var was := View();
      ReadyAgain(tp, was, d, Below(d));
      SetStateDown(d);
      var _ := SetStateUp(d, drv);
    }

    static lemma ReadyAgain(tp: Topology, c: Core, d: Dev, r: int)
      requires ValidTopology(tp) && c.active.Keys == tp.kind.Keys && Inv(tp, c) && d in tp.kind
      ensures Counted(tp, c) && LinkedUpTo(tp, c, r)
      ensures Counted(tp, SetDown(tp, c, d)) && LinkedUpTo(tp, SetDown(tp, c, d), r)
    {
      hide Release, Counted;
      InvParts(tp, c, r);
      if Stacked(tp, d) {
        TakenDown(tp, c, d);
        InvParts(tp, SetDown(tp, c, d), r);
      } else {
        assert SetDown(tp, c, d) == c;
      }
    }

    /** Every operation in place: the state the specification gives, and the
        counts right again. */
    method Handle(x: Op, drv: Driver)
      requires ValidSys(State()) && Inv(tp, View()) && (x.DoClaim? || x.DoRelease? ==> Outside(tp, x.u))
      modifies this
      ensures ValidSys(State()) && State() == Step(old(State()), x, drv) && Inv(tp, View())
    {
      hide Claim, Release, Restart, Counted, LinkedUpTo, Inv;
      StepKeeps(State(), x, drv);
      if !x.DoRestart? { InvParts(tp, View(), Depth(tp, x.u)); }
      match x {
        case DoClaim(u) =>
          var _ := ClaimDevice(u, drv);
        case DoRelease(u) => ReleaseDevice(u);
        case DoMove(u, d) =>
          if CanMove(tp, u, d) {
            AddUser(u, d);
          }
        case DoRemove(u) => RemoveUser(u);
        case DoRestart(d) =>
          if d in tp.kind && active[d] > 0 {
            RestartDevice(d, drv);
          }
      }
    }
  }
}
