/** The bridge as the daemon updates it: flags and counter change in place, one
    member after the other. Member and device records are entries of a list and
    a table here, not objects. */
module BridgeDaemon {
  import opened Bridge
  import opened BridgeRuns

  class BridgeState {
    var members: seq<Member>
    var nPresent: int
    var nFailed: int
    var active: bool
    var devActive: bool
    var forceActive: bool
    var bridgeEmpty: bool
    var sysPresent: bool
    var retry: bool
    var devices: map<Name, Device>
    var calls: nat

    function View(): State
      reads this
    {
      State(members, nPresent, nFailed, active, devActive, forceActive, bridgeEmpty, sysPresent, retry, devices, calls)
    }

    constructor ()
      ensures View() == NEW
    {
      members, nPresent, nFailed := [], 0, 0;
      active, devActive, forceActive, bridgeEmpty := false, false, false, false;
      sysPresent, retry, devices, calls := false, false, map[], 0;
    }

    /** One call into the system. */
    method System(ok: Outcome) returns (r: bool)
      modifies `calls
      ensures calls == old(calls) + 1 && r == ok(old(calls))
    {
      r := ok(calls);
      calls := calls + 1;
    }

    method EnableBridgeInterface(ok: Outcome) returns (r: bool)
      modifies this
      ensures View() == EnableInterface(old(View()), ok) && r == active
    {
      if active {
        return true;
      }
      r := System(ok);
      if r {
        active := true;
      }
    }

    method FailMember(i: nat)
      requires i < |members|
      modifies this
      ensures View() == Fail(old(View()), i)
    {
      nFailed := nFailed + 1;
      members := members[i := members[i].(present := false)];
      nPresent := nPresent - 1;
      members := members[i := members[i].(claimed := false)];
    }

    method ClaimOne(i: nat, ok: Outcome)
      requires i < |members|
      modifies this
      ensures View() == ClaimMember(old(View()), i, ok)
    {
      if !members[i].claimed {
        var c := System(ok);
        members := members[i := members[i].(claimed := c)];
      }
    }

    method BridgeJoinMember(i: nat, ok: Outcome)
      requires i < |members|
      modifies this
      ensures View() == JoinMember(old(View()), i, ok)
    {
      hide Fail, ClaimMember;
      ClaimOne(i, ok);
      if !members[i].claimed {
        FailMember(i);
        return;
      }
      var added := System(ok);
      if !added {
        FailMember(i);
        return;
      }
      sysPresent := true;
    }

    method BridgeEnableMember(i: nat, ok: Outcome)
      requires i < |members|
      modifies this
      ensures View() == EnableMember(old(View()), i, ok)
    {
      hide Fail, EnableInterface, JoinMember;
      if !members[i].present {
        return;
      }
      var up := EnableBridgeInterface(ok);
      if up {
        BridgeJoinMember(i, ok);
      } else {
        FailMember(i);
      }
    }

    method BridgeDisableMember(i: nat)
      requires i < |members|
      modifies this
      ensures View() == DisableMember(old(View()), i)
    {
      if !members[i].present {
        return;
      }
      members := members[i := members[i].(claimed := false)];
    }

    method BridgeRemoveMember(i: nat)
      requires i < |members|
      modifies this
      ensures View() == RemoveMember(old(View()), i)
    {
      if !members[i].present {
        return;
      }
      if devActive {
        BridgeDisableMember(i);
      }
      members := members[i := members[i].(present := false)];
      nPresent := nPresent - 1;
      if bridgeEmpty {
        return;
      }
      forceActive := false;
      if nPresent == 0 {
        sysPresent := false;
      }
    }

    method BridgeFreeMember(i: nat)
      requires i < |members|
      modifies this
      ensures View() == FreeMember(old(View()), i)
    {
      hide RemoveMember;
      BridgeRemoveMember(i);
      members := members[..i] + members[i + 1..];
    }

    /** A device of a member has come. The requirement is the assertion in the
        callback. */
    method MemberAdded(i: nat, ok: Outcome)
      requires i < |members| && !members[i].present
      modifies this
      ensures View() == MemberAdd(old(View()), i, ok)
    {
      hide EnableMember;
      members := members[i := members[i].(present := true)];
      nPresent := nPresent + 1;
      if nPresent == 1 {
        sysPresent := true;
      }
      if devActive {
        BridgeEnableMember(i, ok);
      }
    }

    method MemberRemoved(i: nat)
      requires i < |members|
      modifies this
      ensures View() == MemberGone(old(View()), i)
    {
      hide RemoveMember, FreeMember;
      if members[i].hotplug {
        BridgeFreeMember(i);
        return;
      }
      if members[i].present {
        BridgeRemoveMember(i);
      } else {
        assert RemoveMember(View(), i) == View() by { StaysRemoved(View(), i); }
      }
    }

    static lemma StaysRemoved(s: State, i: nat)
      requires i < |s.members| && !s.members[i].present
      ensures RemoveMember(s, i) == s
    {}

    method BridgeSetDown()
      modifies this
      ensures View() == SetDown(old(View()))
    {
      hide DisableMember;
      for i := 0 to |members|
        invariant |members| == |old(members)|
        invariant DisableAll(View(), i) == DisableAll(old(View()), 0)
      {
        BridgeDisableMember(i);
      }
      active := false;
    }

    method EnableEach(ok: Outcome)
      modifies this
      ensures View() == EnableAll(old(View()), 0, ok)
    {
      hide EnableMember;
      for i := 0 to |members|
        invariant |members| == |old(members)|
        invariant EnableAll(View(), i, ok) == EnableAll(old(View()), 0, ok)
      {
        BridgeEnableMember(i, ok);
      }
    }

    method EnableMembers(ok: Outcome)
      modifies this
      ensures View() == TryMembers(old(View()), ok)
    {
      hide EnableAll;
      nFailed := 0;
      EnableEach(ok);
      BridgeCheckRetry();
    }

    method BridgeCheckRetry()
      modifies this
      ensures View() == CheckRetry(old(View()))
    {
      if nFailed != 0 {
        retry := true;
      }
    }

    /** New settings are applied to the bridge. */
    method ApplyConfig(ok: Outcome)
      modifies this
      ensures View() == Restart(old(View()), ok)
    {
      hide SetUp, SetDown;
      if !devActive || !sysPresent {
        return;
      }
      sysPresent := false;
      BridgeSetDown();
      var up := BridgeSetUp(ok);
      if up {
        sysPresent := true;
      }
    }

    method BridgeSetUp(ok: Outcome) returns (up: bool)
      modifies this
      ensures Ret(View(), up) == SetUp(old(View()), ok)
    {
      hide TryMembers, EnableInterface, SetDown;
      if nPresent == 0 {
        if !forceActive {
          return false;
        }
        var enabled := EnableBridgeInterface(ok);
        if !enabled {
          return false;
        }
      }
      EnableMembers(ok);
      if !forceActive && nPresent == 0 {
        active := false;
        sysPresent := false;
        return false;
      }
      up := System(ok);
      if !up {
        BridgeSetDown();
      }
    }

    method Claim(ok: Outcome)
      modifies this
      ensures View() == ClaimBridge(old(View()), ok)
    {
      hide SetUp;
      if devActive {
        return;
      }
      devActive := true;
      devActive := BridgeSetUp(ok);
    }

    method Release()
      modifies this
      ensures View() == ReleaseBridge(old(View()))
    {
      hide SetDown;
      if !devActive {
        return;
      }
      devActive := false;
      BridgeSetDown();
    }

    method BridgeRetryMembers(ok: Outcome)
      modifies this
      ensures View() == RetryMembers(old(View()), ok)
    {
      hide RetryMember;
      retry := false;
      nFailed := 0;
      ghost var start := View();
      for i := 0 to |members|
        invariant |members| == |start.members|
        invariant RetryAll(View(), i, ok) == RetryAll(start, 0, ok)
      {
        RetryOne(i, ok);
      }
    }

    method RetryOne(i: nat, ok: Outcome)
      requires i < |members|
      modifies this
      ensures View() == RetryMember(old(View()), i, ok)
    {
      hide EnableMember;
      var m := members[i];
      if m.present {
        return;
      }
      if m.name !in devices || !devices[m.name].present {
        return;
      }
      members := members[i := m.(present := true)];
      nPresent := nPresent + 1;
      BridgeEnableMember(i, ok);
    }

    method RefreshPresent(name: Name, d: Device, ok: Outcome)
      requires CanRefresh(View(), name, d)
      modifies this
      ensures View() == Refresh(old(View()), name, d, ok)
    {
      hide MemberAdd, MemberGone;
      var state := d.sysPresent;
      if d.disabled || d.deferred {
        state := false;
      }
      devices := devices[name := d.(present := state)];
      if d.present == state {
        return;
      }
      var i := Find(members, name, 0);
      if i == |members| {
        return;
      }
      if state {
        MemberAdded(i, ok);
      } else {
        MemberRemoved(i);
      }
    }

    /** What a refresh of a looked-up device needs, and keeps. */
    static lemma RefreshReady(s: State, name: Name, d: Device, ok: Outcome)
      requires Inv(s) && d.present == DeviceOf(s, name).present
      ensures CanRefresh(Get(s, name), name, d) && Inv(Refresh(Get(s, name), name, d, ok))
    {
      hide Refresh, Inv;
      GetKeeps(s, name);
      RefreshKeeps(Get(s, name), name, d, ok);
    }

    /** device_get */
    method Lookup(name: Name) returns (d: Device)
      modifies `devices
      ensures View() == Get(old(View()), name) && d == DeviceOf(old(View()), name)
    {
      d := DeviceOf(View(), name);
      devices := devices[name := d];
    }

    /** A device_set_present call, for a device that may be a member. */
    method SetPresent(name: Name, b: bool, ok: Outcome)
      requires Inv(View())
      modifies this
      ensures View() == Step(old(View()), Input.SetPresent(name, b), ok)
    {
      hide Refresh, Inv, CanRefresh, DeviceOf, Get;
      ghost var s := View();
      var d := Lookup(name);
      if d.sysPresent != b {
        RefreshReady(s, name, d.(sysPresent := b), ok);
        RefreshPresent(name, d.(sysPresent := b), ok);
      }
    }

    method SetDisabled(name: Name, b: bool, ok: Outcome)
      requires Inv(View())
      modifies this
      ensures View() == Step(old(View()), Input.SetDisabled(name, b), ok)
    {
      hide Refresh, Inv, CanRefresh, DeviceOf, Get;
      ghost var s := View();
      var d := Lookup(name);
      RefreshReady(s, name, d.(disabled := b), ok);
      RefreshPresent(name, d.(disabled := b), ok);
    }

    method SetDeferred(name: Name, b: bool, ok: Outcome)
      requires Inv(View())
      modifies this
      ensures View() == Step(old(View()), Input.SetDeferred(name, b), ok)
    {
      hide Refresh, Inv, CanRefresh, DeviceOf, Get;
      ghost var s := View();
      var d := Lookup(name);
      RefreshReady(s, name, d.(deferred := b), ok);
      RefreshPresent(name, d.(deferred := b), ok);
    }

    method CreateMember(name: Name, hotplug: bool, ok: Outcome)
      requires name in devices
      modifies this
      ensures View() == AddMember(old(View()), name, hotplug, ok)
    {
      hide MemberAdd;
      if Find(members, name, 0) < |members| {
        return;
      }
      members := members + [Member(name, false, false, hotplug)];
      if devices[name].present {
        MemberAdded(|members| - 1, ok);
      }
    }

    /** A device is taken off the list of members. */
    method RemoveByName(name: Name)
      modifies this
      ensures var i := Find(old(members), name, 0);
              View() == if i < |old(members)| then FreeMember(old(View()), i) else old(View())
    {
      hide FreeMember;
      var i := Find(members, name, 0);
      if i < |members| {
        BridgeFreeMember(i);
      }
    }

    /** Whatever happens to the bridge: the runs of the model are the runs of
        the daemon, and the counter stays right. */
    method Handle(x: Input, ok: Outcome)
      requires Inv(View())
      modifies this
      ensures View() == Step(old(View()), x, ok) && Inv(View())
    {
      hide Refresh, AddMember, FreeMember, ClaimBridge, ReleaseBridge, RetryMembers, Restart;
      hide Inv, CanRefresh, DeviceOf, Get;
      StepKeeps(View(), x, ok);
      match x {
        case SetPresent(name, b) => SetPresent(name, b, ok);
        case SetDisabled(name, b) => SetDisabled(name, b, ok);
        case SetDeferred(name, b) => SetDeferred(name, b, ok);
        case Join(name, hotplug) =>
          var d := Lookup(name);
          CreateMember(name, hotplug, ok);
        case Leave(name) => RemoveByName(name);
        case Up => Claim(ok);
        case Down => Release();
        case RetryTimer =>
          if retry { BridgeRetryMembers(ok); }
        case Prepare => forceActive, sysPresent := true, true;
        case AllowEmpty(b) => bridgeEmpty := b;
        case ConfigDone => BridgeCheckRetry();
        case NewSettings => ApplyConfig(ok);
      }
    }
  }
}
