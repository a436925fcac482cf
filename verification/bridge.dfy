/** A bridge and its members: a counter that has to agree with flags, through
    failed claims, retries, removals and devices that come and go. A member and
    the device it stands for share a name. */
module Bridge {

  type Name = nat

  /** A device: present is what its users were last told. */
  datatype Device = Device(sysPresent: bool, disabled: bool, deferred: bool, present: bool)

  datatype Member = Member(name: Name, present: bool, claimed: bool, hotplug: bool)

  /** devActive says whether the bridge device itself is claimed, active whether
      it exists in the kernel. ok(k) is the outcome of system call k. */
  datatype State = State(
    members: seq<Member>, nPresent: int, nFailed: int,
    active: bool, devActive: bool, forceActive: bool, bridgeEmpty: bool,
    sysPresent: bool, retry: bool, devices: map<Name, Device>, calls: nat)

  type Outcome = nat -> bool

  // ---- members ---------------------------------------------------------------------

  function Set(s: State, i: nat, m: Member): (t: State)
    requires i < |s.members|
    ensures |t.members| == |s.members|
  {
    s.(members := s.members[i := m])
  }

  /** A member that could not be enabled counts as absent until it is retried. */
  function Fail(s: State, i: nat): (t: State)
    requires i < |s.members|
    ensures |t.members| == |s.members|
  {
    Set(s, i, s.members[i].(present := false, claimed := false)).(nFailed := s.nFailed + 1, nPresent := s.nPresent - 1)
  }

  function EnableInterface(s: State, ok: Outcome): (t: State)
    ensures |t.members| == |s.members|
  {
    if s.active then s else s.(calls := s.calls + 1, active := ok(s.calls))
  }

  function ClaimMember(s: State, i: nat, ok: Outcome): (t: State)
    requires i < |s.members|
    ensures |t.members| == |s.members|
  {
    if s.members[i].claimed then s
    else Set(s, i, s.members[i].(claimed := ok(s.calls))).(calls := s.calls + 1)
  }

  /** Claims a member and adds it to the bridge in the kernel. */
  function JoinMember(s: State, i: nat, ok: Outcome): (t: State)
    requires i < |s.members|
    ensures |t.members| == |s.members|
  {
    var c := ClaimMember(s, i, ok);
    if !c.members[i].claimed then Fail(c, i)
    else if !ok(c.calls) then Fail(c.(calls := c.calls + 1), i)
    else c.(calls := c.calls + 1, sysPresent := true)
  }

  function EnableMember(s: State, i: nat, ok: Outcome): (t: State)
    requires i < |s.members|
    ensures |t.members| == |s.members|
  {
    if !s.members[i].present then s
    else
      var e := EnableInterface(s, ok);
      if !e.active then Fail(e, i) else JoinMember(e, i, ok)
  }

  function DisableMember(s: State, i: nat): (t: State)
    requires i < |s.members|
    ensures |t.members| == |s.members|
  {
    if !s.members[i].present then s else Set(s, i, s.members[i].(claimed := false))
  }

  function RemoveMember(s: State, i: nat): (t: State)
    requires i < |s.members|
    ensures |t.members| == |s.members|
  {
    if !s.members[i].present then s
    else
      var d := if s.devActive then DisableMember(s, i) else s;
      var r := Set(d, i, d.members[i].(present := false)).(nPresent := d.nPresent - 1);
      if r.bridgeEmpty then r
      else r.(forceActive := false, sysPresent := r.sysPresent && r.nPresent != 0)
  }

  /** The member leaves the bridge and gives back its claim. Toggling the
      presence of the device tells only users that remain. */
  function FreeMember(s: State, i: nat): State
    requires i < |s.members|
  {
    var r := RemoveMember(s, i);
    r.(members := r.members[..i] + r.members[i + 1..])
  }

  /** A device of a member has come. */
  function MemberAdd(s: State, i: nat, ok: Outcome): (t: State)
    requires i < |s.members| && !s.members[i].present
    ensures |t.members| == |s.members|
  {
    var a := Set(s, i, s.members[i].(present := true)).(nPresent := s.nPresent + 1);
    var p := a.(sysPresent := a.sysPresent || a.nPresent == 1);
    if p.devActive then EnableMember(p, i, ok) else p
  }

  /** A device of a member has gone. */
  function MemberGone(s: State, i: nat): State
    requires i < |s.members|
  {
    if s.members[i].hotplug then FreeMember(s, i) else RemoveMember(s, i)
  }

  // ---- the whole bridge ---------------------------------------------------------------

  function EnableAll(s: State, i: nat, ok: Outcome): (t: State)
    requires i <= |s.members|
    ensures |t.members| == |s.members|
    decreases |s.members| - i
  {
    if i == |s.members| then s else EnableAll(EnableMember(s, i, ok), i + 1, ok)
  }

  function DisableAll(s: State, i: nat): (t: State)
    requires i <= |s.members|
    ensures |t.members| == |s.members|
    decreases |s.members| - i
  {
    if i == |s.members| then s else DisableAll(DisableMember(s, i), i + 1)
  }

  function RetryMember(s: State, i: nat, ok: Outcome): (t: State)
    requires i < |s.members|
    ensures |t.members| == |s.members|
  {
    var m := s.members[i];
    if m.present || m.name !in s.devices || !s.devices[m.name].present then s
    else EnableMember(Set(s, i, m.(present := true)).(nPresent := s.nPresent + 1), i, ok)
  }

  function RetryAll(s: State, i: nat, ok: Outcome): (t: State)
    requires i <= |s.members|
    ensures |t.members| == |s.members|
    decreases |s.members| - i
  {
    if i == |s.members| then s else RetryAll(RetryMember(s, i, ok), i + 1, ok)
  }

  function SetDown(s: State): State {
    DisableAll(s, 0).(active := false)
  }

  datatype Ret = Ret(s: State, ok: bool)

  /** Arms the retry timer if a member failed. */
  function CheckRetry(s: State): State {
    s.(retry := s.retry || s.nFailed != 0)
  }

  /** Enables every member, and looks for failures. */
  function TryMembers(s: State, ok: Outcome): State {
    CheckRetry(EnableAll(s.(nFailed := 0), 0, ok))
  }

  function Conclude(s: State, ok: Outcome): Ret {
    if !s.forceActive && s.nPresent == 0 then Ret(s.(active := false, sysPresent := false), false)
    else
      var c := s.(calls := s.calls + 1);
      if ok(s.calls) then Ret(c, true) else Ret(SetDown(c), false)
  }

  function FinishSetUp(s: State, ok: Outcome): Ret {
    Conclude(TryMembers(s, ok), ok)
  }

  function SetUp(s: State, ok: Outcome): Ret {
    if s.nPresent != 0 then FinishSetUp(s, ok)
    else if !s.forceActive then Ret(s, false)
    else
      var e := EnableInterface(s, ok);
      if e.active then FinishSetUp(e, ok) else Ret(e, false)
  }

  /** The first claim on the bridge, and the release of the last one. */
  function ClaimBridge(s: State, ok: Outcome): State {
    if s.devActive then s
    else
      var r := SetUp(s.(devActive := true), ok);
      r.s.(devActive := r.ok)
  }

  function ReleaseBridge(s: State): State {
    if s.devActive then SetDown(s.(devActive := false)) else s
  }

  /** An active bridge on new settings: gone for its users, down and up again, and
      back for its users if that works. */
  function Restart(s: State, ok: Outcome): State {
    if !(s.devActive && s.sysPresent) then s
    else
      var r := SetUp(SetDown(s.(sysPresent := false)), ok);
      r.s.(sysPresent := r.ok || r.s.sysPresent)
  }

  function RetryMembers(s: State, ok: Outcome): State {
    RetryAll(s.(retry := false, nFailed := 0), 0, ok)
  }

  // ---- devices coming and going -----------------------------------------------------------

  /** Position of a member, or the number of members. */
  function Find(ms: seq<Member>, name: Name, i: nat): (r: nat)
    requires i <= |ms|
    ensures i <= r <= |ms|
    ensures r < |ms| ==> ms[r].name == name
    ensures forall j :: i <= j < r ==> ms[j].name != name
    decreases |ms| - i
  {
    if i == |ms| || ms[i].name == name then i else Find(ms, name, i + 1)
  }

  function Present(d: Device): bool {
    d.sysPresent && !d.disabled && !d.deferred
  }

  /** Tells the member when the presence of its device has changed. Present
      members are told only that it has gone: that is what the assertion in the
      callback needs. */
  function Refresh(s: State, name: Name, d: Device, ok: Outcome): State
    requires var i := Find(s.members, name, 0);
             i < |s.members| && s.members[i].present ==> d.present
  {
    var n := s.(devices := s.devices[name := d.(present := Present(d))]);
    var i := Find(n.members, name, 0);
    if i == |n.members| || Present(d) == d.present then n
    else if Present(d) then MemberAdd(n, i, ok)
    else MemberGone(n, i)
  }

  /** A device becomes a member. */
  function AddMember(s: State, name: Name, hotplug: bool, ok: Outcome): State
    requires name in s.devices
  {
    if Find(s.members, name, 0) < |s.members| then s
    else
      var n := s.(members := s.members + [Member(name, false, false, hotplug)]);
      if s.devices[name].present then MemberAdd(n, |s.members|, ok) else n
  }
}
