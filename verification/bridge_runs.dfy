/** What every run of a bridge keeps. */
module BridgeRuns {
  import opened Events
  import opened Bridge

  /** How many members are marked present. */
  function Count(ms: seq<Member>): (r: nat)
    ensures r <= |ms|
  {
    if ms == [] then 0 else Count(ms[1..]) + if ms[0].present then 1 else 0
  }

  lemma {:induction false} CountSet(ms: seq<Member>, i: nat, m: Member)
    requires i < |ms|
    ensures Count(ms[i := m]) == Count(ms) - (if ms[i].present then 1 else 0) + (if m.present then 1 else 0)
    decreases |ms|
  {
    if i == 0 {
      assert ms[0 := m][1..] == ms[1..];
    } else {
      CountSet(ms[1..], i - 1, m);
      assert ms[i := m][1..] == ms[1..][i - 1 := m];
    }
  }

  lemma {:induction false} CountConcat(ms: seq<Member>, ns: seq<Member>)
    ensures Count(ms + ns) == Count(ms) + Count(ns)
    decreases |ms|
  {
    if ms == [] {
      assert ms + ns == ns;
    } else {
      CountConcat(ms[1..], ns);
      assert (ms + ns)[1..] == ms[1..] + ns;
    }
  }

  lemma {:induction false} CountPositive(ms: seq<Member>, i: nat)
    requires i < |ms| && ms[i].present
    ensures Count(ms) > 0
    decreases |ms|
  {
    if i > 0 { CountPositive(ms[1..], i - 1); }
  }

  ghost predicate Distinct(ms: seq<Member>) {
    forall i, j :: 0 <= i < j < |ms| ==> ms[i].name != ms[j].name
  }

  /** A member marked present has a present device. */
  ghost predicate Backed(s: State) {
    forall i :: 0 <= i < |s.members| ==>
      s.members[i].name in s.devices && (s.members[i].present ==> s.devices[s.members[i].name].present)
  }

  /** The counter agrees with the flags. */
  ghost predicate Counted(s: State) {
    Distinct(s.members) && Backed(s) && s.nPresent == Count(s.members)
  }

  /** And a bridge with a present member is present itself. */
  ghost predicate Inv(s: State) {
    Counted(s) && (s.nPresent > 0 ==> s.sysPresent)
  }

  /** Same members and devices, apart from flags; fewer or as many present. */
  ghost predicate Weaker(s: State, t: State) {
    && |t.members| == |s.members| && t.devices == s.devices && t.devActive == s.devActive
    && t.bridgeEmpty == s.bridgeEmpty
    && t.forceActive == s.forceActive
    && forall j :: 0 <= j < |s.members| ==>
         t.members[j].name == s.members[j].name && t.members[j].hotplug == s.members[j].hotplug
         && (t.members[j].present ==> s.members[j].present)
  }

  /** Member i was changed, the others were not. */
  ghost predicate OnlyAt(s: State, t: State, i: nat) {
    |t.members| == |s.members| && forall j :: 0 <= j < |s.members| && j != i ==> t.members[j] == s.members[j]
  }

  /** Changing the flags of one member and the counter with it. */
  lemma SetKeeps(s: State, t: State, i: nat, m: Member)
    requires i < |s.members| && Counted(s) && t.members == s.members[i := m] && t.devices == s.devices
    requires m.name == s.members[i].name && (m.present ==> s.devices[m.name].present)
    requires t.nPresent == s.nPresent - (if s.members[i].present then 1 else 0) + (if m.present then 1 else 0)
    ensures Counted(t) && OnlyAt(s, t, i)
  {
    CountSet(s.members, i, m);
  }

  lemma BackedAt(s: State, i: nat)
    requires i < |s.members| && Counted(s)
    ensures s.members[i].name in s.devices && (s.members[i].present ==> s.devices[s.members[i].name].present)
  {}

  lemma FailKeeps(s: State, i: nat)
    requires i < |s.members| && Counted(s) && s.members[i].present
    ensures var t := Fail(s, i); Counted(t) && Weaker(s, t) && OnlyAt(s, t, i) && t.nPresent == s.nPresent - 1
  {
    hide Counted;
    SetKeeps(s, Fail(s, i), i, s.members[i].(present := false, claimed := false));
  }

  /** A present member was enabled: it is claimed or absent now. */
  ghost predicate Enabled(s: State, t: State, i: nat)
    requires i < |s.members|
  {
    && Counted(t) && Weaker(s, t) && OnlyAt(s, t, i)
    && (if t.members[i].present then t.nPresent == s.nPresent && t.members[i].claimed && t.sysPresent
        else t.nPresent == s.nPresent - 1 && !t.members[i].claimed && t.sysPresent == s.sysPresent)
  }

  lemma FailIsEnabled(s: State, c: State, i: nat)
    requires i < |s.members| && Counted(c) && Weaker(s, c) && OnlyAt(s, c, i) && c.members[i].present
    requires c.nPresent == s.nPresent && c.sysPresent == s.sysPresent
    ensures Enabled(s, Fail(c, i), i)
  {
    hide Counted;
    FailKeeps(c, i);
    FailedFlags(c, i);
  }

  lemma JoinMemberKeeps(s: State, i: nat, ok: Outcome)
    requires i < |s.members| && Counted(s) && s.members[i].present
    ensures Enabled(s, JoinMember(s, i, ok), i)
  {
    hide Fail, Counted, ClaimMember;
    var c := ClaimMember(s, i, ok);
    ClaimKeeps(s, i, ok);
    if !c.members[i].claimed {
      FailIsEnabled(s, c, i);
    } else if !ok(c.calls) {
      var d := c.(calls := c.calls + 1);
      SameMembers(c, d);
      FailIsEnabled(s, d, i);
    } else {
      SameMembers(c, c.(calls := c.calls + 1, sysPresent := true));
    }
  }

  lemma EnableMemberKeeps(s: State, i: nat, ok: Outcome)
    requires i < |s.members| && Counted(s)
    ensures var t := EnableMember(s, i, ok); if s.members[i].present then Enabled(s, t, i) else t == s
  {
    if s.members[i].present {
      hide Fail, Counted, EnableInterface, JoinMember;
      InterfaceKeeps(s, ok);
      var e := EnableInterface(s, ok);
      SameMembers(s, e);
      if !e.active {
        FailIsEnabled(s, e, i);
      } else {
        JoinMemberKeeps(e, i, ok);
      }
    }
  }

  lemma InterfaceKeeps(s: State, ok: Outcome)
    ensures var e := EnableInterface(s, ok);
            e.members == s.members && e.devices == s.devices && e.nPresent == s.nPresent && e.sysPresent == s.sysPresent
            && e.devActive == s.devActive && e.bridgeEmpty == s.bridgeEmpty && e.forceActive == s.forceActive
  {}

  lemma FailedFlags(s: State, i: nat)
    requires i < |s.members|
    ensures var t := Fail(s, i); !t.members[i].present && !t.members[i].claimed && t.sysPresent == s.sysPresent
  {}

  lemma SameMembers(s: State, t: State)
    requires Counted(s) && t.members == s.members && t.devices == s.devices && t.nPresent == s.nPresent
    ensures Counted(t)
  {}

  lemma SetWeakens(s: State, t: State, i: nat, m: Member)
    requires i < |s.members| && t == s.(members := s.members[i := m], calls := t.calls)
    requires m == s.members[i].(claimed := m.claimed)
    ensures Weaker(s, t) && OnlyAt(s, t, i)
  {}

  lemma Claimed(s: State, i: nat, ok: Outcome)
    requires i < |s.members| && !s.members[i].claimed
    ensures var m := s.members[i].(claimed := ok(s.calls));
            ClaimMember(s, i, ok) == s.(members := s.members[i := m], calls := s.calls + 1)
  {}

  lemma ClaimKeeps(s: State, i: nat, ok: Outcome)
    requires i < |s.members| && Counted(s)
    ensures var t := ClaimMember(s, i, ok);
            && Counted(t) && Weaker(s, t) && OnlyAt(s, t, i) && t.nPresent == s.nPresent && t.sysPresent == s.sysPresent
            && t.members[i].present == s.members[i].present && t.active == s.active
  {
    hide Counted, Weaker, OnlyAt;
    if s.members[i].claimed {
      SetWeakens(s, s, i, s.members[i]);
    } else {
      hide ClaimMember;
      BackedAt(s, i);
      var m := s.members[i].(claimed := ok(s.calls));
      var t := s.(members := s.members[i := m], calls := s.calls + 1);
      Claimed(s, i, ok);
      SetKeeps(s, t, i, m);
      SetWeakens(s, t, i, m);
    }
  }

  lemma DisableMemberKeeps(s: State, i: nat)
    requires i < |s.members| && Counted(s)
    ensures var t := DisableMember(s, i);
            && Counted(t) && Weaker(s, t) && OnlyAt(s, t, i) && t.nPresent == s.nPresent && t.sysPresent == s.sysPresent
            && t.members[i].present == s.members[i].present
            && (if s.members[i].present then !t.members[i].claimed else t == s)
  {
    hide Counted;
    BackedAt(s, i);
    if !s.members[i].present {
    } else {
      SetKeeps(s, DisableMember(s, i), i, s.members[i].(claimed := false));
    }
  }

  lemma RemoveMemberKeeps(s: State, i: nat)
    requires i < |s.members| && Inv(s)
    ensures var t := RemoveMember(s, i);
            && Inv(t) && OnlyAt(s, t, i) && !t.members[i].present && t.members[i].name == s.members[i].name
            && t.devices == s.devices && t.devActive == s.devActive
            && (t.members[i].claimed ==> s.members[i].claimed && (s.members[i].present ==> !s.devActive))
  {
    hide Counted, DisableMember;
    if !s.members[i].present {
    } else {
      DisableMemberKeeps(s, i);
      var d := if s.devActive then DisableMember(s, i) else s;
      var r := Set(d, i, d.members[i].(present := false)).(nPresent := d.nPresent - 1);
      SetKeeps(d, r, i, d.members[i].(present := false));
      if r.bridgeEmpty {
      } else {
        SameMembers(r, r.(forceActive := false, sysPresent := r.sysPresent && r.nPresent != 0));
      }
    }
  }

  lemma FreeMemberKeeps(s: State, i: nat)
    requires i < |s.members| && Inv(s)
    ensures var t := FreeMember(s, i); Inv(t) && t.devices == s.devices && t.devActive == s.devActive
    ensures forall m :: m in FreeMember(s, i).members ==> m in s.members && m.name != s.members[i].name
  {
    hide RemoveMember, Inv;
    RemoveMemberKeeps(s, i);
    CutKeeps(RemoveMember(s, i), i);
    CutMembers(s, RemoveMember(s, i), i);
  }

  lemma {:induction false} CutCounts(ms: seq<Member>, i: nat)
    requires i < |ms|
    ensures Count(ms[..i] + ms[i + 1..]) == Count(ms) - if ms[i].present then 1 else 0
    decreases |ms|
  {
    var c := ms[..i] + ms[i + 1..];
    if i == 0 {
      assert c == ms[1..];
    } else {
      assert c[1..] == ms[1..][..i - 1] + ms[1..][i..];
      CutCounts(ms[1..], i - 1);
    }
  }

  /** Taking an absent member off the list. */
  lemma CutKeeps(r: State, i: nat)
    requires i < |r.members| && Inv(r) && !r.members[i].present
    ensures Inv(r.(members := r.members[..i] + r.members[i + 1..]))
  {
    hide Count;
    CutCounts(r.members, i);
    var c := r.members[..i] + r.members[i + 1..];
    forall j | 0 <= j < |c| ensures c[j] == r.members[if j < i then j else j + 1] {}
  }

  lemma CutMembers(s: State, r: State, i: nat)
    requires i < |s.members| && Inv(s) && OnlyAt(s, r, i)
    ensures forall m :: m in r.members[..i] + r.members[i + 1..] ==> m in s.members && m.name != s.members[i].name
  {
    var c := r.members[..i] + r.members[i + 1..];
    forall m | m in c ensures m in s.members && m.name != s.members[i].name {
      var j :| 0 <= j < |c| && c[j] == m;
      var k := if j < i then j else j + 1;
      assert m == r.members[k] == s.members[k];
    }
  }

  lemma MemberAddKeeps(s: State, i: nat, ok: Outcome)
    requires i < |s.members| && Inv(s) && !s.members[i].present
    requires s.devices[s.members[i].name].present
    ensures var t := MemberAdd(s, i, ok);
            && Inv(t) && OnlyAt(s, t, i) && t.members[i].name == s.members[i].name
            && t.devices == s.devices && t.devActive == s.devActive
            && (s.devActive ==> if t.members[i].present then t.members[i].claimed else !t.members[i].claimed)
            && (!s.devActive ==> t.members[i].claimed == s.members[i].claimed)
  {
    hide EnableMember;
    var a := Set(s, i, s.members[i].(present := true)).(nPresent := s.nPresent + 1);
    SetKeeps(s, a, i, s.members[i].(present := true));
    var p := a.(sysPresent := a.sysPresent || a.nPresent == 1);
    SameMembers(a, p);
    if p.devActive {
      EnableMemberKeeps(p, i, ok);
    }
  }

  // ---- loops --------------------------------------------------------------------------

  lemma {:induction false} EnableAllKeeps(s: State, i: nat, ok: Outcome)
    requires i <= |s.members| && Inv(s)
    requires forall j :: 0 <= j < i ==> s.members[j].claimed == s.members[j].present
    requires forall j :: i <= j < |s.members| ==> !s.members[j].claimed
    ensures var t := EnableAll(s, i, ok);
            Inv(t) && Weaker(s, t) && forall j :: 0 <= j < |t.members| ==> t.members[j].claimed == t.members[j].present
    decreases |s.members| - i
  {
    hide EnableMember;
    if i < |s.members| {
      EnableMemberKeeps(s, i, ok);
      EnableAllKeeps(EnableMember(s, i, ok), i + 1, ok);
    }
  }

  /** Without looking at claims, the counter stays right in any case. */
  lemma {:induction false} EnableAllCounts(s: State, i: nat, ok: Outcome)
    requires i <= |s.members| && Inv(s)
    ensures var t := EnableAll(s, i, ok); Inv(t) && Weaker(s, t)
    decreases |s.members| - i
  {
    hide EnableMember;
    if i < |s.members| {
      EnableMemberKeeps(s, i, ok);
      EnableAllCounts(EnableMember(s, i, ok), i + 1, ok);
    }
  }

  lemma {:induction false} DisableAllKeeps(s: State, i: nat)
    requires i <= |s.members| && Inv(s)
    ensures var t := DisableAll(s, i);
            && Inv(t) && Weaker(s, t) && t.nPresent == s.nPresent && t.sysPresent == s.sysPresent
            && (forall j :: 0 <= j < i ==> t.members[j] == s.members[j])
            && (forall j :: i <= j < |s.members| ==>
                  t.members[j].claimed == (s.members[j].claimed && !s.members[j].present)
                  && t.members[j].present == s.members[j].present)
    decreases |s.members| - i
  {
    hide DisableMember;
    if i < |s.members| {
      DisableMemberKeeps(s, i);
      DisableAllKeeps(DisableMember(s, i), i + 1);
    }
  }

  lemma RetryMemberKeeps(s: State, i: nat, ok: Outcome)
    requires i < |s.members| && Inv(s)
    ensures var t := RetryMember(s, i, ok);
            && Inv(t) && OnlyAt(s, t, i) && t.members[i].name == s.members[i].name && t.devices == s.devices
            && t.devActive == s.devActive
            && (t.members[i] == s.members[i] || (!s.members[i].present && t.members[i].claimed == t.members[i].present))
  {
    hide EnableMember, Counted;
    var m := s.members[i];
    if m.present || m.name !in s.devices || !s.devices[m.name].present {
    } else {
      var a := Set(s, i, m.(present := true)).(nPresent := s.nPresent + 1);
      SetKeeps(s, a, i, m.(present := true));
      EnableMemberKeeps(a, i, ok);
      RetriedIsEnabled(s, a, EnableMember(a, i, ok), i);
    }
  }

  lemma RetriedIsEnabled(s: State, a: State, t: State, i: nat)
    requires i < |s.members| && Inv(s) && !s.members[i].present
    requires a == Set(s, i, s.members[i].(present := true)).(nPresent := s.nPresent + 1) && Enabled(a, t, i)
    ensures Inv(t) && OnlyAt(s, t, i) && t.members[i].name == s.members[i].name && t.devices == s.devices
    ensures t.devActive == s.devActive && t.members[i].claimed == t.members[i].present
  {
    hide Counted;
  }

  /** The names of the members, which stay, and their devices. */
  ghost predicate SameNames(s: State, t: State) {
    && |t.members| == |s.members| && t.devices == s.devices && t.devActive == s.devActive
    && forall j :: 0 <= j < |s.members| ==> t.members[j].name == s.members[j].name
  }

  lemma {:induction false} RetryAllKeeps(s: State, i: nat, ok: Outcome)
    requires i <= |s.members| && Inv(s)
    ensures var t := RetryAll(s, i, ok);
            && Inv(t) && SameNames(s, t)
            && (forall j :: 0 <= j < |s.members| ==>
                  t.members[j] == s.members[j]
                  || (!s.members[j].present && t.members[j].claimed == t.members[j].present))
    decreases |s.members| - i
  {
    hide RetryMember;
    if i < |s.members| {
      RetryMemberKeeps(s, i, ok);
      RetryAllKeeps(RetryMember(s, i, ok), i + 1, ok);
    }
  }

  // ---- the whole bridge ------------------------------------------------------------------

  ghost predicate NoneClaimed(s: State) {
    forall j :: 0 <= j < |s.members| ==> !s.members[j].claimed
  }

  ghost predicate ClaimedIfPresent(s: State) {
    forall j :: 0 <= j < |s.members| ==> s.members[j].claimed == s.members[j].present
  }

  /** Exactly the present members of a bridge that is up are claimed. */
  ghost predicate Tied(s: State) {
    if s.devActive then ClaimedIfPresent(s) else NoneClaimed(s)
  }

  lemma SetDownKeeps(s: State)
    requires Inv(s)
    ensures var t := SetDown(s); Inv(t) && t.devActive == s.devActive
    ensures ClaimedIfPresent(s) || NoneClaimed(s) ==> NoneClaimed(SetDown(s))
  {
    hide DisableAll;
    DisableAllKeeps(s, 0);
  }

  lemma NonePresent(s: State)
    requires Counted(s) && s.nPresent == 0 && ClaimedIfPresent(s)
    ensures NoneClaimed(s)
  {
    forall j | 0 <= j < |s.members| ensures !s.members[j].claimed {
      if s.members[j].present { CountPositive(s.members, j); }
    }
  }

  lemma TryMembersKeeps(s: State, ok: Outcome)
    requires Inv(s)
    ensures var t := TryMembers(s, ok); Inv(t) && t.devActive == s.devActive && (NoneClaimed(s) ==> ClaimedIfPresent(t))
  {
    hide EnableAll, Counted;
    var z := s.(nFailed := 0);
    SameMembers(s, z);
    EnableAllCounts(z, 0, ok);
    if NoneClaimed(s) { EnableAllKeeps(z, 0, ok); }
    var e := EnableAll(z, 0, ok);
    SameMembers(e, CheckRetry(e));
  }

  lemma ConcludeKeeps(s: State, ok: Outcome)
    requires Inv(s)
    ensures var r := Conclude(s, ok); Inv(r.s) && r.s.devActive == s.devActive
    ensures var r := Conclude(s, ok);
            ClaimedIfPresent(s) ==> if r.ok then ClaimedIfPresent(r.s) else NoneClaimed(r.s)
  {
    hide SetDown, Counted;
    if !s.forceActive && s.nPresent == 0 {
      SameMembers(s, s.(active := false, sysPresent := false));
      if ClaimedIfPresent(s) { NonePresent(s); }
    } else {
      var c := s.(calls := s.calls + 1);
      SameMembers(s, c);
      if ok(s.calls) {
      } else {
        SetDownKeeps(c);
      }
    }
  }

  lemma FinishSetUpKeeps(s: State, ok: Outcome)
    requires Inv(s)
    ensures var r := FinishSetUp(s, ok); Inv(r.s) && r.s.devActive == s.devActive
    ensures var r := FinishSetUp(s, ok);
            NoneClaimed(s) ==> if r.ok then ClaimedIfPresent(r.s) else NoneClaimed(r.s)
  {
    hide TryMembers, Conclude, Inv;
    TryMembersKeeps(s, ok);
    ConcludeKeeps(TryMembers(s, ok), ok);
  }

  lemma SetUpKeeps(s: State, ok: Outcome)
    requires Inv(s)
    ensures var r := SetUp(s, ok); Inv(r.s) && r.s.devActive == s.devActive
    ensures var r := SetUp(s, ok);
            NoneClaimed(s) ==> if r.ok then ClaimedIfPresent(r.s) else NoneClaimed(r.s)
  {
    hide FinishSetUp, EnableInterface, Counted;
    if s.nPresent != 0 {
      FinishSetUpKeeps(s, ok);
    } else if !s.forceActive {
    } else {
      var e := EnableInterface(s, ok);
      InterfaceKeeps(s, ok);
      SameMembers(s, e);
      if e.active {
        FinishSetUpKeeps(e, ok);
      } else {
      }
    }
  }

  lemma ClaimBridgeKeeps(s: State, ok: Outcome)
    requires Inv(s)
    ensures Inv(ClaimBridge(s, ok)) && (Tied(s) ==> Tied(ClaimBridge(s, ok)))
  {
    hide SetUp, Counted;
    if s.devActive {
    } else {
      var a := s.(devActive := true);
      SameMembers(s, a);
      SetUpKeeps(a, ok);
      var r := SetUp(a, ok);
      SameMembers(r.s, r.s.(devActive := r.ok));
    }
  }

  lemma ReleaseBridgeKeeps(s: State)
    requires Inv(s)
    ensures Inv(ReleaseBridge(s)) && (Tied(s) ==> Tied(ReleaseBridge(s)))
  {
    hide SetDown, Counted;
    if s.devActive {
      var a := s.(devActive := false);
      SameMembers(s, a);
      SetDownKeeps(a);
    } else {
    }
  }

  lemma RetryMembersKeeps(s: State, ok: Outcome)
    requires Inv(s)
    ensures Inv(RetryMembers(s, ok))
    ensures Tied(s) && s.devActive ==> Tied(RetryMembers(s, ok))
  {
    hide RetryAll, Counted;
    var a := s.(retry := false, nFailed := 0);
    SameMembers(s, a);
    RetryAllKeeps(a, 0, ok);
  }

  // ---- restarts ---------------------------------------------------------------------------

  /** Enabling all members makes the bridge present if one of them is, whatever
      it was before. */
  lemma {:induction false} EnableAllShows(s: State, i: nat, ok: Outcome)
    requires i <= |s.members| && Counted(s)
    requires forall j :: 0 <= j < i && s.members[j].present ==> s.sysPresent
    ensures var t := EnableAll(s, i, ok);
            Counted(t) && Weaker(s, t) && forall j :: 0 <= j < |t.members| && t.members[j].present ==> t.sysPresent
    decreases |s.members| - i
  {
    hide EnableMember, Counted;
    if i < |s.members| {
      EnableMemberKeeps(s, i, ok);
      EnableAllShows(EnableMember(s, i, ok), i + 1, ok);
    }
  }

  lemma {:induction false} EnableAllClaims(s: State, i: nat, ok: Outcome)
    requires i <= |s.members| && Counted(s)
    requires forall j :: 0 <= j < i ==> s.members[j].claimed == s.members[j].present
    requires forall j :: i <= j < |s.members| ==> !s.members[j].claimed
    ensures ClaimedIfPresent(EnableAll(s, i, ok))
    decreases |s.members| - i
  {
    hide EnableMember, Counted;
    if i < |s.members| {
      EnableMemberKeeps(s, i, ok);
      EnableAllClaims(EnableMember(s, i, ok), i + 1, ok);
    }
  }

  lemma {:induction false} CountWitness(ms: seq<Member>)
    requires Count(ms) > 0
    ensures exists j :: 0 <= j < |ms| && ms[j].present
  {
    if !ms[0].present {
      CountWitness(ms[1..]);
      var j :| 0 <= j < |ms[1..]| && ms[1..][j].present;
      assert ms[j + 1].present;
    }
  }

  lemma TryMembersShows(s: State, ok: Outcome)
    requires Counted(s)
    ensures var t := TryMembers(s, ok); Inv(t) && t.devActive == s.devActive && (NoneClaimed(s) ==> ClaimedIfPresent(t))
  {
    hide EnableAll, Counted, Count;
    var z := s.(nFailed := 0);
    SameMembers(s, z);
    EnableAllShows(z, 0, ok);
    if NoneClaimed(s) { EnableAllClaims(z, 0, ok); }
    var e := EnableAll(z, 0, ok);
    SameMembers(e, CheckRetry(e));
    if e.nPresent > 0 {
      CountIs(e);
      CountWitness(e.members);
    }
  }

  lemma CountIs(s: State)
    requires Counted(s)
    ensures s.nPresent == Count(s.members)
  {}

  /** A set-up of a bridge that is not present, though members may be. */
  lemma SetUpShows(s: State, ok: Outcome)
    requires Counted(s)
    ensures var r := SetUp(s, ok); Inv(r.s) && r.s.devActive == s.devActive
    ensures var r := SetUp(s, ok);
            NoneClaimed(s) ==> if r.ok then ClaimedIfPresent(r.s) else NoneClaimed(r.s)
  {
    hide TryMembers, Conclude, EnableInterface, Counted;
    if s.nPresent != 0 {
      TryMembersShows(s, ok);
      ConcludeKeeps(TryMembers(s, ok), ok);
    } else if !s.forceActive {
    } else {
      var e := EnableInterface(s, ok);
      InterfaceKeeps(s, ok);
      SameMembers(s, e);
      if e.active {
        TryMembersShows(e, ok);
        ConcludeKeeps(TryMembers(e, ok), ok);
      } else {
      }
    }
  }

  lemma {:induction false} DisableAllHidden(s: State, i: nat, b: bool)
    requires i <= |s.members|
    ensures DisableAll(s.(sysPresent := b), i) == DisableAll(s, i).(sysPresent := b)
    decreases |s.members| - i
  {
    hide DisableMember;
    if i < |s.members| {
      DisableHidden(s, i, b);
      DisableAllHidden(DisableMember(s, i), i + 1, b);
    }
  }

  lemma DisableHidden(s: State, i: nat, b: bool)
    requires i < |s.members|
    ensures DisableMember(s.(sysPresent := b), i) == DisableMember(s, i).(sysPresent := b)
  {
    if s.members[i].present {
    } else {
    }
  }

  /** The set-up of a restart fails and leaves members that are present. */
  predicate RestartFails(s: State, ok: Outcome) {
    && s.devActive && s.sysPresent
    && var r := SetUp(SetDown(s.(sysPresent := false)), ok); !r.ok && r.s.nPresent > 0
  }

  /** A restart keeps the counter right, failed or not; the claims follow presence
      exactly if it does not fail with members, which it lets go of while the
      bridge stays active. */
  lemma RestartKeeps(s: State, ok: Outcome)
    requires Inv(s)
    ensures Inv(Restart(s, ok))
    ensures Tied(s) ==> (Tied(Restart(s, ok)) <==> !RestartFails(s, ok))
  {
    hide SetUp, DisableAll, Counted, Count;
    if s.devActive && s.sysPresent {
      SetDownKeeps(s);
      DisableAllHidden(s, 0, false);
      var d := SetDown(s.(sysPresent := false));
      assert d == SetDown(s).(sysPresent := false);
      SameMembers(SetDown(s), d);
      SetUpShows(d, ok);
      var r := SetUp(d, ok);
      var t := r.s.(sysPresent := r.ok || r.s.sysPresent);
      SameMembers(r.s, t);
      if Tied(s) && !r.ok { NoneClaimedTied(t); }
    }
  }

  /** With no claims left they follow presence only if nobody is present. */
  lemma NoneClaimedTied(t: State)
    requires Counted(t) && NoneClaimed(t)
    ensures ClaimedIfPresent(t) <==> t.nPresent <= 0
  {
    if t.nPresent > 0 {
      CountWitness(t.members);
    } else {
      forall j | 0 <= j < |t.members| ensures !t.members[j].present {
        if t.members[j].present { CountPositive(t.members, j); }
      }
    }
  }

  // ---- devices coming and going -------------------------------------------------------------

  /** A device that changes presence and is no member, or one whose member is
      not marked present, leaves the counter right. */
  lemma DeviceKeeps(s: State, name: Name, d: Device)
    requires Inv(s) && name in s.devices
    requires d.present || forall j :: 0 <= j < |s.members| && s.members[j].name == name ==> !s.members[j].present
    ensures Inv(s.(devices := s.devices[name := d]))
  {}

  lemma RefreshKeeps(s: State, name: Name, d: Device, ok: Outcome)
    requires Inv(s) && name in s.devices && d.present == s.devices[name].present
    ensures var i := Find(s.members, name, 0); i < |s.members| && s.members[i].present ==> d.present
    ensures Inv(Refresh(s, name, d, ok)) && (Tied(s) ==> Tied(Refresh(s, name, d, ok)))
  {
    hide MemberAdd, RemoveMember, FreeMember;
    var i := Find(s.members, name, 0);
    if i < |s.members| { BackedAt(s, i); }
    var n := s.(devices := s.devices[name := d.(present := Present(d))]);
    assert Find(n.members, name, 0) == i;
    if i == |n.members| || Present(d) == d.present {
      DeviceKeeps(s, name, d.(present := Present(d)));
    } else if Present(d) {
      DeviceKeeps(s, name, d.(present := Present(d)));
      MemberAddKeeps(n, i, ok);
    } else {
      GoneKeeps(s, name, d, i);
    }
  }

  /** When a device goes, its member is removed before anything else looks. */
  lemma GoneKeeps(s: State, name: Name, d: Device, i: nat)
    requires Inv(s) && name in s.devices && i < |s.members| && s.members[i].name == name
    ensures var t := MemberGone(s.(devices := s.devices[name := d.(present := false)]), i);
            Inv(t) && (Tied(s) ==> Tied(t))
  {
    hide RemoveMember, FreeMember;
    var dev := d.(present := false);
    RemoveThenDevice(s, name, dev, i);
    FreeThenDevice(s, name, dev, i);
  }

  lemma RemoveThenDevice(s: State, name: Name, d: Device, i: nat)
    requires Inv(s) && name in s.devices && i < |s.members| && s.members[i].name == name
    ensures var t := RemoveMember(s.(devices := s.devices[name := d]), i);
            t == RemoveMember(s, i).(devices := s.devices[name := d]) && Inv(t) && (Tied(s) ==> Tied(t))
  {
    hide RemoveMember, Inv;
    RemoveCommutes(s, name, d, i);
    RemoveMemberKeeps(s, i);
    var r := RemoveMember(s, i);
    RemovedKeeps(r, name, d, i);
    if Tied(s) { RemoveStaysTied(s, i); }
  }

  lemma RemovedKeeps(r: State, name: Name, d: Device, i: nat)
    requires Inv(r) && name in r.devices && i < |r.members| && r.members[i].name == name && !r.members[i].present
    ensures Inv(r.(devices := r.devices[name := d]))
  {
    DeviceKeeps(r, name, d);
  }

  lemma RemoveStaysTied(s: State, i: nat)
    requires Inv(s) && i < |s.members| && Tied(s)
    ensures Tied(RemoveMember(s, i))
  {
    hide RemoveMember, Inv;
    RemoveMemberKeeps(s, i);
  }

  lemma RemoveCommutes(s: State, name: Name, d: Device, i: nat)
    requires i < |s.members|
    ensures RemoveMember(s.(devices := s.devices[name := d]), i) == RemoveMember(s, i).(devices := s.devices[name := d])
  {
    if !s.members[i].present {
    } else if s.devActive {
    } else {
    }
  }

  lemma FreeThenDevice(s: State, name: Name, d: Device, i: nat)
    requires Inv(s) && name in s.devices && i < |s.members| && s.members[i].name == name
    ensures var t := FreeMember(s.(devices := s.devices[name := d]), i); Inv(t) && (Tied(s) ==> Tied(t))
  {
    FreeMemberKeeps(s, i);
    if Tied(s) { FreeStaysTied(s, i); }
    FreeCommutes(s, name, d, i);
    hide FreeMember;
    var f := FreeMember(s, i);
    DeviceKeeps(f, name, d);
  }

  lemma FreeStaysTied(s: State, i: nat)
    requires Inv(s) && i < |s.members| && Tied(s)
    ensures Tied(FreeMember(s, i))
  {
    hide FreeMember;
    FreeMemberKeeps(s, i);
  }

  lemma FreeCommutes(s: State, name: Name, d: Device, i: nat)
    requires i < |s.members|
    ensures FreeMember(s.(devices := s.devices[name := d]), i) == FreeMember(s, i).(devices := s.devices[name := d])
  {
    hide RemoveMember;
    RemoveCommutes(s, name, d, i);
  }

  /** A device becomes a member, if no member has its name. */
  lemma AddMemberKeeps(s: State, name: Name, hotplug: bool, ok: Outcome)
    requires Inv(s) && name in s.devices
    ensures Inv(AddMember(s, name, hotplug, ok)) && (Tied(s) ==> Tied(AddMember(s, name, hotplug, ok)))
  {
    hide MemberAdd;
    if Find(s.members, name, 0) < |s.members| {
    } else {
      var m := Member(name, false, false, hotplug);
      var n := s.(members := s.members + [m]);
      CountConcat(s.members, [m]);
      AppendKeeps(s, n, m);
      if s.devices[name].present {
        MemberAddKeeps(n, |s.members|, ok);
      } else {
      }
    }
  }

  lemma AppendKeeps(s: State, n: State, m: Member)
    requires Inv(s) && m.name in s.devices && !m.present && !m.claimed
    requires forall j :: 0 <= j < |s.members| ==> s.members[j].name != m.name
    requires n == s.(members := s.members + [m]) && Count(n.members) == Count(s.members) + Count([m])
    ensures Inv(n) && (Tied(s) ==> Tied(n))
  {}

  // ---- runs ------------------------------------------------------------------------------------

  datatype Input =
    | SetPresent(name: Name, b: bool) | SetDisabled(name: Name, b: bool) | SetDeferred(name: Name, b: bool)
    | Join(name: Name, hotplug: bool) | Leave(name: Name)
    | Up | Down | RetryTimer | Prepare | AllowEmpty(b: bool) | ConfigDone | NewSettings

  function DeviceOf(s: State, name: Name): Device {
    if name in s.devices then s.devices[name] else Device(false, false, false, false)
  }

  /** device_get creates a device nobody has asked for before. */
  function Get(s: State, name: Name): (t: State)
    ensures name in t.devices && t.devices[name] == DeviceOf(s, name)
  {
    s.(devices := s.devices[name := DeviceOf(s, name)])
  }

  /** The precondition of the assertion on ADD, for a refresh of a device. */
  ghost predicate CanRefresh(s: State, name: Name, d: Device) {
    var i := Find(s.members, name, 0);
    i < |s.members| && s.members[i].present ==> d.present
  }

  function Step(s: State, x: Input, ok: Outcome): State
    requires Inv(s)
  {
    match x {
      case SetPresent(name, b) =>
        var g, d := Get(s, name), DeviceOf(s, name);
        if d.sysPresent == b then g
        else
          GetKeeps(s, name); RefreshKeeps(g, name, d.(sysPresent := b), ok);
          Refresh(g, name, d.(sysPresent := b), ok)
      case SetDisabled(name, b) =>
        var g, d := Get(s, name), DeviceOf(s, name);
        GetKeeps(s, name); RefreshKeeps(g, name, d.(disabled := b), ok); Refresh(g, name, d.(disabled := b), ok)
      case SetDeferred(name, b) =>
        var g, d := Get(s, name), DeviceOf(s, name);
        GetKeeps(s, name); RefreshKeeps(g, name, d.(deferred := b), ok); Refresh(g, name, d.(deferred := b), ok)
      case Join(name, hotplug) => GetKeeps(s, name); AddMember(Get(s, name), name, hotplug, ok)
      case Leave(name) =>
        var i := Find(s.members, name, 0);
        if i < |s.members| then FreeMember(s, i) else s
      case Up => ClaimBridge(s, ok)
      case Down => ReleaseBridge(s)
      case RetryTimer => if s.retry then RetryMembers(s, ok) else s
      case Prepare => s.(forceActive := true, sysPresent := true)
      case AllowEmpty(b) => s.(bridgeEmpty := b)
      case ConfigDone => CheckRetry(s)
      case NewSettings => Restart(s, ok)
    }
  }

  lemma GetKeeps(s: State, name: Name)
    requires Inv(s)
    ensures Inv(Get(s, name)) && (Tied(s) ==> Tied(Get(s, name)))
  {
    if name in s.devices {
      assert Get(s, name).devices == s.devices;
    }
  }

  /** The retry timer does not run out while the bridge is down, and no restart
      fails with members. */
  predicate Quiet(s: State, x: Input, ok: Outcome) {
    (x.RetryTimer? ==> s.devActive) && (x.NewSettings? ==> !RestartFails(s, ok))
  }

  lemma ChangeDeviceKeeps(s: State, name: Name, d: Device, ok: Outcome)
    requires Inv(s) && d.present == DeviceOf(s, name).present
    ensures var t := Refresh(Get(s, name), name, d, ok); Inv(t) && (Tied(s) ==> Tied(t))
  {
    hide Refresh, Counted, DeviceOf;
    GetKeeps(s, name);
    RefreshKeeps(Get(s, name), name, d, ok);
  }

  lemma FreedKeeps(s: State, i: nat)
    requires Inv(s) && i < |s.members|
    ensures Inv(FreeMember(s, i)) && (Tied(s) ==> Tied(FreeMember(s, i)))
  {
    hide FreeMember, Counted;
    FreeMemberKeeps(s, i);
    if Tied(s) { FreeStaysTied(s, i); }
  }

  lemma SameFlags(s: State, t: State)
    requires Inv(s) && t.members == s.members && t.devices == s.devices && t.nPresent == s.nPresent
    requires t.devActive == s.devActive && (s.sysPresent ==> t.sysPresent)
    ensures Inv(t) && (Tied(s) ==> Tied(t))
  {}

  lemma StepKeeps(s: State, x: Input, ok: Outcome)
    requires Inv(s)
    ensures var t := Step(s, x, ok);
            Inv(t) && (Tied(s) && Quiet(s, x, ok) ==> Tied(t))
  {
    hide Refresh, AddMember, FreeMember, ClaimBridge, ReleaseBridge, RetryMembers, Restart, RestartFails;
    hide Inv, Tied, DeviceOf, Get;
    match x {
      case SetPresent(name, b) =>
        GetKeeps(s, name);
        ChangeDeviceKeeps(s, name, DeviceOf(s, name).(sysPresent := b), ok);
      case SetDisabled(name, b) =>
        GetKeeps(s, name);
        ChangeDeviceKeeps(s, name, DeviceOf(s, name).(disabled := b), ok);
      case SetDeferred(name, b) =>
        GetKeeps(s, name);
        ChangeDeviceKeeps(s, name, DeviceOf(s, name).(deferred := b), ok);
      case Join(name, hotplug) =>
        GetKeeps(s, name);
        AddMemberKeeps(Get(s, name), name, hotplug, ok);
      case Leave(name) =>
        var i := Find(s.members, name, 0);
        if i < |s.members| {
          FreedKeeps(s, i);
        }
      case Up => ClaimBridgeKeeps(s, ok);
      case Down => ReleaseBridgeKeeps(s);
      case RetryTimer =>
        if s.retry { RetryMembersKeeps(s, ok); }
      case Prepare => SameFlags(s, s.(forceActive := true, sysPresent := true));
      case AllowEmpty(b) => SameFlags(s, s.(bridgeEmpty := b));
      case ConfigDone => SameFlags(s, CheckRetry(s));
      case NewSettings => RestartKeeps(s, ok);
    }
  }

  const NEW := State([], 0, 0, false, false, false, false, false, false, map[], 0)

  ghost function Run(xs: History<Input>, ok: Outcome): (t: State)
    ensures Inv(t)
  {
    if xs.Nothing? then NEW
    else StepKeeps(Run(xs.before, ok), xs.last, ok); Step(Run(xs.before, ok), xs.last, ok)
  }

  /** In every reachable state the counter is the number of members marked
      present, each of which has a present device, and a bridge with one is
      present itself. The assertion on ADD is a precondition of every step that
      reaches it, so it never fails. */
  lemma CounterIsRight(xs: History<Input>, ok: Outcome, i: nat)
    ensures var t := Run(xs, ok);
            && t.nPresent == Count(t.members)
            && (i < |t.members| && t.members[i].present ==>
                  t.devices[t.members[i].name].present && t.nPresent > 0 && t.sysPresent)
  {
    hide Run;
    var t := Run(xs, ok);
    assert Inv(t);
    if i < |t.members| && t.members[i].present { CountPositive(t.members, i); }
  }

  ghost predicate AlwaysQuiet(xs: History<Input>, ok: Outcome) {
    xs.Then? ==> Quiet(Run(xs.before, ok), xs.last, ok) && AlwaysQuiet(xs.before, ok)
  }

  /** Then exactly the present members of a bridge that is up are claimed, and
      none of a bridge that is down. */
  lemma {:induction false} ClaimsFollowPresence(xs: History<Input>, ok: Outcome)
    requires AlwaysQuiet(xs, ok)
    ensures Tied(Run(xs, ok))
  {
    if xs.Then? {
      ClaimsFollowPresence(xs.before, ok);
      StepKeeps(Run(xs.before, ok), xs.last, ok);
    }
  }

  /** Someone to retry: marked absent, though the device is there. */
  predicate Retriable(s: State, j: nat)
    requires j < |s.members|
  {
    var m := s.members[j];
    !m.present && m.name in s.devices && s.devices[m.name].present
  }

  lemma {:induction false} NothingToRetry(s: State, i: nat, ok: Outcome)
    requires i <= |s.members| && forall j :: 0 <= j < |s.members| ==> !Retriable(s, j)
    ensures RetryAll(s, i, ok) == s
    decreases |s.members| - i
  {
    if i < |s.members| {
      assert !Retriable(s, i);
      NothingToRetry(s, i + 1, ok);
    }
  }

  lemma JoinWorks(s: State, i: nat, ok: Outcome)
    requires i < |s.members| && forall k :: ok(k)
    ensures JoinMember(s, i, ok).members[i].claimed
  {
    hide Fail;
    if s.members[i].claimed {
    } else {
    }
  }

  lemma RetryWorks(s: State, i: nat, ok: Outcome)
    requires i < |s.members| && Retriable(s, i) && forall k :: ok(k)
    ensures RetryMember(s, i, ok).members[i].claimed
  {
    hide Fail, JoinMember;
    var a := Set(s, i, s.members[i].(present := true)).(nPresent := s.nPresent + 1);
    JoinWorks(EnableInterface(a, ok), i, ok);
  }

  /** If nothing fails, every such member is claimed. */
  lemma {:induction false} RetryAllWorks(s: State, i: nat, j: nat, ok: Outcome)
    requires i <= j < |s.members| && Inv(s) && Retriable(s, j) && forall k :: ok(k)
    ensures RetryAll(s, i, ok).members[j].claimed
    decreases j - i
  {
    hide RetryMember, Counted;
    RetryMemberKeeps(s, i, ok);
    var t := RetryMember(s, i, ok);
    if i < j {
      RetryAllWorks(t, i + 1, j, ok);
    } else {
      RetryWorks(s, i, ok);
      RetryAllLeaves(t, i + 1, j, ok);
    }
  }

  lemma {:induction false} RetryAllLeaves(s: State, i: nat, j: nat, ok: Outcome)
    requires j < i <= |s.members| && Inv(s)
    ensures RetryAll(s, i, ok).members[j] == s.members[j]
    decreases |s.members| - i
  {
    hide RetryMember, Counted;
    if i < |s.members| {
      RetryMemberKeeps(s, i, ok);
      RetryAllLeaves(RetryMember(s, i, ok), i + 1, j, ok);
    }
  }

  /** On a bridge that is down, the timer is harmless whatever the system calls
      return exactly if no member is marked absent while its device is there;
      otherwise one may be claimed for a bridge nobody uses. */
  lemma LateRetryIff(s: State)
    requires Inv(s) && Tied(s) && !s.devActive
    ensures (forall ok: Outcome :: Tied(RetryMembers(s, ok))) <==>
            (forall j :: 0 <= j < |s.members| ==> !Retriable(s, j))
  {
    hide RetryAll, Counted;
    var a := s.(retry := false, nFailed := 0);
    SameMembers(s, a);
    if j: nat :| j < |s.members| && Retriable(s, j) {
      var ok: Outcome := k => true;
      RetryAllWorks(a, 0, j, ok);
      RetryAllKeeps(a, 0, ok);
      assert !Tied(RetryMembers(s, ok));
    } else {
      forall ok: Outcome ensures Tied(RetryMembers(s, ok)) {
        forall j | 0 <= j < |a.members| ensures !Retriable(a, j) { assert !Retriable(s, j); }
        NothingToRetry(a, 0, ok);
      }
    }
  }

  /** Such a state is reached when the only member could not be claimed: its
      retry succeeds on a bridge whose set-up has failed. */
  lemma LateRetryHappens()
    ensures var ok: Outcome := k => k != 1;
            var xs := Then(Then(Then(Then(Nothing, SetPresent(7, true)), Join(7, false)), Input.Up), RetryTimer);
            !Tied(Run(xs, ok))
  {
    var ok: Outcome := k => k != 1;
    var b := Then(Then(Nothing, SetPresent(7, true)), Join(7, false));
    JoinedOne(ok);
    hide Step;
    assert Run(Then(b, Input.Up), ok) == Step(ONE, Input.Up, ok);
    assert Run(Then(Then(b, Input.Up), RetryTimer), ok) == Step(Step(ONE, Input.Up, ok), RetryTimer, ok);
    UpAndRetry(ok);
  }

  const PLUGGED := NEW.(devices := map[7 := Device(true, false, false, true)])

  /** A bridge with one present member. */
  const ONE := PLUGGED.(members := [Member(7, true, false, false)], nPresent := 1, sysPresent := true)

  lemma JoinedOne(ok: Outcome)
    ensures Run(Then(Then(Nothing, SetPresent(7, true)), Join(7, false)), ok) == ONE
  {
    assert Run(Then(Nothing, SetPresent(7, true)), ok) == Step(NEW, SetPresent(7, true), ok);
    FirstPresent(ok);
    JoinOne(PLUGGED, 7, ok);
    assert Get(PLUGGED, 7) == PLUGGED;
  }

  lemma FirstPresent(ok: Outcome)
    ensures Step(NEW, SetPresent(7, true), ok) == PLUGGED
  {}

  lemma UpAndRetry(ok: Outcome)
    requires ok(0) && !ok(1) && ok(2) && ok(3) && ok(4)
    ensures Inv(ONE) && !Tied(Step(Step(ONE, Input.Up, ok), RetryTimer, ok))
  {
    hide ClaimBridge, RetryMembers;
    FailedUp(ONE, ok);
    var f := Step(ONE, Input.Up, ok);
    OneRetry(f, ok);
  }

  lemma JoinOne(s: State, name: Name, ok: Outcome)
    requires s.members == [] && !s.devActive && s.nPresent == 0 && name in s.devices && s.devices[name].present
    ensures AddMember(s, name, false, ok) ==
            s.(members := [Member(name, true, false, false)], nPresent := 1, sysPresent := true)
  {
    assert s.members + [Member(name, false, false, false)] == [Member(name, false, false, false)];
  }

  /** The one member of a bridge cannot be claimed. */
  lemma FailedUp(s: State, ok: Outcome)
    requires |s.members| == 1 && s.members[0].present && !s.members[0].claimed && s.nPresent == 1
    requires !s.devActive && !s.active && !s.forceActive && s.calls == 0 && ok(0) && !ok(1)
    ensures ClaimBridge(s, ok) == s.(members := [s.members[0].(present := false)], nPresent := 0, nFailed := 1,
                                     retry := true, active := false, sysPresent := false, calls := 2)
  {
    var z := s.(devActive := true, nFailed := 0);
    var e := EnableMember(z, 0, ok);
    assert e == z.(members := [s.members[0].(present := false)], nPresent := 0, nFailed := 1,
                   active := true, calls := 2);
    assert EnableAll(z, 0, ok) == EnableAll(e, 1, ok) == e;
  }

  lemma OneRetry(s: State, ok: Outcome)
    requires |s.members| == 1 && Retriable(s, 0) && !s.devActive && !s.active && !s.members[0].claimed
    requires ok(s.calls) && ok(s.calls + 1) && ok(s.calls + 2)
    ensures var t := RetryMembers(s, ok); |t.members| == 1 && t.members[0].claimed && !t.devActive
  {
    var a := s.(retry := false, nFailed := 0);
    var t := RetryMember(a, 0, ok);
    assert t.members[0].claimed && !t.devActive;
    assert RetryAll(a, 0, ok) == RetryAll(t, 1, ok) == t;
  }

  /** The one member of a bridge works; the last call decides. */
  lemma SetUpOne(s: State, ok: Outcome)
    requires |s.members| == 1 && s.members[0].present && !s.members[0].claimed && s.nPresent == 1 && !s.active
    requires ok(s.calls) && ok(s.calls + 1) && ok(s.calls + 2)
    ensures var r := SetUp(s, ok);
            && r.ok == ok(s.calls + 3) && r.s.devActive == s.devActive && r.s.nPresent == 1 && r.s.sysPresent
            && |r.s.members| == 1 && r.s.members[0].present && r.s.members[0].claimed == r.ok
            && r.s.calls == s.calls + 4
  {
    var z := s.(nFailed := 0);
    var e := EnableMember(z, 0, ok);
    assert e == z.(members := [s.members[0].(claimed := true)], active := true, sysPresent := true,
                   calls := s.calls + 3);
    assert EnableAll(z, 0, ok) == EnableAll(e, 1, ok) == e;
    SetDownOne(CheckRetry(e).(calls := s.calls + 4));
  }

  lemma SetDownOne(s: State)
    requires |s.members| == 1 && s.members[0].present
    ensures SetDown(s) == s.(members := [s.members[0].(claimed := false)], active := false)
  {
    var d := DisableMember(s, 0);
    assert DisableAll(s, 0) == DisableAll(d, 1) == d;
  }

  /** A restart that fails lets go of the member of an active bridge: after a run
      that leaves it with one, it comes up and its settings change. */
  lemma RestartLetsGo(xs: History<Input>, ok: Outcome)
    requires Run(xs, ok) == ONE && ok(0) && ok(1) && ok(2) && ok(3) && ok(4) && ok(5) && ok(6) && !ok(7)
    ensures !Tied(Run(Then(Then(xs, Input.Up), NewSettings), ok))
  {
    hide Inv, SetUp, SetDown;
    var a := ONE.(devActive := true);
    SetUpOne(a, ok);
    var u := Step(ONE, Input.Up, ok);
    assert Run(Then(xs, Input.Up), ok) == u == SetUp(a, ok).s;
    var h := u.(sysPresent := false);
    SetDownOne(h);
    SetUpOne(SetDown(h), ok);
    assert Run(Then(Then(xs, Input.Up), NewSettings), ok) == Step(u, NewSettings, ok) == Restart(u, ok);
  }
}
