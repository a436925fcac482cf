/** The routes of an interface and what the kernel holds of them, while its
    device, metric and tables stay the same. */
module IpRoutes {
  import opened Events

  /** DEVADDR and DEVROUTE flags that tell routes apart in the tree. */
  datatype Flags = Flags(v6: bool, external: bool, metric: bool, mtu: bool, proto: bool, typ: bool,
                         onlink: bool, table: bool, srctable: bool)

  type Addr = seq<bv8>

  /** What route_cmp compares. */
  datatype Key = Key(flags: Flags, metric: int, table: nat, mask: nat, sourcemask: nat, source: Addr, addr: Addr)

  /** What decides whether a kept route is the same as before. */
  datatype Attrs = Attrs(nexthop: Addr, mtu: int, typ: nat, proto: nat)

  datatype Route = Route(key: Key, attrs: Attrs, validUntil: nat, enabled: bool, failed: bool)

  const RT_TABLE_MAIN: nat := 254

  /** How the kernel tells routes apart. */
  datatype KernelId = KernelId(v6: bool, table: nat, metric: int, mask: nat, sourcemask: nat, source: Addr, addr: Addr)

  function Id(k: Key): KernelId {
    KernelId(k.flags.v6, if k.flags.table || k.flags.srctable then k.table else RT_TABLE_MAIN,
             k.metric, k.mask, k.sourcemask, k.source, k.addr)
  }

  /** routes is the tree; kernel holds what was added and not deleted again. */
  datatype State = State(
    enabled: bool, noDefaultroute: bool, routes: seq<Route>, kernel: map<KernelId, Attrs>, calls: nat)

  /** Outcome of adding a route, by the number of the attempt. */
  type Outcome = nat -> bool

  predicate EnableRoute(s: State, k: Key) {
    !(s.noDefaultroute && k.mask == 0) && s.enabled
  }

  function DelRoute(s: State, r: Route): State {
    s.(kernel := s.kernel - {Id(r.key)})
  }

  function AddRoute(s: State, r: Route, ok: Outcome): State {
    s.(calls := s.calls + 1, kernel := if ok(s.calls) then s.kernel[Id(r.key) := r.attrs] else s.kernel)
  }

  /** The new route of a callback goes to the kernel unless it is kept. */
  function Install(s: State, r: Route, keep: bool, ok: Outcome): (State, Route) {
    var e := EnableRoute(s, r.key);
    if !r.key.flags.external && !keep && e then (AddRoute(s, r, ok), r.(enabled := e, failed := !ok(s.calls)))
    else (s, r.(enabled := e, failed := false))
  }

  predicate Keep(was: Route, next: Route) {
    was.attrs == next.attrs && !was.failed
  }

  /** The old route of a callback leaves the kernel unless it is kept. */
  function Uninstall(s: State, r: Route, keep: bool): State {
    if !r.key.flags.external && r.enabled && !keep then DelRoute(s, r) else s
  }

  function ReplaceAt(s: State, i: nat, r: Route, ok: Outcome): (t: State)
    requires i < |s.routes|
    ensures |t.routes| == |s.routes|
  {
    var keep := Keep(s.routes[i], r);
    var (a, n) := Install(Uninstall(s, s.routes[i], keep), r, keep, ok);
    a.(routes := s.routes[i := n])
  }

  function Append(s: State, r: Route, ok: Outcome): State {
    var (a, n) := Install(s, r, false, ok);
    a.(routes := s.routes + [n])
  }

  function RemoveAt(s: State, i: nat): (t: State)
    requires i < |s.routes|
    ensures |t.routes| == |s.routes| - 1
  {
    Uninstall(s, s.routes[i], false).(routes := s.routes[..i] + s.routes[i + 1..])
  }

  /** Position of a key, or the number of routes. */
  function Find(rs: seq<Route>, k: Key, i: nat): (r: nat)
    requires i <= |rs|
    ensures i <= r <= |rs| && (r < |rs| ==> rs[r].key == k)
    ensures forall j :: i <= j < r ==> rs[j].key != k
    decreases |rs| - i
  {
    if i == |rs| || rs[i].key == k then i else Find(rs, k, i + 1)
  }

  function Add(s: State, r: Route, ok: Outcome): State {
    var i := Find(s.routes, r.key, 0);
    if i < |s.routes| then ReplaceAt(s, i, r, ok) else Append(s, r, ok)
  }

  function Delete(s: State, k: Key): State {
    var i := Find(s.routes, k, 0);
    if i < |s.routes| then RemoveAt(s, i) else s
  }

  predicate Expired(r: Route, now: nat) {
    r.validUntil != 0 && r.validUntil < now
  }

  function Expire(s: State, i: nat, now: nat): State
    requires i <= |s.routes|
    decreases |s.routes| - i
  {
    if i == |s.routes| then s
    else if Expired(s.routes[i], now) then Expire(RemoveAt(s, i), i, now)
    else Expire(s, i + 1, now)
  }

  function SwitchAt(s: State, i: nat, ok: Outcome): (t: State)
    requires i < |s.routes|
    ensures |t.routes| == |s.routes|
  {
    var r := s.routes[i];
    var e := EnableRoute(s, r.key);
    if r.key.flags.external || r.enabled == e then s
    else if e then
      AddRoute(s, r, ok).(routes := s.routes[i := r.(enabled := true, failed := r.failed || !ok(s.calls))])
    else DelRoute(s, r).(routes := s.routes[i := r.(enabled := false)])
  }

  function SwitchFrom(s: State, i: nat, ok: Outcome): (t: State)
    requires i <= |s.routes|
    ensures |t.routes| == |s.routes|
    decreases |s.routes| - i
  {
    if i == |s.routes| then s else SwitchFrom(SwitchAt(s, i, ok), i + 1, ok)
  }

  function SetEnabled(s: State, enabled: bool, ok: Outcome): State {
    SwitchFrom(s.(enabled := enabled), 0, ok)
  }

  /** A changed setting for default routes: everything is disabled and brought
      back to what it was. */
  function SetNoDefaultroute(s: State, b: bool, ok: Outcome): State {
    if s.noDefaultroute == b then s
    else SetEnabled(SetEnabled(s.(noDefaultroute := b), false, ok), s.enabled, ok)
  }

  // ---- the ledger -----------------------------------------------------------------------

  predicate Ours(r: Route) {
    !r.key.flags.external
  }

  /** Routes of the tree differ in their keys, and those that are ours also for
      the kernel. */
  ghost predicate Unambiguous(rs: seq<Route>) {
    forall i, j :: 0 <= i < j < |rs| ==>
      rs[i].key != rs[j].key && (Ours(rs[i]) && Ours(rs[j]) ==> Id(rs[i].key) != Id(rs[j].key))
  }

  /** A route of ours and the kernel agree. */
  predicate Entered(s: State, r: Route) {
    Ours(r) ==> if r.enabled && !r.failed then Id(r.key) in s.kernel && s.kernel[Id(r.key)] == r.attrs
                else if r.enabled then Id(r.key) in s.kernel ==> s.kernel[Id(r.key)] == r.attrs
                else Id(r.key) !in s.kernel
  }

  /** Somebody accounts for an entry. */
  ghost predicate Accounted(s: State, id: KernelId) {
    exists i :: 0 <= i < |s.routes| && Ours(s.routes[i]) && s.routes[i].enabled && Id(s.routes[i].key) == id
  }

  /** Up to position n every route has its setting, and the ledger is right. */
  ghost predicate Ledger(s: State) {
    && Unambiguous(s.routes)
    && (forall i :: 0 <= i < |s.routes| ==> Entered(s, s.routes[i]))
    && (forall id :: id in s.kernel ==> Accounted(s, id))
  }

  ghost predicate SetFrom(s: State, i: int) {
    forall j :: 0 <= j < i && j < |s.routes| && Ours(s.routes[j]) ==>
      s.routes[j].enabled == EnableRoute(s, s.routes[j].key)
  }

  /** The kernel holds every route of the tree that is enabled, ours and not
      failed, with its attributes, nothing that is disabled or gone, and
      enabled is always what the settings say. */
  ghost predicate Inv(s: State) {
    Ledger(s) && SetFrom(s, |s.routes|)
  }

  ghost predicate SameKernelBut(s: State, t: State, x: KernelId) {
    forall id :: id != x ==> (id in t.kernel <==> id in s.kernel) && (id in s.kernel ==> t.kernel[id] == s.kernel[id])
  }

  /** Replacing the route at a position by one with the same key. */
  lemma LedgerAt(s: State, t: State, i: nat, r: Route)
    requires i < |s.routes| && Ledger(s) && t.routes == s.routes[i := r] && r.key == s.routes[i].key
    requires Entered(t, r)
    requires SameKernelBut(s, t, Id(r.key))
    requires Ours(r) && (Id(r.key) in t.kernel ==> r.enabled)
    ensures Ledger(t)
  {
    hide Accounted;
    forall j | 0 <= j < |t.routes| ensures Entered(t, t.routes[j]) {
      if j != i { assert Entered(s, s.routes[j]); }
    }
    forall id | id in t.kernel ensures Accounted(t, id) { AccountedAt(s, t, i, r, id); }
  }

  lemma AccountedAt(s: State, t: State, i: nat, r: Route, id: KernelId)
    requires i < |s.routes| && t.routes == s.routes[i := r] && r.key == s.routes[i].key
             && SameKernelBut(s, t, Id(r.key))
    requires Ours(r) && (Id(r.key) in t.kernel ==> r.enabled)
    requires id in t.kernel && (id in s.kernel ==> Accounted(s, id))
    ensures Accounted(t, id)
  {
    if id == Id(r.key) {
      assert t.routes[i] == r;
    } else {
      var j :| 0 <= j < |s.routes| && Ours(s.routes[j]) && s.routes[j].enabled && Id(s.routes[j].key) == id;
      assert t.routes[j] == s.routes[j];
    }
  }

  /** An external route has no part in the ledger. */
  lemma LedgerExternal(s: State, t: State, i: nat, r: Route)
    requires i < |s.routes| && Ledger(s) && t.routes == s.routes[i := r] && r.key == s.routes[i].key
    requires !Ours(r) && t.kernel == s.kernel
    ensures Ledger(t)
  {
    forall j | 0 <= j < |t.routes| ensures Entered(t, t.routes[j]) {
      if j != i { assert Entered(s, s.routes[j]); }
    }
    forall id | id in t.kernel ensures Accounted(t, id) {
      var j :| 0 <= j < |s.routes| && Ours(s.routes[j]) && s.routes[j].enabled && Id(s.routes[j].key) == id;
      assert t.routes[j] == s.routes[j];
    }
  }

  /** What a step on one route leaves of the others, and of the settings. */
  ghost predicate OnlyAt(s: State, t: State, i: nat) {
    && |t.routes| == |s.routes| && t.enabled == s.enabled && t.noDefaultroute == s.noDefaultroute
    && forall j :: 0 <= j < |s.routes| ==> t.routes[j].key == s.routes[j].key && (j != i ==> t.routes[j] == s.routes[j])
  }

  lemma SwitchAtKeeps(s: State, i: nat, ok: Outcome)
    requires i < |s.routes| && Ledger(s)
    ensures var t := SwitchAt(s, i, ok);
            && Ledger(t) && OnlyAt(s, t, i)
            && (Ours(t.routes[i]) ==> t.routes[i].enabled == EnableRoute(t, t.routes[i].key))
  {
    hide Ledger;
    var t, r := SwitchAt(s, i, ok), s.routes[i];
    var e := EnableRoute(s, r.key);
    EnteredAt(s, i);
    if r.key.flags.external || r.enabled == e {
    } else if e {
      LedgerAt(s, t, i, t.routes[i]);
    } else {
      LedgerAt(s, t, i, t.routes[i]);
    }
  }

  lemma EnteredAt(s: State, i: nat)
    requires i < |s.routes| && Ledger(s)
    ensures Entered(s, s.routes[i])
  {}

  lemma {:induction false} SwitchFromKeeps(s: State, i: nat, ok: Outcome)
    requires i <= |s.routes| && Ledger(s) && SetFrom(s, i)
    ensures var t := SwitchFrom(s, i, ok);
            && Inv(t) && t.enabled == s.enabled && t.noDefaultroute == s.noDefaultroute && |t.routes| == |s.routes|
            && (forall j :: 0 <= j < |s.routes| ==> t.routes[j].key == s.routes[j].key)
    decreases |s.routes| - i
  {
    hide SwitchAt, Ledger;
    if i < |s.routes| {
      SwitchAtKeeps(s, i, ok);
      SwitchFromKeeps(SwitchAt(s, i, ok), i + 1, ok);
    }
  }

  lemma SettingsDoNotMatter(s: State, t: State)
    requires Ledger(s) && t.routes == s.routes && t.kernel == s.kernel
    ensures Ledger(t)
  {
    forall i | 0 <= i < |t.routes| ensures Entered(t, t.routes[i]) { EnteredAt(s, i); }
    forall id | id in t.kernel ensures Accounted(t, id) { assert Accounted(s, id); }
  }

  lemma SetEnabledKeeps(s: State, enabled: bool, ok: Outcome)
    requires Ledger(s)
    ensures var t := SetEnabled(s, enabled, ok);
            && Inv(t) && t.enabled == enabled && t.noDefaultroute == s.noDefaultroute && |t.routes| == |s.routes|
            && (forall j :: 0 <= j < |s.routes| ==> t.routes[j].key == s.routes[j].key)
  {
    hide Ledger, SwitchFrom;
    var a := s.(enabled := enabled);
    SettingsDoNotMatter(s, a);
    SwitchFromKeeps(a, 0, ok);
  }

  /** Replacing a route keeps the ledger; a kept route needs no kernel call
      because what it was enabled as is what it should be enabled as. */
  lemma ReplaceAtKeeps(s: State, i: nat, r: Route, ok: Outcome)
    requires i < |s.routes| && Inv(s) && r.key == s.routes[i].key
    ensures var t := ReplaceAt(s, i, r, ok); Inv(t) && OnlyAt(s, t, i)
    ensures Keep(s.routes[i], r) ==> ReplaceAt(s, i, r, ok).kernel == s.kernel
  {
    hide Ledger;
    var t := ReplaceAt(s, i, r, ok);
    EnteredAt(s, i);
    ReplacedRoute(s, i, r, ok);
    if Ours(r) {
      LedgerAt(s, t, i, t.routes[i]);
    } else {
      LedgerExternal(s, t, i, t.routes[i]);
    }
  }

  lemma ReplacedRoute(s: State, i: nat, r: Route, ok: Outcome)
    requires i < |s.routes| && r.key == s.routes[i].key && Entered(s, s.routes[i])
    requires Ours(r) ==> s.routes[i].enabled == EnableRoute(s, r.key)
    ensures var t := ReplaceAt(s, i, r, ok);
            && OnlyAt(s, t, i) && t.routes == s.routes[i := t.routes[i]] && Entered(t, t.routes[i])
            && t.routes[i].enabled == EnableRoute(s, r.key) && t.routes[i].attrs == r.attrs
            && (Ours(r) && Id(r.key) in t.kernel ==> t.routes[i].enabled)
            && SameKernelBut(s, t, Id(r.key))
            && (!Ours(r) ==> t.kernel == s.kernel)
            && (Keep(s.routes[i], r) ==> t.kernel == s.kernel)
  {}

  /** Two keys that the kernel can tell apart, or need not. */
  predicate Apart(k: Key, l: Key) {
    k == l || k.flags.external || l.flags.external || Id(k) != Id(l)
  }

  lemma NewId(s: State, k: Key)
    requires Ledger(s) && !k.flags.external
    requires forall j :: 0 <= j < |s.routes| ==> s.routes[j].key != k && Apart(s.routes[j].key, k)
    ensures Id(k) !in s.kernel
  {
    assert Id(k) in s.kernel ==> Accounted(s, Id(k));
  }

  lemma AppendKeeps(s: State, r: Route, ok: Outcome)
    requires Inv(s) && Fits(s, AddOp(r)) && forall j :: 0 <= j < |s.routes| ==> s.routes[j].key != r.key
    ensures Inv(Append(s, r, ok))
  {
    hide Accounted;
    var t := Append(s, r, ok);
    if Ours(r) { NewId(s, r.key); }
    assert Entered(t, t.routes[|s.routes|]);
    forall j | 0 <= j < |s.routes| ensures Entered(t, t.routes[j]) {
      assert t.routes[j] == s.routes[j] && Entered(s, s.routes[j]);
    }
    forall id | id in t.kernel ensures Accounted(t, id) { AppendAccounted(s, r, ok, id); }
  }

  lemma AppendAccounted(s: State, r: Route, ok: Outcome, id: KernelId)
    requires Ledger(s) && id in Append(s, r, ok).kernel
    ensures Accounted(Append(s, r, ok), id)
  {
    var t := Append(s, r, ok);
    var n := t.routes[|s.routes|];
    if id in s.kernel {
      assert Accounted(s, id);
      var j :| 0 <= j < |s.routes| && Ours(s.routes[j]) && s.routes[j].enabled && Id(s.routes[j].key) == id;
      assert t.routes[j] == s.routes[j];
    } else {
      assert Ours(n) && n.enabled && Id(n.key) == id;
    }
  }

  lemma RemoveAtKeeps(s: State, i: nat)
    requires i < |s.routes| && Ledger(s)
    ensures Ledger(RemoveAt(s, i))
  {
    var t := RemoveAt(s, i);
    forall j | 0 <= j < |t.routes| ensures t.routes[j] == s.routes[if j < i then j else j + 1] {}
    RemovedEntered(s, i);
    forall id | id in t.kernel ensures Accounted(t, id) {
      RemovedAccounted(s, i, id);
    }
  }

  lemma RemovedEntered(s: State, i: nat)
    requires i < |s.routes| && Ledger(s)
    ensures var t := RemoveAt(s, i); forall j :: 0 <= j < |t.routes| ==> Entered(t, t.routes[j])
  {
    var t := RemoveAt(s, i);
    forall j | 0 <= j < |t.routes| ensures Entered(t, t.routes[j]) {
      var k := if j < i then j else j + 1;
      assert t.routes[j] == s.routes[k];
      EnteredAt(s, k);
    }
  }

  lemma RemovedIndex(s: State, i: nat, j: nat)
    requires i < |s.routes| && j < |s.routes| && j != i
    ensures var t, k := RemoveAt(s, i), if j < i then j else j - 1; k < |t.routes| && t.routes[k] == s.routes[j]
  {}

  lemma RemovedKernel(s: State, i: nat, id: KernelId)
    requires i < |s.routes| && id in RemoveAt(s, i).kernel
    ensures id in s.kernel && (Ours(s.routes[i]) && s.routes[i].enabled ==> id != Id(s.routes[i].key))
  {}

  lemma RemovedAccounted(s: State, i: nat, id: KernelId)
    requires i < |s.routes| && Ledger(s) && id in RemoveAt(s, i).kernel
    ensures Accounted(RemoveAt(s, i), id)
  {
    hide RemoveAt;
    RemovedKernel(s, i, id);
    assert Accounted(s, id);
    var j :| 0 <= j < |s.routes| && Ours(s.routes[j]) && s.routes[j].enabled && Id(s.routes[j].key) == id;
    RemovedIndex(s, i, j);
  }

  lemma {:induction false} ExpireKeeps(s: State, i: nat, now: nat)
    requires i <= |s.routes| && Inv(s)
    requires forall j :: 0 <= j < i ==> !Expired(s.routes[j], now)
    ensures var t := Expire(s, i, now);
            && Inv(t) && t.enabled == s.enabled && t.noDefaultroute == s.noDefaultroute
            && (forall r :: r in t.routes <==> r in s.routes && !Expired(r, now))
    decreases |s.routes| - i
  {
    hide Ledger, RemoveAt;
    if i == |s.routes| {
    } else if Expired(s.routes[i], now) {
      RemoveAtKeeps(s, i);
      RemovedRoutes(s, i);
      ExpireKeeps(RemoveAt(s, i), i, now);
    } else {
      ExpireKeeps(s, i + 1, now);
    }
  }

  lemma RemovedRoutes(s: State, i: nat)
    requires i < |s.routes| && SetFrom(s, |s.routes|)
    ensures var t := RemoveAt(s, i);
            && SetFrom(t, |t.routes|) && t.enabled == s.enabled && t.noDefaultroute == s.noDefaultroute
            && (forall j :: 0 <= j < i ==> t.routes[j] == s.routes[j])
            && (forall r :: r in s.routes ==> r in t.routes || r == s.routes[i])
            && (forall r :: r in t.routes ==> r in s.routes)
  {
    var t := RemoveAt(s, i);
    forall j | 0 <= j < |t.routes| ensures t.routes[j] == s.routes[if j < i then j else j + 1] {}
    forall r | r in s.routes ensures r in t.routes || r == s.routes[i] {
      var j :| 0 <= j < |s.routes| && s.routes[j] == r;
      if j != i { assert t.routes[if j < i then j else j - 1] == r; }
    }
  }

  // ---- runs --------------------------------------------------------------------------------

  datatype Op =
    | AddOp(r: Route) | DeleteOp(k: Key) | ExpireOp(now: nat) | EnableOp(b: bool) | DefaultOp(b: bool)

  function Step(s: State, x: Op, ok: Outcome): State {
    match x {
      case AddOp(r) => Add(s, r, ok)
      case DeleteOp(k) => Delete(s, k)
      case ExpireOp(now) => Expire(s, 0, now)
      case EnableOp(b) => SetEnabled(s, b, ok)
      case DefaultOp(b) => SetNoDefaultroute(s, b, ok)
    }
  }

  const NEW := State(true, false, [], map[], 0)

  function Run(xs: History<Op>, ok: Outcome): State {
    if xs.Nothing? then NEW else Step(Run(xs.before, ok), xs.last, ok)
  }

  /** An added route is, to the kernel, none of those that are in the tree. */
  ghost predicate Fits(s: State, x: Op) {
    x.AddOp? ==> forall j {:trigger s.routes[j]} :: 0 <= j < |s.routes| ==> Apart(s.routes[j].key, x.r.key)
  }

  ghost predicate AlwaysFits(xs: History<Op>, ok: Outcome) {
    xs.Then? ==> AlwaysFits(xs.before, ok) && Fits(Run(xs.before, ok), xs.last)
  }

  lemma AddKeeps(s: State, r: Route, ok: Outcome)
    requires Inv(s) && Fits(s, AddOp(r))
    ensures Inv(Add(s, r, ok))
  {
    hide Ledger, ReplaceAt, Append, Apart;
    var i := Find(s.routes, r.key, 0);
    if i < |s.routes| {
      ReplaceAtKeeps(s, i, r, ok);
    } else {
      AppendKeeps(s, r, ok);
    }
  }

  lemma DeleteKeeps(s: State, k: Key)
    requires Inv(s)
    ensures Inv(Delete(s, k))
  {
    hide Ledger, RemoveAt;
    var i := Find(s.routes, k, 0);
    if i < |s.routes| {
      RemoveAtKeeps(s, i);
      RemovedRoutes(s, i);
    }
  }

  lemma SetNoDefaultrouteKeeps(s: State, b: bool, ok: Outcome)
    requires Inv(s)
    ensures Inv(SetNoDefaultroute(s, b, ok))
  {
    hide Ledger, SetEnabled;
    var a := s.(noDefaultroute := b);
    SettingsDoNotMatter(s, a);
    SetEnabledKeeps(a, false, ok);
    SetEnabledKeeps(SetEnabled(a, false, ok), s.enabled, ok);
  }

  lemma StepKeeps(s: State, x: Op, ok: Outcome)
    requires Inv(s) && Fits(s, x)
    ensures Inv(Step(s, x, ok))
  {
    hide Ledger, SetFrom, Fits, Add, Delete, Expire, SetEnabled, SetNoDefaultroute;
    match x {
      case AddOp(r) => AddKeeps(s, r, ok);
      case DeleteOp(k) => DeleteKeeps(s, k);
      case ExpireOp(now) => ExpireKeeps(s, 0, now);
      case EnableOp(b) => SetEnabledKeeps(s, b, ok);
      case DefaultOp(b) => SetNoDefaultrouteKeeps(s, b, ok);
    }
  }

  lemma {:induction false} RunKeeps(xs: History<Op>, ok: Outcome)
    requires AlwaysFits(xs, ok)
    ensures Inv(Run(xs, ok))
  {
    hide Step, Inv, Fits;
    if xs.Nothing? {
      EmptyLedger();
    } else {
      RunKeeps(xs.before, ok);
      StepKeeps(Run(xs.before, ok), xs.last, ok);
    }
  }

  lemma EmptyLedger()
    ensures Inv(NEW)
  {}

  /** Over any sequence of additions, replacements, deletions, expiries and
      switching on and off, the kernel and the tree agree: whatever is enabled,
      ours and not failed is there with its attributes, and whatever is there
      belongs to an enabled route; provided no route is added that the kernel
      takes for another one in the tree at that time. */
  lemma KernelMatchesTree(xs: History<Op>, ok: Outcome, i: nat, id: KernelId)
    requires AlwaysFits(xs, ok)
    ensures var t := Run(xs, ok);
            i < |t.routes| ==>
              var r := t.routes[i];
              && (Ours(r) && r.enabled && !r.failed ==> Id(r.key) in t.kernel && t.kernel[Id(r.key)] == r.attrs)
              && (Ours(r) && !r.enabled ==> Id(r.key) !in t.kernel)
              && (Ours(r) ==> (r.enabled <==> EnableRoute(t, r.key)))
    ensures id in Run(xs, ok).kernel ==> Accounted(Run(xs, ok), id)
  {
    hide Run;
    RunKeeps(xs, ok);
    var t := Run(xs, ok);
    if i < |t.routes| { assert Entered(t, t.routes[i]); }
  }

  // ---- routes that are the same to the kernel -------------------------------------------

  predicate Installed(r: Route) {
    Ours(r) && r.enabled && !r.failed
  }

  /** No other route that should be in the kernel is the same to it. */
  ghost predicate NoTwin(s: State, i: nat, k: Key) {
    forall j :: 0 <= j < |s.routes| && j != i && Installed(s.routes[j]) ==> Id(s.routes[j].key) != Id(k)
  }

  /** Other routes of ours that are the same to the kernel are enabled and have
      these attributes. */
  ghost predicate TwinsAgree(s: State, i: nat, k: Key, at: Attrs) {
    forall j :: 0 <= j < |s.routes| && j != i && Ours(s.routes[j]) && Id(s.routes[j].key) == Id(k) ==>
      s.routes[j].enabled && s.routes[j].attrs == at
  }

  /** The kernel agrees with every route but that at position i. */
  ghost predicate OthersEntered(s: State, t: State, i: nat) {
    forall j {:trigger s.routes[j]} :: 0 <= j < |s.routes| && j != i ==> Entered(t, s.routes[j])
  }

  ghost predicate AllEntered(s: State) {
    forall j :: 0 <= j < |s.routes| ==> Entered(s, s.routes[j])
  }

  /** The three things that can happen to the kernel's route of one identity. */
  lemma PutIff(s: State, t: State, i: nat, k: Key, at: Attrs)
    requires AllEntered(s) && t.kernel == s.kernel[Id(k) := at]
    ensures OthersEntered(s, t, i) <==> TwinsAgree(s, i, k, at)
  {
    if !TwinsAgree(s, i, k, at) {
      var j :| 0 <= j < |s.routes| && j != i && Ours(s.routes[j]) && Id(s.routes[j].key) == Id(k)
               && !(s.routes[j].enabled && s.routes[j].attrs == at);
      assert !Entered(t, s.routes[j]);
    } else {
      forall j | 0 <= j < |s.routes| && j != i ensures Entered(t, s.routes[j]) { assert Entered(s, s.routes[j]); }
    }
  }

  lemma TakeIff(s: State, t: State, i: nat, k: Key)
    requires AllEntered(s) && t.kernel == s.kernel - {Id(k)}
    ensures OthersEntered(s, t, i) <==> NoTwin(s, i, k)
  {
    if !NoTwin(s, i, k) {
      var j :| 0 <= j < |s.routes| && j != i && Installed(s.routes[j]) && Id(s.routes[j].key) == Id(k);
      assert !Entered(t, s.routes[j]);
    } else {
      forall j | 0 <= j < |s.routes| && j != i ensures Entered(t, s.routes[j]) { assert Entered(s, s.routes[j]); }
    }
  }

  lemma LeaveIff(s: State, t: State, i: nat)
    requires AllEntered(s) && t.kernel == s.kernel
    ensures OthersEntered(s, t, i)
  {
    forall j | 0 <= j < |s.routes| && j != i ensures Entered(t, s.routes[j]) { assert Entered(s, s.routes[j]); }
  }

  /** Deleting a route keeps the others right in the kernel exactly if it was not
      there or none of them is the same to the kernel. */
  lemma DeleteKeepsOthersIff(s: State, i: nat)
    requires i < |s.routes| && AllEntered(s)
    ensures var r := s.routes[i];
            OthersEntered(s, RemoveAt(s, i), i) <==> !Ours(r) || !r.enabled || NoTwin(s, i, r.key)
  {
    hide OthersEntered, NoTwin, AllEntered;
    var r, t := s.routes[i], RemoveAt(s, i);
    if Ours(r) && r.enabled { TakeIff(s, t, i, r.key); } else { LeaveIff(s, t, i); }
  }

  /** Adding a new route keeps the others right exactly if it does not get to the
      kernel or those that are the same to the kernel have its attributes, too. */
  lemma AppendKeepsOthersIff(s: State, r: Route, ok: Outcome)
    requires AllEntered(s)
    ensures OthersEntered(s, Append(s, r, ok), |s.routes|) <==>
            !(Ours(r) && EnableRoute(s, r.key) && ok(s.calls)) || TwinsAgree(s, |s.routes|, r.key, r.attrs)
  {
    hide OthersEntered, TwinsAgree, AllEntered;
    var t := Append(s, r, ok);
    if Ours(r) && EnableRoute(s, r.key) && ok(s.calls) {
      PutIff(s, t, |s.routes|, r.key, r.attrs);
    } else {
      LeaveIff(s, t, |s.routes|);
    }
  }

  /** Replacing a route, by what becomes of it in the kernel. */
  lemma ReplaceKeepsOthersIff(s: State, i: nat, r: Route, ok: Outcome)
    requires i < |s.routes| && AllEntered(s) && r.key == s.routes[i].key
    ensures var was, e := s.routes[i], EnableRoute(s, r.key);
            OthersEntered(s, ReplaceAt(s, i, r, ok), i) <==>
            if !Ours(r) || Keep(was, r) then true
            else if e && ok(s.calls) then TwinsAgree(s, i, r.key, r.attrs)
            else !was.enabled || NoTwin(s, i, r.key)
  {
    hide OthersEntered, TwinsAgree, NoTwin, AllEntered;
    var was, t := s.routes[i], ReplaceAt(s, i, r, ok);
    if !Ours(r) || Keep(was, r) {
      LeaveIff(s, t, i);
    } else if EnableRoute(s, r.key) && ok(s.calls) {
      assert t.kernel == s.kernel[Id(r.key) := r.attrs];
      PutIff(s, t, i, r.key, r.attrs);
    } else if was.enabled {
      TakeIff(s, t, i, r.key);
    } else {
      LeaveIff(s, t, i);
    }
  }

  /** Switching a route on or off, in the middle of the loop over all of them. */
  lemma SwitchKeepsOthersIff(s: State, i: nat, ok: Outcome)
    requires i < |s.routes| && AllEntered(s)
    ensures var r, e := s.routes[i], EnableRoute(s, s.routes[i].key);
            OthersEntered(s, SwitchAt(s, i, ok), i) <==>
            if !Ours(r) || r.enabled == e then true
            else if e then !ok(s.calls) || TwinsAgree(s, i, r.key, r.attrs)
            else NoTwin(s, i, r.key)
  {
    hide OthersEntered, TwinsAgree, NoTwin, AllEntered;
    var r, t := s.routes[i], SwitchAt(s, i, ok);
    if !Ours(r) || r.enabled == EnableRoute(s, r.key) {
      LeaveIff(s, t, i);
    } else if EnableRoute(s, r.key) {
      if ok(s.calls) { PutIff(s, t, i, r.key, r.attrs); } else { LeaveIff(s, t, i); }
    } else {
      TakeIff(s, t, i, r.key);
    }
  }

  const PLAIN := Flags(false, false, false, false, false, false, false, false, false)

  /** Two keys of an address that differ only in the MTU flag. */
  function MtuKey(a: Addr, mtu: bool): Key {
    Key(PLAIN.(mtu := mtu), 0, 0, 24, 0, [], a)
  }

  function MtuRoute(a: Addr, mtu: bool, at: Attrs): Route {
    Route(MtuKey(a, mtu), at, 0, false, false)
  }

  /** The tree keeps both; the kernel has room for one, the later. */
  lemma BothAdded(ok: Outcome, a: Addr, at: Attrs, bt: Attrs)
    requires forall k :: ok(k)
    ensures !Apart(MtuKey(a, false), MtuKey(a, true))
    ensures var t := Run(Then(Then(Nothing, AddOp(MtuRoute(a, false, at))), AddOp(MtuRoute(a, true, bt))), ok);
            && t.routes == [MtuRoute(a, false, at).(enabled := true), MtuRoute(a, true, bt).(enabled := true)]
            && t.kernel == map[Id(MtuKey(a, false)) := bt]
  {
    var r, q := MtuRoute(a, false, at), MtuRoute(a, true, bt);
    var one := Then(Nothing, AddOp(r));
    assert Run(one, ok) == Step(NEW, AddOp(r), ok);
    assert Run(one, ok).routes == [r.(enabled := true)];
    assert Run(Then(one, AddOp(q)), ok) == Step(Run(one, ok), AddOp(q), ok);
    assert Find(Run(one, ok).routes, q.key, 0) == 1;
  }

  /** The MTU flag tells routes apart in the tree only: with both added, the first
      is enabled and not failed and has been overwritten in the kernel. */
  lemma MtuFlagOverwrites(ok: Outcome, a: Addr, at: Attrs, bt: Attrs)
    requires at != bt && forall k :: ok(k)
    ensures var t := Run(Then(Then(Nothing, AddOp(MtuRoute(a, false, at))), AddOp(MtuRoute(a, true, bt))), ok);
            |t.routes| == 2 && Installed(t.routes[0]) && !Entered(t, t.routes[0])
  {
    hide Run;
    BothAdded(ok, a, at, bt);
  }

  /** And taking away the second takes the first out of the kernel. */
  lemma MtuFlagAliases(ok: Outcome, a: Addr, at: Attrs, bt: Attrs)
    requires forall k :: ok(k)
    ensures var xs := Then(Then(Nothing, AddOp(MtuRoute(a, false, at))), AddOp(MtuRoute(a, true, bt)));
            var t := Run(Then(xs, DeleteOp(MtuKey(a, true))), ok);
            |t.routes| == 1 && Installed(t.routes[0]) && Id(t.routes[0].key) !in t.kernel
  {
    BothAdded(ok, a, at, bt);
    var xs := Then(Then(Nothing, AddOp(MtuRoute(a, false, at))), AddOp(MtuRoute(a, true, bt)));
    hide Run;
    var s := Run(xs, ok);
    assert Find(s.routes, MtuKey(a, true), 0) == 1;
    DeleteSecond(s, MtuKey(a, true));
    RunThen(xs, DeleteOp(MtuKey(a, true)), ok);
  }

  lemma RunThen(xs: History<Op>, x: Op, ok: Outcome)
    ensures Run(Then(xs, x), ok) == Step(Run(xs, ok), x, ok)
  {
    hide Step;
  }

  lemma DeleteSecond(s: State, k: Key)
    requires |s.routes| == 2 && Find(s.routes, k, 0) == 1 && Installed(s.routes[1])
    ensures var t := Delete(s, k); t.routes == [s.routes[0]] && Id(k) !in t.kernel
  {}
}
