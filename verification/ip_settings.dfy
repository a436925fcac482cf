/** The routes as the daemon updates them: the callback of the tree and the
    loops over it. Route records are entries of a list here, not objects. */
module IpSettings {
  import opened IpRoutes

  class Settings {
    var enabled: bool
    var noDefaultroute: bool
    var routes: seq<Route>
    var kernel: map<KernelId, Attrs>
    var calls: nat

    function View(): State
      reads this
    {
      State(enabled, noDefaultroute, routes, kernel, calls)
    }

    constructor ()
      ensures View() == NEW
    {
      enabled, noDefaultroute, routes, kernel, calls := true, false, [], map[], 0;
    }

    method SystemAddRoute(r: Route, ok: Outcome) returns (failed: bool)
      modifies `kernel, `calls
      ensures View() == AddRoute(old(View()), r, ok) && failed == !ok(old(calls))
    {
      failed := !ok(calls);
      calls := calls + 1;
      if !failed {
        kernel := kernel[Id(r.key) := r.attrs];
      }
    }

    method SystemDelRoute(r: Route)
      modifies `kernel
      ensures View() == DelRoute(old(View()), r)
    {
      kernel := kernel - {Id(r.key)};
    }

    /** The part of the callback for the route that goes. */
    method ReleaseOld(was: Route, keep: bool)
      modifies `kernel
      ensures View() == Uninstall(old(View()), was, keep)
    {
      if !was.key.flags.external && was.enabled && !keep {
        SystemDelRoute(was);
      }
    }

    /** The part of the callback for the route that comes. */
    method TakeNew(r: Route, keep: bool, ok: Outcome) returns (n: Route)
      modifies `kernel, `calls
      ensures (View(), n) == Install(old(View()), r, keep, ok)
    {
      var e := EnableRoute(View(), r.key);
      n := r.(failed := false);
      if !r.key.flags.external && !keep && e {
        var failed := SystemAddRoute(r, ok);
        if failed {
          n := n.(failed := true);
        }
      }
      n := n.(enabled := e);
    }

    method AddProtoRoute(r: Route, ok: Outcome)
      modifies this
      ensures View() == Add(old(View()), r, ok)
    {
      hide Install, Uninstall;
      var i := Find(routes, r.key, 0);
      if i < |routes| {
        var keep := Keep(routes[i], r);
        ReleaseOld(routes[i], keep);
        var n := TakeNew(r, keep, ok);
        routes := routes[i := n];
      } else {
        var n := TakeNew(r, false, ok);
        routes := routes + [n];
      }
    }

    method RemoveProtoRoute(i: nat)
      requires i < |routes|
      modifies this
      ensures View() == RemoveAt(old(View()), i)
    {
      hide Uninstall;
      ReleaseOld(routes[i], false);
      routes := routes[..i] + routes[i + 1..];
    }

    method DeleteProtoRoute(k: Key)
      modifies this
      ensures View() == Delete(old(View()), k)
    {
      hide RemoveAt;
      var i := Find(routes, k, 0);
      if i < |routes| {
        RemoveProtoRoute(i);
      }
    }

    /** Every route whose time is over is deleted. */
    method ExpireRoutes(now: nat)
      modifies this
      ensures View() == Expire(old(View()), 0, now)
    {
      hide RemoveAt;
      var i := 0;
      while i < |routes|
        invariant i <= |routes|
        invariant Expire(View(), i, now) == Expire(old(View()), 0, now)
        decreases |routes| - i
      {
        if Expired(routes[i], now) {
          RemoveProtoRoute(i);
        } else {
          i := i + 1;
        }
      }
    }

    method Switch(i: nat, ok: Outcome)
      requires i < |routes|
      modifies this
      ensures View() == SwitchAt(old(View()), i, ok)
    {
      hide EnableRoute;
      var route := routes[i];
      var e := enabled;
      if route.key.flags.external {
        return;
      }
      if !EnableRoute(View(), route.key) {
        e := false;
      } else {
        EnabledIfSet(View(), route.key);
      }
      if route.enabled == e {
        return;
      }
      if e {
        var failed := SystemAddRoute(route, ok);
        if failed {
          route := route.(failed := true);
        }
      } else {
        SystemDelRoute(route);
      }
      routes := routes[i := route.(enabled := e)];
    }

    static lemma EnabledIfSet(s: State, k: Key)
      requires EnableRoute(s, k)
      ensures s.enabled
    {}

    method IpSetEnabled(b: bool, ok: Outcome)
      modifies this
      ensures View() == SetEnabled(old(View()), b, ok)
    {
      hide SwitchAt;
      enabled := b;
      ghost var start := View();
      for i := 0 to |routes|
        invariant |routes| == |start.routes|
        invariant SwitchFrom(View(), i, ok) == SwitchFrom(start, 0, ok)
      {
        Switch(i, ok);
      }
    }

    method ChangeNoDefaultroute(b: bool, ok: Outcome)
      modifies this
      ensures View() == SetNoDefaultroute(old(View()), b, ok)
    {
      hide SetEnabled;
      if noDefaultroute == b {
        return;
      }
      noDefaultroute := b;
      var was := enabled;
      IpSetEnabled(false, ok);
      IpSetEnabled(was, ok);
    }

    /** Whatever comes in: the runs of the model are the runs of the daemon, and
        the ledger stays right. */
    method Handle(x: Op, ok: Outcome)
      requires Inv(View()) && Fits(View(), x)
      modifies this
      ensures View() == Step(old(View()), x, ok) && Inv(View())
    {
      hide Inv, Fits, Add, Delete, Expire, SetEnabled, SetNoDefaultroute;
      StepKeeps(View(), x, ok);
      match x {
        case AddOp(r) => AddProtoRoute(r, ok);
        case DeleteOp(k) => DeleteProtoRoute(k);
        case ExpireOp(now) => ExpireRoutes(now);
        case EnableOp(b) => IpSetEnabled(b, ok);
        case DefaultOp(b) => ChangeNoDefaultroute(b, ok);
      }
    }
  }
}
