/** The helper's critical sections as the Go code writes them, on mutable fields. */
module HelperService {
  import opened Wrappers
  import opened Sequences
  import P = TunnelProtocol

  class HelperService {
    var phase: P.Phase
    var cancel: Option<nat>
    var tailnetCon: Option<nat>
    var tunDev: Option<nat>
    var controller: Option<nat>
    var dnsManager: Option<nat>
    /** Every acquire and release call so far. */
    ghost var log: seq<P.Event>

    ghost function State(): P.Service
      reads this
    {
      P.Service(phase, P.Fields(cancel, tailnetCon, tunDev, controller, dnsManager))
    }

    constructor ()
      ensures State() == P.INIT.service && log == []
    {
      phase := P.Disconnected;
      cancel, tailnetCon, tunDev, controller, dnsManager := None, None, None, None, None;
      log := [];
    }

    /** True if a startTunnel goroutine is to be launched, false for the AlreadyRunning error. */
    method Start() returns (launched: bool)
      modifies this
      ensures State() == P.Start(old(State())) && launched == P.MayStart(old(State()))
      ensures launched <==> old(phase) == P.Disconnected || old(phase) == P.Error
      ensures phase == (if launched then P.Connecting else old(phase)) && State().fields == old(State()).fields
      ensures log == old(log)
    {
      if phase == P.Connected || phase == P.Connecting {
        return false;
      }
      phase := P.Connecting;
      return true;
    }

    /** Releases what the field holds, if anything. */
    method Release(owner: Option<nat>, kind: P.Kind)
      modifies this`log
      ensures log == old(log) + P.FieldReleased(owner, kind)
    {
      if owner != None {
        log := log + [P.Released(owner.value, kind)];
      }
    }

    /** Stop and Shutdown. */
    method Shutdown()
      modifies this
      ensures State() == P.Stop(old(State()))
      ensures phase == P.Disconnected
      ensures old(phase) != P.Disconnected ==> State().fields == P.Fields(None, None, None, None, None)
      ensures log == old(log) + P.StopReleases(old(State()))
    {
      hide P.FieldReleased;
      if phase == P.Disconnected {
        return;
      }
      Release(tailnetCon, P.Conn);
      tailnetCon := None;
      Release(cancel, P.Context);
      cancel := None;
      Release(tunDev, P.Tun);
      tunDev := None;
      Release(dnsManager, P.Dns);
      dnsManager := None;
      controller := None;
      phase := P.Disconnected;
      FourInARow(old(log), P.FieldReleased(old(tailnetCon), P.Conn), P.FieldReleased(old(cancel), P.Context),
                 P.FieldReleased(old(tunDev), P.Tun), P.FieldReleased(old(dnsManager), P.Dns));
    }

    method SetError()
      modifies this
      ensures State() == P.SetError(old(State())) && log == old(log)
      ensures phase == P.Error && State().fields == old(State()).fields
    {
      phase := P.Error;
    }

    /** The monitor goroutine of tunnel `task`, once its controller has closed. */
    method ControllerClosed(task: nat)
      modifies this
      ensures State() == P.ControllerClosed(old(State()), task) && log == old(log)
    {
      if controller == Some(task) && phase == P.Connected {
        phase := P.Error;
      }
    }

    /** Replacing what a field holds drops it without a release. */
    method Drop(owner: Option<nat>, kind: P.Kind)
      modifies this`log
      ensures log == old(log) + P.FieldOverwritten(owner, kind)
    {
      if owner != None {
        log := log + [P.Overwritten(owner.value, kind)];
      }
    }

    method SaveTunnel(task: nat)
      modifies this
      ensures State() == P.Save(old(State()), task)
      ensures log == old(log) + P.SaveLosses(old(State()))
    {
      hide P.FieldOverwritten;
      Drop(cancel, P.Context);
      cancel := Some(task);
      Drop(tailnetCon, P.Conn);
      tailnetCon := Some(task);
      Drop(tunDev, P.Tun);
      tunDev := Some(task);
      controller := Some(task);
      Drop(dnsManager, P.Dns);
      dnsManager := Some(task);
      phase := P.Connected;
      FourInARow(old(log), P.FieldOverwritten(old(cancel), P.Context), P.FieldOverwritten(old(tailnetCon), P.Conn),
                 P.FieldOverwritten(old(tunDev), P.Tun), P.FieldOverwritten(old(dnsManager), P.Dns));
    }

    /** One startTunnel goroutine run without interference; `failing` is the step that fails, if any. */
    method StartTunnel(task: nat, failing: Option<P.Setup>)
      requires failing.Some? ==> P.CanFail(failing.value)
      modifies this
      ensures failing.Some? ==>
        var held := P.Held(failing.value);
        && State() == P.SetError(old(State()))
        && phase == P.Error && State().fields == old(State()).fields
        && log == old(log) + P.Acquisitions(task, held) + P.Releases(task, P.Reversed(held))
      ensures failing.None? ==>
        && State() == P.Save(old(State()), task)
        && phase == P.Connected
        && State().fields == P.Fields(Some(task), Some(task), Some(task), Some(task), Some(task))
        && log == old(log) + P.Acquisitions(task, P.ALL) + P.SaveLosses(old(State()))
    {
      var acquired, released := SetUpTunnel(failing);
      log := log + P.Acquisitions(task, acquired) + P.Releases(task, released);
      if failing.Some? {
        SetError();
      } else {
        assert log == old(log) + P.Acquisitions(task, P.ALL);
        SaveTunnel(task);
      }
    }
  }

  /** The setup steps in order, with the cleanup written out on each failing branch: what was
      acquired is released in reverse order, and nothing is released when no step fails. */
  method SetUpTunnel(failing: Option<P.Setup>) returns (acquired: seq<P.Kind>, released: seq<P.Kind>)
    requires failing.Some? ==> P.CanFail(failing.value)
    ensures failing.None? ==> acquired == P.ALL && released == []
    ensures failing.Some? ==> acquired == P.Held(failing.value) && released == P.Reversed(acquired)
  {
    hide P.Reversed;
    P.Reversals();
    acquired, released := [], [];
    if failing == Some(P.ParseUrl) {
      return;
    }
    acquired := acquired + [P.Context];
    if failing == Some(P.Authenticate) || failing == Some(P.FetchInfo) || failing == Some(P.CreateTun) {
      released := released + [P.Context];
      return;
    }
    acquired := acquired + [P.Tun];
    if failing == Some(P.ConfigureTun) || failing == Some(P.ConfigureDns) {
      released := released + [P.Tun];
      released := released + [P.Context];
      return;
    }
    acquired := acquired + [P.Dns];
    if failing == Some(P.NewConn) {
      released := released + [P.Dns];
      released := released + [P.Tun];
      released := released + [P.Context];
      return;
    }
    acquired := acquired + [P.Conn];
    if failing == Some(P.ParseRpcUrl) {
      released := released + [P.Conn];
      released := released + [P.Dns];
      released := released + [P.Tun];
      released := released + [P.Context];
      return;
    }
  }
}
