/**
 * Health monitoring: a checker gives a verdict per server, and one cycle of
 * the monitor writes each registered server's health flag from its verdict.
 * The monitor's scheduling is not modelled: a cycle is an explicit step.
 */
module HealthCheck {
  import opened Wrappers
  import opened Servers
  import opened Registry

  /**
   * The pluggable checker. `SimpleHealthChecker` echoes the server's health
   * flag; `Probe(verdict)` stands for any other checker, whose verdict on a
   * server is `Some(healthy)` or `None` when it throws.
   */
  datatype HealthChecker = SimpleHealthChecker | Probe(verdict: Server? -> Option<bool>)

  /** What the checker reports for a server; `None` is an exception. */
  function IsHealthy(checker: HealthChecker, server: Server?): (v: Option<bool>)
    reads server
    ensures checker.SimpleHealthChecker? ==> v.Some? && v.value == (server != null && server.healthy)
    ensures checker.Probe? ==> v == checker.verdict(server)
  {
    match checker
    case SimpleHealthChecker => if server == null then Some(false) else Some(server.healthy)
    case Probe(verdict) => verdict(server)
  }

  /** The health flag a cycle leaves for a verdict: the verdict itself, or unhealthy when the check threw. */
  function HealthAfter(v: Option<bool>): (healthy: bool)
    ensures healthy <==> v == Some(true)
  {
    match v
    case Some(b) => b
    case None => false
  }

  class HealthCheckManager {
    const serverManager: ServerManager
    const healthChecker: HealthChecker
    var running: bool

    /** A new manager is stopped. */
    constructor (serverManager: ServerManager, healthChecker: HealthChecker)
      ensures this.serverManager == serverManager && this.healthChecker == healthChecker
      ensures !running
    {
      this.serverManager := serverManager;
      this.healthChecker := healthChecker;
      running := false;
    }

    /** Starts monitoring; a no-op when already running. */
    method Start()
      modifies this
      ensures running
    {
      if !running {
        running := true;
      }
    }

    /** Stops monitoring; a no-op when already stopped. */
    method Stop()
      modifies this
      ensures !running
    {
      if running {
        running := false;
      }
    }

    function IsRunning(): (b: bool)
      reads this
      ensures b == running
    {
      running
    }

    /**
     * One monitoring cycle. Stopped, it does nothing. Running, it visits every
     * registered server, available or not, and leaves its health flag equal to
     * the checker's verdict as it stood before the cycle (unhealthy when the
     * checker threw). No availability flag and no registry entry changes. The
     * default checker echoes the flag it reads, so a cycle with it is a fixpoint.
     */
    method PerformHealthChecks()
      requires serverManager.Valid()
      modifies serverManager.servers
      ensures !old(running) ==> forall s :: s in serverManager.servers ==> s.healthy == old(s.healthy)
      ensures old(running) ==> forall s :: s in serverManager.servers ==>
                s.healthy == HealthAfter(old(IsHealthy(healthChecker, s)))
      ensures forall s :: s in serverManager.servers ==> s.available == old(s.available)
      ensures healthChecker.SimpleHealthChecker? ==> forall s :: s in serverManager.servers ==> s.healthy == old(s.healthy)
    {
      if !running {
        return;
      }
      var all := serverManager.AllServers();
      var i := 0;
      while i < |all|
        invariant 0 <= i <= |all|
        invariant forall k :: 0 <= k < i ==> all[k].healthy == HealthAfter(old(IsHealthy(healthChecker, all[k])))
        invariant forall k :: i <= k < |all| ==> all[k].healthy == old(all[k].healthy)
        invariant forall s :: s in all ==> s.available == old(s.available)
      {
        var server := all[i];
        var verdict := IsHealthy(healthChecker, server);
        match verdict {
          case Some(currentlyHealthy) =>
            if server.healthy != currentlyHealthy {
              server.SetHealthy(currentlyHealthy);
            }
          case None =>
            server.SetHealthy(false);
        }
        i := i + 1;
      }
    }
  }
}
