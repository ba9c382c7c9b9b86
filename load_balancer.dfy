/**
 * The dispatcher: it owns a registry, one active strategy (swappable at run
 * time) and a health monitor, and answers each request with one outcome.
 */
module LoadBalancer {
  import opened Wrappers
  import opened Servers
  import opened Registry
  import opened HealthCheck
  import RoundRobin
  import ThreadSafeRoundRobin
  import RandomSelection
  import JavaInt

  /** The strategy in use: one of the three implementations of the strategy interface. */
  datatype LoadBalancingStrategy =
    | RoundRobinPolicy(rr: RoundRobin.RoundRobinStrategy)
    | ThreadSafePolicy(ts: ThreadSafeRoundRobin.ThreadSafeRoundRobinStrategy)
    | RandomPolicy(rnd: RandomSelection.RandomStrategy)
  {
    /** The object that holds the strategy's state. */
    function Obj(): (o: object) {
      match this
      case RoundRobinPolicy(rr) => rr
      case ThreadSafePolicy(ts) => ts
      case RandomPolicy(rnd) => rnd
    }

    ghost predicate Valid()
      reads Obj()
    {
      ThreadSafePolicy? ==> ts.Valid()
    }

    /** `selectServer` through the interface: none for a null or empty list, otherwise a member of the list. */
    method SelectServer(availableServers: Option<seq<Server>>) returns (r: Option<Server>)
      requires Valid()
      modifies Obj()
      ensures Valid()
      ensures r == None <==> availableServers == None || availableServers.value == []
      ensures r.Some? ==> r.value in availableServers.value
      ensures r == None ==> unchanged(Obj())
      ensures RoundRobinPolicy? && r.Some? ==>
                r.value == RoundRobin.Pick(old(rr.currentIndex), availableServers.value) &&
                rr.currentIndex == RoundRobin.Advance(old(rr.currentIndex), |availableServers.value|)
      ensures ThreadSafePolicy? && r.Some? ==>
                r.value == availableServers.value[ThreadSafeRoundRobin.Index(old(ts.currentIndex), |availableServers.value|)] &&
                ts.currentIndex == JavaInt.Wrap(old(ts.currentIndex) + 1)
      ensures RandomPolicy? && r.Some? ==>
                r.value == availableServers.value[RandomSelection.NextInt(old(rnd.state), |availableServers.value|)] &&
                rnd.state == RandomSelection.NextState(old(rnd.state))
    {
      match this
      case RoundRobinPolicy(rr) => r := rr.SelectServer(availableServers);
      case ThreadSafePolicy(ts) => r := ts.SelectServer(availableServers);
      case RandomPolicy(rnd) => r := rnd.SelectServer(availableServers);
    }

    /** `reset` through the interface: the round-robin cursors go back to 0, the random generator carries on. */
    method Reset()
      requires Valid()
      modifies Obj()
      ensures Valid()
      ensures RoundRobinPolicy? ==> rr.currentIndex == 0
      ensures ThreadSafePolicy? ==> ts.currentIndex == 0
      ensures RandomPolicy? ==> rnd.state == old(rnd.state)
    {
      match this
      case RoundRobinPolicy(rr) => rr.Reset();
      case ThreadSafePolicy(ts) => ts.Reset();
      case RandomPolicy(rnd) => rnd.Reset();
    }
  }

  /** What became of one request. */
  datatype Outcome =
    | NoServersConfigured
    | AllServersDown
    | NotSelected
    | Forwarded(server: Server, response: Response)

  class L4LoadBalancer {
    const serverManager: ServerManager
    var strategy: LoadBalancingStrategy
    const healthCheckManager: HealthCheckManager

    ghost predicate Valid()
      reads this, serverManager, strategy.Obj()
    {
      serverManager.Valid() && strategy.Valid()
    }

    /** Dependency injection: the parts are taken as given; the strategy is not reset. */
    constructor (serverManager: ServerManager, strategy: LoadBalancingStrategy, healthCheckManager: HealthCheckManager)
      requires serverManager.Valid() && strategy.Valid()
      ensures Valid()
      ensures this.serverManager == serverManager && this.strategy == strategy
      ensures this.healthCheckManager == healthCheckManager
    {
      this.serverManager := serverManager;
      this.strategy := strategy;
      this.healthCheckManager := healthCheckManager;
    }

    /** The defaults: an empty registry, a fresh round-robin and a stopped monitor with the simple checker on that registry. */
    constructor Default()
      ensures Valid()
      ensures serverManager.servers == [] && fresh(serverManager)
      ensures strategy.RoundRobinPolicy? && fresh(strategy.rr) && strategy.rr.currentIndex == 0
      ensures fresh(healthCheckManager) && !healthCheckManager.running
      ensures healthCheckManager.serverManager == serverManager
      ensures healthCheckManager.healthChecker == SimpleHealthChecker
    {
      var manager := new ServerManager();
      var rr := new RoundRobin.RoundRobinStrategy();
      serverManager := manager;
      strategy := RoundRobinPolicy(rr);
      healthCheckManager := new HealthCheckManager(manager, SimpleHealthChecker);
    }

    method AddServer(server: Server?)
      requires Valid()
      modifies serverManager
      ensures Valid()
      ensures server == null || server in old(serverManager.servers) ==> serverManager.servers == old(serverManager.servers)
      ensures server != null && server !in old(serverManager.servers) ==>
                serverManager.servers == old(serverManager.servers) + [server]
    {
      serverManager.AddServer(server);
    }

    method RemoveServer(server: Server?)
      requires Valid()
      modifies serverManager
      ensures Valid()
      ensures server == null ==> serverManager.servers == old(serverManager.servers)
      ensures server != null ==> serverManager.servers == RemoveFirst(old(serverManager.servers), server)
    {
      serverManager.RemoveServer(server);
    }

    /**
     * Forwards one request. With no server registered the outcome is
     * `NoServersConfigured`; with servers but none eligible, `AllServersDown`;
     * otherwise the strategy picks from the eligible servers and the request
     * goes to that server, which, being eligible, handles it. `handled` is
     * what the interface's boolean result reports.
     */
    method DistributeRequest(request: string) returns (handled: bool, outcome: Outcome)
      requires Valid()
      modifies strategy.Obj()
      ensures Valid()
      ensures serverManager.servers == [] ==> outcome == NoServersConfigured
      ensures serverManager.servers != [] && !serverManager.HasAvailableServers() ==> outcome == AllServersDown
      ensures !serverManager.HasAvailableServers() ==> unchanged(strategy.Obj())
      ensures serverManager.HasAvailableServers() ==>
                outcome.Forwarded? && outcome.server in serverManager.AvailableServers() && outcome.response == Handled
      ensures handled <==> serverManager.HasAvailableServers()
      ensures handled <==> outcome.Forwarded? && outcome.response == Handled
      ensures strategy.RoundRobinPolicy? && handled ==>
                outcome.server == RoundRobin.Pick(old(strategy.rr.currentIndex), serverManager.AvailableServers()) &&
                strategy.rr.currentIndex == RoundRobin.Advance(old(strategy.rr.currentIndex), |serverManager.AvailableServers()|)
      ensures strategy.ThreadSafePolicy? && handled ==>
                outcome.server == serverManager.AvailableServers()[
                  ThreadSafeRoundRobin.Index(old(strategy.ts.currentIndex), |serverManager.AvailableServers()|)] &&
                strategy.ts.currentIndex == JavaInt.Wrap(old(strategy.ts.currentIndex) + 1)
      ensures strategy.RandomPolicy? && handled ==>
                outcome.server == serverManager.AvailableServers()[
                  RandomSelection.NextInt(old(strategy.rnd.state), |serverManager.AvailableServers()|)] &&
                strategy.rnd.state == RandomSelection.NextState(old(strategy.rnd.state))
    {
      if !serverManager.HasAvailableServers() {
        if serverManager.AllServers() == [] {
          outcome := NoServersConfigured;
        } else {
          outcome := AllServersDown;
        }
        return false, outcome;
      }
      var available := serverManager.AvailableServers();
      var selectedServer := strategy.SelectServer(Some(available));
      assert serverManager.AvailableServers() == available;
      if selectedServer.Some? {
        var response := selectedServer.value.HandleRequest(request);
        handled, outcome := response == Handled, Forwarded(selectedServer.value, response);
      } else {
        handled, outcome := false, NotSelected;
      }
    }

    /** Installs a strategy and resets it before its first use. */
    method SetLoadBalancingStrategy(newStrategy: LoadBalancingStrategy)
      requires Valid() && newStrategy.Valid()
      modifies this, newStrategy.Obj()
      ensures Valid()
      ensures strategy == newStrategy
      ensures newStrategy.RoundRobinPolicy? ==> newStrategy.rr.currentIndex == 0
      ensures newStrategy.ThreadSafePolicy? ==> newStrategy.ts.currentIndex == 0
      ensures newStrategy.RandomPolicy? ==> newStrategy.rnd.state == old(newStrategy.rnd.state)
    {
      strategy := newStrategy;
      strategy.Reset();
    }

    method StartHealthChecking()
      modifies healthCheckManager
      ensures healthCheckManager.running
    {
      healthCheckManager.Start();
    }

    method StopHealthChecking()
      modifies healthCheckManager
      ensures !healthCheckManager.running
    {
      healthCheckManager.Stop();
    }

    function IsHealthCheckingEnabled(): (b: bool)
      reads this, healthCheckManager
      ensures b == healthCheckManager.running
    {
      healthCheckManager.IsRunning()
    }

    /** Stops health checking; calling it again changes nothing. */
    method Shutdown()
      modifies healthCheckManager
      ensures !healthCheckManager.running
    {
      StopHealthChecking();
    }
  }
}
