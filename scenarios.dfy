/**
 * Client programs that replay the repository's unit and integration
 * scenarios against the specifications alone.
 */
module Scenarios {
  import opened Wrappers
  import opened Servers
  import opened Registry
  import opened HealthCheck
  import opened LoadBalancer
  import RoundRobin
  import RandomSelection
  import ModArith

  /** Three round-robin calls on three servers return them in order, and the fourth wraps to the first. */
  method RoundRobinWrapsAround(s1: Server, s2: Server, s3: Server) returns (picks: seq<Server>)
    ensures picks == [s1, s2, s3, s1]
  {
    var strategy := new RoundRobin.RoundRobinStrategy();
    var l := Some([s1, s2, s3]);
    var a := strategy.SelectServer(l);
    var b := strategy.SelectServer(l);
    var c := strategy.SelectServer(l);
    var d := strategy.SelectServer(l);
    picks := [a.value, b.value, c.value, d.value];
  }

  /** After two selections and a reset, round-robin starts again at the head of the list. */
  method ResetRestartsRoundRobin(s1: Server, s2: Server, s3: Server) returns (pick: Option<Server>)
    ensures pick == Some(s1)
  {
    var strategy := new RoundRobin.RoundRobinStrategy();
    var l := Some([s1, s2, s3]);
    var _ := strategy.SelectServer(l);
    var _ := strategy.SelectServer(l);
    strategy.Reset();
    pick := strategy.SelectServer(l);
  }

  /** Two random strategies built from the same seed make the same selections from the same lists. */
  method SameSeedSameSelections(seed: int, l: seq<Server>, m: seq<Server>) returns (first: seq<Option<Server>>, second: seq<Option<Server>>)
    ensures first == second
    ensures |first| == 2
  {
    var x := new RandomSelection.RandomStrategy(seed);
    var y := new RandomSelection.RandomStrategy(seed);
    var x1 := x.SelectServer(Some(l));
    var x2 := x.SelectServer(Some(m));
    var y1 := y.SelectServer(Some(l));
    var y2 := y.SelectServer(Some(m));
    first, second := [x1, x2], [y1, y2];
  }

  /** Sends one request to a round-robin balancer whose eligible servers are `avail`; reports who handled it. */
  method SendRoundRobin(lb: L4LoadBalancer, ghost avail: seq<Server>) returns (name: string)
    requires lb.Valid() && lb.strategy.RoundRobinPolicy?
    requires lb.serverManager.AvailableServers() == avail && avail != []
    modifies lb.strategy.rr
    ensures lb.Valid() && lb.serverManager.AvailableServers() == avail
    ensures name == avail[old(lb.strategy.rr.currentIndex) % |avail|].name
    ensures lb.strategy.rr.currentIndex == (old(lb.strategy.rr.currentIndex) + 1) % |avail|
  {
    var handled, outcome := lb.DistributeRequest("request");
    name := outcome.server.name;
  }

  /** The tests' fixture: a default balancer holding three new servers with the given names. */
  method ThreeServers(n1: string, n2: string, n3: string) returns (lb: L4LoadBalancer, s1: Server, s2: Server, s3: Server)
    ensures lb.Valid() && lb.strategy.RoundRobinPolicy? && lb.strategy.rr.currentIndex == 0
    ensures fresh(lb.strategy.rr) && fresh(s1) && fresh(s2) && fresh(s3)
    ensures lb.serverManager.servers == [s1, s2, s3]
    ensures s1.name == n1 && s2.name == n2 && s3.name == n3
    ensures s1 != s2 && s2 != s3 && s1 != s3
    ensures s1.Eligible() && s2.Eligible() && s3.Eligible()
    ensures fresh(lb.healthCheckManager) && !lb.healthCheckManager.running
    ensures lb.healthCheckManager.serverManager == lb.serverManager
    ensures lb.healthCheckManager.healthChecker == SimpleHealthChecker
  {
    lb := new L4LoadBalancer.Default();
    s1 := new Server(n1);
    s2 := new Server(n2);
    s3 := new Server(n3);
    lb.AddServer(s1);
    lb.AddServer(s2);
    lb.AddServer(s3);
  }

  /** Sends `k` requests to a round-robin balancer starting at the head of `avail`. */
  method SendMany(lb: L4LoadBalancer, ghost avail: seq<Server>, k: nat) returns (names: seq<string>)
    requires lb.Valid() && lb.strategy.RoundRobinPolicy? && lb.strategy.rr.currentIndex == 0
    requires lb.serverManager.AvailableServers() == avail && avail != []
    modifies lb.strategy.rr
    ensures |names| == k && Rotation(names, avail)
  {
    names := [];
    var i := 0;
    while i < k
      invariant 0 <= i <= k && |names| == i
      invariant lb.Valid() && lb.strategy.RoundRobinPolicy? && lb.serverManager.AvailableServers() == avail
      invariant lb.strategy.rr.currentIndex == i % |avail|
      invariant Rotation(names, avail)
    {
      ghost var n, c := |avail|, lb.strategy.rr.currentIndex;
      var name := SendRoundRobin(lb, avail);
      assert c % n == c by { ModArith.DivModUnique(c, n, 0, c); }
      ModArith.ModAddLeft(i, 1, n);
      RotationExtend(names, avail, name);
      names := names + [name];
      i := i + 1;
    }
  }

  /** `names` are the names of `avail` read cyclically from its head. */
  ghost predicate Rotation(names: seq<string>, avail: seq<Server>)
    requires avail != []
  {
    forall j :: 0 <= j < |names| ==> names[j] == avail[j % |avail|].name
  }

  lemma RotationExtend(names: seq<string>, avail: seq<Server>, name: string)
    requires avail != [] && Rotation(names, avail)
    requires name == avail[|names| % |avail|].name
    ensures Rotation(names + [name], avail)
  {
  }

  lemma RotationOfThree(names: seq<string>, avail: seq<Server>)
    requires |avail| == 3 && |names| == 6 && Rotation(names, avail)
    ensures names == [avail[0].name, avail[1].name, avail[2].name, avail[0].name, avail[1].name, avail[2].name]
  {
    assert names[3] == avail[3 % 3].name;
    assert names[4] == avail[4 % 3].name;
    assert names[5] == avail[5 % 3].name;
  }

  lemma RotationOfTwo(names: seq<string>, avail: seq<Server>)
    requires |avail| == 2 && |names| == 4 && Rotation(names, avail)
    ensures names == [avail[0].name, avail[1].name, avail[0].name, avail[1].name]
  {
    assert names[2] == avail[2 % 2].name;
    assert names[3] == avail[3 % 2].name;
  }

  /** With three eligible servers under round-robin, six requests go to servers 1, 2, 3, 1, 2, 3. */
  method SixRequestsRotate(n1: string, n2: string, n3: string) returns (names: seq<string>)
    ensures names == [n1, n2, n3, n1, n2, n3]
  {
    var lb, s1, s2, s3 := ThreeServers(n1, n2, n3);
    ghost var all := [s1, s2, s3];
    EligibleOfAll(all);
    names := SendMany(lb, all, 6);
    RotationOfThree(names, all);
  }

  /** With server 2 administratively down, four requests alternate between servers 1 and 3. */
  method FailoverAlternates(n1: string, n2: string, n3: string) returns (names: seq<string>)
    ensures names == [n1, n3, n1, n3]
  {
    var lb, s1, s2, s3 := ThreeServers(n1, n2, n3);
    s2.SetAvailable(false);
    SkipsIneligible(s1, s2, s3);
    ghost var eligible := [s1, s3];
    names := SendMany(lb, eligible, 4);
    RotationOfTwo(names, eligible);
  }

  lemma SkipsIneligible(s1: Server, s2: Server, s3: Server)
    requires s1.Eligible() && !s2.Eligible() && s3.Eligible()
    ensures EligibleOf([s1, s2, s3]) == [s1, s3]
  {
    EligibleOfAppend([s1], [s2, s3]);
    EligibleOfAppend([s2], [s3]);
    assert [s1, s2, s3] == [s1] + [s2, s3];
    assert [s2, s3] == [s2] + [s3];
  }

  /** An empty balancer rejects a request as having no servers configured. */
  method EmptyRegistryRejects() returns (handled: bool, outcome: Outcome)
    ensures !handled && outcome == NoServersConfigured
  {
    var lb := new L4LoadBalancer.Default();
    handled, outcome := lb.DistributeRequest("Test Request");
  }

  /**
   * With the simple checker running and every server's health flag set to
   * unhealthy, a monitoring cycle keeps them unhealthy and the next request
   * finds all servers down.
   */
  method AllServersUnhealthy(n1: string, n2: string, n3: string) returns (handled: bool, outcome: Outcome)
    ensures !handled && outcome == AllServersDown
  {
    var lb, s1, s2, s3 := UnhealthyFixture(n1, n2, n3);
    lb.healthCheckManager.PerformHealthChecks();
    NoneEligible([s1, s2, s3]);
    handled, outcome := lb.DistributeRequest("Request with all servers down");
  }

  /** The tests' three-server fixture with monitoring started and every health flag then set to unhealthy. */
  method UnhealthyFixture(n1: string, n2: string, n3: string) returns (lb: L4LoadBalancer, s1: Server, s2: Server, s3: Server)
    ensures lb.Valid() && lb.strategy.RoundRobinPolicy?
    ensures fresh(lb.strategy.rr) && fresh(s1) && fresh(s2) && fresh(s3)
    ensures lb.serverManager.servers == [s1, s2, s3]
    ensures !s1.healthy && !s2.healthy && !s3.healthy
    ensures lb.healthCheckManager.running && lb.healthCheckManager.serverManager == lb.serverManager
    ensures lb.healthCheckManager.healthChecker == SimpleHealthChecker
  {
    lb, s1, s2, s3 := ThreeServers(n1, n2, n3);
    lb.StartHealthChecking();
    s1.SetHealthy(false);
    s2.SetHealthy(false);
    s3.SetHealthy(false);
  }

  /** A balancer over two new servers whose running monitor uses a checker that always reports failure. */
  method FailingProbeFixture() returns (lb: L4LoadBalancer, s1: Server, s2: Server)
    ensures lb.Valid() && lb.strategy.RoundRobinPolicy?
    ensures lb.serverManager.servers == [s1, s2] && s1 != s2
    ensures fresh(s1) && fresh(s2) && fresh(lb.strategy.rr)
    ensures s1.available && s2.available
    ensures lb.healthCheckManager.serverManager == lb.serverManager && lb.healthCheckManager.running
    ensures lb.healthCheckManager.healthChecker.Probe?
    ensures forall s :: lb.healthCheckManager.healthChecker.verdict(s) == Some(false)
  {
    var manager := new ServerManager();
    s1 := new Server("Server-1");
    s2 := new Server("Server-2");
    manager.AddServer(s1);
    manager.AddServer(s2);
    var monitor := new HealthCheckManager(manager, Probe(s => Some(false)));
    var rr := new RoundRobin.RoundRobinStrategy();
    lb := new L4LoadBalancer(manager, RoundRobinPolicy(rr), monitor);
    lb.StartHealthChecking();
  }

  lemma {:induction false} NoneEligible(s: seq<Server>)
    requires forall i :: 0 <= i < |s| ==> !s[i].Eligible()
    ensures EligibleOf(s) == []
  {
    if s != [] {
      NoneEligible(s[1..]);
    }
  }

  /**
   * With a checker that always reports failure, one monitoring cycle marks
   * every server unhealthy and the next request finds all servers down,
   * although every server is still administratively available.
   */
  method FailingProbeTakesAllDown() returns (handled: bool, outcome: Outcome, stillAvailable: bool)
    ensures !handled && outcome == AllServersDown && stillAvailable
  {
    var lb, s1, s2 := FailingProbeFixture();
    lb.healthCheckManager.PerformHealthChecks();
    NoneEligible([s1, s2]);
    handled, outcome := lb.DistributeRequest("Request with all servers down");
    stillAvailable := s1.available && s2.available;
  }
}
