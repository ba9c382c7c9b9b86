# L4 load balancer dispatch core, in Dafny

This project models the sequential dispatch core of a small in-memory
Layer-4 load balancer written in Java. The core has five parts:

- **Backend servers.** Each server has two flags: an administrative
  `available` flag and a monitored `healthy` flag.
- **Server registry.** An insertion-ordered list with reference identity.
  It ignores null and duplicates, and it filters the eligible servers.
- **Selection strategies.** Three of them:
  - round-robin, whose cursor is kept modulo the list length;
  - thread-safe round-robin, with a growing 32-bit counter;
  - seeded random, using the `java.util.Random` linear congruential generator.
- **Health monitor.** A running flag plus one monitoring cycle that
  rewrites each server's health flag from a pluggable checker's verdict.
- **Dispatcher.** Answers each request with "no servers configured", "all
  servers down", or the strategy's pick, which then handles the request.

The Java interfaces `LoadBalancingStrategy` and `HealthChecker` become
datatypes over their implementations:
- `LoadBalancer.LoadBalancingStrategy` wraps one of the three strategy objects.
- `HealthCheck.HealthChecker` is either the simple checker or a
  `Probe(verdict)`. A probe's verdict on a server is `Some(healthy)`, or `None`
  when the checker throws.

Servers, the registry, the strategies, the monitor and the balancer are
classes whose methods update their fields in place.

Java `null` is modelled as follows:
- a list argument is `Option<seq<Server>>`;
- a server argument is `Server?`;
- a strategy's "no server" result is `None`.

The printed messages of `distributeRequest` and `handleRequest` are
replaced by the datatypes `Outcome` and `Response`.

Modules, one per file: `Wrappers`, `JavaInt`, `ModArith`, `Servers`,
`Registry`, `RoundRobin`, `ThreadSafeRoundRobin`, `RandomSelection`,
`HealthCheck`, `LoadBalancer` and `Scenarios`. `Scenarios` restates
scenarios from the repository's tests as verified client code.

The dispatcher's `distributeRequest` is declared `void` in
`L4LoadBalancer.java:105`, but the `LoadBalancer` interface declares it
`boolean` (`LoadBalancer.java:7`). The model returns both:
- `handled`, whether a server handled the request;
- the `Outcome`.

## Model

| member | source | states |
|---|---|---|
| Servers.Server.constructor | src/main/java/com/testorg/server/Server.java:48-52 | a new server keeps its name and starts both available and healthy |
| Servers.Server.SetAvailable | src/main/java/com/testorg/server/Server.java:62-64 | sets the administrative flag and leaves the health flag alone |
| Servers.Server.SetHealthy | src/main/java/com/testorg/server/Server.java:71-74 | sets the health flag and leaves the administrative flag alone |
| Servers.Server.HandleRequest | src/main/java/com/testorg/server/Server.java:98-111 | handled iff available and healthy; "administratively down" iff not available (even when also unhealthy); "failed health check" iff available but unhealthy; no flag changes |
| Registry.EligibleOf | src/main/java/com/testorg/loadbalancer/ServerManagerImpl.java:29-31 | the filter keeps exactly the eligible members, is no longer than its input and keeps a duplicate-free list duplicate-free |
| Registry.EligibleOfAppend | src/main/java/com/testorg/loadbalancer/ServerManagerImpl.java:29-31 | the filter preserves order: filtering a concatenation concatenates the filtered parts |
| Registry.EligibleOfAll | src/main/java/com/testorg/loadbalancer/ServerManagerImpl.java:29-31 | when every server is eligible the filter returns the whole list |
| Registry.RemoveFirst | src/main/java/com/testorg/loadbalancer/ServerManagerImpl.java:24 | removing a non-member changes nothing; otherwise exactly one occurrence leaves (multiset difference), and a duplicate-free list no longer contains it |
| Registry.ServerManager.constructor | src/main/java/com/testorg/loadbalancer/ServerManagerImpl.java:11-13 | a new registry is empty |
| Registry.ServerManager.AddServer | src/main/java/com/testorg/loadbalancer/ServerManagerImpl.java:16-20 | null and a server already present leave the list unchanged; a new server is appended at the end; the list stays duplicate-free |
| Registry.ServerManager.RemoveServer | src/main/java/com/testorg/loadbalancer/ServerManagerImpl.java:23-25 | the list becomes the old list without that server, the others kept in order; a non-member or null is a no-op |
| Registry.ServerManager.AvailableServers | src/main/java/com/testorg/loadbalancer/ServerManagerImpl.java:28-32 | every returned server is registered and eligible, every registered eligible server is returned, and the result has no duplicates |
| Registry.ServerManager.AllServers | src/main/java/com/testorg/loadbalancer/ServerManagerImpl.java:35-37 | the copy is duplicate-free like the registry it copies |
| Registry.ServerManager.HasAvailableServers | src/main/java/com/testorg/loadbalancer/ServerManagerImpl.java:40-42 | the `anyMatch` query is true iff the eligible filter is non-empty |
| RoundRobin.Pick | src/main/java/com/testorg/loadbalancer/RoundRobinStrategy.java:19 | the pick is a member of the current list, the cursor's own element when it is in range, and the only element of a singleton |
| RoundRobin.Advance | src/main/java/com/testorg/loadbalancer/RoundRobinStrategy.java:20 | the new cursor is below the list length: one more, or 0 after the last position |
| RoundRobin.RunCycles | src/main/java/com/testorg/loadbalancer/RoundRobinStrategy.java:19-20 | k calls on a stable list return the list cycled from the cursor with period n |
| RoundRobin.CursorAfterCycles | src/main/java/com/testorg/loadbalancer/RoundRobinStrategy.java:20 | after k calls the cursor is (cursor + k) mod n |
| RoundRobin.InOrderThenWrap | src/test/java/com/testorg/loadbalancer/LoadBalancingStrategyTest.java:33-46 | from a fresh or reset cursor, n calls return the list in order and call n+1 returns its head |
| RoundRobin.FullRoundResetsCursor | src/main/java/com/testorg/loadbalancer/RoundRobinStrategy.java:20 | a full round of n calls brings a fresh cursor back to 0 |
| RoundRobin.RoundRobinStrategy.constructor | src/main/java/com/testorg/loadbalancer/RoundRobinStrategy.java:9-11 | the cursor starts at 0 |
| RoundRobin.RoundRobinStrategy.SelectServer | src/main/java/com/testorg/loadbalancer/RoundRobinStrategy.java:14-22 | null or empty: none, cursor unchanged; otherwise the element at cursor mod n of the current list, and the cursor advances modulo n |
| RoundRobin.RoundRobinStrategy.Reset | src/main/java/com/testorg/loadbalancer/RoundRobinStrategy.java:25-27 | the cursor returns to 0 |
| JavaInt.Wrap | src/main/java/com/testorg/loadbalancer/ThreadSafeRoundRobinStrategy.java:36 | 32-bit two's-complement wrap: in range, the identity in range, and MaxInt + 1 becomes MinInt |
| JavaInt.Rem | src/main/java/com/testorg/loadbalancer/ThreadSafeRoundRobinStrategy.java:36 | Java's `%`: the remainder takes the dividend's sign, its magnitude is below the divisor and is the magnitude's remainder |
| ThreadSafeRoundRobin.WrittenIndex | src/main/java/com/testorg/loadbalancer/ThreadSafeRoundRobinStrategy.java:36 | the index as written is in range for a non-negative counter and zero or negative for a negative one |
| ThreadSafeRoundRobin.Index | src/main/java/com/testorg/loadbalancer/ThreadSafeRoundRobinStrategy.java:36-39 | the corrected index is always in range and agrees with the written one while the counter is non-negative |
| ThreadSafeRoundRobin.CounterCounts | src/main/java/com/testorg/loadbalancer/ThreadSafeRoundRobinStrategy.java:36 | until it reaches MaxInt the counter equals the start plus the number of selections; it is never reduced modulo n |
| ThreadSafeRoundRobin.WrittenIndexAfterWrap | src/main/java/com/testorg/loadbalancer/ThreadSafeRoundRobinStrategy.java:36 | after 2^31 selections from 0 the counter is MinInt and the written index for three servers is -2 |
| ThreadSafeRoundRobin.RunCycles | src/main/java/com/testorg/loadbalancer/ThreadSafeRoundRobinStrategy.java:36-39 | before the wrap, k calls on a stable list return the list cycled with period n from the counter |
| ThreadSafeRoundRobin.AgreesWithRoundRobin | src/main/java/com/testorg/loadbalancer/ThreadSafeRoundRobinStrategy.java:36-39 | taken one call at a time from 0, the thread-safe strategy picks exactly what the plain round-robin picks |
| ThreadSafeRoundRobin.ThreadSafeRoundRobinStrategy.constructor | src/main/java/com/testorg/loadbalancer/ThreadSafeRoundRobinStrategy.java:19-23 | the counter starts at 0 |
| ThreadSafeRoundRobin.ThreadSafeRoundRobinStrategy.SelectServer | src/main/java/com/testorg/loadbalancer/ThreadSafeRoundRobinStrategy.java:26-46 | null or empty: none, counter unchanged; otherwise the element at the corrected (floor-mod) index of the old counter, and the counter grows by one with 32-bit wrap-around |
| ThreadSafeRoundRobin.ThreadSafeRoundRobinStrategy.Reset | src/main/java/com/testorg/loadbalancer/ThreadSafeRoundRobinStrategy.java:49-52 | the counter returns to 0 |
| ThreadSafeRoundRobin.ThreadSafeRoundRobinStrategy.GetCurrentIndex | src/main/java/com/testorg/loadbalancer/ThreadSafeRoundRobinStrategy.java:57-59 | the reported counter is a 32-bit value |
| RandomSelection.InitialState | src/main/java/com/testorg/loadbalancer/RandomStrategy.java:14-16 | `new Random(seed)` scrambles the seed into a 48-bit state |
| RandomSelection.NextState | src/main/java/com/testorg/loadbalancer/RandomStrategy.java:24 | one generator step stays a 48-bit state |
| RandomSelection.Next31 | src/main/java/com/testorg/loadbalancer/RandomStrategy.java:24 | a draw of 31 bits is below 2^31 |
| RandomSelection.NextInt | src/main/java/com/testorg/loadbalancer/RandomStrategy.java:24 | `nextInt(n)` is in [0, n) and is 0 for n = 1 |
| RandomSelection.RandomStrategy.constructor | src/main/java/com/testorg/loadbalancer/RandomStrategy.java:14-16 | the generator state is fixed by the seed |
| RandomSelection.RandomStrategy.SelectServer | src/main/java/com/testorg/loadbalancer/RandomStrategy.java:19-26 | null or empty: none, no draw; otherwise a member of the list, fixed by the generator state and the list, and the state takes one step; a singleton yields its element |
| RandomSelection.RandomStrategy.Reset | src/main/java/com/testorg/loadbalancer/RandomStrategy.java:29-31 | the generator state is unchanged |
| HealthCheck.IsHealthy | src/main/java/com/testorg/healthcheck/SimpleHealthChecker.java:12-30 | the simple checker reports null as unhealthy and otherwise echoes the health flag, ignoring availability; a probe reports its verdict |
| HealthCheck.HealthAfter | src/main/java/com/testorg/healthcheck/HealthCheckManager.java:114-126 | the flag a cycle leaves is healthy iff the checker answered healthy; a throw leaves it unhealthy |
| HealthCheck.HealthCheckManager.constructor | src/main/java/com/testorg/healthcheck/HealthCheckManager.java:54-64 | a new monitor is stopped and keeps its registry and checker |
| HealthCheck.HealthCheckManager.Start | src/main/java/com/testorg/healthcheck/HealthCheckManager.java:69-81 | afterwards the monitor is running, whether or not it was before |
| HealthCheck.HealthCheckManager.Stop | src/main/java/com/testorg/healthcheck/HealthCheckManager.java:86-100 | afterwards the monitor is stopped, whether or not it was before |
| HealthCheck.HealthCheckManager.IsRunning | src/main/java/com/testorg/healthcheck/HealthCheckManager.java:131-133 | reports the running flag |
| HealthCheck.HealthCheckManager.PerformHealthChecks | src/main/java/com/testorg/healthcheck/HealthCheckManager.java:105-129 | stopped: no flag changes; running: every registered server's health becomes the checker's prior verdict (unhealthy on a throw), whatever its availability; no availability flag changes; with the simple checker the cycle is a fixpoint |
| LoadBalancer.LoadBalancingStrategy.SelectServer | src/main/java/com/testorg/loadbalancer/LoadBalancingStrategy.java:7 | through the interface: none iff the list is null or empty, and then the strategy's state is unchanged; otherwise a member of the list, chosen as the wrapped strategy chooses, with that strategy's new state (cursor advanced, counter incremented, generator stepped) |
| LoadBalancer.LoadBalancingStrategy.Reset | src/main/java/com/testorg/loadbalancer/LoadBalancingStrategy.java:8 | the round-robin cursors return to 0 and the random generator carries on |
| LoadBalancer.L4LoadBalancer.constructor | src/main/java/com/testorg/loadbalancer/L4LoadBalancer.java:50-54 | the balancer keeps the registry, strategy and monitor it is given |
| LoadBalancer.L4LoadBalancer.Default | src/main/java/com/testorg/loadbalancer/L4LoadBalancer.java:66-70 | an empty registry, a fresh round-robin, and a stopped monitor with the simple checker on that same registry |
| LoadBalancer.L4LoadBalancer.AddServer | src/main/java/com/testorg/loadbalancer/L4LoadBalancer.java:73-75 | exactly the registry's `addServer` effect |
| LoadBalancer.L4LoadBalancer.RemoveServer | src/main/java/com/testorg/loadbalancer/L4LoadBalancer.java:78-80 | exactly the registry's `removeServer` effect |
| LoadBalancer.L4LoadBalancer.DistributeRequest | src/main/java/com/testorg/loadbalancer/L4LoadBalancer.java:105-127 | empty registry: no servers configured; servers but none eligible: all servers down, and in both cases the strategy is not consulted and its state is unchanged; otherwise forwarded to an eligible server the strategy picked, which handles it, and the strategy's state takes its step; handled iff some server is eligible |
| LoadBalancer.L4LoadBalancer.SetLoadBalancingStrategy | src/main/java/com/testorg/loadbalancer/L4LoadBalancer.java:130-135 | installs the new strategy and resets it |
| LoadBalancer.L4LoadBalancer.StartHealthChecking | src/main/java/com/testorg/loadbalancer/L4LoadBalancer.java:140-142 | the monitor is running |
| LoadBalancer.L4LoadBalancer.StopHealthChecking | src/main/java/com/testorg/loadbalancer/L4LoadBalancer.java:147-149 | the monitor is stopped |
| LoadBalancer.L4LoadBalancer.IsHealthCheckingEnabled | src/main/java/com/testorg/loadbalancer/L4LoadBalancer.java:154-156 | reports the monitor's running flag |
| LoadBalancer.L4LoadBalancer.Shutdown | src/main/java/com/testorg/loadbalancer/L4LoadBalancer.java:161-163 | health checking is disabled afterwards, however often it is called |
| Scenarios.RoundRobinWrapsAround | src/test/java/com/testorg/loadbalancer/LoadBalancingStrategyTest.java:33-46 | four selections from three servers are S1, S2, S3, S1 |
| Scenarios.ResetRestartsRoundRobin | src/test/java/com/testorg/loadbalancer/LoadBalancingStrategyTest.java:49-62 | after two selections and a reset the next selection is S1 |
| Scenarios.SameSeedSameSelections | src/main/java/com/testorg/loadbalancer/RandomStrategy.java:14-25 | two random strategies with the same seed make the same selections from the same lists |
| Scenarios.SendMany | src/test/java/com/testorg/loadbalancer/L4LoadBalancerTest.java:62-64 | k requests to a fresh round-robin balancer go to the eligible servers cyclically from the first |
| Scenarios.SixRequestsRotate | src/test/java/com/testorg/loadbalancer/L4LoadBalancerTest.java:56-76 | with three eligible servers, six requests go to Server-1, 2, 3, 1, 2, 3 |
| Scenarios.FailoverAlternates | src/test/java/com/testorg/loadbalancer/L4LoadBalancerTest.java:79-103 | with server 2 administratively down, four requests alternate Server-1, Server-3 |
| Scenarios.SkipsIneligible | src/test/java/com/testorg/loadbalancer/L4LoadBalancerTest.java:84-85 | taking a server out of rotation drops it from the eligible list immediately |
| Scenarios.EmptyRegistryRejects | src/test/java/com/testorg/loadbalancer/L4LoadBalancerTest.java:124-131 | a request to an empty balancer is not handled: no servers configured |
| Scenarios.AllServersUnhealthy | src/test/java/com/testorg/healthcheck/HealthCheckIntegrationTest.java:127-145 | with the simple checker running and all three health flags set to unhealthy, a monitoring cycle and then a request: the request is not handled, all servers down |
| Scenarios.FailingProbeTakesAllDown | src/main/java/com/testorg/healthcheck/HealthCheckManager.java:112-127 | with a custom checker that reports every server failed, one running cycle marks every server unhealthy and the next request finds all servers down, although every server is still available |

## Left out

- Scheduling in `HealthCheckManager` is not modelled: the scheduled executor, the five-second fixed delay, the daemon thread and the shutdown grace period. A monitoring cycle is an explicit call to `PerformHealthChecks`, and `Start`/`Stop` only flip the running flag.
- HealthCheck.HealthCheckManager.Start: calling `start` after `stop` sets the flag but would throw `RejectedExecutionException`, because the executor is already shut down. This is not modelled because the executor is not modelled.
- Concurrency is not modelled. That covers the atomicity of `AtomicInteger.getAndIncrement`, the races of the plain round-robin under threads, and stale reads of the flags during `handleRequest`. Every operation is taken one call at a time.
- HealthCheck.HealthChecker: a probe's verdict is a fixed function of the server reference. A checker with state of its own, or one that reads the flags as they change during the cycle, is not modelled.
- RandomSelection.NextInt: omits the rejection loop that `java.util.Random.nextInt` runs when a draw falls in the last incomplete block below 2^31. In that rare case the model returns the first draw's remainder where Java would draw again, so its state also takes one step where Java's takes several. The contract states only that the index is in range.
- RandomSelection.RandomStrategy: the unseeded constructor seeds from the clock and is not modelled. A strategy is always built from an explicit seed.
- RandomSelection.InitialState: the seed is an unbounded integer reduced modulo 2^64, which stands for Java's `long`.
- All `System.out` logging and message text are not modelled. The messages are replaced by `Outcome` and `Response`.
- A null strategy is not modelled. The strategy datatype has no null, so `setLoadBalancingStrategy(null)`, and the null dereference it causes on the next request, cannot be expressed.
- ThreadSafeRoundRobin.ThreadSafeRoundRobinStrategy.SelectServer: picks with the corrected floor-mod index, not Java's truncating `%`. Once the 32-bit counter has wrapped to a negative value, Java computes a negative index and `get` throws `IndexOutOfBoundsException`, which escapes `distributeRequest`. The model returns a server instead. The code as written is `ThreadSafeRoundRobin.WrittenIndex`, and the failing case is shown under "## Findings".
- RoundRobin.RoundRobinStrategy: the cursor is a `nat`, not a 32-bit `int`. It is always below the length of the last list, so it cannot overflow.
- Registry.ServerManager.AllServers: the Java method returns a new `ArrayList`. Here it returns a sequence value, which cannot alias the registry's list, so the copy's independence holds by construction and is not stated.
- The demo applications (`SingleThreadLoadBalancerApp`, `MultithreadedLoadBalancerApp`, `ThreadSafeLoadBalancerApp`) are not modelled. They are thread pools, sleeps and printing around the core.
- `getName`, `isAvailable` and `isHealthy` are field reads of `Server.name`, `available` and `healthy`, so they have no separate members.

## Findings

| source | as written | input that shows it | evidently intended | confidence | as-written member | corrected member |
|---|---|---|---|---|---|---|
| src/main/java/com/testorg/loadbalancer/ThreadSafeRoundRobinStrategy.java:36 | `currentIndex.getAndIncrement() % availableServers.size()` on a 32-bit counter with Java's truncating `%` | 2^31 selections from a fresh strategy leave the counter at -2^31; with three servers the next index is -2 and `get(-2)` throws | an index in `[0, size)` forever, e.g. `Math.floorMod` | not executed | ThreadSafeRoundRobin.WrittenIndexAfterWrap | ThreadSafeRoundRobin.Index |
