/**
 * Round-robin selection with a counter that only ever grows (Java's
 * `AtomicInteger.getAndIncrement`, here taken one call at a time) and is
 * reduced modulo the current list length only when a server is picked.
 * The counter is a 32-bit Java `int`, so it wraps after 2^31 increments.
 */
module ThreadSafeRoundRobin {
  import opened Wrappers
  import opened Servers
  import JavaInt
  import RoundRobin

  /**
   * The index as written, `counter % size` with Java's truncating `%`: in
   * range for a non-negative counter, zero or negative for a negative one.
   */
  function WrittenIndex(counter: int, n: nat): (i: int)
    requires n > 0
    ensures counter >= 0 ==> 0 <= i < n
    ensures counter < 0 ==> 0 < i + n && i <= 0
  {
    JavaInt.Rem(counter, n)
  }

  /**
   * The index the strategy uses: the floor remainder (`Math.floorMod`, which
   * is Dafny's `%` for a positive divisor). Always in range, and equal to the
   * written index as long as the counter has not wrapped.
   */
  function Index(counter: int, n: nat): (i: nat)
    requires n > 0
    ensures i < n
    ensures counter >= 0 ==> i == WrittenIndex(counter, n)
  {
    counter % n
  }

  /** The counter after `k` selections from `counter`, each one a 32-bit increment. */
  function CounterAfter(counter: int, k: nat): (c: int)
    decreases k
  {
    if k == 0 then counter else JavaInt.Wrap(CounterAfter(counter, k - 1) + 1)
  }

  /** Until it reaches `MaxInt` the counter simply counts the selections. */
  lemma {:induction false} CounterCounts(counter: int, k: nat)
    requires JavaInt.InRange(counter) && counter + k <= JavaInt.MaxInt
    ensures CounterAfter(counter, k) == counter + k
    decreases k
  {
    if k > 0 {
      CounterCounts(counter, k - 1);
    }
  }

  /**
   * The as-written index leaves the list: the 2^31-th selection from a fresh
   * counter leaves it at `MinInt`, and with three servers the next index is -2.
   */
  lemma WrittenIndexAfterWrap()
    ensures CounterAfter(0, JavaInt.MaxInt + 1) == JavaInt.MinInt
    ensures WrittenIndex(CounterAfter(0, JavaInt.MaxInt + 1), 3) == -2
  {
    CounterCounts(0, JavaInt.MaxInt);
  }

  /** The selections made by `k` consecutive calls on the same non-empty list. */
  function Run<T>(counter: int, l: seq<T>, k: nat): (picks: seq<T>)
    requires l != []
    decreases k
  {
    if k == 0 then [] else [l[Index(counter, |l|)]] + Run(JavaInt.Wrap(counter + 1), l, k - 1)
  }

  /** Before the counter wraps, the selections are the list cycled with period `|l|` from the counter's position. */
  lemma {:induction false} RunCycles<T>(counter: int, l: seq<T>, k: nat)
    requires l != []
    requires 0 <= counter && counter + k <= JavaInt.MaxInt + 1
    ensures |Run(counter, l, k)| == k
    ensures forall j :: 0 <= j < k ==> Run(counter, l, k)[j] == l[(counter + j) % |l|]
    decreases k
  {
    if k > 1 {
      RunCycles(counter + 1, l, k - 1);
    }
  }

  /** Taken one call at a time, this strategy picks exactly what the plain round-robin picks from a fresh start. */
  lemma AgreesWithRoundRobin<T>(l: seq<T>, k: nat)
    requires l != [] && k <= JavaInt.MaxInt + 1
    ensures Run(0, l, k) == RoundRobin.Run(0, l, k)
  {
    RunCycles(0, l, k);
    RoundRobin.RunCycles(0, l, k);
  }

  class ThreadSafeRoundRobinStrategy {
    var currentIndex: int

    ghost predicate Valid()
      reads this
    {
      JavaInt.InRange(currentIndex)
    }

    constructor ()
      ensures Valid() && currentIndex == 0
    {
      currentIndex := 0;
    }

    /**
     * A null or empty list yields null and leaves the counter alone; otherwise
     * the server at the counter's index, and the counter grows by one.
     */
    method SelectServer(availableServers: Option<seq<Server>>) returns (r: Option<Server>)
      requires Valid()
      modifies this
      ensures Valid()
      ensures availableServers == None || availableServers.value == [] ==>
                r == None && unchanged(this)
      ensures availableServers.Some? && availableServers.value != [] ==>
                r == Some(availableServers.value[Index(old(currentIndex), |availableServers.value|)]) &&
                currentIndex == JavaInt.Wrap(old(currentIndex) + 1)
      ensures availableServers.Some? && availableServers.value != [] && old(currentIndex) < JavaInt.MaxInt ==>
                currentIndex == old(currentIndex) + 1
    {
      if availableServers == None || availableServers.value == [] {
        return None;
      }
      var servers := availableServers.value;
      var counter := currentIndex;
      currentIndex := JavaInt.Wrap(currentIndex + 1);
      var indexToUse := counter % |servers|;
      r := Some(servers[indexToUse]);
    }

    method Reset()
      modifies this
      ensures Valid() && currentIndex == 0
    {
      currentIndex := 0;
    }

    /** The raw counter, not reduced modulo any list length. */
    function GetCurrentIndex(): (c: int)
      requires Valid()
      reads this
      ensures JavaInt.InRange(c)
    {
      currentIndex
    }
  }
}
