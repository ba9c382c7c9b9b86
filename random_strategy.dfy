/**
 * Random selection through a seeded `java.util.Random`. The generator is
 * its 48-bit linear congruential state: a seed fixes every later draw, and
 * each draw is an index in `[0, n)`.
 */
module RandomSelection {
  import opened Wrappers
  import opened Servers

  const Multiplier: int := 0x5_DEEC_E66D
  const Addend: int := 0xB
  const StateModulus: int := 0x1_0000_0000_0000
  const Bits31: int := 0x8000_0000

  /** `new Random(seed)`: the seed XOR the multiplier, kept to 48 bits. */
  function InitialState(seed: int): (s: nat)
    ensures s < StateModulus
  {
    var bits := (seed % 0x1_0000_0000_0000_0000) as bv64;
    ((bits ^ 0x5_DEEC_E66D) as int) % StateModulus
  }

  /** One step of the generator: `(state * multiplier + addend) mod 2^48`. */
  function NextState(state: nat): (t: nat)
    ensures t < StateModulus
  {
    (state * Multiplier + Addend) % StateModulus
  }

  /** `next(31)`: the top 31 bits of the new state. */
  function Next31(state: nat): (x: nat)
    ensures x < Bits31
  {
    NextState(state) / 0x2_0000
  }

  predicate IsPowerOfTwo(n: nat) {
    n == 1 || (n > 1 && n % 2 == 0 && IsPowerOfTwo(n / 2))
  }

  lemma ScaledBelow(bound: nat, x: nat)
    requires bound > 0 && x < Bits31
    ensures bound * x / Bits31 < bound
  {
    assert bound * x < bound * Bits31;
  }

  /**
   * `nextInt(bound)`: for a power of two the high bits of the draw scaled to
   * the bound, otherwise the draw's remainder. Always in range.
   */
  function NextInt(state: nat, bound: nat): (r: nat)
    requires bound > 0
    ensures r < bound
    ensures bound == 1 ==> r == 0
  {
    var x := Next31(state);
    if IsPowerOfTwo(bound) then
      ScaledBelow(bound, x);
      bound * x / Bits31
    else
      x % bound
  }

  class RandomStrategy {
    var state: nat

    /** `new RandomStrategy(seed)`; the unseeded constructor draws its seed from the clock. */
    constructor (seed: int)
      ensures state == InitialState(seed)
    {
      state := InitialState(seed);
    }

    /**
     * A null or empty list yields null without drawing; otherwise one draw
     * picks an element of the list, and the result depends only on the
     * generator's state and the list.
     */
    method SelectServer(availableServers: Option<seq<Server>>) returns (r: Option<Server>)
      modifies this
      ensures availableServers == None || availableServers.value == [] ==>
                r == None && unchanged(this)
      ensures availableServers.Some? && availableServers.value != [] ==>
                r.Some? && r.value in availableServers.value &&
                r == Some(availableServers.value[NextInt(old(state), |availableServers.value|)]) &&
                state == NextState(old(state))
      ensures availableServers.Some? && |availableServers.value| == 1 ==> r == Some(availableServers.value[0])
    {
      if availableServers == None || availableServers.value == [] {
        return None;
      }
      var servers := availableServers.value;
      var randomIndex := NextInt(state, |servers|);
      state := NextState(state);
      r := Some(servers[randomIndex]);
    }

    /** Nothing to reset: the generator carries on. */
    method Reset()
      ensures state == old(state)
    {
    }
  }
}
