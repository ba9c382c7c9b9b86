/**
 * Round-robin selection with a cursor that is kept below the length of the
 * list it last picked from, and read modulo the length of the current list.
 */
module RoundRobin {
  import opened Wrappers
  import opened Servers
  import opened ModArith

  /** The element the cursor designates in the list it is given: index `cursor mod |l|`. */
  function Pick<T>(cursor: nat, l: seq<T>): (r: T)
    requires l != []
    ensures r in l
    ensures |l| == 1 ==> r == l[0]
    ensures cursor < |l| ==> r == l[cursor]
  {
    l[cursor % |l|]
  }

  /** The cursor after a selection from a list of length `n`: it wraps to 0 after the last position. */
  function Advance(cursor: nat, n: nat): (c: nat)
    requires n > 0
    ensures c < n
    ensures cursor + 1 < n ==> c == cursor + 1
    ensures cursor + 1 == n ==> c == 0
  {
    (cursor + 1) % n
  }

  /** The selections made by `k` consecutive calls on the same non-empty list, starting from `cursor`. */
  function Run<T>(cursor: nat, l: seq<T>, k: nat): (picks: seq<T>)
    requires l != []
    decreases k
  {
    if k == 0 then [] else [Pick(cursor, l)] + Run(Advance(cursor, |l|), l, k - 1)
  }

  /** The cursor after `k` consecutive calls on lists of length `n`. */
  function CursorAfter(cursor: nat, n: nat, k: nat): (c: nat)
    requires n > 0
    decreases k
  {
    if k == 0 then cursor else CursorAfter(Advance(cursor, n), n, k - 1)
  }

  /** On a stable list the selections are the list cycled from the cursor's position, with period `|l|`. */
  lemma {:induction false} RunCycles<T>(cursor: nat, l: seq<T>, k: nat)
    requires l != []
    ensures |Run(cursor, l, k)| == k
    ensures forall j :: 0 <= j < k ==> Run(cursor, l, k)[j] == l[(cursor + j) % |l|]
    decreases k
  {
    if k > 0 {
      var n, c := |l|, Advance(cursor, |l|);
      RunCycles(c, l, k - 1);
      forall j | 1 <= j < k
        ensures Run(cursor, l, k)[j] == l[(cursor + j) % n]
      {
        ModAddLeft(cursor + 1, j - 1, n);
      }
    }
  }

  /** After `k` calls the cursor has advanced by `k` positions, modulo `n`. */
  lemma {:induction false} CursorAfterCycles(cursor: nat, n: nat, k: nat)
    requires n > 0
    requires k > 0 || cursor < n
    ensures CursorAfter(cursor, n, k) == (cursor + k) % n
    decreases k
  {
    if k > 0 {
      CursorAfterCycles(Advance(cursor, n), n, k - 1);
      ModAddLeft(cursor + 1, k - 1, n);
    }
  }

  /** From a fresh or reset cursor, `|l|` calls return `l` in order and the next call wraps to its head. */
  lemma InOrderThenWrap<T>(l: seq<T>)
    requires l != []
    ensures Run(0, l, |l| + 1) == l + [l[0]]
  {
    var n := |l|;
    DivModUnique(n, n, 1, 0);
    var picks := Run(0, l, n + 1);
    forall j | 0 <= j <= n
      ensures |picks| == n + 1 && picks[j] == (l + [l[0]])[j]
    {
      RunFromZeroAt(l, n + 1, j);
      if j < n {
        DivModUnique(j, n, 0, j);
      }
    }
  }

  /** A full round of `n` selections brings a fresh cursor back to 0. */
  lemma FullRoundResetsCursor(n: nat)
    requires n > 0
    ensures CursorAfter(0, n, n) == 0
  {
    CursorAfterCycles(0, n, n);
    DivModUnique(n, n, 1, 0);
  }

  lemma RunFromZeroAt<T>(l: seq<T>, k: nat, j: nat)
    requires l != [] && j < k
    ensures |Run(0, l, k)| == k
    ensures Run(0, l, k)[j] == l[j % |l|]
  {
    RunCycles(0, l, k);
  }

  class RoundRobinStrategy {
    /** Java keeps this `int` below the length of a list, so it never overflows. */
    var currentIndex: nat

    constructor ()
      ensures currentIndex == 0
    {
      currentIndex := 0;
    }

    /** A null or empty list yields null; otherwise the cursor's pick, and the cursor advances. */
    method SelectServer(availableServers: Option<seq<Server>>) returns (r: Option<Server>)
      modifies this
      ensures availableServers == None || availableServers.value == [] ==>
                r == None && unchanged(this)
      ensures availableServers.Some? && availableServers.value != [] ==>
                r == Some(Pick(old(currentIndex), availableServers.value)) &&
                currentIndex == Advance(old(currentIndex), |availableServers.value|)
    {
      if availableServers == None || availableServers.value == [] {
        return None;
      }
      var servers := availableServers.value;
      r := Some(servers[currentIndex % |servers|]);
      currentIndex := (currentIndex + 1) % |servers|;
    }

    method Reset()
      modifies this
      ensures currentIndex == 0
    {
      currentIndex := 0;
    }
  }
}
