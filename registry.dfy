/**
 * The server registry: an insertion-ordered list of distinct servers, compared
 * by reference identity, with the eligible servers as a filtered view.
 */
module Registry {
  import opened Wrappers
  import opened Servers

  /** Every server occurs at most once. */
  ghost predicate Distinct(s: seq<Server>) {
    forall i, j :: 0 <= i < j < |s| ==> s[i] != s[j]
  }

  /** The servers of `s` whose flags are both up, in the order of `s`. */
  function EligibleOf(s: seq<Server>): (r: seq<Server>)
    reads s
    ensures forall i :: 0 <= i < |r| ==> r[i] in s && r[i].Eligible()
    ensures forall i :: 0 <= i < |s| && s[i].Eligible() ==> s[i] in r
    ensures |r| <= |s|
    ensures Distinct(s) ==> Distinct(r)
  {
    if s == [] then []
    else (if s[0].Eligible() then [s[0]] else []) + EligibleOf(s[1..])
  }

  /** Filtering distributes over concatenation, so it keeps the relative order of the servers. */
  lemma {:induction false} EligibleOfAppend(a: seq<Server>, b: seq<Server>)
    ensures EligibleOf(a + b) == EligibleOf(a) + EligibleOf(b)
  {
    if a == [] {
      assert a + b == b;
    } else {
      assert (a + b)[1..] == a[1..] + b;
      EligibleOfAppend(a[1..], b);
    }
  }

  /** When every server is eligible, the filter is the whole list. */
  lemma {:induction false} EligibleOfAll(s: seq<Server>)
    requires forall x :: x in s ==> x.Eligible()
    ensures EligibleOf(s) == s
  {
    if s != [] {
      EligibleOfAll(s[1..]);
    }
  }

  /** Index of the first occurrence of `x` in `s`. */
  function IndexOf(s: seq<Server>, x: Server): (i: nat)
    requires x in s
    ensures i < |s| && s[i] == x && x !in s[..i]
  {
    if s[0] == x then 0
    else
      var k := IndexOf(s[1..], x);
      assert s[..k + 1] == [s[0]] + s[1..][..k];
      k + 1
  }

  /** `s` without its first occurrence of `x`, as `List.remove(Object)` leaves it. */
  function RemoveFirst(s: seq<Server>, x: Server): (r: seq<Server>)
    ensures x !in s ==> r == s
    ensures x in s ==> |r| == |s| - 1 && multiset(r) == multiset(s) - multiset{x}
    ensures Distinct(s) ==> Distinct(r) && x !in r
  {
    if x !in s then s
    else
      var i := IndexOf(s, x);
      RemoveAt(s, i);
      s[..i] + s[i + 1..]
  }

  lemma RemoveAt(s: seq<Server>, i: nat)
    requires i < |s|
    ensures multiset(s[..i] + s[i + 1..]) == multiset(s) - multiset{s[i]}
    ensures Distinct(s) ==> Distinct(s[..i] + s[i + 1..]) && s[i] !in s[..i] + s[i + 1..]
  {
    var r := s[..i] + s[i + 1..];
    assert s == s[..i] + [s[i]] + s[i + 1..];
    assert forall k :: 0 <= k < |r| ==> r[k] == s[if k < i then k else k + 1];
  }

  class ServerManager {
    var servers: seq<Server>

    ghost predicate Valid()
      reads this
    {
      Distinct(servers)
    }

    constructor ()
      ensures Valid() && servers == []
    {
      servers := [];
    }

    /** Appends a non-null server that is not yet registered; otherwise does nothing. */
    method AddServer(server: Server?)
      requires Valid()
      modifies this
      ensures Valid()
      ensures server == null || server in old(servers) ==> servers == old(servers)
      ensures server != null && server !in old(servers) ==> servers == old(servers) + [server]
    {
      if server != null && server !in servers {
        servers := servers + [server];
      }
    }

    /** Removes a registered server, keeping the others in order; a non-member is ignored. */
    method RemoveServer(server: Server?)
      requires Valid()
      modifies this
      ensures Valid()
      ensures server == null ==> servers == old(servers)
      ensures server != null ==> servers == RemoveFirst(old(servers), server)
      ensures forall x :: x in servers <==> x in old(servers) && x != server
    {
      if server != null {
        servers := RemoveFirst(servers, server);
      }
    }

    /** A snapshot of the registry, in insertion order (a value: later changes to it do not reach the registry). */
    function AllServers(): (r: seq<Server>)
      reads this
      ensures Valid() ==> Distinct(r)
    {
      servers
    }

    /** The eligible servers, read from the flags as they are now, in registry order. */
    function AvailableServers(): (r: seq<Server>)
      reads this, servers
      ensures forall i :: 0 <= i < |r| ==> r[i] in servers && r[i].available && r[i].healthy
      ensures forall i :: 0 <= i < |servers| && servers[i].available && servers[i].healthy ==> servers[i] in r
      ensures |r| <= |servers|
      ensures Valid() ==> Distinct(r)
    {
      EligibleOf(servers)
    }

    /** Whether some registered server is eligible; agrees with `AvailableServers`. */
    function HasAvailableServers(): (b: bool)
      reads this, servers
      ensures b <==> AvailableServers() != []
    {
      var b := exists i :: 0 <= i < |servers| && servers[i].Eligible();
      var r := AvailableServers();
      assert r != [] ==> b by {
        if r != [] {
          var i := IndexOf(servers, r[0]);
          assert servers[i].Eligible();
        }
      }
      b
    }
  }
}
