/** Static routing (class TopoGraph in Network.hpp). */
module Topology {
  import opened Wrappers
  import opened Finite

  /** An outgoing port: the link behind it and the node at its end. */
  datatype Port = Port(link: nat, to: nat)

  /** `routing` maps a destination to the index of a port. */
  datatype Node = Node(ports: seq<Port>, routing: map<nat, nat>)

  type Topology = seq<Node>

  /** Links are numbered as they are created, so no two ports share a number. */
  ghost predicate LinksUnique(t: Topology)
  {
    forall a, b, i, j {:trigger t[a].ports[i], t[b].ports[j]} ::
      (&& 0 <= a < |t| && 0 <= b < |t| && 0 <= i < |t[a].ports| && 0 <= j < |t[b].ports|
       && t[a].ports[i].link == t[b].ports[j].link)
      ==> a == b && i == j
  }

  /** The port taken at a node for a destination; None where the program aborts. */
  function Hop(t: Topology, pos: nat, dest: nat): Option<Port> {
    if pos >= |t| || |t[pos].ports| == 0 then None
    else if |t[pos].ports| == 1 then Some(t[pos].ports[0])
    else if dest in t[pos].routing && t[pos].routing[dest] < |t[pos].ports|
    then Some(t[pos].ports[t[pos].routing[dest]])
    else None
  }

  /** Following the hops from pos arrives at dest after exactly k of them. */
  ghost predicate Arrives(t: Topology, pos: nat, dest: nat, k: nat)
    decreases k
  {
    if pos == dest then k == 0
    else k > 0 && Hop(t, pos, dest).Some? && Arrives(t, Hop(t, pos, dest).value.to, dest, k - 1)
  }

  ghost predicate Routable(t: Topology, src: nat, dest: nat)
  {
    exists k: nat :: Arrives(t, src, dest, k)
  }

  ghost function Distance(t: Topology, src: nat, dest: nat): (k: nat)
    requires Routable(t, src, dest)
    ensures Arrives(t, src, dest, k)
  {
    var k: nat :| Arrives(t, src, dest, k); k
  }

  lemma {:induction false} DistanceUnique(t: Topology, pos: nat, dest: nat, j: nat, k: nat)
    requires Arrives(t, pos, dest, j) && Arrives(t, pos, dest, k)
    ensures j == k
    decreases j
  {
    if pos != dest {
      DistanceUnique(t, Hop(t, pos, dest).value.to, dest, j - 1, k - 1);
    }
  }

  /** The links of the route. */
  ghost function Route(t: Topology, src: nat, dest: nat, k: nat): (r: seq<nat>)
    requires Arrives(t, src, dest, k)
    ensures |r| == k
    decreases k
  {
    if src == dest then []
    else
      var hop := Hop(t, src, dest).value;
      [hop.link] + Route(t, hop.to, dest, k - 1)
  }

  /** The node at which link i of the route is taken. */
  ghost function Stop(t: Topology, src: nat, dest: nat, k: nat, i: nat): (pos: nat)
    requires Arrives(t, src, dest, k) && i < k
    ensures Arrives(t, pos, dest, k - i) && pos != dest
    ensures Hop(t, pos, dest).Some? && Hop(t, pos, dest).value.link == Route(t, src, dest, k)[i]
    decreases k
  {
    if i == 0 then src else Stop(t, Hop(t, src, dest).value.to, dest, k - 1, i - 1)
  }

  /** A route that arrives takes no link twice. */
  lemma {:induction false} RouteNoRepeat(t: Topology, src: nat, dest: nat, k: nat)
    requires LinksUnique(t) && Arrives(t, src, dest, k)
    ensures NoRepeat(Route(t, src, dest, k))
  {
    var r := Route(t, src, dest, k);
    forall i, j | 0 <= i < j < |r| ensures r[i] != r[j] {
      var a, b := Stop(t, src, dest, k, i), Stop(t, src, dest, k, j);
      if r[i] == r[j] {
        assert a == b;
        DistanceUnique(t, a, dest, k - i, k - j);
      }
    }
  }

  /** Port q of a node is its only one, or the one its table names for the destination. */
  predicate Chosen(t: Topology, pos: nat, dest: nat, q: nat) {
    pos < |t| && q < |t[pos].ports| && (|t[pos].ports| == 1 || (dest in t[pos].routing && t[pos].routing[dest] == q))
  }

  /** The chosen port of a node leads over this link to that node. */
  ghost predicate Leads(t: Topology, pos: nat, dest: nat, link: nat, to: nat) {
    exists q: nat :: Chosen(t, pos, dest, q) && t[pos].ports[q] == Port(link, to)
  }

  /** The nodes on a route, both ends included, and between neighbours the chosen port. */
  lemma {:induction false} RouteFollowsTables(t: Topology, src: nat, dest: nat, k: nat) returns (nodes: seq<nat>)
    requires Arrives(t, src, dest, k)
    ensures |nodes| == k + 1 && nodes[0] == src && nodes[k] == dest
    ensures forall i {:trigger nodes[i]} :: 0 <= i < k ==> Leads(t, nodes[i], dest, Route(t, src, dest, k)[i], nodes[i + 1])
    decreases k
  {
    if src == dest {
      nodes := [src];
    } else {
      var hop := Hop(t, src, dest).value;
      var rest := RouteFollowsTables(t, hop.to, dest, k - 1);
      nodes := [src] + rest;
      var r := Route(t, src, dest, k);
      forall i | 0 <= i < k
        ensures Leads(t, nodes[i], dest, r[i], nodes[i + 1])
      {
        if i == 0 {
          var q: nat := if |t[src].ports| == 1 then 0 else t[src].routing[dest];
          assert Chosen(t, src, dest, q) && t[src].ports[q] == hop;
        } else {
          assert nodes[i] == rest[i - 1] && nodes[i + 1] == rest[i] && r[i] == Route(t, hop.to, dest, k - 1)[i - 1];
        }
      }
    }
  }

  ghost function RouteOf(t: Topology, src: nat, dest: nat): seq<nat>
    requires Routable(t, src, dest)
  {
    Route(t, src, dest, Distance(t, src, dest))
  }

  /** Where the loop of find_route stands after k turns at most; None once it has aborted. */
  function Walk(t: Topology, src: nat, dest: nat, k: nat): Option<nat> {
    if k == 0 then Some(src)
    else match Walk(t, src, dest, k - 1)
      case None => None
      case Some(pos) =>
        if pos == dest then Some(pos)
        else match Hop(t, pos, dest)
          case None => None
          case Some(port) => Some(port.to)
  }

  lemma {:induction false} WalkArrives(t: Topology, src: nat, dest: nat, k: nat, n: nat)
    requires Arrives(t, src, dest, k)
    ensures Walk(t, src, dest, k) == Some(dest)
    ensures n >= k ==> Walk(t, src, dest, n) == Some(dest)
    decreases n
  {
    WalkAt(t, src, dest, k, k);
    if n > k {
      WalkArrives(t, src, dest, k, n - 1);
    }
  }

  /** After i turns the rest of the route is still to be walked. */
  lemma {:induction false} WalkAt(t: Topology, src: nat, dest: nat, k: nat, i: nat)
    requires Arrives(t, src, dest, k) && i <= k
    ensures Walk(t, src, dest, i).Some? && Arrives(t, Walk(t, src, dest, i).value, dest, k - i)
    ensures i < k ==> Walk(t, src, dest, i).value < |t| && Walk(t, src, dest, i).value != dest
  {
    if i > 0 {
      WalkAt(t, src, dest, k, i - 1);
    }
  }

  lemma {:induction false} ArrivesIfWalk(t: Topology, src: nat, dest: nat, n: nat)
    requires Walk(t, src, dest, n) == Some(dest)
    ensures Routable(t, src, dest)
    decreases n
  {
    if n == 0 {
      assert Arrives(t, src, dest, 0);
    } else if Walk(t, src, dest, n - 1) == Some(dest) {
      ArrivesIfWalk(t, src, dest, n - 1);
    } else {
      ArrivesFrom(t, src, dest, n, 0);
    }
  }

  /** Walking on to the first time at the destination. */
  lemma {:induction false} ArrivesFrom(t: Topology, src: nat, dest: nat, n: nat, i: nat)
    requires i <= n && Walk(t, src, dest, n) == Some(dest) && (n > 0 ==> Walk(t, src, dest, n - 1) != Some(dest))
    ensures Walk(t, src, dest, i).Some? && Arrives(t, Walk(t, src, dest, i).value, dest, n - i)
    decreases n - i
  {
    if i < n {
      ArrivesFrom(t, src, dest, n, i + 1);
      if Walk(t, src, dest, i) == Some(dest) {
        StaysThere(t, src, dest, i, n - 1);
      }
    }
  }

  lemma {:induction false} StaysThere(t: Topology, src: nat, dest: nat, i: nat, n: nat)
    requires i <= n && Walk(t, src, dest, i) == Some(dest)
    ensures Walk(t, src, dest, n) == Some(dest)
    decreases n
  {
    if i < n {
      StaysThere(t, src, dest, i, n - 1);
    }
  }

  /** The loop comes to an end if and only if the destination is routable, and then within as
      many turns as there are nodes; otherwise it aborts or goes on for ever. */
  lemma WalkEndsIff(t: Topology, src: nat, dest: nat)
    ensures (exists k :: Walk(t, src, dest, k) == Some(dest)) <==> Routable(t, src, dest)
    ensures Routable(t, src, dest) <==> Walk(t, src, dest, |t|) == Some(dest)
  {
    if Routable(t, src, dest) {
      var k := Distance(t, src, dest);
      DistanceBounded(t, src, dest, k);
      WalkArrives(t, src, dest, k, |t|);
    } else {
      forall k: nat ensures Walk(t, src, dest, k) != Some(dest) {
        if Walk(t, src, dest, k) == Some(dest) {
          ArrivesIfWalk(t, src, dest, k);
        }
      }
    }
  }

  /** No node is visited twice on the way. */
  lemma DistanceBounded(t: Topology, src: nat, dest: nat, k: nat)
    requires Arrives(t, src, dest, k)
    ensures k <= |t|
  {
    var stops := seq(k, i requires 0 <= i < k => Stop(t, src, dest, k, i));
    forall i, j | 0 <= i < j < k ensures stops[i] != stops[j] {
      if stops[i] == stops[j] {
        DistanceUnique(t, stops[i], dest, k - i, k - j);
      }
    }
    NoRepeatBound(stops, |t|);
  }

  /** The loop does not go on for ever. */
  ghost predicate Halts(t: Topology, src: nat, dest: nat) {
    exists k :: Over(t, src, dest, k)
  }

  ghost predicate Over(t: Topology, src: nat, dest: nat, k: nat) {
    Walk(t, src, dest, k) == None || Walk(t, src, dest, k) == Some(dest)
  }

  lemma RoutableHalts(t: Topology, src: nat, dest: nat)
    requires Routable(t, src, dest)
    ensures Halts(t, src, dest)
  {
    WalkEndsIff(t, src, dest);
    assert Over(t, src, dest, |t|);
  }

  /** find_route: the links of the route, or None where the walk aborts because there is no port
      to take. */
  method FindRoute(t: Topology, src: nat, dest: nat) returns (r: Option<seq<nat>>)
    requires LinksUnique(t) && Halts(t, src, dest)
    ensures r == if Routable(t, src, dest) then Some(RouteOf(t, src, dest)) else None
    ensures r.Some? ==> NoRepeat(r.value)
  {
    var path := [];
    var pos := src;
    ghost var end: nat :| Over(t, src, dest, end);
    ghost var turns := 0;
    ghost var routable, k := Routable(t, src, dest), 0;
    if routable {
      k := Distance(t, src, dest);
      RouteNoRepeat(t, src, dest, k);
    }
    while pos != dest
      invariant turns <= end && Walk(t, src, dest, turns) == Some(pos)
      invariant routable ==> Arrives(t, pos, dest, k) && path + Route(t, pos, dest, k) == RouteOf(t, src, dest)
      decreases end - turns
    {
      var hop := Hop(t, pos, dest);
      if hop.None? {
        return None;
      }
      if routable {
        assert path + Route(t, pos, dest, k) == path + [hop.value.link] + Route(t, hop.value.to, dest, k - 1);
        k := k - 1;
      }
      path := path + [hop.value.link];
      pos := hop.value.to;
      turns := turns + 1;
    }
    WalkEndsIff(t, src, dest);
    assert path + Route(t, dest, dest, 0) == path;
    r := Some(path);
  }
}
