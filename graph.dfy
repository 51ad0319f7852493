/** The place graph: one node per candidate place, radius-based proximity
    edges, and the category filter ranked by distance to the user.

    The great-circle distance is not computed here: every operation takes
    the distance function `dist` as a parameter. */
module Graph {
  import opened Seqs
  import opened Sorting

  datatype Coord = Coord(lat: real, lng: real)

  /** Distance in metres between two coordinates. */
  type Distance = (Coord, Coord) -> real

  /** One place. Only `edges` is ever updated after construction. */
  class Node {
    const id: int
    const name: string
    const lat: real
    const lng: real
    const category: string
    const placeId: string
    const address: string
    var edges: seq<Node>

    constructor (id: int, name: string, lat: real, lng: real, category: string, placeId: string, address: string)
      ensures this.id == id && this.name == name && this.lat == lat && this.lng == lng
      ensures this.category == category && this.placeId == placeId && this.address == address
      ensures edges == []
    {
      this.id := id;
      this.name := name;
      this.lat := lat;
      this.lng := lng;
      this.category := category;
      this.placeId := placeId;
      this.address := address;
      edges := [];
    }

    function Pos(): Coord {
      Coord(lat, lng)
    }
  }

  ghost predicate Distinct(nodes: seq<Node>) {
    forall a, b :: 0 <= a < b < |nodes| ==> nodes[a] != nodes[b]
  }

  /** The test of the pair loop: node `j` is another node than `i`, within
      `maxDistance` of it. */
  predicate Linked(nodes: seq<Node>, i: nat, j: nat, maxDistance: real, dist: Distance)
    requires i < |nodes| && j < |nodes|
  {
    j != i && dist(nodes[i].Pos(), nodes[j].Pos()) <= maxDistance
  }

  /** The indices `j < k` that the pair loop links from node `i`: `j != i`
      and node `j` within `maxDistance` of node `i`, in increasing order. */
  function NeighbourIndices(nodes: seq<Node>, i: nat, k: nat, maxDistance: real, dist: Distance): (r: seq<nat>)
    requires i < |nodes| && k <= |nodes|
    ensures forall t :: 0 <= t < |r| ==>
      r[t] < k && r[t] != i && dist(nodes[i].Pos(), nodes[r[t]].Pos()) <= maxDistance
    ensures forall t, u :: 0 <= t < u < |r| ==> r[t] < r[u]
  {
    if k == 0 then []
    else
      var r := NeighbourIndices(nodes, i, k - 1, maxDistance, dist);
      if Linked(nodes, i, k - 1, maxDistance, dist) then r + [k - 1] else r
  }

  /** Every position below `k` that passes the test is linked. */
  lemma {:induction false} NeighbourIndicesComplete(nodes: seq<Node>, i: nat, k: nat, j: nat, maxDistance: real, dist: Distance)
    requires i < |nodes| && j < k <= |nodes|
    requires j != i && dist(nodes[i].Pos(), nodes[j].Pos()) <= maxDistance
    ensures j in NeighbourIndices(nodes, i, k, maxDistance, dist)
  {
    if j < k - 1 {
      NeighbourIndicesComplete(nodes, i, k - 1, j, maxDistance, dist);
    }
  }

  /** The part of node `i`'s edge list that the pair loop has built once
      it has looked at positions below `k`. */
  function EdgesBelow(nodes: seq<Node>, i: nat, k: nat, maxDistance: real, dist: Distance): seq<Node>
    requires i < |nodes| && k <= |nodes|
  {
    if k == 0 then []
    else if Linked(nodes, i, k - 1, maxDistance, dist)
    then EdgesBelow(nodes, i, k - 1, maxDistance, dist) + [nodes[k - 1]]
    else EdgesBelow(nodes, i, k - 1, maxDistance, dist)
  }

  /** The edge list the pair loop builds for node `i`. */
  function Edges(nodes: seq<Node>, i: nat, maxDistance: real, dist: Distance): seq<Node>
    requires i < |nodes|
  {
    EdgesBelow(nodes, i, |nodes|, maxDistance, dist)
  }

  /** The edges built so far are the nodes at the linked indices, in index
      order. */
  lemma {:induction false} EdgesBelowPicks(nodes: seq<Node>, i: nat, k: nat, maxDistance: real, dist: Distance)
    requires i < |nodes| && k <= |nodes|
    ensures EdgesBelow(nodes, i, k, maxDistance, dist) == Pick(nodes, NeighbourIndices(nodes, i, k, maxDistance, dist))
  {
    if k > 0 {
      EdgesBelowPicks(nodes, i, k - 1, maxDistance, dist);
      var before := NeighbourIndices(nodes, i, k - 1, maxDistance, dist);
      if Linked(nodes, i, k - 1, maxDistance, dist) {
        calc {
          EdgesBelow(nodes, i, k, maxDistance, dist);
          EdgesBelow(nodes, i, k - 1, maxDistance, dist) + [nodes[k - 1]];
          Pick(nodes, before) + [nodes[k - 1]];
          { PickAppend(nodes, before, k - 1); }
          Pick(nodes, before + [k - 1]);
          Pick(nodes, NeighbourIndices(nodes, i, k, maxDistance, dist));
        }
      } else {
        assert NeighbourIndices(nodes, i, k, maxDistance, dist) == before;
      }
    }
  }

  /** Node `j` is among node `i`'s edges exactly when it is another node
      within the radius; in particular no node is linked to itself. */
  lemma EdgeMembership(nodes: seq<Node>, i: nat, j: nat, maxDistance: real, dist: Distance)
    requires Distinct(nodes)
    requires i < |nodes| && j < |nodes|
    ensures nodes[j] in Edges(nodes, i, maxDistance, dist) <==>
      j != i && dist(nodes[i].Pos(), nodes[j].Pos()) <= maxDistance
  {
    var idx := NeighbourIndices(nodes, i, |nodes|, maxDistance, dist);
    var e := Edges(nodes, i, maxDistance, dist);
    EdgesBelowPicks(nodes, i, |nodes|, maxDistance, dist);
    if nodes[j] in e {
      var t :| 0 <= t < |e| && e[t] == nodes[j];
      assert nodes[idx[t]] == nodes[j];
      assert idx[t] == j;
    }
    if j != i && dist(nodes[i].Pos(), nodes[j].Pos()) <= maxDistance {
      NeighbourIndicesComplete(nodes, i, |nodes|, j, maxDistance, dist);
      var t :| 0 <= t < |idx| && idx[t] == j;
      assert e[t] == nodes[j];
    }
  }

  ghost predicate Symmetric(dist: Distance) {
    forall a, b :: dist(a, b) == dist(b, a)
  }

  /** With a symmetric distance the adjacency is symmetric, although each
      direction is computed on its own. */
  lemma EdgesSymmetric(nodes: seq<Node>, i: nat, j: nat, maxDistance: real, dist: Distance)
    requires Distinct(nodes) && Symmetric(dist)
    requires i < |nodes| && j < |nodes|
    ensures nodes[j] in Edges(nodes, i, maxDistance, dist) <==> nodes[i] in Edges(nodes, j, maxDistance, dist)
  {
    EdgeMembership(nodes, i, j, maxDistance, dist);
    EdgeMembership(nodes, j, i, maxDistance, dist);
  }

  /** The nodes of the given category, in graph order. */
  function OfCategory(nodes: seq<Node>, category: string): seq<Node> {
    Filter(nodes, (n: Node) => n.category == category)
  }

  /** The sort key of the ranking: distance from a node to the user. */
  function DistanceFrom(origin: Coord, dist: Distance): Node -> real {
    (n: Node) => dist(n.Pos(), origin)
  }

  class PlaceGraph {
    var nodes: seq<Node>

    constructor ()
      ensures nodes == []
    {
      nodes := [];
    }

    method AddPlace(node: Node)
      modifies this
      ensures nodes == old(nodes) + [node]
    {
      nodes := nodes + [node];
    }

    /** For every ordered pair of distinct positions (i, j), in row-major
        order, appends node j to node i's edges when they are at most
        `maxDistance` apart. */
    method ConnectAllByDistance(maxDistance: real, dist: Distance)
      requires Distinct(nodes)
      modifies nodes
      ensures forall k :: 0 <= k < |nodes| ==>
        nodes[k].edges == old(nodes[k].edges) + Edges(nodes, k, maxDistance, dist)
    {
      for i := 0 to |nodes|
        invariant forall k :: 0 <= k < i ==>
          nodes[k].edges == old(nodes[k].edges) + Edges(nodes, k, maxDistance, dist)
        invariant forall k :: i <= k < |nodes| ==> nodes[k].edges == old(nodes[k].edges)
      {
        LinkFrom(i, maxDistance, dist);
      }
    }

    /** The inner loop of the pair scan: the row of node `i`. */
    method LinkFrom(i: nat, maxDistance: real, dist: Distance)
      requires i < |nodes|
      modifies nodes[i]
      ensures nodes[i].edges == old(nodes[i].edges) + Edges(nodes, i, maxDistance, dist)
    {
      var all := nodes;
      var n1 := all[i];
      ghost var start := n1.edges;
      for j := 0 to |all|
        invariant n1.edges == start + EdgesBelow(all, i, j, maxDistance, dist)
      {
        var n2 := all[j];
        if i != j && dist(n1.Pos(), n2.Pos()) <= maxDistance {
          n1.edges := n1.edges + [n2];
        }
      }
    }

    /** The nodes of `category`, sorted by distance to `origin`, ties kept
        in graph order. */
    function NearestByCategory(origin: Coord, category: string, dist: Distance): (r: seq<Node>)
      reads this
      ensures forall k :: 0 <= k < |r| ==> r[k] in nodes && r[k].category == category
      ensures forall k :: 0 <= k < |nodes| && nodes[k].category == category ==> nodes[k] in r
      ensures multiset(r) == multiset(OfCategory(nodes, category))
      ensures SortedBy(r, DistanceFrom(origin, dist))
    {
      var matching := OfCategory(nodes, category);
      var r := SortByKey(matching, DistanceFrom(origin, dist));
      assert forall k :: 0 <= k < |r| ==> r[k] in matching by {
        forall k | 0 <= k < |r| ensures r[k] in matching {
          assert r[k] in multiset(r);
        }
      }
      assert forall k :: 0 <= k < |matching| ==> matching[k] in r by {
        forall k | 0 <= k < |matching| ensures matching[k] in r {
          assert matching[k] in multiset(matching);
        }
      }
      r
    }
  }

  /** The ranking is stable: for each distance value, the nodes at that
      distance come out in the order the graph holds them. */
  lemma NearestIsStable(g: PlaceGraph, origin: Coord, category: string, dist: Distance, v: real)
    ensures WithKey(g.NearestByCategory(origin, category, dist), DistanceFrom(origin, dist), v)
         == WithKey(OfCategory(g.nodes, category), DistanceFrom(origin, dist), v)
  {
    SortStable(OfCategory(g.nodes, category), DistanceFrom(origin, dist), v);
  }
}
