/** The recommendation request: category gate, default coordinate, empty
    result sentinel, graph reload, proximity linking, ranking, recency
    exclusion with fallback, random sample of at most five, and the
    capped history of recent recommendations.

    The place search itself is not performed: the candidates it returned
    are an input. The random shuffle is an input too: `shuffle(n)` is the
    permutation of positions `0 .. n-1` that the shuffle applies to a list
    of length `n`. */
module Recommend {
  import opened Wrappers
  import opened Seqs
  import opened Sorting
  import opened Graph
  import opened Linear

  const VALID_CATEGORIES: seq<string> := ["restaurant", "cafe"]
  const DEFAULT_ORIGIN: Coord := Coord(37.337, 127.268)
  const LINK_RADIUS: real := 800.0
  const SAMPLE_SIZE: nat := 5
  const RECENT_CAPACITY: nat := 10
  const UNSUPPORTED_MESSAGE: string := "지원하지 않는 카테고리입니다."
  const NO_PLACE_NAME: string := "해당 범위 내 장소 없음"
  const UNKNOWN_ADDRESS: string := "주소 정보 없음"
  const LINK_PREFIX: string := "https://www.google.com/maps/place/?q=place_id:"

  /** One place returned by the place search; `vicinity` may be absent. */
  datatype Candidate = Candidate(name: string, lat: real, lng: real, placeId: string, vicinity: Option<string>)

  /** One record of the response. */
  datatype Entry = Entry(name: string, address: string, link: string, lat: real, lng: real)

  datatype Response = Unsupported(error: string) | Entries(entries: seq<Entry>)

  /** The single record returned when the search found nothing. */
  const NO_PLACE_ENTRY: Entry := Entry(NO_PLACE_NAME, "", "", 0.0, 0.0)

  /** The user's position; the default one when either coordinate is
      missing. */
  function Origin(lat: Option<real>, lng: Option<real>): (c: Coord)
    ensures lat.Some? && lng.Some? ==> c.lat == lat.value && c.lng == lng.value
    ensures lat.None? || lng.None? ==> c == DEFAULT_ORIGIN
  {
    if lat.None? || lng.None? then DEFAULT_ORIGIN else Coord(lat.value, lng.value)
  }

  /** The node the request builds for the candidate at position `k`. */
  ghost predicate NodeFrom(n: Node, k: int, c: Candidate, category: string) {
    && n.id == k && n.name == c.name && n.lat == c.lat && n.lng == c.lng
    && n.category == category && n.placeId == c.placeId
    && n.address == c.vicinity.GetOr(UNKNOWN_ADDRESS)
  }

  ghost predicate LoadedFrom(nodes: seq<Node>, results: seq<Candidate>, category: string) {
    |nodes| == |results| &&
    forall k :: 0 <= k < |nodes| ==> NodeFrom(nodes[k], k, results[k], category)
  }

  function Ids(q: seq<Node>): (r: seq<int>)
    ensures |r| == |q|
    ensures forall k :: 0 <= k < |q| ==> r[k] == q[k].id
  {
    seq(|q|, k requires 0 <= k < |q| => q[k].id)
  }

  /** The ranked nodes whose id is not held by a recent node. */
  function Unseen(ranked: seq<Node>, recent: seq<Node>): seq<Node> {
    var recentIds := Ids(recent);
    Filter(ranked, (n: Node) => n.id !in recentIds)
  }

  /** The nodes the sample is drawn from: the unseen ones in ranked order,
      or the whole ranked list when every one of them was seen. */
  function Available(ranked: seq<Node>, recent: seq<Node>): (a: seq<Node>)
    ensures IsSubsequence(a, ranked)
    ensures ranked != [] ==> a != []
    ensures (exists k :: 0 <= k < |ranked| && ranked[k].id !in Ids(recent)) ==>
      && (forall k :: 0 <= k < |a| ==> a[k].id !in Ids(recent))
      && (forall k :: 0 <= k < |ranked| && ranked[k].id !in Ids(recent) ==> ranked[k] in a)
    ensures (forall k :: 0 <= k < |ranked| ==> ranked[k].id in Ids(recent)) ==> a == ranked
  {
    var unseen := Unseen(ranked, recent);
    assert forall k :: 0 <= k < |ranked| && ranked[k].id !in Ids(recent) ==> ranked[k] in unseen;
    assert forall k :: 0 <= k < |unseen| ==> unseen[k].id !in Ids(recent);
    SubsequenceOfItself(ranked);
    if unseen == [] then ranked else unseen
  }

  /** A shuffle gives a permutation of the positions for every length. */
  ghost predicate IsShuffle(shuffle: nat -> seq<nat>) {
    forall n: nat :: IsPermutation(shuffle(n), n)
  }

  /** The list `s` rearranged by the permutation `p`: what `random.shuffle`
      leaves in place of `s`. */
  function Permute(s: seq<Node>, p: seq<nat>): (r: seq<Node>)
    requires IsPermutation(p, |s|)
    ensures |r| == |s|
    ensures forall t :: 0 <= t < |r| ==> r[t] in s
    ensures multiset(r) == multiset(s)
  {
    PickPermutation(s, p);
    Pick(s, p)
  }

  /** The places one request recommends: the first `SAMPLE_SIZE` of the
      shuffled available list. */
  function Select(ranked: seq<Node>, recent: seq<Node>, shuffle: nat -> seq<nat>): (sel: seq<Node>)
    requires IsShuffle(shuffle)
    ensures |sel| == Min(SAMPLE_SIZE, |Available(ranked, recent)|)
    ensures forall k :: 0 <= k < |sel| ==> sel[k] in Available(ranked, recent)
    ensures multiset(sel) <= multiset(Available(ranked, recent))
    ensures ranked != [] ==> sel != []
  {
    var available := Available(ranked, recent);
    Take(Permute(available, shuffle(|available|)), SAMPLE_SIZE)
  }

  /** One step of the history update: append, then drop the oldest entry
      when the history has grown past its capacity. */
  function Record<T>(q: seq<T>, x: T): seq<T> {
    if |q + [x]| > RECENT_CAPACITY then (q + [x])[1..] else q + [x]
  }

  /** The history after recording each of `xs` in turn. */
  function RecordAll<T>(q: seq<T>, xs: seq<T>): seq<T>
    decreases |xs|
  {
    if xs == [] then q else Record(RecordAll(q, xs[..|xs| - 1]), xs[|xs| - 1])
  }

  /** The last `n` elements of `s`, or all of `s` when it is shorter. */
  function LastN<T>(s: seq<T>, n: nat): (r: seq<T>)
    ensures |r| == Min(n, |s|)
  {
    s[|s| - Min(n, |s|)..]
  }

  /** A history within its capacity stays within it, and holds the most
      recent `RECENT_CAPACITY` places of the old history followed by the
      recorded ones. */
  lemma {:induction false} RecordAllKeepsLast<T>(q: seq<T>, xs: seq<T>)
    requires |q| <= RECENT_CAPACITY
    ensures RecordAll(q, xs) == LastN(q + xs, RECENT_CAPACITY)
    ensures |RecordAll(q, xs)| <= RECENT_CAPACITY
  {
    if xs == [] {
      assert q + xs == q;
    } else {
      var ys, x := xs[..|xs| - 1], xs[|xs| - 1];
      RecordAllKeepsLast(q, ys);
      var s := q + ys;
      assert q + xs == s + [x] by {
        assert xs == ys + [x];
      }
      if |s| >= RECENT_CAPACITY {
        var tail := s[|s| - RECENT_CAPACITY..];
        assert (tail + [x])[1..] == (s + [x])[|s| + 1 - RECENT_CAPACITY..];
      }
    }
  }

  function ToEntry(n: Node): Entry {
    Entry(n.name, n.address, LINK_PREFIX + n.placeId, n.lat, n.lng)
  }

  function ToEntries(nodes: seq<Node>): (r: seq<Entry>)
    ensures |r| == |nodes|
    ensures forall k :: 0 <= k < |nodes| ==> r[k] == ToEntry(nodes[k])
  {
    seq(|nodes|, k requires 0 <= k < |nodes| => ToEntry(nodes[k]))
  }

  /** The history update loop of a request. */
  method RememberSelection(recent: Queue<Node>, selected: seq<Node>)
    modifies recent
    ensures recent.items == RecordAll(old(recent.items), selected)
  {
    for i := 0 to |selected|
      invariant recent.items == RecordAll(old(recent.items), selected[..i])
    {
      assert selected[..i + 1][..i] == selected[..i];
      recent.Enqueue(selected[i]);
      if |recent.items| > RECENT_CAPACITY {
        var dropped := recent.Dequeue();
      }
    }
    assert selected[..|selected|] == selected;
  }

  /** Replaces the graph's nodes by one fresh node per candidate, with ids
      `0 .. |results|-1` in candidate order and empty edge lists. */
  method LoadGraph(graph: PlaceGraph, results: seq<Candidate>, category: string)
    modifies graph
    ensures LoadedFrom(graph.nodes, results, category)
    ensures forall k :: 0 <= k < |graph.nodes| ==> fresh(graph.nodes[k]) && graph.nodes[k].edges == []
  {
    graph.nodes := [];
    for i := 0 to |results|
      invariant LoadedFrom(graph.nodes, results[..i], category)
      invariant forall k :: 0 <= k < |graph.nodes| ==> fresh(graph.nodes[k]) && graph.nodes[k].edges == []
    {
      var p := results[i];
      var n := new Node(i, p.name, p.lat, p.lng, category, p.placeId, p.vicinity.GetOr(UNKNOWN_ADDRESS));
      graph.AddPlace(n);
    }
    assert results[..|results|] == results;
  }

  /** The graph holds one node per candidate, each linked to the other
      nodes within `LINK_RADIUS`. */
  ghost predicate BuiltFrom(graph: PlaceGraph, results: seq<Candidate>, category: string, dist: Distance)
    reads graph, graph.nodes
  {
    && LoadedFrom(graph.nodes, results, category)
    && forall k :: 0 <= k < |graph.nodes| ==> graph.nodes[k].edges == Edges(graph.nodes, k, LINK_RADIUS, dist)
  }

  /** Reload the graph from the candidates and link the nodes within
      `LINK_RADIUS` of each other. */
  method BuildGraph(graph: PlaceGraph, results: seq<Candidate>, category: string, dist: Distance)
    modifies graph
    ensures BuiltFrom(graph, results, category, dist)
    ensures forall k :: 0 <= k < |graph.nodes| ==> fresh(graph.nodes[k])
  {
    LoadGraph(graph, results, category);
    graph.ConnectAllByDistance(LINK_RADIUS, dist);
  }

  /** Every loaded node has the requested category, so the ranking keeps
      all of them. */
  lemma RankedKeepsAll(graph: PlaceGraph, results: seq<Candidate>, origin: Coord, category: string, dist: Distance)
    requires BuiltFrom(graph, results, category, dist)
    ensures |graph.NearestByCategory(origin, category, dist)| == |results|
  {
    var ranked := graph.NearestByCategory(origin, category, dist);
    FilterKeepsAll(graph.nodes, (n: Node) => n.category == category);
    assert |ranked| == |multiset(ranked)|;
  }

  /** Rebuild the graph from the candidates and rank its nodes of the
      requested category by distance from `origin`. */
  method BuildAndRank(graph: PlaceGraph, results: seq<Candidate>, origin: Coord, category: string, dist: Distance)
    returns (ranked: seq<Node>)
    modifies graph
    ensures BuiltFrom(graph, results, category, dist)
    ensures forall k :: 0 <= k < |graph.nodes| ==> fresh(graph.nodes[k])
    ensures ranked == graph.NearestByCategory(origin, category, dist)
    ensures |ranked| == |results|
  {
    BuildGraph(graph, results, category, dist);
    ranked := graph.NearestByCategory(origin, category, dist);
    RankedKeepsAll(graph, results, origin, category, dist);
  }

  /** Draw up to `SAMPLE_SIZE` places from the ranking, preferring the ones
      not recommended recently, and record them in the history. */
  method SampleAndRemember(recent: Queue<Node>, ranked: seq<Node>, shuffle: nat -> seq<nat>)
    returns (selected: seq<Node>)
    requires IsShuffle(shuffle) && ranked != []
    modifies recent
    ensures selected == Select(ranked, old(recent.items), shuffle)
    ensures 1 <= |selected| <= SAMPLE_SIZE
    ensures recent.items == RecordAll(old(recent.items), selected)
    ensures |old(recent.items)| <= RECENT_CAPACITY ==> |recent.items| <= RECENT_CAPACITY
  {
    selected := Select(ranked, recent.items, shuffle);
    if |recent.items| <= RECENT_CAPACITY {
      RecordAllKeepsLast(recent.items, selected);
    }
    RememberSelection(recent, selected);
  }

  /** The part of a request after the category gate and the empty-result
      check. */
  method Recommend(graph: PlaceGraph, recent: Queue<Node>, origin: Coord, category: string,
                   results: seq<Candidate>, dist: Distance, shuffle: nat -> seq<nat>)
    returns (resp: Response)
    requires IsShuffle(shuffle) && results != []
    modifies graph, recent
    ensures BuiltFrom(graph, results, category, dist)
    ensures forall k :: 0 <= k < |graph.nodes| ==> fresh(graph.nodes[k])
    ensures var selected := Select(graph.NearestByCategory(origin, category, dist), old(recent.items), shuffle);
      && resp == Entries(ToEntries(selected))
      && 1 <= |selected| <= SAMPLE_SIZE
      && recent.items == RecordAll(old(recent.items), selected)
    ensures |old(recent.items)| <= RECENT_CAPACITY ==> |recent.items| <= RECENT_CAPACITY
  {
    var nearest := BuildAndRank(graph, results, origin, category, dist);
    var nearest5 := SampleAndRemember(recent, nearest, shuffle);
    resp := Entries(ToEntries(nearest5));
  }

  /** One recommendation request against the shared graph and history. */
  method GetPlaces(graph: PlaceGraph, recent: Queue<Node>, category: string, lat: Option<real>, lng: Option<real>,
                   results: seq<Candidate>, dist: Distance, shuffle: nat -> seq<nat>)
    returns (resp: Response)
    requires IsShuffle(shuffle)
    modifies graph, recent
    ensures category !in VALID_CATEGORIES ==>
      && resp == Unsupported(UNSUPPORTED_MESSAGE)
      && graph.nodes == old(graph.nodes) && recent.items == old(recent.items)
    ensures category in VALID_CATEGORIES && results == [] ==>
      && resp == Entries([NO_PLACE_ENTRY])
      && graph.nodes == old(graph.nodes) && recent.items == old(recent.items)
    ensures category in VALID_CATEGORIES && results != [] ==>
      && BuiltFrom(graph, results, category, dist)
      && forall k :: 0 <= k < |graph.nodes| ==> fresh(graph.nodes[k])
    ensures category in VALID_CATEGORIES && results != [] ==>
      var selected := Select(graph.NearestByCategory(Origin(lat, lng), category, dist), old(recent.items), shuffle);
      && resp == Entries(ToEntries(selected))
      && 1 <= |selected| <= SAMPLE_SIZE
      && recent.items == RecordAll(old(recent.items), selected)
    ensures category in VALID_CATEGORIES && results != [] && |old(recent.items)| <= RECENT_CAPACITY ==>
      |recent.items| <= RECENT_CAPACITY
  {
    if category !in VALID_CATEGORIES {
      return Unsupported(UNSUPPORTED_MESSAGE);
    }
    var origin := Origin(lat, lng);
    if results == [] {
      return Entries([NO_PLACE_ENTRY]);
    }
    resp := Recommend(graph, recent, origin, category, results, dist, shuffle);
  }
}
