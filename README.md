# Nearby place recommender: a Dafny model

This project models the recommendation core of a small web service that
suggests nearby restaurants and cafés. A request names a category and,
optionally, the user's coordinates. The service takes the places the
place search returned and loads them into a place graph. It links every
two places within 800 m of each other. It ranks the places of the
requested category by distance to the user. It leaves out places whose
id is among the recently recommended ones, unless that leaves nothing.
It shuffles the rest, returns at most five, and records them in a
history queue of at most ten entries that lives across requests.

Modules: three helpers for Python built-ins, then one per component of
`backend/app.py`:

- `Wrappers`: `Option`, for Python's `None`.
- `Seqs`: list comprehensions with a condition (`Filter`), slicing
  (`Take`), rearranging by a permutation of positions (`Pick`), and the
  "keeps the original order" relation `IsSubsequence`.
- `Sorting`: Python's stable `list.sort(key=...)` as an insertion sort
  on a real-valued key, with its sortedness, permutation and stability
  proofs.
- `Linear`: the list-backed `Stack` and `Queue` classes.
- `Graph`: the `Node` class (its `edges` list is the only field updated
  after construction), the `PlaceGraph` class with `AddPlace`, the
  nested pair loop `ConnectAllByDistance`, and the pure ranking
  `NearestByCategory`.
- `Recommend`: the request handler `GetPlaces`, with its constants (the
  two categories, the default coordinate 37.337, 127.268, the 800 m
  radius, the sample size 5, the history capacity 10, and the response
  strings), and the specification functions of its steps.

The great-circle distance is a parameter `dist: (Coord, Coord) -> real`
of every operation that measures one. No proved property depends on the
distance being non-negative, so that is not assumed. Symmetry is assumed
only by the lemma `Graph.EdgesSymmetric`, as its hypothesis.

The random shuffle is a parameter as well. `shuffle(n)` is the
permutation of positions `0 .. n-1` that the shuffle applies to a list of
length `n`. `GetPlaces` requires only that it is a permutation for every
`n`.

Points where the code's behaviour differs from what one might expect:

- The response strings are the code's Korean texts, not English ones.
- The history drops one entry after each append that takes it past ten
  entries. It does not trim "until ten".
- `connect_all_by_distance` defaults to 500 m, but the request always
  passes 800 m. The model takes the radius as a parameter.
- Recent places are excluded by their request-local id, as the code
  does, even though ids restart at 0 on every request. So a place is
  excluded when some recently recommended place, possibly from another
  request, had the same position in its own candidate list.

## Model

| member | source | states |
|---|---|---|
| `Graph.Node.constructor` | backend/app.py:22-31 | a node holds the given id, name, coordinates, category, place id and address, and starts with no edges |
| `Graph.PlaceGraph.constructor` | backend/app.py:38-39 | a new graph has no nodes |
| `Graph.PlaceGraph.AddPlace` | backend/app.py:43-44 | the node is appended at the end of the node list |
| `Graph.PlaceGraph.ConnectAllByDistance` | backend/app.py:49-55 | for every node, its edge list becomes the old list followed by `Edges`: the other nodes within the radius, in index order; no other state changes |
| `Graph.PlaceGraph.LinkFrom` | backend/app.py:51-55 | the inner loop appends to row `i` exactly the nodes of `Edges` for `i`, and changes no other node |
| `Graph.NeighbourIndices` | backend/app.py:50-55 | the indices the pair loop links from node `i` are all below the scanned bound, never `i`, all within the radius, and strictly increasing |
| `Graph.NeighbourIndicesComplete` | backend/app.py:51-55 | every index other than `i` within the radius is linked |
| `Graph.EdgesBelowPicks` | backend/app.py:50-55 | the edge list built by the loop is exactly the nodes at the linked indices, in index order |
| `Graph.EdgeMembership` | backend/app.py:52-55 | node `j` is among node `i`'s edges if and only if `j != i` and their distance is at most the radius; so no node is linked to itself |
| `Graph.EdgesSymmetric` | backend/app.py:49-55 | with a symmetric distance, `j` is an edge of `i` if and only if `i` is an edge of `j`, though each direction is computed separately |
| `Graph.PlaceGraph.NearestByCategory` | backend/app.py:72-76 | the result holds exactly the nodes of the requested category, is a permutation of the filtered list, and is non-decreasing in distance to the user |
| `Graph.NearestIsStable` | backend/app.py:74-75 | nodes at equal distance from the user keep their graph order in the ranking |
| `Sorting.Insert` | backend/app.py:75 | inserting into a sorted list yields a sorted list with the same elements plus the inserted one |
| `Sorting.SortByKey` | backend/app.py:75 | the key sort returns a permutation of its input that is non-decreasing in the key |
| `Sorting.InsertStable` | backend/app.py:75 | the inserted element lands ahead of every element with its key, and the order among the others with any key is unchanged |
| `Sorting.SortStable` | backend/app.py:75 | for every key value, the elements with that key appear in the same order before and after the sort |
| `Seqs.Filter` | backend/app.py:74 | every kept element passes the condition and every passing element is kept, in their original order |
| `Seqs.FilterCounts` | backend/app.py:74 | the comprehension keeps each passing element as many times as it occurs in the list, and no failing one |
| `Seqs.FilterKeepsAll` | backend/app.py:74 | a condition every element passes keeps the whole list |
| `Seqs.Take` | backend/app.py:187 | the slice `[:k]` has `min(k, length)` elements, is the list's prefix position by position, and takes no element more often than the list holds it |
| `Seqs.PickPermutation` | backend/app.py:186 | rearranging a list by a permutation of its positions keeps every element with its multiplicity |
| `Linear.Stack.constructor` | backend/app.py:81-82 | a new stack is empty |
| `Linear.Stack.Push` | backend/app.py:83-84 | the value is added on top |
| `Linear.Stack.Pop` | backend/app.py:85-86 | returns and removes the last pushed value, or returns `None` and changes nothing when empty |
| `Linear.Queue.constructor` | backend/app.py:92-93 | a new queue is empty |
| `Linear.Queue.Enqueue` | backend/app.py:94-95 | the value is added at the back |
| `Linear.Queue.Dequeue` | backend/app.py:96-97 | returns and removes the front value, or returns `None` and changes nothing when empty |
| `Recommend.Origin` | backend/app.py:129-130 | when either coordinate is missing the user is placed at 37.337, 127.268; otherwise at the given coordinates |
| `Recommend.Ids` | backend/app.py:178 | the ids of the recent places, position by position |
| `Recommend.Available` | backend/app.py:178-181 | when some ranked node's id is not recent, the result is exactly those nodes; when all are recent it is the whole ranked list; it always keeps ranked order and is non-empty when the ranking is |
| `Recommend.Permute` | backend/app.py:186 | the shuffled list has the same length and is a permutation of the list: the same elements, each as often |
| `Recommend.Select` | backend/app.py:178-187 | the selection has `min(5, len(available))` elements, drawn from the available list without repeating any more often than it occurs there, and is non-empty whenever the ranking is |
| `Recommend.LastN` | backend/app.py:192-195 | the last `n` elements, or the whole list when it is shorter |
| `Recommend.RecordAllKeepsLast` | backend/app.py:192-195 | from a history of at most ten entries, recording the selection yields the last ten of the old history followed by the selection, hence at most ten entries |
| `Recommend.RememberSelection` | backend/app.py:192-195 | the history loop leaves the queue equal to the recorded history `RecordAll` |
| `Recommend.LoadGraph` | backend/app.py:154-165 | the graph is reset to one fresh node per candidate, with ids 0 to n-1 in candidate order, the request's category, the default address when the candidate has none, and no edges |
| `Recommend.BuildGraph` | backend/app.py:154-170 | the graph holds one node per candidate, built from it in candidate order, and each node's edges are exactly the other nodes within 800 m |
| `Recommend.BuildAndRank` | backend/app.py:154-174 | after the rebuild, the returned ranking is the graph's ranking from the user's position and has one entry per candidate |
| `Recommend.SampleAndRemember` | backend/app.py:178-195 | the selection is `Select` of the ranking and the old history, holds one to five places, and the history becomes `RecordAll` of the old history and the selection, staying within ten entries when it was |
| `Recommend.Recommend` | backend/app.py:154-208 | for a non-empty candidate list: the graph is rebuilt and linked, the response lists the selection drawn from its ranking, and the history records that selection |
| `Recommend.RankedKeepsAll` | backend/app.py:154-174 | every loaded node has the requested category, so the ranking contains all of them |
| `Recommend.ToEntries` | backend/app.py:200-208 | one response record per selected place, in selection order |
| `Recommend.GetPlaces` | backend/app.py:121-208 | an unsupported category returns the error message and changes neither the graph nor the history; no candidates returns the single sentinel record and changes neither; otherwise the graph is reloaded and linked, the response lists the selection of one to five places, the history becomes `RecordAll` of the old history and the selection, and a history of at most ten entries stays within ten |

## Left out

- The place search request, its JSON decoding, the API key and the environment file loading: the candidates are an input sequence. A response without a `results` key reads as an empty list, so it is the empty input.
- The haversine formula with its 6367 km radius: floating-point trigonometry. Distance is the parameter `dist`.
- `random.shuffle`: its randomness is the parameter `shuffle`, a permutation for each length.
- Floating-point numbers: coordinates and distances are `real`.
- The web framework setup, the cross-origin policy and the route decorator: framework plumbing.
- Concurrency on the process-wide graph and history: there is no synchronisation to model; each request runs to completion in the model.
- Graph.PlaceGraph.ConnectAllByDistance: requires the node objects to be pairwise distinct. The request always loads fresh nodes, so it meets this. A node listed twice would get appended to its own edge list, and the model does not describe that case.
- Graph.Node.constructor: fields other than `edges` are constants, because nothing ever reassigns them.
- The `Stack` class is modelled, but nothing in the request uses it.
- The frontend (`frontend/src/App.jsx`) is not part of this model.
