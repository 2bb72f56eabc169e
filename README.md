# Pal breeding search, modelled in Dafny

The program plans how to breed a target Pal from the Pals a player already
owns. A breeding graph maps each Pal to its rules. A rule is a pair
`(partner, result)`: breeding the Pal with `partner` gives `result`. The
core is made of three parts:

- `bfs` runs a breadth-first search. Its states are owned lists together with
  the breeding path that produced them. Two lists holding the same Pals with
  the same multiplicities are one state, and the sorted tuple of the list is
  the key of the `visited` set. At each dequeued state, every ordered pair of
  different positions is tried against the graph. The first event that
  breeds the target returns the path. A wall-clock limit ends the search with
  `None`.
- `possible` collects every child that can be bred from the starting list.
  It searches over lists, and each newly found child becomes a new state.
- `build_binary_tree` turns a path into the parent tree of its last result.
  `get_tree_depth` measures that tree. `validate_pals` reports the names that
  the breeding data does not know.

Modules:

- `Canonical` holds Python's string order, `sorted` (an insertion sort), and
  the canonical key `Canon`. `Canon` is the unique sorted permutation of a
  list.
- `BreedingGraph` holds graph lookup, the events one pair of positions
  yields under a list of rules, the list owned after a path, and legal paths
  (`ValidPath`).
- `BfsMoves` lists the events the three nested loops of `bfs` try, in the
  order they try them (`Moves`).
- `BfsSearch` models `bfs`. The ghost function `Search` is the whole search
  as one recursive definition over the queue, the `visited` set and the
  number of time checks left. `Bfs` and its loop-body methods are proved
  against it. `Expands` says exactly what expanding one state does to the
  queue: each tried event before the first one breeding the target appends
  its state, and that first one ends the search. `QueueOk` says the queue
  holds legally reached states in FIFO depth order. `Explored` says the
  expanded states are reached, ordered by depth and pairwise different
  multisets. `Outcome` says what was returned and why.
- `PossibleMoves` lists the events the loops of `possible` try, in order
  (`Offers`).
- `PossibleSearch` models `possible`. A `Gathered` value holds the children
  found, the ghost list `all` of every enqueued state, and the queue. `Run`
  tries events one after another, and `RunFrom`/`RunUpper` follow the two
  position loops. `Known` and `Spawned` say what expanding the first `n`
  enqueued states finds and enqueues.
- `Visualize` and `Validation` model the other two files.

Behaviour of the source that the model reproduces:

- `bfs` ends only when the queue empties, a path is found or time runs out.
  Every bred child makes a strictly longer list, so a graph with any
  applicable rule yields ever new states. The `visited` set alone then does
  not stop the search; the time limit does. The model replaces the clock
  with an iteration budget. The clock is read before every `popleft`, so a
  budget of `n` lets `n` states be dequeued, and a budget of 0 returns
  `None` before the start is expanded. With no applicable rule at the start,
  the result is `None` (`BfsOutcome`).
- `possible` expands a child only when that child is seen for the first
  time. It enqueues the grown list only when that child is new to the result
  set, not for every breeding. Take the rules A+B→C, A+B→D and C+D→E, and
  the start [A, B]. The states [A,B,C] and [A,B,D] are enqueued, but
  [A,B,C,D] never is, so E is not reported. Yet E can be bred by a legal
  path. (A reading of the search as enqueuing a grown list on every
  breeding would differ here; the model follows the code.) The contract of
  `Possible` is therefore stated over the lists the search itself enqueued:
  a child is reported exactly when some enqueued list breeds it, with the Pal
  at an earlier position as the rule's owner. The enqueued lists are pinned
  down exactly: they are the start followed by `Spawned`, and
  `SpawnedUnique` shows that only one list has that form. The contract is
  not stated over every list reachable from the start.
- `possible` starts `visited` as `set(tuple(initial_pals))`, which is a set of
  single names, not the sorted tuple of the start. The model keeps that
  mix (`Key = Name | State`). The consequence is that the start list itself
  is never in `visited`. A state equal to the start cannot be enqueued
  anyway, because every enqueued list is longer.
- In `possible`, the test `offspring == pal2 or offspring not in graph[pal1]`
  compares a rule with a name, and it looks the rule up in the list it came
  from. It never skips, so the model has no branch for it.
- The `visited` default argument of the inner `build_tree` is created anew
  on each `build_binary_tree` call, because the inner function is defined
  again on each call. One call's recursion shares it and grows it. The
  model threads it through `BuildTree` and returns it.

## Model

| member | source | states |
|---|---|---|
| `Canonical.Sort` | bfs_search.py:26 | `sorted` (also used at line 77) returns an ordered permutation of the list |
| `Canonical.SortIsCanon` | bfs_search.py:26 | the sorted tuple is the unique sorted permutation, the canonical key |
| `Canonical.CanonSameState` | bfs_search.py:26-32 | two lists have the same `visited` key exactly when they hold the same multiset of Pals |
| `Canonical.SortedUnique` | bfs_search.py:26 | two sorted lists with the same multiset are equal, so the key does not depend on the list's order |
| `BreedingGraph.RulesOf` | bfs_search.py:38 | `graph.get(pal, [])`: the Pal's own rule list when the graph has it, and no rules otherwise |
| `BreedingGraph.OwnedLayout` | bfs_search.py:40-41 | the list owned after a path is the start followed by each event's result in path order, so `len(new_pals) == len(initial_pals) + len(path)` |
| `BreedingGraph.ValidPathEvent` | bfs_search.py:35-41 | every event of a legal path is a graph rule whose parents sit at two different positions of the list owned at that step |
| `BreedingGraph.NonEmptyPathNeedsRule` | bfs_search.py:35-44 | a non-empty path exists only if the start holds a breedable pair, so only for a non-empty graph |
| `BfsMoves.MovesExact` | bfs_search.py:35-39 | the three nested loops try an event exactly when it is a graph rule of the Pal at one position with the Pal at another, different position |
| `BfsSearch.ReachedStep` | bfs_search.py:40-41 | a legal event extends a reached state to a reached state one event deeper |
| `BfsSearch.BreedPair` | bfs_search.py:38-46 | the rules of the Pal at `i` are tried in graph order; each matching rule before the first that breeds the target appends exactly `(pals + [result], path + [event])` to the queue; the first that breeds the target returns `path + [event]` and nothing after it is tried; with none, every matching rule's state is appended and `None` is returned |
| `BfsSearch.TryPartners` | bfs_search.py:36-46 | the same for all partners `j != i` in index order: the queue grows by exactly the states of the events tried before the first one breeding the target, which is returned |
| `BfsSearch.ExpandState` | bfs_search.py:35-46 | the same for all pairs in the loops' row-major order: the returned path ends in the first event in that order breeding the target, and the queue grows by exactly the states of the events before it |
| `BfsSearch.ExpandsOk` | bfs_search.py:35-46 | after expanding a reached state, the queue still holds legally reached states one level deeper at most; a returned path is legal and only its last event breeds the target; `None` means the target cannot be bred from that state |
| `BfsSearch.Visit` | bfs_search.py:25-46 | one `popleft`: a state whose key is in `visited` is dropped and nothing else changes; otherwise its key is added, it is appended to the expanded states, and it is expanded exactly as `ExpandState` says; a path it returns is a solution one event deeper than the dequeued state |
| `BfsSearch.SearchStep` | bfs_search.py:20-46 | one loop iteration that skips or expands the head leaves the value of `Search` unchanged, or returns that value |
| `BfsSearch.Bfs` | bfs_search.py:5-48 | the result equals `Search` from the start with the budget as its number of time checks; at most `budget` states are expanded, the start first when the budget is positive; the result is a legal path whose last event, and only that one, breeds the target, and no earlier expanded state could breed it; `None` means no expanded state could; a target breedable from the start is found in one event when the budget is positive; a start with no breedable pair, or an empty graph, gives `None` |
| `BfsSearch.BfsOutcome` | bfs_search.py:16-48 | once the start was expanded first: a found path is deeper than every expanded state; a target breedable from the start is found in one event; a start with no breedable pair, or an empty graph, gives `None` |
| `PossibleMoves.OffersBreeds` | bfs_search.py:62-75 | the loops over `i < j` and the rules of `graph[pal1]` produce exactly the children the list breeds with the Pal at the earlier position as the rule's owner |
| `PossibleSearch.NameKeys` | bfs_search.py:56 | `visited` starts holding exactly the names of the start list |
| `PossibleSearch.Offspring` | bfs_search.py:68-81 | one rule at a pair `i < j`: a matching partner whose child is new adds the child, appends `current_pals + [child]` to the queue and to the enqueued states, and adds its sorted tuple to `visited`; otherwise nothing changes; the bookkeeping invariant `Book` is kept |
| `PossibleSearch.RunDiscovers` | bfs_search.py:74-81 | trying events in order adds all their children, and appends to the queue and to the enqueued states the grown list of each child new at that point, in order |
| `PossibleSearch.PossiblePair` | bfs_search.py:67-81 | the rule loop for a pair `i < j` leaves exactly the state `Run` gives for the pair's events, and keeps `Book` |
| `PossibleSearch.PossibleFrom` | bfs_search.py:63-81 | the `j` loop leaves exactly the state `RunFrom` gives for the partners after `i` |
| `PossibleSearch.PossibleExpand` | bfs_search.py:62-81 | both position loops leave exactly the state `RunUpper` gives; the children afterwards are the old ones plus exactly those the dequeued list breeds |
| `PossibleSearch.ExpandDiscovers` | bfs_search.py:62-81 | the state `RunUpper` gives is the one `Discovers` spells out for all events of the list, and its children are the old ones plus exactly those the list breeds |
| `PossibleSearch.KnownBreeds` | bfs_search.py:59-81 | a child is found after expanding the first `n` enqueued states exactly when one of them breeds it |
| `PossibleSearch.PossibleVisit` | bfs_search.py:59-81 | one `popleft`: the queue is again the enqueued states after the dequeued one; the children and the enqueued states are what expanding one more state defines (`Known`, `Spawned`); a measure of unfound children and queue length drops, so the loop ends |
| `PossibleSearch.SpawnedUnique` | bfs_search.py:55-81 | only one list of states is the start followed by what expanding all of them enqueues, so the enqueued states and the children found are determined by the start and the graph |
| `PossibleSearch.Possible` | bfs_search.py:50-83 | the enqueued states are the start followed by `Spawned`; the result has no repeats and holds exactly the children some enqueued state breeds; every enqueued state is a derivation from the start; later states are pairwise different multisets; there is exactly one more state than results |
| `PossibleSearch.SetToList` | bfs_search.py:83 | `list(possible_children)` holds each member of the set once and nothing else |
| `PossibleSearch.DerivationHasPath` | bfs_search.py:50-81 | every list `possible` enqueues is a state `bfs` can reach: some legal path of the right length replays to it |
| `PossibleSearch.ChildHasPath` | bfs_search.py:50-83 | every child `possible` reports is the last result of some legal breeding path from the start |
| `Visualize.ParentsOf` | visualize.py:35-37 | `nodes` has no more keys than the path has events |
| `Visualize.ParentsOfKeys` | visualize.py:35-37 | `nodes` has a key exactly for each result of the path |
| `Visualize.ParentsOfLastWriter` | visualize.py:35-37 | a result maps to the parents of the last event producing it |
| `Visualize.BuildTree` | visualize.py:39-47 | a Pal without parents, or already visited, gives a leaf; otherwise its node's children are its recorded parents; the tree is shaped by `nodes`; the expanded Pals are exactly the ones newly added to `visited`, each once; a leaf with recorded parents was visited; the tree follows the left-before-right visiting order (`LeftFirst`) |
| `Visualize.BuildBinaryTree` | visualize.py:24-51 | an empty path gives `None`; otherwise the root is the last result and its children are the parents of the last event; every inner node's children are its recorded parents; a leaf with recorded parents is expanded elsewhere in the tree; each result is expanded at most once; the tree follows the left-before-right visiting order from an empty `visited` |
| `Visualize.LeftFirstUnique` | visualize.py:39-51 | two trees with the same root, shaped by the same `nodes` and following the left-before-right order from the same `visited`, are equal, so the contracts of `BuildTree` and `BuildBinaryTree` fix the tree the code returns |
| `Visualize.Depth` | visualize.py:64-68 | `None` has depth 0, and a node is deeper than both its children |
| `Visualize.DepthBound` | visualize.py:64-68 | a tree is at most one level deeper than its number of expanded nodes |
| `Visualize.BuiltTreeDepth` | visualize.py:64-70 | the tree of a path of `n` events is at most `n + 1` levels deep |
| `Validation.KnownPals` | validation.py:35-36 | the known names are exactly the values of the `'parents'` entry, and none without one |
| `Validation.UnknownPals` | validation.py:36 | every reported name is unknown, there are no more of them than inputs, and none is reported exactly when all names are known |
| `Validation.UnknownPalsSublist` | validation.py:36 | the reported names keep their input order |
| `Validation.UnknownPalsCount` | validation.py:36 | every unknown name is reported as often as it occurs |
| `Validation.UnknownPalsAll` | validation.py:35-36 | with no known names, every input is reported |
| `Validation.ValidatePals` | validation.py:25-38 | the flag is true exactly when the list of unknown names is empty, which is exactly when every name is known; without a `'parents'` entry every name is reported; an empty list is valid |

## Left out

- `time.time()` and the `time_limit` argument of `bfs`: the clock is replaced by a budget on loop iterations. Each iteration passes one time check, and the check after the last one fails. Running out of budget gives the same `None` as an exhausted queue.
- `BfsSearch.Bfs`: does not state that the returned path is a shortest one overall. It states minimality only with respect to the states the search expanded. It also does not state that a `None` from an exhausted queue means the target cannot be bred at all. Its result is pinned by `Search`, which follows the code.
- `PossibleSearch.Possible`: does not state completeness over every list reachable from the start. The code does not achieve that (see the A, B, C, D, E example above).
- The order of `list(possible_children)` depends on Python's set iteration order. `SetToList` picks an unspecified order.
- The guard `offspring == pal2 or offspring not in graph[pal1]` in `possible` is not modelled, because it never skips.
- `load_breeding_data` and `load_breeding_graph` read JSON files. The data and the graph arrive as values instead. The breeding data is reduced to a dictionary of string-keyed dictionaries.
- `get_image_file_name`, `calculate_dynamic_scale` (apart from its inner `get_tree_depth`) and the drawing functions of `visualize.py` are not modelled. They do image loading, pixel arithmetic and floating point.
- `gui.py` is not part of this model. It covers the user interface and calls the core only.
- Python's dynamic typing is not modelled. Graph values are assumed to be lists of `(partner, result)` pairs, and path entries are assumed to be triples.
