/**
 * `bfs(graph, initial_pals, target_pal, time_limit)`: a breadth-first search
 * over growing lists of owned Pals for a breeding path to a target.
 */
module BfsSearch {
  import opened Wrappers
  import opened Canonical
  import opened BreedingGraph
  import opened BfsMoves

  /** One queued item of `bfs`: `(current_pals, path)`. */
  datatype SearchState = SearchState(pals: seq<Pal>, path: seq<Event>)

  /** The state is what replaying its legal path from `init` yields. */
  ghost predicate Reached(g: Graph, init: seq<Pal>, s: SearchState)
  {
    s.pals == Owned(init, s.path) && ValidPath(g, init, s.path)
  }

  /** Some two different positions of `pals` breed `target`. */
  ghost predicate Producible(g: Graph, pals: seq<Pal>, target: Pal)
  {
    exists a, b :: Yields(g, pals, a, b, target)
  }

  /** Path lengths along a FIFO queue never decrease and grow by at most one. */
  ghost predicate Fifo(q: seq<SearchState>)
  {
    forall a, b :: 0 <= a <= b < |q| ==> |q[a].path| <= |q[b].path| <= |q[a].path| + 1
  }

  /** Every queued state was legally reached, no queued path has produced
      the target yet, and the queue is in FIFO depth order. */
  ghost predicate QueueOk(g: Graph, init: seq<Pal>, target: Pal, q: seq<SearchState>)
  {
    (forall a :: 0 <= a < |q| ==> Reached(g, init, q[a])) &&
    (forall a, k :: 0 <= a < |q| && 0 <= k < |q[a].path| ==> q[a].path[k].result != target) &&
    Fifo(q)
  }

  /** Every queued path has `d` or `d + 1` events. */
  ghost predicate Within(q: seq<SearchState>, d: nat)
  {
    forall a :: 0 <= a < |q| ==> d <= |q[a].path| <= d + 1
  }

  /** Breeding a legal event in a reached state reaches the state with the
      child appended and the event recorded. */
  lemma ReachedStep(g: Graph, init: seq<Pal>, cur: SearchState, e: Event)
    requires Reached(g, init, cur)
    requires EventOk(g, cur.pals, e)
    ensures Reached(g, init, SearchState(cur.pals + [e.result], cur.path + [e]))
  {
    ValidPathExtend(g, init, cur.path, e);
    OwnedStep(init, cur.path, e);
  }

  /** Appending a reached state one event deeper than the one being expanded
      keeps the queue in order. */
  lemma QueueAppend(g: Graph, init: seq<Pal>, target: Pal, q: seq<SearchState>, d: nat, s: SearchState)
    requires QueueOk(g, init, target, q) && Within(q, d)
    requires Reached(g, init, s) && |s.path| == d + 1
    requires forall k :: 0 <= k < |s.path| ==> s.path[k].result != target
    ensures QueueOk(g, init, target, q + [s]) && Within(q + [s], d)
  {
  }

  /** The position of the first event that breeds `target`, or the length
      of `es` when none does. */
  function FirstHit(es: seq<Event>, target: Pal): (h: nat)
    ensures h <= |es|
    ensures forall k :: 0 <= k < h ==> es[k].result != target
    ensures h < |es| ==> es[h].result == target
  {
    if es == [] then 0
    else if es[0].result == target then 0
    else 1 + FirstHit(es[1..], target)
  }

  /** The queue entries `(new_pals, new_path)` appended for the events `es`
      tried from `cur`. */
  function Succ(cur: SearchState, es: seq<Event>): seq<SearchState>
  {
    seq(|es|, k requires 0 <= k < |es| => SearchState(cur.pals + [es[k].result], cur.path + [es[k]]))
  }

  /**
   * Trying the events `es` from `cur`, in order, turns `queue` into `queue'`
   * and returns `found`: each event before the first that breeds the target
   * appends its new state, and that event, if any, ends the returned path.
   */
  ghost predicate Expands(cur: SearchState, target: Pal, es: seq<Event>, queue: seq<SearchState>,
                          found: Option<seq<Event>>, queue': seq<SearchState>)
  {
    var h := FirstHit(es, target);
    queue' == queue + Succ(cur, es[..h]) &&
    found == (if h < |es| then Some(cur.path + [es[h]]) else None)
  }

  lemma ExpandsNone(cur: SearchState, target: Pal, queue: seq<SearchState>)
    ensures Expands(cur, target, [], queue, None, queue)
  {
    assert Succ(cur, []) == [];
  }

  lemma ExpandsOne(cur: SearchState, target: Pal, e: Event, queue: seq<SearchState>)
    ensures e.result == target ==> Expands(cur, target, [e], queue, Some(cur.path + [e]), queue)
    ensures e.result != target ==>
      Expands(cur, target, [e], queue, None, queue + [SearchState(cur.pals + [e.result], cur.path + [e])])
  {
    assert [e][..0] == [] && [e][..1] == [e];
    assert Succ(cur, []) == [];
    assert Succ(cur, [e]) == [SearchState(cur.pals + [e.result], cur.path + [e])];
  }

  lemma {:induction false} FirstHitAppend(a: seq<Event>, b: seq<Event>, target: Pal)
    requires FirstHit(a, target) == |a|
    ensures FirstHit(a + b, target) == |a| + FirstHit(b, target)
  {
    if a != [] {
      assert (a + b)[0] == a[0] && (a + b)[1..] == a[1..] + b;
      FirstHitAppend(a[1..], b, target);
    } else {
      assert a + b == b;
    }
  }

  lemma {:induction false} FirstHitPrefix(a: seq<Event>, b: seq<Event>, target: Pal)
    requires a <= b && FirstHit(a, target) < |a|
    ensures FirstHit(b, target) == FirstHit(a, target)
  {
    assert b[0] == a[0];
    if a[0].result != target {
      assert a[1..] <= b[1..];
      FirstHitPrefix(a[1..], b[1..], target);
    }
  }

  lemma SuccAppend(cur: SearchState, a: seq<Event>, b: seq<Event>)
    ensures Succ(cur, a + b) == Succ(cur, a) + Succ(cur, b)
  {
    assert forall k :: 0 <= k < |a| ==> (a + b)[k] == a[k];
    assert forall k :: 0 <= k < |b| ==> (a + b)[|a| + k] == b[k];
  }

  /** Trying `a` without finding the target, then `b`, is trying `a + b`. */
  lemma ExpandsThen(cur: SearchState, target: Pal, a: seq<Event>, b: seq<Event>, q0: seq<SearchState>,
                    q1: seq<SearchState>, found: Option<seq<Event>>, q2: seq<SearchState>)
    requires Expands(cur, target, a, q0, None, q1) && Expands(cur, target, b, q1, found, q2)
    ensures Expands(cur, target, a + b, q0, found, q2)
  {
    FirstHitAppend(a, b, target);
    var h := FirstHit(b, target);
    assert (a + b)[..|a| + h] == a + b[..h];
    assert a[..|a|] == a;
    SuccAppend(cur, a, b[..h]);
    if h < |b| {
      assert (a + b)[|a| + h] == b[h];
    }
  }

  /** Once the target is found, later events are never tried. */
  lemma ExpandsPrefix(cur: SearchState, target: Pal, a: seq<Event>, b: seq<Event>, q0: seq<SearchState>,
                      found: Option<seq<Event>>, q1: seq<SearchState>)
    requires Expands(cur, target, a, q0, found, q1) && found.Some? && a <= b
    ensures Expands(cur, target, b, q0, found, q1)
  {
    var h := FirstHit(a, target);
    FirstHitPrefix(a, b, target);
    assert b[..h] == a[..h];
  }

  /**
   * The innermost loop of `bfs` for one pair of positions `i != j` of the
   * dequeued state: each rule of `graph.get(pal, [])` whose partner is the
   * Pal at `j`, in rule order, either breeds the target and ends the search
   * or appends its new state to the queue.
   */
  method BreedPair(g: Graph, target: Pal, cur: SearchState, i: nat, j: nat, queue: seq<SearchState>)
    returns (found: Option<seq<Event>>, queue': seq<SearchState>)
    requires i < |cur.pals| && j < |cur.pals| && i != j
    ensures Expands(cur, target, PairEvents(cur.pals, i, j, RulesOf(g, cur.pals[i])), queue, found, queue')
  {
    var rules := RulesOf(g, cur.pals[i]);
    found, queue' := None, queue;
    ExpandsNone(cur, target, queue);
    assert rules[..0] == [];
    var k := 0;
    while k < |rules| && found.None?
      invariant 0 <= k <= |rules|
      invariant Expands(cur, target, PairEvents(cur.pals, i, j, rules[..k]), queue, found, queue')
    {
      var rule := rules[k];
      assert rules[..k + 1][..k] == rules[..k];
      ghost var before := PairEvents(cur.pals, i, j, rules[..k]);
      if rule.partner == cur.pals[j] {
        var event := Event(cur.pals[i], rule.partner, rule.result);
        ExpandsOne(cur, target, event, queue');
        ghost var q1 := queue';
        if rule.result == target {
          found := Some(cur.path + [event]);
        } else {
          queue' := queue' + [SearchState(cur.pals + [rule.result], cur.path + [event])];
        }
        ExpandsThen(cur, target, before, [event], queue, q1, found, queue');
      }
      k := k + 1;
    }
    if k < |rules| {
      PairEventsPrefix(cur.pals, i, j, rules, k);
      ExpandsPrefix(cur, target, PairEvents(cur.pals, i, j, rules[..k]), PairEvents(cur.pals, i, j, rules),
                    queue, found, queue');
    } else {
      assert rules[..k] == rules;
    }
  }

  /**
   * The `j` loop of `bfs` for one position `i` of the dequeued state: every
   * other position is tried as the partner, in order, until the target is
   * found.
   */
  method TryPartners(g: Graph, target: Pal, cur: SearchState, i: nat, queue: seq<SearchState>)
    returns (found: Option<seq<Event>>, queue': seq<SearchState>)
    requires i < |cur.pals|
    ensures Expands(cur, target, RowEvents(g, cur.pals, i, |cur.pals|), queue, found, queue')
  {
    found, queue' := None, queue;
    ExpandsNone(cur, target, queue);
    var j := 0;
    while j < |cur.pals| && found.None?
      invariant 0 <= j <= |cur.pals|
      invariant Expands(cur, target, RowEvents(g, cur.pals, i, j), queue, found, queue')
    {
      if i != j {
        ghost var q1 := queue';
        found, queue' := BreedPair(g, target, cur, i, j, queue');
        ExpandsThen(cur, target, RowEvents(g, cur.pals, i, j), PairEvents(cur.pals, i, j, RulesOf(g, cur.pals[i])),
                    queue, q1, found, queue');
      } else {
        assert RowEvents(g, cur.pals, i, j + 1) == RowEvents(g, cur.pals, i, j);
      }
      j := j + 1;
    }
    if j < |cur.pals| {
      RowEventsPrefix(g, cur.pals, i, j, |cur.pals|);
      ExpandsPrefix(cur, target, RowEvents(g, cur.pals, i, j), RowEvents(g, cur.pals, i, |cur.pals|),
                    queue, found, queue');
    }
  }

  /**
   * The two position loops of `bfs` over one dequeued state: the events of
   * `Moves` are tried in order, each appending its new state, until one
   * breeds the target.
   */
  method ExpandState(g: Graph, target: Pal, cur: SearchState, queue: seq<SearchState>)
    returns (found: Option<seq<Event>>, queue': seq<SearchState>)
    ensures Expands(cur, target, Moves(g, cur.pals), queue, found, queue')
  {
    found, queue' := None, queue;
    ExpandsNone(cur, target, queue);
    var i := 0;
    while i < |cur.pals| && found.None?
      invariant 0 <= i <= |cur.pals|
      invariant Expands(cur, target, GridEvents(g, cur.pals, i), queue, found, queue')
    {
      ghost var q1 := queue';
      found, queue' := TryPartners(g, target, cur, i, queue');
      ExpandsThen(cur, target, GridEvents(g, cur.pals, i), RowEvents(g, cur.pals, i, |cur.pals|),
                  queue, q1, found, queue');
      i := i + 1;
    }
    ExpandsGrid(g, target, cur, i, queue, found, queue');
  }

  /** Leaving the first-parent loop early, on a found path, or at its end
      has tried all of `Moves` in effect. */
  lemma ExpandsGrid(g: Graph, target: Pal, cur: SearchState, i: nat, queue: seq<SearchState>,
                    found: Option<seq<Event>>, queue': seq<SearchState>)
    requires i <= |cur.pals| && (i < |cur.pals| ==> found.Some?)
    requires Expands(cur, target, GridEvents(g, cur.pals, i), queue, found, queue')
    ensures Expands(cur, target, Moves(g, cur.pals), queue, found, queue')
  {
    if i < |cur.pals| {
      GridEventsPrefix(g, cur.pals, i, |cur.pals|);
      ExpandsPrefix(cur, target, GridEvents(g, cur.pals, i), Moves(g, cur.pals), queue, found, queue');
    }
  }

  /** `p` is `cur.path` extended by one event that breeds the target, legal
      from `init`, with no earlier event breeding it. */
  ghost predicate Completes(g: Graph, init: seq<Pal>, target: Pal, cur: SearchState, p: seq<Event>)
  {
    |p| == |cur.path| + 1 && p[..|cur.path|] == cur.path && p[|cur.path|].result == target &&
    (forall k :: 0 <= k < |cur.path| ==> p[k].result != target) &&
    ValidPath(g, init, p)
  }

  /** The state of one legal event that does not breed the target may be
      appended to the queue. */
  lemma SuccOkStep(g: Graph, init: seq<Pal>, target: Pal, cur: SearchState, e: Event, queue: seq<SearchState>)
    requires Reached(g, init, cur) && forall k :: 0 <= k < |cur.path| ==> cur.path[k].result != target
    requires QueueOk(g, init, target, queue) && Within(queue, |cur.path|)
    requires EventOk(g, cur.pals, e) && e.result != target
    ensures QueueOk(g, init, target, queue + Succ(cur, [e])) && Within(queue + Succ(cur, [e]), |cur.path|)
  {
    var s := SearchState(cur.pals + [e.result], cur.path + [e]);
    assert Succ(cur, [e]) == [s];
    ReachedStep(g, init, cur, e);
    assert forall k :: 0 <= k < |s.path| ==> s.path[k].result != target by {
      assert forall k :: 0 <= k < |cur.path| ==> s.path[k] == cur.path[k];
    }
    QueueAppend(g, init, target, queue, |cur.path|, s);
  }

  /** Appending the states of legal events that do not breed the target
      keeps the queue legal and in order. */
  lemma {:induction false} SuccOk(g: Graph, init: seq<Pal>, target: Pal, cur: SearchState, es: seq<Event>,
                                  queue: seq<SearchState>)
    requires Reached(g, init, cur) && forall k :: 0 <= k < |cur.path| ==> cur.path[k].result != target
    requires QueueOk(g, init, target, queue) && Within(queue, |cur.path|)
    requires forall e :: e in es ==> EventOk(g, cur.pals, e) && e.result != target
    ensures QueueOk(g, init, target, queue + Succ(cur, es)) && Within(queue + Succ(cur, es), |cur.path|)
    decreases |es|
  {
    if es == [] {
      assert Succ(cur, es) == [];
      assert queue + Succ(cur, es) == queue;
    } else {
      var n := |es| - 1;
      assert es == es[..n] + [es[n]];
      SuccOk(g, init, target, cur, es[..n], queue);
      SuccAppend(cur, es[..n], [es[n]]);
      SuccOkStep(g, init, target, cur, es[n], queue + Succ(cur, es[..n]));
      assert queue + Succ(cur, es) == (queue + Succ(cur, es[..n])) + Succ(cur, [es[n]]);
    }
  }

  /**
   * Trying the moves of a reached state whose path has not bred the target
   * keeps the queue legal and in order; a returned path completes the
   * state's path with one event breeding the target, and no path returned
   * means the state cannot breed the target.
   */
  lemma ExpandsOk(g: Graph, init: seq<Pal>, target: Pal, cur: SearchState, queue: seq<SearchState>,
                  found: Option<seq<Event>>, queue': seq<SearchState>)
    requires Reached(g, init, cur) && forall k :: 0 <= k < |cur.path| ==> cur.path[k].result != target
    requires QueueOk(g, init, target, queue) && Within(queue, |cur.path|)
    requires Expands(cur, target, Moves(g, cur.pals), queue, found, queue')
    ensures QueueOk(g, init, target, queue') && Within(queue', |cur.path|)
    ensures found.Some? ==> Completes(g, init, target, cur, found.value)
    ensures found.None? ==> !Producible(g, cur.pals, target)
  {
    var es := Moves(g, cur.pals);
    var h := FirstHit(es, target);
    forall e | e in es[..h]
      ensures EventOk(g, cur.pals, e) && e.result != target
    {
      MovesExact(g, cur.pals, e);
    }
    SuccOk(g, init, target, cur, es[..h], queue);
    if h < |es| {
      MovesExact(g, cur.pals, es[h]);
      ReachedStep(g, init, cur, es[h]);
      var p := cur.path + [es[h]];
      assert p[..|cur.path|] == cur.path;
    } else if Producible(g, cur.pals, target) {
      var a, b :| Yields(g, cur.pals, a, b, target);
      MovesExact(g, cur.pals, Event(cur.pals[a], cur.pals[b], target));
      assert false;
    }
  }

  /** The canonical forms of `states`: what `visited` holds after they were
      marked. */
  ghost function Keys(states: seq<SearchState>): set<seq<Pal>>
  {
    if states == [] then {} else Keys(states[..|states| - 1]) + {Canon(states[|states| - 1].pals)}
  }

  lemma {:induction false} KeysHas(states: seq<SearchState>, x: nat)
    requires x < |states|
    ensures Canon(states[x].pals) in Keys(states)
  {
    if x < |states| - 1 {
      KeysHas(states[..|states| - 1], x);
    }
  }

  /** Every state of the list was legally reached. */
  ghost predicate AllReached(g: Graph, init: seq<Pal>, states: seq<SearchState>)
  {
    forall x :: 0 <= x < |states| ==> Reached(g, init, states[x])
  }

  /** Path lengths along the list never decrease. */
  ghost predicate DepthOrdered(states: seq<SearchState>)
  {
    forall x, y :: 0 <= x <= y < |states| ==> |states[x].path| <= |states[y].path|
  }

  /** No two states of the list are the same multiset. */
  ghost predicate DistinctStates(states: seq<SearchState>)
  {
    forall x, y :: 0 <= x < y < |states| ==> Canon(states[x].pals) != Canon(states[y].pals)
  }

  /** The expanded states were legally reached, in nondecreasing depth, and
      no two of them are the same multiset. */
  ghost predicate Explored(g: Graph, init: seq<Pal>, expanded: seq<SearchState>)
  {
    AllReached(g, init, expanded) && DepthOrdered(expanded) && DistinctStates(expanded)
  }

  /** None of the states breeds the target in one event. */
  ghost predicate Fruitless(g: Graph, target: Pal, states: seq<SearchState>)
  {
    forall x :: 0 <= x < |states| ==> !Producible(g, states[x].pals, target)
  }

  /** Every expanded state is at most as deep as every queued one. */
  ghost predicate NotDeeper(expanded: seq<SearchState>, queue: seq<SearchState>)
  {
    forall x, a :: 0 <= x < |expanded| && 0 <= a < |queue| ==> |expanded[x].path| <= |queue[a].path|
  }

  /** Expanding a state whose canonical form is not yet visited and that is
      the shallowest so far keeps the expanded list explored. */
  lemma ExploredStep(g: Graph, init: seq<Pal>, expanded: seq<SearchState>, cur: SearchState)
    requires Explored(g, init, expanded)
    requires Reached(g, init, cur)
    requires Canon(cur.pals) !in Keys(expanded)
    requires forall x :: 0 <= x < |expanded| ==> |expanded[x].path| <= |cur.path|
    ensures Explored(g, init, expanded + [cur])
    ensures Keys(expanded + [cur]) == Keys(expanded) + {Canon(cur.pals)}
  {
    assert (expanded + [cur])[..|expanded|] == expanded;
    AllReachedStep(g, init, expanded, cur);
    DepthOrderedStep(expanded, cur);
    DistinctStep(expanded, cur);
  }

  lemma AllReachedStep(g: Graph, init: seq<Pal>, states: seq<SearchState>, s: SearchState)
    requires AllReached(g, init, states) && Reached(g, init, s)
    ensures AllReached(g, init, states + [s])
  {
    assert forall x :: 0 <= x < |states| ==> (states + [s])[x] == states[x];
  }

  lemma DepthOrderedStep(states: seq<SearchState>, s: SearchState)
    requires DepthOrdered(states)
    requires forall x :: 0 <= x < |states| ==> |states[x].path| <= |s.path|
    ensures DepthOrdered(states + [s])
  {
    assert forall x :: 0 <= x < |states| ==> (states + [s])[x] == states[x];
  }

  /** A state whose canonical form is not yet visited differs, as a
      multiset, from every state expanded so far. */
  lemma DistinctStep(states: seq<SearchState>, s: SearchState)
    requires DistinctStates(states)
    requires Canon(s.pals) !in Keys(states)
    ensures DistinctStates(states + [s])
  {
    forall x | 0 <= x < |states|
      ensures Canon(states[x].pals) != Canon(s.pals)
    {
      KeysHas(states, x);
    }
    assert forall x :: 0 <= x < |states| ==> (states + [s])[x] == states[x];
  }

  /** Dequeuing the head of a FIFO queue. */
  lemma Dequeue(g: Graph, init: seq<Pal>, target: Pal, expanded: seq<SearchState>, queue: seq<SearchState>)
    requires queue != []
    requires QueueOk(g, init, target, queue) && NotDeeper(expanded, queue)
    ensures QueueOk(g, init, target, queue[1..]) && NotDeeper(expanded, queue[1..])
    ensures Within(queue[1..], |queue[0].path|)
    ensures forall x :: 0 <= x < |expanded| ==> |expanded[x].path| <= |queue[0].path|
  {
    assert forall a :: 0 <= a < |queue| - 1 ==> queue[1..][a] == queue[a + 1];
  }

  /** After expanding `cur`, which is no deeper than the queue it leaves
      behind, the expanded list stays no deeper than the queue. */
  lemma NotDeeperStep(expanded: seq<SearchState>, cur: SearchState, queue: seq<SearchState>)
    requires forall x :: 0 <= x < |expanded| ==> |expanded[x].path| <= |cur.path|
    requires Within(queue, |cur.path|)
    ensures NotDeeper(expanded + [cur], queue)
  {
  }

  lemma FruitlessStep(g: Graph, target: Pal, states: seq<SearchState>, s: SearchState)
    requires Fruitless(g, target, states)
    requires !Producible(g, s.pals, target)
    ensures Fruitless(g, target, states + [s])
  {
  }

  /** `path` is an answer of `bfs`: a legal path whose last event, and only
      that one, breeds the target. */
  ghost predicate Solution(g: Graph, init: seq<Pal>, target: Pal, path: seq<Event>)
  {
    path != [] && path[|path| - 1].result == target && ValidPath(g, init, path) &&
    forall k :: 0 <= k < |path| - 1 ==> path[k].result != target
  }

  lemma CompletesSolution(g: Graph, init: seq<Pal>, target: Pal, cur: SearchState, p: seq<Event>)
    requires Completes(g, init, target, cur, p)
    ensures Solution(g, init, target, p) && |p| == |cur.path| + 1
  {
    assert forall k :: 0 <= k < |cur.path| ==> p[k] == cur.path[k];
  }

  /** What a run that expanded `expanded` returned: either a solution one
      event deeper than the last expanded state, none of the states before
      which could breed the target, or `None` with no expanded state able to
      breed the target. */
  ghost predicate Outcome(g: Graph, init: seq<Pal>, target: Pal, r: Option<seq<Event>>,
                          expanded: seq<SearchState>)
  {
    if r.Some? then
      expanded != [] && Solution(g, init, target, r.value) &&
      |r.value| == |expanded[|expanded| - 1].path| + 1 &&
      Fruitless(g, target, expanded[..|expanded| - 1])
    else
      Fruitless(g, target, expanded)
  }

  /** The loop state of `bfs` is consistent: the queue holds legally
      reached states in FIFO order, none shallower than an expanded state,
      and `visited` holds exactly the canonical forms of the expanded
      states. */
  ghost predicate Searching(g: Graph, init: seq<Pal>, target: Pal, queue: seq<SearchState>,
                            visited: set<seq<Pal>>, expanded: seq<SearchState>)
  {
    QueueOk(g, init, target, queue) && NotDeeper(expanded, queue) &&
    Explored(g, init, expanded) && visited == Keys(expanded)
  }

  /**
   * One iteration of the `bfs` loop: `popleft`, then a state whose
   * canonical form is already in `visited` is skipped; otherwise it is
   * marked and its moves are tried. `expanded` and `expanded'` are the
   * ghost lists of states marked before and after.
   */
  method Visit(g: Graph, init: seq<Pal>, target: Pal, queue: seq<SearchState>,
               visited: set<seq<Pal>>, ghost expanded: seq<SearchState>)
    returns (found: Option<seq<Event>>, queue': seq<SearchState>, visited': set<seq<Pal>>,
             ghost expanded': seq<SearchState>)
    requires queue != []
    requires Searching(g, init, target, queue, visited, expanded) && Fruitless(g, target, expanded)
    ensures Canon(queue[0].pals) in visited ==>
      found == None && queue' == queue[1..] && visited' == visited && expanded' == expanded
    ensures Canon(queue[0].pals) !in visited ==>
      visited' == visited + {Canon(queue[0].pals)} && expanded' == expanded + [queue[0]] &&
      Expands(queue[0], target, Moves(g, queue[0].pals), queue[1..], found, queue')
    ensures expanded == [] ==> expanded' == [queue[0]]
    ensures Searching(g, init, target, queue', visited', expanded')
    ensures Outcome(g, init, target, found, expanded')
    ensures found.Some? ==> Solution(g, init, target, found.value)
    ensures found.Some? ==> |found.value| == |queue[0].path| + 1
  {
    Dequeue(g, init, target, expanded, queue);
    var cur := queue[0];
    var rest := queue[1..];
    var key := Sort(cur.pals);
    SortIsCanon(cur.pals);
    if key in visited {
      NotDeeperStep(expanded, cur, rest);
      found, queue', visited', expanded' := None, rest, visited, expanded;
    } else {
      visited' := visited + {key};
      ExploredStep(g, init, expanded, cur);
      found, queue' := ExpandState(g, target, cur, rest);
      ExpandsOk(g, init, target, cur, rest, found, queue');
      NotDeeperStep(expanded, cur, queue');
      expanded' := expanded + [cur];
      if found.None? {
        FruitlessStep(g, target, expanded, cur);
      } else {
        CompletesSolution(g, init, target, cur, found.value);
        assert expanded'[..|expanded'| - 1] == expanded;
      }
    }
  }

  /**
   * What `bfs` returns from a loop state, as one recursive definition:
   * `fuel` is the number of time checks still to pass; the head of the
   * queue is skipped when its canonical form was visited, and otherwise its
   * moves are tried in order, the first breeding the target ending the
   * search and the others appending their states.
   */
  ghost function Search(g: Graph, target: Pal, queue: seq<SearchState>, visited: set<seq<Pal>>, fuel: nat)
    : Option<seq<Event>>
    decreases fuel
  {
    if queue == [] || fuel == 0 then None
    else if Canon(queue[0].pals) in visited then Search(g, target, queue[1..], visited, fuel - 1)
    else
      var es := Moves(g, queue[0].pals);
      var h := FirstHit(es, target);
      if h < |es| then Some(queue[0].path + [es[h]])
      else Search(g, target, queue[1..] + Succ(queue[0], es), visited + {Canon(queue[0].pals)}, fuel - 1)
  }

  /** The invariant of the `bfs` loop after `ticks` passed time checks,
      beside `Searching` and `Outcome`: the search so far agrees with
      `Search`. */
  ghost predicate BfsLoop(g: Graph, init: seq<Pal>, target: Pal, budget: nat, ticks: nat,
                          queue: seq<SearchState>, visited: set<seq<Pal>>, expanded: seq<SearchState>,
                          r: Option<seq<Event>>)
  {
    ticks <= budget && |expanded| <= ticks &&
    (ticks == 0 ==> queue == [SearchState(init, [])] && visited == {} && expanded == [] && r.None?) &&
    (ticks > 0 ==> |expanded| > 0 && expanded[0] == SearchState(init, [])) &&
    (r.None? ==> Search(g, target, queue, visited, budget - ticks) ==
                 Search(g, target, [SearchState(init, [])], {}, budget)) &&
    (r.Some? ==> r == Search(g, target, [SearchState(init, [])], {}, budget))
  }

  /**
   * `bfs(graph, initial_pals, target_pal, time_limit)`. The wall-clock test
   * `time.time() - start_time > time_limit`, made before every `popleft`,
   * is replaced by a count of loop iterations: `budget` checks pass, the
   * next one fails. Running out gives the same `None` as an exhausted
   * queue. The test and the early `return` of a found path are folded into
   * the loop guard. The ghost `expanded` lists, in order, the states whose
   * canonical form was added to `visited` and that were expanded.
   */
  method Bfs(g: Graph, init: seq<Pal>, target: Pal, budget: nat)
    returns (r: Option<seq<Event>>, ghost expanded: seq<SearchState>)
    ensures r == Search(g, target, [SearchState(init, [])], {}, budget)
    ensures |expanded| <= budget
    ensures budget > 0 ==> |expanded| > 0 && expanded[0] == SearchState(init, [])
    ensures Explored(g, init, expanded)
    ensures Outcome(g, init, target, r, expanded)
    ensures r.Some? ==> Solution(g, init, target, r.value)
    ensures budget > 0 && Producible(g, init, target) ==> r.Some? && |r.value| == 1
    ensures Stuck(g, init) || g == map[] ==> r.None?
  {
    var queue := [SearchState(init, [])];
    var visited: set<seq<Pal>> := {};
    var ticks := 0;
    expanded := [];
    r := None;
    while queue != [] && r.None? && ticks < budget
      invariant BfsLoop(g, init, target, budget, ticks, queue, visited, expanded, r)
      invariant Searching(g, init, target, queue, visited, expanded)
      invariant Outcome(g, init, target, r, expanded)
      decreases budget - ticks
    {
      r, queue, visited, expanded := Tick(g, init, target, budget, ticks, queue, visited, expanded);
      ticks := ticks + 1;
    }
    BfsEnd(g, init, target, budget, ticks, queue, visited, expanded, r);
  }

  /** One pass of the `bfs` loop whose time check passed: `Visit`, with
      the loop invariant kept. */
  method Tick(g: Graph, init: seq<Pal>, target: Pal, budget: nat, ticks: nat,
              queue: seq<SearchState>, visited: set<seq<Pal>>, ghost expanded: seq<SearchState>)
    returns (found: Option<seq<Event>>, queue': seq<SearchState>, visited': set<seq<Pal>>,
             ghost expanded': seq<SearchState>)
    requires BfsLoop(g, init, target, budget, ticks, queue, visited, expanded, None)
    requires Searching(g, init, target, queue, visited, expanded) && Outcome(g, init, target, None, expanded)
    requires queue != [] && ticks < budget
    ensures BfsLoop(g, init, target, budget, ticks + 1, queue', visited', expanded', found)
    ensures Searching(g, init, target, queue', visited', expanded') && Outcome(g, init, target, found, expanded')
  {
    found, queue', visited', expanded' := Visit(g, init, target, queue, visited, expanded);
    BfsTick(g, init, target, budget, ticks, queue, visited, expanded, found, queue', visited', expanded');
  }

  /** An iteration of the loop body keeps the loop invariant. */
  lemma BfsTick(g: Graph, init: seq<Pal>, target: Pal, budget: nat, ticks: nat,
                queue: seq<SearchState>, visited: set<seq<Pal>>, expanded: seq<SearchState>,
                found: Option<seq<Event>>, queue': seq<SearchState>, visited': set<seq<Pal>>,
                expanded': seq<SearchState>)
    requires BfsLoop(g, init, target, budget, ticks, queue, visited, expanded, None)
    requires queue != [] && ticks < budget
    requires Canon(queue[0].pals) in visited ==>
      found == None && queue' == queue[1..] && visited' == visited && expanded' == expanded
    requires Canon(queue[0].pals) !in visited ==>
      visited' == visited + {Canon(queue[0].pals)} && expanded' == expanded + [queue[0]] &&
      Expands(queue[0], target, Moves(g, queue[0].pals), queue[1..], found, queue')
    requires expanded == [] ==> expanded' == [queue[0]]
    ensures BfsLoop(g, init, target, budget, ticks + 1, queue', visited', expanded', found)
  {
    SearchStep(g, target, queue, visited, budget - ticks, found, queue', visited');
  }

  /** The loop invariant at exit gives the contract of `Bfs`. */
  lemma BfsEnd(g: Graph, init: seq<Pal>, target: Pal, budget: nat, ticks: nat,
               queue: seq<SearchState>, visited: set<seq<Pal>>, expanded: seq<SearchState>,
               r: Option<seq<Event>>)
    requires BfsLoop(g, init, target, budget, ticks, queue, visited, expanded, r)
    requires Searching(g, init, target, queue, visited, expanded) && Outcome(g, init, target, r, expanded)
    requires queue == [] || r.Some? || ticks == budget
    ensures r == Search(g, target, [SearchState(init, [])], {}, budget)
    ensures |expanded| <= budget
    ensures budget > 0 ==> |expanded| > 0 && expanded[0] == SearchState(init, [])
    ensures Explored(g, init, expanded)
    ensures Outcome(g, init, target, r, expanded)
    ensures r.Some? ==> Solution(g, init, target, r.value)
    ensures budget > 0 && Producible(g, init, target) ==> r.Some? && |r.value| == 1
    ensures Stuck(g, init) || g == map[] ==> r.None?
  {
    if budget > 0 {
      BfsOutcome(g, init, target, r, expanded);
    }
  }

  /** One iteration of the loop moves `Search` one step: a skipped or
      fruitless head leaves the same answer to the rest of the queue, and a
      path found is the answer. */
  lemma SearchStep(g: Graph, target: Pal, queue: seq<SearchState>, visited: set<seq<Pal>>, fuel: nat,
                   found: Option<seq<Event>>, queue': seq<SearchState>, visited': set<seq<Pal>>)
    requires queue != [] && fuel > 0
    requires Canon(queue[0].pals) in visited ==> found == None && queue' == queue[1..] && visited' == visited
    requires Canon(queue[0].pals) !in visited ==>
      visited' == visited + {Canon(queue[0].pals)} &&
      Expands(queue[0], target, Moves(g, queue[0].pals), queue[1..], found, queue')
    ensures found.None? ==> Search(g, target, queue', visited', fuel - 1) == Search(g, target, queue, visited, fuel)
    ensures found.Some? ==> found == Search(g, target, queue, visited, fuel)
  {
    var es := Moves(g, queue[0].pals);
    assert es[..|es|] == es;
  }

  /**
   * What follows for any outcome that meets the contract of `Bfs` with a
   * positive budget: a found path is deeper than every expanded state; a
   * target breedable from the start is found in one event; a start with no
   * breedable pair, and in particular an empty graph, gives `None`.
   */
  lemma BfsOutcome(g: Graph, init: seq<Pal>, target: Pal, r: Option<seq<Event>>, expanded: seq<SearchState>)
    requires 0 < |expanded| && expanded[0] == SearchState(init, [])
    requires Explored(g, init, expanded)
    requires Outcome(g, init, target, r, expanded)
    ensures r.Some? ==> forall x :: 0 <= x < |expanded| ==> |expanded[x].path| < |r.value|
    ensures Producible(g, init, target) ==> r.Some? && |r.value| == 1
    ensures Stuck(g, init) || g == map[] ==> r.None?
  {
    if r.Some? {
      NonEmptyPathNeedsRule(g, init, r.value);
      if |expanded| > 1 {
        assert expanded[..|expanded| - 1][0] == expanded[0];
      }
    }
  }
}
