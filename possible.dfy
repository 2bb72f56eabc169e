/**
 * `possible(initial_pals, graph)`, the second search of `bfs_search.py`: the
 * children breedable from the starting Pals, found by a FIFO search that
 * turns each newly seen child into one new state.
 */
module PossibleSearch {
  import opened Canonical
  import opened BreedingGraph
  import opened BfsSearch
  import opened PossibleMoves

  /** An element of `visited`. It starts as `set(tuple(initial_pals))`, a set
      of single names; later it receives sorted tuples. */
  datatype Key = Name(pal: Pal) | State(pals: seq<Pal>)

  /** Every result any rule of the graph can produce. */
  ghost function AllResults(g: Graph): set<Pal>
  {
    set p, rule | p in g && rule in g[p] :: rule.result
  }

  /** `s` is the start list with children appended one at a time, each bred
      by a pair `i < j` of the list before it. */
  ghost predicate Derivation(g: Graph, init: seq<Pal>, s: seq<Pal>)
    decreases |s|
  {
    s == init ||
    (|s| > |init| && Derivation(g, init, s[..|s| - 1]) && Breeds(g, s[..|s| - 1], s[|s| - 1]))
  }

  /** The sorted tuples of the given states, as `visited` holds them. */
  ghost function StateKeys(states: seq<seq<Pal>>): set<Key>
  {
    if states == [] then {} else StateKeys(states[..|states| - 1]) + {State(Canon(states[|states| - 1]))}
  }

  lemma {:induction false} StateKeysHas(states: seq<seq<Pal>>, x: nat)
    requires x < |states|
    ensures State(Canon(states[x])) in StateKeys(states)
  {
    if x < |states| - 1 {
      StateKeysHas(states[..|states| - 1], x);
    }
  }

  lemma {:induction false} StateKeysIn(states: seq<seq<Pal>>, k: Key)
    requires k in StateKeys(states)
    ensures exists y :: 0 <= y < |states| && k == State(Canon(states[y]))
  {
    var n := |states| - 1;
    if k != State(Canon(states[n])) {
      StateKeysIn(states[..n], k);
      var y :| 0 <= y < n && k == State(Canon(states[..n][y]));
      assert states[..n][y] == states[y];
    }
  }

  /** What `visited` holds once the listed states were enqueued: the start
      names and the sorted tuples of the states after the first. */
  ghost function Visited(init: seq<Pal>, all: seq<seq<Pal>>): set<Key>
    requires all != []
  {
    NameKeys(init) + StateKeys(all[1..])
  }

  /** The initial content of `visited`. */
  function NameKeys(init: seq<Pal>): (keys: set<Key>)
    ensures forall p :: Name(p) in keys <==> p in init
    ensures forall k :: k in keys ==> k.Name?
  {
    set p | p in init :: Name(p)
  }

  /** Every listed state is a derivation from the start. */
  ghost predicate AllDerived(g: Graph, init: seq<Pal>, all: seq<seq<Pal>>)
  {
    forall x :: 0 <= x < |all| ==> Derivation(g, init, all[x])
  }

  /** The states after the first are pairwise different multisets. */
  ghost predicate Distinct(all: seq<seq<Pal>>)
  {
    forall x, y :: 1 <= x < y < |all| ==> Canon(all[x]) != Canon(all[y])
  }

  /** A Pal not yet found as a child occurs in every listed state exactly
      as often as in the start list. */
  ghost predicate Unbred(init: seq<Pal>, all: seq<seq<Pal>>, children: set<Pal>)
  {
    forall x, c :: 0 <= x < |all| && c !in children ==> multiset(all[x])[c] == multiset(init)[c]
  }

  /**
   * The bookkeeping of `possible`. `all` lists every state ever enqueued, the
   * start list first: each is a derivation from the start; `visited` holds
   * the start names and the sorted tuples of the later states, which are
   * pairwise different multisets; each later state was enqueued together
   * with exactly one new child; and a Pal not yet found occurs in every
   * state as often as at the start.
   */
  ghost predicate Book(g: Graph, init: seq<Pal>, all: seq<seq<Pal>>, visited: set<Key>, children: set<Pal>)
  {
    all != [] && all[0] == init && AllDerived(g, init, all) &&
    visited == Visited(init, all) && Distinct(all) &&
    |all| == |children| + 1 && children <= AllResults(g) && Unbred(init, all, children)
  }

  lemma BreedsResult(g: Graph, s: seq<Pal>, c: Pal)
    requires Breeds(g, s, c)
    ensures c in AllResults(g)
  {
    var a, b :| a < b && Yields(g, s, a, b, c);
    assert s[a] in g;
  }

  lemma StateKeysAppend(states: seq<seq<Pal>>, s: seq<Pal>)
    ensures StateKeys(states + [s]) == StateKeys(states) + {State(Canon(s))}
  {
    assert (states + [s])[..|states|] == states;
  }

  /** A child bred from a state is a derivation step. */
  lemma DerivationStep(g: Graph, init: seq<Pal>, s: seq<Pal>, c: Pal)
    requires Derivation(g, init, s) && Breeds(g, s, c)
    ensures Derivation(g, init, s + [c])
  {
    assert |init| <= |s|;
    assert (s + [c])[..|s|] == s;
  }

  lemma AllDerivedStep(g: Graph, init: seq<Pal>, all: seq<seq<Pal>>, s: seq<Pal>)
    requires AllDerived(g, init, all) && Derivation(g, init, s)
    ensures AllDerived(g, init, all + [s])
  {
    assert forall x :: 0 <= x < |all| ==> (all + [s])[x] == all[x];
  }

  lemma DistinctStep(all: seq<seq<Pal>>, s: seq<Pal>)
    requires all != [] && Distinct(all)
    requires State(Canon(s)) !in StateKeys(all[1..])
    ensures Distinct(all + [s])
  {
    forall x | 1 <= x < |all|
      ensures Canon(all[x]) != Canon(s)
    {
      assert all[1..][x - 1] == all[x];
      StateKeysHas(all[1..], x - 1);
    }
    assert forall x :: 0 <= x < |all| ==> (all + [s])[x] == all[x];
  }

  lemma UnbredStep(init: seq<Pal>, all: seq<seq<Pal>>, children: set<Pal>, ci: nat, c: Pal)
    requires Unbred(init, all, children) && ci < |all|
    ensures Unbred(init, all + [all[ci] + [c]], children + {c})
  {
    forall x, d | 0 <= x < |all| + 1 && d !in children + {c}
      ensures multiset((all + [all[ci] + [c]])[x])[d] == multiset(init)[d]
    {
      if x == |all| {
        assert multiset(all[ci] + [c]) == multiset(all[ci]) + multiset{c};
      } else {
        assert (all + [all[ci] + [c]])[x] == all[x];
      }
    }
  }

  /**
   * The grown list of a child not found before is a new multiset: the child
   * occurs in it once more than at the start, and as often as at the start
   * in every listed state. So the `visited` test of `possible` always passes.
   */
  lemma FreshState(init: seq<Pal>, all: seq<seq<Pal>>, visited: set<Key>, children: set<Pal>, ci: nat, c: Pal)
    requires all != [] && visited == Visited(init, all) && Unbred(init, all, children)
    requires ci < |all| && c !in children
    ensures State(Canon(all[ci] + [c])) !in visited
  {
    var s := all[ci] + [c];
    var k := State(Canon(s));
    assert k !in NameKeys(init);
    if k in StateKeys(all[1..]) {
      StateKeysIn(all[1..], k);
      assert false;
    }
  }

  lemma CountAdd(children: set<Pal>, c: Pal)
    requires c !in children
    ensures |children + {c}| == |children| + 1
  {
  }

  /** The sorted tuples after the start list, with one more state enqueued. */
  lemma StateKeysTail(init: seq<Pal>, all: seq<seq<Pal>>, s: seq<Pal>)
    requires all != []
    ensures (all + [s])[0] == all[0]
    ensures Visited(init, all + [s]) == Visited(init, all) + {State(Canon(s))}
  {
    assert (all + [s])[1..] == all[1..] + [s];
    StateKeysAppend(all[1..], s);
  }

  /** Recording a new child and enqueueing the state with it appended keeps
      the bookkeeping. */
  lemma BookEnqueue(g: Graph, init: seq<Pal>, all: seq<seq<Pal>>, visited: set<Key>, children: set<Pal>,
                    ci: nat, c: Pal)
    requires Book(g, init, all, visited, children)
    requires ci < |all| && Breeds(g, all[ci], c) && c !in children
    ensures State(Canon(all[ci] + [c])) !in visited
    ensures Book(g, init, all + [all[ci] + [c]], visited + {State(Canon(all[ci] + [c]))}, children + {c})
  {
    var s := all[ci] + [c];
    FreshState(init, all, visited, children, ci, c);
    BreedsResult(g, all[ci], c);
    CountAdd(children, c);
    DerivationStep(g, init, all[ci], c);
    AllDerivedStep(g, init, all, s);
    DistinctStep(all, s);
    StateKeysTail(init, all, s);
    UnbredStep(init, all, children, ci, c);
  }

  /** The children of `es` not in `known`, each at its first occurrence, in
      the order of `es`. */
  ghost function Fresh(known: set<Pal>, es: seq<Event>): seq<Pal>
    decreases |es|
  {
    if es == [] then []
    else if es[0].result in known then Fresh(known, es[1..])
    else [es[0].result] + Fresh(known + {es[0].result}, es[1..])
  }

  lemma {:induction false} FreshAppend(known: set<Pal>, a: seq<Event>, b: seq<Event>)
    ensures Fresh(known, a + b) == Fresh(known, a) + Fresh(known + ResultSet(a), b)
    decreases |a|
  {
    if a == [] {
      assert a + b == b && known + ResultSet(a) == known;
    } else {
      var r := a[0].result;
      assert (a + b)[0] == a[0] && (a + b)[1..] == a[1..] + b;
      assert ResultSet(a) == {r} + ResultSet(a[1..]);
      if r in known {
        FreshAppend(known, a[1..], b);
        assert known + ResultSet(a) == known + ResultSet(a[1..]);
      } else {
        FreshAppend(known + {r}, a[1..], b);
        assert known + ResultSet(a) == known + {r} + ResultSet(a[1..]);
      }
    }
  }

  /** The states `current_pals + [new_offspring]` appended for the fresh
      children `cs`. */
  function Grow(cur: seq<Pal>, cs: seq<Pal>): (r: seq<seq<Pal>>)
    ensures |r| == |cs|
  {
    if cs == [] then [] else [cur + [cs[0]]] + Grow(cur, cs[1..])
  }

  lemma {:induction false} GrowAppend(cur: seq<Pal>, a: seq<Pal>, b: seq<Pal>)
    ensures Grow(cur, a + b) == Grow(cur, a) + Grow(cur, b)
  {
    if a == [] {
      assert a + b == b;
    } else {
      assert (a + b)[0] == a[0] && (a + b)[1..] == a[1..] + b;
      GrowAppend(cur, a[1..], b);
    }
  }

  /**
   * Trying the events `es` from `cur`, in order, records every child they
   * breed and, for each child not found before, appends the grown list to
   * both the queue and the ghost list `all` of enqueued states.
   */
  ghost predicate Discovers(cur: seq<Pal>, es: seq<Event>, children: set<Pal>, all: seq<seq<Pal>>,
                            queue: seq<seq<Pal>>, children': set<Pal>, all': seq<seq<Pal>>, queue': seq<seq<Pal>>)
  {
    var grown := Grow(cur, Fresh(children, es));
    children' == children + ResultSet(es) && all' == all + grown && queue' == queue + grown
  }

  /** What the search has gathered so far: the children found, the ghost
      list of enqueued states and the queue. */
  datatype Gathered = Gathered(children: set<Pal>, all: seq<seq<Pal>>, queue: seq<seq<Pal>>)

  /** Trying one event from `cur`: a child not found before is recorded and
      `cur` grown by it is enqueued. */
  function Try(cur: seq<Pal>, e: Event, st: Gathered): Gathered
  {
    if e.result in st.children then st
    else Gathered(st.children + {e.result}, st.all + [cur + [e.result]], st.queue + [cur + [e.result]])
  }

  /** Trying the events `es` from `cur` one after the other. */
  function Run(cur: seq<Pal>, es: seq<Event>, st: Gathered): Gathered
    decreases |es|
  {
    if es == [] then st else Try(cur, es[|es| - 1], Run(cur, es[..|es| - 1], st))
  }

  /** Trying events one by one gathers exactly what `Discovers` describes:
      all their children, and one grown list per child new at its first
      occurrence, in event order. */
  lemma {:induction false} RunDiscovers(cur: seq<Pal>, es: seq<Event>, st: Gathered)
    ensures var r := Run(cur, es, st);
      Discovers(cur, es, st.children, st.all, st.queue, r.children, r.all, r.queue)
    decreases |es|
  {
    if es == [] {
      assert Grow(cur, []) == [];
    } else {
      var p := es[..|es| - 1];
      var e := es[|es| - 1];
      assert p + [e] == es;
      RunDiscovers(cur, p, st);
      var known := st.children + ResultSet(p);
      ResultSetAppend(p, [e]);
      assert ResultSet([e]) == {e.result} by {
        assert [e][1..] == [];
      }
      FreshAppend(st.children, p, [e]);
      assert Fresh(known, [e]) == (if e.result in known then [] else [e.result]) by {
        assert [e][1..] == [];
      }
      GrowAppend(cur, Fresh(st.children, p), Fresh(known, [e]));
      assert Grow(cur, [e.result]) == [cur + [e.result]] by {
        assert [e.result][1..] == [];
      }
    }
  }

  /** The `j` loop of `possible` as a fold: the rule loops of the pairs
      `(i, i + 1)` to `(i, m - 1)`, one after the other. */
  function RunFrom(g: Graph, cur: seq<Pal>, i: nat, m: nat, st: Gathered): Gathered
    requires i < |cur| && m <= |cur|
  {
    if m <= i + 1 then st
    else Run(cur, PairEvents(cur, i, m - 1, RulesOf(g, cur[i])), RunFrom(g, cur, i, m - 1, st))
  }

  /** The `i` loop of `possible` as a fold: the `j` loops of the first
      positions below `m`, one after the other. */
  function RunUpper(g: Graph, cur: seq<Pal>, m: nat, st: Gathered): Gathered
    requires m <= |cur|
  {
    if m == 0 then st else RunFrom(g, cur, m - 1, |cur|, RunUpper(g, cur, m - 1, st))
  }

  /** Discovering with `a` and then with `b` is discovering with `a + b`. */
  lemma DiscoversThen(cur: seq<Pal>, a: seq<Event>, b: seq<Event>,
                      c0: set<Pal>, a0: seq<seq<Pal>>, q0: seq<seq<Pal>>,
                      c1: set<Pal>, a1: seq<seq<Pal>>, q1: seq<seq<Pal>>,
                      c2: set<Pal>, a2: seq<seq<Pal>>, q2: seq<seq<Pal>>)
    requires Discovers(cur, a, c0, a0, q0, c1, a1, q1) && Discovers(cur, b, c1, a1, q1, c2, a2, q2)
    ensures Discovers(cur, a + b, c0, a0, q0, c2, a2, q2)
  {
    ResultSetAppend(a, b);
    FreshAppend(c0, a, b);
    GrowAppend(cur, Fresh(c0, a), Fresh(c1, b));
  }

  /** The `j` loop gathers what `Discovers` describes for the events of
      `LaterEvents`. */
  lemma {:induction false} FromDiscovers(g: Graph, cur: seq<Pal>, i: nat, m: nat, st: Gathered)
    requires i < |cur| && m <= |cur|
    ensures var r := RunFrom(g, cur, i, m, st);
      Discovers(cur, LaterEvents(g, cur, i, m), st.children, st.all, st.queue, r.children, r.all, r.queue)
  {
    if m <= i + 1 {
      assert Grow(cur, []) == [];
    } else {
      FromDiscovers(g, cur, i, m - 1, st);
      var mid := RunFrom(g, cur, i, m - 1, st);
      var r := RunFrom(g, cur, i, m, st);
      RunDiscovers(cur, PairEvents(cur, i, m - 1, RulesOf(g, cur[i])), mid);
      DiscoversThen(cur, LaterEvents(g, cur, i, m - 1), PairEvents(cur, i, m - 1, RulesOf(g, cur[i])),
                    st.children, st.all, st.queue, mid.children, mid.all, mid.queue, r.children, r.all, r.queue);
    }
  }

  /** The `i` loop gathers what `Discovers` describes for the events of
      `UpperEvents`. */
  lemma {:induction false} UpperDiscovers(g: Graph, cur: seq<Pal>, m: nat, st: Gathered)
    requires m <= |cur|
    ensures var r := RunUpper(g, cur, m, st);
      Discovers(cur, UpperEvents(g, cur, m), st.children, st.all, st.queue, r.children, r.all, r.queue)
  {
    if m == 0 {
      assert Grow(cur, []) == [];
    } else {
      UpperDiscovers(g, cur, m - 1, st);
      var mid := RunUpper(g, cur, m - 1, st);
      var r := RunUpper(g, cur, m, st);
      var earlier := UpperEvents(g, cur, m - 1);
      var later := LaterEvents(g, cur, m - 1, |cur|);
      FromDiscovers(g, cur, m - 1, |cur|, mid);
      DiscoversThen(cur, earlier, later,
                    st.children, st.all, st.queue, mid.children, mid.all, mid.queue, r.children, r.all, r.queue);
      assert UpperEvents(g, cur, m) == earlier + later;
    }
  }

  /**
   * One rule `offspring` of `graph[pal1]` for the pair `i < j` of the
   * dequeued state `all[ci]`. The guard that compares a rule with a name
   * and looks the rule up in the list it came from never skips and is left
   * out. A rule whose partner is the Pal at `j` gives a child; a child not
   * found before is recorded, and the state with it appended is enqueued,
   * its sorted tuple being always new to `visited`.
   */
  method Offspring(g: Graph, ghost init: seq<Pal>, ghost all: seq<seq<Pal>>, ghost ci: nat, cur: seq<Pal>,
                   i: nat, j: nat, offspring: Rule, queue: seq<seq<Pal>>, visited: set<Key>, children: set<Pal>)
    returns (ghost all': seq<seq<Pal>>, queue': seq<seq<Pal>>, visited': set<Key>, children': set<Pal>)
    requires ci < |all| && all[ci] == cur && i < j < |cur|
    requires cur[i] in g && offspring in g[cur[i]]
    requires Book(g, init, all, visited, children)
    ensures Book(g, init, all', visited', children')
    ensures cur[j] == offspring.partner && offspring.result !in children ==>
      children' == children + {offspring.result} && all' == all + [cur + [offspring.result]] &&
      queue' == queue + [cur + [offspring.result]] && visited' == visited + {State(Canon(cur + [offspring.result]))}
    ensures cur[j] != offspring.partner || offspring.result in children ==>
      children' == children && all' == all && queue' == queue && visited' == visited
  {
    all', queue', visited', children' := all, queue, visited, children;
    if cur[j] == offspring.partner {
      var child := offspring.result;
      if child !in children {
        assert Yields(g, cur, i, j, child);
        BookEnqueue(g, init, all, visited, children, ci, child);
        children' := children + {child};
        var combination := cur + [child];
        var key := Sort(combination);
        SortIsCanon(combination);
        if State(key) !in visited {
          visited' := visited + {State(key)};
          queue' := queue + [combination];
          all' := all + [combination];
        } else {
          assert false;
        }
      }
    }
  }

  /** One pass of the rule loop extends the events tried by the event of
      that rule, if its partner is the Pal at `j`. */
  lemma RuleStep(g: Graph, cur: seq<Pal>, i: nat, j: nat, rules: seq<Rule>, k: nat, st: Gathered,
                 c1: set<Pal>, a1: seq<seq<Pal>>, q1: seq<seq<Pal>>,
                 c2: set<Pal>, a2: seq<seq<Pal>>, q2: seq<seq<Pal>>)
    requires i < j < |cur| && k < |rules|
    requires Gathered(c1, a1, q1) == Run(cur, PairEvents(cur, i, j, rules[..k]), st)
    requires cur[j] == rules[k].partner && rules[k].result !in c1 ==>
      c2 == c1 + {rules[k].result} && a2 == a1 + [cur + [rules[k].result]] && q2 == q1 + [cur + [rules[k].result]]
    requires cur[j] != rules[k].partner || rules[k].result in c1 ==> c2 == c1 && a2 == a1 && q2 == q1
    ensures Gathered(c2, a2, q2) == Run(cur, PairEvents(cur, i, j, rules[..k + 1]), st)
  {
    assert rules[..k + 1][..k] == rules[..k];
    var p := PairEvents(cur, i, j, rules[..k]);
    if cur[j] == rules[k].partner {
      var e := Event(cur[i], cur[j], rules[k].result);
      assert PairEvents(cur, i, j, rules[..k + 1]) == p + [e];
      assert (p + [e])[..|p|] == p;
    } else {
      assert PairEvents(cur, i, j, rules[..k + 1]) == p;
    }
  }

  /** The rule loop of `possible` for the pair `i < j` of `all[ci]`: the
      events of the rules of the Pal at `i` whose partner is the Pal at `j`
      are tried in rule order. */
  method PossiblePair(g: Graph, ghost init: seq<Pal>, ghost all: seq<seq<Pal>>, ghost ci: nat, cur: seq<Pal>,
                      i: nat, j: nat, queue: seq<seq<Pal>>, visited: set<Key>, children: set<Pal>)
    returns (ghost all': seq<seq<Pal>>, queue': seq<seq<Pal>>, visited': set<Key>, children': set<Pal>)
    requires ci < |all| && all[ci] == cur && i < j < |cur|
    requires Book(g, init, all, visited, children)
    ensures Book(g, init, all', visited', children')
    ensures Gathered(children', all', queue') ==
      Run(cur, PairEvents(cur, i, j, RulesOf(g, cur[i])), Gathered(children, all, queue))
    ensures all <= all'
  {
    all', queue', visited', children' := all, queue, visited, children;
    ghost var st := Gathered(children, all, queue);
    if cur[i] in g {
      var rules := g[cur[i]];
      assert rules[..0] == [];
      var k := 0;
      while k < |rules|
        invariant k <= |rules|
        invariant all <= all'
        invariant Book(g, init, all', visited', children')
        invariant Gathered(children', all', queue') == Run(cur, PairEvents(cur, i, j, rules[..k]), st)
      {
        ghost var (c1, a1, q1) := (children', all', queue');
        all', queue', visited', children' := Offspring(g, init, all', ci, cur, i, j, rules[k], queue', visited', children');
        RuleStep(g, cur, i, j, rules, k, st, c1, a1, q1, children', all', queue');
        k := k + 1;
      }
      assert rules[..k] == rules;
    }
  }

  /** The `j` loop of `possible` for position `i` of `all[ci]`: every later
      position is tried as the partner, in order. */
  method PossibleFrom(g: Graph, ghost init: seq<Pal>, ghost all: seq<seq<Pal>>, ghost ci: nat, cur: seq<Pal>,
                      i: nat, queue: seq<seq<Pal>>, visited: set<Key>, children: set<Pal>)
    returns (ghost all': seq<seq<Pal>>, queue': seq<seq<Pal>>, visited': set<Key>, children': set<Pal>)
    requires ci < |all| && all[ci] == cur && i < |cur|
    requires Book(g, init, all, visited, children)
    ensures Book(g, init, all', visited', children')
    ensures Gathered(children', all', queue') == RunFrom(g, cur, i, |cur|, Gathered(children, all, queue))
    ensures all <= all'
  {
    all', queue', visited', children' := all, queue, visited, children;
    ghost var st := Gathered(children, all, queue);
    var j := i + 1;
    while j < |cur|
      invariant i < j <= |cur|
      invariant all <= all'
      invariant Book(g, init, all', visited', children')
      invariant Gathered(children', all', queue') == RunFrom(g, cur, i, j, st)
    {
      all', queue', visited', children' := PossiblePair(g, init, all', ci, cur, i, j, queue', visited', children');
      j := j + 1;
    }
    assert j == |cur|;
  }

  /** The `i` loop of `possible` over the dequeued state `all[ci]`: the
      events of `Offers` are tried in order, and afterwards every child the
      state breeds has been found. */
  method PossibleExpand(g: Graph, ghost init: seq<Pal>, ghost all: seq<seq<Pal>>, ghost ci: nat, cur: seq<Pal>,
                        queue: seq<seq<Pal>>, visited: set<Key>, children: set<Pal>)
    returns (ghost all': seq<seq<Pal>>, queue': seq<seq<Pal>>, visited': set<Key>, children': set<Pal>)
    requires ci < |all| && all[ci] == cur
    requires Book(g, init, all, visited, children)
    ensures Book(g, init, all', visited', children')
    ensures Gathered(children', all', queue') == RunUpper(g, cur, |cur|, Gathered(children, all, queue))
    ensures all <= all'
    ensures forall c :: c in children' <==> c in children || Breeds(g, cur, c)
  {
    all', queue', visited', children' := all, queue, visited, children;
    ghost var st := Gathered(children, all, queue);
    var i := 0;
    while i < |cur|
      invariant i <= |cur|
      invariant all <= all'
      invariant Book(g, init, all', visited', children')
      invariant Gathered(children', all', queue') == RunUpper(g, cur, i, st)
    {
      all', queue', visited', children' := PossibleFrom(g, init, all', ci, cur, i, queue', visited', children');
      i := i + 1;
    }
    assert i == |cur|;
    ExpandDiscovers(g, cur, st);
  }

  /** After the `i` loop, the children found are the earlier ones and
      exactly the children the list breeds; the grown lists of the new ones
      were enqueued in the order their events were tried. */
  lemma ExpandDiscovers(g: Graph, cur: seq<Pal>, st: Gathered)
    ensures var r := RunUpper(g, cur, |cur|, st);
      Discovers(cur, Offers(g, cur), st.children, st.all, st.queue, r.children, r.all, r.queue)
    ensures forall c :: c in RunUpper(g, cur, |cur|, st).children <==> c in st.children || Breeds(g, cur, c)
  {
    UpperDiscovers(g, cur, |cur|, st);
    forall c
      ensures c in RunUpper(g, cur, |cur|, st).children <==> c in st.children || Breeds(g, cur, c)
    {
      OffersBreeds(g, cur, c);
    }
  }

  /** The children found after expanding the first `n` states of `all`. */
  ghost function Known(g: Graph, all: seq<seq<Pal>>, n: nat): set<Pal>
    requires n <= |all|
  {
    if n == 0 then {} else Known(g, all, n - 1) + ResultSet(Offers(g, all[n - 1]))
  }

  /** The states enqueued while expanding the first `n` states of `all`, in
      order: each expanded state grown by each child new at that point. */
  ghost function Spawned(g: Graph, all: seq<seq<Pal>>, n: nat): seq<seq<Pal>>
    requires n <= |all|
  {
    if n == 0 then []
    else Spawned(g, all, n - 1) + Grow(all[n - 1], Fresh(Known(g, all, n - 1), Offers(g, all[n - 1])))
  }

  /** `Known` and `Spawned` depend only on the states already expanded. */
  lemma {:induction false} KnownPrefix(g: Graph, a: seq<seq<Pal>>, b: seq<seq<Pal>>, n: nat)
    requires n <= |a| && n <= |b| && a[..n] == b[..n]
    ensures Known(g, a, n) == Known(g, b, n) && Spawned(g, a, n) == Spawned(g, b, n)
  {
    if n > 0 {
      assert a[..n - 1] == a[..n][..n - 1] && b[..n - 1] == b[..n][..n - 1];
      assert a[n - 1] == a[..n][n - 1] && b[n - 1] == b[..n][n - 1];
      KnownPrefix(g, a, b, n - 1);
    }
  }

  /** A child is known after `n` expansions exactly when one of the first
      `n` states breeds it. */
  lemma {:induction false} KnownBreeds(g: Graph, all: seq<seq<Pal>>, n: nat, c: Pal)
    requires n <= |all|
    ensures c in Known(g, all, n) <==> exists x :: 0 <= x < n && Breeds(g, all[x], c)
  {
    if n > 0 {
      KnownBreeds(g, all, n - 1, c);
      OffersBreeds(g, all[n - 1], c);
    }
  }

  /**
   * One iteration of the `while queue` loop of `possible`: `popleft` the
   * state `all[n]` and try its events in order. Afterwards `children` and
   * `all` are what expanding one more state defines, the queue is again the
   * states after it, and twice the number of children still unfound plus
   * the queue length has dropped.
   */
  method PossibleVisit(g: Graph, ghost init: seq<Pal>, ghost all: seq<seq<Pal>>, ghost n: nat,
                       queue: seq<seq<Pal>>, visited: set<Key>, children: set<Pal>)
    returns (ghost all': seq<seq<Pal>>, queue': seq<seq<Pal>>, visited': set<Key>, children': set<Pal>)
    requires queue != [] && n + |queue| == |all| && queue == all[n..]
    requires Book(g, init, all, visited, children)
    requires children == Known(g, all, n) && all == [init] + Spawned(g, all, n)
    ensures Book(g, init, all', visited', children')
    ensures n + 1 + |queue'| == |all'| && queue' == all'[n + 1..]
    ensures children' == Known(g, all', n + 1) && all' == [init] + Spawned(g, all', n + 1)
    ensures 2 * |AllResults(g) - children'| + |queue'| < 2 * |AllResults(g) - children| + |queue|
  {
    var cur := queue[0];
    var rest := queue[1..];
    all', queue', visited', children' := PossibleExpand(g, init, all, n, cur, rest, visited, children);
    VisitGathers(g, all, n, children, rest, all', children', queue');
    VisitKnown(g, init, all, n, children, rest, all', children', queue');
    DiffCard(AllResults(g), children);
    DiffCard(AllResults(g), children');
  }

  /** Expanding `all[n]` appends the same grown lists to `all` as to the
      queue, so the queue is again the states after `all[n]`. */
  lemma VisitGathers(g: Graph, all: seq<seq<Pal>>, n: nat, children: set<Pal>,
                     queue: seq<seq<Pal>>, all': seq<seq<Pal>>, children': set<Pal>, queue': seq<seq<Pal>>)
    requires n < |all| && queue == all[n + 1..]
    requires Gathered(children', all', queue') == RunUpper(g, all[n], |all[n]|, Gathered(children, all, queue))
    ensures Discovers(all[n], Offers(g, all[n]), children, all, queue, children', all', queue')
    ensures queue' == all'[n + 1..]
  {
    UpperDiscovers(g, all[n], |all[n]|, Gathered(children, all, queue));
    SuffixAppend(all, n + 1, Grow(all[n], Fresh(children, Offers(g, all[n]))));
  }

  /** Expanding `all[n]` keeps `children` and `all` equal to what expanding
      the dequeued states defines. */
  lemma VisitKnown(g: Graph, init: seq<Pal>, all: seq<seq<Pal>>, n: nat, children: set<Pal>,
                   queue: seq<seq<Pal>>, all': seq<seq<Pal>>, children': set<Pal>, queue': seq<seq<Pal>>)
    requires n < |all| && children == Known(g, all, n) && all == [init] + Spawned(g, all, n)
    requires Discovers(all[n], Offers(g, all[n]), children, all, queue, children', all', queue')
    ensures children' == Known(g, all', n + 1) && all' == [init] + Spawned(g, all', n + 1)
  {
    PrefixAppend(all, Grow(all[n], Fresh(children, Offers(g, all[n]))), n);
    KnownPrefix(g, all, all', n);
  }

  /** `Spawned` only ever appends: expanding more states extends it. */
  lemma {:induction false} SpawnedPrefix(g: Graph, a: seq<seq<Pal>>, m: nat, n: nat)
    requires m <= n <= |a|
    ensures Spawned(g, a, m) <= Spawned(g, a, n)
    decreases n
  {
    if m < n {
      SpawnedPrefix(g, a, m, n - 1);
    }
  }

  /** The `k`-th grown list is `cur` with the `k`-th fresh child appended. */
  lemma {:induction false} GrowAt(cur: seq<Pal>, cs: seq<Pal>, k: nat)
    requires k < |cs|
    ensures Grow(cur, cs)[k] == cur + [cs[k]]
  {
    if k > 0 {
      GrowAt(cur, cs[1..], k - 1);
    }
  }

  /** A state spawned while expanding `all[m..n]` is one Pal longer than
      the state among them that spawned it. */
  lemma {:induction false} SpawnedOrigin(g: Graph, a: seq<seq<Pal>>, m: nat, n: nat, j: nat)
    requires m <= n <= |a|
    requires |Spawned(g, a, m)| <= j < |Spawned(g, a, n)|
    ensures exists x :: m <= x < n && |Spawned(g, a, n)[j]| == |a[x]| + 1
    decreases n
  {
    var before := Spawned(g, a, n - 1);
    if j < |before| {
      SpawnedOrigin(g, a, m, n - 1, j);
      assert Spawned(g, a, n)[j] == before[j];
    } else {
      var cs := Fresh(Known(g, a, n - 1), Offers(g, a[n - 1]));
      GrowAt(a[n - 1], cs, j - |before|);
      assert Spawned(g, a, n)[j] == a[n - 1] + [cs[j - |before|]];
    }
  }

  /** If the first `k` expansions spawned fewer than `k` states, the states
      from position `k` on would each be one Pal longer than another state
      from position `k` on, which no finite list allows: by induction on a
      length bound, none of them is at most `bound` long. */
  lemma {:induction false} NoneAtMost(g: Graph, init: seq<Pal>, a: seq<seq<Pal>>, k: nat, bound: nat)
    requires a == [init] + Spawned(g, a, |a|)
    requires 1 <= k < |a| && |Spawned(g, a, k)| < k
    ensures forall m :: k <= m < |a| ==> |a[m]| > bound
    decreases bound
  {
    forall m | k <= m < |a|
      ensures |a[m]| > bound
    {
      assert a[m] == Spawned(g, a, |a|)[m - 1];
      SpawnedOrigin(g, a, k, |a|, m - 1);
      var x :| k <= x < |a| && |a[m]| == |a[x]| + 1;
      if bound > 0 {
        NoneAtMost(g, init, a, k, bound - 1);
      }
    }
  }

  /** In a list of states closed under `Spawned`, the queue is never empty
      before the last state: the first `k` expansions spawn at least `k`
      states. */
  lemma QueueLasts(g: Graph, init: seq<Pal>, a: seq<seq<Pal>>, k: nat)
    requires a == [init] + Spawned(g, a, |a|)
    requires 1 <= k < |a|
    ensures |Spawned(g, a, k)| >= k
  {
    if |Spawned(g, a, k)| < k {
      NoneAtMost(g, init, a, k, |a[k]|);
    }
  }

  /** In a list closed under `Spawned`, the state at position `n` was
      spawned by expanding the states before it. */
  lemma StateAt(g: Graph, init: seq<Pal>, a: seq<seq<Pal>>, n: nat)
    requires a == [init] + Spawned(g, a, |a|)
    requires 1 <= n < |a|
    ensures n - 1 < |Spawned(g, a, n)| && a[n] == Spawned(g, a, n)[n - 1]
  {
    QueueLasts(g, init, a, n);
    SpawnedPrefix(g, a, n, |a|);
  }

  /** Two lists closed under `Spawned` from the same start agree on their
      first `k` states. */
  lemma {:induction false} SpawnedAgree(g: Graph, init: seq<Pal>, a: seq<seq<Pal>>, b: seq<seq<Pal>>, k: nat)
    requires a == [init] + Spawned(g, a, |a|) && b == [init] + Spawned(g, b, |b|)
    requires k <= |a| && k <= |b|
    ensures a[..k] == b[..k]
  {
    if k > 1 {
      var n := k - 1;
      SpawnedAgree(g, init, a, b, n);
      StateAt(g, init, a, n);
      StateAt(g, init, b, n);
      KnownPrefix(g, a, b, n);
      SliceSnoc(a, n);
      SliceSnoc(b, n);
    } else if k == 1 {
      SliceSnoc(a, 0);
      SliceSnoc(b, 0);
    }
  }

  /**
   * The list of states `possible` enqueues is determined by the start and
   * the graph: only one list is the start followed by what expanding all
   * of its states spawns. So the children it reports are determined too.
   */
  lemma SpawnedUnique(g: Graph, init: seq<Pal>, a: seq<seq<Pal>>, b: seq<seq<Pal>>)
    requires a == [init] + Spawned(g, a, |a|) && b == [init] + Spawned(g, b, |b|)
    ensures a == b
    ensures Known(g, a, |a|) == Known(g, b, |b|)
  {
    if |a| < |b| {
      SpawnedAgree(g, init, a, b, |a|);
      KnownPrefix(g, a, b[..|a|], |a|);
      KnownPrefix(g, b, b[..|a|], |a|);
      QueueLasts(g, init, b, |a|);
      assert false;
    } else if |b| < |a| {
      SpawnedAgree(g, init, a, b, |b|);
      KnownPrefix(g, b, a[..|b|], |b|);
      KnownPrefix(g, a, a[..|b|], |b|);
      QueueLasts(g, init, a, |b|);
      assert false;
    } else {
      SpawnedAgree(g, init, a, b, |a|);
      assert a == a[..|a|] && b == b[..|b|];
    }
  }

  /**
   * `possible(initial_pals, graph)`. The ghost `all` lists every state the
   * search enqueued, the start list first; all of them were dequeued and
   * expanded by the time the queue is empty. `all` is the start list
   * followed by `Spawned`, and the result lists `Known`, each child once,
   * in the order `SetToList` picks.
   */
  method Possible(init: seq<Pal>, g: Graph) returns (r: seq<Pal>, ghost all: seq<seq<Pal>>)
    ensures forall x, y :: 0 <= x < y < |r| ==> r[x] != r[y]
    ensures all == [init] + Spawned(g, all, |all|)
    ensures forall c :: c in r <==> c in Known(g, all, |all|)
    ensures forall c :: c in r <==> exists x :: 0 <= x < |all| && Breeds(g, all[x], c)
    ensures forall x :: 0 <= x < |all| ==> Derivation(g, init, all[x])
    ensures forall x, y :: 1 <= x < y < |all| ==> Canon(all[x]) != Canon(all[y])
    ensures |all| == |r| + 1
  {
    var queue := [init];
    var visited := NameKeys(init);
    var children: set<Pal> := {};
    all := [init];
    ghost var done := 0;
    PossibleStart(g, init);
    while queue != []
      invariant done + |queue| == |all| && queue == all[done..]
      invariant Book(g, init, all, visited, children)
      invariant children == Known(g, all, done) && all == [init] + Spawned(g, all, done)
      decreases 2 * |AllResults(g) - children| + |queue|
    {
      all, queue, visited, children := PossibleVisit(g, init, all, done, queue, visited, children);
      done := done + 1;
    }
    assert done == |all|;
    r := SetToList(children);
    PossibleDone(g, init, all, visited, children, r);
  }

  /** With every enqueued state expanded, the children found are exactly
      those bred in some enqueued state. */
  lemma PossibleDone(g: Graph, init: seq<Pal>, all: seq<seq<Pal>>, visited: set<Key>, children: set<Pal>,
                     r: seq<Pal>)
    requires Book(g, init, all, visited, children) && children == Known(g, all, |all|)
    requires forall p :: p in r <==> p in children
    requires |r| == |children|
    ensures forall c :: c in r <==> exists x :: 0 <= x < |all| && Breeds(g, all[x], c)
    ensures forall x :: 0 <= x < |all| ==> Derivation(g, init, all[x])
    ensures forall x, y :: 1 <= x < y < |all| ==> Canon(all[x]) != Canon(all[y])
    ensures |all| == |r| + 1
  {
    forall c
      ensures c in r <==> exists x :: 0 <= x < |all| && Breeds(g, all[x], c)
    {
      KnownBreeds(g, all, |all|, c);
    }
  }

  lemma PossibleStart(g: Graph, init: seq<Pal>)
    ensures Book(g, init, [init], NameKeys(init), {})
  {
    assert [init][1..] == [];
  }

  lemma PrefixAppend(s: seq<seq<Pal>>, t: seq<seq<Pal>>, n: nat)
    requires n < |s|
    ensures (s + t)[..n] == s[..n] && (s + t)[n] == s[n]
  {
  }

  lemma SliceSnoc(s: seq<seq<Pal>>, n: nat)
    requires n < |s|
    ensures s[..n + 1] == s[..n] + [s[n]]
  {
  }

  lemma SuffixAppend(s: seq<seq<Pal>>, n: nat, t: seq<seq<Pal>>)
    requires n <= |s|
    ensures (s + t)[n..] == s[n..] + t
  {
  }

  lemma DiffCard(a: set<Pal>, b: set<Pal>)
    requires b <= a
    ensures |a - b| == |a| - |b|
  {
    assert a == (a - b) + b;
  }

  /** `list(possible_children)`: the members of a set, each once, in an order
      the model does not fix. */
  method SetToList(s: set<Pal>) returns (r: seq<Pal>)
    ensures forall p :: p in r <==> p in s
    ensures forall x, y :: 0 <= x < y < |r| ==> r[x] != r[y]
    ensures |r| == |s|
  {
    r := [];
    var rest := s;
    while rest != {}
      invariant rest <= s
      invariant forall p :: p in r <==> p in s - rest
      invariant forall x, y :: 0 <= x < y < |r| ==> r[x] != r[y]
      invariant |r| + |rest| == |s|
      decreases |rest|
    {
      var p :| p in rest;
      assert p !in r;
      assert |rest - {p}| == |rest| - 1;
      r := r + [p];
      rest := rest - {p};
    }
  }

  /** A reached list that breeds `c` reaches the list with `c` appended,
      one event deeper. */
  lemma ReachedBreeds(g: Graph, init: seq<Pal>, st: SearchState, c: Pal)
    requires Reached(g, init, st) && Breeds(g, st.pals, c)
    ensures exists path: seq<Event> :: |path| == |st.path| + 1 && Reached(g, init, SearchState(st.pals + [c], path))
  {
    var a, b :| a < b && Yields(g, st.pals, a, b, c);
    var e := Event(st.pals[a], st.pals[b], c);
    assert EventOk(g, st.pals, e);
    ReachedStep(g, init, st, e);
    assert |st.path + [e]| == |st.path| + 1;
  }

  /**
   * Every state of `possible` is a state of `bfs`: replaying some legal
   * breeding path from the start list gives exactly that list.
   */
  lemma {:induction false} DerivationHasPath(g: Graph, init: seq<Pal>, s: seq<Pal>)
    requires Derivation(g, init, s)
    ensures exists path: seq<Event> :: |path| == |s| - |init| && Reached(g, init, SearchState(s, path))
    decreases |s|
  {
    if s == init {
      assert Owned(init, []) == init;
      assert Reached(g, init, SearchState(s, []));
    } else {
      var prev := s[..|s| - 1];
      assert prev + [s[|s| - 1]] == s;
      DerivationHasPath(g, init, prev);
      var path :| |path| == |prev| - |init| && Reached(g, init, SearchState(prev, path));
      ReachedBreeds(g, init, SearchState(prev, path), s[|s| - 1]);
    }
  }

  /** A legal path followed by one more legal event ends in that event's result. */
  lemma PathEndsIn(g: Graph, init: seq<Pal>, path: seq<Event>, e: Event)
    requires ValidPath(g, init, path) && EventOk(g, Owned(init, path), e)
    ensures exists full: seq<Event> :: full != [] && ValidPath(g, init, full) && full[|full| - 1].result == e.result
  {
    ValidPathExtend(g, init, path, e);
    var full := path + [e];
    assert full[|full| - 1] == e;
  }

  /**
   * Every child `possible` reports can be bred by a legal path from the
   * start list whose last event produces it.
   */
  lemma ChildHasPath(g: Graph, init: seq<Pal>, s: seq<Pal>, c: Pal)
    requires Derivation(g, init, s) && Breeds(g, s, c)
    ensures exists path: seq<Event> :: path != [] && ValidPath(g, init, path) && path[|path| - 1].result == c
  {
    DerivationHasPath(g, init, s);
    var path :| |path| == |s| - |init| && Reached(g, init, SearchState(s, path));
    var a, b :| a < b && Yields(g, s, a, b, c);
    var e := Event(s[a], s[b], c);
    assert Yields(g, Owned(init, path), a, b, e.result);
    PathEndsIn(g, init, path, e);
  }
}
