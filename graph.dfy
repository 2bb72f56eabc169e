/**
 * The combination graph the searches consume, and what it means for a
 * sequence of breeding events to be a legal path from a starting list of
 * owned Pals.
 */
module BreedingGraph {

  /** A Pal is known only by its name. */
  type Pal = string

  /** One `[partner, result]` entry of `graph[pal]`. */
  datatype Rule = Rule(partner: Pal, result: Pal)

  /** `graph[pal]` lists the rules usable when `pal` is the first parent. */
  type Graph = map<Pal, seq<Rule>>

  /** One breeding event `(pal, other_parent, result)` of a returned path. */
  datatype Event = Event(parent1: Pal, parent2: Pal, result: Pal)

  /** `graph.get(pal, [])`: a Pal without an entry has no rules. */
  function RulesOf(g: Graph, p: Pal): (rules: seq<Rule>)
    ensures p !in g ==> rules == []
    ensures p in g ==> rules == g[p]
  {
    if p in g then g[p] else []
  }

  /**
   * One pass of a rule loop: the rules `rules` of the Pal at position `i`
   * tried against the Pal at position `j` as partner. Each rule whose
   * partner is that Pal gives one event, in rule order.
   */
  function PairEvents(pals: seq<Pal>, i: nat, j: nat, rules: seq<Rule>): (es: seq<Event>)
    requires i < |pals| && j < |pals|
    ensures |es| <= |rules|
    decreases |rules|
  {
    if rules == [] then []
    else
      var last := rules[|rules| - 1];
      PairEvents(pals, i, j, rules[..|rules| - 1]) +
        (if last.partner == pals[j] then [Event(pals[i], pals[j], last.result)] else [])
  }

  /** Every rule of the list whose partner is the Pal at `j` gives its event. */
  lemma {:induction false} PairEventsHas(pals: seq<Pal>, i: nat, j: nat, rules: seq<Rule>, c: Pal)
    requires i < |pals| && j < |pals| && Rule(pals[j], c) in rules
    ensures Event(pals[i], pals[j], c) in PairEvents(pals, i, j, rules)
    decreases |rules|
  {
    var n := |rules| - 1;
    if rules[n] != Rule(pals[j], c) {
      assert rules == rules[..n] + [rules[n]];
      PairEventsHas(pals, i, j, rules[..n], c);
    }
  }

  /** Every event of the pass comes from a rule of the list whose partner
      is the Pal at `j`. */
  lemma {:induction false} PairEventsSound(pals: seq<Pal>, i: nat, j: nat, rules: seq<Rule>, e: Event)
    requires i < |pals| && j < |pals| && e in PairEvents(pals, i, j, rules)
    ensures e.parent1 == pals[i] && e.parent2 == pals[j] && Rule(pals[j], e.result) in rules
    decreases |rules|
  {
    var n := |rules| - 1;
    if e in PairEvents(pals, i, j, rules[..n]) {
      PairEventsSound(pals, i, j, rules[..n], e);
      assert rules[..n] <= rules;
    }
  }

  /** A pass over a prefix of the rules gives a prefix of the events. */
  lemma {:induction false} PairEventsPrefix(pals: seq<Pal>, i: nat, j: nat, rules: seq<Rule>, k: nat)
    requires i < |pals| && j < |pals| && k <= |rules|
    ensures PairEvents(pals, i, j, rules[..k]) <= PairEvents(pals, i, j, rules)
    decreases |rules|
  {
    if k < |rules| {
      var n := |rules| - 1;
      assert rules[..n][..k] == rules[..k];
      PairEventsPrefix(pals, i, j, rules[..n], k);
    } else {
      assert rules[..k] == rules;
    }
  }

  /** `[parent2, result]` occurs in `graph[parent1]`. */
  predicate IsRule(g: Graph, e: Event)
  {
    Rule(e.parent2, e.result) in RulesOf(g, e.parent1)
  }

  /** Positions `a != b` of `pals` hold a first parent and a partner whose
      rule yields `child`. */
  predicate Yields(g: Graph, pals: seq<Pal>, a: int, b: int, child: Pal)
  {
    0 <= a < |pals| && 0 <= b < |pals| && a != b &&
    Rule(pals[b], child) in RulesOf(g, pals[a])
  }

  /** `e` is a rule whose parents sit at two different positions of `pals`;
      the two parent values may be equal. */
  ghost predicate EventOk(g: Graph, pals: seq<Pal>, e: Event)
  {
    exists a, b :: Yields(g, pals, a, b, e.result) && pals[a] == e.parent1 && pals[b] == e.parent2
  }

  /** The results of a path, in order. */
  function Results(path: seq<Event>): seq<Pal>
  {
    seq(|path|, k requires 0 <= k < |path| => path[k].result)
  }

  /** The Pals owned after replaying `path` from `init`: every result is
      appended and no parent is ever removed. */
  function Owned(init: seq<Pal>, path: seq<Event>): seq<Pal>
  {
    init + Results(path)
  }

  /** The owned list starts with the initial Pals, unchanged, followed by one
      result per event, in order. */
  lemma OwnedLayout(init: seq<Pal>, path: seq<Event>)
    ensures |Owned(init, path)| == |init| + |path|
    ensures Owned(init, path)[..|init|] == init
    ensures forall k :: 0 <= k < |path| ==> Owned(init, path)[|init| + k] == path[k].result
  {
  }

  /** Every event of `path` is legal in the multiset owned just before it. */
  ghost predicate ValidPath(g: Graph, init: seq<Pal>, path: seq<Event>)
    decreases |path|
  {
    path == [] ||
    (ValidPath(g, init, path[..|path| - 1]) &&
     EventOk(g, Owned(init, path[..|path| - 1]), path[|path| - 1]))
  }

  /** Replaying one more event appends exactly its result. */
  lemma OwnedStep(init: seq<Pal>, path: seq<Event>, e: Event)
    ensures Owned(init, path + [e]) == Owned(init, path) + [e.result]
  {
    assert Results(path + [e]) == Results(path) + [e.result];
  }

  /** Extending a legal path by an event that is legal in the current
      multiset gives a legal path. */
  lemma ValidPathExtend(g: Graph, init: seq<Pal>, path: seq<Event>, e: Event)
    requires ValidPath(g, init, path)
    requires EventOk(g, Owned(init, path), e)
    ensures ValidPath(g, init, path + [e])
  {
    assert (path + [e])[..|path|] == path;
  }

  lemma {:induction false} ValidPathPrefix(g: Graph, init: seq<Pal>, path: seq<Event>, n: nat)
    requires ValidPath(g, init, path)
    requires n <= |path|
    ensures ValidPath(g, init, path[..n])
  {
    if n == |path| {
      assert path[..n] == path;
    } else {
      ValidPathPrefix(g, init, path[..|path| - 1], n);
      assert path[..|path| - 1][..n] == path[..n];
    }
  }

  /** Every event of a legal path is a graph rule whose two parents sit at
      different positions of the multiset owned at that step. */
  lemma {:induction false} ValidPathEvent(g: Graph, init: seq<Pal>, path: seq<Event>, k: nat)
    requires ValidPath(g, init, path)
    requires k < |path|
    ensures IsRule(g, path[k])
    ensures EventOk(g, Owned(init, path[..k]), path[k])
  {
    ValidPathPrefix(g, init, path, k + 1);
    var p := path[..k + 1];
    assert p[..|p| - 1] == path[..k];
    var a, b :| Yields(g, Owned(init, path[..k]), a, b, path[k].result)
      && Owned(init, path[..k])[a] == path[k].parent1 && Owned(init, path[..k])[b] == path[k].parent2;
  }

  /** The first event of a legal path is legal in the starting multiset. */
  lemma FirstEventFromInitial(g: Graph, init: seq<Pal>, path: seq<Event>)
    requires ValidPath(g, init, path)
    requires path != []
    ensures EventOk(g, init, path[0])
  {
    ValidPathEvent(g, init, path, 0);
    assert Owned(init, path[..0]) == init;
  }

  /** No two different positions of `pals` hold a rule's first parent and its
      partner: nothing can be bred. */
  ghost predicate Stuck(g: Graph, pals: seq<Pal>)
  {
    forall a, b, child :: !Yields(g, pals, a, b, child)
  }

  /** A non-empty legal path needs a breedable pair in the starting
      multiset; in particular the graph is not empty. */
  lemma NonEmptyPathNeedsRule(g: Graph, init: seq<Pal>, path: seq<Event>)
    requires ValidPath(g, init, path)
    requires path != []
    ensures !Stuck(g, init)
    ensures g != map[]
  {
    FirstEventFromInitial(g, init, path);
    var a, b :| Yields(g, init, a, b, path[0].result);
    assert init[a] in g;
  }
}
