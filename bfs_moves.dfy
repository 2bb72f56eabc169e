/**
 * The order in which `bfs` tries breeding events from one dequeued list:
 * first parent by position, then partner by position, then the first
 * parent's rules in graph order.
 */
module BfsMoves {
  import opened BreedingGraph

  /** The events `bfs` tries from `pals` with the first parent at position
      `i` and the partner at a position below `m`, in loop order. */
  function RowEvents(g: Graph, pals: seq<Pal>, i: nat, m: nat): seq<Event>
    requires i < |pals| && m <= |pals|
  {
    if m == 0 then []
    else RowEvents(g, pals, i, m - 1) + (if m - 1 == i then [] else PairEvents(pals, i, m - 1, RulesOf(g, pals[i])))
  }

  /** The events `bfs` tries from `pals` with the first parent at a position
      below `m`, in loop order. */
  function GridEvents(g: Graph, pals: seq<Pal>, m: nat): seq<Event>
    requires m <= |pals|
  {
    if m == 0 then [] else GridEvents(g, pals, m - 1) + RowEvents(g, pals, m - 1, |pals|)
  }

  /** Every event `bfs` tries from a dequeued list, in the order of its
      three nested loops. */
  function Moves(g: Graph, pals: seq<Pal>): seq<Event>
  {
    GridEvents(g, pals, |pals|)
  }

  lemma {:induction false} RowSound(g: Graph, pals: seq<Pal>, i: nat, m: nat, e: Event)
    requires i < |pals| && m <= |pals| && e in RowEvents(g, pals, i, m)
    ensures EventOk(g, pals, e)
  {
    if m > 0 {
      if e in RowEvents(g, pals, i, m - 1) {
        RowSound(g, pals, i, m - 1, e);
      } else {
        PairEventsSound(pals, i, m - 1, RulesOf(g, pals[i]), e);
        assert Yields(g, pals, i, m - 1, e.result);
      }
    }
  }

  lemma {:induction false} GridSound(g: Graph, pals: seq<Pal>, m: nat, e: Event)
    requires m <= |pals| && e in GridEvents(g, pals, m)
    ensures EventOk(g, pals, e)
  {
    if m > 0 {
      if e in GridEvents(g, pals, m - 1) {
        GridSound(g, pals, m - 1, e);
      } else {
        RowSound(g, pals, m - 1, |pals|, e);
      }
    }
  }

  lemma RowHas(g: Graph, pals: seq<Pal>, i: nat, b: nat, m: nat, c: Pal)
    requires i < |pals| && b < m <= |pals| && b != i && Rule(pals[b], c) in RulesOf(g, pals[i])
    ensures Event(pals[i], pals[b], c) in RowEvents(g, pals, i, m)
    decreases m
  {
    if b == m - 1 {
      PairEventsHas(pals, i, b, RulesOf(g, pals[i]), c);
    } else {
      RowHas(g, pals, i, b, m - 1, c);
    }
  }

  lemma GridHas(g: Graph, pals: seq<Pal>, a: nat, b: nat, m: nat, c: Pal)
    requires a < m <= |pals| && b < |pals| && a != b && Rule(pals[b], c) in RulesOf(g, pals[a])
    ensures Event(pals[a], pals[b], c) in GridEvents(g, pals, m)
    decreases m
  {
    if a == m - 1 {
      RowHas(g, pals, a, b, |pals|, c);
    } else {
      GridHas(g, pals, a, b, m - 1, c);
    }
  }

  /** `bfs` tries exactly the legal events of the dequeued list: every
      ordered pair of different positions with every matching rule. */
  lemma MovesExact(g: Graph, pals: seq<Pal>, e: Event)
    ensures e in Moves(g, pals) <==> EventOk(g, pals, e)
  {
    if e in Moves(g, pals) {
      GridSound(g, pals, |pals|, e);
    }
    if EventOk(g, pals, e) {
      var a, b :| Yields(g, pals, a, b, e.result) && pals[a] == e.parent1 && pals[b] == e.parent2;
      GridHas(g, pals, a, b, |pals|, e.result);
    }
  }

  lemma {:induction false} RowEventsPrefix(g: Graph, pals: seq<Pal>, i: nat, j: nat, m: nat)
    requires i < |pals| && j <= m <= |pals|
    ensures RowEvents(g, pals, i, j) <= RowEvents(g, pals, i, m)
  {
    if j < m {
      RowEventsPrefix(g, pals, i, j, m - 1);
    }
  }

  lemma {:induction false} GridEventsPrefix(g: Graph, pals: seq<Pal>, j: nat, m: nat)
    requires j <= m <= |pals|
    ensures GridEvents(g, pals, j) <= GridEvents(g, pals, m)
  {
    if j < m {
      GridEventsPrefix(g, pals, j, m - 1);
    }
  }
}
