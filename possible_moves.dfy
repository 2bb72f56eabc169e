/**
 * The order in which `possible` tries breeding events from one dequeued
 * list: first parent by position, then a later partner by position, then
 * the first parent's rules in graph order.
 */
module PossibleMoves {
  import opened BreedingGraph

  /** The child is bred by a rule of the Pal at an earlier position with the
      Pal at a later position as partner: the pairs `i < j` of `possible`. */
  ghost predicate Breeds(g: Graph, s: seq<Pal>, child: Pal)
  {
    exists a, b :: a < b && Yields(g, s, a, b, child)
  }

  /** The events `possible` tries from `pals` with the first parent at
      position `i` and the partner at a position in `i + 1 .. m - 1`. */
  function LaterEvents(g: Graph, pals: seq<Pal>, i: nat, m: nat): seq<Event>
    requires i < |pals| && m <= |pals|
  {
    if m <= i + 1 then []
    else LaterEvents(g, pals, i, m - 1) + PairEvents(pals, i, m - 1, RulesOf(g, pals[i]))
  }

  /** The events `possible` tries from `pals` with the first parent at a
      position below `m`, in loop order. */
  function UpperEvents(g: Graph, pals: seq<Pal>, m: nat): seq<Event>
    requires m <= |pals|
  {
    if m == 0 then [] else UpperEvents(g, pals, m - 1) + LaterEvents(g, pals, m - 1, |pals|)
  }

  /** Every event `possible` tries from a dequeued list, in the order of its
      three nested loops. */
  function Offers(g: Graph, pals: seq<Pal>): seq<Event>
  {
    UpperEvents(g, pals, |pals|)
  }

  /** The children of a list of events. */
  function ResultSet(es: seq<Event>): set<Pal>
  {
    if es == [] then {} else {es[0].result} + ResultSet(es[1..])
  }

  lemma {:induction false} ResultSetHas(es: seq<Event>, c: Pal)
    ensures c in ResultSet(es) <==> exists e :: e in es && e.result == c
  {
    if es != [] {
      ResultSetHas(es[1..], c);
      assert es == [es[0]] + es[1..];
    }
  }

  lemma {:induction false} ResultSetAppend(a: seq<Event>, b: seq<Event>)
    ensures ResultSet(a + b) == ResultSet(a) + ResultSet(b)
  {
    if a == [] {
      assert a + b == b;
    } else {
      assert (a + b)[0] == a[0] && (a + b)[1..] == a[1..] + b;
      ResultSetAppend(a[1..], b);
    }
  }

  lemma {:induction false} LaterSound(g: Graph, pals: seq<Pal>, i: nat, m: nat, e: Event)
    requires i < |pals| && m <= |pals| && e in LaterEvents(g, pals, i, m)
    ensures exists b :: i < b && Yields(g, pals, i, b, e.result) && pals[i] == e.parent1 && pals[b] == e.parent2
  {
    if m > i + 1 {
      if e in LaterEvents(g, pals, i, m - 1) {
        LaterSound(g, pals, i, m - 1, e);
      } else {
        PairEventsSound(pals, i, m - 1, RulesOf(g, pals[i]), e);
        assert Yields(g, pals, i, m - 1, e.result);
      }
    }
  }

  lemma {:induction false} UpperSound(g: Graph, pals: seq<Pal>, m: nat, e: Event)
    requires m <= |pals| && e in UpperEvents(g, pals, m)
    ensures Breeds(g, pals, e.result)
  {
    if m > 0 {
      if e in UpperEvents(g, pals, m - 1) {
        UpperSound(g, pals, m - 1, e);
      } else {
        LaterSound(g, pals, m - 1, |pals|, e);
      }
    }
  }

  lemma LaterHas(g: Graph, pals: seq<Pal>, i: nat, b: nat, m: nat, c: Pal)
    requires i < b < m <= |pals| && Rule(pals[b], c) in RulesOf(g, pals[i])
    ensures Event(pals[i], pals[b], c) in LaterEvents(g, pals, i, m)
    decreases m
  {
    if b == m - 1 {
      PairEventsHas(pals, i, b, RulesOf(g, pals[i]), c);
    } else {
      LaterHas(g, pals, i, b, m - 1, c);
    }
  }

  lemma UpperHas(g: Graph, pals: seq<Pal>, a: nat, b: nat, m: nat, c: Pal)
    requires a < m && a < b < |pals| && m <= |pals| && Rule(pals[b], c) in RulesOf(g, pals[a])
    ensures Event(pals[a], pals[b], c) in UpperEvents(g, pals, m)
    decreases m
  {
    if a == m - 1 {
      LaterHas(g, pals, a, b, |pals|, c);
    } else {
      UpperHas(g, pals, a, b, m - 1, c);
    }
  }

  /** `possible` meets exactly the children some pair `i < j` of the list
      breeds. */
  lemma OffersBreeds(g: Graph, pals: seq<Pal>, c: Pal)
    ensures c in ResultSet(Offers(g, pals)) <==> Breeds(g, pals, c)
  {
    ResultSetHas(Offers(g, pals), c);
    if c in ResultSet(Offers(g, pals)) {
      var e: Event :| e in Offers(g, pals) && e.result == c;
      UpperSound(g, pals, |pals|, e);
    }
    if Breeds(g, pals, c) {
      var a, b :| a < b && Yields(g, pals, a, b, c);
      UpperHas(g, pals, a, b, |pals|, c);
    }
  }
}
