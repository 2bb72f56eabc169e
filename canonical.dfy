/**
 * The canonical form of an owned multiset of Pals: `tuple(sorted(pals))`.
 * Python orders `str` values lexicographically by code point; `sorted`
 * returns the unique ordered permutation of its input, modelled here by an
 * insertion sort.
 */
module Canonical {

  /** Python's `a <= b` on strings: lexicographic order on code points. */
  predicate StrLe(a: string, b: string)
  {
    |a| == 0 || (|b| > 0 && (a[0] < b[0] || (a[0] == b[0] && StrLe(a[1..], b[1..]))))
  }

  lemma {:induction false} StrLeTotal(a: string, b: string)
    ensures StrLe(a, b) || StrLe(b, a)
  {
    if |a| > 0 && |b| > 0 && a[0] == b[0] {
      StrLeTotal(a[1..], b[1..]);
    }
  }

  lemma {:induction false} StrLeAntisymmetric(a: string, b: string)
    requires StrLe(a, b) && StrLe(b, a)
    ensures a == b
  {
    if |a| > 0 {
      StrLeAntisymmetric(a[1..], b[1..]);
      assert a == [a[0]] + a[1..];
      assert b == [b[0]] + b[1..];
    }
  }

  lemma {:induction false} StrLeTransitive(a: string, b: string, c: string)
    requires StrLe(a, b) && StrLe(b, c)
    ensures StrLe(a, c)
  {
    if |a| > 0 && a[0] == b[0] && b[0] == c[0] {
      StrLeTransitive(a[1..], b[1..], c[1..]);
    }
  }

  /** Adjacent elements are in order. */
  predicate Sorted(s: seq<string>)
  {
    |s| <= 1 || (StrLe(s[0], s[1]) && Sorted(s[1..]))
  }

  /** Inserts `x` before the first element it does not exceed. */
  function Insert(x: string, s: seq<string>): (r: seq<string>)
    ensures |r| == |s| + 1
    ensures r[0] == x || (s != [] && r[0] == s[0])
    ensures multiset(r) == multiset(s) + multiset{x}
    ensures Sorted(s) ==> Sorted(r)
  {
    if s == [] then [x]
    else if StrLe(x, s[0]) then [x] + s
    else
      StrLeTotal(x, s[0]);
      assert s == [s[0]] + s[1..];
      [s[0]] + Insert(x, s[1..])
  }

  /** `sorted(s)`: an ordered permutation of `s`. */
  function Sort(s: seq<string>): (r: seq<string>)
    ensures Sorted(r)
    ensures multiset(r) == multiset(s)
  {
    if s == [] then []
    else
      assert s == [s[0]] + s[1..];
      Insert(s[0], Sort(s[1..]))
  }

  /** The head of a sorted sequence is below every element. */
  lemma {:induction false} SortedHeadLeast(s: seq<string>, k: nat)
    requires Sorted(s) && k < |s|
    ensures StrLe(s[0], s[k])
  {
    if k == 0 {
      StrLeReflexive(s[0]);
    } else if k > 1 {
      SortedHeadLeast(s[1..], k - 1);
      StrLeTransitive(s[0], s[1], s[k]);
    }
  }

  lemma {:induction false} StrLeReflexive(a: string)
    ensures StrLe(a, a)
  {
    if |a| > 0 {
      StrLeReflexive(a[1..]);
    }
  }

  /** Two sorted sequences holding the same multiset are equal. */
  lemma {:induction false} SortedUnique(a: seq<string>, b: seq<string>)
    requires Sorted(a) && Sorted(b)
    requires multiset(a) == multiset(b)
    ensures a == b
  {
    if a != [] {
      assert a[0] in multiset(b);
      assert |b| > 0;
      var i :| 0 <= i < |b| && b[i] == a[0];
      assert b[0] in multiset(a);
      var j :| 0 <= j < |a| && a[j] == b[0];
      SortedHeadLeast(a, j);
      SortedHeadLeast(b, i);
      StrLeAntisymmetric(a[0], b[0]);
      assert a == [a[0]] + a[1..];
      assert b == [b[0]] + b[1..];
      assert a[0] == b[0];
      assert multiset(a[1..]) == multiset(a) - multiset{a[0]};
      assert multiset(b[1..]) == multiset(b) - multiset{b[0]};
      assert multiset(a[1..]) == multiset(b[1..]);
      SortedUnique(a[1..], b[1..]);
    } else {
      assert |b| == |multiset(b)|;
    }
  }

  /** `key` is the sorted permutation of `pals`. */
  ghost predicate IsCanon(key: seq<string>, pals: seq<string>)
  {
    Sorted(key) && multiset(key) == multiset(pals)
  }

  /** The deduplication key of an owned multiset, `tuple(sorted(pals))`:
      the one sorted permutation of the list. */
  ghost function Canon(pals: seq<string>): (key: seq<string>)
    ensures IsCanon(key, pals)
  {
    assert IsCanon(Sort(pals), pals);
    var key :| IsCanon(key, pals);
    key
  }

  /** `sorted` computes the canonical key. */
  lemma SortIsCanon(pals: seq<string>)
    ensures Sort(pals) == Canon(pals)
  {
    SortedUnique(Sort(pals), Canon(pals));
  }

  /** Two owned lists are the same state exactly when they hold the same Pals
      with the same multiplicities. */
  lemma CanonSameState(a: seq<string>, b: seq<string>)
    ensures Canon(a) == Canon(b) <==> multiset(a) == multiset(b)
  {
    if multiset(a) == multiset(b) {
      SortedUnique(Canon(a), Canon(b));
    }
  }
}
