/**
 * `validate_pals`: which of the given names are known Pals. The loaders that
 * read the breeding data from JSON files are not part of this model; the data
 * arrives as a value.
 */
module Validation {
  import opened BreedingGraph

  /** The loaded breeding data, a dictionary of dictionaries. Only its
      `'parents'` entry, from Pal numbers to Pal names, is consulted. */
  type BreedingData = map<string, map<string, Pal>>

  /** The names known to the data: `breeding_data.get('parents', {}).values()`. */
  function KnownPals(data: BreedingData): (known: set<Pal>)
    ensures forall p :: p in known <==> "parents" in data && exists n :: n in data["parents"] && data["parents"][n] == p
  {
    if "parents" in data then data["parents"].Values else {}
  }

  /** `sub` is `full` with some elements dropped, the rest kept in order. */
  predicate IsSublist(sub: seq<Pal>, full: seq<Pal>)
  {
    if sub == [] then true
    else if full == [] then false
    else (sub[0] == full[0] && IsSublist(sub[1..], full[1..])) || IsSublist(sub, full[1..])
  }

  /** `[pal for pal in pals if pal not in known]`. */
  function UnknownPals(pals: seq<Pal>, known: set<Pal>): (invalid: seq<Pal>)
    ensures forall k :: 0 <= k < |invalid| ==> invalid[k] !in known
    ensures |invalid| <= |pals|
    ensures invalid == [] <==> forall k :: 0 <= k < |pals| ==> pals[k] in known
  {
    if pals == [] then []
    else if pals[0] in known then UnknownPals(pals[1..], known)
    else [pals[0]] + UnknownPals(pals[1..], known)
  }

  /** The unknown names keep their original order. */
  lemma {:induction false} UnknownPalsSublist(pals: seq<Pal>, known: set<Pal>)
    ensures IsSublist(UnknownPals(pals, known), pals)
  {
    if pals != [] {
      UnknownPalsSublist(pals[1..], known);
      SublistSkip(UnknownPals(pals[1..], known), pals);
    }
  }

  lemma SublistSkip(sub: seq<Pal>, full: seq<Pal>)
    requires full != [] && IsSublist(sub, full[1..])
    ensures IsSublist(sub, full) && IsSublist([full[0]] + sub, full)
  {
    assert ([full[0]] + sub)[1..] == sub;
  }

  /** Every unknown name is kept, as often as it occurs. */
  lemma {:induction false} UnknownPalsCount(pals: seq<Pal>, known: set<Pal>, p: Pal)
    requires p !in known
    ensures multiset(UnknownPals(pals, known))[p] == multiset(pals)[p]
  {
    if pals != [] {
      UnknownPalsCount(pals[1..], known, p);
      assert pals == [pals[0]] + pals[1..];
    }
  }

  /** When no name is known, every name is reported. */
  lemma {:induction false} UnknownPalsAll(pals: seq<Pal>, known: set<Pal>)
    requires forall k :: 0 <= k < |pals| ==> pals[k] !in known
    ensures UnknownPals(pals, known) == pals
  {
    if pals != [] {
      UnknownPalsAll(pals[1..], known);
      assert pals == [pals[0]] + pals[1..];
    }
  }

  /** `validate_pals(pals, breeding_data)`: the verdict and the unknown names. */
  function ValidatePals(pals: seq<Pal>, data: BreedingData): (r: (bool, seq<Pal>))
    ensures r.0 <==> r.1 == []
    ensures r.0 <==> forall k :: 0 <= k < |pals| ==> pals[k] in KnownPals(data)
    ensures "parents" !in data ==> r.1 == pals
    ensures pals == [] ==> r.0
  {
    var invalid := UnknownPals(pals, KnownPals(data));
    assert "parents" !in data ==> invalid == pals by {
      if "parents" !in data {
        UnknownPalsAll(pals, KnownPals(data));
      }
    }
    (|invalid| == 0, invalid)
  }
}
