/**
 The structural equality that decides whether a change of the navigation
 path is passed on to the views (`NBNavigationStackStore.isEqual`, used as
 the store's duplicate-removal predicate). Two paths are equal when they
 have the same length and agree, position by position, on the identifier
 and on the enum case of the element; payloads inside a case are ignored.
 The enum case of an element is given by `tag`, standing for `enumTag`.
 */
module PathEquality {
  import opened NavigationState

  /** Two destinations agree on identifier and enum case. */
  ghost predicate Matches<K, E>(tag: E -> nat, a: Destination<K, E>, b: Destination<K, E>)
  {
    a.id == b.id && tag(a.element) == tag(b.element)
  }

  /** What `isEqual` decides, stated over all positions. */
  ghost predicate SameStructure<K, E>(tag: E -> nat, lhs: seq<Destination<K, E>>, rhs: seq<Destination<K, E>>)
  {
    |lhs| == |rhs| && forall i :: 0 <= i < |lhs| ==> Matches(tag, lhs[i], rhs[i])
  }

  /** The (identifier, case) projection of a path: an independent reference for the equality. */
  ghost function Shape<K, E>(tag: E -> nat, path: seq<Destination<K, E>>): (shape: seq<(K, nat)>)
  {
    seq(|path|, i requires 0 <= i < |path| => (path[i].id, tag(path[i].element)))
  }

  /**
   `isEqual`: a length guard, then a walk over both paths in step that stops
   at the first position whose identifier or case differs.
   */
  method IsEqual<K(==), E>(tag: E -> nat, lhs: seq<Destination<K, E>>, rhs: seq<Destination<K, E>>)
    returns (equal: bool)
    ensures equal <==> SameStructure(tag, lhs, rhs)
  {
    if |lhs| != |rhs| {
      return false;
    }
    for i := 0 to |lhs|
      invariant forall j :: 0 <= j < i ==> Matches(tag, lhs[j], rhs[j])
    {
      if !(lhs[i].id == rhs[i].id && tag(lhs[i].element) == tag(rhs[i].element)) {
        return false;
      }
    }
    return true;
  }

  /** Paths of different lengths are never equal. */
  lemma LengthMismatch<K, E>(tag: E -> nat, lhs: seq<Destination<K, E>>, rhs: seq<Destination<K, E>>)
    requires |lhs| != |rhs|
    ensures !SameStructure(tag, lhs, rhs)
  {
  }

  /** One position with a different identifier or a different case makes the paths unequal. */
  lemma SingleMismatch<K, E>(tag: E -> nat, lhs: seq<Destination<K, E>>, rhs: seq<Destination<K, E>>, i: nat)
    requires i < |lhs| && i < |rhs|
    requires lhs[i].id != rhs[i].id || tag(lhs[i].element) != tag(rhs[i].element)
    ensures !SameStructure(tag, lhs, rhs)
  {
  }

  /** The equality is exactly equality of the (identifier, case) projections, in both directions. */
  lemma SameStructureIsSameShape<K, E>(tag: E -> nat, lhs: seq<Destination<K, E>>, rhs: seq<Destination<K, E>>)
    ensures SameStructure(tag, lhs, rhs) <==> Shape(tag, lhs) == Shape(tag, rhs)
  {
    if Shape(tag, lhs) == Shape(tag, rhs) {
      assert |lhs| == |Shape(tag, lhs)| == |Shape(tag, rhs)| == |rhs|;
      forall i | 0 <= i < |lhs| ensures Matches(tag, lhs[i], rhs[i]) {
        assert Shape(tag, lhs)[i] == Shape(tag, rhs)[i];
      }
    }
  }

  /** Two empty paths are equal. */
  lemma EmptyPathsEqual<K, E>(tag: E -> nat)
    ensures SameStructure<K, E>(tag, [], [])
  {
  }

  lemma Reflexive<K, E>(tag: E -> nat, path: seq<Destination<K, E>>)
    ensures SameStructure(tag, path, path)
  {
  }

  lemma Symmetric<K, E>(tag: E -> nat, lhs: seq<Destination<K, E>>, rhs: seq<Destination<K, E>>)
    ensures SameStructure(tag, lhs, rhs) <==> SameStructure(tag, rhs, lhs)
  {
  }

  lemma Transitive<K, E>(tag: E -> nat, a: seq<Destination<K, E>>, b: seq<Destination<K, E>>, c: seq<Destination<K, E>>)
    requires SameStructure(tag, a, b) && SameStructure(tag, b, c)
    ensures SameStructure(tag, a, c)
  {
    forall i | 0 <= i < |a| ensures Matches(tag, a[i], c[i]) {
      assert Matches(tag, a[i], b[i]) && Matches(tag, b[i], c[i]);
    }
  }

  /**
   Replacing the element at one position by another of the same case, under
   the same identifier, leaves the path equal to the original.
   */
  lemma PayloadIndependence<K, E>(tag: E -> nat, path: seq<Destination<K, E>>, i: nat, e: E)
    requires i < |path| && tag(e) == tag(path[i].element)
    ensures SameStructure(tag, path, path[i := Destination(path[i].id, e)])
  {
  }
}
