/**
 The navigation path: an ordered collection of destinations, each an
 identifier paired with the screen-state element pushed for it. Index 0 is
 the screen nearest the root. The source keeps it in an ordered dictionary,
 so identifiers are unique; `UniqueIds` states that invariant.
 */
module NavigationState {

  /** One entry of the path: `NavigationState<Element>.Destination`. */
  datatype Destination<K, E> = Destination(id: K, element: E)

  /** The ordered-dictionary invariant: no identifier occurs twice. */
  ghost predicate UniqueIds<K, E>(path: seq<Destination<K, E>>)
  {
    forall i, j :: 0 <= i < j < |path| ==> path[i].id != path[j].id
  }

  /** The key set of the path. */
  ghost function Ids<K, E>(path: seq<Destination<K, E>>): (ids: set<K>)
  {
    set i | 0 <= i < |path| :: path[i].id
  }

  /** Adding one destination at the end adds exactly its identifier to the key set. */
  lemma IdsOfSnoc<K, E>(path: seq<Destination<K, E>>)
    requires path != []
    ensures Ids(path) == Ids(path[..|path| - 1]) + {path[|path| - 1].id}
  {
    var init := path[..|path| - 1];
    forall x | x in Ids(path) ensures x in Ids(init) + {path[|path| - 1].id} {
      var i :| 0 <= i < |path| && path[i].id == x;
      if i < |path| - 1 {
        assert init[i] == path[i];
      }
    }
    forall x | x in Ids(init) ensures x in Ids(path) {
      var i :| 0 <= i < |init| && init[i].id == x;
      assert path[i] == init[i];
    }
    assert path[|path| - 1].id in Ids(path);
  }

  /** A prefix of a path with unique identifiers has unique identifiers. */
  lemma UniqueIdsPrefix<K, E>(path: seq<Destination<K, E>>, n: nat)
    requires UniqueIds(path) && n <= |path|
    ensures UniqueIds(path[..n])
  {
    forall i, j | 0 <= i < j < n ensures path[..n][i].id != path[..n][j].id {
      assert path[..n][i] == path[i] && path[..n][j] == path[j];
    }
  }
}
