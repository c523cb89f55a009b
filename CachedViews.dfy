/**
 The view-controller cache and the pass that rebuilds it (`_vcs` in
 `_NavigationControllerViewModel`). `Rebuild` is the specification of that
 pass: it walks the path in order; a key already in the previous cache gets
 its cached handle back, any other key gets a freshly minted hosting
 controller; the new cache holds exactly the keys of the path.
 */
module CachedViews {
  import opened Wrappers
  import opened NavigationState
  import opened DestinationBuilder

  /**
   An opaque view-controller handle. `Native` stands for a controller that
   the native stack already held (its root); `Hosted` is a hosting controller
   built for one key, with the serial number the fresh-handle counter gave it.
   */
  datatype Handle<K, V> = Native(ref: nat) | Hosted(serial: nat, key: K, view: Screen<V>)

  /** The outcome of one rebuild: the handles in path order, the new cache, the next unused serial. */
  datatype Rebuilt<K, V> = Rebuilt(handles: seq<Handle<K, V>>, cache: map<K, Handle<K, V>>, next: nat)

  /**
   The cache invariant: every cached handle is a hosting controller built for
   the key it is stored under, with a serial below the next unused one.
   */
  ghost predicate WellKeyed<K, V>(cache: map<K, Handle<K, V>>, next: nat)
  {
    forall k :: k in cache ==> cache[k].Hosted? && cache[k].key == k && cache[k].serial < next
  }

  /** The specification of `_vcs`, by induction on the processed prefix of the path. */
  ghost function Rebuild<K, E, V>(prior: map<K, Handle<K, V>>, next: nat,
                                  builder: Option<Destination<K, E> -> V>,
                                  path: seq<Destination<K, E>>): (r: Rebuilt<K, V>)
    ensures |r.handles| == |path| && next <= r.next
    decreases |path|
  {
    if path == [] then Rebuilt([], map[], next)
    else
      var done := Rebuild(prior, next, builder, path[..|path| - 1]);
      var d := path[|path| - 1];
      if d.id in prior then
        Rebuilt(done.handles + [prior[d.id]], done.cache[d.id := prior[d.id]], done.next)
      else
        var h := Hosted(done.next, d.id, Build(builder, d));
        Rebuilt(done.handles + [h], done.cache[d.id := h], done.next + 1)
  }

  /** After a rebuild the cache holds exactly the path's keys: stale keys are evicted. */
  lemma {:induction false} RebuildKeys<K, E, V>(prior: map<K, Handle<K, V>>, next: nat,
                                                builder: Option<Destination<K, E> -> V>,
                                                path: seq<Destination<K, E>>)
    ensures Rebuild(prior, next, builder, path).cache.Keys == Ids(path)
    decreases |path|
  {
    if path != [] {
      RebuildKeys(prior, next, builder, path[..|path| - 1]);
      IdsOfSnoc(path);
    } else {
      assert Ids(path) == {};
    }
  }

  /**
   Handle `i` of a rebuild: the previously cached handle when the key was
   cached, otherwise a new hosting controller for that key and destination
   whose serial lies in the range the rebuild minted.
   */
  lemma {:induction false} RebuildHandleAt<K, E, V>(prior: map<K, Handle<K, V>>, next: nat,
                                                    builder: Option<Destination<K, E> -> V>,
                                                    path: seq<Destination<K, E>>, i: nat)
    requires i < |path|
    ensures var r := Rebuild(prior, next, builder, path);
            && (path[i].id in prior ==> r.handles[i] == prior[path[i].id])
            && (path[i].id !in prior ==>
                  && r.handles[i].Hosted?
                  && r.handles[i].key == path[i].id
                  && r.handles[i].view == Build(builder, path[i])
                  && next <= r.handles[i].serial < r.next)
    decreases |path|
  {
    var init := path[..|path| - 1];
    if i < |path| - 1 {
      RebuildHandleAt(prior, next, builder, init, i);
      assert init[i] == path[i];
    }
  }

  /**
   With a well-formed previous cache, every handle of a rebuild, reused or new,
   is a hosting controller built for the key at its position.
   */
  lemma RebuildHandlesKeyed<K, E, V>(prior: map<K, Handle<K, V>>, next: nat,
                                     builder: Option<Destination<K, E> -> V>,
                                     path: seq<Destination<K, E>>)
    requires WellKeyed(prior, next)
    ensures var r := Rebuild(prior, next, builder, path);
            forall i :: 0 <= i < |path| ==> r.handles[i].Hosted? && r.handles[i].key == path[i].id
  {
    forall i | 0 <= i < |path|
      ensures Rebuild(prior, next, builder, path).handles[i].Hosted?
      ensures Rebuild(prior, next, builder, path).handles[i].key == path[i].id
    {
      RebuildHandleAt(prior, next, builder, path, i);
    }
  }

  /** Newly built handles get strictly increasing serials in path order, so no two coincide. */
  lemma {:induction false} RebuildFreshDistinct<K, E, V>(prior: map<K, Handle<K, V>>, next: nat,
                                                         builder: Option<Destination<K, E> -> V>,
                                                         path: seq<Destination<K, E>>, i: nat, j: nat)
    requires i < j < |path| && path[i].id !in prior && path[j].id !in prior
    ensures var r := Rebuild(prior, next, builder, path);
            r.handles[i].Hosted? && r.handles[j].Hosted? && r.handles[i].serial < r.handles[j].serial
    decreases |path|
  {
    var init := path[..|path| - 1];
    assert init[i] == path[i];
    if j < |path| - 1 {
      assert init[j] == path[j];
      RebuildFreshDistinct(prior, next, builder, init, i, j);
    } else {
      RebuildHandleAt(prior, next, builder, init, i);
    }
  }

  /** With unique keys, the new cache maps each key of the path to the handle built at its position. */
  lemma {:induction false} RebuildCacheAt<K, E, V>(prior: map<K, Handle<K, V>>, next: nat,
                                                   builder: Option<Destination<K, E> -> V>,
                                                   path: seq<Destination<K, E>>, i: nat)
    requires UniqueIds(path) && i < |path|
    ensures var r := Rebuild(prior, next, builder, path);
            path[i].id in r.cache && r.cache[path[i].id] == r.handles[i]
    decreases |path|
  {
    var init := path[..|path| - 1];
    if i < |path| - 1 {
      UniqueIdsPrefix(path, |path| - 1);
      RebuildCacheAt(prior, next, builder, init, i);
      assert init[i] == path[i];
    }
  }

  /** A rebuild keeps the cache invariant, with the advanced counter. */
  lemma {:induction false} RebuildWellKeyed<K, E, V>(prior: map<K, Handle<K, V>>, next: nat,
                                                     builder: Option<Destination<K, E> -> V>,
                                                     path: seq<Destination<K, E>>)
    requires WellKeyed(prior, next)
    ensures var r := Rebuild(prior, next, builder, path); WellKeyed(r.cache, r.next)
    decreases |path|
  {
    if path != [] {
      RebuildWellKeyed(prior, next, builder, path[..|path| - 1]);
    }
  }

  /** When every key of the path is already cached, nothing is minted. */
  lemma {:induction false} RebuildAllCached<K, E, V>(prior: map<K, Handle<K, V>>, next: nat,
                                                     builder: Option<Destination<K, E> -> V>,
                                                     path: seq<Destination<K, E>>)
    requires Ids(path) <= prior.Keys
    ensures Rebuild(prior, next, builder, path).next == next
    decreases |path|
  {
    if path != [] {
      IdsOfSnoc(path);
      RebuildAllCached(prior, next, builder, path[..|path| - 1]);
    }
  }

  /**
   Reconciling the same path a second time hands back the same handles, leaves
   the cache as it is and mints nothing.
   */
  lemma RebuildIdempotent<K, E, V>(prior: map<K, Handle<K, V>>, next: nat,
                                   builder: Option<Destination<K, E> -> V>,
                                   path: seq<Destination<K, E>>)
    requires UniqueIds(path)
    ensures var r := Rebuild(prior, next, builder, path);
            Rebuild(r.cache, r.next, builder, path) == r
  {
    var r := Rebuild(prior, next, builder, path);
    var s := Rebuild(r.cache, r.next, builder, path);
    RebuildKeys(prior, next, builder, path);
    RebuildKeys(r.cache, r.next, builder, path);
    RebuildAllCached(r.cache, r.next, builder, path);
    forall i | 0 <= i < |path| ensures s.handles[i] == r.handles[i] {
      RebuildCacheAt(prior, next, builder, path, i);
      RebuildHandleAt(r.cache, r.next, builder, path, i);
    }
    forall k | k in s.cache ensures s.cache[k] == r.cache[k] {
      var i :| 0 <= i < |path| && path[i].id == k;
      RebuildCacheAt(prior, next, builder, path, i);
      RebuildCacheAt(r.cache, r.next, builder, path, i);
    }
    assert s.handles == r.handles;
    assert s.cache == r.cache;
  }

  /**
   Pushing one new destination onto an already reconciled path: every earlier
   handle is reused as it was, and exactly one hosting controller is built,
   for the new destination.
   */
  lemma PushReusesHandles<K, E, V>(prior: map<K, Handle<K, V>>, next: nat,
                                   builder: Option<Destination<K, E> -> V>,
                                   path: seq<Destination<K, E>>, d: Destination<K, E>)
    requires UniqueIds(path + [d])
    ensures var r := Rebuild(prior, next, builder, path);
            var s := Rebuild(r.cache, r.next, builder, path + [d]);
            && s.handles == r.handles + [Hosted(r.next, d.id, Build(builder, d))]
            && s.next == r.next + 1
  {
    var r := Rebuild(prior, next, builder, path);
    var ext := path + [d];
    assert ext[..|ext| - 1] == path;
    UniqueIdsPrefix(ext, |path|);
    RebuildIdempotent(prior, next, builder, path);
    RebuildKeys(prior, next, builder, path);
    forall i | 0 <= i < |path| ensures path[i].id != d.id {
      assert ext[i] == path[i] && ext[|path|] == d;
    }
  }
}
