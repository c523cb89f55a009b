/**
 The stack reconciler: `_NavigationControllerViewModel`, which keeps the
 native navigation controller's view controllers in step with the path, and
 the count-change handler of the `NavigationController` view, which turns a
 user-driven pop reported by the native side into a shortened path sent to
 the store.

 `nav` stands for the attached native controller and its `viewControllers`;
 `setViewControllers` is an assignment to it that fires no delegate callback.
 The native stack's own changes on a user pop happen outside this model; the
 delegate callback reports only the resulting total, and the only part of
 `nav` the reconciler reads, its root, is never popped.
 */
module Reconciler {
  import opened Wrappers
  import opened NavigationState
  import opened DestinationBuilder
  import opened CachedViews
  import opened Truncation

  /** `viewControllers.first`, as a list of at most one handle. */
  function RootOf<K, V>(stack: seq<Handle<K, V>>): (root: seq<Handle<K, V>>)
  {
    if stack == [] then [] else [stack[0]]
  }

  class NavigationControllerViewModel<K(==), E, V> {
    /** The builder injected by the destination modifier, if any. */
    var destinationBuilder: Option<Destination<K, E> -> V>
    /** The one-shot flag set right after a programmatic stack write. */
    var isSettingNav: bool
    /** The attached native controller's stack, once one is attached. */
    var nav: Option<seq<Handle<K, V>>>
    /** `_cachedViews`: the handle built for each key of the last reconciled path. */
    var cachedViews: map<K, Handle<K, V>>
    /** The mirrored number of non-root screens; -1 is the sentinel for "nothing known". */
    var navigationControllerCount: int
    /** The fresh-handle source: the serial the next hosting controller gets. */
    var nextSerial: nat

    ghost predicate Valid()
      reads this
    {
      navigationControllerCount >= -1 && WellKeyed(cachedViews, nextSerial)
    }

    constructor ()
      ensures Valid()
      ensures destinationBuilder == None && !isSettingNav && nav == None
      ensures cachedViews == map[] && navigationControllerCount == -1
    {
      destinationBuilder := None;
      isSettingNav := false;
      nav := None;
      cachedViews := map[];
      navigationControllerCount := -1;
      nextSerial := 0;
    }

    /** The destination modifier registering its builder when the screen appears. */
    method InjectBuilder(builder: Destination<K, E> -> V)
      requires Valid()
      modifies this`destinationBuilder
      ensures Valid() && destinationBuilder == Some(builder)
    {
      destinationBuilder := Some(builder);
    }

    /** The introspection hook attaching the live native controller. */
    method Attach(controllers: seq<Handle<K, V>>)
      requires Valid()
      modifies this`nav
      ensures Valid() && nav == Some(controllers)
    {
      nav := Some(controllers);
    }

    /**
     The delegate callback `navigationController(_:willShow:animated:)`;
     `totalCount` is the number of controllers after the transition, root included.
     */
    method WillShow(totalCount: nat)
      requires Valid()
      modifies this`isSettingNav, this`navigationControllerCount
      ensures Valid() && !isSettingNav
      ensures old(isSettingNav) ==> navigationControllerCount == old(navigationControllerCount)
      ensures !old(isSettingNav) ==> navigationControllerCount == totalCount - 1
    {
      if isSettingNav {
        isSettingNav := false;
        return;
      }
      navigationControllerCount := totalCount - 1;
    }

    /** `addViewControllers`: the path changed, so rewrite the native stack to match it. */
    method AddViewControllers(destinations: seq<Destination<K, E>>)
      requires Valid()
      modifies this`cachedViews, this`nextSerial, this`navigationControllerCount, this`nav, this`isSettingNav
      ensures Valid()
      ensures old(nav).None? || (old(navigationControllerCount) < 1 && destinations == []) ==>
                unchanged(this)
      ensures old(nav).Some? && !(old(navigationControllerCount) < 1 && destinations == []) ==>
                var r := Rebuild(old(cachedViews), old(nextSerial), destinationBuilder, destinations);
                && cachedViews == r.cache && nextSerial == r.next
                && navigationControllerCount == |destinations|
                && nav == Some(RootOf(old(nav).value) + r.handles)
                && isSettingNav
    {
      if nav.None? {
        return;
      }
      if navigationControllerCount < 1 && destinations == [] {
        return;
      }
      var stack := BuildViewControllers(destinations);
      navigationControllerCount := |stack|;
      if nav.value != [] {
        stack := [nav.value[0]] + stack;
      } else {
        assert stack == RootOf(nav.value) + stack;
      }
      nav := Some(stack);
      isSettingNav := true;
    }

    /**
     `_vcs`: the handles for the path, in path order, reusing cached handles
     and building the missing ones; the cache is rebuilt to hold exactly the
     path's keys.
     */
    method BuildViewControllers(destinations: seq<Destination<K, E>>) returns (vcs: seq<Handle<K, V>>)
      requires Valid()
      modifies this`cachedViews, this`nextSerial
      ensures Valid()
      ensures Rebuilt(vcs, cachedViews, nextSerial)
              == Rebuild(old(cachedViews), old(nextSerial), destinationBuilder, destinations)
      ensures |vcs| == |destinations| && cachedViews.Keys == Ids(destinations)
      ensures forall i :: 0 <= i < |destinations| ==> vcs[i].Hosted? && vcs[i].key == destinations[i].id
      ensures forall i :: 0 <= i < |destinations| && destinations[i].id in old(cachedViews) ==>
                vcs[i] == old(cachedViews)[destinations[i].id]
      ensures forall i :: 0 <= i < |destinations| && destinations[i].id !in old(cachedViews) ==>
                && vcs[i].Hosted? && vcs[i].key == destinations[i].id
                && vcs[i].view == Build(destinationBuilder, destinations[i])
                && old(nextSerial) <= vcs[i].serial < nextSerial
      // A newly built handle is none of the handles cached before.
      ensures forall i, k :: 0 <= i < |destinations| && destinations[i].id !in old(cachedViews) && k in old(cachedViews) ==>
                vcs[i] != old(cachedViews)[k]
    {
      vcs := [];
      var cacheCopy := cachedViews;
      ghost var first := nextSerial;
      cachedViews := map[];
      for i := 0 to |destinations|
        invariant Rebuilt(vcs, cachedViews, nextSerial) == Rebuild(cacheCopy, first, destinationBuilder, destinations[..i])
      {
        var destination := destinations[i];
        assert destinations[..i + 1][..i] == destinations[..i];
        var vc: Handle<K, V>;
        if destination.id in cacheCopy {
          vc := cacheCopy[destination.id];
        } else {
          vc := Hosted(nextSerial, destination.id, Build(destinationBuilder, destination));
          nextSerial := nextSerial + 1;
        }
        vcs := vcs + [vc];
        cachedViews := cachedViews[destination.id := vc];
      }
      assert destinations[..|destinations|] == destinations;
      RebuildWellKeyed(cacheCopy, first, destinationBuilder, destinations);
      RebuildKeys(cacheCopy, first, destinationBuilder, destinations);
      RebuildHandlesKeyed(cacheCopy, first, destinationBuilder, destinations);
      forall i | 0 <= i < |destinations|
        ensures destinations[i].id in cacheCopy ==> vcs[i] == cacheCopy[destinations[i].id]
        ensures destinations[i].id !in cacheCopy ==>
                  && vcs[i].Hosted? && vcs[i].key == destinations[i].id
                  && vcs[i].view == Build(destinationBuilder, destinations[i])
                  && first <= vcs[i].serial < nextSerial
      {
        RebuildHandleAt(cacheCopy, first, destinationBuilder, destinations, i);
      }
    }
  }

  /** The `NavigationController` view, reduced to the part that reacts to count changes. */
  class NavigationController<K(==), E, V> {
    const viewModel: NavigationControllerViewModel<K, E, V>

    constructor ()
      ensures fresh(viewModel) && viewModel.Valid()
      ensures viewModel.destinationBuilder == None && !viewModel.isSettingNav && viewModel.nav == None
      ensures viewModel.cachedViews == map[] && viewModel.navigationControllerCount == -1
    {
      viewModel := new NavigationControllerViewModel();
    }

    /**
     The `onChange(of: navigationControllerCount)` handler, as written: returns
     the path it sends to the store, if any, and resets the count unless the
     guard returned early.
     */
    method CountChanged(destinations: seq<Destination<K, E>>) returns (sent: Option<seq<Destination<K, E>>>)
      requires viewModel.Valid()
      modifies viewModel`navigationControllerCount
      ensures viewModel.Valid()
      ensures var o := CountChange(destinations, old(viewModel.navigationControllerCount));
              && sent == o.sent
              && viewModel.navigationControllerCount
                 == if o.resetsCount then -1 else old(viewModel.navigationControllerCount)
    {
      var count := viewModel.navigationControllerCount;
      var countOfDestinations := |destinations|;
      if countOfDestinations < 0 || countOfDestinations <= count {
        return None;
      }
      if count == 0 && countOfDestinations > 0 {
        sent := Some([]);
        viewModel.navigationControllerCount := -1;
        return;
      }
      var newCount := countOfDestinations - count;
      var difference := countOfDestinations - newCount;
      sent := None;
      if difference > 0 {
        sent := Some(DropLast(destinations, difference));
      }
      viewModel.navigationControllerCount := -1;
    }

    /** The same handler with the intended truncation: keep the screens the native stack still shows. */
    method CountChangedIntended(destinations: seq<Destination<K, E>>) returns (sent: Option<seq<Destination<K, E>>>)
      requires viewModel.Valid()
      modifies viewModel`navigationControllerCount
      ensures viewModel.Valid()
      ensures var o := IntendedCountChange(destinations, old(viewModel.navigationControllerCount));
              && sent == o.sent
              && viewModel.navigationControllerCount
                 == if o.resetsCount then -1 else old(viewModel.navigationControllerCount)
    {
      var count := viewModel.navigationControllerCount;
      if |destinations| <= count {
        return None;
      }
      sent := None;
      if count >= 0 {
        sent := Some(DropLast(destinations, |destinations| - count));
      }
      viewModel.navigationControllerCount := -1;
    }
  }

  /**
   A programmatic write of `[a, b]` is not read back as a pop: the flag is up
   when the delegate callback it causes arrives, that callback consumes it,
   and the count handler then sends nothing.
   */
  method SuppressedEcho<K(==), E, V>(a: Destination<K, E>, b: Destination<K, E>, root: nat)
    returns (flaggedBefore: bool, flaggedAfter: bool, sent: Option<seq<Destination<K, E>>>, count: int)
    ensures flaggedBefore && !flaggedAfter
    ensures sent == None && count == 2
  {
    var controller := new NavigationController<K, E, V>();
    var model := controller.viewModel;
    model.Attach([Native(root)]);
    var path := [a, b];
    model.AddViewControllers(path);
    var ignored := controller.CountChanged(path);
    flaggedBefore := model.isSettingNav;
    model.WillShow(3);
    flaggedAfter := model.isSettingNav;
    sent := controller.CountChanged(path);
    count := model.navigationControllerCount;
  }

  /** With one screen pushed, a pop to the root sends the empty path and resets the count. */
  method PopToRoot<K(==), E, V>(a: Destination<K, E>, root: nat)
    returns (sent: Option<seq<Destination<K, E>>>, count: int)
    ensures sent == Some([]) && count == -1
  {
    var controller := new NavigationController<K, E, V>();
    var model := controller.viewModel;
    model.Attach([Native(root)]);
    var path := [a];
    model.AddViewControllers(path);
    var ignored := controller.CountChanged(path);
    model.WillShow(2);
    model.WillShow(1);
    sent := controller.CountChanged(path);
    count := model.navigationControllerCount;
  }

  /**
   With three screens pushed, the user pops one: the native stack then shows
   the root and two screens. As written, the handler sends `[a]`; with the
   intended truncation it sends `[a, b]`.
   */
  method PopOneOfThree<K(==), E, V>(a: Destination<K, E>, b: Destination<K, E>, c: Destination<K, E>, root: nat)
    returns (asWritten: Option<seq<Destination<K, E>>>, intended: Option<seq<Destination<K, E>>>)
    ensures asWritten == Some([a]) && intended == Some([a, b])
  {
    var controller := new NavigationController<K, E, V>();
    var model := controller.viewModel;
    model.Attach([Native(root)]);
    var path := [a, b, c];
    model.AddViewControllers(path);
    var ignored := controller.CountChanged(path);
    model.WillShow(4);
    model.WillShow(3);
    asWritten := controller.CountChanged(path);
    model.WillShow(3);
    intended := controller.CountChangedIntended(path);
    AsWrittenDropsTooMany(a, b, c);
  }
}
