# TCA-Backport-Navigation: the stack reconciler and the path equality, in Dafny

This project models the part of TCA-Backport-Navigation that does real work. The library lets an app built on the Composable Architecture drive a SwiftUI navigation stack from a path value on iOS versions older than 16. The model covers two things:

- **`_NavigationControllerViewModel` and the count-change handler of `NavigationController`** (`Backport.swift`). On older systems these keep a `UINavigationController`'s view controllers in step with the path. `addViewControllers` rebuilds the stack when the path changes. It reuses a cached hosting controller for each key it knows and builds one for each key it does not. The cache is rebuilt to hold exactly the path's keys, and the existing root is kept in front. The delegate callback `navigationController(_:willShow:animated:)` either consumes the one-shot `_isSettingNav` flag or mirrors the number of non-root screens into `navigationControllerCount`. The count-change handler turns a lower count into a shortened path sent to the store, then resets the count to the sentinel -1.
- **`NBNavigationStackStore.isEqual`** (`Navigation-Backport.swift`). This is the duplicate-removal predicate. Two paths are equal when they have the same length and agree, position by position, on the identifier and on the enum case of the element. Payloads are ignored.

Modules:

- `Wrappers`: `Option`.
- `NavigationState`: a path is a sequence of `Destination(id, element)`. `UniqueIds` is the ordered-dictionary invariant and `Ids` is the path's key set.
- `PathEquality`: `isEqual` as a method with a loop and an early return. It is proved equal to the predicate `SameStructure`. A lemma shows that predicate is the same as equality of the (identifier, case) projections `Shape`. The remaining lemmas state the properties of the predicate.
- `DestinationBuilder`: `DestinationBuilderHolder.build`. It uses the injected builder when there is one and returns a placeholder otherwise.
- `CachedViews`: handles (`Native` for controllers the native stack already held, `Hosted` for hosting controllers built for a key) and `Rebuild`, the specification of `_vcs`, with its lemmas. Fresh handles come from a counter of serial numbers. `WellKeyed` is the cache invariant: every cached handle is a hosting controller built for its own key, with a serial below the counter.
- `Truncation`: the count-change handler as a function of the path and the new count. `CountChange` follows the code as written and `IntendedCountChange` is the corrected form (see Findings).
- `Reconciler`: the class `NavigationControllerViewModel` (fields `destinationBuilder`, `isSettingNav`, `nav`, `cachedViews`, `navigationControllerCount`, `nextSerial`) and the class `NavigationController`, which holds the count-change handler. A helper `RootOf` gives `nav.viewControllers.first` (Backport.swift:105) as a list of at most one handle. Three client methods replay three sequences: a programmatic write and the delegate callback it causes, a pop to the root, and a user pop of one screen out of three.

Modelling decisions:

- `setViewControllers(_:animated:)` is an assignment to `nav` that fires no delegate callback. The flag is set after the write, at `Backport.swift:108-112`, not before it.
- The delegate callback receives the resulting total number of controllers, root included, as a parameter. A user pop changes the native stack outside the reconciler, so `nav` is not updated by it. The reconciler reads only the root of `nav`, and a pop never removes the root.
- The count-change guard (`countOfDestinations <= count`, `Backport.swift:177-179`) returns without resetting the count. Every other branch resets it to -1.
- At `Backport.swift:187-188`, `newCount = countOfDestinations - count` and `difference = countOfDestinations - newCount`, so `difference == count`. The handler removes `count` trailing entries, not `length - count`. The model keeps this arithmetic and records it under Findings.
- `_vcs` empties the cache and refills it with exactly the path's entries (`Backport.swift:119-120, 146`). Stale keys are evicted in that way, not by a separate pass.

## Model

| member | source | states |
|---|---|---|
| `PathEquality.IsEqual` | Sources/TCA-Backport-Navigation/Navigation-Backport.swift:36-49 | the length guard and the early-return loop return true exactly when the lengths agree and every position has the same id and the same enum tag |
| `PathEquality.LengthMismatch` | Sources/TCA-Backport-Navigation/Navigation-Backport.swift:40-41 | paths of different lengths are never equal |
| `PathEquality.SingleMismatch` | Sources/TCA-Backport-Navigation/Navigation-Backport.swift:45-46 | one position with a different id or a different tag makes the paths unequal |
| `PathEquality.SameStructureIsSameShape` | Sources/TCA-Backport-Navigation/Navigation-Backport.swift:44-48 | equal, in both directions, exactly when the sequences of (id, tag) pairs are equal, whatever the payloads |
| `PathEquality.EmptyPathsEqual` | Sources/TCA-Backport-Navigation/Navigation-Backport.swift:40-48 | two empty paths are equal |
| `PathEquality.Reflexive` | Sources/TCA-Backport-Navigation/Navigation-Backport.swift:36-49 | every path is equal to itself |
| `PathEquality.Symmetric` | Sources/TCA-Backport-Navigation/Navigation-Backport.swift:36-49 | the order of the arguments does not matter |
| `PathEquality.Transitive` | Sources/TCA-Backport-Navigation/Navigation-Backport.swift:36-49 | equality carries over through a middle path, so duplicate removal is an equivalence |
| `PathEquality.PayloadIndependence` | Sources/TCA-Backport-Navigation/Navigation-Backport.swift:45 | replacing one element by another of the same case under the same id leaves the path equal to the original |
| `DestinationBuilder.Build` | Sources/TCA-Backport-Navigation/Backport.swift:39-48 | a registered builder yields its view of the destination; with no builder the result is the placeholder, and only then |
| `CachedViews.Rebuild` | Sources/TCA-Backport-Navigation/Backport.swift:115-149 | the rebuild yields one handle per path entry and never moves the fresh-handle counter backwards |
| `CachedViews.RebuildKeys` | Sources/TCA-Backport-Navigation/Backport.swift:119-120 | the new cache's key set is exactly the path's key set, so stale keys are evicted |
| `CachedViews.RebuildHandleAt` | Sources/TCA-Backport-Navigation/Backport.swift:121-145 | a key cached before gets its cached handle back; any other key gets a new hosting controller for that key and destination, with a serial minted by this pass |
| `CachedViews.RebuildHandlesKeyed` | Sources/TCA-Backport-Navigation/Backport.swift:121-136 | with a well-formed cache, handle i is a hosting controller for the key of entry i, so the handles follow the path's order |
| `CachedViews.RebuildFreshDistinct` | Sources/TCA-Backport-Navigation/Backport.swift:125-136 | newly built handles get strictly increasing serials in path order, so no two coincide |
| `CachedViews.RebuildCacheAt` | Sources/TCA-Backport-Navigation/Backport.swift:145-146 | with unique keys, the new cache maps each key to the handle placed at that key's position |
| `CachedViews.RebuildWellKeyed` | Sources/TCA-Backport-Navigation/Backport.swift:119-147 | the rebuild preserves the cache invariant: each cached handle is built for its own key and has a serial below the counter |
| `CachedViews.RebuildAllCached` | Sources/TCA-Backport-Navigation/Backport.swift:123-124 | when every key is already cached, no handle is built |
| `CachedViews.RebuildIdempotent` | Sources/TCA-Backport-Navigation/Backport.swift:115-149 | reconciling the same path a second time gives back the same handles, the same cache and the same counter |
| `CachedViews.PushReusesHandles` | Sources/TCA-Backport-Navigation/Backport.swift:119-146 | after a path is reconciled, pushing one more destination reuses every earlier handle and builds exactly one, for the new destination |
| `Truncation.DropLast` | Sources/TCA-Backport-Navigation/Backport.swift:191 | `removeLast(k)` leaves the prefix that, followed by the last k entries, is the original |
| `Truncation.CountChange` | Sources/TCA-Backport-Navigation/Backport.swift:174-195 | as written: a count not below the path length changes nothing; the sentinel sends nothing; a count of 0 sends the empty path; 0 < count < length removes the last `count` entries; every branch except the guard resets the count |
| `Truncation.IntendedCountChange` | Sources/TCA-Backport-Navigation/Backport.swift:174-195 | corrected: under the same guard, a count in 0..length-1 sends exactly the first `count` entries, which is what the native stack still shows |
| `Truncation.AsWrittenDropsTooMany` | Sources/TCA-Backport-Navigation/Backport.swift:187-191 | with three entries and a count of 2, the code sends `[a]`, while the intended result is `[a, b]` |
| `Truncation.AsWrittenAgreesIff` | Sources/TCA-Backport-Navigation/Backport.swift:187-191 | for 0 < count < length, the code agrees with the intended truncation exactly when the length is twice the count |
| `Truncation.AgreeOutsidePartialTruncation` | Sources/TCA-Backport-Navigation/Backport.swift:177-186 | the guard, the sentinel and pop to root behave the same in both forms |
| `Reconciler.NavigationControllerViewModel.constructor` | Sources/TCA-Backport-Navigation/Backport.swift:66-77 | on creation there is no builder, no navigation controller and no cache, the flag is down and the count is the sentinel -1 |
| `Reconciler.NavigationControllerViewModel.InjectBuilder` | Sources/TCA-Backport-Navigation/Backport.swift:59-61 | registering a builder makes it the holder's builder |
| `Reconciler.NavigationControllerViewModel.Attach` | Sources/TCA-Backport-Navigation/Backport.swift:169-171 | the introspected controller becomes `nav` |
| `Reconciler.NavigationControllerViewModel.WillShow` | Sources/TCA-Backport-Navigation/Backport.swift:78-94 | with the flag set, the callback clears it and leaves the count; otherwise the count becomes the reported total minus one, excluding the root |
| `Reconciler.NavigationControllerViewModel.AddViewControllers` | Sources/TCA-Backport-Navigation/Backport.swift:96-113 | no change at all without a controller, or when count < 1 and the path is empty; otherwise the cache and counter are those of `Rebuild`, the count is the path length, the stack is the old root (if any) followed by the rebuilt handles, and the flag is set |
| `Reconciler.NavigationControllerViewModel.BuildViewControllers` | Sources/TCA-Backport-Navigation/Backport.swift:115-149 | the loop computes `Rebuild`: handles in path order, one per entry, each keyed by its entry; cached keys reuse their handle; other keys get a new handle that differs from every previously cached one; the cache holds exactly the path's keys |
| `Reconciler.NavigationController.constructor` | Sources/TCA-Backport-Navigation/Backport.swift:152-163 | the view owns a newly created view model in its initial state |
| `Reconciler.NavigationController.CountChanged` | Sources/TCA-Backport-Navigation/Backport.swift:174-195 | the handler sends what `CountChange` sends and resets the count exactly when `CountChange` says so |
| `Reconciler.NavigationController.CountChangedIntended` | Sources/TCA-Backport-Navigation/Backport.swift:174-195 | the same handler with the corrected truncation of `IntendedCountChange` |
| `Reconciler.SuppressedEcho` | Sources/TCA-Backport-Navigation/Backport.swift:84-112 | after a programmatic write of `[a, b]`, the flag is up when the callback it causes arrives and down after it; the count stays 2 and the handler sends nothing |
| `Reconciler.PopToRoot` | Sources/TCA-Backport-Navigation/Backport.swift:180-185 | with one screen pushed, a user pop to the root sends the empty path and resets the count to -1 |
| `Reconciler.PopOneOfThree` | Sources/TCA-Backport-Navigation/Backport.swift:187-194 | with three screens pushed and one popped by the user, the code sends `[a]` and the corrected handler sends `[a, b]` |

## Left out

- SwiftUI view composition: `NavigationView`, `NavigationStack`, `IfLetStore`, `WithViewStore` and the iOS 16 branch (Navigation-Backport.swift:17-34, 54-83). These are declarative UI over libraries that are not part of this model.
- Store scoping and `returningLastNonNilValue` (Navigation-Backport.swift:13, 63, 74). These are Composable Architecture calls. The store is represented by the path the handler reads and by the path it returns as "sent".
- `@Published`, `ObservableObject` and `onChange` dispatch. The handlers are explicit methods. A caller must call `CountChanged` after each change of the count and `AddViewControllers` after each path change that `isEqual` lets through. The client methods in `Reconciler` do this by hand. The deduplication of a repeated path by `isEqual` is therefore not tied to the reconciler by a single lemma. Its two halves are `Reflexive` and `RebuildIdempotent`.
- Native controller plumbing: the `UIHostingController` construction, `.id`, `.environmentObject` and `invalidateIntrinsicContentSize` (Backport.swift:126-143). A built controller is the value `Hosted(serial, key, view)`. The delegate wiring (Backport.swift:69-73) is also left out. The Introspect hook is modelled only as the assignment `Attach`.
- UIKit's own change to the native stack on a user pop. `WillShow` receives only the resulting total count.
- `DestinationBuilderModifier` and `nbNavigationDestination` registration (Backport.swift:14-31, 51-63). These are environment injection. Only the assignment made on appear is modelled, as `InjectBuilder`.
- `DestinationBuilder.Build`: the `assertionFailure` when no builder is registered is not modelled. That failure traps only in debug builds; the model gives the release behaviour, which is the empty placeholder.
- `navLink` (Backport.swift:199-246). It is a SwiftUI binding wrapper. Its one rule is that the dismiss action is sent only when the link is deactivated while the parent state is non-nil (Backport.swift:220-222).
- `Package.swift`. It is a dependency manifest.
- Swift `Int` overflow. Counts are unbounded integers; the counts involved are stack sizes, far below the 64-bit range.

## Findings

| source | as written | input that shows it | evidently intended | confidence | as-written member | corrected member |
|---|---|---|---|---|---|---|
| Sources/TCA-Backport-Navigation/Backport.swift:187-191 | `difference = countOfDestinations - (countOfDestinations - count)`, which is `count`; the handler removes `count` trailing entries | path `[a, b, c]` is reconciled, then the user pops once, so the native stack reports 3 controllers and the count becomes 2; the handler sends `[a]` | remove `countOfDestinations - count` entries, keeping the `count` screens still shown: `[a, b]` | not executed; the arithmetic is unambiguous, and the two agree only when the path is twice the count | `Truncation.AsWrittenDropsTooMany` (with `Truncation.CountChange`, `Reconciler.PopOneOfThree`) | `Truncation.IntendedCountChange` (with `Reconciler.NavigationController.CountChangedIntended`) |
