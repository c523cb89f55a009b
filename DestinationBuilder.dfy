/**
 The late-bound screen builder (`DestinationBuilderHolder`). The builder is
 injected by a view modifier when a screen type appears; until then it is
 absent, and building yields an empty placeholder.
 */
module DestinationBuilder {
  import opened Wrappers
  import opened NavigationState

  /** What a destination is rendered as: the registered builder's view, or the placeholder. */
  datatype Screen<V> = Built(view: V) | Placeholder

  /** `DestinationBuilderHolder.build`. */
  function Build<K, E, V>(builder: Option<Destination<K, E> -> V>, d: Destination<K, E>): (s: Screen<V>)
    ensures s.Placeholder? <==> builder.None?
    ensures builder.Some? ==> s.view == builder.value(d)
  {
    match builder
    case Some(f) => Built(f(d))
    case None => Placeholder
  }
}
