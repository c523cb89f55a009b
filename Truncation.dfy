/**
 What the `onChange(of: navigationControllerCount)` handler of
 `NavigationController` does with the current path and the new mirrored
 count: whether it sends a shortened path to the store, and whether it then
 resets the mirrored count to the sentinel -1.

 `CountChange` follows the arithmetic as written: the handler derives
 `newCount = n - count` and `difference = n - newCount`, which is `count`
 itself, and removes that many trailing entries. `IntendedCountChange` keeps
 exactly the `count` screens the native stack still shows, which is the
 behaviour the back-navigation detection is meant to have; the two agree
 only when the number removed equals the number kept.
 */
module Truncation {
  import opened Wrappers

  /** The handler's effect: the path sent to the store, if any, and whether the count is reset to -1. */
  datatype CountOutcome<T> = CountOutcome(sent: Option<seq<T>>, resetsCount: bool)

  /** `removeLast(k)`: the path without its last `k` entries; Swift traps for `k` over the length. */
  function DropLast<T>(s: seq<T>, k: nat): (r: seq<T>)
    requires k <= |s|
    ensures |r| == |s| - k && r + s[|s| - k..] == s
  {
    s[..|s| - k]
  }

  /** The count-change handler, as written. */
  function CountChange<T>(path: seq<T>, count: int): (o: CountOutcome<T>)
    // Guard: a count that is not below the path length changes nothing, not even the count.
    ensures |path| <= count ==> o == CountOutcome(None, false)
    // Every other branch resets the mirrored count to the sentinel.
    ensures count < |path| ==> o.resetsCount
    // Pop to root: a count of 0 under a non-empty path sends the empty path.
    ensures count == 0 && 0 < |path| ==> o.sent == Some([])
    // The sentinel (and any negative count) sends nothing.
    ensures count < 0 ==> o.sent == None
    // Partial truncation: the last `count` entries are removed, leaving a prefix.
    ensures 0 < count < |path| ==>
              o.sent.Some? && |o.sent.value| == |path| - count && o.sent.value == path[..|path| - count]
  {
    var countOfDestinations := |path|;
    if countOfDestinations < 0 || countOfDestinations <= count then
      CountOutcome(None, false)
    else if count == 0 && countOfDestinations > 0 then
      CountOutcome(Some([]), true)
    else
      var newCount := countOfDestinations - count;
      var difference := countOfDestinations - newCount;
      if difference > 0 then
        CountOutcome(Some(DropLast(path, difference)), true)
      else
        CountOutcome(None, true)
  }

  /** The count-change handler as intended: keep the `count` screens the native stack still shows. */
  function IntendedCountChange<T>(path: seq<T>, count: int): (o: CountOutcome<T>)
    ensures |path| <= count ==> o == CountOutcome(None, false)
    ensures count < |path| ==> o.resetsCount
    ensures count < 0 ==> o.sent == None
    // The sent path is the prefix of the length the native stack now has (empty for a pop to root).
    ensures 0 <= count < |path| ==>
              o.sent.Some? && |o.sent.value| == count && o.sent.value == path[..count]
  {
    if |path| <= count then
      CountOutcome(None, false)
    else if count < 0 then
      CountOutcome(None, true)
    else
      CountOutcome(Some(DropLast(path, |path| - count)), true)
  }

  /**
   Counterexample to the as-written arithmetic: with three screens pushed,
   a user pop leaves the native stack showing two, so the mirrored count is
   2; the handler removes two entries and sends `[a]` instead of `[a, b]`.
   */
  lemma AsWrittenDropsTooMany<T>(a: T, b: T, c: T)
    ensures CountChange([a, b, c], 2).sent == Some([a])
    ensures IntendedCountChange([a, b, c], 2).sent == Some([a, b])
  {
    assert [a, b, c][..1] == [a];
    assert [a, b, c][..2] == [a, b];
  }

  /**
   Outside the pop-to-root and guard cases, the as-written handler agrees with
   the intended one exactly when the path is twice as long as the count.
   */
  lemma AsWrittenAgreesIff<T>(path: seq<T>, count: int)
    requires 0 < count < |path|
    ensures CountChange(path, count) == IntendedCountChange(path, count) <==> |path| == 2 * count
  {
    var o, p := CountChange(path, count), IntendedCountChange(path, count);
    if o == p {
      assert |o.sent.value| == |p.sent.value|;
    }
  }

  /** Both handlers agree on every count that does not truncate partially. */
  lemma AgreeOutsidePartialTruncation<T>(path: seq<T>, count: int)
    requires !(0 < count < |path|)
    ensures CountChange(path, count) == IntendedCountChange(path, count)
  {
  }
}
