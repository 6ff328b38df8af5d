/**
 * The layout selector of the audio layout: a pure decision over the state the
 * element reads when it renders (its breakpoint match, the player's `load`
 * prop, the media store's `canLoad` and `streamType`, and the element's
 * `isSmallLayout` flag).
 */
module Layouts {

  /** The player's `load` prop: when media starts loading. */
  datatype LoadMode = Eager | Idle | Visible | Custom | Play

  /** The media store's `streamType`. */
  datatype StreamType = Unknown | OnDemand | Live | LiveDvr | LowLatencyLive | LowLatencyLiveDvr

  /** The values the selector reads, taken together at one render. */
  datatype Snapshot = Snapshot(
    isMatch: bool,
    load: LoadMode,
    canLoad: bool,
    streamType: StreamType,
    isSmallLayout: bool)

  /** What is rendered: nothing, the load placeholder, or the small or large audio layout. */
  datatype Layout = NoLayout | LoadLayout | SmallLayout | LargeLayout

  /** The player waits for a play request before it may load. */
  predicate AwaitingLoad(s: Snapshot) {
    s.load == Play && !s.canLoad
  }

  /**
   * The layout for a snapshot. The gates apply in a fixed order: breakpoint
   * match, then loading, then a known stream type, then size.
   */
  function Select(s: Snapshot): (r: Layout)
    ensures !s.isMatch ==> r == NoLayout
    ensures r == LoadLayout <==> s.isMatch && AwaitingLoad(s)
    ensures (r == SmallLayout || r == LargeLayout) <==>
              s.isMatch && !AwaitingLoad(s) && s.streamType != Unknown
    ensures r == SmallLayout ==> s.isSmallLayout
    ensures r == LargeLayout ==> !s.isSmallLayout
  {
    if s.isMatch then
      if AwaitingLoad(s) then LoadLayout
      else if s.streamType != Unknown then
        if s.isSmallLayout then SmallLayout else LargeLayout
      else NoLayout
    else NoLayout
  }

  /** Loading takes precedence over the stream type: while loading, the stream type is not looked at. */
  lemma LoadingIgnoresStreamType(s: Snapshot, t: StreamType)
    requires s.isMatch && AwaitingLoad(s)
    ensures Select(s.(streamType := t)) == Select(s) == LoadLayout
  {}

  /** The breakpoint gate is outermost: outside it, no other input matters. */
  lemma UnmatchedIgnoresEverythingElse(s: Snapshot, u: Snapshot)
    requires !s.isMatch && !u.isMatch
    ensures Select(s) == Select(u) == NoLayout
  {}

  /** The size flag only chooses between the small and the large layout. */
  lemma SizeOnlyPicksVariant(s: Snapshot)
    ensures Select(s.(isSmallLayout := !s.isSmallLayout)) != Select(s) <==>
              Select(s) == SmallLayout || Select(s) == LargeLayout
  {}

  /** A matched, playable-on-request player with an unknown stream shows the load placeholder, not nothing. */
  lemma LoadingBeforeUnknownStream()
    ensures Select(Snapshot(true, Play, false, Unknown, true)) == LoadLayout
  {}

  /** A matched, loaded on-demand stream on a wide screen gets the large layout. */
  lemma LoadedOnDemandWide()
    ensures Select(Snapshot(true, Eager, true, OnDemand, false)) == LargeLayout
  {}
}
