/**
 * The view tracker: an intersection callback that records a `view`
 * interaction for each intersecting entry, latched by `hasTracked` so that in
 * the default track-once mode an item instance is recorded at most once.
 *
 * The observer itself (creating it with the threshold, observing, disconnecting)
 * is not modelled: batches of entries arrive as parameters, and the time of a
 * batch is a parameter too.
 */
module ViewTracker {
  import opened Wrappers
  import opened JsValues
  import opened FeedTypes
  import UseFeed

  const DefaultThreshold: real := 0.5

  /** The hook's options; a `None` field takes its default. */
  datatype ViewTrackingOptions = ViewTrackingOptions(contentId: string, threshold: Option<real>, trackOnce: Option<bool>)

  function ResolvedThreshold(o: ViewTrackingOptions): real {
    o.threshold.GetOr(DefaultThreshold)
  }

  function ResolvedTrackOnce(o: ViewTrackingOptions): bool {
    o.trackOnce.GetOr(true)
  }

  /** Options given without a threshold or a mode observe at one half and track once. */
  lemma HookDefaults(contentId: string)
    ensures ResolvedThreshold(ViewTrackingOptions(contentId, None, None)) == 0.5
    ensures ResolvedTrackOnce(ViewTrackingOptions(contentId, None, None))
  {
  }

  /** `<ViewTracker>` passes its own threshold (one half unless given) and never a mode, so it always tracks once. */
  function ViewTrackerOptions(contentId: string, threshold: Option<real>): (o: ViewTrackingOptions)
    ensures o.contentId == contentId
    ensures ResolvedTrackOnce(o)
    ensures ResolvedThreshold(o) == (if threshold.Some? then threshold.value else 0.5)
  {
    ViewTrackingOptions(contentId, Some(threshold.GetOr(DefaultThreshold)), None)
  }

  /** One observer entry; the threshold was applied by the observer before the callback runs. */
  datatype Entry = Entry(isIntersecting: bool, intersectionRatio: real)

  function ViewMetadata(now: string, ratio: real): map<string, Json> {
    map["viewedAt" := JStr(now), "intersectionRatio" := JNum(ratio)]
  }

  /** The tracking call made for one firing entry. */
  function ViewCall(contentId: string, now: string, ratio: real): UseFeed.RemoteCall {
    UseFeed.TrackingCall(contentId, View, Some(ViewMetadata(now, ratio)))
  }

  predicate Fires(trackOnce: bool, hasTracked: bool, e: Entry) {
    e.isIntersecting && (!trackOnce || !hasTracked)
  }

  /** The calls a batch makes, in entry order, and the latch afterwards. */
  function TrackBatch(contentId: string, trackOnce: bool, hasTracked: bool, entries: seq<Entry>, now: string)
    : (seq<UseFeed.RemoteCall>, bool)
    decreases |entries|
  {
    if entries == [] then ([], hasTracked)
    else
      var r := TrackBatch(contentId, trackOnce, hasTracked, entries[..|entries| - 1], now);
      var e := entries[|entries| - 1];
      if Fires(trackOnce, r.1, e) then (r.0 + [ViewCall(contentId, now, e.intersectionRatio)], true) else r
  }

  predicate AnyIntersecting(entries: seq<Entry>) {
    exists k :: 0 <= k < |entries| && entries[k].isIntersecting
  }

  /** The latch only goes up: afterwards it is set exactly when it was set before or some entry intersected. */
  lemma {:induction false} LatchMonotone(contentId: string, trackOnce: bool, hasTracked: bool, entries: seq<Entry>, now: string)
    ensures TrackBatch(contentId, trackOnce, hasTracked, entries, now).1 == (hasTracked || AnyIntersecting(entries))
    decreases |entries|
  {
    if entries != [] {
      var init := entries[..|entries| - 1];
      LatchMonotone(contentId, trackOnce, hasTracked, init, now);
      if AnyIntersecting(init) {
        var k :| 0 <= k < |init| && init[k].isIntersecting;
        assert entries[k].isIntersecting;
      }
      if AnyIntersecting(entries) && !entries[|entries| - 1].isIntersecting {
        var k :| 0 <= k < |entries| && entries[k].isIntersecting;
        assert init[k].isIntersecting;
      }
    }
  }

  /** Every call records a `view` of this hook's content, with the ratio of an intersecting entry of the batch. */
  lemma {:induction false} CallsCarryEntry(contentId: string, trackOnce: bool, hasTracked: bool, entries: seq<Entry>, now: string)
    ensures forall c :: c in TrackBatch(contentId, trackOnce, hasTracked, entries, now).0 ==>
              && c.RecordCall? && c.contentId == contentId && c.interactionType == View
              && exists k :: 0 <= k < |entries| && entries[k].isIntersecting
                             && c.metadata == Some(ViewMetadata(now, entries[k].intersectionRatio))
    decreases |entries|
  {
    if entries != [] {
      var init := entries[..|entries| - 1];
      CallsCarryEntry(contentId, trackOnce, hasTracked, init, now);
      forall c | c in TrackBatch(contentId, trackOnce, hasTracked, init, now).0
        ensures exists k :: 0 <= k < |entries| && entries[k].isIntersecting
                            && c.metadata == Some(ViewMetadata(now, entries[k].intersectionRatio))
      {
        var k :| 0 <= k < |init| && init[k].isIntersecting && c.metadata == Some(ViewMetadata(now, init[k].intersectionRatio));
        assert entries[k] == init[k];
      }
    }
  }

  /** In track-once mode a batch makes at most one call: none once latched, one when unlatched and something intersects. */
  lemma {:induction false} TrackOnceBatch(contentId: string, hasTracked: bool, entries: seq<Entry>, now: string)
    ensures var r := TrackBatch(contentId, true, hasTracked, entries, now);
      && |r.0| <= 1
      && (hasTracked ==> r.0 == [])
      && (!hasTracked ==> |r.0| == (if AnyIntersecting(entries) then 1 else 0))
    decreases |entries|
  {
    if entries != [] {
      var init := entries[..|entries| - 1];
      TrackOnceBatch(contentId, hasTracked, init, now);
      LatchMonotone(contentId, true, hasTracked, init, now);
      if AnyIntersecting(init) {
        var k :| 0 <= k < |init| && init[k].isIntersecting;
        assert entries[k].isIntersecting;
      }
      if AnyIntersecting(entries) && !entries[|entries| - 1].isIntersecting {
        var k :| 0 <= k < |entries| && entries[k].isIntersecting;
        assert init[k].isIntersecting;
      }
    }
  }

  /** The entries that intersect, in order. */
  function Intersecting(entries: seq<Entry>): seq<Entry>
    decreases |entries|
  {
    if entries == [] then []
    else
      var init := Intersecting(entries[..|entries| - 1]);
      if entries[|entries| - 1].isIntersecting then init + [entries[|entries| - 1]] else init
  }

  /** One view call per entry, in entry order. */
  function ViewCalls(contentId: string, now: string, es: seq<Entry>): seq<UseFeed.RemoteCall> {
    seq(|es|, i requires 0 <= i < |es| => ViewCall(contentId, now, es[i].intersectionRatio))
  }

  /** The index of the first entry that intersects. */
  function FirstIntersecting(entries: seq<Entry>): (k: nat)
    requires AnyIntersecting(entries)
    ensures k < |entries| && entries[k].isIntersecting
    ensures forall j :: 0 <= j < k ==> !entries[j].isIntersecting
    decreases |entries|
  {
    if entries[0].isIntersecting then 0
    else
      assert AnyIntersecting(entries[1..]) by {
        var k :| 0 <= k < |entries| && entries[k].isIntersecting;
        assert entries[1..][k - 1] == entries[k];
      }
      1 + FirstIntersecting(entries[1..])
  }

  /**
   * In track-once mode an unlatched instance reports the FIRST intersecting
   * entry of a batch: the latch is set inside the loop, so later entries no
   * longer fire.
   */
  lemma {:induction false} TrackOnceReportsFirst(contentId: string, entries: seq<Entry>, now: string)
    requires AnyIntersecting(entries)
    ensures TrackBatch(contentId, true, false, entries, now).0
            == [ViewCall(contentId, now, entries[FirstIntersecting(entries)].intersectionRatio)]
    decreases |entries|
  {
    var init := entries[..|entries| - 1];
    var first := FirstIntersecting(entries);
    LatchMonotone(contentId, true, false, init, now);
    if AnyIntersecting(init) {
      TrackOnceReportsFirst(contentId, init, now);
      var firstInit := FirstIntersecting(init);
      assert entries[firstInit] == init[firstInit];
    } else {
      TrackOnceBatch(contentId, false, init, now);
    }
  }

  /** With track-once off, every intersecting entry makes a call, in order, latched or not. */
  lemma {:induction false} RepeatModeBatch(contentId: string, hasTracked: bool, entries: seq<Entry>, now: string)
    ensures TrackBatch(contentId, false, hasTracked, entries, now).0 == ViewCalls(contentId, now, Intersecting(entries))
    decreases |entries|
  {
    if entries != [] {
      var init := entries[..|entries| - 1];
      RepeatModeBatch(contentId, hasTracked, init, now);
    }
  }

  /** What a hook instance does over a sequence of batches, each with its time. */
  function TrackBatches(contentId: string, trackOnce: bool, hasTracked: bool, batches: seq<(seq<Entry>, string)>)
    : (seq<UseFeed.RemoteCall>, bool)
    decreases |batches|
  {
    if batches == [] then ([], hasTracked)
    else
      var r := TrackBatch(contentId, trackOnce, hasTracked, batches[0].0, batches[0].1);
      var rest := TrackBatches(contentId, trackOnce, r.1, batches[1..]);
      (r.0 + rest.0, rest.1)
  }

  /** In track-once mode an instance makes at most one call over any sequence of batches, and none once latched. */
  lemma {:induction false} TrackOnceOverall(contentId: string, hasTracked: bool, batches: seq<(seq<Entry>, string)>)
    ensures var r := TrackBatches(contentId, true, hasTracked, batches);
      |r.0| <= 1 && (hasTracked ==> r.0 == [] && r.1) && (|r.0| == 1 ==> r.1)
    decreases |batches|
  {
    if batches != [] {
      var first := TrackBatch(contentId, true, hasTracked, batches[0].0, batches[0].1);
      TrackOnceBatch(contentId, hasTracked, batches[0].0, batches[0].1);
      LatchMonotone(contentId, true, hasTracked, batches[0].0, batches[0].1);
      TrackOnceOverall(contentId, first.1, batches[1..]);
      if first.0 != [] {
        assert AnyIntersecting(batches[0].0);
        assert first.1;
      }
    }
  }

  /** One hook instance: `useViewTracking(options)` with its `hasTracked` ref. */
  class ViewTracking {
    const contentId: string
    const threshold: real
    const trackOnce: bool
    var hasTracked: bool

    constructor (options: ViewTrackingOptions)
      ensures contentId == options.contentId
      ensures threshold == ResolvedThreshold(options) && trackOnce == ResolvedTrackOnce(options)
      ensures !hasTracked
    {
      contentId := options.contentId;
      threshold := ResolvedThreshold(options);
      trackOnce := ResolvedTrackOnce(options);
      hasTracked := false;
    }

    /** `handleIntersection(entries)`: walks the entries in order, firing and latching. */
    method HandleIntersection(entries: seq<Entry>, now: string) returns (calls: seq<UseFeed.RemoteCall>)
      modifies this
      ensures (calls, hasTracked) == TrackBatch(contentId, trackOnce, old(hasTracked), entries, now)
    {
      calls := [];
      var i := 0;
      while i < |entries|
        invariant 0 <= i <= |entries|
        invariant (calls, hasTracked) == TrackBatch(contentId, trackOnce, old(hasTracked), entries[..i], now)
      {
        var entry := entries[i];
        assert entries[..i + 1][..i] == entries[..i];
        if entry.isIntersecting && (!trackOnce || !hasTracked) {
          hasTracked := true;
          calls := calls + [ViewCall(contentId, now, entry.intersectionRatio)];
        }
        i := i + 1;
      }
      assert entries[..|entries|] == entries;
    }
  }
}
