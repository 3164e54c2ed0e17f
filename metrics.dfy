/**
 * The metrics engine: one shared metrics object whose fields `processEvent`
 * and `getMetrics` overwrite in place. `processEvent` keeps the 50 newest
 * events, newest first; `getMetrics` runs six store queries in order and
 * assigns each result as it arrives, so a query that fails leaves the fields
 * it did not reach as they were.
 */
module MetricsService {
  import opened Wrappers
  import opened EventModel
  import opened Aggregates

  const RECENT_LIMIT: nat := 50

  /** One entry of `recentEvents`. */
  datatype RecentEntry = RecentEntry(event: EventType, page: string, timestamp: real, sessionId: string)

  function EntryOf(e: Event): (r: RecentEntry)
    ensures r.event == e.event && r.page == e.page && r.timestamp == e.timestamp && r.sessionId == e.sessionId
  {
    RecentEntry(e.event, e.page, e.timestamp, e.sessionId)
  }

  function Min(a: nat, b: nat): nat
  {
    if a <= b then a else b
  }

  /** `unshift(x)`, then `slice(0, 50)` once the buffer holds more than 50 entries. */
  function PushRecent(buffer: seq<RecentEntry>, x: RecentEntry): (r: seq<RecentEntry>)
    ensures |r| == Min(|buffer| + 1, RECENT_LIMIT)
    ensures r[0] == x
    ensures forall i :: 0 <= i < |r| - 1 ==> r[i + 1] == buffer[i]
  {
    var pushed := [x] + buffer;
    if |pushed| > RECENT_LIMIT then pushed[..RECENT_LIMIT] else pushed
  }

  function Reverse<T>(xs: seq<T>): (r: seq<T>)
    ensures |r| == |xs|
    ensures forall i :: 0 <= i < |xs| ==> r[i] == xs[|xs| - 1 - i]
  {
    if xs == [] then [] else [xs[|xs| - 1]] + Reverse(xs[..|xs| - 1])
  }

  /** The buffer after pushing `xs` in order onto `buffer`. */
  function PushAll(buffer: seq<RecentEntry>, xs: seq<RecentEntry>): seq<RecentEntry>
    decreases |xs|
  {
    if xs == [] then buffer else PushRecent(PushAll(buffer, xs[..|xs| - 1]), xs[|xs| - 1])
  }

  /** Starting empty, the buffer holds the 50 newest events, newest first. */
  lemma {:induction false} RecentIsNewestFifty(xs: seq<RecentEntry>)
    ensures PushAll([], xs) == Reverse(xs)[..Min(|xs|, RECENT_LIMIT)]
  {
    if xs != [] {
      var init := xs[..|xs| - 1];
      RecentIsNewestFifty(init);
      var b := PushAll([], init);
      var r := PushRecent(b, xs[|xs| - 1]);
      var want := Reverse(xs)[..Min(|xs|, RECENT_LIMIT)];
      assert |r| == |want|;
      forall i | 0 <= i < |r| ensures r[i] == want[i] {
        if i > 0 {
          assert r[i] == b[i - 1];
          assert b[i - 1] == Reverse(init)[i - 1];
        }
      }
    }
  }

  /** The six queries of `getMetrics`, in the order they run. */
  datatype Query = CountPageViews | DistinctActive | DistinctToday | TopPagesQuery | HistoryQuery | DeviceQuery

  function Rank(q: Query): nat
  {
    match q
    case CountPageViews => 0
    case DistinctActive => 1
    case DistinctToday => 2
    case TopPagesQuery => 3
    case HistoryQuery => 4
    case DeviceQuery => 5
  }

  /** Whether the run reaches and assigns the result of query `q` when `failing` rejects. */
  predicate Reached(q: Query, failing: Option<Query>)
  {
    failing.None? || Rank(q) < Rank(failing.value)
  }

  /** The value of the metrics object. */
  datatype Snapshot = Snapshot(
    activeUsers: nat,
    pageViewsLastMinute: nat,
    topPages: seq<PageCount>,
    deviceStats: map<Device, nat>,
    uniqueVisitorsToday: nat,
    recentEvents: seq<RecentEntry>,
    pageViewsHistory: seq<HistoryPoint>)

  const EMPTY: Snapshot := Snapshot(0, 0, [], map[], 0, [], [])

  /** Every aggregate freshly computed. */
  function Fresh(store: seq<Event>, now: int, recent: seq<RecentEntry>): (r: Snapshot)
    ensures r.recentEvents == recent
  {
    Snapshot(ActiveUsers(store, now), PageViewsLastMinute(store, now), TopPages(store, now),
      DeviceStats(store, now), UniqueVisitorsToday(store, now), recent, PageViewsHistory(store, now))
  }

  /**
   * The metrics object after a `getMetrics` whose query `failing` (if any)
   * rejects: the fields of the queries before it hold the fresh values, the
   * others keep their previous ones.
   */
  function Overlay(prev: Snapshot, latest: Snapshot, failing: Option<Query>): (r: Snapshot)
    ensures r.recentEvents == prev.recentEvents
    ensures failing == Some(CountPageViews) ==> r == prev
    ensures failing.None? && latest.recentEvents == prev.recentEvents ==> r == latest
  {
    Snapshot(
      if Reached(DistinctActive, failing) then latest.activeUsers else prev.activeUsers,
      if Reached(CountPageViews, failing) then latest.pageViewsLastMinute else prev.pageViewsLastMinute,
      if Reached(TopPagesQuery, failing) then latest.topPages else prev.topPages,
      if Reached(DeviceQuery, failing) then latest.deviceStats else prev.deviceStats,
      if Reached(DistinctToday, failing) then latest.uniqueVisitorsToday else prev.uniqueVisitorsToday,
      prev.recentEvents,
      if Reached(HistoryQuery, failing) then latest.pageViewsHistory else prev.pageViewsHistory)
  }

  /** `getMetrics` at time `now` over `store`. */
  function Recompute(prev: Snapshot, store: seq<Event>, now: int, failing: Option<Query>): (r: Snapshot)
    ensures r.recentEvents == prev.recentEvents
    ensures failing.None? ==> r == Fresh(store, now, prev.recentEvents)
    ensures failing == Some(CountPageViews) ==> r == prev
  {
    Overlay(prev, Fresh(store, now, prev.recentEvents), failing)
  }

  /** A successful recomputation does not depend on what the object held before, beyond the recent events. */
  lemma RecomputeForgetsPrevious(a: Snapshot, b: Snapshot, store: seq<Event>, now: int)
    requires a.recentEvents == b.recentEvents
    ensures Recompute(a, store, now, None) == Recompute(b, store, now, None)
    ensures Recompute(a, store, now, None) == Fresh(store, now, a.recentEvents)
  {
  }

  /**
   * A failed run, followed by a successful one over the same store and time,
   * ends where the successful run alone would.
   */
  lemma RecomputeRecovers(prev: Snapshot, latest: Snapshot, q: Query)
    requires latest.recentEvents == prev.recentEvents
    ensures Overlay(Overlay(prev, latest, Some(q)), latest, None) == Overlay(prev, latest, None)
  {
  }

  /**
   * The object after each way `getMetrics` can end: the fields are assigned in
   * query order, and a failing query stops the assignments before its own.
   */
  lemma OverlaySteps(prev: Snapshot, latest: Snapshot)
    requires latest.recentEvents == prev.recentEvents
    ensures Overlay(prev, latest, Some(CountPageViews)) == prev
    ensures Overlay(prev, latest, Some(DistinctActive)) == prev.(pageViewsLastMinute := latest.pageViewsLastMinute)
    ensures Overlay(prev, latest, Some(DistinctToday)) ==
      prev.(pageViewsLastMinute := latest.pageViewsLastMinute, activeUsers := latest.activeUsers)
    ensures Overlay(prev, latest, Some(TopPagesQuery)) ==
      prev.(pageViewsLastMinute := latest.pageViewsLastMinute, activeUsers := latest.activeUsers,
            uniqueVisitorsToday := latest.uniqueVisitorsToday)
    ensures Overlay(prev, latest, Some(HistoryQuery)) ==
      prev.(pageViewsLastMinute := latest.pageViewsLastMinute, activeUsers := latest.activeUsers,
            uniqueVisitorsToday := latest.uniqueVisitorsToday, topPages := latest.topPages)
    ensures Overlay(prev, latest, Some(DeviceQuery)) == latest.(deviceStats := prev.deviceStats)
    ensures Overlay(prev, latest, None) == latest
  {
  }

  /** The loop that fills the gaps of the history, oldest minute first. */
  method FillHistory(groups: seq<Group<int>>, now: int) returns (filled: seq<HistoryPoint>)
    ensures filled == Filled(groups, now)
  {
    filled := [];
    var i: int := HISTORY_MINUTES - 1;
    while i >= 0
      invariant -1 <= i <= HISTORY_MINUTES - 1
      invariant |filled| == HISTORY_MINUTES - 1 - i
      invariant forall k :: 0 <= k < |filled| ==> filled[k] == Point(groups, now, k)
    {
      var time := now - i * MINUTE_MS;
      var minuteTimestamp := time - JsRemainder(time, MINUTE_MS);
      var found := Find(groups, minuteTimestamp);
      var views := if found.Some? then groups[found.value].count else 0;
      assert HistoryPoint(minuteTimestamp, views) == Point(groups, now, HISTORY_MINUTES - 1 - i);
      filled := filled + [HistoryPoint(minuteTimestamp, views)];
      i := i - 1;
    }
    FilledAt(groups, now);
  }

  /** The shared `this.metrics` object. */
  class Metrics {
    var activeUsers: nat
    var pageViewsLastMinute: nat
    var topPages: seq<PageCount>
    var deviceStats: map<Device, nat>
    var uniqueVisitorsToday: nat
    var recentEvents: seq<RecentEntry>
    var pageViewsHistory: seq<HistoryPoint>

    function Value(): Snapshot
      reads this
    {
      Snapshot(activeUsers, pageViewsLastMinute, topPages, deviceStats, uniqueVisitorsToday, recentEvents, pageViewsHistory)
    }

    constructor()
      ensures Value() == EMPTY
    {
      activeUsers := 0;
      pageViewsLastMinute := 0;
      topPages := [];
      deviceStats := map[];
      uniqueVisitorsToday := 0;
      recentEvents := [];
      pageViewsHistory := [];
    }
  }

  class MetricsEngine {
    const metrics: Metrics

    constructor()
      ensures fresh(metrics) && metrics.Value() == EMPTY
    {
      metrics := new Metrics();
    }

    /** `processEvent`: records the event at the head of `recentEvents`; nothing else changes. */
    method ProcessEvent(e: Event)
      modifies metrics
      ensures metrics.Value() == old(metrics.Value()).(recentEvents := PushRecent(old(metrics.recentEvents), EntryOf(e)))
    {
      metrics.recentEvents := PushRecent(metrics.recentEvents, EntryOf(e));
    }

    /**
     * `getMetrics` at time `now` over the stored events, where the query
     * `failing` (if any) rejects; the same object is returned either way.
     */
    method GetMetrics(store: seq<Event>, now: int, failing: Option<Query>) returns (r: Metrics)
      modifies metrics
      ensures r == metrics
      ensures metrics.Value() == Recompute(old(metrics.Value()), store, now, failing)
    {
      r := metrics;
      RefreshCounts(PageViewsLastMinute(store, now), ActiveUsers(store, now), UniqueVisitorsToday(store, now), failing);
      var history := FillHistory(HistoryGroups(store, now), now);
      RefreshAggregations(TopPages(store, now), history, DeviceStats(store, now), failing);
    }

    /**
     * The three counting queries of the `try` block, each result assigned as
     * soon as it arrives; `views`, `active` and `visitors` are what they resolve with.
     */
    method RefreshCounts(views: nat, active: nat, visitors: nat, failing: Option<Query>)
      modifies metrics
      ensures metrics.pageViewsLastMinute == if Reached(CountPageViews, failing) then views else old(metrics.pageViewsLastMinute)
      ensures metrics.activeUsers == if Reached(DistinctActive, failing) then active else old(metrics.activeUsers)
      ensures metrics.uniqueVisitorsToday == if Reached(DistinctToday, failing) then visitors else old(metrics.uniqueVisitorsToday)
      ensures metrics.topPages == old(metrics.topPages)
      ensures metrics.pageViewsHistory == old(metrics.pageViewsHistory)
      ensures metrics.deviceStats == old(metrics.deviceStats)
      ensures metrics.recentEvents == old(metrics.recentEvents)
    {
      if failing == Some(CountPageViews) { return; }
      metrics.pageViewsLastMinute := views;
      if failing == Some(DistinctActive) { return; }
      metrics.activeUsers := active;
      if failing == Some(DistinctToday) { return; }
      assert Reached(DistinctToday, failing);
      metrics.uniqueVisitorsToday := visitors;
    }

    /**
     * The three aggregation pipelines of the `try` block, run only when the
     * counts succeeded; `top`, `history` and `devices` are what they resolve with.
     */
    method RefreshAggregations(top: seq<PageCount>, history: seq<HistoryPoint>, devices: map<Device, nat>,
                               failing: Option<Query>)
      modifies metrics
      ensures metrics.topPages == if Reached(TopPagesQuery, failing) then top else old(metrics.topPages)
      ensures metrics.pageViewsHistory == if Reached(HistoryQuery, failing) then history else old(metrics.pageViewsHistory)
      ensures metrics.deviceStats == if Reached(DeviceQuery, failing) then devices else old(metrics.deviceStats)
      ensures metrics.pageViewsLastMinute == old(metrics.pageViewsLastMinute)
      ensures metrics.activeUsers == old(metrics.activeUsers)
      ensures metrics.uniqueVisitorsToday == old(metrics.uniqueVisitorsToday)
      ensures metrics.recentEvents == old(metrics.recentEvents)
    {
      if !Reached(TopPagesQuery, failing) { return; }
      metrics.topPages := top;
      if failing == Some(HistoryQuery) { return; }
      metrics.pageViewsHistory := history;
      if failing == Some(DeviceQuery) { return; }
      assert failing.None?;
      metrics.deviceStats := devices;
    }
  }
}
