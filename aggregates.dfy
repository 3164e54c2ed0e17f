/**
 * The store queries behind the metrics, each a pure function of the stored
 * events and the current time `now` (epoch milliseconds): the `$match`,
 * `$group`, `$sort` and `$limit` stages, `countDocuments` and `distinct`.
 */
module Aggregates {
  import opened Wrappers
  import opened EventModel

  const MINUTE_MS: int := 60000
  const FIVE_MINUTES_MS: int := 300000
  const THIRTY_MINUTES_MS: int := 1800000
  const DAY_MS: int := 86400000
  const TOP_PAGES_LIMIT: nat := 10
  const HISTORY_MINUTES: nat := 30

  // ---------------------------------------------------------------- $match

  /** A `$match` filter: an optional event type, an optional page, and `timestamp: {$gte: since}`. */
  datatype Filter = Filter(eventType: Option<EventType>, page: Option<string>, since: int)

  predicate Matches(e: Event, f: Filter)
  {
    && (f.eventType.None? || e.event == f.eventType.value)
    && (f.page.None? || e.page == f.page.value)
    && e.timestamp >= f.since as real
  }

  /** The stored events a filter selects, in store order, each as often as it is stored. */
  function Select(store: seq<Event>, f: Filter): (r: seq<Event>)
    ensures |r| <= |store|
  {
    if store == [] then []
    else (if Matches(store[0], f) then [store[0]] else []) + Select(store[1..], f)
  }

  /** A filter selects every matching stored event as often as it is stored, and nothing else. */
  lemma {:induction false} SelectMultiplicity(store: seq<Event>, f: Filter)
    ensures forall e :: multiset(Select(store, f))[e] == if Matches(e, f) then multiset(store)[e] else 0
  {
    if store != [] {
      SelectMultiplicity(store[1..], f);
      assert store == [store[0]] + store[1..];
    }
  }

  /** Selecting from two stores one after the other selects from their concatenation. */
  lemma {:induction false} SelectAppend(a: seq<Event>, b: seq<Event>, f: Filter)
    ensures Select(a + b, f) == Select(a, f) + Select(b, f)
  {
    if a == [] {
      assert a + b == b;
    } else {
      assert (a + b)[0] == a[0];
      assert (a + b)[1..] == a[1..] + b;
      SelectAppend(a[1..], b, f);
    }
  }

  /** `countDocuments(filter)`. */
  function CountDocuments(store: seq<Event>, f: Filter): nat
  {
    |Select(store, f)|
  }

  /** Storing one more event raises a count by one exactly when the filter selects that event. */
  lemma CountAfterInsert(store: seq<Event>, e: Event, f: Filter)
    ensures CountDocuments(store + [e], f) == CountDocuments(store, f) + (if Matches(e, f) then 1 else 0)
  {
    SelectAppend(store, [e], f);
    assert Select([e], f) == if Matches(e, f) then [e] else [];
  }

  /** The page views of the last minute. */
  function PageViewsLastMinute(store: seq<Event>, now: int): nat
  {
    CountDocuments(store, Filter(Some(PageView), None, now - MINUTE_MS))
  }

  /**
   * The count, inductively: an empty store has none, and a stored event adds
   * one exactly when it is a page view of the last minute.
   */
  lemma PageViewsLastMinuteStep(store: seq<Event>, e: Event, now: int)
    ensures PageViewsLastMinute([], now) == 0
    ensures PageViewsLastMinute(store + [e], now) == PageViewsLastMinute(store, now)
      + (if e.event == PageView && e.timestamp >= (now - MINUTE_MS) as real then 1 else 0)
  {
    CountAfterInsert(store, e, Filter(Some(PageView), None, now - MINUTE_MS));
  }

  // ---------------------------------------------------------------- distinct

  /** The values of a list without repetitions (the order of `distinct` is not promised). */
  function Distinct(xs: seq<string>): (r: seq<string>)
    ensures forall x :: x in r <==> x in xs
    ensures forall i, j :: 0 <= i < j < |r| ==> r[i] != r[j]
  {
    if xs == [] then []
    else
      var rest := Distinct(xs[1..]);
      if xs[0] in rest then rest else [xs[0]] + rest
  }

  /** A list without repetitions has as many elements as its set. */
  lemma {:induction false} NoRepeatsCardinality(r: seq<string>)
    requires forall i, j :: 0 <= i < j < |r| ==> r[i] != r[j]
    ensures |set x | x in r| == |r|
  {
    if r != [] {
      NoRepeatsCardinality(r[1..]);
      assert (set x | x in r) == (set x | x in r[1..]) + {r[0]};
      assert r[0] !in r[1..];
    }
  }

  function SessionIds(events: seq<Event>): (r: seq<string>)
    ensures |r| == |events| && forall i :: 0 <= i < |events| ==> r[i] == events[i].sessionId
  {
    seq(|events|, i requires 0 <= i < |events| => events[i].sessionId)
  }

  /** `distinct('sessionId', {timestamp: {$gte: since}})`. */
  function DistinctSessions(store: seq<Event>, since: int): seq<string>
  {
    Distinct(SessionIds(Select(store, Filter(None, None, since))))
  }

  /** The sessions with an event of any type at or after `since`. */
  ghost function SessionsSince(store: seq<Event>, since: int): set<string>
  {
    set e | e in store && e.timestamp >= since as real :: e.sessionId
  }

  /** `distinct` lists every session of the window exactly once. */
  lemma DistinctSessionsCount(store: seq<Event>, since: int)
    ensures |DistinctSessions(store, since)| == |SessionsSince(store, since)|
  {
    var f := Filter(None, None, since);
    var sel := Select(store, f);
    var r := DistinctSessions(store, since);
    SelectMultiplicity(store, f);
    NoRepeatsCardinality(r);
    forall x ensures x in r <==> x in SessionsSince(store, since) {
      if x in r {
        var i :| 0 <= i < |sel| && SessionIds(sel)[i] == x;
        assert multiset(sel)[sel[i]] > 0;
      }
      if x in SessionsSince(store, since) {
        var e :| e in store && e.timestamp >= since as real && e.sessionId == x;
        assert multiset(sel)[e] > 0;
        var i :| 0 <= i < |sel| && sel[i] == e;
        assert SessionIds(sel)[i] == x;
      }
    }
    assert (set x | x in r) == SessionsSince(store, since);
  }

  /** Distinct sessions of the last five minutes. */
  function ActiveUsers(store: seq<Event>, now: int): (r: nat)
    ensures r == |SessionsSince(store, now - FIVE_MINUTES_MS)|
  {
    DistinctSessionsCount(store, now - FIVE_MINUTES_MS);
    |DistinctSessions(store, now - FIVE_MINUTES_MS)|
  }

  /** Distinct sessions of the last 24 hours. */
  function UniqueVisitorsToday(store: seq<Event>, now: int): (r: nat)
    ensures r == |SessionsSince(store, now - DAY_MS)|
  {
    DistinctSessionsCount(store, now - DAY_MS);
    |DistinctSessions(store, now - DAY_MS)|
  }

  /** Every session active in the last five minutes is among the day's visitors. */
  lemma ActiveUsersAtMostVisitorsToday(store: seq<Event>, now: int)
    ensures ActiveUsers(store, now) == |SessionsSince(store, now - FIVE_MINUTES_MS)|
    ensures UniqueVisitorsToday(store, now) == |SessionsSince(store, now - DAY_MS)|
    ensures ActiveUsers(store, now) <= UniqueVisitorsToday(store, now)
  {
    assert SessionsSince(store, now - FIVE_MINUTES_MS) <= SessionsSince(store, now - DAY_MS);
    SubsetCardinality(SessionsSince(store, now - FIVE_MINUTES_MS), SessionsSince(store, now - DAY_MS));
  }

  lemma SubsetCardinality(a: set<string>, b: set<string>)
    requires a <= b
    ensures |a| <= |b|
  {
    assert b == a + (b - a);
  }

  // ---------------------------------------------------------------- $group

  /** One output document of `$group: {_id: key, count: {$sum: 1}}`. */
  datatype Group<K> = Group(key: K, count: nat)

  /** The keys of a list of groups. */
  function Keys<K>(g: seq<Group<K>>): (r: set<K>)
    ensures forall i :: 0 <= i < |g| ==> g[i].key in r
  {
    if g == [] then {} else {g[0].key} + Keys(g[1..])
  }

  /** Every key of `Keys(g)` is the key of some group. */
  lemma {:induction false} KeysHaveGroups<K>(g: seq<Group<K>>, k: K)
    requires k in Keys(g)
    ensures exists i :: 0 <= i < |g| && g[i].key == k
  {
    if g[0].key != k {
      KeysHaveGroups(g[1..], k);
      var i :| 0 <= i < |g[1..]| && g[1..][i].key == k;
      assert g[i + 1].key == k;
    }
  }

  /** Counting one more occurrence of `k`: its group grows, or a new group is appended. */
  function AddKey<K(==)>(g: seq<Group<K>>, k: K): (r: seq<Group<K>>)
    requires forall i, j :: 0 <= i < j < |g| ==> g[i].key != g[j].key
    ensures (forall i :: 0 <= i < |g| ==> g[i].key != k) ==> r == g + [Group(k, 1)]
    ensures (exists i :: 0 <= i < |g| && g[i].key == k) ==> |r| == |g|
    ensures |r| >= |g|
    ensures forall i :: 0 <= i < |g| ==>
      r[i].key == g[i].key && r[i].count == g[i].count + (if g[i].key == k then 1 else 0)
  {
    if g == [] then [Group(k, 1)]
    else if g[0].key == k then [Group(k, g[0].count + 1)] + g[1..]
    else [g[0]] + AddKey(g[1..], k)
  }

  /** Counting an occurrence keeps the keys distinct. */
  lemma AddKeyDistinct<K>(g: seq<Group<K>>, k: K)
    requires forall i, j :: 0 <= i < j < |g| ==> g[i].key != g[j].key
    ensures var r := AddKey(g, k); forall i, j :: 0 <= i < j < |r| ==> r[i].key != r[j].key
  {
  }

  /** Counting an occurrence of `k` adds `k` to the keys. */
  lemma {:induction false} AddKeyKeys<K>(g: seq<Group<K>>, k: K)
    requires forall i, j :: 0 <= i < j < |g| ==> g[i].key != g[j].key
    ensures Keys(AddKey(g, k)) == Keys(g) + {k}
  {
    if g != [] {
      var r := AddKey(g, k);
      if g[0].key == k {
        assert r[1..] == g[1..];
      } else {
        AddKeyKeys(g[1..], k);
        assert r[1..] == AddKey(g[1..], k);
      }
    }
  }

  /**
   * `g` groups `keys`: one group per distinct key, each counting its key's
   * occurrences, and no key left out.
   */
  predicate GroupsOf<K(==)>(g: seq<Group<K>>, keys: seq<K>)
  {
    && (forall i, j :: 0 <= i < j < |g| ==> g[i].key != g[j].key)
    && (forall i :: 0 <= i < |g| ==> g[i].count == multiset(keys)[g[i].key] && g[i].count > 0)
    && (forall k :: k in keys ==> k in Keys(g))
  }

  /** The groups of the keys, in first-seen order. */
  function GroupBy<K(==)>(keys: seq<K>): (g: seq<Group<K>>)
    ensures GroupsOf(g, keys)
  {
    if keys == [] then []
    else
      var g0 := GroupBy(keys[..|keys| - 1]);
      GroupByStep(g0, keys);
      AddKey(g0, keys[|keys| - 1])
  }

  /** Counting one more key keeps the groups distinct, counted and complete. */
  lemma GroupByStep<K>(g: seq<Group<K>>, keys: seq<K>)
    requires keys != []
    requires GroupsOf(g, keys[..|keys| - 1])
    ensures GroupsOf(AddKey(g, keys[|keys| - 1]), keys)
  {
    var init, last := keys[..|keys| - 1], keys[|keys| - 1];
    assert keys == init + [last];
    var r := AddKey(g, last);
    assert multiset(keys) == multiset(init) + multiset{last};
    AddKeyDistinct(g, last);
    AddKeyKeys(g, last);
    if last in init {
      KeysHaveGroups(g, last);
      assert |r| == |g|;
    } else {
      forall i | 0 <= i < |g| ensures g[i].key != last {
        assert multiset(init)[g[i].key] > 0;
      }
      assert r == g + [Group(last, 1)];
      forall i | 0 <= i < |r| ensures r[i].count == multiset(keys)[r[i].key] && r[i].count > 0 {
        if i == |g| {
          assert r[i] == Group(last, 1);
        }
      }
    }
    forall k | k in keys ensures k in Keys(r) {
      if k != last {
        assert k in init;
      }
    }
  }

  /** The groups' keys are exactly the keys grouped. */
  lemma {:induction false} GroupByKeys<K>(keys: seq<K>)
    ensures Keys(GroupBy(keys)) == set k | k in keys
  {
    if keys != [] {
      var init := keys[..|keys| - 1];
      var last := keys[|keys| - 1];
      assert keys == init + [last];
      GroupByKeys(init);
      AddKeyKeys(GroupBy(init), last);
      assert (set k | k in keys) == (set k | k in init) + {last};
    }
  }

  /** `find(h => h._id === k)`: the first group with key `k`, if any. */
  function Find<K(==)>(g: seq<Group<K>>, k: K): (r: Option<nat>)
    ensures r.Some? ==> r.value < |g| && g[r.value].key == k
    ensures r.None? ==> forall i :: 0 <= i < |g| ==> g[i].key != k
  {
    if g == [] then None
    else if g[0].key == k then Some(0)
    else match Find(g[1..], k)
      case None => None
      case Some(i) => Some(i + 1)
  }

  /** The count the first group with key `k` reports, or 0 without one. */
  function CountOf<K(==)>(g: seq<Group<K>>, k: K): nat
  {
    match Find(g, k)
    case Some(i) => g[i].count
    case None => 0
  }

  /** Looking a key up in its grouping finds how often the key occurs. */
  lemma CountOfGroupBy<K>(keys: seq<K>, k: K)
    ensures CountOf(GroupBy(keys), k) == multiset(keys)[k]
  {
    var g := GroupBy(keys);
    if Find(g, k).None? && k in keys {
      GroupByKeys(keys);
      KeysHaveGroups(g, k);
    }
  }

  // ---------------------------------------------------------------- $sort, $limit

  predicate CountsDescending<K>(s: seq<Group<K>>)
  {
    forall i, j :: 0 <= i < j < |s| ==> s[i].count >= s[j].count
  }

  /** Inserts `x` before the first element with a smaller count. */
  function InsertByCount<K>(x: Group<K>, s: seq<Group<K>>): (r: seq<Group<K>>)
    ensures |r| == |s| + 1 && (r[0] == x || (|s| > 0 && r[0] == s[0]))
  {
    if s == [] then [x]
    else if x.count >= s[0].count then [x] + s
    else [s[0]] + InsertByCount(x, s[1..])
  }

  /** Inserting into a list with non-increasing counts keeps the counts non-increasing. */
  lemma {:induction false} InsertByCountSorted<K>(x: Group<K>, s: seq<Group<K>>)
    requires CountsDescending(s)
    ensures CountsDescending(InsertByCount(x, s))
  {
    if s != [] {
      if x.count >= s[0].count {
        DescendingCons(x, s);
      } else {
        var rest := InsertByCount(x, s[1..]);
        assert CountsDescending(s[1..]) by {
          forall i, j | 0 <= i < j < |s[1..]| ensures s[1..][i].count >= s[1..][j].count {
            assert s[1..][i] == s[i + 1] && s[1..][j] == s[j + 1];
          }
        }
        InsertByCountSorted(x, s[1..]);
        assert |s| > 1 ==> s[0].count >= s[1].count;
        DescendingCons(s[0], rest);
      }
    }
  }

  /** Inserting adds exactly `x`. */
  lemma {:induction false} InsertByCountPermutes<K>(x: Group<K>, s: seq<Group<K>>)
    ensures multiset(InsertByCount(x, s)) == multiset(s) + multiset{x}
  {
    if s != [] && x.count < s[0].count {
      InsertByCountPermutes(x, s[1..]);
      assert s == [s[0]] + s[1..];
      assert multiset([s[0]] + InsertByCount(x, s[1..])) == multiset{s[0]} + multiset(InsertByCount(x, s[1..]));
    }
  }

  /** A group no smaller than the head of a descending list can be put in front of it. */
  lemma DescendingCons<K>(h: Group<K>, t: seq<Group<K>>)
    requires CountsDescending(t) && (t != [] ==> h.count >= t[0].count)
    ensures CountsDescending([h] + t)
  {
    var s := [h] + t;
    forall i, j | 0 <= i < j < |s| ensures s[i].count >= s[j].count {
      if i > 0 {
        assert s[i] == t[i - 1] && s[j] == t[j - 1];
      } else {
        assert s[j] == t[j - 1] && t[0].count >= t[j - 1].count;
      }
    }
  }

  /** `$sort: {count: -1}`: a permutation with non-increasing counts. Ties are placed in no promised order. */
  function SortByCountDesc<K>(g: seq<Group<K>>): (r: seq<Group<K>>)
    ensures CountsDescending(r)
    ensures multiset(r) == multiset(g)
  {
    if g == [] then []
    else
      var t := SortByCountDesc(g[1..]);
      InsertByCountSorted(g[0], t);
      InsertByCountPermutes(g[0], t);
      assert g == [g[0]] + g[1..];
      InsertByCount(g[0], t)
  }

  /** `$limit: n`. */
  function Limit<T>(s: seq<T>, n: nat): (r: seq<T>)
    ensures |r| == if |s| <= n then |s| else n
    ensures r == s[..|r|]
    ensures |s| <= n ==> r == s
  {
    if |s| <= n then s else s[..n]
  }

  // ---------------------------------------------------------------- top pages

  /** An entry of `topPages`. */
  datatype PageCount = PageCount(page: string, views: nat)

  function PageViewsSince(now: int): Filter
  {
    Filter(Some(PageView), None, now - DAY_MS)
  }

  /** The `$project` of each event onto its page. */
  function Pages(events: seq<Event>): (r: seq<string>)
    ensures |r| == |events|
  {
    if events == [] then [] else [events[0].page] + Pages(events[1..])
  }

  /** The projection keeps the order: the i-th entry is the i-th event's page. */
  lemma {:induction false} PagesAt(events: seq<Event>)
    ensures forall i :: 0 <= i < |events| ==> Pages(events)[i] == events[i].page
  {
    if events != [] {
      PagesAt(events[1..]);
    }
  }

  /** The page views of `page` in the last 24 hours. */
  function ViewsToday(store: seq<Event>, now: int, page: string): nat
  {
    CountDocuments(store, Filter(Some(PageView), Some(page), now - DAY_MS))
  }

  /** `$group`, `$sort: {count: -1}`, `$limit: n` over a key sequence. */
  function Top<K(==)>(keys: seq<K>, n: nat): seq<Group<K>>
  {
    Limit(SortByCountDesc(GroupBy(keys)), n)
  }

  /** The i-th top group is the i-th sorted group, one of the groups. */
  lemma TopEntry<K>(keys: seq<K>, n: nat, i: nat)
    requires i < |Top(keys, n)|
    ensures i < |SortByCountDesc(GroupBy(keys))|
    ensures Top(keys, n)[i] == SortByCountDesc(GroupBy(keys))[i]
    ensures Top(keys, n)[i].count == multiset(keys)[Top(keys, n)[i].key] > 0
  {
    var g := GroupBy(keys);
    var s := SortByCountDesc(g);
    assert Top(keys, n) == s[..|Top(keys, n)|];
    var a := IndexAfterPermutation(s, g, i);
  }

  /** The top groups have distinct keys, non-increasing counts, and each counts its key's occurrences. */
  lemma TopGroupsSound<K>(keys: seq<K>, n: nat)
    ensures var t := Top(keys, n);
      && |t| <= n
      && (forall i, j :: 0 <= i < j < |t| ==> t[i].key != t[j].key)
      && (forall i, j :: 0 <= i < j < |t| ==> t[i].count >= t[j].count)
      && (forall i :: 0 <= i < |t| ==> t[i].count == multiset(keys)[t[i].key] > 0)
  {
    var g := GroupBy(keys);
    var s := SortByCountDesc(g);
    var t := Top(keys, n);
    forall i | 0 <= i < |t| ensures t[i].count == multiset(keys)[t[i].key] > 0 {
      TopEntry(keys, n, i);
    }
    forall i, j | 0 <= i < j < |t| ensures t[i].key != t[j].key && t[i].count >= t[j].count {
      TopEntry(keys, n, i);
      TopEntry(keys, n, j);
      DistinctKeysAfterPermutation(g, s, i, j);
    }
  }

  /** A key occurring in `keys` but missing from the top groups was cut by the limit. */
  lemma TopGroupsComplete<K>(keys: seq<K>, n: nat, k: K)
    requires k in keys
    requires forall i :: 0 <= i < |Top(keys, n)| ==> Top(keys, n)[i].key != k
    ensures |Top(keys, n)| == n
    ensures forall i :: 0 <= i < |Top(keys, n)| ==> Top(keys, n)[i].count >= multiset(keys)[k]
  {
    var s := SortByCountDesc(GroupBy(keys));
    var t := Top(keys, n);
    var j := SortedGroupOf(keys, k);
    if j < |t| {
      TopEntry(keys, n, j);
    }
    assert |t| < |s|;
    forall i | 0 <= i < |t| ensures t[i].count >= multiset(keys)[k] {
      TopEntry(keys, n, i);
    }
  }

  /** Every grouped key has its group, with its count, in the sorted groups. */
  lemma SortedGroupOf<K>(keys: seq<K>, k: K) returns (j: nat)
    requires k in keys
    ensures var s := SortByCountDesc(GroupBy(keys));
      j < |s| && s[j].key == k && s[j].count == multiset(keys)[k]
  {
    var g := GroupBy(keys);
    KeysHaveGroups(g, k);
    var a :| 0 <= a < |g| && g[a].key == k;
    j := IndexAfterPermutation(g, SortByCountDesc(g), a);
  }

  /** An element of a sequence has a position in each of its permutations. */
  lemma IndexAfterPermutation<T>(g: seq<T>, s: seq<T>, a: nat) returns (j: nat)
    requires multiset(s) == multiset(g) && a < |g|
    ensures j < |s| && s[j] == g[a]
  {
    assert g[a] in multiset(s);
    j :| 0 <= j < |s| && s[j] == g[a];
  }

  /** The top-pages pipeline: match, group by page, sort by count, limit 10, then `map` to entries. */
  function TopPages(store: seq<Event>, now: int): (r: seq<PageCount>)
    ensures |r| <= TOP_PAGES_LIMIT
  {
    Entries(Top(Pages(Select(store, PageViewsSince(now))), TOP_PAGES_LIMIT))
  }

  /** `map((p) => ({page: p._id, views: p.count}))`. */
  function Entries(groups: seq<Group<string>>): (r: seq<PageCount>)
    ensures |r| == |groups|
  {
    if groups == [] then [] else [PageCount(groups[0].key, groups[0].count)] + Entries(groups[1..])
  }

  /** Each entry carries its group's key and count. */
  lemma {:induction false} EntriesAt(groups: seq<Group<string>>, i: nat)
    requires i < |groups|
    ensures Entries(groups)[i] == PageCount(groups[i].key, groups[i].count)
  {
    if i > 0 {
      EntriesAt(groups[1..], i - 1);
    }
  }

  /** Grouping the selected events by page counts each page's own selection. */
  lemma {:induction false} PagesMultiplicity(store: seq<Event>, f: Filter, p: string)
    requires f.page.None?
    ensures multiset(Pages(Select(store, f)))[p] == CountDocuments(store, f.(page := Some(p)))
  {
    if store != [] {
      PagesMultiplicity(store[1..], f, p);
      var e := store[0];
      var rest := Select(store[1..], f);
      if Matches(e, f) {
        assert Select(store, f) == [e] + rest;
        assert ([e] + rest)[1..] == rest;
        assert Pages(Select(store, f)) == [e.page] + Pages(rest);
      } else {
        assert Select(store, f) == rest;
      }
    }
  }

  /** `topPages` holds at most ten distinct pages with non-increasing views, each with its views of the day. */
  lemma TopPagesSound(store: seq<Event>, now: int)
    ensures var r := TopPages(store, now);
      && |r| <= TOP_PAGES_LIMIT
      && (forall i, j :: 0 <= i < j < |r| ==> r[i].page != r[j].page)
      && (forall i, j :: 0 <= i < j < |r| ==> r[i].views >= r[j].views)
      && (forall i :: 0 <= i < |r| ==> r[i].views == ViewsToday(store, now, r[i].page) && r[i].views > 0)
  {
    var pages := Pages(Select(store, PageViewsSince(now)));
    var t := Top(pages, TOP_PAGES_LIMIT);
    TopGroupsSound(pages, TOP_PAGES_LIMIT);
    forall i | 0 <= i < |t| ensures TopPages(store, now)[i] == PageCount(t[i].key, t[i].count) {
      EntriesAt(t, i);
    }
    forall p ensures multiset(pages)[p] == ViewsToday(store, now, p) {
      PagesMultiplicity(store, PageViewsSince(now), p);
    }
  }

  /** A page viewed today that `topPages` leaves out has no more views than any entry, and the list is full. */
  lemma TopPagesComplete(store: seq<Event>, now: int, p: string)
    requires ViewsToday(store, now, p) > 0
    requires forall i :: 0 <= i < |TopPages(store, now)| ==> TopPages(store, now)[i].page != p
    ensures |TopPages(store, now)| == TOP_PAGES_LIMIT
    ensures forall i :: 0 <= i < |TopPages(store, now)| ==> TopPages(store, now)[i].views >= ViewsToday(store, now, p)
  {
    var pages := Pages(Select(store, PageViewsSince(now)));
    PagesMultiplicity(store, PageViewsSince(now), p);
    assert p in multiset(pages);
    var t := Top(pages, TOP_PAGES_LIMIT);
    var r := TopPages(store, now);
    forall i | 0 <= i < |t| ensures r[i] == PageCount(t[i].key, t[i].count) {
      EntriesAt(t, i);
    }
    TopGroupsComplete(pages, TOP_PAGES_LIMIT, p);
  }

  // ---------------------------------------------------------------- history

  /** JavaScript's `x % m` on integers, which truncates toward zero (the sign follows `x`). */
  function JsRemainder(x: int, m: int): int
    requires m > 0
  {
    if x >= 0 then x % m else -((-x) % m)
  }

  /** `time - (time % 60000)`: the start of the minute of an integer time. */
  function MinuteStart(t: int): int
  {
    t - JsRemainder(t, MINUTE_MS)
  }

  /**
   * The start of the minute is a whole minute, at most `t` and less than a
   * minute before it for a time past the epoch, and at least `t` before it.
   */
  lemma MinuteStartBounds(t: int)
    ensures MinuteStart(t) % MINUTE_MS == 0
    ensures t >= 0 ==> MinuteStart(t) <= t < MinuteStart(t) + MINUTE_MS
    ensures t < 0 ==> MinuteStart(t) - MINUTE_MS < t <= MinuteStart(t) && MinuteStart(t) <= 0
  {
    if t >= 0 {
      assert MinuteStart(t) == (t / MINUTE_MS) * MINUTE_MS;
    } else {
      assert MinuteStart(t) == -(((-t) / MINUTE_MS) * MINUTE_MS);
    }
  }

  /** `$subtract: [t, {$mod: [t, 60000]}]` on a stored (real) timestamp: `$mod` truncates toward zero too. */
  function EventMinute(t: real): int
  {
    if t >= 0.0 then (t / 60000.0).Floor * MINUTE_MS
    else -(((-t) / 60000.0).Floor * MINUTE_MS)
  }

  /** The same bounds for a stored timestamp. */
  lemma EventMinuteBounds(t: real)
    ensures EventMinute(t) % MINUTE_MS == 0
    ensures t >= 0.0 ==> EventMinute(t) as real <= t < (EventMinute(t) + MINUTE_MS) as real
    ensures t < 0.0 ==> (EventMinute(t) - MINUTE_MS) as real < t <= EventMinute(t) as real && EventMinute(t) <= 0
  {
  }

  /** On whole milliseconds the store's rounding and the JavaScript rounding agree. */
  lemma EventMinuteOfInteger(t: int)
    ensures EventMinute(t as real) == MinuteStart(t)
  {
    EventMinuteBounds(t as real);
    MinuteStartBounds(t);
    MultiplesApart(EventMinute(t as real), MinuteStart(t));
  }

  /** Two multiples of a minute less than a minute apart are equal. */
  lemma MultiplesApart(a: int, b: int)
    requires a % MINUTE_MS == 0 && b % MINUTE_MS == 0
    requires a - MINUTE_MS < b < a + MINUTE_MS
    ensures a == b
  {
    var qa := a / MINUTE_MS;
    var qb := b / MINUTE_MS;
    assert a == qa * MINUTE_MS && b == qb * MINUTE_MS;
    assert (qa - qb) * MINUTE_MS < MINUTE_MS && (qb - qa) * MINUTE_MS < MINUTE_MS;
  }

  function PageViewsSinceHalfHour(now: int): Filter
  {
    Filter(Some(PageView), None, now - THIRTY_MINUTES_MS)
  }

  /** The `$project` stage: each event's minute. */
  function Minutes(events: seq<Event>): (r: seq<int>)
    ensures |r| == |events|
  {
    if events == [] then [] else [EventMinute(events[0].timestamp)] + Minutes(events[1..])
  }

  /** The history aggregation: page views of the last 30 minutes, grouped by minute. */
  function HistoryGroups(store: seq<Event>, now: int): (r: seq<Group<int>>)
    ensures GroupsOf(r, Minutes(Select(store, PageViewsSinceHalfHour(now))))
  {
    GroupBy(Minutes(Select(store, PageViewsSinceHalfHour(now))))
  }

  /** The minute of the `k`-th bucket, oldest first: the loop's `i` is `29 - k`. */
  function BucketMinute(now: int, k: nat): int
  {
    MinuteStart(now - (HISTORY_MINUTES - 1 - k) * MINUTE_MS)
  }

  /** A history entry; the `HH:MM` label is a local-time rendering of `minute`. */
  datatype HistoryPoint = HistoryPoint(minute: int, views: nat)

  /** The entry of the `k`-th bucket: its group's count, or 0 for a minute without one. */
  function Point(groups: seq<Group<int>>, now: int, k: nat): HistoryPoint
  {
    HistoryPoint(BucketMinute(now, k), CountOf(groups, BucketMinute(now, k)))
  }

  /** The entries of the buckets from `k` on. */
  function FilledFrom(groups: seq<Group<int>>, now: int, k: nat): (h: seq<HistoryPoint>)
    requires k <= HISTORY_MINUTES
    ensures |h| == HISTORY_MINUTES - k
    decreases HISTORY_MINUTES - k
  {
    if k == HISTORY_MINUTES then [] else [Point(groups, now, k)] + FilledFrom(groups, now, k + 1)
  }

  /** The gaps filled: one entry per bucket, oldest first. */
  function Filled(groups: seq<Group<int>>, now: int): (h: seq<HistoryPoint>)
    ensures |h| == HISTORY_MINUTES
  {
    FilledFrom(groups, now, 0)
  }

  /** The `j`-th entry from bucket `k` on is bucket `k + j`'s. */
  lemma {:induction false} FilledFromAt(groups: seq<Group<int>>, now: int, k: nat, j: nat)
    requires k <= HISTORY_MINUTES && j < HISTORY_MINUTES - k
    ensures FilledFrom(groups, now, k)[j] == Point(groups, now, k + j)
    decreases j
  {
    if j > 0 {
      FilledFromAt(groups, now, k + 1, j - 1);
    }
  }

  /** Each filled entry is its bucket's point. */
  lemma FilledAt(groups: seq<Group<int>>, now: int)
    ensures forall k :: 0 <= k < HISTORY_MINUTES ==> Filled(groups, now)[k] == Point(groups, now, k)
  {
    var h := Filled(groups, now);
    assert h == FilledFrom(groups, now, 0);
    forall k | 0 <= k < HISTORY_MINUTES ensures h[k] == Point(groups, now, k) {
      FilledFromAt(groups, now, 0, k);
    }
  }

  /** `pageViewsHistory`: the history groups with their gaps filled. */
  function PageViewsHistory(store: seq<Event>, now: int): (h: seq<HistoryPoint>)
    ensures |h| == HISTORY_MINUTES
  {
    Filled(HistoryGroups(store, now), now)
  }

  /** Reference count: the stored page views whose minute is `m`. */
  function ViewsInMinute(store: seq<Event>, m: int): nat
  {
    if store == [] then 0
    else
      var here := if store[0].event == PageView && EventMinute(store[0].timestamp) == m then 1 else 0;
      here + ViewsInMinute(store[1..], m)
  }

  /** Past the epoch, the buckets are consecutive minutes ending with the current one. */
  lemma HistoryBucketsConsecutive(now: int, k: nat)
    requires now >= (HISTORY_MINUTES - 1) * MINUTE_MS
    requires k + 1 < HISTORY_MINUTES
    ensures BucketMinute(now, k + 1) == BucketMinute(now, k) + MINUTE_MS
    ensures BucketMinute(now, HISTORY_MINUTES - 1) == MinuteStart(now)
  {
    var t := now - (HISTORY_MINUTES - 1 - k) * MINUTE_MS;
    assert now - (HISTORY_MINUTES - 1 - (k + 1)) * MINUTE_MS == t + MINUTE_MS;
    MinuteStartBounds(t);
    MinuteStartBounds(t + MINUTE_MS);
    MultiplesApart(MinuteStart(t + MINUTE_MS), MinuteStart(t) + MINUTE_MS);
  }

  /** Counting the minutes of the selected page views counts the page views of that minute. */
  lemma {:induction false} MinutesMultiplicity(store: seq<Event>, now: int, m: int)
    requires m > 0 && m > now - THIRTY_MINUTES_MS
    ensures multiset(Minutes(Select(store, PageViewsSinceHalfHour(now))))[m] == ViewsInMinute(store, m)
  {
    var f := PageViewsSinceHalfHour(now);
    if store != [] {
      MinutesMultiplicity(store[1..], now, m);
      var e := store[0];
      var rest := Select(store[1..], f);
      if Matches(e, f) {
        assert Select(store, f) == [e] + rest;
        assert ([e] + rest)[1..] == rest;
        assert Minutes(Select(store, f)) == [EventMinute(e.timestamp)] + Minutes(rest);
      } else {
        assert Select(store, f) == rest;
        if e.event == PageView && EventMinute(e.timestamp) == m {
          MinuteSelected(e, now, m);
        }
      }
    }
  }

  /** A page view whose minute is a recent positive minute is a page view of the last 30 minutes. */
  lemma MinuteSelected(e: Event, now: int, m: int)
    requires m > 0 && m > now - THIRTY_MINUTES_MS
    requires e.event == PageView && EventMinute(e.timestamp) == m
    ensures Matches(e, PageViewsSinceHalfHour(now))
  {
    EventMinuteBounds(e.timestamp);
  }

  /**
   * Each entry of the history counts the page views stored for its minute,
   * and a minute without page views is filled with 0.
   */
  lemma PageViewsHistoryCounts(store: seq<Event>, now: int, k: nat)
    requires now >= THIRTY_MINUTES_MS
    requires k < HISTORY_MINUTES
    ensures PageViewsHistory(store, now)[k].views == ViewsInMinute(store, BucketMinute(now, k))
  {
    var m := BucketMinute(now, k);
    FilledAt(HistoryGroups(store, now), now);
    CountOfGroupBy(Minutes(Select(store, PageViewsSinceHalfHour(now))), m);
    MinutesMultiplicity(store, now, m);
  }

  // ---------------------------------------------------------------- devices

  /** The device classes of `deviceStats`. */
  datatype Device = Mobile | Tablet | Desktop

  function DeviceName(d: Device): string
  {
    match d
    case Mobile => "Mobile"
    case Tablet => "Tablet"
    case Desktop => "Desktop"
  }

  /** ASCII lower-casing, as a case-insensitive regex compares letters. */
  function LowerAscii(c: char): (r: char)
    ensures 'A' <= c <= 'Z' ==> r as int == c as int + 32
    ensures !('A' <= c <= 'Z') ==> r == c
  {
    if 'A' <= c <= 'Z' then (c as int + 32) as char else c
  }

  /** `pattern` (lower-case) occurs at position `i` of `s`, ignoring case. */
  predicate OccursAt(s: string, pattern: string, i: nat)
  {
    i + |pattern| <= |s| && forall j :: 0 <= j < |pattern| ==> LowerAscii(s[i + j]) == pattern[j]
  }

  /** Scans `s` from position `i` for a case-insensitive occurrence of `pattern`. */
  function SearchFrom(s: string, pattern: string, i: nat): (r: bool)
    ensures r <==> exists k :: i <= k && OccursAt(s, pattern, k)
    decreases |s| - i
  {
    if i + |pattern| > |s| then
      assert forall k :: i <= k ==> !OccursAt(s, pattern, k);
      false
    else if OccursAt(s, pattern, i) then true
    else SearchFrom(s, pattern, i + 1)
  }

  /** `$regexMatch` with a literal pattern and the `i` flag; a missing input does not match. */
  function RegexMatch(input: Option<string>, pattern: string): (r: bool)
    ensures r <==> input.Some? && exists k :: OccursAt(input.value, pattern, k)
  {
    input.Some? && SearchFrom(input.value, pattern, 0)
  }

  /** The `$cond` chain: `/mobile/i` first, then `/tablet/i`, otherwise desktop. */
  function Classify(userAgent: Option<string>): (d: Device)
    ensures d == Mobile <==> RegexMatch(userAgent, "mobile")
    ensures d == Tablet <==> !RegexMatch(userAgent, "mobile") && RegexMatch(userAgent, "tablet")
    ensures userAgent.None? ==> d == Desktop
  {
    if RegexMatch(userAgent, "mobile") then Mobile
    else if RegexMatch(userAgent, "tablet") then Tablet
    else Desktop
  }

  function EventsToday(now: int): Filter
  {
    Filter(None, None, now - DAY_MS)
  }

  /** The device class of each event of the last 24 hours. */
  function DeviceClasses(events: seq<Event>): (r: seq<Device>)
    ensures |r| == |events| && forall i :: 0 <= i < |events| ==> r[i] == Classify(events[i].userAgent)
  {
    seq(|events|, i requires 0 <= i < |events| => Classify(events[i].userAgent))
  }

  /** `reduce((acc, item) => { acc[item._id] = item.count; ... }, acc)`. */
  function Reduce<K>(g: seq<Group<K>>, acc: map<K, nat>): map<K, nat>
  {
    if g == [] then acc
    else Reduce(g[1..], acc[g[0].key := g[0].count])
  }

  /** Over groups with distinct keys, the fold holds each group's count under its key, and `acc` elsewhere. */
  lemma {:induction false} ReduceCounts<K>(g: seq<Group<K>>, acc: map<K, nat>)
    requires forall i, j :: 0 <= i < j < |g| ==> g[i].key != g[j].key
    ensures Reduce(g, acc).Keys == acc.Keys + Keys(g)
    ensures forall k :: k in Reduce(g, acc) ==> Reduce(g, acc)[k] == if k in Keys(g) then CountOf(g, k) else acc[k]
  {
    if g != [] {
      DistinctHead(g);
      ReduceCounts(g[1..], acc[g[0].key := g[0].count]);
    }
  }

  /** With distinct keys, the first group's key is not among the other groups' keys. */
  lemma DistinctHead<K>(g: seq<Group<K>>)
    requires g != []
    requires forall i, j :: 0 <= i < j < |g| ==> g[i].key != g[j].key
    ensures g[0].key !in Keys(g[1..])
    ensures forall k :: k != g[0].key ==> CountOf(g, k) == CountOf(g[1..], k)
  {
    if g[0].key in Keys(g[1..]) {
      KeysHaveGroups(g[1..], g[0].key);
    }
  }

  /** The `deviceStats` object. */
  function DeviceStats(store: seq<Event>, now: int): map<Device, nat>
  {
    var g := GroupBy(DeviceClasses(Select(store, EventsToday(now))));
    Reduce(g, map[])
  }

  /** The events of the last 24 hours whose user agent falls in class `d`. */
  function DevicesToday(store: seq<Event>, now: int, d: Device): nat
  {
    multiset(DeviceClasses(Select(store, EventsToday(now))))[d]
  }

  /**
   * `deviceStats` names exactly the classes seen today, each with its count,
   * and the three counts add up to the events of the day.
   */
  lemma DeviceStatsCounts(store: seq<Event>, now: int)
    ensures var stats := DeviceStats(store, now);
      && (forall d :: d in stats <==> DevicesToday(store, now, d) > 0)
      && (forall d :: d in stats ==> stats[d] == DevicesToday(store, now, d))
      && DevicesToday(store, now, Mobile) + DevicesToday(store, now, Tablet) + DevicesToday(store, now, Desktop)
         == CountDocuments(store, EventsToday(now))
  {
    var classes := DeviceClasses(Select(store, EventsToday(now)));
    var g := GroupBy(classes);
    var stats := DeviceStats(store, now);
    GroupByKeys(classes);
    ReduceCounts(g, map[]);
    assert stats.Keys == Keys(g);
    forall d ensures (d in stats <==> DevicesToday(store, now, d) > 0) && (d in stats ==> stats[d] == DevicesToday(store, now, d)) {
      CountOfGroupBy(classes, d);
    }
    ClassTotal(classes);
  }

  /** A sequence of classes is as long as its three multiplicities together. */
  lemma {:induction false} ClassTotal(classes: seq<Device>)
    ensures multiset(classes)[Mobile] + multiset(classes)[Tablet] + multiset(classes)[Desktop] == |classes|
  {
    if classes != [] {
      assert classes == [classes[0]] + classes[1..];
      var m, rest := multiset(classes), multiset(classes[1..]);
      assert m == multiset{classes[0]} + rest;
      ClassTotal(classes[1..]);
      assert m[Mobile] == rest[Mobile] + (if classes[0] == Mobile then 1 else 0);
      assert m[Tablet] == rest[Tablet] + (if classes[0] == Tablet then 1 else 0);
      assert m[Desktop] == rest[Desktop] + (if classes[0] == Desktop then 1 else 0);
    }
  }

  /** A permutation of groups with distinct keys still has distinct keys. */
  lemma DistinctKeysAfterPermutation<K>(g: seq<Group<K>>, s: seq<Group<K>>, i: nat, j: nat)
    requires forall a, b :: 0 <= a < b < |g| ==> g[a].key != g[b].key
    requires multiset(s) == multiset(g)
    requires i < j < |s|
    ensures s[i].key != s[j].key
  {
    var a := IndexAfterPermutation(s, g, i);
    var b := IndexAfterPermutation(s, g, j);
    if a == b {
      // the same group twice in s would occur twice in g
      assert s[i] == s[j];
      assert multiset(s)[s[i]] >= 2 by {
        assert s == s[..i] + [s[i]] + s[i+1..j] + [s[j]] + s[j+1..];
      }
      MultiplicityOfDistinct(g, a);
    }
  }

  /** A group occurs once in a grouping with distinct keys. */
  lemma {:induction false} MultiplicityOfDistinct<K>(g: seq<Group<K>>, a: nat)
    requires forall x, y :: 0 <= x < y < |g| ==> g[x].key != g[y].key
    requires a < |g|
    ensures multiset(g)[g[a]] == 1
  {
    if a == 0 {
      assert g == [g[0]] + g[1..];
      assert g[0] !in g[1..];
    } else {
      assert g == [g[0]] + g[1..];
      assert g[1..][a - 1] == g[a];
      MultiplicityOfDistinct(g[1..], a - 1);
    }
  }
}
