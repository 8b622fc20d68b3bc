/**
 * The timeline scrubber: one entry per distinct formatted date of the album, in order of
 * first appearance, with the number of assets of that date and the position of the first
 * of them; clicking an entry asks the album viewer to jump to that date.
 */
module Timeline {
  import opened Wrappers
  import opened Assets

  /** `new Date(asset.createdAt).getTime()`, taken as a parameter like the date key. */
  type TimeOf = Asset -> int

  /** One timeline entry (`{ dateString, timestamp, count, firstAssetIndex }`). */
  datatype DateEntry = DateEntry(dateString: string, timestamp: int, count: nat, firstAssetIndex: int)

  /** The number of assets among the first `n` whose date is `d`. */
  function CountDate(assets: seq<Asset>, dateKey: DateKey, d: string, n: nat): nat
    requires n <= |assets|
  {
    if n == 0 then 0
    else CountDate(assets, dateKey, d, n - 1) + (if dateKey(assets[n - 1]) == d then 1 else 0)
  }

  /** The sum of the entries' counts. */
  function TotalCount(dates: seq<DateEntry>): nat
  {
    if dates == [] then 0 else TotalCount(dates[..|dates| - 1]) + dates[|dates| - 1].count
  }

  /**
   * Entry `e` describes date `e.dateString` within the first `n` assets: it points at
   * the first asset of that date, takes its timestamp from it, and counts all of them.
   */
  ghost predicate EntryFits(assets: seq<Asset>, dateKey: DateKey, timeOf: TimeOf, n: nat, e: DateEntry)
    requires n <= |assets|
  {
    && 0 <= e.firstAssetIndex < n
    && dateKey(assets[e.firstAssetIndex]) == e.dateString
    && (forall i :: 0 <= i < e.firstAssetIndex ==> dateKey(assets[i]) != e.dateString)
    && e.timestamp == timeOf(assets[e.firstAssetIndex])
    && e.count == CountDate(assets, dateKey, e.dateString, n)
  }

  /** `dates` is the timeline of the first `n` assets. */
  ghost predicate TimelineUpTo(assets: seq<Asset>, dateKey: DateKey, timeOf: TimeOf, n: nat, dates: seq<DateEntry>)
    requires n <= |assets|
  {
    AllFit(assets, dateKey, timeOf, n, dates) && Ordered(dates) && Covers(assets, dateKey, n, dates)
  }

  /** Every entry describes its date within the first `n` assets. */
  ghost predicate AllFit(assets: seq<Asset>, dateKey: DateKey, timeOf: TimeOf, n: nat, dates: seq<DateEntry>)
    requires n <= |assets|
  {
    forall j :: 0 <= j < |dates| ==> EntryFits(assets, dateKey, timeOf, n, dates[j])
  }

  /** The entries are in order of their first assets. */
  ghost predicate Ordered(dates: seq<DateEntry>) {
    forall j, k :: 0 <= j < k < |dates| ==> dates[j].firstAssetIndex < dates[k].firstAssetIndex
  }

  /** Every date among the first `n` assets has an entry. */
  ghost predicate Covers(assets: seq<Asset>, dateKey: DateKey, n: nat, dates: seq<DateEntry>)
    requires n <= |assets|
  {
    forall i :: 0 <= i < n ==> dateKey(assets[i]) in DateStrings(dates)
  }

  /** The dates of the entries, in order. */
  function DateStrings(dates: seq<DateEntry>): (r: seq<string>)
    ensures |r| == |dates| && forall j :: 0 <= j < |dates| ==> r[j] == dates[j].dateString
  {
    seq(|dates|, j requires 0 <= j < |dates| => dates[j].dateString)
  }

  /** `dates` is the timeline of the whole list. */
  ghost predicate IsTimeline(assets: seq<Asset>, dateKey: DateKey, timeOf: TimeOf, dates: seq<DateEntry>) {
    TimelineUpTo(assets, dateKey, timeOf, |assets|, dates)
  }

  /**
   * `dateMap` sends each date of the timeline to the position of its entry. In the
   * source the map holds the entry objects themselves, the same objects that the list
   * holds, so incrementing a count through the map changes the list's entry; the
   * position models that sharing.
   */
  ghost predicate MapMatches(dateMap: map<string, nat>, dates: seq<DateEntry>) {
    && (forall d :: d in dateMap ==> dateMap[d] < |dates| && dates[dateMap[d]].dateString == d)
    && (forall j :: 0 <= j < |dates| ==> dates[j].dateString in dateMap && dateMap[dates[j].dateString] == j)
  }

  /** What the extraction loop knows after `n` assets. */
  ghost predicate Extracted(assets: seq<Asset>, dateKey: DateKey, timeOf: TimeOf, n: nat,
                            dates: seq<DateEntry>, dateMap: map<string, nat>)
  {
    && n <= |assets|
    && TimelineUpTo(assets, dateKey, timeOf, n, dates)
    && MapMatches(dateMap, dates)
    && TotalCount(dates) == n
  }

  /**
   * The extraction effect: walk the assets once; a date not yet in the map gets a new
   * entry (count 1, timestamp and `indexOf` of this asset) appended to the list, a date
   * already in it has its entry's count incremented.
   */
  method ExtractDates(assets: seq<Asset>, dateKey: DateKey, timeOf: TimeOf) returns (dates: seq<DateEntry>)
    ensures IsTimeline(assets, dateKey, timeOf, dates)
    ensures TotalCount(dates) == |assets|
  {
    dates := [];
    var dateMap: map<string, nat> := map[];
    for i := 0 to |assets|
      invariant Extracted(assets, dateKey, timeOf, i, dates, dateMap)
    {
      dates, dateMap := VisitAsset(assets, dateKey, timeOf, i, dates, dateMap);
    }
  }

  /** The body of the `forEach` callback, for the asset at position `i`. */
  method VisitAsset(assets: seq<Asset>, dateKey: DateKey, timeOf: TimeOf, i: nat,
                    dates: seq<DateEntry>, dateMap: map<string, nat>)
    returns (dates': seq<DateEntry>, dateMap': map<string, nat>)
    requires i < |assets| && Extracted(assets, dateKey, timeOf, i, dates, dateMap)
    ensures Extracted(assets, dateKey, timeOf, i + 1, dates', dateMap')
  {
    var asset := assets[i];
    var dateString := dateKey(asset);
    if dateString !in dateMap {
      FirstOfItsDate(assets, dateKey, timeOf, i, dates, dateMap);
      var entry := DateEntry(dateString, timeOf(asset), 1, IndexOf(assets, asset));
      dateMap' := dateMap[dateString := |dates|];
      dates' := dates + [entry];
      AppendEntry(assets, dateKey, timeOf, i, dates, dateMap, dates', dateMap');
    } else {
      var j := dateMap[dateString];
      dates' := dates[j := dates[j].(count := dates[j].count + 1)];
      dateMap' := dateMap;
      BumpEntry(assets, dateKey, timeOf, i, dates, dateMap, j, dates');
    }
  }

  lemma CountDateStep(assets: seq<Asset>, dateKey: DateKey, d: string, n: nat)
    requires n < |assets|
    ensures CountDate(assets, dateKey, d, n + 1)
      == CountDate(assets, dateKey, d, n) + (if dateKey(assets[n]) == d then 1 else 0)
  {
  }

  lemma TotalCountAppend(dates: seq<DateEntry>, e: DateEntry)
    ensures TotalCount(dates + [e]) == TotalCount(dates) + e.count
  {
    assert (dates + [e])[..|dates|] == dates;
  }

  /** Raising one entry's count by one raises the total by one. */
  lemma {:induction false} TotalCountBump(dates: seq<DateEntry>, j: nat)
    requires j < |dates|
    ensures TotalCount(dates[j := dates[j].(count := dates[j].count + 1)]) == TotalCount(dates) + 1
    decreases |dates|
  {
    var bumped := dates[j := dates[j].(count := dates[j].count + 1)];
    var last := |dates| - 1;
    if j < last {
      TotalCountBump(dates[..last], j);
      assert bumped[..last] == dates[..last][j := dates[j].(count := dates[j].count + 1)];
    } else {
      assert bumped[..last] == dates[..last];
    }
  }

  /** An entry whose date is not that of asset `n` still fits after it. */
  lemma EntryKeeps(assets: seq<Asset>, dateKey: DateKey, timeOf: TimeOf, n: nat, e: DateEntry)
    requires n < |assets| && EntryFits(assets, dateKey, timeOf, n, e)
    requires dateKey(assets[n]) != e.dateString
    ensures EntryFits(assets, dateKey, timeOf, n + 1, e)
  {
    CountDateStep(assets, dateKey, e.dateString, n);
  }

  /** The entry of asset `n`'s date fits after it once its count is raised by one. */
  lemma EntryGrows(assets: seq<Asset>, dateKey: DateKey, timeOf: TimeOf, n: nat, e: DateEntry)
    requires n < |assets| && EntryFits(assets, dateKey, timeOf, n, e)
    requires dateKey(assets[n]) == e.dateString
    ensures EntryFits(assets, dateKey, timeOf, n + 1, e.(count := e.count + 1))
  {
    CountDateStep(assets, dateKey, e.dateString, n);
  }

  /** A new entry made from asset `n`, whose date no earlier asset has, fits after it. */
  lemma EntryStarts(assets: seq<Asset>, dateKey: DateKey, timeOf: TimeOf, n: nat)
    requires n < |assets|
    requires forall i :: 0 <= i < n ==> dateKey(assets[i]) != dateKey(assets[n])
    ensures EntryFits(assets, dateKey, timeOf, n + 1, DateEntry(dateKey(assets[n]), timeOf(assets[n]), 1, n))
  {
    NoneBeforeCountsZero(assets, dateKey, dateKey(assets[n]), n);
    CountDateStep(assets, dateKey, dateKey(assets[n]), n);
  }

  /**
   * An asset whose date is not yet in the map is the first of its date, so `indexOf`
   * finds this very asset.
   */
  lemma FirstOfItsDate(assets: seq<Asset>, dateKey: DateKey, timeOf: TimeOf, n: nat,
                       dates: seq<DateEntry>, dateMap: map<string, nat>)
    requires n < |assets| && Extracted(assets, dateKey, timeOf, n, dates, dateMap)
    requires dateKey(assets[n]) !in dateMap
    ensures forall i :: 0 <= i < n ==> dateKey(assets[i]) != dateKey(assets[n])
    ensures IndexOf(assets, assets[n]) == n
  {
    forall i | 0 <= i < n ensures dateKey(assets[i]) != dateKey(assets[n]) {
      var j :| 0 <= j < |dates| && DateStrings(dates)[j] == dateKey(assets[i]);
      assert dates[j].dateString in dateMap;
    }
    assert assets[n] !in assets[..n];
  }

  /** Appending the entry of a first-seen date keeps what the loop knows. */
  lemma AppendEntry(assets: seq<Asset>, dateKey: DateKey, timeOf: TimeOf, n: nat,
                    dates: seq<DateEntry>, dateMap: map<string, nat>,
                    dates': seq<DateEntry>, dateMap': map<string, nat>)
    requires n < |assets| && Extracted(assets, dateKey, timeOf, n, dates, dateMap)
    requires dateKey(assets[n]) !in dateMap
    requires dates' == dates + [DateEntry(dateKey(assets[n]), timeOf(assets[n]), 1, n)]
    requires dateMap' == dateMap[dateKey(assets[n]) := |dates|]
    ensures Extracted(assets, dateKey, timeOf, n + 1, dates', dateMap')
  {
    var e := dates'[|dates|];
    FirstOfItsDate(assets, dateKey, timeOf, n, dates, dateMap);
    AppendedEntriesFit(assets, dateKey, timeOf, n, dates, dateMap, dates');
    assert forall j :: 0 <= j < |dates| ==> dates[j].firstAssetIndex < n by {
      assert AllFit(assets, dateKey, timeOf, n, dates);
    }
    AppendOrdered(dates, e, n);
    AppendCovers(assets, dateKey, n, dates, e);
    AppendMap(dateMap, dates, e);
    TotalCountAppend(dates, e);
  }

  lemma AppendedEntriesFit(assets: seq<Asset>, dateKey: DateKey, timeOf: TimeOf, n: nat,
                           dates: seq<DateEntry>, dateMap: map<string, nat>, dates': seq<DateEntry>)
    requires n < |assets| && AllFit(assets, dateKey, timeOf, n, dates) && MapMatches(dateMap, dates)
    requires dateKey(assets[n]) !in dateMap
    requires forall i :: 0 <= i < n ==> dateKey(assets[i]) != dateKey(assets[n])
    requires dates' == dates + [DateEntry(dateKey(assets[n]), timeOf(assets[n]), 1, n)]
    ensures AllFit(assets, dateKey, timeOf, n + 1, dates')
  {
    forall j | 0 <= j < |dates'| ensures EntryFits(assets, dateKey, timeOf, n + 1, dates'[j]) {
      if j < |dates| {
        assert dates'[j] == dates[j];
        assert dates[j].dateString in dateMap;
        EntryKeeps(assets, dateKey, timeOf, n, dates[j]);
      } else {
        EntryStarts(assets, dateKey, timeOf, n);
      }
    }
  }

  lemma AppendOrdered(dates: seq<DateEntry>, e: DateEntry, n: nat)
    requires Ordered(dates) && e.firstAssetIndex == n
    requires forall j :: 0 <= j < |dates| ==> dates[j].firstAssetIndex < n
    ensures Ordered(dates + [e])
  {
  }

  lemma AppendCovers(assets: seq<Asset>, dateKey: DateKey, n: nat, dates: seq<DateEntry>, e: DateEntry)
    requires n < |assets| && Covers(assets, dateKey, n, dates) && e.dateString == dateKey(assets[n])
    ensures Covers(assets, dateKey, n + 1, dates + [e])
  {
    assert DateStrings(dates + [e]) == DateStrings(dates) + [e.dateString];
  }

  lemma AppendMap(dateMap: map<string, nat>, dates: seq<DateEntry>, e: DateEntry)
    requires MapMatches(dateMap, dates) && e.dateString !in dateMap
    ensures MapMatches(dateMap[e.dateString := |dates|], dates + [e])
  {
    var dates' := dates + [e];
    forall j | 0 <= j < |dates| ensures dates'[j] == dates[j] && dates[j].dateString != e.dateString {
      assert dates[j].dateString in dateMap;
    }
  }

  /** Raising the count of the entry in position `j`, that of asset `n`'s date, keeps what the loop knows. */
  lemma BumpEntry(assets: seq<Asset>, dateKey: DateKey, timeOf: TimeOf, n: nat,
                  dates: seq<DateEntry>, dateMap: map<string, nat>, j: nat, dates': seq<DateEntry>)
    requires n < |assets| && Extracted(assets, dateKey, timeOf, n, dates, dateMap)
    requires dateKey(assets[n]) in dateMap && j == dateMap[dateKey(assets[n])]
    requires dates' == dates[j := dates[j].(count := dates[j].count + 1)]
    ensures Extracted(assets, dateKey, timeOf, n + 1, dates', dateMap)
  {
    BumpedEntriesFit(assets, dateKey, timeOf, n, dates, dateMap, j, dates');
    BumpKeepsShape(assets, dateKey, n, dates, dateMap, j, dates');
    TotalCountBump(dates, j);
  }

  lemma BumpedEntriesFit(assets: seq<Asset>, dateKey: DateKey, timeOf: TimeOf, n: nat,
                         dates: seq<DateEntry>, dateMap: map<string, nat>, j: nat, dates': seq<DateEntry>)
    requires n < |assets| && AllFit(assets, dateKey, timeOf, n, dates) && MapMatches(dateMap, dates)
    requires dateKey(assets[n]) in dateMap && j == dateMap[dateKey(assets[n])]
    requires dates' == dates[j := dates[j].(count := dates[j].count + 1)]
    ensures AllFit(assets, dateKey, timeOf, n + 1, dates')
  {
    forall k | 0 <= k < |dates'| ensures EntryFits(assets, dateKey, timeOf, n + 1, dates'[k]) {
      if k != j {
        assert dates[k].dateString != dateKey(assets[n]);
        EntryKeeps(assets, dateKey, timeOf, n, dates[k]);
      } else {
        EntryGrows(assets, dateKey, timeOf, n, dates[j]);
      }
    }
  }

  /** A count change leaves the order, the coverage and the map as they were. */
  lemma BumpKeepsShape(assets: seq<Asset>, dateKey: DateKey, n: nat,
                       dates: seq<DateEntry>, dateMap: map<string, nat>, j: nat, dates': seq<DateEntry>)
    requires n < |assets| && Ordered(dates) && Covers(assets, dateKey, n, dates) && MapMatches(dateMap, dates)
    requires dateKey(assets[n]) in dateMap && j == dateMap[dateKey(assets[n])]
    requires dates' == dates[j := dates[j].(count := dates[j].count + 1)]
    ensures Ordered(dates') && Covers(assets, dateKey, n + 1, dates') && MapMatches(dateMap, dates')
  {
    assert forall k :: 0 <= k < |dates'| ==>
      dates'[k].dateString == dates[k].dateString && dates'[k].firstAssetIndex == dates[k].firstAssetIndex;
    assert DateStrings(dates') == DateStrings(dates);
    assert DateStrings(dates)[j] == dateKey(assets[n]);
  }

  lemma {:induction false} NoneBeforeCountsZero(assets: seq<Asset>, dateKey: DateKey, d: string, n: nat)
    requires n <= |assets|
    requires forall i :: 0 <= i < n ==> dateKey(assets[i]) != d
    ensures CountDate(assets, dateKey, d, n) == 0
  {
    if n > 0 {
      NoneBeforeCountsZero(assets, dateKey, d, n - 1);
    }
  }

  /** No two entries share a date. */
  lemma EntriesDistinct(assets: seq<Asset>, dateKey: DateKey, timeOf: TimeOf, dates: seq<DateEntry>)
    requires IsTimeline(assets, dateKey, timeOf, dates)
    ensures forall j, k :: 0 <= j < k < |dates| ==> dates[j].dateString != dates[k].dateString
  {
  }

  /** Every entry counts at least its first asset, so no entry is empty. */
  lemma EntriesNonEmpty(assets: seq<Asset>, dateKey: DateKey, timeOf: TimeOf, dates: seq<DateEntry>)
    requires IsTimeline(assets, dateKey, timeOf, dates)
    ensures forall j :: 0 <= j < |dates| ==> dates[j].count >= 1
  {
    forall j | 0 <= j < |dates| ensures dates[j].count >= 1 {
      CountAtLeastOne(assets, dateKey, dates[j].dateString, dates[j].firstAssetIndex, |assets|);
    }
  }

  lemma {:induction false} CountAtLeastOne(assets: seq<Asset>, dateKey: DateKey, d: string, i: nat, n: nat)
    requires i < n <= |assets| && dateKey(assets[i]) == d
    ensures CountDate(assets, dateKey, d, n) >= 1
  {
    if i < n - 1 {
      CountAtLeastOne(assets, dateKey, d, i, n - 1);
    }
  }

  /** The timeline is empty exactly when the album is: the slider then renders nothing. */
  lemma EmptyTimelineIffNoAssets(assets: seq<Asset>, dateKey: DateKey, timeOf: TimeOf, dates: seq<DateEntry>)
    requires IsTimeline(assets, dateKey, timeOf, dates)
    ensures dates == [] <==> assets == []
  {
    if assets != [] {
      assert dateKey(assets[0]) in DateStrings(dates);
    }
    assert dates != [] ==> 0 <= dates[0].firstAssetIndex < |assets|;
  }

  /**
   * An entry of one timeline is also an entry of any other timeline of the same list:
   * the other one has an entry for its date (it covers every asset), and both point at
   * the first asset of that date, from which the rest of the entry follows.
   */
  lemma SharedEntry(assets: seq<Asset>, dateKey: DateKey, timeOf: TimeOf, d1: seq<DateEntry>, d2: seq<DateEntry>, j: nat)
    requires IsTimeline(assets, dateKey, timeOf, d1) && IsTimeline(assets, dateKey, timeOf, d2)
    requires j < |d1|
    ensures exists k :: 0 <= k < |d2| && d2[k] == d1[j]
  {
    var e := d1[j];
    var p := e.firstAssetIndex;
    assert EntryFits(assets, dateKey, timeOf, |assets|, e);
    assert dateKey(assets[p]) in DateStrings(d2);
    var k :| 0 <= k < |d2| && DateStrings(d2)[k] == e.dateString;
    assert EntryFits(assets, dateKey, timeOf, |assets|, d2[k]);
    assert d2[k].firstAssetIndex == p;
    assert d2[k] == e;
  }

  /** Two strictly increasing lists with the same elements are the same list. */
  lemma {:induction false} IncreasingSameElements(a: seq<int>, b: seq<int>)
    requires forall j, k :: 0 <= j < k < |a| ==> a[j] < a[k]
    requires forall j, k :: 0 <= j < k < |b| ==> b[j] < b[k]
    requires forall x :: x in a <==> x in b
    ensures a == b
    decreases |a|
  {
    if b != [] {
      assert b[0] in b;
    }
    if a != [] {
      assert a[0] in a;
      assert a[0] in b;
      assert b[0] in a;
      assert a[0] == b[0];
      forall x ensures x in a[1..] <==> x in b[1..] {
        assert x in a[1..] <==> x in a && x != a[0];
        assert x in b[1..] <==> x in b && x != b[0];
      }
      IncreasingSameElements(a[1..], b[1..]);
      assert a == [a[0]] + a[1..] && b == [b[0]] + b[1..];
    }
  }

  /** The first-asset positions of the entries, in order. */
  function FirstIndices(dates: seq<DateEntry>): (r: seq<int>)
    ensures |r| == |dates| && forall j :: 0 <= j < |dates| ==> r[j] == dates[j].firstAssetIndex
  {
    seq(|dates|, j requires 0 <= j < |dates| => dates[j].firstAssetIndex)
  }

  /** A list has only one timeline, so what `Refresh` stores is determined by the assets. */
  lemma TimelineIsUnique(assets: seq<Asset>, dateKey: DateKey, timeOf: TimeOf, d1: seq<DateEntry>, d2: seq<DateEntry>)
    requires IsTimeline(assets, dateKey, timeOf, d1) && IsTimeline(assets, dateKey, timeOf, d2)
    ensures d1 == d2
  {
    var f1, f2 := FirstIndices(d1), FirstIndices(d2);
    forall x ensures x in f1 <==> x in f2 {
      if x in f1 {
        var j :| 0 <= j < |f1| && f1[j] == x;
        SharedEntry(assets, dateKey, timeOf, d1, d2, j);
        var k :| 0 <= k < |d2| && d2[k] == d1[j];
        assert f2[k] == x;
      }
      if x in f2 {
        var k :| 0 <= k < |f2| && f2[k] == x;
        SharedEntry(assets, dateKey, timeOf, d2, d1, k);
        var j :| 0 <= j < |d1| && d1[j] == d2[k];
        assert f1[j] == x;
      }
    }
    IncreasingSameElements(f1, f2);
    forall j | 0 <= j < |d1| ensures d1[j] == d2[j] {
      SharedEntry(assets, dateKey, timeOf, d1, d2, j);
      var k :| 0 <= k < |d2| && d2[k] == d1[j];
      assert f2[k] == f2[j];
    }
  }

  /**
   * Jumping to an entry's date from the slider finds exactly that entry's first asset, so
   * the album viewer's not-found branch is never taken for a slider click on the same list.
   */
  lemma SelectFindsFirstAsset(assets: seq<Asset>, dateKey: DateKey, timeOf: TimeOf, dates: seq<DateEntry>, j: nat)
    requires IsTimeline(assets, dateKey, timeOf, dates) && j < |dates|
    ensures FindDate(assets, dateKey, dates[j].dateString) == dates[j].firstAssetIndex
  {
  }

  /** The slider component: its computed entries and the date last clicked. */
  class DateSlider {
    var dates: seq<DateEntry>
    var selectedDate: Option<string>

    /** Both state hooks start empty. */
    constructor ()
      ensures dates == [] && selectedDate == None
    {
      dates := [];
      selectedDate := None;
    }

    /** The effect that recomputes the entries whenever the album's assets change. */
    method Refresh(assets: seq<Asset>, dateKey: DateKey, timeOf: TimeOf)
      modifies this
      ensures IsTimeline(assets, dateKey, timeOf, dates) && TotalCount(dates) == |assets|
      ensures Renders() <==> assets != []
      ensures selectedDate == old(selectedDate)
    {
      dates := ExtractDates(assets, dateKey, timeOf);
      EmptyTimelineIffNoAssets(assets, dateKey, timeOf, dates);
    }

    /** `handleDateClick`: remember the date and hand its string to `onDateSelect` (the result). */
    method HandleDateClick(date: DateEntry) returns (selected: string)
      modifies this
      ensures selected == date.dateString && selectedDate == Some(date.dateString)
      ensures dates == old(dates)
    {
      selectedDate := Some(date.dateString);
      selected := date.dateString;
    }

    /** The component renders something only when there is at least one entry. */
    predicate Renders()
      reads this
    {
      |dates| > 0
    }
  }
}
