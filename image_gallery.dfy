/**
 * The gallery's day groups: the displayed assets cut into runs of adjacent assets that
 * share a formatted date. The list is not sorted first, so one date that occurs in two
 * separate runs gives two groups.
 */
module Gallery {
  import opened Wrappers
  import opened Assets

  /** One day separator and the assets shown under it. */
  datatype DayGroup = DayGroup(date: string, assets: seq<Asset>)

  /** All assets of the groups, group after group. */
  function Flatten(groups: seq<DayGroup>): seq<Asset>
  {
    if groups == [] then []
    else Flatten(groups[..|groups| - 1]) + groups[|groups| - 1].assets
  }

  /** The number of positions where an asset's date differs from the one before it. */
  function DateChanges(assets: seq<Asset>, dateKey: DateKey): nat
  {
    if |assets| <= 1 then 0
    else
      DateChanges(assets[..|assets| - 1], dateKey)
      + (if dateKey(assets[|assets| - 2]) != dateKey(assets[|assets| - 1]) then 1 else 0)
  }

  /** Every group is non-empty and holds only assets of its own date. */
  ghost predicate GroupsWellDated(groups: seq<DayGroup>, dateKey: DateKey) {
    && (forall k :: 0 <= k < |groups| ==> groups[k].assets != [])
    && (forall k, j :: 0 <= k < |groups| && 0 <= j < |groups[k].assets| ==>
          dateKey(groups[k].assets[j]) == groups[k].date)
  }

  /** Neighbouring groups have different dates. */
  ghost predicate NeighboursDiffer(groups: seq<DayGroup>) {
    forall k :: 0 <= k < |groups| - 1 ==> groups[k].date != groups[k + 1].date
  }

  /** `groups` cuts `assets` into maximal runs of one date each. */
  ghost predicate IsDayGrouping(assets: seq<Asset>, dateKey: DateKey, groups: seq<DayGroup>) {
    Flatten(groups) == assets && GroupsWellDated(groups, dateKey) && NeighboursDiffer(groups)
  }

  /**
   * What the grouping loop knows after scanning `assets[..i]`: the closed groups and the
   * open one together hold the scanned prefix, the open group holds the run that the
   * prefix ends with, and one group has been closed per date change so far.
   */
  ghost predicate Scanned(assets: seq<Asset>, dateKey: DateKey, i: nat, groups: seq<DayGroup>,
                          currentDate: Option<string>, currentGroup: seq<Asset>)
  {
    && i <= |assets|
    && ((currentGroup == []) <==> i == 0)
    && (i == 0 ==> currentDate == None && groups == [])
    && (i > 0 ==> currentDate == Some(dateKey(assets[i - 1])))
    && Flatten(groups) + currentGroup == assets[..i]
    && GroupsWellDated(groups, dateKey) && NeighboursDiffer(groups)
    && (forall j :: 0 <= j < |currentGroup| ==> Some(dateKey(currentGroup[j])) == currentDate)
    && (i > 0 && groups != [] ==> groups[|groups| - 1].date != currentDate.value)
    && (i > 0 ==> |groups| == DateChanges(assets[..i], dateKey))
  }

  /** The result of closing the open group, if there is one. */
  function Flush(groups: seq<DayGroup>, currentDate: Option<string>, currentGroup: seq<Asset>): seq<DayGroup>
  {
    if |currentGroup| > 0 && currentDate.Some? then groups + [DayGroup(currentDate.value, currentGroup)]
    else groups
  }

  /**
   * The `groupedAssets` loop: start a new group whenever the date differs from the
   * current one (the current date starts out as `null`, which no date equals), and flush
   * the last group after the loop.
   */
  method GroupByDay(assets: seq<Asset>, dateKey: DateKey) returns (groups: seq<DayGroup>)
    ensures IsDayGrouping(assets, dateKey, groups)
    ensures |groups| == if assets == [] then 0 else DateChanges(assets, dateKey) + 1
  {
    groups := [];
    var currentDate: Option<string> := None;
    var currentGroup: seq<Asset> := [];
    for i := 0 to |assets|
      invariant Scanned(assets, dateKey, i, groups, currentDate, currentGroup)
    {
      var dateString := dateKey(assets[i]);
      if Some(dateString) != currentDate {
        NewDateStep(assets, dateKey, i, groups, currentDate, currentGroup);
        if |currentGroup| > 0 {
          groups := groups + [DayGroup(currentDate.value, currentGroup)];
        }
        currentDate := Some(dateString);
        currentGroup := [assets[i]];
      } else {
        SameDateStep(assets, dateKey, i, groups, currentDate, currentGroup);
        currentGroup := currentGroup + [assets[i]];
      }
    }
    ScanDone(assets, dateKey, groups, currentDate, currentGroup);
    if |currentGroup| > 0 {
      groups := groups + [DayGroup(currentDate.value, currentGroup)];
    }
  }

  /** A date different from the open group's closes that group and opens a new one. */
  lemma NewDateStep(assets: seq<Asset>, dateKey: DateKey, i: nat, groups: seq<DayGroup>,
                    currentDate: Option<string>, currentGroup: seq<Asset>)
    requires i < |assets| && Scanned(assets, dateKey, i, groups, currentDate, currentGroup)
    requires Some(dateKey(assets[i])) != currentDate
    ensures Scanned(assets, dateKey, i + 1, Flush(groups, currentDate, currentGroup),
                    Some(dateKey(assets[i])), [assets[i]])
  {
    if i > 0 {
      CloseGroupStep(assets, dateKey, i, groups, currentDate.value, currentGroup);
    } else {
      assert assets[..1] == [assets[0]];
      assert Flatten([]) + [assets[0]] == assets[..1];
      assert DateChanges(assets[..1], dateKey) == 0;
    }
  }

  /** Closing the open group at a date change that is not the first asset. */
  lemma CloseGroupStep(assets: seq<Asset>, dateKey: DateKey, i: nat, groups: seq<DayGroup>,
                       currentDate: string, currentGroup: seq<Asset>)
    requires 0 < i < |assets| && Scanned(assets, dateKey, i, groups, Some(currentDate), currentGroup)
    requires dateKey(assets[i]) != currentDate
    ensures Scanned(assets, dateKey, i + 1, groups + [DayGroup(currentDate, currentGroup)],
                    Some(dateKey(assets[i])), [assets[i]])
  {
    var g := DayGroup(currentDate, currentGroup);
    AppendGroup(groups, g, dateKey);
    CloseGroupContents(assets, dateKey, i, groups, g);
  }

  /** The closed groups plus the new asset hold the longer prefix, one more group per change. */
  lemma CloseGroupContents(assets: seq<Asset>, dateKey: DateKey, i: nat, groups: seq<DayGroup>, g: DayGroup)
    requires 0 < i < |assets| && Flatten(groups) + g.assets == assets[..i]
    requires g.assets != [] && dateKey(assets[i - 1]) == g.date && dateKey(assets[i]) != g.date
    requires |groups| == DateChanges(assets[..i], dateKey)
    requires Flatten(groups + [g]) == Flatten(groups) + g.assets
    ensures Flatten(groups + [g]) + [assets[i]] == assets[..i + 1]
    ensures |groups + [g]| == DateChanges(assets[..i + 1], dateKey)
  {
    assert assets[..i + 1] == assets[..i] + [assets[i]];
    DateChangesStep(assets, dateKey, i);
  }

  /** A date equal to the open group's extends that group. */
  lemma SameDateStep(assets: seq<Asset>, dateKey: DateKey, i: nat, groups: seq<DayGroup>,
                     currentDate: Option<string>, currentGroup: seq<Asset>)
    requires i < |assets| && Scanned(assets, dateKey, i, groups, currentDate, currentGroup)
    requires Some(dateKey(assets[i])) == currentDate
    ensures Scanned(assets, dateKey, i + 1, groups, currentDate, currentGroup + [assets[i]])
  {
    assert assets[..i + 1] == assets[..i] + [assets[i]];
    DateChangesStep(assets, dateKey, i);
  }

  /** After the whole list, flushing the open group gives the grouping. */
  lemma ScanDone(assets: seq<Asset>, dateKey: DateKey, groups: seq<DayGroup>,
                 currentDate: Option<string>, currentGroup: seq<Asset>)
    requires Scanned(assets, dateKey, |assets|, groups, currentDate, currentGroup)
    ensures |currentGroup| > 0 ==> currentDate.Some?
    ensures var r := Flush(groups, currentDate, currentGroup);
      && IsDayGrouping(assets, dateKey, r)
      && |r| == if assets == [] then 0 else DateChanges(assets, dateKey) + 1
  {
    assert assets[..|assets|] == assets;
    if |currentGroup| > 0 {
      AppendGroup(groups, DayGroup(currentDate.value, currentGroup), dateKey);
    }
  }

  /** Appending a non-empty, single-date group whose date differs from the last one. */
  lemma AppendGroup(groups: seq<DayGroup>, g: DayGroup, dateKey: DateKey)
    requires GroupsWellDated(groups, dateKey) && NeighboursDiffer(groups)
    requires g.assets != [] && forall j :: 0 <= j < |g.assets| ==> dateKey(g.assets[j]) == g.date
    requires groups != [] ==> groups[|groups| - 1].date != g.date
    ensures GroupsWellDated(groups + [g], dateKey) && NeighboursDiffer(groups + [g])
    ensures Flatten(groups + [g]) == Flatten(groups) + g.assets
  {
    FlattenAppend(groups, g);
    AppendWellDated(groups, g, dateKey);
    AppendNeighbours(groups, g);
  }

  lemma AppendWellDated(groups: seq<DayGroup>, g: DayGroup, dateKey: DateKey)
    requires GroupsWellDated(groups, dateKey)
    requires g.assets != [] && forall j :: 0 <= j < |g.assets| ==> dateKey(g.assets[j]) == g.date
    ensures GroupsWellDated(groups + [g], dateKey)
  {
    var gs := groups + [g];
    forall k | 0 <= k < |gs|
      ensures gs[k].assets != []
      ensures forall j :: 0 <= j < |gs[k].assets| ==> dateKey(gs[k].assets[j]) == gs[k].date
    {
      if k < |groups| { assert gs[k] == groups[k]; }
    }
  }

  lemma AppendNeighbours(groups: seq<DayGroup>, g: DayGroup)
    requires NeighboursDiffer(groups)
    requires groups != [] ==> groups[|groups| - 1].date != g.date
    ensures NeighboursDiffer(groups + [g])
  {
    var gs := groups + [g];
    forall k | 0 <= k < |gs| - 1 ensures gs[k].date != gs[k + 1].date {
      assert gs[k] == groups[k];
    }
  }

  lemma FlattenAppend(groups: seq<DayGroup>, g: DayGroup)
    ensures Flatten(groups + [g]) == Flatten(groups) + g.assets
  {
    assert (groups + [g])[..|groups|] == groups;
  }

  lemma DateChangesStep(assets: seq<Asset>, dateKey: DateKey, i: nat)
    requires 0 < i < |assets|
    ensures DateChanges(assets[..i + 1], dateKey)
      == DateChanges(assets[..i], dateKey) + (if dateKey(assets[i - 1]) != dateKey(assets[i]) then 1 else 0)
  {
    assert assets[..i + 1][..i] == assets[..i];
  }

  /** Every asset of a grouping's input lies in one of its groups, so no group is empty of them. */
  lemma {:induction false} FlattenLength(groups: seq<DayGroup>, dateKey: DateKey)
    requires GroupsWellDated(groups, dateKey)
    ensures |Flatten(groups)| >= |groups|
  {
    if groups != [] {
      FlattenLength(groups[..|groups| - 1], dateKey);
    }
  }

  /** An empty list gives no groups. */
  lemma EmptyGivesNoGroups(dateKey: DateKey, groups: seq<DayGroup>)
    requires IsDayGrouping([], dateKey, groups)
    ensures groups == []
  {
    FlattenLength(groups, dateKey);
  }

  /** The last asset of a grouping's input belongs to its last group. */
  lemma FlattenLast(groups: seq<DayGroup>, dateKey: DateKey)
    requires groups != [] && GroupsWellDated(groups, dateKey)
    ensures var f := Flatten(groups); var g := groups[|groups| - 1];
      |f| >= |g.assets| && f[|f| - |g.assets|..] == g.assets
  {
  }

  /**
   * The last group of a grouping is the longest run of one date that the list ends with:
   * all of its assets have its date, and the asset before it (if any) does not.
   */
  lemma LastGroupIsMaximalRun(assets: seq<Asset>, dateKey: DateKey, groups: seq<DayGroup>)
    requires IsDayGrouping(assets, dateKey, groups) && groups != []
    ensures var n, l := |assets|, groups[|groups| - 1];
      && 0 < |l.assets| <= n
      && l.date == dateKey(assets[n - 1])
      && (forall i :: n - |l.assets| <= i < n ==> dateKey(assets[i]) == l.date)
      && (|l.assets| < n ==> dateKey(assets[n - |l.assets| - 1]) != l.date)
  {
    var n := |assets|;
    var p, l := groups[..|groups| - 1], groups[|groups| - 1];
    var m := |l.assets|;
    assert assets == Flatten(p) + l.assets;
    forall i | n - m <= i < n ensures dateKey(assets[i]) == l.date {
      assert assets[i] == l.assets[i - (n - m)];
    }
    if m < n {
      assert Flatten(p) != [];
      assert GroupsWellDated(p, dateKey);
      FlattenLast(p, dateKey);
      var q := p[|p| - 1];
      assert assets[n - m - 1] == Flatten(p)[n - m - 1] == q.assets[|q.assets| - 1];
      assert q == groups[|groups| - 2];
    }
  }

  /** Dropping the last group leaves a grouping of the list without that group's assets. */
  lemma DropLastGroup(assets: seq<Asset>, dateKey: DateKey, groups: seq<DayGroup>)
    requires IsDayGrouping(assets, dateKey, groups) && groups != []
    ensures var l := groups[|groups| - 1];
      && |l.assets| <= |assets|
      && assets[|assets| - |l.assets|..] == l.assets
      && IsDayGrouping(assets[..|assets| - |l.assets|], dateKey, groups[..|groups| - 1])
  {
    var p, l := groups[..|groups| - 1], groups[|groups| - 1];
    assert assets == Flatten(p) + l.assets;
    assert assets[..|assets| - |l.assets|] == Flatten(p);
    assert GroupsWellDated(p, dateKey);
  }

  /** Two groupings of the same list are the same: the runs are determined by the dates. */
  lemma {:induction false} GroupingIsUnique(assets: seq<Asset>, dateKey: DateKey, g1: seq<DayGroup>, g2: seq<DayGroup>)
    requires IsDayGrouping(assets, dateKey, g1) && IsDayGrouping(assets, dateKey, g2)
    ensures g1 == g2
    decreases |assets|
  {
    if assets == [] {
      EmptyGivesNoGroups(dateKey, g1);
      EmptyGivesNoGroups(dateKey, g2);
    } else {
      FlattenLength(g1, dateKey);
      FlattenLength(g2, dateKey);
      var l1, l2 := g1[|g1| - 1], g2[|g2| - 1];
      LastGroupIsMaximalRun(assets, dateKey, g1);
      LastGroupIsMaximalRun(assets, dateKey, g2);
      assert |l1.assets| == |l2.assets|;
      DropLastGroup(assets, dateKey, g1);
      DropLastGroup(assets, dateKey, g2);
      var m := |assets| - |l1.assets|;
      GroupingIsUnique(assets[..m], dateKey, g1[..|g1| - 1], g2[..|g2| - 1]);
      assert g1 == g1[..|g1| - 1] + [l1] && g2 == g2[..|g2| - 1] + [l2];
    }
  }

  /** Assets that all share one date form exactly one group holding all of them. */
  lemma OneDateOneGroup(assets: seq<Asset>, dateKey: DateKey, groups: seq<DayGroup>)
    requires assets != []
    requires forall i :: 0 <= i < |assets| ==> dateKey(assets[i]) == dateKey(assets[0])
    requires IsDayGrouping(assets, dateKey, groups)
    ensures groups == [DayGroup(dateKey(assets[0]), assets)]
  {
    var single := [DayGroup(dateKey(assets[0]), assets)];
    assert Flatten(single) == Flatten(single[..0]) + assets;
    GroupingIsUnique(assets, dateKey, groups, single);
  }

  /** Dates A, B, A in that order give three groups: equal dates that are apart stay apart. */
  lemma SplitDateSplitsGroups(a: Asset, b: Asset, c: Asset, dateKey: DateKey, groups: seq<DayGroup>)
    requires dateKey(a) == dateKey(c) != dateKey(b)
    requires IsDayGrouping([a, b, c], dateKey, groups)
    ensures groups == [DayGroup(dateKey(a), [a]), DayGroup(dateKey(b), [b]), DayGroup(dateKey(c), [c])]
  {
    var three := [DayGroup(dateKey(a), [a]), DayGroup(dateKey(b), [b]), DayGroup(dateKey(c), [c])];
    assert Flatten(three[..1]) == [a] by {
      assert Flatten(three[..1][..0]) == [];
    }
    assert three[..2][..1] == three[..1];
    assert Flatten(three[..2]) == [a, b];
    assert three[..3][..2] == three[..2];
    assert Flatten(three) == [a, b, c];
    GroupingIsUnique([a, b, c], dateKey, groups, three);
  }
}
