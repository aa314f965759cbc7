/**
 * The caregiver's game statistics (hooks/metrics/caregiver/useCaregiverGameStats.ts):
 * a page of at most seven rows of the caregiver view, of one game type or of
 * all, taken in ascending day order and then reversed in place; the two chart
 * datasets are projections of those rows.
 */
module CaregiverGameStats {
  import opened Wrappers
  import opened Lists
  import opened GameStats

  const PageSize: nat := 7

  /** `.eq('game_type', category)` unless the category is "all": an exact match. */
  predicate InCategory(category: string, gameType: string) {
    category == "all" || gameType == category
  }

  predicate IncreasingDays(rows: seq<StatsRow>) {
    forall i, j :: 0 <= i < j < |rows| ==> rows[i].day < rows[j].day
  }

  /** The rows of the category, in the view's order. */
  function OfCategory(view: seq<StatsRow>, category: string): (r: seq<StatsRow>)
    ensures forall x :: x in r <==> x in view && InCategory(category, x.gameType)
  {
    Filter(view, (x: StatsRow) => InCategory(category, x.gameType))
  }

  /**
   * What the query answers from the view's rows listed in ascending day
   * order: the first `PageSize` rows of the category, so the earliest ones.
   */
  function QueryRows(view: seq<StatsRow>, category: string): (r: seq<StatsRow>)
    ensures |r| == if |OfCategory(view, category)| < PageSize then |OfCategory(view, category)| else PageSize
    ensures r <= OfCategory(view, category)
    ensures forall x :: x in r ==> x in view && InCategory(category, x.gameType)
  {
    var rows := OfCategory(view, category);
    var r := if |rows| < PageSize then rows else rows[..PageSize];
    assert forall x :: x in r ==> x in rows;
    r
  }

  /** A point of the accuracy chart: the row's day and its two counts, null kept. */
  datatype AccuracyPoint = AccuracyPoint(day: int, totalHits: Option<int>, totalErrors: Option<int>)

  /** A point of the completion chart. */
  datatype CompletionPoint = CompletionPoint(day: int, levelsCompleted: Option<int>)

  /** `accuracyData`: one point per row, in the rows' order. */
  function AccuracyOf(rows: seq<StatsRow>): (r: seq<AccuracyPoint>)
    ensures |r| == |rows|
    ensures forall k :: 0 <= k < |rows| ==>
      r[k] == AccuracyPoint(rows[k].day, rows[k].totalHits, rows[k].totalErrors)
  {
    seq(|rows|, k requires 0 <= k < |rows| => AccuracyPoint(rows[k].day, rows[k].totalHits, rows[k].totalErrors))
  }

  /** `completionData`: one point per row, in the rows' order. */
  function CompletionOf(rows: seq<StatsRow>): (r: seq<CompletionPoint>)
    ensures |r| == |rows|
    ensures forall k :: 0 <= k < |rows| ==> r[k] == CompletionPoint(rows[k].day, rows[k].levelsCompleted)
  {
    seq(|rows|, k requires 0 <= k < |rows| => CompletionPoint(rows[k].day, rows[k].levelsCompleted))
  }

  /** The charts show the points in the order of the rows: reversing the rows
      reverses each chart. */
  lemma ChartsFollowRowOrder(rows: seq<StatsRow>)
    ensures AccuracyOf(Reverse(rows)) == Reverse(AccuracyOf(rows))
    ensures CompletionOf(Reverse(rows)) == Reverse(CompletionOf(rows))
  {
  }

  /** Reversing rows in ascending day order lists them newest first. */
  lemma ReversedRowsAreNewestFirst(rows: seq<StatsRow>)
    requires IncreasingDays(rows)
    ensures forall i, j :: 0 <= i < j < |rows| ==> Reverse(rows)[i].day > Reverse(rows)[j].day
  {
  }

  /** The rows shown: the query's page, reversed. */
  function ShownRows(view: seq<StatsRow>, category: string): (r: seq<StatsRow>)
    ensures |r| == |QueryRows(view, category)| <= PageSize
    ensures forall x :: x in r ==> x in view && InCategory(category, x.gameType)
    ensures forall k :: 0 <= k < |r| ==> r[k] == OfCategory(view, category)[|r| - 1 - k]
  {
    Reverse(QueryRows(view, category))
  }

  /** The hook's state. */
  class Stats {
    var data: seq<StatsRow>
    var loading: bool
    var error: Option<string>

    constructor ()
      ensures data == [] && loading && error.None?
    {
      data := [];
      loading := true;
      error := None;
    }

    /**
     * The fetch effect. Without a user the data is emptied and loading ends.
     * A failed query empties the data and keeps its message; otherwise the
     * data is the page of rows reversed, so newest first. Loading ends
     * either way.
     */
    method Fetch(signedIn: bool, category: string, view: seq<StatsRow>, failure: Option<string>)
      modifies this
      ensures !loading
      ensures !signedIn ==> data == [] && error == old(error)
      ensures signedIn && failure.Some? ==> data == [] && error == failure
      ensures signedIn && failure.None? ==> data == ShownRows(view, category) && error.None?
    {
      if !signedIn {
        data := [];
        loading := false;
        return;
      }
      loading := true;
      error := None;
      if failure.Some? {
        error := failure;
        data := [];
      } else {
        var rows := QueryRows(view, category);
        var a := new StatsRow[|rows|](k requires 0 <= k < |rows| => rows[k]);
        assert a[..] == rows;
        ReverseInPlace(a);
        data := a[..];
      }
      loading := false;
    }
  }

  // ---------------------------------------------------------------------
  // The week shown
  // ---------------------------------------------------------------------

  /** Once the category has more than a page of rows, its newest row is not
      shown: the page is the earliest week, not the latest. */
  lemma EarliestPageMissesNewest(view: seq<StatsRow>, category: string)
    requires IncreasingDays(view) && |OfCategory(view, category)| > PageSize
    ensures var rows := OfCategory(view, category);
      rows[|rows| - 1] in view && rows[|rows| - 1] !in ShownRows(view, category)
  {
    var rows := OfCategory(view, category);
    FilterIncreasing(view, (x: StatsRow) => InCategory(category, x.gameType));
    var page := QueryRows(view, category);
    assert rows[|rows| - 1] in rows;
    assert page == rows[..PageSize];
    forall k | 0 <= k < |page| ensures page[k] != rows[|rows| - 1] {
      assert page[k] == rows[k];
    }
    assert forall k :: 0 <= k < |page| ==> Reverse(page)[k] == page[|page| - 1 - k];
  }

  /**
   * The latest week, oldest first: the last `PageSize` rows of the category,
   * which a query in descending day order followed by the reversal yields.
   */
  function LatestWeekRows(view: seq<StatsRow>, category: string): (r: seq<StatsRow>)
    ensures |r| == if |OfCategory(view, category)| < PageSize then |OfCategory(view, category)| else PageSize
  {
    var rows := OfCategory(view, category);
    if |rows| < PageSize then rows else rows[|rows| - PageSize..]
  }

  /** The latest week holds the category's newest row, ascending, and every row it
      leaves out is older than every row it keeps. */
  lemma LatestWeekKeepsNewest(view: seq<StatsRow>, category: string)
    requires IncreasingDays(view)
    ensures var rows := OfCategory(view, category);
      && (rows != [] ==> rows[|rows| - 1] in LatestWeekRows(view, category))
      && IncreasingDays(LatestWeekRows(view, category))
      && forall x, y :: x in rows && x !in LatestWeekRows(view, category) && y in LatestWeekRows(view, category) ==>
           x.day < y.day
  {
    var rows := OfCategory(view, category);
    FilterIncreasing(view, (x: StatsRow) => InCategory(category, x.gameType));
    var start := if |rows| < PageSize then 0 else |rows| - PageSize;
    assert LatestWeekRows(view, category) == rows[start..];
    SuffixKeepsNewest(rows, start);
  }

  lemma SuffixKeepsNewest(rows: seq<StatsRow>, start: nat)
    requires IncreasingDays(rows) && start <= |rows|
    ensures rows != [] && start < |rows| ==> rows[|rows| - 1] in rows[start..]
    ensures IncreasingDays(rows[start..])
    ensures forall x, y :: x in rows && x !in rows[start..] && y in rows[start..] ==> x.day < y.day
  {
    var r := rows[start..];
    if rows != [] && start < |rows| {
      assert rows[|rows| - 1] == r[|r| - 1];
    }
    forall x, y | x in rows && x !in r && y in r ensures x.day < y.day {
      var i :| 0 <= i < |rows| && rows[i] == x;
      var j :| 0 <= j < |r| && r[j] == y;
      assert rows[start + j] == y;
    }
  }

  /** Filtering rows in ascending day order keeps them in ascending day order. */
  lemma {:induction false} FilterIncreasing(s: seq<StatsRow>, keep: StatsRow -> bool)
    requires IncreasingDays(s)
    ensures IncreasingDays(Filter(s, keep))
  {
    if s != [] {
      FilterIncreasing(s[1..], keep);
      var rest := Filter(s[1..], keep);
      assert forall k :: 0 <= k < |rest| ==> rest[k] in s[1..] && s[0].day < rest[k].day;
    }
  }
}
