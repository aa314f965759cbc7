/**
 * The patient's game statistics (hooks/metrics/patient/usePatientGameStats.ts):
 * the category filter of the fetch, and the two per-day aggregates that sum
 * the rows of each day (a missing number counts as 0) and list the days in
 * ascending order.
 */
module PatientGameStats {
  import opened Wrappers
  import opened JsText
  import opened Lists
  import opened GameStats

  const DefaultError: string := "Error cargando estadísticas"

  /** `game_type ILIKE '{category}%'` unless the category is "all". */
  predicate InCategory(category: string, gameType: string) {
    category == "all" || StartsWith(ToLower(gameType), ToLower(category))
  }

  /** `Number(x ?? 0)` of the three numeric columns. */
  function Hits(r: StatsRow): int { r.totalHits.GetOr(0) }
  function Errors(r: StatsRow): int { r.totalErrors.GetOr(0) }
  function Levels(r: StatsRow): int { r.levelsCompleted.GetOr(0) }

  /** The days the rows mention. */
  function DaysOf(rows: seq<StatsRow>): set<int> {
    set k | 0 <= k < |rows| :: rows[k].day
  }

  /** The sum of `f` over the rows of day `d`. */
  function SumOn(rows: seq<StatsRow>, d: int, f: StatsRow -> int): int {
    if rows == [] then 0
    else SumOn(rows[..|rows| - 1], d, f) + (if rows[|rows| - 1].day == d then f(rows[|rows| - 1]) else 0)
  }

  /** The sum of `f` over all rows. */
  function Total(rows: seq<StatsRow>, f: StatsRow -> int): int {
    if rows == [] then 0 else Total(rows[..|rows| - 1], f) + f(rows[|rows| - 1])
  }

  // ---------------------------------------------------------------------
  // Ascending days
  // ---------------------------------------------------------------------

  predicate Increasing(ds: seq<int>) {
    forall i, j :: 0 <= i < j < |ds| ==> ds[i] < ds[j]
  }

  /** Puts a new day in its place in an ascending list: the sort by date, one day at a time. */
  function Insert(ds: seq<int>, d: int): (r: seq<int>)
    requires Increasing(ds) && d !in ds
    ensures Increasing(r) && |r| == |ds| + 1
    ensures forall x :: x in r <==> x in ds || x == d
  {
    if ds == [] then [d]
    else if d < ds[0] then
      assert forall k :: 0 < k < |ds| ==> ds[0] < ds[k];
      [d] + ds
    else
      var rest := Insert(ds[1..], d);
      assert forall x :: x in ds <==> x == ds[0] || x in ds[1..];
      forall k | 0 <= k < |rest| ensures ds[0] < rest[k] {
        assert rest[k] in rest;
        if rest[k] != d {
          var j :| 0 <= j < |ds| - 1 && ds[1..][j] == rest[k];
          assert ds[j + 1] == rest[k];
        }
      }
      [ds[0]] + rest
  }

  // ---------------------------------------------------------------------
  // The two aggregates
  // ---------------------------------------------------------------------

  datatype DayAccuracy = DayAccuracy(day: int, totalHits: int, totalErrors: int)
  datatype DayCompletion = DayCompletion(day: int, levelsCompleted: int)

  /** `accuracyData` of `rows`: one entry per day the rows mention, in ascending
      order, holding that day's summed hits and errors. */
  predicate IsAccuracyByDay(rows: seq<StatsRow>, r: seq<DayAccuracy>) {
    && Increasing(seq(|r|, k requires 0 <= k < |r| => r[k].day))
    && (forall k :: 0 <= k < |r| ==> r[k].day in DaysOf(rows))
    && (forall d :: d in DaysOf(rows) ==> exists k :: 0 <= k < |r| && r[k].day == d)
    && (forall k :: 0 <= k < |r| ==>
          r[k].totalHits == SumOn(rows, r[k].day, Hits) && r[k].totalErrors == SumOn(rows, r[k].day, Errors))
  }

  /** `completionData` of `rows`: one entry per day, ascending, with the day's summed levels. */
  predicate IsCompletionByDay(rows: seq<StatsRow>, r: seq<DayCompletion>) {
    && Increasing(seq(|r|, k requires 0 <= k < |r| => r[k].day))
    && (forall k :: 0 <= k < |r| ==> r[k].day in DaysOf(rows))
    && (forall d :: d in DaysOf(rows) ==> exists k :: 0 <= k < |r| && r[k].day == d)
    && (forall k :: 0 <= k < |r| ==> r[k].levelsCompleted == SumOn(rows, r[k].day, Levels))
  }

  lemma DaysOfPrefix(rows: seq<StatsRow>, i: nat)
    requires i < |rows|
    ensures DaysOf(rows[..i + 1]) == DaysOf(rows[..i]) + {rows[i].day}
  {
    var p := rows[..i + 1];
    assert forall k :: 0 <= k < i ==> p[k] == rows[..i][k];
    forall d | d in DaysOf(p) ensures d in DaysOf(rows[..i]) + {rows[i].day} {
      var k :| 0 <= k < |p| && p[k].day == d;
      if k < i {
        assert rows[..i][k].day == d;
      }
    }
    forall d | d in DaysOf(rows[..i]) ensures d in DaysOf(p) {
      var k :| 0 <= k < i && rows[..i][k].day == d;
      assert p[k].day == d;
    }
    assert p[i].day == rows[i].day;
  }

  lemma {:induction false} SumOnAbsent(rows: seq<StatsRow>, d: int, f: StatsRow -> int)
    requires d !in DaysOf(rows)
    ensures SumOn(rows, d, f) == 0
  {
    if rows != [] {
      var init := rows[..|rows| - 1];
      assert forall k :: 0 <= k < |init| ==> init[k] == rows[k];
      assert DaysOf(init) <= DaysOf(rows);
      SumOnAbsent(init, d, f);
    }
  }

  /** The dictionary after the rows so far: an entry per day, holding the day's sums. */
  predicate AccuracySoFar(rows: seq<StatsRow>, acc: map<int, DayAccuracy>) {
    && acc.Keys == DaysOf(rows)
    && forall d :: d in acc ==> acc[d] == DayAccuracy(d, SumOn(rows, d, Hits), SumOn(rows, d, Errors))
  }

  /** One step of the `reduce`: create the day's entry at zero if missing, then add the row. */
  function AddAccuracy(acc: map<int, DayAccuracy>, row: StatsRow): map<int, DayAccuracy> {
    var entry := if row.day in acc then acc[row.day] else DayAccuracy(row.day, 0, 0);
    acc[row.day := DayAccuracy(row.day, entry.totalHits + Hits(row), entry.totalErrors + Errors(row))]
  }

  lemma AddAccuracyStep(rows: seq<StatsRow>, i: nat, acc: map<int, DayAccuracy>)
    requires i < |rows| && AccuracySoFar(rows[..i], acc)
    ensures AccuracySoFar(rows[..i + 1], AddAccuracy(acc, rows[i]))
  {
    DaysOfPrefix(rows, i);
    assert rows[..i + 1][..i] == rows[..i];
    if rows[i].day !in acc {
      SumOnAbsent(rows[..i], rows[i].day, Hits);
      SumOnAbsent(rows[..i], rows[i].day, Errors);
    }
  }

  /** The `reduce` for `accuracyData`, into a dictionary keyed by day, then the
      sort of its values by day. */
  method AccuracyByDay(rows: seq<StatsRow>) returns (r: seq<DayAccuracy>)
    ensures IsAccuracyByDay(rows, r)
  {
    var acc: map<int, DayAccuracy> := map[];
    var days: seq<int> := [];
    for i := 0 to |rows|
      invariant AccuracySoFar(rows[..i], acc)
      invariant Increasing(days) && forall d :: d in days <==> d in acc
    {
      var row := rows[i];
      if row.day !in acc {
        days := Insert(days, row.day);
      }
      AddAccuracyStep(rows, i, acc);
      acc := AddAccuracy(acc, row);
    }
    assert rows[..|rows|] == rows;
    forall k | 0 <= k < |days| ensures days[k] in acc {
      assert days[k] in days;
    }
    r := seq(|days|, k requires 0 <= k < |days| => acc[days[k]]);
    AccuracyFromDictionary(rows, acc, days, r);
  }

  /** The dictionary's values, listed in ascending day order, are `accuracyData`. */
  lemma AccuracyFromDictionary(rows: seq<StatsRow>, acc: map<int, DayAccuracy>, days: seq<int>, r: seq<DayAccuracy>)
    requires acc.Keys == DaysOf(rows)
    requires Increasing(days) && forall d :: d in days <==> d in acc
    requires forall d :: d in acc ==> acc[d] == DayAccuracy(d, SumOn(rows, d, Hits), SumOn(rows, d, Errors))
    requires |r| == |days| && forall k :: 0 <= k < |days| ==> days[k] in acc && r[k] == acc[days[k]]
    ensures IsAccuracyByDay(rows, r)
  {
    assert forall k :: 0 <= k < |days| ==> days[k] in days && r[k].day == days[k];
    assert seq(|r|, k requires 0 <= k < |r| => r[k].day) == days;
    forall d | d in DaysOf(rows) ensures exists k :: 0 <= k < |r| && r[k].day == d {
      var k :| 0 <= k < |days| && days[k] == d;
      assert r[k].day == d;
    }
  }

  /** The completion dictionary after the rows so far. */
  predicate CompletionSoFar(rows: seq<StatsRow>, acc: map<int, DayCompletion>) {
    && acc.Keys == DaysOf(rows)
    && forall d :: d in acc ==> acc[d] == DayCompletion(d, SumOn(rows, d, Levels))
  }

  /** One step of the completion `reduce`. */
  function AddCompletion(acc: map<int, DayCompletion>, row: StatsRow): map<int, DayCompletion> {
    var entry := if row.day in acc then acc[row.day] else DayCompletion(row.day, 0);
    acc[row.day := DayCompletion(row.day, entry.levelsCompleted + Levels(row))]
  }

  lemma AddCompletionStep(rows: seq<StatsRow>, i: nat, acc: map<int, DayCompletion>)
    requires i < |rows| && CompletionSoFar(rows[..i], acc)
    ensures CompletionSoFar(rows[..i + 1], AddCompletion(acc, rows[i]))
  {
    DaysOfPrefix(rows, i);
    assert rows[..i + 1][..i] == rows[..i];
    if rows[i].day !in acc {
      SumOnAbsent(rows[..i], rows[i].day, Levels);
    }
  }

  /** The `reduce` for `completionData`, then the sort by day. */
  method CompletionByDay(rows: seq<StatsRow>) returns (r: seq<DayCompletion>)
    ensures IsCompletionByDay(rows, r)
  {
    var acc: map<int, DayCompletion> := map[];
    var days: seq<int> := [];
    for i := 0 to |rows|
      invariant CompletionSoFar(rows[..i], acc)
      invariant Increasing(days) && forall d :: d in days <==> d in acc
    {
      var row := rows[i];
      if row.day !in acc {
        days := Insert(days, row.day);
      }
      AddCompletionStep(rows, i, acc);
      acc := AddCompletion(acc, row);
    }
    assert rows[..|rows|] == rows;
    assert forall k :: 0 <= k < |days| ==> days[k] in days && days[k] in acc;
    r := seq(|days|, k requires 0 <= k < |days| => acc[days[k]]);
    CompletionFromDictionary(rows, acc, days, r);
  }

  /** The dictionary's values, listed in ascending day order, are `completionData`. */
  lemma CompletionFromDictionary(rows: seq<StatsRow>, acc: map<int, DayCompletion>, days: seq<int>, r: seq<DayCompletion>)
    requires acc.Keys == DaysOf(rows)
    requires Increasing(days) && forall d :: d in days <==> d in acc
    requires forall d :: d in acc ==> acc[d] == DayCompletion(d, SumOn(rows, d, Levels))
    requires |r| == |days| && forall k :: 0 <= k < |days| ==> days[k] in acc && r[k] == acc[days[k]]
    ensures IsCompletionByDay(rows, r)
  {
    assert forall k :: 0 <= k < |days| ==> days[k] in days && r[k].day == days[k];
    assert seq(|r|, k requires 0 <= k < |r| => r[k].day) == days;
    forall d | d in DaysOf(rows) ensures exists k :: 0 <= k < |r| && r[k].day == d {
      var k :| 0 <= k < |days| && days[k] == d;
      assert r[k].day == d;
    }
  }

  // ---------------------------------------------------------------------
  // Nothing is lost or counted twice
  // ---------------------------------------------------------------------

  /** The sum of `SumOn` over a list of days. */
  function SumOverDays(rows: seq<StatsRow>, ds: seq<int>, f: StatsRow -> int): int {
    if ds == [] then 0 else SumOn(rows, ds[0], f) + SumOverDays(rows, ds[1..], f)
  }

  lemma {:induction false} SumOverDaysEmpty(ds: seq<int>, f: StatsRow -> int)
    ensures SumOverDays([], ds, f) == 0
  {
    if ds != [] {
      SumOverDaysEmpty(ds[1..], f);
    }
  }

  lemma {:induction false} SumOverDaysStep(init: seq<StatsRow>, x: StatsRow, ds: seq<int>, f: StatsRow -> int)
    requires Increasing(ds)
    ensures SumOverDays(init + [x], ds, f) == SumOverDays(init, ds, f) + (if x.day in ds then f(x) else 0)
  {
    if ds != [] {
      assert (init + [x])[..|init + [x]| - 1] == init;
      SumOverDaysStep(init, x, ds[1..], f);
      assert x.day in ds <==> x.day == ds[0] || x.day in ds[1..];
      if x.day == ds[0] {
        assert x.day !in ds[1..];
      }
    }
  }

  /** Over distinct days covering every row's day, the per-day sums add up to the total. */
  lemma {:induction false} SumOverDaysIsTotal(rows: seq<StatsRow>, ds: seq<int>, f: StatsRow -> int)
    requires Increasing(ds) && forall d :: d in DaysOf(rows) ==> d in ds
    ensures SumOverDays(rows, ds, f) == Total(rows, f)
    decreases |rows|
  {
    if rows == [] {
      SumOverDaysEmpty(ds, f);
    } else {
      var init := rows[..|rows| - 1];
      var x := rows[|rows| - 1];
      assert rows == init + [x];
      assert forall k :: 0 <= k < |init| ==> init[k] == rows[k];
      assert DaysOf(init) <= DaysOf(rows);
      SumOverDaysIsTotal(init, ds, f);
      SumOverDaysStep(init, x, ds, f);
      assert x.day in DaysOf(rows);
    }
  }

  /** The summed hits of the entries. */
  function EntryHits(r: seq<DayAccuracy>): int {
    if r == [] then 0 else r[0].totalHits + EntryHits(r[1..])
  }

  /** The summed errors of the entries. */
  function EntryErrors(r: seq<DayAccuracy>): int {
    if r == [] then 0 else r[0].totalErrors + EntryErrors(r[1..])
  }

  lemma {:induction false} EntrySums(rows: seq<StatsRow>, r: seq<DayAccuracy>)
    requires forall k :: 0 <= k < |r| ==>
      r[k].totalHits == SumOn(rows, r[k].day, Hits) && r[k].totalErrors == SumOn(rows, r[k].day, Errors)
    ensures var ds := seq(|r|, k requires 0 <= k < |r| => r[k].day);
      EntryHits(r) == SumOverDays(rows, ds, Hits) && EntryErrors(r) == SumOverDays(rows, ds, Errors)
  {
    if r != [] {
      EntrySums(rows, r[1..]);
      var ds := seq(|r|, k requires 0 <= k < |r| => r[k].day);
      assert ds[1..] == seq(|r[1..]|, k requires 0 <= k < |r[1..]| => r[1..][k].day);
    }
  }

  /** The accuracy aggregate neither loses nor double-counts: its hits and
      errors add up to those of the rows, missing numbers counted as 0. */
  lemma AccuracyKeepsTotals(rows: seq<StatsRow>, r: seq<DayAccuracy>)
    requires IsAccuracyByDay(rows, r)
    ensures EntryHits(r) == Total(rows, Hits) && EntryErrors(r) == Total(rows, Errors)
  {
    var ds := seq(|r|, k requires 0 <= k < |r| => r[k].day);
    forall d | d in DaysOf(rows) ensures d in ds {
      var k :| 0 <= k < |r| && r[k].day == d;
      assert ds[k] == d;
    }
    EntrySums(rows, r);
    SumOverDaysIsTotal(rows, ds, Hits);
    SumOverDaysIsTotal(rows, ds, Errors);
  }

  // ---------------------------------------------------------------------
  // The hook
  // ---------------------------------------------------------------------

  /** The rows the query returns from a snapshot of the view, taken in day
      order: the user's rows of the category. */
  function QueryRows(view: seq<(string, StatsRow)>, userId: string, category: string): (r: seq<(string, StatsRow)>)
    ensures forall e :: e in r <==> e in view && e.0 == userId && InCategory(category, e.1.gameType)
  {
    Filter(view, (e: (string, StatsRow)) => e.0 == userId && InCategory(category, e.1.gameType))
  }

  /** The rows without their user column. */
  function RowsOf(entries: seq<(string, StatsRow)>): (r: seq<StatsRow>)
    ensures |r| == |entries| && forall k :: 0 <= k < |r| ==> r[k] == entries[k].1
  {
    seq(|entries|, k requires 0 <= k < |entries| => entries[k].1)
  }

  class Stats {
    var data: seq<StatsRow>
    var loading: bool
    var error: Option<string>

    constructor ()
      ensures data == [] && loading && error.None?
    {
      data := [];
      loading := true;
      error := None;
    }

    /**
     * The fetch effect for the `userId` argument or else the signed-in user
     * (an empty id counts as none, and then nothing happens). A failed query
     * keeps the data and sets its message, or the default one when it has
     * none; otherwise the data becomes the user's rows of the category.
     * Loading ends either way.
     */
    method Fetch(userIdArg: Option<string>, currentUser: Option<string>, category: string,
                 view: seq<(string, StatsRow)>, failure: Option<string>)
      modifies this
      ensures var id := if userIdArg.Some? && userIdArg.value != "" then userIdArg else currentUser;
        && (id.None? || id.value == "" ==> data == old(data) && loading == old(loading) && error == old(error))
        && (id.Some? && id.value != "" ==>
              && !loading
              && (failure.None? ==> error.None? && data == RowsOf(QueryRows(view, id.value, category)))
              && (failure.Some? ==>
                    data == old(data) && error == Some(if failure.value == "" then DefaultError else failure.value)))
    {
      var id := if userIdArg.Some? && userIdArg.value != "" then userIdArg else currentUser;
      if id.None? || id.value == "" {
        return;
      }
      loading := true;
      error := None;
      if failure.None? {
        data := RowsOf(QueryRows(view, id.value, category));
      } else {
        error := Some(if failure.value == "" then DefaultError else failure.value);
      }
      loading := false;
    }

    /** `accuracyData`, computed from the data. */
    method AccuracyData() returns (r: seq<DayAccuracy>)
      ensures IsAccuracyByDay(data, r)
      ensures EntryHits(r) == Total(data, Hits) && EntryErrors(r) == Total(data, Errors)
    {
      r := AccuracyByDay(data);
      AccuracyKeepsTotals(data, r);
    }

    /** `completionData`, computed from the data. */
    method CompletionData() returns (r: seq<DayCompletion>)
      ensures IsCompletionByDay(data, r)
    {
      r := CompletionByDay(data);
    }
  }
}
