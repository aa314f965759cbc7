/**
 * A row of the per-day, per-game metrics views (the `GameStats` record of
 * types.ts). The day is a day number, so that comparing days is comparing
 * numbers; the numeric columns may be null.
 */
module GameStats {
  import opened Wrappers

  datatype StatsRow = StatsRow(day: int, gameType: string,
                               totalHits: Option<int>, totalErrors: Option<int>,
                               levelsCompleted: Option<int>)
}
