/** The per-draw-pass table `pointsPerSerie`: from each series to the
    ordered list of points recorded for it. These functions state what the
    chart's reset (`DrawContent`) and append (`DrawBar`) do to the table;
    the chart class applies them in place. */
module Accumulator {
  import opened Wrappers
  import opened Drawing
  import opened Series

  type Table = map<Serie, seq<Point>>

  /** The table after a reset, and whether the reset completed. */
  datatype SeedResult = SeedResult(table: Table, ok: bool)

  /** `pointsPerSerie.Clear()` followed by `pointsPerSerie.Add(s, [])` for
      each series in order. `Add` throws on a key already present, so the
      reset stops at the first repeated series, leaving the table with the
      series added before it. */
  function Seed(series: seq<Serie>): SeedResult
  {
    if series == [] then SeedResult(map[], true)
    else
      var prev := Seed(series[..|series| - 1]);
      var s := series[|series| - 1];
      if !prev.ok then prev
      else if s in prev.table then SeedResult(prev.table, false)
      else SeedResult(prev.table[s := []], true)
  }

  /** No series occurs twice. */
  predicate Distinct(series: seq<Serie>) {
    forall i, j :: 0 <= i < j < |series| ==> series[i] != series[j]
  }

  /** A reset completes exactly when no series is listed twice, and then the
      table's keys are exactly the series, each with an empty list. */
  lemma {:induction false} SeedRegistersEverySerie(series: seq<Serie>)
    ensures Seed(series).ok <==> Distinct(series)
    ensures Seed(series).ok ==>
      && Seed(series).table.Keys == set s | s in series
      && forall s :: s in Seed(series).table ==> Seed(series).table[s] == []
  {
    if series != [] {
      var init := series[..|series| - 1];
      var s := series[|series| - 1];
      assert series == init + [s];
      SeedRegistersEverySerie(init);
      if Seed(init).ok {
        if s in init {
          var k :| 0 <= k < |init| && init[k] == s;
          assert series[k] == series[|series| - 1];
        } else {
          assert (set t | t in series) == (set t | t in init) + {s};
          assert Distinct(series) by {
            forall i, j | 0 <= i < j < |series| ensures series[i] != series[j] {
              if j < |init| {
                assert series[i] == init[i] && series[j] == init[j];
              } else {
                assert series[i] == init[i];
              }
            }
          }
        }
      } else {
        assert !Distinct(series) by {
          var i, j :| 0 <= i < j < |init| && init[i] == init[j];
          assert series[i] == series[j];
        }
      }
    }
  }

  /** Once the reset has stopped at a repeated series, the rest of the list
      changes nothing. */
  lemma {:induction false} SeedStopsAtFailure(series: seq<Serie>, k: nat)
    requires k <= |series|
    requires !Seed(series[..k]).ok
    ensures Seed(series) == Seed(series[..k])
    decreases |series| - k
  {
    if k < |series| {
      assert series[..|series| - 1][..k] == series[..k];
      SeedStopsAtFailure(series[..|series| - 1], k);
    } else {
      assert series[..k] == series;
    }
  }

  /** A failed reset leaves the table as it was just before the first
      repeated series: every series before it maps to an empty list. */
  lemma {:induction false} FailedSeedKeepsPrefix(series: seq<Serie>)
    requires !Seed(series).ok
    ensures exists k ::
      && 0 <= k < |series| && series[k] in series[..k]
      && Seed(series[..k]).ok && Seed(series).table == Seed(series[..k]).table
  {
    var init := series[..|series| - 1];
    var s := series[|series| - 1];
    assert series[..|series| - 1] == init;
    if Seed(init).ok {
      assert s in Seed(init).table;
      SeedRegistersEverySerie(init);
      assert s in init;
    } else {
      FailedSeedKeepsPrefix(init);
      var k :| 0 <= k < |init| && init[k] in init[..k] &&
        Seed(init[..k]).ok && Seed(init).table == Seed(init[..k]).table;
      assert init[..k] == series[..k];
    }
  }

  /** `pointsPerSerie[serie].Add(point)`: the indexer throws (`None`) when
      the series was not registered at the last reset; otherwise exactly one
      point is appended to that series' list and nothing else changes. */
  function Record(table: Table, serie: Serie, point: Point): (r: Option<Table>)
    ensures r.None? <==> serie !in table
    ensures r.Some? ==>
      && r.value.Keys == table.Keys
      && |r.value[serie]| == |table[serie]| + 1
      && r.value[serie][..|table[serie]|] == table[serie]
      && r.value[serie][|table[serie]|] == point
      && forall s :: s in table && s != serie ==> r.value[s] == table[s]
  {
    if serie in table then Some(table[serie := table[serie] + [point]]) else None
  }
}
