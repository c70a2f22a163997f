/**
 * The news-attribution table of the dynamic-factor-model news view.
 *
 * For the selected series, the view scans the new information set backwards
 * over its trailing run of missing observations, keeps the positions whose
 * period (converted to the model's frequency) is not before the model's domain
 * start, and records for each the weights row, the revision (news . weights)
 * and the new forecast. An independent scan of the old information set
 * records the old forecasts. All lists are then reversed into chronological
 * order and laid out as a grid: one row per information update, three summary
 * rows, and one weight column per target period.
 */
module NewsWeights {
  import opened Values

  /** A period, modelled by its ordinal at the series' frequency. */
  type Period = int

  /** One observation of a series; `Missing` is distinct from every number. */
  datatype Obs = Missing | Observed(value: real)

  /** A contiguous series: observation `j` belongs to period `start + j`. */
  datatype TsData = TsData(start: Period, obs: seq<Obs>)

  /** One newly revealed observation (standardised values). */
  datatype Update = Update(series: nat, period: Period, forecast: real, observation: real)

  /** Per-series destandardisation parameters and display label. */
  datatype Descriptor = Descriptor(description: string, mean: real, stdev: real)

  /**
   * What the view reads from the news document. The model-layer queries
   * (`lastPeriod` at the domain frequency, the weights rows and the two
   * forecast lookups) are taken as given functions.
   */
  datatype NewsDoc = NewsDoc(
    news: seq<real>,
    newSet: seq<TsData>,
    oldSet: seq<TsData>,
    domainStart: Period,
    lastPeriod: Period -> Period,
    weights: (nat, Period) -> seq<real>,
    newForecast: (nat, Period) -> real,
    oldForecast: (nat, Period) -> real,
    updates: seq<Update>)

  /** A cell of the grid: null, a period, or a number. */
  datatype Cell = Null | PeriodCell(period: Period) | DoubleCell(value: real)

  /** Reading a cell either yields a value or fails on a list index (Java's IndexOutOfBoundsException). */
  datatype Lookup = Value(cell: Cell) | IndexOutOfBounds

  datatype ColumnClass = PeriodClass | DoubleClass

  const REFERENCE_TITLE := "<html><p style=\"text-align:center\">Reference<br>Period</p></html>"
  const EXPECTED_TITLE := "<html><p style=\"text-align:center\">Expected<br>Value</p></html>"
  const OBSERVED_TITLE := "<html><p style=\"text-align:center\">Observed<br>Value</p></html>"
  const ALL_REVISIONS := "All revisions"
  const OLD_FORECAST := "Old Forecast"
  const NEW_FORECAST := "New Forecast"

  /** The title of the weight column of a target period (the closing tag is written `<html>` in the view). */
  function WeightTitle(periodText: string): string {
    "<html><p style=\"text-align:center\">Weight<br>" + periodText + "</p><html>"
  }

  // ---------------------------------------------------------------------------
  // Arithmetic of the table
  // ---------------------------------------------------------------------------

  /** The dot product of the news vector with a weights row. */
  function Dot(a: seq<real>, b: seq<real>): real
    requires |a| == |b|
  {
    if a == [] then 0.0 else a[0] * b[0] + Dot(a[1..], b[1..])
  }

  /** Without news (a zero news vector), no target forecast is revised. */
  lemma {:induction false} DotZeroNews(news: seq<real>, w: seq<real>)
    requires |news| == |w|
    requires forall i :: 0 <= i < |news| ==> news[i] == 0.0
    ensures Dot(news, w) == 0.0
  {
    if news != [] {
      DotZeroNews(news[1..], w[1..]);
    }
  }

  /** Converts a standardised model value into natural units. */
  function Destandardize(x: real, d: Descriptor): real {
    x * d.stdev + d.mean
  }

  // ---------------------------------------------------------------------------
  // The backward scan
  // ---------------------------------------------------------------------------

  /**
   * The positions below `hi` that the backward scan keeps, in the order the scan
   * visits them: it starts at `hi - 1`, stops at the first observed position,
   * and keeps a missing position when its converted period is not before
   * `domainStart`.
   */
  function Scan(s: TsData, lastPeriod: Period -> Period, domainStart: Period, hi: nat): seq<nat>
    requires hi <= |s.obs|
  {
    if hi == 0 || s.obs[hi - 1].Observed? then []
    else if lastPeriod(s.start + hi - 1) >= domainStart then [hi - 1] + Scan(s, lastPeriod, domainStart, hi - 1)
    else Scan(s, lastPeriod, domainStart, hi - 1)
  }

  /** Every position from `k` up to (excluding) `hi` is missing. */
  predicate MissingFrom(s: TsData, k: nat, hi: nat)
    requires hi <= |s.obs|
  {
    forall m :: k <= m < hi ==> s.obs[m].Missing?
  }

  /**
   * A position is kept exactly when it lies in the trailing run of missing
   * observations below `hi` and its converted period is not before the domain
   * start; a position that fails the domain test does not end the scan, and
   * nothing before the last observed position is ever kept.
   */
  lemma {:induction false} ScanMembers(s: TsData, lastPeriod: Period -> Period, domainStart: Period, hi: nat, k: nat)
    requires hi <= |s.obs|
    ensures k in Scan(s, lastPeriod, domainStart, hi) <==>
              k < hi && MissingFrom(s, k, hi) && lastPeriod(s.start + k) >= domainStart
  {
    if hi == 0 {
    } else if s.obs[hi - 1].Observed? {
      assert k < hi ==> !MissingFrom(s, k, hi);
    } else {
      ScanMembers(s, lastPeriod, domainStart, hi - 1, k);
      if k < hi - 1 {
        assert MissingFrom(s, k, hi) <==> MissingFrom(s, k, hi - 1);
      }
    }
  }

  /** One step of the scan loop: `kept` holds the positions kept above `hi - 1`;
      visiting `hi - 1` either stops the scan or moves on with it kept or skipped. */
  lemma ScanStep(s: TsData, lastPeriod: Period -> Period, domainStart: Period, hi: nat, kept: seq<nat>)
    requires 0 < hi <= |s.obs|
    requires kept + Scan(s, lastPeriod, domainStart, hi) == Scan(s, lastPeriod, domainStart, |s.obs|)
    ensures s.obs[hi - 1].Observed? ==> kept == Scan(s, lastPeriod, domainStart, |s.obs|)
    ensures s.obs[hi - 1].Missing? && lastPeriod(s.start + hi - 1) >= domainStart ==>
              hi - 1 in Scan(s, lastPeriod, domainStart, |s.obs|) &&
              (kept + [hi - 1]) + Scan(s, lastPeriod, domainStart, hi - 1) == Scan(s, lastPeriod, domainStart, |s.obs|)
    ensures s.obs[hi - 1].Missing? && lastPeriod(s.start + hi - 1) < domainStart ==>
              kept + Scan(s, lastPeriod, domainStart, hi - 1) == Scan(s, lastPeriod, domainStart, |s.obs|)
  {
    var all := Scan(s, lastPeriod, domainStart, |s.obs|);
    if s.obs[hi - 1].Missing? && lastPeriod(s.start + hi - 1) >= domainStart {
      assert all[|kept|] == hi - 1;
      assert (kept + [hi - 1]) + Scan(s, lastPeriod, domainStart, hi - 1) == kept + Scan(s, lastPeriod, domainStart, hi);
    }
  }

  /** The scan visits positions in strictly decreasing order, all below `hi`. */
  lemma {:induction false} ScanDescending(s: TsData, lastPeriod: Period -> Period, domainStart: Period, hi: nat)
    requires hi <= |s.obs|
    ensures forall a :: 0 <= a < |Scan(s, lastPeriod, domainStart, hi)| ==> Scan(s, lastPeriod, domainStart, hi)[a] < hi
    ensures forall a, b :: 0 <= a < b < |Scan(s, lastPeriod, domainStart, hi)| ==>
              Scan(s, lastPeriod, domainStart, hi)[a] > Scan(s, lastPeriod, domainStart, hi)[b]
  {
    if hi > 0 && s.obs[hi - 1].Missing? {
      ScanDescending(s, lastPeriod, domainStart, hi - 1);
    }
  }

  /**
   * Nothing at or before an observed position `m` is ever kept, so the scan
   * keeps at most the `hi - 1 - m` positions after it.
   */
  lemma ScanWithinTrailingRun(s: TsData, lastPeriod: Period -> Period, domainStart: Period, hi: nat, m: nat)
    requires m < hi <= |s.obs| && s.obs[m].Observed?
    ensures forall a :: 0 <= a < |Scan(s, lastPeriod, domainStart, hi)| ==> m < Scan(s, lastPeriod, domainStart, hi)[a]
    ensures |Scan(s, lastPeriod, domainStart, hi)| <= hi - 1 - m
  {
    var r := Scan(s, lastPeriod, domainStart, hi);
    ScanDescending(s, lastPeriod, domainStart, hi);
    forall a | 0 <= a < |r|
      ensures m < r[a] <= hi - 1 - a
    {
      ScanMembers(s, lastPeriod, domainStart, hi, r[a]);
      assert r[a] in r;
      DescendingBound(r, a, hi);
    }
    if |r| > 0 {
      assert m < r[|r| - 1] <= hi - 1 - (|r| - 1);
    }
  }

  /** In a strictly decreasing sequence below `hi`, element `a` is at most `hi - 1 - a`. */
  lemma {:induction false} DescendingBound(r: seq<nat>, a: nat, hi: nat)
    requires a < |r|
    requires forall i :: 0 <= i < |r| ==> r[i] < hi
    requires forall i, j :: 0 <= i < j < |r| ==> r[i] > r[j]
    ensures r[a] <= hi - 1 - a
  {
    if a > 0 {
      DescendingBound(r, a - 1, hi);
    }
  }

  /** `s` in reverse order (the effect of `Collections.reverse`). */
  function Reversed<T>(s: seq<T>): seq<T> {
    seq(|s|, i requires 0 <= i < |s| => s[|s| - 1 - i])
  }

  /** The kept positions of a whole series, in chronological order. */
  function Chronological(s: TsData, lastPeriod: Period -> Period, domainStart: Period): seq<nat> {
    Reversed(Scan(s, lastPeriod, domainStart, |s.obs|))
  }

  /**
   * After the reversal the kept positions are strictly increasing, and they are
   * exactly the trailing missing positions whose converted period is not before
   * the domain start.
   */
  lemma ChronologicalPositions(s: TsData, lastPeriod: Period -> Period, domainStart: Period)
    ensures var K := Chronological(s, lastPeriod, domainStart);
      (forall a, b :: 0 <= a < b < |K| ==> K[a] < K[b]) &&
      (forall k: nat :: k in K <==>
         k < |s.obs| && MissingFrom(s, k, |s.obs|) && lastPeriod(s.start + k) >= domainStart)
  {
    var r := Scan(s, lastPeriod, domainStart, |s.obs|);
    var K := Chronological(s, lastPeriod, domainStart);
    ScanDescending(s, lastPeriod, domainStart, |s.obs|);
    forall k: nat
      ensures k in K <==> k < |s.obs| && MissingFrom(s, k, |s.obs|) && lastPeriod(s.start + k) >= domainStart
    {
      ScanMembers(s, lastPeriod, domainStart, |s.obs|, k);
      assert k in K <==> k in r by {
        if k in r {
          var a :| 0 <= a < |r| && r[a] == k;
          assert K[|r| - 1 - a] == k;
        }
      }
    }
  }

  // ---------------------------------------------------------------------------
  // The lists the view computes, as functions of the kept positions
  // ---------------------------------------------------------------------------

  /** The column of the weights row of the target period at position `k` (fetched at the converted period). */
  function WeightsAt(d: NewsDoc, selected: nat, s: TsData, k: nat): seq<real> {
    d.weights(selected, d.lastPeriod(s.start + k))
  }

  /** The unconverted periods of the positions `ks`. */
  function PeriodsOf(s: TsData, ks: seq<nat>): (r: seq<Period>)
    ensures |r| == |ks|
  {
    if ks == [] then [] else PeriodsOf(s, ks[..|ks| - 1]) + [s.start + ks[|ks| - 1]]
  }

  /** The weights rows fetched for the positions `ks`. */
  function WeightsOf(d: NewsDoc, selected: nat, s: TsData, ks: seq<nat>): (r: seq<seq<real>>)
    ensures |r| == |ks|
  {
    if ks == [] then [] else WeightsOf(d, selected, s, ks[..|ks| - 1]) + [WeightsAt(d, selected, s, ks[|ks| - 1])]
  }

  /** Every row of `W` is as long as the news vector. */
  predicate RowsFit(news: seq<real>, W: seq<seq<real>>) {
    forall i :: 0 <= i < |W| ==> |W[i]| == |news|
  }

  lemma AppendFits(news: seq<real>, W: seq<seq<real>>, w: seq<real>)
    requires RowsFit(news, W) && |w| == |news|
    ensures RowsFit(news, W + [w])
  {
    forall i | 0 <= i < |W| + 1 ensures |(W + [w])[i]| == |news| {
      if i < |W| {
        assert (W + [w])[i] == W[i];
      }
    }
  }

  lemma ReversedFits(news: seq<real>, W: seq<seq<real>>)
    requires RowsFit(news, W)
    ensures RowsFit(news, Reversed(W))
  {}

  /** The revision of each target: the news vector dotted with its weights row. */
  function Revisions(news: seq<real>, W: seq<seq<real>>): (r: seq<real>)
    requires RowsFit(news, W)
    ensures |r| == |W|
  {
    if W == [] then [] else Revisions(news, W[..|W| - 1]) + [Dot(news, W[|W| - 1])]
  }

  /** The forecasts looked up at the converted periods of the positions `ks`. */
  function ForecastsOf(forecast: (nat, Period) -> real, lastPeriod: Period -> Period, selected: nat, s: TsData, ks: seq<nat>): (r: seq<real>)
    ensures |r| == |ks|
  {
    if ks == [] then []
    else ForecastsOf(forecast, lastPeriod, selected, s, ks[..|ks| - 1]) + [forecast(selected, lastPeriod(s.start + ks[|ks| - 1]))]
  }

  // Element `i` of a list built from positions is built from position `i`.

  lemma {:induction false} PeriodsOfAt(s: TsData, ks: seq<nat>)
    ensures forall i :: 0 <= i < |ks| ==> PeriodsOf(s, ks)[i] == s.start + ks[i]
  {
    if ks != [] {
      PeriodsOfAt(s, ks[..|ks| - 1]);
    }
  }

  lemma {:induction false} WeightsOfAt(d: NewsDoc, selected: nat, s: TsData, ks: seq<nat>)
    ensures forall i :: 0 <= i < |ks| ==> WeightsOf(d, selected, s, ks)[i] == WeightsAt(d, selected, s, ks[i])
  {
    if ks != [] {
      WeightsOfAt(d, selected, s, ks[..|ks| - 1]);
    }
  }

  lemma {:induction false} ForecastsOfAt(forecast: (nat, Period) -> real, lastPeriod: Period -> Period, selected: nat, s: TsData, ks: seq<nat>)
    ensures forall i :: 0 <= i < |ks| ==> ForecastsOf(forecast, lastPeriod, selected, s, ks)[i] == forecast(selected, lastPeriod(s.start + ks[i]))
  {
    if ks != [] {
      ForecastsOfAt(forecast, lastPeriod, selected, s, ks[..|ks| - 1]);
    }
  }

  lemma {:induction false} RevisionsAt(news: seq<real>, W: seq<seq<real>>)
    requires RowsFit(news, W)
    ensures forall i :: 0 <= i < |W| ==> Revisions(news, W)[i] == Dot(news, W[i])
  {
    if W != [] {
      RevisionsAt(news, W[..|W| - 1]);
    }
  }

  // Appending a position appends its value.

  lemma AppendPeriod(s: TsData, ks: seq<nat>, k: nat)
    ensures PeriodsOf(s, ks + [k]) == PeriodsOf(s, ks) + [s.start + k]
  {
    assert (ks + [k])[..|ks|] == ks;
  }

  lemma AppendWeights(d: NewsDoc, selected: nat, s: TsData, ks: seq<nat>, k: nat)
    ensures WeightsOf(d, selected, s, ks + [k]) == WeightsOf(d, selected, s, ks) + [WeightsAt(d, selected, s, k)]
  {
    assert (ks + [k])[..|ks|] == ks;
  }

  lemma AppendRevision(news: seq<real>, W: seq<seq<real>>, w: seq<real>)
    requires RowsFit(news, W)
    requires |w| == |news|
    ensures Revisions(news, W + [w]) == Revisions(news, W) + [Dot(news, w)]
  {
    assert (W + [w])[..|W|] == W;
  }

  lemma AppendForecast(forecast: (nat, Period) -> real, lastPeriod: Period -> Period, selected: nat, s: TsData, ks: seq<nat>, k: nat)
    ensures ForecastsOf(forecast, lastPeriod, selected, s, ks + [k])
         == ForecastsOf(forecast, lastPeriod, selected, s, ks) + [forecast(selected, lastPeriod(s.start + k))]
  {
    assert (ks + [k])[..|ks|] == ks;
  }

  // Reversing a list built from positions is building it from the reversed positions.

  lemma ReversedPeriods(s: TsData, ks: seq<nat>)
    ensures Reversed(PeriodsOf(s, ks)) == PeriodsOf(s, Reversed(ks))
  {
    PeriodsOfAt(s, ks);
    PeriodsOfAt(s, Reversed(ks));
  }

  lemma ReversedWeights(d: NewsDoc, selected: nat, s: TsData, ks: seq<nat>)
    ensures Reversed(WeightsOf(d, selected, s, ks)) == WeightsOf(d, selected, s, Reversed(ks))
  {
    WeightsOfAt(d, selected, s, ks);
    WeightsOfAt(d, selected, s, Reversed(ks));
  }

  lemma ReversedRevisions(news: seq<real>, W: seq<seq<real>>)
    requires RowsFit(news, W)
    ensures Reversed(Revisions(news, W)) == Revisions(news, Reversed(W))
  {
    RevisionsAt(news, W);
    RevisionsAt(news, Reversed(W));
  }

  lemma ReversedForecasts(forecast: (nat, Period) -> real, lastPeriod: Period -> Period, selected: nat, s: TsData, ks: seq<nat>)
    ensures Reversed(ForecastsOf(forecast, lastPeriod, selected, s, ks)) == ForecastsOf(forecast, lastPeriod, selected, s, Reversed(ks))
  {
    ForecastsOfAt(forecast, lastPeriod, selected, s, ks);
    ForecastsOfAt(forecast, lastPeriod, selected, s, Reversed(ks));
  }

  // The state of the two scan loops after visiting the positions from `hi` up

  /** The scan of `s` has visited the positions from `hi` up and kept `kept`. */
  predicate ScannedAbove(s: TsData, lastPeriod: Period -> Period, domainStart: Period, hi: nat, kept: seq<nat>) {
    hi <= |s.obs| && kept + Scan(s, lastPeriod, domainStart, hi) == Scan(s, lastPeriod, domainStart, |s.obs|)
  }

  /** The new-set lists hold, in scan order, the values at the positions kept so far. */
  predicate NewScanState(d: NewsDoc, selected: nat, s: TsData, hi: nat, kept: seq<nat>,
                         periods: seq<Period>, weightRows: seq<seq<real>>, revisions: seq<real>, forecasts: seq<real>)
  {
    && ScannedAbove(s, d.lastPeriod, d.domainStart, hi, kept)
    && periods == PeriodsOf(s, kept)
    && weightRows == WeightsOf(d, selected, s, kept)
    && RowsFit(d.news, weightRows)
    && revisions == Revisions(d.news, weightRows)
    && forecasts == ForecastsOf(d.newForecast, d.lastPeriod, selected, s, kept)
  }

  /** The old-set lists hold, in scan order, the values at the positions kept so far. */
  predicate OldScanState(d: NewsDoc, selected: nat, s: TsData, hi: nat, kept: seq<nat>, periods: seq<Period>, forecasts: seq<real>) {
    && ScannedAbove(s, d.lastPeriod, d.domainStart, hi, kept)
    && periods == PeriodsOf(s, kept)
    && forecasts == ForecastsOf(d.oldForecast, d.lastPeriod, selected, s, kept)
  }

  /** An observation at position `k` ends the scan: nothing below it is kept. */
  lemma ScanStopped(s: TsData, lastPeriod: Period -> Period, domainStart: Period, k: nat, kept: seq<nat>)
    requires ScannedAbove(s, lastPeriod, domainStart, k + 1, kept) && s.obs[k].Observed?
    ensures kept == Scan(s, lastPeriod, domainStart, |s.obs|)
  {
    ScanStep(s, lastPeriod, domainStart, k + 1, kept);
  }

  /** A missing observation at `k` whose converted period is before the domain start is skipped. */
  lemma ScanSkipped(s: TsData, lastPeriod: Period -> Period, domainStart: Period, k: nat, kept: seq<nat>)
    requires ScannedAbove(s, lastPeriod, domainStart, k + 1, kept)
    requires s.obs[k].Missing? && lastPeriod(s.start + k) < domainStart
    ensures ScannedAbove(s, lastPeriod, domainStart, k, kept)
  {
    ScanStep(s, lastPeriod, domainStart, k + 1, kept);
  }

  /** Any other missing observation at `k` is kept. */
  lemma ScanKept(s: TsData, lastPeriod: Period -> Period, domainStart: Period, k: nat, kept: seq<nat>)
    requires ScannedAbove(s, lastPeriod, domainStart, k + 1, kept)
    requires s.obs[k].Missing? && lastPeriod(s.start + k) >= domainStart
    ensures k in Scan(s, lastPeriod, domainStart, |s.obs|)
    ensures ScannedAbove(s, lastPeriod, domainStart, k, kept + [k])
  {
    ScanStep(s, lastPeriod, domainStart, k + 1, kept);
  }

  /** Keeping position `k` of the new set extends every new-set list with its values. */
  lemma NewScanKeep(d: NewsDoc, selected: nat, s: TsData, k: nat, kept: seq<nat>,
                    periods: seq<Period>, weightRows: seq<seq<real>>, revisions: seq<real>, forecasts: seq<real>)
    requires WeightsFit(d, selected, s)
    requires NewScanState(d, selected, s, k + 1, kept, periods, weightRows, revisions, forecasts)
    requires s.obs[k].Missing? && d.lastPeriod(s.start + k) >= d.domainStart
    ensures |d.weights(selected, d.lastPeriod(s.start + k))| == |d.news|
    ensures NewScanState(d, selected, s, k, kept + [k], periods + [s.start + k],
                         weightRows + [d.weights(selected, d.lastPeriod(s.start + k))],
                         revisions + [Dot(d.news, d.weights(selected, d.lastPeriod(s.start + k)))],
                         forecasts + [d.newForecast(selected, d.lastPeriod(s.start + k))])
  {
    var w := d.weights(selected, d.lastPeriod(s.start + k));
    ScanKept(s, d.lastPeriod, d.domainStart, k, kept);
    assert |w| == |d.news|;
    AppendPeriod(s, kept, k);
    AppendWeights(d, selected, s, kept, k);
    AppendFits(d.news, weightRows, w);
    AppendRevision(d.news, weightRows, w);
    AppendForecast(d.newForecast, d.lastPeriod, selected, s, kept, k);
  }

  /** Skipping position `k` of the new set leaves every new-set list as it is. */
  lemma NewScanSkip(d: NewsDoc, selected: nat, s: TsData, k: nat, kept: seq<nat>,
                    periods: seq<Period>, weightRows: seq<seq<real>>, revisions: seq<real>, forecasts: seq<real>)
    requires NewScanState(d, selected, s, k + 1, kept, periods, weightRows, revisions, forecasts)
    requires s.obs[k].Missing? && d.lastPeriod(s.start + k) < d.domainStart
    ensures NewScanState(d, selected, s, k, kept, periods, weightRows, revisions, forecasts)
  {
    ScanSkipped(s, d.lastPeriod, d.domainStart, k, kept);
  }

  /** Keeping position `k` of the old set extends both old-set lists with its values. */
  lemma OldScanKeep(d: NewsDoc, selected: nat, s: TsData, k: nat, kept: seq<nat>, periods: seq<Period>, forecasts: seq<real>)
    requires OldScanState(d, selected, s, k + 1, kept, periods, forecasts)
    requires s.obs[k].Missing? && d.lastPeriod(s.start + k) >= d.domainStart
    ensures OldScanState(d, selected, s, k, kept + [k], periods + [s.start + k],
                         forecasts + [d.oldForecast(selected, d.lastPeriod(s.start + k))])
  {
    ScanKept(s, d.lastPeriod, d.domainStart, k, kept);
    AppendPeriod(s, kept, k);
    AppendForecast(d.oldForecast, d.lastPeriod, selected, s, kept, k);
  }

  /** Skipping position `k` of the old set leaves both old-set lists as they are. */
  lemma OldScanSkip(d: NewsDoc, selected: nat, s: TsData, k: nat, kept: seq<nat>, periods: seq<Period>, forecasts: seq<real>)
    requires OldScanState(d, selected, s, k + 1, kept, periods, forecasts)
    requires s.obs[k].Missing? && d.lastPeriod(s.start + k) < d.domainStart
    ensures OldScanState(d, selected, s, k, kept, periods, forecasts)
  {
    ScanSkipped(s, d.lastPeriod, d.domainStart, k, kept);
  }

  /** A scan that has visited every position has kept all it will keep. */
  lemma ScanFinished(s: TsData, lastPeriod: Period -> Period, domainStart: Period, kept: seq<nat>)
    requires ScannedAbove(s, lastPeriod, domainStart, 0, kept)
    ensures kept == Scan(s, lastPeriod, domainStart, |s.obs|)
  {
    assert kept + [] == kept;
  }

  /** The column titles: three fixed ones, then one weight title per target period. */
  function Titles(newPeriods: seq<Period>, periodText: Period -> string): seq<string> {
    [REFERENCE_TITLE, EXPECTED_TITLE, OBSERVED_TITLE]
      + seq(|newPeriods|, i requires 0 <= i < |newPeriods| => WeightTitle(periodText(newPeriods[i])))
  }

  /** Every update names a described series. */
  predicate Described(u: seq<Update>, desc: seq<Descriptor>) {
    forall i :: 0 <= i < |u| ==> u[i].series < |desc|
  }

  /** The row labels: each update's series description, then the three summary rows. */
  function RowLabels(u: seq<Update>, desc: seq<Descriptor>): seq<string>
    requires Described(u, desc)
  {
    seq(|u|, i requires 0 <= i < |u| => desc[u[i].series].description) + [ALL_REVISIONS, OLD_FORECAST, NEW_FORECAST]
  }

  /** Each update's reference period. */
  function RefPeriods(u: seq<Update>): seq<Period> {
    seq(|u|, i requires 0 <= i < |u| => u[i].period)
  }

  /** Each update's forecast, in natural units. */
  function ExpectedValues(u: seq<Update>, desc: seq<Descriptor>): seq<real>
    requires Described(u, desc)
  {
    seq(|u|, i requires 0 <= i < |u| => Destandardize(u[i].forecast, desc[u[i].series]))
  }

  /** Each update's observation, in natural units. */
  function ObservedValues(u: seq<Update>, desc: seq<Descriptor>): seq<real>
    requires Described(u, desc)
  {
    seq(|u|, i requires 0 <= i < |u| => Destandardize(u[i].observation, desc[u[i].series]))
  }

  /** Every weights row the scan of `s` fetches is as long as the news vector. */
  predicate WeightsFit(d: NewsDoc, selected: nat, s: TsData) {
    forall k | k in Scan(s, d.lastPeriod, d.domainStart, |s.obs|) :: |WeightsAt(d, selected, s, k)| == |d.news|
  }

  /** What the view needs from its inputs: the selected series exists in both
      information sets, every weights row it fetches is as long as the news
      vector, and every update names a described series. */
  predicate Computable(d: NewsDoc, selected: nat, desc: seq<Descriptor>) {
    && selected < |d.newSet|
    && selected < |d.oldSet|
    && WeightsFit(d, selected, d.newSet[selected])
    && Described(d.updates, desc)
  }

  /** All lists the view holds after computing the table. */
  datatype NewsTable = NewsTable(
    titles: seq<string>,
    rows: seq<string>,
    newPeriods: seq<Period>,
    oldPeriods: seq<Period>,
    refPeriods: seq<Period>,
    allRevisions: seq<real>,
    oldForecasts: seq<real>,
    newForecasts: seq<real>,
    expected: seq<real>,
    observations: seq<real>,
    allWeights: seq<seq<real>>)
  {
    function RowCount(): nat { |rows| }

    function ColumnCount(): nat { |titles| }

    /** The lengths under which no cell read can fail. */
    predicate Aligned() {
      && |rows| == |refPeriods| + 3
      && |expected| == |refPeriods|
      && |observations| == |refPeriods|
      && |titles| == |allRevisions| + 3
      && |newForecasts| == |allRevisions|
      && |allWeights| == |allRevisions|
      && |oldForecasts| >= |allRevisions|
      && (forall w | w in allWeights :: |w| >= |refPeriods|)
    }

    /** The grid cell at (`row`, `col`). The last three rows hold the revisions,
        old and new forecasts (nothing in the first three columns); the other
        rows hold reference period, expected and observed values, then weights. */
    function GetValueAt(row: nat, col: nat): (r: Lookup)
      requires row < RowCount() && col < ColumnCount()
      ensures Aligned() ==> r.Value?
      ensures r.Value? && r.cell.Null? <==> row >= |rows| - 3 && col <= 2
      ensures r.Value? && r.cell.PeriodCell? <==> row < |rows| - 3 && col == 0 && row < |refPeriods|
    {
      if row >= |rows| - 3 then
        if col > 2 then
          if row == |rows| - 3 then At(allRevisions, col - 3)
          else if row == |rows| - 2 then At(oldForecasts, col - 3)
          else At(newForecasts, col - 3)
        else
          Value(Null)
      else if col == 0 then
        if row < |refPeriods| then Value(PeriodCell(refPeriods[row])) else IndexOutOfBounds
      else if col == 1 then
        At(expected, row)
      else if col == 2 then
        At(observations, row)
      else if col - 3 < |allWeights| then
        assert allWeights[col - 3] in allWeights;
        At(allWeights[col - 3], row)
      else
        IndexOutOfBounds
    }

    /** Column 0 holds periods; every other column holds numbers. */
    function GetColumnClass(col: nat): (c: ColumnClass)
      ensures c == PeriodClass <==> col == 0
    {
      if col == 0 then PeriodClass else DoubleClass
    }
  }

  /** `List.get` on a list of numbers. */
  function At(xs: seq<real>, i: int): Lookup {
    if 0 <= i < |xs| then Value(DoubleCell(xs[i])) else IndexOutOfBounds
  }

  /** Every weights row fetched at a target of the new scan fits the news vector. */
  lemma ChronologicalWeightsFit(d: NewsDoc, selected: nat, s: TsData)
    requires WeightsFit(d, selected, s)
    ensures RowsFit(d.news, WeightsOf(d, selected, s, Chronological(s, d.lastPeriod, d.domainStart)))
  {
    var K := Chronological(s, d.lastPeriod, d.domainStart);
    ChronologicalPositions(s, d.lastPeriod, d.domainStart);
    WeightsOfAt(d, selected, s, K);
    forall i | 0 <= i < |K| ensures K[i] in Scan(s, d.lastPeriod, d.domainStart, |s.obs|) {
      assert K[i] in K;
    }
  }

  /** The table the view computes for the selected series. */
  function NewsTableOf(d: NewsDoc, selected: nat, desc: seq<Descriptor>, periodText: Period -> string): NewsTable
    requires Computable(d, selected, desc)
  {
    var sNew := d.newSet[selected];
    var sOld := d.oldSet[selected];
    var K := Chronological(sNew, d.lastPeriod, d.domainStart);
    var KO := Chronological(sOld, d.lastPeriod, d.domainStart);
    var u := d.updates;
    ChronologicalWeightsFit(d, selected, sNew);
    NewsTable(
      titles := Titles(PeriodsOf(sNew, K), periodText),
      rows := RowLabels(u, desc),
      newPeriods := PeriodsOf(sNew, K),
      oldPeriods := PeriodsOf(sOld, KO),
      refPeriods := RefPeriods(u),
      allRevisions := Revisions(d.news, WeightsOf(d, selected, sNew, K)),
      oldForecasts := ForecastsOf(d.oldForecast, d.lastPeriod, selected, sOld, KO),
      newForecasts := ForecastsOf(d.newForecast, d.lastPeriod, selected, sNew, K),
      expected := ExpectedValues(u, desc),
      observations := ObservedValues(u, desc),
      allWeights := WeightsOf(d, selected, sNew, K))
  }

  /** The new-set lists in scan order (latest target first). */
  predicate ScannedNewLists(d: NewsDoc, selected: nat, periods: seq<Period>, weightRows: seq<seq<real>>, revisions: seq<real>, forecasts: seq<real>)
    requires selected < |d.newSet|
  {
    var s := d.newSet[selected];
    var kept := Scan(s, d.lastPeriod, d.domainStart, |s.obs|);
    && periods == PeriodsOf(s, kept)
    && weightRows == WeightsOf(d, selected, s, kept)
    && RowsFit(d.news, weightRows)
    && revisions == Revisions(d.news, weightRows)
    && forecasts == ForecastsOf(d.newForecast, d.lastPeriod, selected, s, kept)
  }

  /** The old-set lists in scan order. */
  predicate ScannedOldLists(d: NewsDoc, selected: nat, periods: seq<Period>, forecasts: seq<real>)
    requires selected < |d.oldSet|
  {
    var s := d.oldSet[selected];
    var kept := Scan(s, d.lastPeriod, d.domainStart, |s.obs|);
    && periods == PeriodsOf(s, kept)
    && forecasts == ForecastsOf(d.oldForecast, d.lastPeriod, selected, s, kept)
  }

  /** The new-set lists in chronological order: periods, weights rows, revisions and new forecasts of the targets. */
  predicate NewLists(d: NewsDoc, selected: nat, periods: seq<Period>, weightRows: seq<seq<real>>, revisions: seq<real>, forecasts: seq<real>)
    requires selected < |d.newSet|
  {
    var s := d.newSet[selected];
    var K := Chronological(s, d.lastPeriod, d.domainStart);
    && periods == PeriodsOf(s, K)
    && weightRows == WeightsOf(d, selected, s, K)
    && RowsFit(d.news, weightRows)
    && revisions == Revisions(d.news, weightRows)
    && forecasts == ForecastsOf(d.newForecast, d.lastPeriod, selected, s, K)
  }

  /** The old-set lists in chronological order: periods and old forecasts. */
  predicate OldLists(d: NewsDoc, selected: nat, periods: seq<Period>, forecasts: seq<real>)
    requires selected < |d.oldSet|
  {
    var s := d.oldSet[selected];
    var K := Chronological(s, d.lastPeriod, d.domainStart);
    && periods == PeriodsOf(s, K)
    && forecasts == ForecastsOf(d.oldForecast, d.lastPeriod, selected, s, K)
  }

  /** Reversing the new-set lists of the scan gives them in chronological order. */
  lemma ChronologicalNew(d: NewsDoc, selected: nat, periods: seq<Period>, weightRows: seq<seq<real>>, revisions: seq<real>, forecasts: seq<real>)
    requires selected < |d.newSet| && ScannedNewLists(d, selected, periods, weightRows, revisions, forecasts)
    ensures NewLists(d, selected, Reversed(periods), Reversed(weightRows), Reversed(revisions), Reversed(forecasts))
  {
    var s := d.newSet[selected];
    var kept := Scan(s, d.lastPeriod, d.domainStart, |s.obs|);
    ReversedPeriods(s, kept);
    ReversedWeights(d, selected, s, kept);
    ReversedRevisions(d.news, weightRows);
    ReversedForecasts(d.newForecast, d.lastPeriod, selected, s, kept);
    ReversedFits(d.news, weightRows);
  }

  /** Reversing the old-set lists of the scan gives them in chronological order. */
  lemma ChronologicalOld(d: NewsDoc, selected: nat, periods: seq<Period>, forecasts: seq<real>)
    requires selected < |d.oldSet| && ScannedOldLists(d, selected, periods, forecasts)
    ensures OldLists(d, selected, Reversed(periods), Reversed(forecasts))
  {
    var s := d.oldSet[selected];
    var kept := Scan(s, d.lastPeriod, d.domainStart, |s.obs|);
    ReversedPeriods(s, kept);
    ReversedForecasts(d.oldForecast, d.lastPeriod, selected, s, kept);
  }

  /** The per-update lists: row labels, reference periods, expected and observed values. */
  predicate UpdateLists(updates: seq<Update>, desc: seq<Descriptor>, rows: seq<string>, refPeriods: seq<Period>,
                        expected: seq<real>, observations: seq<real>)
    requires Described(updates, desc)
  {
    && rows == RowLabels(updates, desc)
    && refPeriods == RefPeriods(updates)
    && expected == ExpectedValues(updates, desc)
    && observations == ObservedValues(updates, desc)
  }

  /** A table whose lists are the ones computed for the selected series is the computed table. */
  lemma TableOfLists(d: NewsDoc, selected: nat, desc: seq<Descriptor>, periodText: Period -> string, t: NewsTable)
    requires Computable(d, selected, desc)
    requires NewLists(d, selected, t.newPeriods, t.allWeights, t.allRevisions, t.newForecasts)
    requires OldLists(d, selected, t.oldPeriods, t.oldForecasts)
    requires t.titles == Titles(t.newPeriods, periodText)
    requires UpdateLists(d.updates, desc, t.rows, t.refPeriods, t.expected, t.observations)
    ensures t == NewsTableOf(d, selected, desc, periodText)
  {}

  // ---------------------------------------------------------------------------
  // Properties of the computed table
  // ---------------------------------------------------------------------------

  /**
   * Shape of the grid: one row per update labelled by its series' description,
   * then the three summary rows; three fixed columns then one per target
   * period. The new lists are index-aligned, the old ones aligned with each
   * other, and the target periods are strictly increasing.
   */
  lemma TableShape(d: NewsDoc, selected: nat, desc: seq<Descriptor>, periodText: Period -> string)
    requires Computable(d, selected, desc)
    ensures var t := NewsTableOf(d, selected, desc, periodText);
      && t.RowCount() == |d.updates| + 3
      && t.rows[|d.updates|..] == [ALL_REVISIONS, OLD_FORECAST, NEW_FORECAST]
      && (forall i :: 0 <= i < |d.updates| ==> t.rows[i] == desc[d.updates[i].series].description)
      && t.ColumnCount() == 3 + |t.newPeriods|
      && t.titles[..3] == [REFERENCE_TITLE, EXPECTED_TITLE, OBSERVED_TITLE]
      && |t.allRevisions| == |t.newPeriods| && |t.newForecasts| == |t.newPeriods| && |t.allWeights| == |t.newPeriods|
      && |t.oldForecasts| == |t.oldPeriods|
      && (forall a, b :: 0 <= a < b < |t.newPeriods| ==> t.newPeriods[a] < t.newPeriods[b])
  {
    var t := NewsTableOf(d, selected, desc, periodText);
    var K := Chronological(d.newSet[selected], d.lastPeriod, d.domainStart);
    ChronologicalPositions(d.newSet[selected], d.lastPeriod, d.domainStart);
    PeriodsOfAt(d.newSet[selected], K);
    assert t.rows[|d.updates|..] == [ALL_REVISIONS, OLD_FORECAST, NEW_FORECAST];
  }

  /**
   * A period heads a weight column exactly when it is the period of a trailing
   * missing observation of the new series whose converted period is not before
   * the domain start.
   */
  lemma TargetPeriods(d: NewsDoc, selected: nat, desc: seq<Descriptor>, periodText: Period -> string, p: Period)
    requires Computable(d, selected, desc)
    ensures var t := NewsTableOf(d, selected, desc, periodText);
            var s := d.newSet[selected];
      p in t.newPeriods <==>
        s.start <= p < s.start + |s.obs| && MissingFrom(s, p - s.start, |s.obs|) && d.lastPeriod(p) >= d.domainStart
  {
    KeptPeriods(d.newSet[selected], d.lastPeriod, d.domainStart, p);
  }

  /** A period is kept by the scan of `s` exactly when it lies in the trailing run of missing values and converts to a period in the domain. */
  lemma KeptPeriods(s: TsData, lastPeriod: Period -> Period, domainStart: Period, p: Period)
    ensures p in PeriodsOf(s, Chronological(s, lastPeriod, domainStart)) <==>
      s.start <= p < s.start + |s.obs| && MissingFrom(s, p - s.start, |s.obs|) && lastPeriod(p) >= domainStart
  {
    var K := Chronological(s, lastPeriod, domainStart);
    var P := PeriodsOf(s, K);
    ChronologicalPositions(s, lastPeriod, domainStart);
    PeriodsOfAt(s, K);
    if p in P {
      var i :| 0 <= i < |P| && P[i] == p;
      assert K[i] in K;
    }
    if s.start <= p < s.start + |s.obs| && MissingFrom(s, p - s.start, |s.obs|) && lastPeriod(p) >= domainStart {
      var k: nat := p - s.start;
      assert k in K;
      var i :| 0 <= i < |K| && K[i] == k;
      assert P[i] == p;
    }
  }

  /** The computed table, entry by entry: what each list holds at each index. */
  predicate TableEntries(d: NewsDoc, selected: nat, desc: seq<Descriptor>, t: NewsTable)
    requires Computable(d, selected, desc)
  {
    var n := |d.updates|;
    && |t.rows| == n + 3 && |t.refPeriods| == n && |t.expected| == n && |t.observations| == n
    && (forall i :: 0 <= i < n ==>
          && t.refPeriods[i] == d.updates[i].period
          && t.expected[i] == Destandardize(d.updates[i].forecast, desc[d.updates[i].series])
          && t.observations[i] == Destandardize(d.updates[i].observation, desc[d.updates[i].series]))
    && |t.titles| == |t.newPeriods| + 3
    && |t.allWeights| == |t.newPeriods| && |t.allRevisions| == |t.newPeriods| && |t.newForecasts| == |t.newPeriods|
    && |t.oldForecasts| == |t.oldPeriods|
    && (forall j :: 0 <= j < |t.newPeriods| ==>
          && t.allWeights[j] == d.weights(selected, d.lastPeriod(t.newPeriods[j]))
          && |t.allWeights[j]| == |d.news|
          && t.allRevisions[j] == Dot(d.news, t.allWeights[j])
          && t.newForecasts[j] == d.newForecast(selected, d.lastPeriod(t.newPeriods[j])))
    && (forall j :: 0 <= j < |t.oldPeriods| ==> t.oldForecasts[j] == d.oldForecast(selected, d.lastPeriod(t.oldPeriods[j])))
  }

  lemma ComputedEntries(d: NewsDoc, selected: nat, desc: seq<Descriptor>, periodText: Period -> string)
    requires Computable(d, selected, desc)
    ensures TableEntries(d, selected, desc, NewsTableOf(d, selected, desc, periodText))
  {
    var t := NewsTableOf(d, selected, desc, periodText);
    var K := Chronological(d.newSet[selected], d.lastPeriod, d.domainStart);
    var KO := Chronological(d.oldSet[selected], d.lastPeriod, d.domainStart);
    PeriodsOfAt(d.newSet[selected], K);
    PeriodsOfAt(d.oldSet[selected], KO);
    WeightsOfAt(d, selected, d.newSet[selected], K);
    ForecastsOfAt(d.newForecast, d.lastPeriod, selected, d.newSet[selected], K);
    ForecastsOfAt(d.oldForecast, d.lastPeriod, selected, d.oldSet[selected], KO);
    ChronologicalWeightsFit(d, selected, d.newSet[selected]);
    RevisionsAt(d.news, t.allWeights);
  }

  /** The cells of update row `i` of a table with these entries. */
  lemma UpdateCellsOf(d: NewsDoc, selected: nat, desc: seq<Descriptor>, t: NewsTable, i: nat, c: nat)
    requires Computable(d, selected, desc) && TableEntries(d, selected, desc, t)
    requires i < |d.updates| && c < t.ColumnCount()
    ensures var u := d.updates[i];
      && (c == 0 ==> t.GetValueAt(i, c) == Value(PeriodCell(u.period)))
      && (c == 1 ==> t.GetValueAt(i, c) == Value(DoubleCell(Destandardize(u.forecast, desc[u.series]))))
      && (c == 2 ==> t.GetValueAt(i, c) == Value(DoubleCell(Destandardize(u.observation, desc[u.series]))))
      && (c >= 3 ==>
            var w := d.weights(selected, d.lastPeriod(t.newPeriods[c - 3]));
            t.GetValueAt(i, c) == if i < |w| then Value(DoubleCell(w[i])) else IndexOutOfBounds)
  {}

  /** The cells of the three summary rows of a table with these entries. */
  lemma SummaryCellsOf(d: NewsDoc, selected: nat, desc: seq<Descriptor>, t: NewsTable, c: nat)
    requires Computable(d, selected, desc) && TableEntries(d, selected, desc, t)
    requires c < t.ColumnCount()
    ensures var n := |d.updates|;
      && (c <= 2 ==> t.GetValueAt(n, c) == t.GetValueAt(n + 1, c) == t.GetValueAt(n + 2, c) == Value(Null))
      && (c >= 3 ==>
            var pN := d.lastPeriod(t.newPeriods[c - 3]);
            |d.weights(selected, pN)| == |d.news| &&
            t.GetValueAt(n, c) == Value(DoubleCell(Dot(d.news, d.weights(selected, pN)))) &&
            t.GetValueAt(n + 2, c) == Value(DoubleCell(d.newForecast(selected, pN))) &&
            t.GetValueAt(n + 1, c) ==
              if c - 3 < |t.oldPeriods| then Value(DoubleCell(d.oldForecast(selected, d.lastPeriod(t.oldPeriods[c - 3]))))
              else IndexOutOfBounds)
  {}

  /** When every cell of a table with these entries can be read. */
  lemma ReadableOf(d: NewsDoc, selected: nat, desc: seq<Descriptor>, t: NewsTable)
    requires Computable(d, selected, desc) && TableEntries(d, selected, desc, t)
    ensures && (|t.oldPeriods| >= |t.newPeriods| && (|t.newPeriods| > 0 ==> |d.news| >= |d.updates|) <==>
                  forall row: nat, col: nat :: row < t.RowCount() && col < t.ColumnCount() ==> t.GetValueAt(row, col).Value?)
            && (t.oldPeriods == t.newPeriods ==>
                  forall i :: 0 <= i < |t.newPeriods| ==>
                    t.GetValueAt(|d.updates| + 1, i + 3) == Value(DoubleCell(d.oldForecast(selected, d.lastPeriod(t.newPeriods[i])))))
  {
    var n := |d.updates|;
    if |t.oldPeriods| >= |t.newPeriods| && (|t.newPeriods| > 0 ==> |d.news| >= n) {
      forall w | w in t.allWeights
        ensures |w| >= |t.refPeriods|
      {
        var j :| 0 <= j < |t.allWeights| && t.allWeights[j] == w;
      }
      assert t.Aligned();
    } else if |t.oldPeriods| < |t.newPeriods| {
      SummaryCellsOf(d, selected, desc, t, 3 + |t.oldPeriods|);
      assert !t.GetValueAt(n + 1, 3 + |t.oldPeriods|).Value?;
    } else {
      UpdateCellsOf(d, selected, desc, t, |d.news|, 3);
      assert !t.GetValueAt(|d.news|, 3).Value?;
    }
    if t.oldPeriods == t.newPeriods {
      forall i | 0 <= i < |t.newPeriods|
        ensures t.GetValueAt(n + 1, i + 3) == Value(DoubleCell(d.oldForecast(selected, d.lastPeriod(t.newPeriods[i]))))
      {
        SummaryCellsOf(d, selected, desc, t, i + 3);
      }
    }
  }

  /**
   * The cells of update row `i`: its reference period, its destandardised
   * forecast and observation, and in weight column `c` the `i`-th weight of the
   * row fetched at the column's converted period (a read past the end of a
   * weights row shorter than the update list fails).
   */
  lemma UpdateRowCells(d: NewsDoc, selected: nat, desc: seq<Descriptor>, periodText: Period -> string, i: nat, c: nat)
    requires Computable(d, selected, desc)
    requires i < |d.updates|
    requires c < NewsTableOf(d, selected, desc, periodText).ColumnCount()
    ensures var t := NewsTableOf(d, selected, desc, periodText);
            var u := d.updates[i];
      && (c == 0 ==> t.GetValueAt(i, c) == Value(PeriodCell(u.period)))
      && (c == 1 ==> t.GetValueAt(i, c) == Value(DoubleCell(Destandardize(u.forecast, desc[u.series]))))
      && (c == 2 ==> t.GetValueAt(i, c) == Value(DoubleCell(Destandardize(u.observation, desc[u.series]))))
      && (c >= 3 ==>
            var w := d.weights(selected, d.lastPeriod(t.newPeriods[c - 3]));
            t.GetValueAt(i, c) == if i < |w| then Value(DoubleCell(w[i])) else IndexOutOfBounds)
  {
    ComputedEntries(d, selected, desc, periodText);
    UpdateCellsOf(d, selected, desc, NewsTableOf(d, selected, desc, periodText), i, c);
  }

  /**
   * The cells of the three summary rows: nothing in the first three columns;
   * in weight column `c`, the revision news . weights and the new forecast of
   * the column's converted period, and the old forecast found at the same list
   * index of the old scan, a read that fails when the old scan kept fewer
   * positions than the new one.
   */
  lemma SummaryRowCells(d: NewsDoc, selected: nat, desc: seq<Descriptor>, periodText: Period -> string, c: nat)
    requires Computable(d, selected, desc)
    requires c < NewsTableOf(d, selected, desc, periodText).ColumnCount()
    ensures var t := NewsTableOf(d, selected, desc, periodText);
            var n := |d.updates|;
      && (c <= 2 ==> t.GetValueAt(n, c) == t.GetValueAt(n + 1, c) == t.GetValueAt(n + 2, c) == Value(Null))
      && (c >= 3 ==>
            var pN := d.lastPeriod(t.newPeriods[c - 3]);
            |d.weights(selected, pN)| == |d.news| &&
            t.GetValueAt(n, c) == Value(DoubleCell(Dot(d.news, d.weights(selected, pN)))) &&
            t.GetValueAt(n + 2, c) == Value(DoubleCell(d.newForecast(selected, pN))) &&
            t.GetValueAt(n + 1, c) ==
              if c - 3 < |t.oldPeriods| then Value(DoubleCell(d.oldForecast(selected, d.lastPeriod(t.oldPeriods[c - 3]))))
              else IndexOutOfBounds)
  {
    ComputedEntries(d, selected, desc, periodText);
    SummaryCellsOf(d, selected, desc, NewsTableOf(d, selected, desc, periodText), c);
  }

  /**
   * The grid can be read in full exactly when the old scan kept at least as many
   * positions as the new one and the news vector is at least as long as the
   * update list; otherwise some cell read fails. When both scans keep the same
   * periods, the old-forecast cell of a column is the old forecast of that
   * column's period.
   */
  lemma GridReadable(d: NewsDoc, selected: nat, desc: seq<Descriptor>, periodText: Period -> string)
    requires Computable(d, selected, desc)
    ensures var t := NewsTableOf(d, selected, desc, periodText);
      && (|t.oldPeriods| >= |t.newPeriods| && (|t.newPeriods| > 0 ==> |d.news| >= |d.updates|) <==>
            forall row: nat, col: nat :: row < t.RowCount() && col < t.ColumnCount() ==> t.GetValueAt(row, col).Value?)
      && (t.oldPeriods == t.newPeriods ==>
            forall i :: 0 <= i < |t.newPeriods| ==>
              t.GetValueAt(|d.updates| + 1, i + 3) == Value(DoubleCell(d.oldForecast(selected, d.lastPeriod(t.newPeriods[i])))))
  {
    ComputedEntries(d, selected, desc, periodText);
    ReadableOf(d, selected, desc, NewsTableOf(d, selected, desc, periodText));
  }

  /**
   * A document with one information update, in which the old information set
   * lacks one more observation than the new one: the selected series is
   * observed at period 0 in the new set only, and period 1 is missing in both.
   */
  function ShiftDoc(): NewsDoc {
    NewsDoc(
      news := [1.0],
      newSet := [TsData(0, [Observed(1.0), Missing])],
      oldSet := [TsData(0, [Missing, Missing])],
      domainStart := 0,
      lastPeriod := p => p,
      weights := (i, p) => [0.5],
      newForecast := (i, p) => 0.0,
      oldForecast := (i, p) => p as real,
      updates := [Update(0, 0, 0.0, 1.0)])
  }

  /** The descriptor of the only series of `ShiftDoc`. */
  const SHIFT_DESC := [Descriptor("x", 0.0, 1.0)]

  /**
   * The old-forecast row is read at the new list's index: when the old scan
   * keeps an earlier period than the new one, the only weight column, headed by
   * period 1, shows the old forecast of period 0. The document has an update,
   * so the view shows this grid.
   */
  lemma OldForecastShift(periodText: Period -> string)
    ensures var d := ShiftDoc();
      Computable(d, 0, SHIFT_DESC) && |d.updates| > 0 &&
      var t := NewsTableOf(d, 0, SHIFT_DESC, periodText);
      && t.newPeriods == [1]
      && t.oldPeriods == [0, 1]
      && t.RowCount() == 4 && t.ColumnCount() == 4
      && t.rows[2] == OLD_FORECAST
      && t.GetValueAt(2, 3) == Value(DoubleCell(d.oldForecast(0, 0)))
      && d.oldForecast(0, d.lastPeriod(t.newPeriods[0])) != d.oldForecast(0, 0)
  {
    var d := ShiftDoc();
    ShiftPositions();
    var K := Chronological(d.newSet[0], d.lastPeriod, d.domainStart);
    var KO := Chronological(d.oldSet[0], d.lastPeriod, d.domainStart);
    assert WeightsFit(d, 0, d.newSet[0]);
    assert Computable(d, 0, SHIFT_DESC);
    PeriodsOfAt(d.newSet[0], K);
    PeriodsOfAt(d.oldSet[0], KO);
    ForecastsOfAt(d.oldForecast, d.lastPeriod, 0, d.oldSet[0], KO);
    var t := NewsTableOf(d, 0, SHIFT_DESC, periodText);
    assert t.newPeriods == [1];
    assert t.oldPeriods == [0, 1];
    assert t.oldForecasts[0] == 0.0;
  }

  /** The positions the two scans of `ShiftDoc` keep, in chronological order. */
  lemma ShiftPositions()
    ensures var d := ShiftDoc();
      && Chronological(d.newSet[0], d.lastPeriod, d.domainStart) == [1]
      && Chronological(d.oldSet[0], d.lastPeriod, d.domainStart) == [0, 1]
  {
    var d := ShiftDoc();
    assert Scan(d.newSet[0], d.lastPeriod, d.domainStart, 1) == [];
    assert Scan(d.newSet[0], d.lastPeriod, d.domainStart, 2) == [1];
    assert Scan(d.oldSet[0], d.lastPeriod, d.domainStart, 0) == [];
    assert Scan(d.oldSet[0], d.lastPeriod, d.domainStart, 1) == [0];
    assert Scan(d.oldSet[0], d.lastPeriod, d.domainStart, 2) == [1, 0];
  }
}
