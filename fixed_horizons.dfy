/**
 * The fixed-horizons comparison of a simulation: for the selected variable and
 * transformation, one "True data" series over the evaluation sample followed by
 * one forecast series per selected horizon, in the order of the horizon list.
 */
module FixedHorizons {
  import opened Values

  /** A period of the evaluation sample: its frequency and its ordinal. */
  datatype TsPeriod = TsPeriod(freq: nat, ordinal: int)

  /** The day a period is plotted at (its middle). */
  type Day = int

  /** A `java.lang.Double` reference: `null` or a boxed double. */
  datatype Boxed = Null | Box(v: Double)

  /** What the collector records for one period. */
  datatype Entry = Observation(at: Day, value: Double) | MissingValue(at: Day)

  /** The series the collector makes: its frequency and the recorded entries. */
  datatype Collected = Collected(freq: nat, entries: seq<Entry>)

  /** A named series of the output collection. */
  datatype Ts = Ts(name: string, data: Collected)

  /** The results of one simulated variable. */
  datatype SimResults = SimResults(
    trueValues: seq<Boxed>, trueValuesYoY: seq<Boxed>, trueValuesQoQ: seq<Boxed>,
    forecasts: seq<seq<Boxed>>, forecastsYoY: seq<seq<Boxed>>, forecastsQoQ: seq<seq<Boxed>>,
    sample: seq<TsPeriod>, horizons: seq<int>)

  /** A simulation: the results of each variable, in the order of the variable selector. */
  datatype Simulation = Simulation(results: seq<SimResults>)

  /** The horizon filter: the horizons it offers and the ones selected. */
  datatype FilterPanel = FilterPanel(horizons: seq<int>, selected: set<int>)

  /** The outcome of assembling the collection: the series, or an exception thrown on the way. */
  datatype Assembly = Assembled(series: seq<Ts>) | Thrown

  /** The transformation shown: levels, year-on-year or quarter-on-quarter growth. */
  datatype Transform = Level | YearOnYear | QuarterOnQuarter

  const TRUE_DATA: string := "True data"

  // ---------------------------------------------------------------------------
  // The transformation selector

  /** The transformation of a type-selector index: 1 and 2 pick the growth rates, anything else the levels. */
  function TransformOf(typeIndex: int): (t: Transform)
    ensures t == YearOnYear <==> typeIndex == 1
    ensures t == QuarterOnQuarter <==> typeIndex == 2
    ensures t == Level <==> typeIndex != 1 && typeIndex != 2
  {
    if typeIndex == 1 then YearOnYear else if typeIndex == 2 then QuarterOnQuarter else Level
  }

  /** The true values of a transformation. */
  function TruthOf(dfm: SimResults, t: Transform): seq<Boxed> {
    match t
    case Level => dfm.trueValues
    case YearOnYear => dfm.trueValuesYoY
    case QuarterOnQuarter => dfm.trueValuesQoQ
  }

  /** The forecasts of a transformation, one row per horizon position. */
  function ForecastsFor(dfm: SimResults, t: Transform): seq<seq<Boxed>> {
    match t
    case Level => dfm.forecasts
    case YearOnYear => dfm.forecastsYoY
    case QuarterOnQuarter => dfm.forecastsQoQ
  }

  /** The true values and the forecasts always come from the same transformation. */
  lemma SameTransform(dfm: SimResults, typeIndex: int)
    ensures typeIndex == 1 ==>
              TruthOf(dfm, TransformOf(typeIndex)) == dfm.trueValuesYoY && ForecastsFor(dfm, TransformOf(typeIndex)) == dfm.forecastsYoY
    ensures typeIndex == 2 ==>
              TruthOf(dfm, TransformOf(typeIndex)) == dfm.trueValuesQoQ && ForecastsFor(dfm, TransformOf(typeIndex)) == dfm.forecastsQoQ
    ensures typeIndex != 1 && typeIndex != 2 ==>
              TruthOf(dfm, TransformOf(typeIndex)) == dfm.trueValues && ForecastsFor(dfm, TransformOf(typeIndex)) == dfm.forecasts
  {
  }

  // ---------------------------------------------------------------------------
  // Recording one value

  /** Java's `!=` on two doubles: true whenever either is NaN, otherwise the values differ. */
  function NumericNe(a: Double, b: Double): (r: bool)
    ensures r <==> a.NaN? || b.NaN? || a.value != b.value
  {
    match (a, b)
    case (Num(x), Num(y)) => x != y
    case _ => true
  }

  /** Comparing against NaN is always true, so the NaN guard lets every value through. */
  lemma NaNGuardPasses(x: Double)
    ensures NumericNe(x, NaN)
  {
  }

  /** The entry recorded for one value: an observation unless the value is null or fails the NaN guard. */
  function EntryOf(b: Boxed, day: Day): Entry {
    if b.Box? && NumericNe(b.v, NaN) then Observation(day, b.v) else MissingValue(day)
  }

  /** Only a null value is recorded as missing; every boxed value, NaN included, is observed. */
  lemma EntryMissingIffNull(b: Boxed, day: Day)
    ensures EntryOf(b, day).MissingValue? <==> b == Null
    ensures b.Box? ==> EntryOf(b, day) == Observation(day, b.v)
    ensures EntryOf(b, day).at == day
  {
    if b.Box? {
      NaNGuardPasses(b.v);
    }
  }

  /** The entries recorded for `values` over `sample`, one per period, in sample order. */
  function Collect(values: seq<Boxed>, sample: seq<TsPeriod>, middle: TsPeriod -> Day): (r: seq<Entry>)
    requires |sample| <= |values|
    ensures |r| == |sample|
  {
    if sample == [] then []
    else Collect(values, sample[..|sample| - 1], middle) + [EntryOf(values[|sample| - 1], middle(sample[|sample| - 1]))]
  }

  lemma {:induction false} CollectAt(values: seq<Boxed>, sample: seq<TsPeriod>, middle: TsPeriod -> Day)
    requires |sample| <= |values|
    ensures forall j :: 0 <= j < |sample| ==> Collect(values, sample, middle)[j] == EntryOf(values[j], middle(sample[j]))
  {
    if sample != [] {
      CollectAt(values, sample[..|sample| - 1], middle);
    }
  }

  /** Entry `j` of a collected series is at the middle of period `j`, and is missing exactly when value `j` is null. */
  lemma CollectMissingIffNull(values: seq<Boxed>, sample: seq<TsPeriod>, middle: TsPeriod -> Day, j: nat)
    requires |sample| <= |values| && j < |sample|
    ensures Collect(values, sample, middle)[j].at == middle(sample[j])
    ensures Collect(values, sample, middle)[j].MissingValue? <==> values[j] == Null
    ensures values[j].Box? ==> Collect(values, sample, middle)[j] == Observation(middle(sample[j]), values[j].v)
  {
    CollectAt(values, sample, middle);
    EntryMissingIffNull(values[j], middle(sample[j]));
  }

  /** Collecting one more period appends its entry. */
  lemma CollectStep(values: seq<Boxed>, sample: seq<TsPeriod>, middle: TsPeriod -> Day, j: nat)
    requires j < |sample| && j < |values|
    ensures Collect(values, sample[..j + 1], middle) == Collect(values, sample[..j], middle) + [EntryOf(values[j], middle(sample[j]))]
  {
    assert sample[..j + 1][..j] == sample[..j];
  }

  // ---------------------------------------------------------------------------
  // Horizon labels

  function DigitChar(d: nat): (c: char)
    requires d < 10
    ensures '0' <= c <= '9'
  {
    (d + '0' as int) as char
  }

  /** The decimal digits of `n`, most significant first, without leading zeros. */
  function NatDigits(n: nat): (s: string)
    ensures |s| > 0 && forall i :: 0 <= i < |s| ==> '0' <= s[i] <= '9'
    decreases n
  {
    if n < 10 then [DigitChar(n)] else NatDigits(n / 10) + [DigitChar(n % 10)]
  }

  /** Java's `Integer.toString`: a minus sign for negative numbers, then the digits of the magnitude. */
  function IntToString(n: int): string {
    if n < 0 then "-" + NatDigits(-n) else NatDigits(n)
  }

  /** The value of a string of decimal digits. */
  function DigitsValue(s: string): int {
    if s == [] then 0 else DigitsValue(s[..|s| - 1]) * 10 + (s[|s| - 1] as int - '0' as int)
  }

  /** Reads back an optionally signed decimal. */
  function ParseInt(s: string): int {
    if |s| > 0 && s[0] == '-' then -DigitsValue(s[1..]) else DigitsValue(s)
  }

  lemma {:induction false} NatDigitsRoundTrip(n: nat)
    ensures DigitsValue(NatDigits(n)) == n
    decreases n
  {
    if n >= 10 {
      NatDigitsRoundTrip(n / 10);
      var s := NatDigits(n);
      assert s[..|s| - 1] == NatDigits(n / 10);
    }
  }

  /** Printing an integer and reading it back gives the integer. */
  lemma IntToStringRoundTrip(n: int)
    ensures ParseInt(IntToString(n)) == n
  {
    if n < 0 {
      NatDigitsRoundTrip(-n);
      assert IntToString(n)[1..] == NatDigits(-n);
    } else {
      NatDigitsRoundTrip(n);
    }
  }

  /** The name of the forecast series of horizon `h`. */
  function Label(h: int): string {
    "fh(" + IntToString(h) + ")"
  }

  /** Distinct horizons get distinct series names. */
  lemma LabelInjective(h: int, h': int)
    requires Label(h) == Label(h')
    ensures h == h'
  {
    var s, s' := IntToString(h), IntToString(h');
    assert s == Label(h)[3..|Label(h)| - 1];
    assert s' == Label(h')[3..|Label(h')| - 1];
    IntToStringRoundTrip(h);
    IntToStringRoundTrip(h');
  }

  /** No forecast series is named like the true data. */
  lemma LabelNotTrueData(h: int)
    ensures Label(h) != TRUE_DATA
  {
    assert Label(h)[0] == 'f';
  }

  // ---------------------------------------------------------------------------
  // Which horizons are shown

  /** The positions, among the first `n` of the horizon list, whose horizon is selected, in list order. */
  function SelectedPositions(horizons: seq<int>, selected: set<int>, n: nat): (r: seq<nat>)
    requires n <= |horizons|
    ensures |r| <= n
    ensures forall k :: 0 <= k < |r| ==> r[k] < n
  {
    if n == 0 then []
    else if horizons[n - 1] in selected then SelectedPositions(horizons, selected, n - 1) + [n - 1]
    else SelectedPositions(horizons, selected, n - 1)
  }

  /** A position is shown exactly when its horizon is selected, each position at most once, in increasing order. */
  lemma {:induction false} SelectedPositionsMembers(horizons: seq<int>, selected: set<int>, n: nat)
    requires n <= |horizons|
    ensures forall i :: 0 <= i < n ==> (i in SelectedPositions(horizons, selected, n) <==> horizons[i] in selected)
    ensures forall k, k' :: 0 <= k < k' < |SelectedPositions(horizons, selected, n)| ==>
              SelectedPositions(horizons, selected, n)[k] < SelectedPositions(horizons, selected, n)[k']
  {
    if n > 0 {
      SelectedPositionsMembers(horizons, selected, n - 1);
    }
  }

  /**
   * The forecast series of the first `n` horizon positions: one per selected
   * position, reading that position's forecast row; an exception when a
   * selected position has no row or a row shorter than the sample.
   */
  function Forecasted(horizons: seq<int>, fcts: seq<seq<Boxed>>, sample: seq<TsPeriod>, selected: set<int>,
                      middle: TsPeriod -> Day, freq: nat, n: nat): (r: Assembly)
    requires n <= |horizons|
    ensures r.Assembled? ==> |r.series| == |SelectedPositions(horizons, selected, n)|
  {
    if n == 0 then Assembled([])
    else
      var prev := Forecasted(horizons, fcts, sample, selected, middle, freq, n - 1);
      if prev.Thrown? || horizons[n - 1] !in selected then prev
      else if n - 1 < |fcts| && |sample| <= |fcts[n - 1]| then
        Assembled(prev.series + [Ts(Label(horizons[n - 1]), Collected(freq, Collect(fcts[n - 1], sample, middle)))])
      else Thrown
  }

  /** Whether every selected position among the first `n` has a forecast row covering the sample. */
  predicate RowsCover(horizons: seq<int>, fcts: seq<seq<Boxed>>, sample: seq<TsPeriod>, selected: set<int>, n: nat)
    requires n <= |horizons|
  {
    forall i :: 0 <= i < n && horizons[i] in selected ==> i < |fcts| && |sample| <= |fcts[i]|
  }

  /** The forecast series are built exactly when every selected row covers the sample. */
  lemma {:induction false} ForecastedIffCover(horizons: seq<int>, fcts: seq<seq<Boxed>>, sample: seq<TsPeriod>, selected: set<int>,
                                              middle: TsPeriod -> Day, freq: nat, n: nat)
    requires n <= |horizons|
    ensures Forecasted(horizons, fcts, sample, selected, middle, freq, n).Assembled? <==> RowsCover(horizons, fcts, sample, selected, n)
  {
    if n > 0 {
      ForecastedIffCover(horizons, fcts, sample, selected, middle, freq, n - 1);
      CoverStep(horizons, fcts, sample, selected, n - 1);
    }
  }

  /** The rows cover one more position when they cover the earlier ones and, if it is selected, this one. */
  lemma CoverStep(horizons: seq<int>, fcts: seq<seq<Boxed>>, sample: seq<TsPeriod>, selected: set<int>, i: nat)
    requires i < |horizons|
    ensures RowsCover(horizons, fcts, sample, selected, i + 1) <==>
      RowsCover(horizons, fcts, sample, selected, i) && (horizons[i] in selected ==> i < |fcts| && |sample| <= |fcts[i]|)
  {
  }

  /** Forecast series `k` is that of the `k`-th selected position, reading its forecast row. */
  lemma {:induction false} ForecastedAt(horizons: seq<int>, fcts: seq<seq<Boxed>>, sample: seq<TsPeriod>, selected: set<int>,
                                        middle: TsPeriod -> Day, freq: nat, n: nat)
    requires n <= |horizons| && Forecasted(horizons, fcts, sample, selected, middle, freq, n).Assembled?
    ensures var r := Forecasted(horizons, fcts, sample, selected, middle, freq, n).series;
            var P := SelectedPositions(horizons, selected, n);
      forall k :: 0 <= k < |P| ==>
        (P[k] < |fcts| && |sample| <= |fcts[P[k]]| &&
         r[k] == Ts(Label(horizons[P[k]]), Collected(freq, Collect(fcts[P[k]], sample, middle))))
  {
    if n > 0 {
      var prev := Forecasted(horizons, fcts, sample, selected, middle, freq, n - 1);
      assert prev.Assembled?;
      ForecastedAt(horizons, fcts, sample, selected, middle, freq, n - 1);
      var r := Forecasted(horizons, fcts, sample, selected, middle, freq, n).series;
      var P := SelectedPositions(horizons, selected, n);
      var P' := SelectedPositions(horizons, selected, n - 1);
      if horizons[n - 1] in selected {
        assert P == P' + [n - 1];
        assert r == prev.series + [Ts(Label(horizons[n - 1]), Collected(freq, Collect(fcts[n - 1], sample, middle)))];
        assert n - 1 < |fcts| && |sample| <= |fcts[n - 1]|;
        forall k | 0 <= k < |P|
          ensures P[k] < |fcts| && |sample| <= |fcts[P[k]]| &&
                  r[k] == Ts(Label(horizons[P[k]]), Collected(freq, Collect(fcts[P[k]], sample, middle)))
        {
          if k < |P'| {
            assert P[k] == P'[k] && r[k] == prev.series[k];
          } else {
            assert P[k] == n - 1;
          }
        }
      } else {
        assert P == P' && r == prev.series;
      }
    }
  }

  /** Once a forecast row is missing or short, the assembly stays failed. */
  lemma {:induction false} ThrownStays(horizons: seq<int>, fcts: seq<seq<Boxed>>, sample: seq<TsPeriod>, selected: set<int>,
                                       middle: TsPeriod -> Day, freq: nat, n: nat, m: nat)
    requires n <= m <= |horizons| && Forecasted(horizons, fcts, sample, selected, middle, freq, n).Thrown?
    ensures Forecasted(horizons, fcts, sample, selected, middle, freq, m).Thrown?
    decreases m - n
  {
    if n < m {
      ThrownStays(horizons, fcts, sample, selected, middle, freq, n + 1, m);
    }
  }

  // ---------------------------------------------------------------------------
  // The whole collection

  /**
   * The collection for one variable, transformation and horizon selection: an
   * exception for an empty sample (its frequency is that of the first period)
   * or for data shorter than the sample; otherwise "True data" and then the
   * forecast series of the selected horizons.
   */
  function Assemble(dfm: SimResults, typeIndex: int, selected: set<int>, middle: TsPeriod -> Day): Assembly {
    var t := TransformOf(typeIndex);
    var truth := TruthOf(dfm, t);
    if |dfm.sample| == 0 || |truth| < |dfm.sample| then Thrown
    else
      var freq := dfm.sample[0].freq;
      var fs := Forecasted(dfm.horizons, ForecastsFor(dfm, t), dfm.sample, selected, middle, freq, |dfm.horizons|);
      if fs.Thrown? then Thrown
      else Assembled([Ts(TRUE_DATA, Collected(freq, Collect(truth, dfm.sample, middle)))] + fs.series)
  }

  /** When the collection is assembled at all. */
  predicate Assemblable(dfm: SimResults, typeIndex: int, selected: set<int>) {
    var t := TransformOf(typeIndex);
    && |dfm.sample| > 0
    && |dfm.sample| <= |TruthOf(dfm, t)|
    && RowsCover(dfm.horizons, ForecastsFor(dfm, t), dfm.sample, selected, |dfm.horizons|)
  }

  /**
   * The collection is assembled exactly when the sample is non-empty and the
   * true values and every selected forecast row cover it. It then holds one
   * series more than there are selected horizon positions: first "True data"
   * with one entry per period, then for the `k`-th selected position `p` the
   * series named after horizon `p` that reads forecast row `p`.
   */
  lemma AssembleSeries(dfm: SimResults, typeIndex: int, selected: set<int>, middle: TsPeriod -> Day)
    ensures Assemble(dfm, typeIndex, selected, middle).Assembled? <==> Assemblable(dfm, typeIndex, selected)
    ensures Assemblable(dfm, typeIndex, selected) ==>
      var t := TransformOf(typeIndex);
      var r := Assemble(dfm, typeIndex, selected, middle).series;
      var P := SelectedPositions(dfm.horizons, selected, |dfm.horizons|);
      var freq := dfm.sample[0].freq;
      && |r| == 1 + |P|
      && r[0] == Ts(TRUE_DATA, Collected(freq, Collect(TruthOf(dfm, t), dfm.sample, middle)))
      && |r[0].data.entries| == |dfm.sample|
      && forall k :: 0 <= k < |P| ==>
           (P[k] < |ForecastsFor(dfm, t)| && |dfm.sample| <= |ForecastsFor(dfm, t)[P[k]]| &&
            r[k + 1] == Ts(Label(dfm.horizons[P[k]]), Collected(freq, Collect(ForecastsFor(dfm, t)[P[k]], dfm.sample, middle))))
  {
    var t := TransformOf(typeIndex);
    var freq := if |dfm.sample| > 0 then dfm.sample[0].freq else 0;
    ForecastedIffCover(dfm.horizons, ForecastsFor(dfm, t), dfm.sample, selected, middle, freq, |dfm.horizons|);
    if Assemblable(dfm, typeIndex, selected) {
      ForecastedAt(dfm.horizons, ForecastsFor(dfm, t), dfm.sample, selected, middle, freq, |dfm.horizons|);
    }
  }

  /** A horizon that is not in the list adds no series, and a listed horizon that is not selected adds none either. */
  lemma ShownHorizons(dfm: SimResults, selected: set<int>, h: int)
    ensures (exists k :: 0 <= k < |SelectedPositions(dfm.horizons, selected, |dfm.horizons|)| &&
               dfm.horizons[SelectedPositions(dfm.horizons, selected, |dfm.horizons|)[k]] == h)
            <==> h in selected && h in dfm.horizons
  {
    var H := dfm.horizons;
    var P := SelectedPositions(H, selected, |H|);
    SelectedPositionsMembers(H, selected, |H|);
    if h in selected && h in H {
      var i :| 0 <= i < |H| && H[i] == h;
      assert i in P;
      var k :| 0 <= k < |P| && P[k] == i;
      assert H[P[k]] == h;
    }
  }

  /** With horizons 1 to 4 listed and 1 and 3 selected, the collection is "True data", "fh(1)", "fh(3)". */
  lemma SelectionExample(dfm: SimResults, typeIndex: int, middle: TsPeriod -> Day)
    requires dfm.horizons == [1, 2, 3, 4] && Assemblable(dfm, typeIndex, {1, 3})
    ensures var r := Assemble(dfm, typeIndex, {1, 3}, middle);
      r.Assembled? && |r.series| == 3 &&
      r.series[0].name == "True data" && r.series[1].name == "fh(1)" && r.series[2].name == "fh(3)"
  {
    AssembleSeries(dfm, typeIndex, {1, 3}, middle);
    var H := dfm.horizons;
    assert SelectedPositions(H, {1, 3}, 1) == [0];
    assert SelectedPositions(H, {1, 3}, 2) == [0] by { assert H[1] !in {1, 3}; }
    assert SelectedPositions(H, {1, 3}, 3) == [0, 2];
    assert SelectedPositions(H, {1, 3}, 4) == [0, 2] by { assert H[3] !in {1, 3}; }
    var P := SelectedPositions(H, {1, 3}, |H|);
    assert P[0] == 0 && P[1] == 2;
    assert IntToString(1) == "1" && IntToString(3) == "3";
    assert Label(1) == "fh(1)" && Label(3) == "fh(3)";
    var r := Assemble(dfm, typeIndex, {1, 3}, middle).series;
    assert r[1].name == Label(H[0]) && r[2].name == Label(H[2]);
  }

  /** When no listed horizon is selected, the collection is the true data alone. */
  lemma NothingSelected(dfm: SimResults, typeIndex: int, selected: set<int>, middle: TsPeriod -> Day)
    requires Assemblable(dfm, typeIndex, selected)
    requires forall i :: 0 <= i < |dfm.horizons| ==> dfm.horizons[i] !in selected
    ensures Assemble(dfm, typeIndex, selected, middle) ==
              Assembled([Ts(TRUE_DATA, Collected(dfm.sample[0].freq, Collect(TruthOf(dfm, TransformOf(typeIndex)), dfm.sample, middle)))])
  {
    AssembleSeries(dfm, typeIndex, selected, middle);
    NoneShown(dfm.horizons, selected, |dfm.horizons|);
  }

  /** No position is shown when none of the first `n` horizons is selected. */
  lemma {:induction false} NoneShown(horizons: seq<int>, selected: set<int>, n: nat)
    requires n <= |horizons| && forall i :: 0 <= i < n ==> horizons[i] !in selected
    ensures SelectedPositions(horizons, selected, n) == []
  {
    if n > 0 {
      NoneShown(horizons, selected, n - 1);
    }
  }

  // ---------------------------------------------------------------------------
  // The collector and the view

  /** Collects the entries of one series; `clear` empties it for the next one. */
  class TsDataCollector {
    var entries: seq<Entry>

    constructor ()
      ensures entries == []
    {
      entries := [];
    }

    method Clear()
      modifies this
      ensures entries == []
    {
      entries := [];
    }

    method AddObservation(day: Day, value: Double)
      modifies this
      ensures entries == old(entries) + [Observation(day, value)]
    {
      entries := entries + [Observation(day, value)];
    }

    method AddMissingValue(day: Day)
      modifies this
      ensures entries == old(entries) + [MissingValue(day)]
    {
      entries := entries + [MissingValue(day)];
    }

    /** The series made from the recorded entries at frequency `freq`. */
    function Make(freq: nat): Collected
      reads this
    {
      Collected(freq, entries)
    }
  }

  /**
   * The graph view: the simulation shown, the selected variable and
   * transformation (`-1` when a selector has no selection), the horizon
   * filter, the last collection and the chart's dataset (`None` is a chart
   * without data).
   */
  class FixedHorizonsGraphView {
    /** The day each period is plotted at. */
    const middle: TsPeriod -> Day
    /** The horizons a new filter panel selects, given the horizons it offers. */
    const defaultSelection: seq<int> -> set<int>
    /** The number of series descriptions of the document, which the variable selector lists. */
    const variableCount: nat

    var simulation: Option<Simulation>
    var variableIndex: int
    var typeIndex: int
    var filterPanel: Option<FilterPanel>
    var collection: seq<Ts>
    var dataset: Option<seq<Ts>>

    /** A new view: no simulation, levels selected, no variable, no data. */
    constructor (middle: TsPeriod -> Day, defaultSelection: seq<int> -> set<int>, variableCount: nat)
      ensures this.middle == middle && this.defaultSelection == defaultSelection && this.variableCount == variableCount
      ensures simulation == None && variableIndex == -1 && typeIndex == 0
      ensures filterPanel == None && collection == [] && dataset == None
    {
      this.middle := middle;
      this.defaultSelection := defaultSelection;
      this.variableCount := variableCount;
      simulation := None;
      typeIndex := 0;
      collection := [];
      new;
      UpdateComboBox();
      var _ := UpdateChart();
    }

    /** The filter panel in use when assembling for `dfm`: the current one, or a new one over `dfm`'s horizons. */
    function PanelFor(dfm: SimResults, panel: Option<FilterPanel>): (r: FilterPanel)
      ensures panel.Some? ==> r == panel.value
      ensures panel.None? ==> r.horizons == dfm.horizons
    {
      if panel.Some? then panel.value else FilterPanel(dfm.horizons, defaultSelection(dfm.horizons))
    }

    /**
     * Stores new results; a null argument stores "absent". A change refreshes
     * the selector and the chart; `thrown` reports an exception of the redraw,
     * which escapes to the caller.
     */
    method SetSimulationResults(results: Option<Option<Simulation>>) returns (thrown: bool)
      modifies this
      ensures simulation == (if results.Some? then results.value else None)
      ensures typeIndex == old(typeIndex)
      ensures simulation == old(simulation) ==> unchanged(this)
      ensures simulation != old(simulation) ==> variableIndex == (if simulation.Some? && variableCount > 0 then 0 else -1)
      ensures simulation != old(simulation) && simulation.None? ==> filterPanel == None && dataset == None
      ensures simulation != old(simulation) ==> Drawn(None, old(collection), old(dataset))
      ensures thrown <==> simulation != old(simulation) && RedrawThrows(None)
    {
      var previous := simulation;
      simulation := if results.Some? then results.value else None;
      thrown := false;
      if simulation != previous {
        UpdateComboBox();
        thrown := UpdateChart();
      }
    }

    /** Refills the variable selector, which then selects its first variable if it has any; the horizon filter is discarded. */
    method UpdateComboBox()
      modifies this`filterPanel, this`variableIndex
      ensures filterPanel == None
      ensures variableIndex == (if simulation.Some? && variableCount > 0 then 0 else -1)
    {
      filterPanel := None;
      if simulation.Some? {
        variableIndex := if variableCount > 0 then 0 else -1;
      } else {
        variableIndex := -1;
      }
    }

    /** A new variable is selected: the horizon filter is discarded and the chart redrawn; `thrown` reports an escaping exception. */
    method OnVariableSelected(index: int) returns (thrown: bool)
      requires -1 <= index < variableCount
      modifies this`variableIndex, this`filterPanel, this`collection, this`dataset
      ensures variableIndex == index
      ensures simulation.Some? && index != -1 && typeIndex != -1 && 0 <= index < |simulation.value.results| ==>
                filterPanel == Some(FilterPanel(simulation.value.results[index].horizons,
                                                defaultSelection(simulation.value.results[index].horizons)))
      ensures simulation.None? || index == -1 || typeIndex == -1 ==> filterPanel == None && dataset == None
      ensures Drawn(None, old(collection), old(dataset))
      ensures thrown <==> RedrawThrows(None)
    {
      variableIndex := index;
      filterPanel := None;
      thrown := UpdateChart();
    }

    /** A new transformation is selected: the chart is redrawn; `thrown` reports an escaping exception. */
    method OnTypeSelected(index: int) returns (thrown: bool)
      requires -1 <= index < 3
      modifies this`typeIndex, this`filterPanel, this`collection, this`dataset
      ensures typeIndex == index
      ensures simulation.None? || variableIndex == -1 || index == -1 ==> filterPanel == old(filterPanel) && dataset == None
      ensures old(filterPanel).Some? ==> filterPanel == old(filterPanel)
      ensures Drawn(old(filterPanel), old(collection), old(dataset))
      ensures thrown <==> RedrawThrows(old(filterPanel))
    {
      typeIndex := index;
      thrown := UpdateChart();
    }

    /**
     * The chart state after a redraw from filter `panel0`, collection `coll0`
     * and dataset `ds0`. Without a simulation or with a selector unselected the
     * chart has no data. Otherwise the collection is assembled for the selected
     * variable with the filter in use (created if there was none); an exception
     * on the way leaves the collection and the chart as they were.
     */
    predicate Drawn(panel0: Option<FilterPanel>, coll0: seq<Ts>, ds0: Option<seq<Ts>>)
      reads this
    {
      if simulation.Some? && variableIndex != -1 && typeIndex != -1 then
        var sim := simulation.value;
        if 0 <= variableIndex < |sim.results| then
          var dfm := sim.results[variableIndex];
          var panel := PanelFor(dfm, panel0);
          var r := Assemble(dfm, typeIndex, panel.selected, middle);
          && filterPanel == Some(panel)
          && (r.Assembled? ==> collection == r.series && dataset == Some(r.series))
          && (r.Thrown? ==> collection == coll0 && dataset == ds0)
        else
          filterPanel == panel0 && collection == coll0 && dataset == ds0
      else
        dataset == None && filterPanel == panel0 && collection == coll0
    }

    /**
     * Whether a redraw from filter `panel0` throws: the guard passes and either
     * the selected variable has no results or assembling its collection throws.
     */
    predicate RedrawThrows(panel0: Option<FilterPanel>)
      reads this
    {
      && simulation.Some? && variableIndex != -1 && typeIndex != -1
      && (!(0 <= variableIndex < |simulation.value.results|) ||
          var dfm := simulation.value.results[variableIndex];
          Assemble(dfm, typeIndex, PanelFor(dfm, panel0).selected, middle).Thrown?)
    }

    /**
     * Redraws the chart from the current filter, collection and dataset. The
     * method has no handler, so an exception of the assembly escapes to the
     * caller; `thrown` reports it.
     */
    method UpdateChart() returns (thrown: bool)
      modifies this`filterPanel, this`collection, this`dataset
      ensures Drawn(old(filterPanel), old(collection), old(dataset))
      ensures thrown <==> RedrawThrows(old(filterPanel))
    {
      if simulation.Some? && variableIndex != -1 && typeIndex != -1 {
        var r := ToCollection(simulation.value);
        thrown := r.Thrown?;
        if r.Assembled? {
          collection := r.series;
          dataset := Some(collection);
        }
      } else {
        thrown := false;
        dataset := None;
      }
    }

    /**
     * Assembles the collection for the selected variable and transformation,
     * creating the horizon filter first if there is none.
     */
    method ToCollection(sim: Simulation) returns (r: Assembly)
      modifies this`filterPanel
      ensures !(0 <= variableIndex < |sim.results|) ==> r == Thrown && filterPanel == old(filterPanel)
      ensures 0 <= variableIndex < |sim.results| ==>
        var dfm := sim.results[variableIndex];
        filterPanel == Some(PanelFor(dfm, old(filterPanel))) &&
        r == Assemble(dfm, typeIndex, filterPanel.value.selected, middle)
    {
      if !(0 <= variableIndex < |sim.results|) {
        return Thrown;
      }
      var dfm := sim.results[variableIndex];
      var t := TransformOf(typeIndex);
      var trueValues := TruthOf(dfm, t);
      var fcts := ForecastsFor(dfm, t);
      var periods := dfm.sample;
      var horizons := dfm.horizons;
      if filterPanel.None? {
        filterPanel := Some(FilterPanel(horizons, defaultSelection(horizons)));
      }
      if |periods| == 0 {
        return Thrown;
      }
      var freq := periods[0].freq;
      var coll := new TsDataCollector();
      var ok := CollectSeries(trueValues, periods, coll);
      if !ok {
        return Thrown;
      }
      var result := [Ts(TRUE_DATA, coll.Make(freq))];
      var shown := ForecastSeries(horizons, fcts, periods, filterPanel.value.selected, freq, coll);
      if shown.Thrown? {
        return Thrown;
      }
      return Assembled(result + shown.series);
    }

    /**
     * Records `values` over `periods` into the collector: an observation at each
     * period's middle unless the value is null or fails the NaN guard. Reading
     * past the end of `values` throws.
     */
    method CollectSeries(values: seq<Boxed>, periods: seq<TsPeriod>, coll: TsDataCollector) returns (ok: bool)
      requires coll.entries == []
      modifies coll
      ensures ok <==> |periods| <= |values|
      ensures ok ==> coll.entries == Collect(values, periods, middle)
    {
      var j := 0;
      while j < |periods|
        invariant 0 <= j <= |periods| && j <= |values|
        invariant coll.entries == Collect(values, periods[..j], middle)
      {
        if j >= |values| {
          return false;
        }
        CollectStep(values, periods, middle, j);
        if values[j].Box? && NumericNe(values[j].v, NaN) {
          coll.AddObservation(middle(periods[j]), values[j].v);
        } else {
          coll.AddMissingValue(middle(periods[j]));
        }
        j := j + 1;
      }
      assert periods[..j] == periods;
      return true;
    }

    /** The forecast series of the selected horizons, clearing and reusing the collector for each. */
    method ForecastSeries(horizons: seq<int>, fcts: seq<seq<Boxed>>, periods: seq<TsPeriod>, selected: set<int>, freq: nat,
                          coll: TsDataCollector) returns (r: Assembly)
      requires |periods| > 0
      modifies coll
      ensures r == Forecasted(horizons, fcts, periods, selected, middle, freq, |horizons|)
    {
      var series := [];
      var i := 0;
      while i < |horizons|
        invariant 0 <= i <= |horizons|
        invariant Forecasted(horizons, fcts, periods, selected, middle, freq, i) == Assembled(series)
      {
        if horizons[i] in selected {
          if i >= |fcts| {
            ThrownStays(horizons, fcts, periods, selected, middle, freq, i + 1, |horizons|);
            return Thrown;
          }
          coll.Clear();
          var ok := CollectSeries(fcts[i], periods, coll);
          if !ok {
            ThrownStays(horizons, fcts, periods, selected, middle, freq, i + 1, |horizons|);
            return Thrown;
          }
          series := series + [Ts(Label(horizons[i]), coll.Make(freq))];
        }
        i := i + 1;
      }
      return Assembled(series);
    }
  }
}
