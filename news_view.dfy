/**
 * The news view itself: it holds the news document and the series
 * descriptors, recomputes its lists for the selected series, and gives its
 * grid a model only when there are updates to show.
 */
module NewsView {
  import opened Values
  import opened NewsWeights

  /** The state of the news view: its inputs, its computed lists and its grid model. */
  class NewsWeightsView {
    var doc: Option<NewsDoc>
    var desc: seq<Descriptor>
    /** The grid's model; `None` is a grid without a model. */
    var model: Option<NewsTable>

    var titles: seq<string>
    var rows: seq<string>
    var newPeriods: seq<Period>
    var oldPeriods: seq<Period>
    var refPeriods: seq<Period>
    var allRevisions: seq<real>
    var oldForecasts: seq<real>
    var newForecasts: seq<real>
    var expected: seq<real>
    var observations: seq<real>
    var allWeights: seq<seq<real>>

    constructor ()
      ensures doc == None && model == None && desc == []
    {
      doc, desc, model := None, [], None;
      titles, rows := [], [];
      newPeriods, oldPeriods, refPeriods := [], [], [];
      allRevisions, oldForecasts, newForecasts, expected, observations := [], [], [], [], [];
      allWeights := [];
    }

    /** The computed lists, as the grid model reads them. */
    function Lists(): NewsTable
      reads this
    {
      NewsTable(titles, rows, newPeriods, oldPeriods, refPeriods, allRevisions,
                oldForecasts, newForecasts, expected, observations, allWeights)
    }

    /** Stores new results: the news document (possibly none) and the series descriptors. */
    method SetResults(d: Option<NewsDoc>, descriptors: seq<Descriptor>)
      modifies this`doc, this`desc
      ensures doc == d && desc == descriptors
    {
      doc := d;
      desc := descriptors;
    }

    /** Rebuilds the grid model: none without a document or without updates. */
    method UpdateGridModel(selected: nat, periodText: Period -> string)
      requires doc.Some? && |doc.value.updates| > 0 ==> Computable(doc.value, selected, desc)
      modifies this
      ensures doc == old(doc) && desc == old(desc)
      ensures old(doc).None? || |old(doc).value.updates| == 0 ==> model == None && Lists() == old(Lists())
      ensures old(doc).Some? && |old(doc).value.updates| > 0 ==>
                Lists() == NewsTableOf(doc.value, selected, desc, periodText) && model == Some(Lists())
    {
      if doc.Some? {
        if |doc.value.updates| == 0 {
          model := None;
        } else {
          CalculateData(doc.value, selected, periodText);
          TableOfLists(doc.value, selected, desc, periodText, Lists());
          model := Some(Lists());
        }
      } else {
        model := None;
      }
    }

    /** Computes every list of the table for the selected series. */
    method CalculateData(d: NewsDoc, selected: nat, periodText: Period -> string)
      requires doc == Some(d) && Computable(d, selected, desc)
      modifies this`titles, this`rows, this`newPeriods, this`oldPeriods, this`refPeriods, this`allRevisions,
               this`oldForecasts, this`newForecasts, this`expected, this`observations, this`allWeights
      ensures NewLists(d, selected, newPeriods, allWeights, allRevisions, newForecasts)
      ensures OldLists(d, selected, oldPeriods, oldForecasts)
      ensures titles == Titles(newPeriods, periodText)
      ensures UpdateLists(d.updates, desc, rows, refPeriods, expected, observations)
    {
      CollectPeriods(d, selected);
      CreateColumnTitles(periodText);
      DescribeUpdates(d.updates);
    }

    /** The target periods of both information sets, with their weights, revisions and forecasts, in chronological order. */
    method CollectPeriods(d: NewsDoc, selected: nat)
      requires selected < |d.newSet| && selected < |d.oldSet| && WeightsFit(d, selected, d.newSet[selected])
      modifies this`newPeriods, this`oldPeriods, this`allRevisions, this`oldForecasts, this`newForecasts, this`allWeights
      ensures NewLists(d, selected, newPeriods, allWeights, allRevisions, newForecasts)
      ensures OldLists(d, selected, oldPeriods, oldForecasts)
    {
      ScanNewSet(d, selected);
      ScanOldSet(d, selected);
      ReverseScans(d, selected);
    }

    /** Puts the scanned lists in chronological order, as `Collections.reverse` does. */
    method ReverseScans(d: NewsDoc, selected: nat)
      requires selected < |d.newSet| && selected < |d.oldSet|
      requires ScannedNewLists(d, selected, newPeriods, allWeights, allRevisions, newForecasts)
      requires ScannedOldLists(d, selected, oldPeriods, oldForecasts)
      modifies this`newPeriods, this`oldPeriods, this`allRevisions, this`oldForecasts, this`newForecasts, this`allWeights
      ensures NewLists(d, selected, newPeriods, allWeights, allRevisions, newForecasts)
      ensures OldLists(d, selected, oldPeriods, oldForecasts)
    {
      ChronologicalNew(d, selected, newPeriods, allWeights, allRevisions, newForecasts);
      ChronologicalOld(d, selected, oldPeriods, oldForecasts);
      newPeriods := Reversed(newPeriods);
      oldPeriods := Reversed(oldPeriods);
      allRevisions := Reversed(allRevisions);
      oldForecasts := Reversed(oldForecasts);
      newForecasts := Reversed(newForecasts);
      allWeights := Reversed(allWeights);
    }

    /**
     * The backward scan of the new information set: for each kept position, in
     * scan order, its period, the weights row and revision at its converted
     * period, and the new forecast there.
     */
    method ScanNewSet(d: NewsDoc, selected: nat)
      requires selected < |d.newSet| && WeightsFit(d, selected, d.newSet[selected])
      modifies this`newPeriods, this`allRevisions, this`newForecasts, this`allWeights
      ensures ScannedNewLists(d, selected, newPeriods, allWeights, allRevisions, newForecasts)
    {
      var sNew := d.newSet[selected];
      var periods, revisions, forecasts, weightRows := [], [], [], [];
      ghost var kept: seq<nat> := [];
      var j := |sNew.obs| - 1;
      while j >= 0
        invariant -1 <= j < |sNew.obs|
        invariant NewScanState(d, selected, sNew, j + 1, kept, periods, weightRows, revisions, forecasts)
      {
        if sNew.obs[j].Missing? {
          var p := sNew.start + j;
          var pN := d.lastPeriod(p);
          if pN >= d.domainStart {
            var weights := d.weights(selected, pN);
            NewScanKeep(d, selected, sNew, j, kept, periods, weightRows, revisions, forecasts);
            periods := periods + [p];
            revisions := revisions + [Dot(d.news, weights)];
            forecasts := forecasts + [d.newForecast(selected, pN)];
            weightRows := weightRows + [weights];
            kept := kept + [j];
          } else {
            NewScanSkip(d, selected, sNew, j, kept, periods, weightRows, revisions, forecasts);
          }
        } else {
          ScanStopped(sNew, d.lastPeriod, d.domainStart, j, kept);
          break;
        }
        j := j - 1;
      }
      if j < 0 {
        ScanFinished(sNew, d.lastPeriod, d.domainStart, kept);
      }
      newPeriods, allRevisions, newForecasts, allWeights := periods, revisions, forecasts, weightRows;
    }

    /** The backward scan of the old information set, under the same rule: each kept period and its old forecast. */
    method ScanOldSet(d: NewsDoc, selected: nat)
      requires selected < |d.oldSet|
      modifies this`oldPeriods, this`oldForecasts
      ensures ScannedOldLists(d, selected, oldPeriods, oldForecasts)
    {
      var sOld := d.oldSet[selected];
      var periods, forecasts := [], [];
      ghost var kept: seq<nat> := [];
      var j := |sOld.obs| - 1;
      while j >= 0
        invariant -1 <= j < |sOld.obs|
        invariant OldScanState(d, selected, sOld, j + 1, kept, periods, forecasts)
      {
        if sOld.obs[j].Missing? {
          var p := sOld.start + j;
          var pO := d.lastPeriod(p);
          if pO >= d.domainStart {
            OldScanKeep(d, selected, sOld, j, kept, periods, forecasts);
            periods := periods + [p];
            forecasts := forecasts + [d.oldForecast(selected, pO)];
            kept := kept + [j];
          } else {
            OldScanSkip(d, selected, sOld, j, kept, periods, forecasts);
          }
        } else {
          ScanStopped(sOld, d.lastPeriod, d.domainStart, j, kept);
          break;
        }
        j := j - 1;
      }
      if j < 0 {
        ScanFinished(sOld, d.lastPeriod, d.domainStart, kept);
      }
      oldPeriods, oldForecasts := periods, forecasts;
    }

    /** One row per update: its series' label, its reference period, and its destandardised forecast and observation; then the three summary row labels. */
    method DescribeUpdates(updates: seq<Update>)
      requires Described(updates, desc)
      modifies this`rows, this`refPeriods, this`expected, this`observations
      ensures UpdateLists(updates, desc, rows, refPeriods, expected, observations)
    {
      var descriptors := desc;
      rows, refPeriods, expected, observations := [], [], [], [];
      var i := 0;
      while i < |updates|
        invariant 0 <= i <= |updates|
        invariant |rows| == |refPeriods| == |expected| == |observations| == i
        invariant forall m :: 0 <= m < i ==>
          && rows[m] == descriptors[updates[m].series].description
          && refPeriods[m] == updates[m].period
          && expected[m] == Destandardize(updates[m].forecast, descriptors[updates[m].series])
          && observations[m] == Destandardize(updates[m].observation, descriptors[updates[m].series])
      {
        var updt := updates[i];
        var description := descriptors[updt.series];
        rows := rows + [description.description];
        refPeriods := refPeriods + [updt.period];
        expected := expected + [updt.forecast * description.stdev + description.mean];
        observations := observations + [updt.observation * description.stdev + description.mean];
        i := i + 1;
      }
      rows := rows + [ALL_REVISIONS, OLD_FORECAST, NEW_FORECAST];
    }

    /** The column titles: three fixed ones, then one per target period. */
    method CreateColumnTitles(periodText: Period -> string)
      modifies this`titles
      ensures titles == Titles(newPeriods, periodText)
    {
      var periods := newPeriods;
      titles := [REFERENCE_TITLE, EXPECTED_TITLE, OBSERVED_TITLE];
      var i := 0;
      while i < |periods|
        invariant 0 <= i <= |periods|
        invariant titles == [REFERENCE_TITLE, EXPECTED_TITLE, OBSERVED_TITLE]
                            + seq(i, m requires 0 <= m < i => WeightTitle(periodText(periods[m])))
      {
        titles := titles + [WeightTitle(periodText(periods[i]))];
        i := i + 1;
      }
    }
  }
}
