/** app1.py: after "Plot Data" is pressed, a bubble map and four auxiliary
    charts for the whole country, or the map, a bar chart, a top-10 pie chart
    and the same four auxiliary charts for the selected state. */
module App1 {
  import opened Frame
  import opened Sidebar
  import opened Charts

  /** Every active row has a value for the chosen primary metric, so the
      descending sort by it is defined. */
  lemma ActiveRowsHaveMetric(t: Table, selected: string, primary: string)
    requires WellFormed(t) && primary in MetricColumns(t.columns)
    ensures HasMetric(t.rows, primary)
    ensures HasMetric(FilterByState(t.rows, selected), primary)
  {
    FilterMembers(t.rows, selected);
  }

  /** The bar chart's rows: the state's rows sorted by `primary`, largest first. */
  function BarRows(stateDf: seq<Row>, primary: string): (r: seq<Row>)
    requires HasMetric(stateDf, primary)
    ensures multiset(r) == multiset(stateDf)
    ensures HasMetric(r, primary) && NonIncreasing(r, primary)
  {
    SortDescending(stateDf, primary)
  }

  function Min(a: int, b: int): (m: int)
    ensures m <= a && m <= b && (m == a || m == b)
  {
    if a <= b then a else b
  }

  /** `top_districts`: the first ten rows of the descending sort. */
  function TopDistricts(stateDf: seq<Row>, primary: string): (r: seq<Row>)
    requires HasMetric(stateDf, primary)
    ensures |r| == Min(10, |stateDf|)
    ensures r == BarRows(stateDf, primary)[..|r|]
    ensures multiset(r) <= multiset(stateDf)
  {
    TopDominates(stateDf, primary, 10);
    Head(SortDescending(stateDf, primary), 10)
  }

  /** Each district in the pie chart has at least as much of `primary` as each
      district of the state left out of it. */
  lemma TopDistrictsDominate(stateDf: seq<Row>, primary: string)
    requires HasMetric(stateDf, primary)
    ensures var top := TopDistricts(stateDf, primary);
            forall x, y :: x in top && y in multiset(stateDf) - multiset(top) ==>
              primary in x.metrics && primary in y.metrics && Value(x, primary) >= Value(y, primary)
  {
    TopDominates(stateDf, primary, 10);
  }

  /** The histogram, scatter plot, boxplot and correlation heatmap both
      branches draw after their first charts, all over `data`. */
  function AuxiliaryCharts(data: seq<Row>, primary: string, secondary: string, scope: string)
    : (charts: seq<Chart>)
    ensures HasKinds(charts, [Histogram, Scatter, Box, Heatmap])
    ensures AllOver(charts, data)
  {
    [HistogramChart(data, primary),
     ScatterChart(data, primary, secondary, scope),
     BoxChart(data, primary),
     HeatmapChart(data)]
  }

  /** The charts of the whole-country branch: map, histogram, scatter plot,
      boxplot and heatmap, all over the full table; the map uses zoom 4. */
  function OverallPlan(rows: seq<Row>, primary: string, secondary: string): (plan: seq<Chart>)
    ensures HasKinds(plan, [Map, Histogram, Scatter, Box, Heatmap])
    ensures AllOver(plan, rows)
    ensures IsBubbleMap(plan[0], primary, secondary) && plan[0].zoom == Some(4)
    ensures plan[2].title == Some(primary + " vs " + secondary + " in " + Sentinel)
  {
    [MapChart(rows, primary, secondary, 4),
     HistogramChart(rows, primary),
     ScatterChart(rows, primary, secondary, Sentinel),
     BoxChart(rows, primary),
     HeatmapChart(rows)]
  }

  /** The charts of the single-state branch, given the state's rows `stateDf`:
      map, bar chart, pie chart, then the four auxiliary charts. The map and
      the auxiliary charts are drawn over `stateDf`, the bar chart over
      `stateDf` sorted by `primary` and the pie chart over its first ten rows;
      the map uses zoom 5. */
  function StatePlan(stateDf: seq<Row>, barRows: seq<Row>, topRows: seq<Row>,
                     selected: string, primary: string, secondary: string)
    : (plan: seq<Chart>)
    ensures HasKinds(plan, [Map, Bar, Pie, Histogram, Scatter, Box, Heatmap])
    ensures IsBubbleMap(plan[0], primary, secondary) && plan[0].zoom == Some(5)
    ensures plan[0].data == stateDf && AllOver(plan[3..], stateDf)
    ensures plan[1].data == barRows && plan[2].data == topRows
  {
    [MapChart(stateDf, primary, secondary, 5),
     BarChart(barRows, primary, selected),
     PieChart(topRows, primary, selected),
     HistogramChart(stateDf, primary),
     ScatterChart(stateDf, primary, secondary, selected),
     BoxChart(stateDf, primary),
     HeatmapChart(stateDf)]
  }

  /** In the single-state branch the bar chart plots `primary` by District,
      the pie chart slices `primary` by District, the scatter plot puts
      `primary` against `secondary`, and the three titles name the state. */
  lemma StatePlanLabels(stateDf: seq<Row>, barRows: seq<Row>, topRows: seq<Row>,
                        selected: string, primary: string, secondary: string)
    ensures var plan := StatePlan(stateDf, barRows, topRows, selected, primary, secondary);
            && plan[1].x == Some("District") && plan[1].y == Some(primary)
            && plan[1].title == Some(primary + " Across Districts in " + selected)
            && plan[2].names == Some("District") && plan[2].values == Some(primary)
            && plan[2].title == Some("Top 10 Districts in " + selected + " by " + primary)
            && plan[4].x == Some(primary) && plan[4].y == Some(secondary)
            && plan[4].title == Some(primary + " vs " + secondary + " in " + selected)
  {
    ChartTitles(stateDf, primary, secondary, selected);
    ChartTitles(barRows, primary, secondary, selected);
    ChartTitles(topRows, primary, secondary, selected);
  }

  /** The charts app1.py passes to `st.plotly_chart`, in call order: none
      before "Plot Data" is pressed, then five for the whole country or seven
      for one state, always starting with the bubble map. */
  function Plan(t: Table, selected: string, primary: string, secondary: string, plot: bool)
    : (plan: seq<Chart>)
    requires WellFormed(t) && ValidSelection(t, primary, secondary)
    ensures !plot ==> plan == []
    ensures plot ==> |plan| == (if selected == Sentinel then 5 else 7)
    ensures plot ==> IsBubbleMap(plan[0], primary, secondary)
    ensures plot ==> plan[0].zoom == Some(if selected == Sentinel then 4 else 5)
  {
    if !plot then []
    else if selected == Sentinel then OverallPlan(t.rows, primary, secondary)
    else
      ActiveRowsHaveMetric(t, selected, primary);
      var stateDf := FilterByState(t.rows, selected);
      StatePlan(stateDf, BarRows(stateDf, primary), TopDistricts(stateDf, primary),
                selected, primary, secondary)
  }

  /** In the single-state branch the bar chart is drawn over `BarRows` and
      the pie chart over `TopDistricts` of the state's rows, and every chart
      shows only rows of the table whose State is exactly the selected one. */
  lemma StatePlanSubsets(t: Table, selected: string, primary: string, secondary: string)
    requires WellFormed(t) && ValidSelection(t, primary, secondary) && selected != Sentinel
    ensures HasMetric(FilterByState(t.rows, selected), primary)
    ensures var plan := Plan(t, selected, primary, secondary, true);
            var stateDf := FilterByState(t.rows, selected);
            && plan[1].data == BarRows(stateDf, primary)
            && plan[2].data == TopDistricts(stateDf, primary)
            && forall i, r :: 0 <= i < |plan| && r in plan[i].data ==> r in t.rows && r.state == selected
  {
    ActiveRowsHaveMetric(t, selected, primary);
    var stateDf := FilterByState(t.rows, selected);
    var barRows, topRows := BarRows(stateDf, primary), TopDistricts(stateDf, primary);
    var plan := StatePlan(stateDf, barRows, topRows, selected, primary, secondary);
    assert plan == Plan(t, selected, primary, secondary, true);
    ChartsDrawnFrom(plan, stateDf);
    FilterMembers(t.rows, selected);
  }

  /** The single-state branch draws, in this order, the map, bar chart, pie
      chart, histogram, scatter plot, boxplot and heatmap; the map and the
      last four over exactly the table's rows of the selected state. The bar,
      pie and scatter titles name the selected state. */
  lemma StatePlanShape(t: Table, selected: string, primary: string, secondary: string)
    requires WellFormed(t) && ValidSelection(t, primary, secondary) && selected != Sentinel
    ensures var plan := Plan(t, selected, primary, secondary, true);
            var stateDf := FilterByState(t.rows, selected);
            && HasKinds(plan, [Map, Bar, Pie, Histogram, Scatter, Box, Heatmap])
            && plan[0].data == stateDf && AllOver(plan[3..], stateDf)
            && plan[1].title == Some(primary + " Across Districts in " + selected)
            && plan[2].title == Some("Top 10 Districts in " + selected + " by " + primary)
            && plan[4].title == Some(primary + " vs " + secondary + " in " + selected)
  {
    ActiveRowsHaveMetric(t, selected, primary);
    var stateDf := FilterByState(t.rows, selected);
    var barRows, topRows := BarRows(stateDf, primary), TopDistricts(stateDf, primary);
    var plan := StatePlan(stateDf, barRows, topRows, selected, primary, secondary);
    assert plan == Plan(t, selected, primary, secondary, true);
    StatePlanLabels(stateDf, barRows, topRows, selected, primary, secondary);
  }

  /** A state plan whose map and auxiliary charts are drawn over `rows`, its
      bar chart over a permutation and its pie chart over a sub-multiset of
      `rows`, shows only rows of `rows`. */
  lemma ChartsDrawnFrom(plan: seq<Chart>, rows: seq<Row>)
    requires |plan| == 7 && plan[0].data == rows && AllOver(plan[3..], rows)
    requires multiset(plan[1].data) == multiset(rows) && multiset(plan[2].data) <= multiset(rows)
    ensures forall i, r :: 0 <= i < |plan| && r in plan[i].data ==> r in rows
  {
    forall i, r | 0 <= i < |plan| && r in plan[i].data ensures r in rows {
      if i == 1 || i == 2 {
        assert r in multiset(plan[i].data);
      } else if i > 2 {
        assert plan[3..][i - 3] == plan[i];
      }
    }
  }

  /** The whole-country branch draws every chart over the full table, even
      rows whose State is spelled like the sentinel. */
  lemma OverallPlanUsesWholeTable(t: Table, primary: string, secondary: string)
    requires WellFormed(t) && ValidSelection(t, primary, secondary)
    ensures var plan := Plan(t, Sentinel, primary, secondary, true);
            HasKinds(plan, [Map, Histogram, Scatter, Box, Heatmap]) && AllOver(plan, t.rows)
  {
  }

  method PlotOverall(rows: seq<Row>, primary: string, secondary: string) returns (rendered: seq<Chart>)
    ensures rendered == OverallPlan(rows, primary, secondary)
  {
    rendered := [];
    var fig := MapChart(rows, primary, secondary, 4);
    rendered := rendered + [fig];
    var histFig := HistogramChart(rows, primary);
    rendered := rendered + [histFig];
    var scatterFig := ScatterChart(rows, primary, secondary, Sentinel);
    rendered := rendered + [scatterFig];
    var boxFig := BoxChart(rows, primary);
    rendered := rendered + [boxFig];
    var heatmapFig := HeatmapChart(rows);
    rendered := rendered + [heatmapFig];
    assert rendered == [fig, histFig, scatterFig, boxFig, heatmapFig];
  }

  method PlotState(stateDf: seq<Row>, selected: string, primary: string, secondary: string)
    returns (rendered: seq<Chart>)
    requires HasMetric(stateDf, primary)
    ensures rendered == StatePlan(stateDf, BarRows(stateDf, primary), TopDistricts(stateDf, primary),
                                  selected, primary, secondary)
  {
    rendered := [];
    var fig := MapChart(stateDf, primary, secondary, 5);
    rendered := rendered + [fig];
    var barRows := BarRows(stateDf, primary);
    var barFig := BarChart(barRows, primary, selected);
    rendered := rendered + [barFig];
    var topDistricts := TopDistricts(stateDf, primary);
    var pieFig := PieChart(topDistricts, primary, selected);
    rendered := rendered + [pieFig];
    var histFig := HistogramChart(stateDf, primary);
    rendered := rendered + [histFig];
    var scatterFig := ScatterChart(stateDf, primary, secondary, selected);
    rendered := rendered + [scatterFig];
    var boxFig := BoxChart(stateDf, primary);
    rendered := rendered + [boxFig];
    var heatmapFig := HeatmapChart(stateDf);
    rendered := rendered + [heatmapFig];
    StatePlanLiteral(stateDf, barRows, topDistricts, selected, primary, secondary);
  }

  lemma StatePlanLiteral(stateDf: seq<Row>, barRows: seq<Row>, topRows: seq<Row>,
                         selected: string, primary: string, secondary: string)
    ensures StatePlan(stateDf, barRows, topRows, selected, primary, secondary) ==
              [] + [MapChart(stateDf, primary, secondary, 5)] + [BarChart(barRows, primary, selected)]
              + [PieChart(topRows, primary, selected)] + [HistogramChart(stateDf, primary)]
              + [ScatterChart(stateDf, primary, secondary, selected)] + [BoxChart(stateDf, primary)]
              + [HeatmapChart(stateDf)]
  {
  }

  /** The plot logic as app1.py runs it: one `st.plotly_chart` call per
      chart, each appending to the charts rendered so far. */
  method PlotLogic(t: Table, selected: string, primary: string, secondary: string, plot: bool)
    returns (rendered: seq<Chart>)
    requires WellFormed(t) && ValidSelection(t, primary, secondary)
    ensures rendered == Plan(t, selected, primary, secondary, plot)
  {
    rendered := [];
    if plot {
      if selected == Sentinel {
        rendered := PlotOverall(t.rows, primary, secondary);
      } else {
        var stateDf := FilterByState(t.rows, selected);
        ActiveRowsHaveMetric(t, selected, primary);
        rendered := PlotState(stateDf, selected, primary, secondary);
      }
    }
  }
}
