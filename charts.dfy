/** The chart descriptions the scripts hand to `st.plotly_chart`, one per call:
    which plotly express function draws it, over which rows, which column
    feeds each visual channel, the map zoom and the title. Plotly itself
    (layout, binning, percentages, correlation) is not modelled. */
module Charts {
  import opened Frame

  datatype Option<T> = None | Some(value: T)

  /** `scatter_mapbox`, `bar`, `pie`, `histogram`, `scatter`, `box`, `imshow`. */
  datatype Kind = Map | Bar | Pie | Histogram | Scatter | Box | Heatmap

  /** A column bound to a channel is `Some(name)`; an unbound channel is `None`. */
  datatype Chart = Chart(
    kind: Kind,
    data: seq<Row>,
    lat: Option<string>,
    lon: Option<string>,
    x: Option<string>,
    y: Option<string>,
    size: Option<string>,
    color: Option<string>,
    hover: Option<string>,
    names: Option<string>,
    values: Option<string>,
    zoom: Option<nat>,
    title: Option<string>)

  function Blank(kind: Kind, data: seq<Row>): (c: Chart)
    ensures c.kind == kind && c.data == data
  {
    Chart(kind, data, None, None, None, None, None, None, None, None, None, None, None)
  }

  /** `px.scatter_mapbox(data, lat='Latitude', lon='Longitude', size=size, color=color, zoom=zoom)`. */
  function MapChart(data: seq<Row>, size: string, color: string, zoom: nat): (c: Chart)
    ensures c.data == data && IsBubbleMap(c, size, color) && c.zoom == Some(zoom)
    ensures c.title == None
  {
    Blank(Map, data).(lat := Some("Latitude"), lon := Some("Longitude"),
                      size := Some(size), color := Some(color), zoom := Some(zoom))
  }

  /** `px.histogram(data, x=primary, title=f'Distribution of {primary}')`. */
  function HistogramChart(data: seq<Row>, primary: string): (c: Chart)
    ensures c.kind == Histogram && c.data == data && c.x == Some(primary)
  {
    Blank(Histogram, data).(x := Some(primary), title := Some("Distribution of " + primary))
  }

  /** `px.scatter(data, x=primary, y=secondary, color='District', size=primary,
      hover_name='District', title=f'{primary} vs {secondary} in {scope}')`. */
  function ScatterChart(data: seq<Row>, primary: string, secondary: string, scope: string): (c: Chart)
    ensures c.kind == Scatter && c.data == data
    ensures c.x == Some(primary) && c.y == Some(secondary) && c.size == Some(primary)
    ensures c.color == Some("District") && c.hover == Some("District")
  {
    Blank(Scatter, data).(x := Some(primary), y := Some(secondary), color := Some("District"),
                          size := Some(primary), hover := Some("District"),
                          title := Some(primary + " vs " + secondary + " in " + scope))
  }

  /** `px.box(data, x='District', y=primary, title=f'Boxplot of {primary} across Districts')`. */
  function BoxChart(data: seq<Row>, primary: string): (c: Chart)
    ensures c.kind == Box && c.data == data && c.x == Some("District") && c.y == Some(primary)
  {
    Blank(Box, data).(x := Some("District"), y := Some(primary),
                      title := Some("Boxplot of " + primary + " across Districts"))
  }

  /** `px.imshow` of the correlation matrix of the numeric columns of `data`;
      only the rows it is computed from are recorded. */
  function HeatmapChart(data: seq<Row>): (c: Chart)
    ensures c.kind == Heatmap && c.data == data && c.x == None && c.y == None
  {
    Blank(Heatmap, data).(title := Some("Correlation of Census Metrics"))
  }

  /** `px.bar(data, x='District', y=primary, color=primary,
      title=f'{primary} Across Districts in {scope}')`. */
  function BarChart(data: seq<Row>, primary: string, scope: string): (c: Chart)
    ensures c.kind == Bar && c.data == data && c.x == Some("District") && c.y == Some(primary)
    ensures c.color == Some(primary)
  {
    Blank(Bar, data).(x := Some("District"), y := Some(primary), color := Some(primary),
                      title := Some(primary + " Across Districts in " + scope))
  }

  /** `px.pie(data, names='District', values=primary,
      title=f'Top 10 Districts in {scope} by {primary}')`. */
  function PieChart(data: seq<Row>, primary: string, scope: string): (c: Chart)
    ensures c.kind == Pie && c.data == data
    ensures c.names == Some("District") && c.values == Some(primary)
  {
    Blank(Pie, data).(names := Some("District"), values := Some(primary),
                      title := Some("Top 10 Districts in " + scope + " by " + primary))
  }

  /** The titles the scripts give their charts, with `primary`, `secondary`
      and the selected entry `scope` substituted into the f-strings. */
  lemma ChartTitles(data: seq<Row>, primary: string, secondary: string, scope: string)
    ensures HistogramChart(data, primary).title == Some("Distribution of " + primary)
    ensures ScatterChart(data, primary, secondary, scope).title ==
              Some(primary + " vs " + secondary + " in " + scope)
    ensures BoxChart(data, primary).title == Some("Boxplot of " + primary + " across Districts")
    ensures HeatmapChart(data).title == Some("Correlation of Census Metrics")
    ensures BarChart(data, primary, scope).title == Some(primary + " Across Districts in " + scope)
    ensures PieChart(data, primary, scope).title == Some("Top 10 Districts in " + scope + " by " + primary)
  {
  }

  /** The chart is the bubble map: position from Latitude/Longitude, bubble
      size from `primary`, bubble colour from `secondary`. */
  predicate IsBubbleMap(c: Chart, primary: string, secondary: string) {
    c.kind == Map && c.lat == Some("Latitude") && c.lon == Some("Longitude")
    && c.size == Some(primary) && c.color == Some(secondary)
  }

  /** The charts are of the given kinds, in the given order. */
  predicate HasKinds(plan: seq<Chart>, kinds: seq<Kind>) {
    |plan| == |kinds| && forall i :: 0 <= i < |plan| ==> plan[i].kind == kinds[i]
  }

  /** Every chart is drawn over exactly the rows `data`. */
  predicate AllOver(plan: seq<Chart>, data: seq<Row>) {
    forall i :: 0 <= i < |plan| ==> plan[i].data == data
  }
}
