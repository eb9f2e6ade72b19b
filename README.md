# India census dashboard: from sidebar selection to charts

Two Streamlit scripts draw the 2011 Indian census table (one row per
district) as charts. They share the same sidebar:

- a state select box listing every distinct State in row order, behind the
  entry "Overall INDIA";
- two metric select boxes (primary and secondary), both listing the header
  columns from position 5 on, sorted;
- a "Plot Data" button.

When the button is pressed, `app1.py` draws one of two sets of charts:

- for "Overall INDIA", five charts over the whole table: a bubble map at
  zoom 4, then a histogram, a scatter plot, a boxplot and a correlation
  heatmap;
- for one state, seven charts over that state's rows: a bubble map at
  zoom 5, a bar chart of the rows sorted by the primary metric (largest
  first), a pie chart of the first ten of those rows, then the same four
  charts.

`app.py` is the smaller script. It draws only the bubble map, at zoom 4,
in both cases.

The project models the path from a selection to the list of charts handed
to `st.plotly_chart`. Each chart is recorded as its plotly express function,
its rows, its channel bindings (lat/lon/x/y/size/color/hover/names/values),
its zoom and its title.

Files and modules:

- `frame.dfy` (`Frame`): the table operations.
  - `Series.unique` is `Unique`.
  - `df[df['State'] == s]` is `FilterByState`, with the independent index description `MatchIndices`.
  - `sort_values(m, ascending=False)` is `SortDescending`.
  - `head` is `Head`.
- `sidebar.dfy` (`Sidebar`): the sidebar lists.
  - The sentinel and Python's string order, used for `sorted`.
  - The metric columns and the state list.
- `charts.dfy` (`Charts`): the chart record and one builder per plotly express call.
- `app1.py` is modelled in `app1.dfy` (`App1`).
  - `Plan` states which charts are drawn.
  - `PlotLogic` appends the charts one `st.plotly_chart` call at a time and is proved to produce exactly `Plan`.
- `app.py` is modelled in `app.dfy` (`App`) in the same way.
  - `MapMatchesApp1` relates its one chart to app1.py's first chart.

Two decisions follow the code:

- Metric names. Neither script rejects a metric name: the values come only from the select boxes, which offer `metric_columns`. So `App1.Plan` requires a valid selection (`ValidSelection`). `App.Plan` needs none, since it never reads a metric value.
- Tie order. `sort_values` uses pandas' default quicksort, which is not stable, so no order among rows with equal metric values is claimed.

## Model

| member | source | states |
|---|---|---|
| Frame.Unique | app1.py:25 | `df['State'].unique()` holds exactly the values of the column, each once |
| Frame.UniqueFirstAppearance | app1.py:25 | the unique values come in the order of their first occurrence in the column |
| Frame.UniqueLength | app1.py:25 | the number of unique values is the number of distinct States |
| Frame.StateColumn | app1.py:25 | `df['State']` has one entry per row, the row's State, in row order |
| Sidebar.ListOfStates | app1.py:25-26 | the state list is the sentinel followed by the distinct States in first-appearance order, so its length is (distinct States) + 1; it is duplicate-free exactly when no row's State is spelled "Overall INDIA" |
| Sidebar.SortStrings | app1.py:27 | `sorted` returns a permutation of its input in ascending str order |
| Sidebar.LexLeTotal | app1.py:27 | Python's `str` comparison `LexLe` (code point by code point, a proper prefix first) relates any two strings one way or the other |
| Sidebar.LexLeTransitive | app1.py:27 | the `str` comparison is transitive |
| Sidebar.LexLeAntisymmetric | app1.py:27 | two strings each at most the other are equal |
| Sidebar.LexLeExamples | app1.py:27 | "Z" sorts before "a" (code-point order, upper case first) and "Area" before "Area_km2" (a proper prefix first) |
| Sidebar.SortedUnique | app1.py:27 | two ascending orderings of the same strings are equal, so a sorted permutation is unique |
| Sidebar.SortStringsUnique | app1.py:27 | every ascending rearrangement of the columns is `SortStrings` of them, so `SortStrings` is exactly Python's `sorted` |
| Sidebar.MetricSlice | app1.py:27 | `df.columns[5:]` holds the header from position 5 on, in header order, and is empty for a header of at most five columns |
| Sidebar.MetricColumns | app1.py:27 | `metric_columns` is sorted, and holds exactly the columns from position 5 on (the same multiset) |
| Sidebar.MetricColumnsExcludeFixed | app1.py:27 | with distinct header names, none of the first five columns is offered and the offered metrics are distinct |
| Frame.FilterByState | app1.py:91 | the filtered rows are no more than, and a sub-multiset of, the table's rows |
| Frame.MatchIndices | app1.py:91 | the reference description: increasing positions, exactly the rows whose State equals the selection |
| Frame.FilterMatchesIndices | app1.py:91 | the filter returns exactly the rows at `MatchIndices`, in that order (exact, complete, order-preserving) |
| Frame.FilterCounts | app1.py:91 | each row with the selected State is kept as often as it occurs; no other row is kept |
| Frame.FilterMembers | app1.py:91 | a row is in `state_df` if and only if it is in the table and its State is the selection |
| Frame.FilterIdempotent | app1.py:91 | filtering twice by the same State gives the same rows |
| Frame.SortDescending | app1.py:98 | the descending sort is a permutation of its input in which the metric never increases |
| Frame.TopDominates | app1.py:104 | `head(k)` of the descending sort has min(k, n) rows, is a sub-multiset of the rows, and every kept row's metric is at least every left-out row's |
| Frame.Head | app1.py:104 | `head(k)` is the prefix of length min(k, n) |
| App1.ActiveRowsHaveMetric | app1.py:27-33 | a primary metric chosen from `metric_columns` has a value in every row and every state row, so the sort is defined |
| App1.BarRows | app1.py:98-100 | the bar chart's rows are all the state's rows, largest primary value first |
| App1.TopDistricts | app1.py:104 | `top_districts` has min(10, n) rows, is a prefix of the bar chart's rows and is drawn from the state's rows |
| App1.TopDistrictsDominate | app1.py:104 | every district in the pie chart has at least the primary value of each of the state's districts left out |
| App1.AuxiliaryCharts | app1.py:60-81 | histogram, scatter plot, boxplot and heatmap, in that order, all over the rows given |
| App1.OverallPlan | app1.py:55-81 | the whole-country branch draws the map, histogram, scatter plot, boxplot and heatmap in that order, all over the full table, with the map at zoom 4 binding size to primary and colour to secondary; the scatter title reads "… in Overall INDIA" |
| App1.StatePlan | app1.py:90-130 | the state branch draws the map, bar, pie, histogram, scatter plot, boxplot and heatmap in that order: the map (zoom 5) and the last four over the state's rows, the bar and pie charts over the rows given for them; the bar chart plots primary by District, the pie chart slices primary by District, the scatter plot puts primary against secondary, and the bar, pie and scatter titles name the selected state |
| App1.StatePlanLabels | app1.py:98-118 | in the state branch the bar chart has x = District and y = primary, the pie chart names = District and values = primary, the scatter plot x = primary and y = secondary, and their titles are the f-strings with the selected state substituted |
| App1.Plan | app1.py:37-130 | nothing is drawn until "Plot Data" is pressed; then 5 charts for the sentinel or 7 for a state, always starting with the bubble map, at zoom 4 or 5 respectively |
| App1.StatePlanShape | app1.py:90-130 | for a selected state, `Plan` holds the seven kinds in source order; the map and the last four charts are drawn over exactly `df[df['State'] == selected_state]`, and the bar, pie and scatter titles name the state |
| App1.StatePlanSubsets | app1.py:90-107 | in the state branch the bar chart shows `BarRows`, the pie chart `TopDistricts`, and every chart shows only rows of the table whose State is the selected one |
| App1.OverallPlanUsesWholeTable | app1.py:55-81 | for the sentinel every one of the five charts is drawn over the whole table |
| App1.PlotOverall | app1.py:55-81 | appending the five whole-country charts one call at a time yields `OverallPlan` |
| App1.PlotState | app1.py:90-130 | appending the seven state charts one call at a time yields `StatePlan` over the sorted rows and their first ten |
| App1.PlotLogic | app1.py:37-130 | the charts passed to `st.plotly_chart`, in call order, are exactly `App1.Plan` |
| App.SidebarOptions | app.py:13-20 | app.py offers the same state list (sentinel first, distinct States in first-appearance order, duplicate-free exactly when no State is spelled "Overall INDIA"), and the primary and secondary option lists are equal, sorted, and hold the columns from position 5 on |
| App.MapRows | app.py:45-53 | the map's rows are the whole table for the sentinel, otherwise `FilterByState` of the table (so every `Frame` filter lemma applies): exactly the table rows with the selected State |
| App.Plan | app.py:40-59 | nothing is drawn until "Plot Data" is pressed; then exactly one bubble map at zoom 4 over `MapRows`, size bound to primary and colour to secondary; the same metric may be chosen for both |
| App.PlotLogic | app.py:40-59 | the charts passed to `st.plotly_chart` are exactly `App.Plan` |
| App.MapMatchesApp1 | app.py:45-59 | app.py's map is app1.py's first chart with zoom 4; the two are equal exactly in the whole-country branch |
| Charts.MapChart | app1.py:92-93 | `px.scatter_mapbox` (also app1.py:56-57 and app.py:48-49, 55-56): the rows given, lat/lon bound to Latitude/Longitude, size to the primary and colour to the secondary metric, the given zoom, no title |
| Charts.HistogramChart | app1.py:62 | `px.histogram` (also app1.py:111): the rows given, x bound to primary |
| Charts.ScatterChart | app1.py:67-69 | `px.scatter` (also app1.py:116-118): the rows given, x = primary, y = secondary, size = primary, colour and hover name = District |
| Charts.BoxChart | app1.py:74 | `px.box` (also app1.py:123): the rows given, x = District, y = primary |
| Charts.HeatmapChart | app1.py:79-80 | `px.imshow` of the correlation matrix (also app1.py:128-129): only the rows it is computed from, no x/y channel |
| Charts.BarChart | app1.py:98-100 | `px.bar`: the rows given, x = District, y = primary, colour = primary |
| Charts.PieChart | app1.py:105-106 | `px.pie`: the rows given, names = District, values = primary |
| Charts.ChartTitles | app1.py:62-129 | the title of each chart is its f-string, with primary, secondary and the selected entry substituted |

## Left out

- Page configuration, titles, markdown headings, captions, `st.text` lines, the sidebar success message and `time.sleep`: they change no chart.
- Streamlit's rerun of the whole script on each interaction is not modelled. A run is one pass, with the select box values and the button state as inputs.
- `pd.read_csv`: the loaded table is a parameter (`Table`). Metric values are integers. Float columns and missing values are not modelled.
- Latitude/Longitude values: they are floats and only ever passed to plotly by name, so the model records only the column names bound to `lat`/`lon`.
- Rendering parameters (`size_max=35`, `mapbox_style`, `width`/`height`, `nbins=30`, `text_auto`, `aspect`, `use_container_width`): plotly drawing only.
- The heatmap's contents (`select_dtypes(...).corr()`): floating-point statistics. The model records only the rows the matrix is computed from and its title.
- `fig.update_layout(uirevision='constant')` in app.py:57: a layout setting that does not change the chart data.
- The commented-out line chart in app1.py:83-87 and app1.py:132-136: it is not code.
- Frame.SortDescending: does not fix the order of rows with equal metric values. pandas' default quicksort leaves that order unspecified, so only "permutation, non-increasing" is stated. The insertion sort is one admissible order.
- App1.BarRows: for the same reason, states the bar chart's rows only up to the order of ties.
- App1.Plan: requires a valid selection (`ValidSelection` and `WellFormed`).
  - The select boxes guarantee the metric part whenever the header has more than five columns.
  - An empty metric list is not covered. With five or fewer columns, `metric_columns` is empty and the select boxes return None (app1.py:32-33), which the model cannot represent.
  - Every row has a value for every metric column because `read_csv` returns a rectangular frame. Missing values are not modelled.
- Sidebar.MetricColumnsExcludeFixed: assumes distinct header names, as pandas renames repeated ones when it loads a CSV file.
