/** app.py: the smaller script, with the same sidebar and, after "Plot Data"
    is pressed, a single bubble map over the whole country or over the
    selected state, both at zoom 4. */
module App {
  import opened Frame
  import opened Sidebar
  import opened Charts
  import App1

  /** The three option lists of the sidebar: the states with the sentinel in
      front, and `sorted(df.columns[5:])` computed once for the primary and
      once for the secondary select box. */
  method SidebarOptions(t: Table)
    returns (states: seq<string>, primaryOptions: seq<string>, secondaryOptions: seq<string>)
    ensures |states| == |Distinct(StateColumn(t.rows))| + 1 && states[0] == Sentinel
    ensures forall x :: x in states[1..] <==> x in StateColumn(t.rows)
    ensures NoDup(states[1..])
    ensures forall i, j :: 0 <= i < j < |states| - 1 ==>
              FirstIndex(StateColumn(t.rows), states[1..][i]) <
              FirstIndex(StateColumn(t.rows), states[1..][j])
    ensures NoDup(states) <==> Sentinel !in StateColumn(t.rows)
    ensures primaryOptions == secondaryOptions
    ensures SortedStrings(primaryOptions)
    ensures multiset(primaryOptions) == multiset(MetricSlice(t.columns))
  {
    states := ListOfStates(t);
    primaryOptions := MetricColumns(t.columns);
    secondaryOptions := MetricColumns(t.columns);
  }

  /** The rows the map of app.py is drawn over: the whole table for the
      sentinel, otherwise `df[df['State'] == selected_state]`. */
  function MapRows(t: Table, selected: string): (rows: seq<Row>)
    ensures selected == Sentinel ==> rows == t.rows
    ensures selected != Sentinel ==> rows == FilterByState(t.rows, selected)
    ensures selected != Sentinel ==>
              forall r :: r in rows <==> r in t.rows && r.state == selected
  {
    FilterMembers(t.rows, selected);
    if selected == Sentinel then t.rows else FilterByState(t.rows, selected)
  }

  /** The charts app.py passes to `st.plotly_chart`: none before "Plot Data"
      is pressed, then exactly one bubble map at zoom 4 in either branch. */
  function Plan(t: Table, selected: string, primary: string, secondary: string, plot: bool)
    : (plan: seq<Chart>)
    ensures !plot ==> plan == []
    ensures plot ==> |plan| == 1 && IsBubbleMap(plan[0], primary, secondary)
    ensures plot ==> plan[0].zoom == Some(4) && plan[0].data == MapRows(t, selected)
  {
    if plot then [MapChart(MapRows(t, selected), primary, secondary, 4)] else []
  }

  /** The plot logic as app.py runs it: one `st.plotly_chart` call in either branch. */
  method PlotLogic(t: Table, selected: string, primary: string, secondary: string, plot: bool)
    returns (rendered: seq<Chart>)
    ensures rendered == Plan(t, selected, primary, secondary, plot)
  {
    rendered := [];
    if plot {
      if selected == Sentinel {
        var fig := MapChart(t.rows, primary, secondary, 4);
        rendered := rendered + [fig];
      } else {
        var stateDf := FilterByState(t.rows, selected);
        var fig := MapChart(stateDf, primary, secondary, 4);
        rendered := rendered + [fig];
      }
    }
  }

  /** app.py's only chart is app1.py's first chart, except that for a single
      state app1.py zooms in to 5 where app.py stays at 4. */
  lemma MapMatchesApp1(t: Table, selected: string, primary: string, secondary: string)
    requires WellFormed(t) && ValidSelection(t, primary, secondary)
    ensures var plan, plan1 := Plan(t, selected, primary, secondary, true),
                               App1.Plan(t, selected, primary, secondary, true);
            plan[0] == plan1[0].(zoom := Some(4))
            && (selected == Sentinel <==> plan[0] == plan1[0])
  {
  }
}
