/** The two option lists both scripts offer in the sidebar: the states, with
    the "Overall INDIA" entry in front, and the metric columns, sorted. */
module Sidebar {
  import opened Frame

  /** The entry that selects the whole country rather than one state. */
  const Sentinel: string := "Overall INDIA"

  // ---------------------------------------------------------------------
  // Python's ordering of str values
  // ---------------------------------------------------------------------

  /** `a <= b` on Python strings: code point by code point, a proper prefix first. */
  predicate LexLe(a: string, b: string) {
    |a| == 0 || (|b| > 0 && (a[0] < b[0] || (a[0] == b[0] && LexLe(a[1..], b[1..]))))
  }

  lemma {:induction false} LexLeTotal(a: string, b: string)
    ensures LexLe(a, b) || LexLe(b, a)
  {
    if |a| > 0 && |b| > 0 && a[0] == b[0] {
      LexLeTotal(a[1..], b[1..]);
    }
  }

  lemma {:induction false} LexLeTransitive(a: string, b: string, c: string)
    requires LexLe(a, b) && LexLe(b, c)
    ensures LexLe(a, c)
  {
    if |a| > 0 && a[0] == b[0] && b[0] == c[0] {
      LexLeTransitive(a[1..], b[1..], c[1..]);
    }
  }

  lemma {:induction false} LexLeAntisymmetric(a: string, b: string)
    requires LexLe(a, b) && LexLe(b, a)
    ensures a == b
  {
    if |a| > 0 {
      LexLeAntisymmetric(a[1..], b[1..]);
      assert a == [a[0]] + a[1..] && b == [b[0]] + b[1..];
    }
  }

  /** Upper case sorts before lower case (by code point), and a proper
      prefix sorts first. */
  lemma LexLeExamples()
    ensures LexLe("Z", "a") && !LexLe("a", "Z")
    ensures LexLe("Area", "Area_km2") && !LexLe("Area_km2", "Area")
  {
  }

  predicate SortedStrings(s: seq<string>) {
    forall i, j :: 0 <= i < j < |s| ==> LexLe(s[i], s[j])
  }

  lemma FirstIsLeast(s: seq<string>)
    requires SortedStrings(s)
    ensures forall y :: y in s ==> LexLe(s[0], y)
  {
    forall y | y in s ensures LexLe(s[0], y) {
      var k :| 0 <= k < |s| && s[k] == y;
      if k == 0 {
        LexLeTotal(y, y);
      }
    }
  }

  lemma ConsSorted(a: string, rest: seq<string>)
    requires SortedStrings(rest)
    requires forall y :: y in rest ==> LexLe(a, y)
    ensures SortedStrings([a] + rest)
  {
  }

  function InsertString(x: string, s: seq<string>): (r: seq<string>)
    requires SortedStrings(s)
    ensures multiset(r) == multiset(s) + multiset{x}
    ensures SortedStrings(r)
  {
    if |s| == 0 then
      [x]
    else if LexLe(x, s[0]) then
      FirstIsLeast(s);
      forall y | y in s ensures LexLe(x, y) {
        LexLeTransitive(x, s[0], y);
      }
      ConsSorted(x, s);
      [x] + s
    else
      var rest := InsertString(x, s[1..]);
      assert s == [s[0]] + s[1..];
      LexLeTotal(x, s[0]);
      FirstIsLeast(s);
      assert forall y :: y in rest ==> y in multiset(s[1..]) + multiset{x};
      ConsSorted(s[0], rest);
      [s[0]] + rest
  }

  /** Python's `sorted` on a list of strings: the same strings in ascending order. */
  function SortStrings(s: seq<string>): (r: seq<string>)
    ensures multiset(r) == multiset(s)
    ensures SortedStrings(r)
  {
    if |s| == 0 then []
    else
      assert s == [s[0]] + s[1..];
      InsertString(s[0], SortStrings(s[1..]))
  }

  /** Two sorted orderings of the same strings are the same sequence. */
  lemma {:induction false} SortedUnique(a: seq<string>, b: seq<string>)
    requires SortedStrings(a) && SortedStrings(b) && multiset(a) == multiset(b)
    ensures a == b
  {
    assert |a| == |multiset(a)| == |multiset(b)| == |b|;
    if |a| > 0 {
      SameLeast(a, b);
      var x := a[0];
      assert a == [x] + a[1..] && b == [x] + b[1..];
      assert multiset(a[1..]) == multiset(a) - multiset{x};
      assert multiset(b[1..]) == multiset(b) - multiset{x};
      TailSorted(a);
      TailSorted(b);
      SortedUnique(a[1..], b[1..]);
    }
  }

  /** Two sorted orderings of the same non-empty strings start alike. */
  lemma SameLeast(a: seq<string>, b: seq<string>)
    requires |a| > 0 && |b| > 0
    requires SortedStrings(a) && SortedStrings(b) && multiset(a) == multiset(b)
    ensures a[0] == b[0]
  {
    assert a[0] in multiset(b) && b[0] in multiset(a);
    FirstIsLeast(a);
    FirstIsLeast(b);
    LexLeAntisymmetric(a[0], b[0]);
  }

  lemma TailSorted(s: seq<string>)
    requires |s| > 0 && SortedStrings(s)
    ensures SortedStrings(s[1..])
  {
    forall i, j | 0 <= i < j < |s| - 1 ensures LexLe(s[1..][i], s[1..][j]) {
      assert s[1..][i] == s[i + 1] && s[1..][j] == s[j + 1];
    }
  }

  /** `sorted` has exactly one possible result: every ascending
      rearrangement of `s` is `SortStrings(s)`. */
  lemma SortStringsUnique(s: seq<string>, r: seq<string>)
    requires SortedStrings(r) && multiset(r) == multiset(s)
    ensures r == SortStrings(s)
  {
    SortedUnique(r, SortStrings(s));
  }

  // ---------------------------------------------------------------------
  // Metric columns
  // ---------------------------------------------------------------------

  /** `df.columns[5:]`: the header from position 5 on; empty when the header is shorter. */
  function MetricSlice(columns: seq<string>): (r: seq<string>)
    ensures |r| == (if |columns| <= 5 then 0 else |columns| - 5)
    ensures forall i :: 0 <= i < |r| ==> r[i] == columns[i + 5]
  {
    if |columns| <= 5 then [] else columns[5..]
  }

  /** `sorted(df.columns[5:])`: the columns from position 5 on, in ascending
      string order. */
  function MetricColumns(columns: seq<string>): (r: seq<string>)
    ensures SortedStrings(r)
    ensures multiset(r) == multiset(MetricSlice(columns))
    ensures forall c :: c in r <==> c in MetricSlice(columns)
  {
    var r := SortStrings(MetricSlice(columns));
    forall c ensures c in r <==> c in MetricSlice(columns) {
      assert c in r <==> c in multiset(r);
      assert c in MetricSlice(columns) <==> c in multiset(MetricSlice(columns));
    }
    r
  }

  /** With distinct header names (pandas renames repeated names on load) no
      column of the first five is offered as a metric, and the offered
      metrics are distinct. */
  lemma MetricColumnsExcludeFixed(columns: seq<string>)
    requires NoDup(columns)
    ensures forall i :: 0 <= i < |columns| && i < 5 ==> columns[i] !in MetricColumns(columns)
    ensures NoDup(MetricColumns(columns))
  {
    var sl, r := MetricSlice(columns), MetricColumns(columns);
    assert NoDup(sl) by {
      if |columns| > 5 {
        forall i, j | 0 <= i < j < |sl| ensures sl[i] != sl[j] {
          assert sl[i] == columns[5 + i] && sl[j] == columns[5 + j];
        }
      }
    }
    forall i, j | 0 <= i < j < |r| ensures r[i] != r[j] {
      if r[i] == r[j] {
        RepeatCount(r, i, j);
        NoDupCount(sl, r[i]);
      }
    }
  }

  lemma RepeatCount(s: seq<string>, i: nat, j: nat)
    requires i < j < |s| && s[i] == s[j]
    ensures multiset(s)[s[i]] >= 2
  {
    assert s == s[..i] + [s[i]] + s[i + 1..j] + [s[j]] + s[j + 1..];
  }

  lemma {:induction false} NoDupCount(s: seq<string>, x: string)
    requires NoDup(s)
    ensures multiset(s)[x] <= 1
  {
    if |s| > 0 {
      assert s == [s[0]] + s[1..];
      NoDupCount(s[1..], x);
      if s[0] == x {
        assert x !in s[1..];
      }
    }
  }

  /** Every row has a value for each metric column. */
  predicate WellFormed(t: Table) {
    forall r, c :: r in t.rows && c in MetricSlice(t.columns) ==> c in r.metrics
  }

  /** Both chosen metrics are among the offered ones, as the select boxes ensure. */
  predicate ValidSelection(t: Table, primary: string, secondary: string) {
    primary in MetricColumns(t.columns) && secondary in MetricColumns(t.columns)
  }

  // ---------------------------------------------------------------------
  // State list
  // ---------------------------------------------------------------------

  /** `list(df['State'].unique())` followed by `insert(0, 'Overall INDIA')`. */
  method ListOfStates(t: Table) returns (states: seq<string>)
    ensures |states| == |Distinct(StateColumn(t.rows))| + 1
    ensures states[0] == Sentinel
    ensures forall x :: x in states[1..] <==> x in StateColumn(t.rows)
    ensures NoDup(states[1..])
    ensures forall i, j :: 0 <= i < j < |states| - 1 ==>
              FirstIndex(StateColumn(t.rows), states[1..][i]) <
              FirstIndex(StateColumn(t.rows), states[1..][j])
    ensures NoDup(states) <==> Sentinel !in StateColumn(t.rows)
  {
    var column := StateColumn(t.rows);
    states := Unique(column);
    UniqueLength(column);
    UniqueFirstAppearance(column);
    var unique := states;
    states := [Sentinel] + states;
    assert states[1..] == unique;
    if Sentinel in column {
      assert states[0] == states[1 + FirstIndex(unique, Sentinel)];
    } else {
      forall i, j | 0 <= i < j < |states| ensures states[i] != states[j] {
        assert states[j] == unique[j - 1];
        if i > 0 {
          assert states[i] == unique[i - 1];
        }
      }
    }
  }
}
