/** The table operations the two dashboard scripts apply to the census data:
    the distinct values of the State column (`Series.unique`), boolean-mask
    row selection (`df[df['State'] == s]`), the descending sort by one metric
    (`sort_values(m, ascending=False)`) and taking the first rows (`head`).
    Every operation returns a new sequence; nothing is updated in place. */
module Frame {

  /** One district of the census table. Metric values are integers keyed by
      column name; latitude and longitude are only ever named, never read. */
  datatype Row = Row(state: string, district: string, metrics: map<string, int>)

  /** The loaded table: the header in file order and the rows in file order. */
  datatype Table = Table(columns: seq<string>, rows: seq<Row>)

  predicate HasMetric(rows: seq<Row>, m: string) {
    forall r :: r in rows ==> m in r.metrics
  }

  function Value(r: Row, m: string): (v: int)
    requires m in r.metrics
  {
    r.metrics[m]
  }

  /** `df['State']`: the State value of every row, in row order. */
  function StateColumn(rows: seq<Row>): (c: seq<string>)
    ensures |c| == |rows| && forall i :: 0 <= i < |rows| ==> c[i] == rows[i].state
  {
    seq(|rows|, i requires 0 <= i < |rows| => rows[i].state)
  }

  predicate NoDup(s: seq<string>) {
    forall i, j :: 0 <= i < j < |s| ==> s[i] != s[j]
  }

  function Distinct(s: seq<string>): (d: set<string>)
    ensures forall x :: x in d <==> x in s
  {
    set x | x in s
  }

  // ---------------------------------------------------------------------
  // Series.unique
  // ---------------------------------------------------------------------

  /** The position at which `x` first occurs in `s`. */
  function FirstIndex(s: seq<string>, x: string): (i: nat)
    requires x in s
    ensures i < |s| && s[i] == x && x !in s[..i]
  {
    if s[0] == x then 0
    else
      var i := FirstIndex(s[1..], x);
      assert s[..i + 1] == [s[0]] + s[1..][..i];
      i + 1
  }

  /** The distinct values of `s`, kept in the order in which each first
      occurs (pandas' `unique` does not sort). */
  function Unique(s: seq<string>): (u: seq<string>)
    ensures forall x :: x in u <==> x in s
    ensures NoDup(u)
  {
    if |s| == 0 then []
    else
      var last := s[|s| - 1];
      var u := Unique(s[..|s| - 1]);
      assert s == s[..|s| - 1] + [last];
      if last in u then u else u + [last]
  }

  lemma FirstIndexInPrefix(s: seq<string>, k: nat, y: string)
    requires k <= |s| && y in s[..k]
    ensures FirstIndex(s, y) == FirstIndex(s[..k], y)
  {
  }

  /** Each value of `Unique(s)` first occurs in `s` before the next one does. */
  lemma {:induction false} UniqueFirstAppearance(s: seq<string>)
    ensures forall i, j :: 0 <= i < j < |Unique(s)| ==>
              FirstIndex(s, Unique(s)[i]) < FirstIndex(s, Unique(s)[j])
  {
    if |s| > 0 {
      var n := |s| - 1;
      var p := s[..n];
      UniqueFirstAppearance(p);
      var u, up := Unique(s), Unique(p);
      forall i, j | 0 <= i < j < |u|
        ensures FirstIndex(s, u[i]) < FirstIndex(s, u[j])
      {
        assert u[i] == up[i] && u[i] in p;
        FirstIndexInPrefix(s, n, u[i]);
        if j < |up| {
          assert u[j] == up[j] && u[j] in p;
          FirstIndexInPrefix(s, n, u[j]);
        } else {
          assert u[j] == s[n] && s[n] !in p;
        }
      }
    }
  }

  /** `Unique(s)` has one entry per distinct value of `s`. */
  lemma {:induction false} UniqueLength(s: seq<string>)
    ensures |Unique(s)| == |Distinct(s)|
  {
    if |s| > 0 {
      var n := |s| - 1;
      var p := s[..n];
      UniqueLength(p);
      assert s == p + [s[n]];
      assert Distinct(s) == Distinct(p) + {s[n]};
      if s[n] in Unique(p) {
        assert Distinct(s) == Distinct(p);
      } else {
        assert s[n] !in Distinct(p);
      }
    }
  }

  // ---------------------------------------------------------------------
  // df[df['State'] == state]
  // ---------------------------------------------------------------------

  /** `df[df['State'] == state]`: the rows whose State equals `state` exactly
      (case-sensitive), in row order; the mask is evaluated row by row. */
  function FilterByState(rows: seq<Row>, state: string): (r: seq<Row>)
    ensures |r| <= |rows|
    ensures multiset(r) <= multiset(rows)
  {
    if |rows| == 0 then []
    else
      var n := |rows| - 1;
      assert rows == rows[..n] + [rows[n]];
      FilterByState(rows[..n], state) + (if rows[n].state == state then [rows[n]] else [])
  }

  /** The positions of the rows whose State is `state`, in increasing order:
      a reference description of the filter by row indices. */
  function MatchIndices(rows: seq<Row>, state: string): (ix: seq<nat>)
    ensures forall k :: 0 <= k < |ix| ==> ix[k] < |rows| && rows[ix[k]].state == state
    ensures forall k, l :: 0 <= k < l < |ix| ==> ix[k] < ix[l]
    ensures forall i :: 0 <= i < |rows| && rows[i].state == state ==> i in ix
  {
    if |rows| == 0 then []
    else
      var n := |rows| - 1;
      MatchIndices(rows[..n], state) + (if rows[n].state == state then [n] else [])
  }

  /** The filter keeps exactly the rows at `MatchIndices`, in that order: it is
      exact, complete and order-preserving. */
  lemma {:induction false} FilterMatchesIndices(rows: seq<Row>, state: string)
    ensures |FilterByState(rows, state)| == |MatchIndices(rows, state)|
    ensures forall k :: 0 <= k < |MatchIndices(rows, state)| ==>
              FilterByState(rows, state)[k] == rows[MatchIndices(rows, state)[k]]
  {
    if |rows| > 0 {
      var n := |rows| - 1;
      FilterMatchesIndices(rows[..n], state);
      AlignSnoc(rows, FilterByState(rows[..n], state), MatchIndices(rows[..n], state),
                rows[n].state == state);
    }
  }

  /** Extending a row sequence by one row, and both a row list and an index
      list aligned with its prefix by that row and its index, keeps them aligned. */
  lemma AlignSnoc(rows: seq<Row>, fp: seq<Row>, ixp: seq<nat>, keep: bool)
    requires |rows| > 0 && |fp| == |ixp|
    requires forall k :: 0 <= k < |ixp| ==> ixp[k] < |rows| - 1 && fp[k] == rows[..|rows| - 1][ixp[k]]
    ensures var n := |rows| - 1;
            var f, ix := fp + (if keep then [rows[n]] else []), ixp + (if keep then [n] else []);
            |f| == |ix| && forall k :: 0 <= k < |ix| ==> ix[k] < |rows| && f[k] == rows[ix[k]]
  {
  }

  lemma {:induction false} FilterCount(rows: seq<Row>, state: string, r: Row)
    ensures multiset(FilterByState(rows, state))[r] ==
              if r.state == state then multiset(rows)[r] else 0
  {
    if |rows| > 0 {
      var n := |rows| - 1;
      var p := rows[..n];
      FilterCount(p, state, r);
      assert rows == p + [rows[n]];
      SnocCount(p, rows[n], r);
      if rows[n].state == state {
        SnocCount(FilterByState(p, state), rows[n], r);
      } else {
        assert FilterByState(rows, state) == FilterByState(p, state);
      }
    }
  }

  /** Appending `x` adds one occurrence of `x` and of nothing else. */
  lemma SnocCount(p: seq<Row>, x: Row, r: Row)
    ensures multiset(p + [x])[r] == multiset(p)[r] + (if x == r then 1 else 0)
  {
  }

  /** Every row whose State is `state` is kept as often as it occurs, and no
      other row is kept. */
  lemma FilterCounts(rows: seq<Row>, state: string)
    ensures forall r :: multiset(FilterByState(rows, state))[r] ==
              if r.state == state then multiset(rows)[r] else 0
  {
    forall r ensures multiset(FilterByState(rows, state))[r] ==
                       if r.state == state then multiset(rows)[r] else 0 {
      FilterCount(rows, state, r);
    }
  }

  lemma FilterMembers(rows: seq<Row>, state: string)
    ensures forall r :: r in FilterByState(rows, state) <==> r in rows && r.state == state
  {
  }

  /** Filtering twice by the same state gives the same rows. */
  lemma {:induction false} FilterIdempotent(rows: seq<Row>, state: string)
    ensures FilterByState(FilterByState(rows, state), state) == FilterByState(rows, state)
  {
    if |rows| > 0 {
      var n := |rows| - 1;
      var p, x := rows[..n], rows[n];
      assert rows == p + [x];
      FilterAppendOne(p, x, state);
      FilterIdempotent(p, state);
      var f, fp := FilterByState(rows, state), FilterByState(p, state);
      if x.state == state {
        assert f == fp + [x];
        FilterAppendOne(fp, x, state);
        assert FilterByState(f, state) == FilterByState(fp, state) + [x];
      } else {
        assert f == fp;
      }
    }
  }

  /** Filtering a sequence extended by one row extends the filtered prefix by
      that row exactly when it matches. */
  lemma FilterAppendOne(p: seq<Row>, x: Row, state: string)
    ensures FilterByState(p + [x], state) ==
              FilterByState(p, state) + (if x.state == state then [x] else [])
  {
    assert (p + [x])[..|p|] == p;
  }

  // ---------------------------------------------------------------------
  // sort_values(m, ascending=False) and head(k)
  // ---------------------------------------------------------------------

  predicate NonIncreasing(s: seq<Row>, m: string)
    requires HasMetric(s, m)
  {
    forall i, j :: 0 <= i < j < |s| ==> Value(s[i], m) >= Value(s[j], m)
  }

  lemma HeadDominates(s: seq<Row>, m: string)
    requires HasMetric(s, m) && NonIncreasing(s, m)
    ensures forall y :: y in s ==> m in s[0].metrics && Value(y, m) <= Value(s[0], m)
  {
  }

  lemma ConsNonIncreasing(a: Row, rest: seq<Row>, m: string)
    requires m in a.metrics && HasMetric(rest, m) && NonIncreasing(rest, m)
    requires forall y :: y in rest ==> Value(y, m) <= Value(a, m)
    ensures HasMetric([a] + rest, m) && NonIncreasing([a] + rest, m)
  {
  }

  function InsertDescending(x: Row, s: seq<Row>, m: string): (r: seq<Row>)
    requires m in x.metrics && HasMetric(s, m) && NonIncreasing(s, m)
    ensures multiset(r) == multiset(s) + multiset{x}
    ensures HasMetric(r, m) && NonIncreasing(r, m)
  {
    if |s| == 0 || Value(x, m) >= Value(s[0], m) then
      HeadDominates(s, m);
      ConsNonIncreasing(x, s, m);
      [x] + s
    else
      TailNonIncreasing(s, m);
      var rest := InsertDescending(x, s[1..], m);
      InsertBehindHead(x, s, rest, m);
      [s[0]] + rest
  }

  lemma TailNonIncreasing(s: seq<Row>, m: string)
    requires |s| > 0 && HasMetric(s, m) && NonIncreasing(s, m)
    ensures HasMetric(s[1..], m) && NonIncreasing(s[1..], m)
  {
  }

  /** When `x` is smaller than the head of `s`, the head followed by `x`
      inserted into the tail is still a non-increasing permutation. */
  lemma InsertBehindHead(x: Row, s: seq<Row>, rest: seq<Row>, m: string)
    requires |s| > 0 && m in x.metrics && HasMetric(s, m) && NonIncreasing(s, m)
    requires Value(x, m) < Value(s[0], m)
    requires multiset(rest) == multiset(s[1..]) + multiset{x}
    requires HasMetric(rest, m) && NonIncreasing(rest, m)
    ensures multiset([s[0]] + rest) == multiset(s) + multiset{x}
    ensures HasMetric([s[0]] + rest, m) && NonIncreasing([s[0]] + rest, m)
  {
    assert s == [s[0]] + s[1..];
    HeadDominates(s, m);
    forall y | y in rest ensures Value(y, m) <= Value(s[0], m) {
      assert y in multiset(rest);
      if y != x {
        assert y in multiset(s[1..]);
      }
    }
    ConsNonIncreasing(s[0], rest, m);
  }

  /** The rows reordered so that the metric `m` never increases. Ties are
      left in an unspecified order, as pandas' default quicksort leaves them. */
  function SortDescending(rows: seq<Row>, m: string): (r: seq<Row>)
    requires HasMetric(rows, m)
    ensures multiset(r) == multiset(rows)
    ensures HasMetric(r, m) && NonIncreasing(r, m)
  {
    if |rows| == 0 then []
    else
      assert rows == [rows[0]] + rows[1..];
      InsertDescending(rows[0], SortDescending(rows[1..], m), m)
  }

  /** `DataFrame.head(k)`: the first `k` rows, or all of them when there are fewer. */
  function Head(rows: seq<Row>, k: nat): (r: seq<Row>)
    ensures |r| == (if k <= |rows| then k else |rows|) && r == rows[..|r|]
  {
    if k <= |rows| then rows[..k] else rows
  }

  /** In a non-increasing sequence every row before position `n` has at least
      the value of every row from `n` on. */
  lemma PrefixDominates(s: seq<Row>, m: string, n: nat)
    requires n <= |s| && HasMetric(s, m) && NonIncreasing(s, m)
    ensures forall x, y :: x in s[..n] && y in s[n..] ==> Value(x, m) >= Value(y, m)
  {
  }

  /** The first `k` rows of the descending sort are a sub-multiset of the rows
      of size min(k, |rows|), and no row left out has a larger value of `m`
      than a row kept. */
  lemma TopDominates(rows: seq<Row>, m: string, k: nat)
    requires HasMetric(rows, m)
    ensures |Head(SortDescending(rows, m), k)| == if k <= |rows| then k else |rows|
    ensures multiset(Head(SortDescending(rows, m), k)) <= multiset(rows)
    ensures forall x, y ::
              x in Head(SortDescending(rows, m), k) &&
              y in multiset(rows) - multiset(Head(SortDescending(rows, m), k)) ==>
                m in x.metrics && m in y.metrics && Value(x, m) >= Value(y, m)
  {
    var sorted := SortDescending(rows, m);
    var n := if k <= |rows| then k else |rows|;
    assert Head(sorted, k) == sorted[..n];
    PrefixSplit(sorted, n);
    PrefixDominates(sorted, m, n);
  }

  lemma PrefixSplit(s: seq<Row>, n: nat)
    requires n <= |s|
    ensures multiset(s[..n]) <= multiset(s)
    ensures multiset(s) - multiset(s[..n]) == multiset(s[n..])
  {
    assert s == s[..n] + s[n..];
    assert multiset(s) == multiset(s[..n]) + multiset(s[n..]);
  }
}
