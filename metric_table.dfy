/** The metrics table: on every data update of an instrument, the matched dimensions'
    values are flattened into rows with a direction marker, optionally collapsed to value
    changes, and synchronised into a list kept sorted by time. */
module MetricTable {
  import opened Wrappers
  import opened Sequences

  /** A metric value: its time window, its count of measurements and its reading. */
  datatype MetricValue = MetricValue(start: int, end: int, count: nat, reading: int)

  /** A dimension matched by the instrument's filters: a name, attributes and values in
      time order. */
  datatype Dimension = Dimension(name: string, attributes: seq<(string, string)>, values: seq<MetricValue>)

  datatype ValueDirectionChange = Up | Down | Constant

  datatype DimensionalMetric = DimensionalMetric(
    dimensionName: string,
    dimensionAttributes: seq<(string, string)>,
    value: MetricValue,
    direction: ValueDirectionChange)

  // ----- MetricTimeComparer -----

  /** `DateTime.CompareTo`. */
  function CompareTime(a: int, b: int): int {
    if a < b then -1 else if a > b then 1 else 0
  }

  /** `MetricTimeComparer.Compare`: by start time, then by end time. */
  function CompareByTime(x: DimensionalMetric, y: DimensionalMetric): (r: int)
    ensures r == 0 <==> x.value.start == y.value.start && x.value.end == y.value.end
    ensures r < 0 <==> x.value.start < y.value.start || (x.value.start == y.value.start && x.value.end < y.value.end)
  {
    var result := CompareTime(x.value.start, y.value.start);
    if result != 0 then result else CompareTime(x.value.end, y.value.end)
  }

  lemma CompareByTimeAntisymmetric(x: DimensionalMetric, y: DimensionalMetric)
    ensures CompareByTime(x, y) < 0 <==> CompareByTime(y, x) > 0
  {
  }

  lemma CompareByTimeTransitive(x: DimensionalMetric, y: DimensionalMetric, z: DimensionalMetric)
    requires CompareByTime(x, y) < 0 && CompareByTime(y, z) < 0
    ensures CompareByTime(x, z) < 0
  {
  }

  // ----- Building the rows -----

  /** The direction marker of the `i`-th value of a dimension: constant for the first value,
      otherwise by comparing its count with the previous value's. */
  function Direction(values: seq<MetricValue>, i: nat): (d: ValueDirectionChange)
    requires i < |values|
    ensures d == Up <==> i > 0 && values[i].count > values[i - 1].count
    ensures d == Down <==> i > 0 && values[i].count < values[i - 1].count
    ensures d == Constant <==> i == 0 || values[i].count == values[i - 1].count
  {
    if i == 0 then Constant
    else if values[i].count > values[i - 1].count then Up
    else if values[i].count < values[i - 1].count then Down
    else Constant
  }

  function DimensionRows(d: Dimension, k: nat): (r: seq<DimensionalMetric>)
    requires k <= |d.values|
    ensures |r| == k
    ensures forall i {:trigger r[i]} :: 0 <= i < k ==>
              r[i] == DimensionalMetric(d.name, d.attributes, d.values[i], Direction(d.values, i))
  {
    if k == 0 then []
    else
      var front := DimensionRows(d, k - 1);
      var row := DimensionalMetric(d.name, d.attributes, d.values[k - 1], Direction(d.values, k - 1));
      front + [row]
  }

  /** The rows of all dimensions, dimension after dimension. */
  function Rows(dims: seq<Dimension>): seq<DimensionalMetric> {
    if |dims| == 0 then [] else Rows(dims[..|dims| - 1]) + DimensionRows(dims[|dims| - 1], |dims[|dims| - 1].values|)
  }

  function TotalValues(dims: seq<Dimension>): nat {
    if |dims| == 0 then 0 else TotalValues(dims[..|dims| - 1]) + |dims[|dims| - 1].values|
  }

  /** Whether some dimension is not the "no dimensions" scope. */
  predicate AnyDimensions(dims: seq<Dimension>, noDimensions: string) {
    exists i :: 0 <= i < |dims| && dims[i].name != noDimensions
  }

  /** One row per value, and each row keeps its dimension and value. */
  lemma {:induction false} RowsOfDimensions(dims: seq<Dimension>)
    ensures |Rows(dims)| == TotalValues(dims)
    ensures forall k :: 0 <= k < |Rows(dims)| ==>
              exists d, i :: 0 <= d < |dims| && 0 <= i < |dims[d].values| &&
                Rows(dims)[k] == DimensionalMetric(dims[d].name, dims[d].attributes, dims[d].values[i], Direction(dims[d].values, i))
    decreases |dims|
  {
    if |dims| > 0 {
      var front := dims[..|dims| - 1];
      var last := dims[|dims| - 1];
      RowsOfDimensions(front);
      var r := Rows(dims);
      var p := Rows(front);
      var q := DimensionRows(last, |last.values|);
      forall k | 0 <= k < |r|
        ensures exists d, i :: 0 <= d < |dims| && 0 <= i < |dims[d].values| &&
                  r[k] == DimensionalMetric(dims[d].name, dims[d].attributes, dims[d].values[i], Direction(dims[d].values, i))
      {
        if k < |p| {
          var d, i :| 0 <= d < |front| && 0 <= i < |front[d].values| &&
                      p[k] == DimensionalMetric(front[d].name, front[d].attributes, front[d].values[i], Direction(front[d].values, i));
          assert dims[d] == front[d];
          assert r[k] == p[k];
        } else {
          assert r[k] == q[k - |p|];
          assert dims[|dims| - 1] == last;
        }
      }
    }
  }

  lemma RowsPrefixStep(dims: seq<Dimension>, d: nat)
    requires d < |dims|
    ensures Rows(dims[..d + 1]) == Rows(dims[..d]) + DimensionRows(dims[d], |dims[d].values|)
  {
    assert dims[..d + 1][..d] == dims[..d];
    assert dims[..d + 1][d] == dims[d];
  }

  lemma AnyDimensionsPrefixStep(dims: seq<Dimension>, d: nat, noDimensions: string)
    requires d < |dims|
    ensures AnyDimensions(dims[..d + 1], noDimensions) <==>
            AnyDimensions(dims[..d], noDimensions) || dims[d].name != noDimensions
  {
    if AnyDimensions(dims[..d + 1], noDimensions) {
      var j :| 0 <= j < d + 1 && dims[..d + 1][j].name != noDimensions;
      if j < d {
        assert dims[..d][j] == dims[..d + 1][j];
      }
    }
    if AnyDimensions(dims[..d], noDimensions) {
      var j :| 0 <= j < d && dims[..d][j].name != noDimensions;
      assert dims[..d + 1][j] == dims[..d][j];
    }
    if dims[d].name != noDimensions {
      assert dims[..d + 1][d] == dims[d];
    }
  }

  /** The nested loops that build `metricsWithDimension` and `_anyDimensionsShown`. */
  method BuildRows(dims: seq<Dimension>, noDimensions: string) returns (rows: seq<DimensionalMetric>, anyDimensionsShown: bool)
    ensures rows == Rows(dims)
    ensures anyDimensionsShown <==> AnyDimensions(dims, noDimensions)
  {
    rows := [];
    anyDimensionsShown := false;
    var d := 0;
    while d < |dims|
      invariant 0 <= d <= |dims|
      invariant rows == Rows(dims[..d])
      invariant anyDimensionsShown <==> AnyDimensions(dims[..d], noDimensions)
    {
      var dimension := dims[d];
      RowsPrefixStep(dims, d);
      AnyDimensionsPrefixStep(dims, d, noDimensions);
      if dimension.name != noDimensions {
        anyDimensionsShown := true;
      }
      var dimensionRows := DimensionRowsOf(dimension);
      rows := rows + dimensionRows;
      d := d + 1;
    }
    assert dims[..d] == dims;
  }

  /** The inner loop of `BuildRows`: one row per value with its direction marker. */
  method DimensionRowsOf(dimension: Dimension) returns (rows: seq<DimensionalMetric>)
    ensures rows == DimensionRows(dimension, |dimension.values|)
  {
    rows := [];
    var i := 0;
    while i < |dimension.values|
      invariant 0 <= i <= |dimension.values|
      invariant rows == DimensionRows(dimension, i)
    {
      var metricValue := dimension.values[i];
      var directionChange := Constant;
      if i > 0 {
        var previousValue := dimension.values[i - 1];
        if metricValue.count > previousValue.count {
          directionChange := Up;
        } else if metricValue.count < previousValue.count {
          directionChange := Down;
        }
      }
      assert directionChange == Direction(dimension.values, i);
      rows := rows + [DimensionalMetric(dimension.name, dimension.attributes, metricValue, directionChange)];
      i := i + 1;
    }
  }

  // ----- Only value changes -----

  /** Rows with runs of equal counts collapsed to the first row of each run. */
  function CollapseRuns(ms: seq<DimensionalMetric>): (r: seq<DimensionalMetric>)
    ensures |r| <= |ms|
    ensures |ms| > 0 ==> |r| > 0 && r[|r| - 1].value.count == ms[|ms| - 1].value.count
  {
    if |ms| == 0 then []
    else
      var p := CollapseRuns(ms[..|ms| - 1]);
      if |p| > 0 && p[|p| - 1].value.count == ms[|ms| - 1].value.count then p else p + [ms[|ms| - 1]]
  }

  /** Collapsing keeps the first row. */
  lemma {:induction false} CollapseRunsKeepsFirst(ms: seq<DimensionalMetric>)
    requires |ms| > 0
    ensures CollapseRuns(ms)[0] == ms[0]
    decreases |ms|
  {
    var front := ms[..|ms| - 1];
    if |front| > 0 {
      CollapseRunsKeepsFirst(front);
      assert front[0] == ms[0];
    }
  }

  /** After collapsing, no two neighbouring rows have equal counts. */
  lemma {:induction false} CollapseRunsNoRepeats(ms: seq<DimensionalMetric>)
    ensures forall i :: 0 < i < |CollapseRuns(ms)| ==>
              CollapseRuns(ms)[i].value.count != CollapseRuns(ms)[i - 1].value.count
    decreases |ms|
  {
    if |ms| > 0 {
      var front := ms[..|ms| - 1];
      CollapseRunsNoRepeats(front);
      var p := CollapseRuns(front);
      var r := CollapseRuns(ms);
      if r != p {
        assert r == p + [ms[|ms| - 1]];
        forall i | 0 < i < |r| ensures r[i].value.count != r[i - 1].value.count {
          if i < |p| {
            assert r[i] == p[i] && r[i - 1] == p[i - 1];
          }
        }
      }
    }
  }

  /** How many rows of `ms` have a count different from the row before. */
  function ValueChanges(ms: seq<DimensionalMetric>): nat {
    if |ms| <= 1 then 0
    else ValueChanges(ms[..|ms| - 1]) + (if ms[|ms| - 1].value.count != ms[|ms| - 2].value.count then 1 else 0)
  }

  /** Collapsing drops no value change: the first row and one row per change remain. */
  lemma {:induction false} CollapseRunsKeepsEveryChange(ms: seq<DimensionalMetric>)
    requires |ms| > 0
    ensures |CollapseRuns(ms)| == 1 + ValueChanges(ms)
    decreases |ms|
  {
    var front := ms[..|ms| - 1];
    if |front| > 0 {
      CollapseRunsKeepsEveryChange(front);
      assert front[|front| - 1] == ms[|ms| - 2];
    }
  }

  /** Collapsing only leaves rows out: the result is a subsequence of the input. */
  lemma {:induction false} CollapseRunsSubsequence(ms: seq<DimensionalMetric>)
    ensures IsSubsequence(CollapseRuns(ms), ms)
    decreases |ms|
  {
    if |ms| > 0 {
      var front := ms[..|ms| - 1];
      var x := ms[|ms| - 1];
      CollapseRunsSubsequence(front);
      var p := CollapseRuns(front);
      assert ms == front + [x];
      if |p| > 0 && p[|p| - 1].value.count == x.value.count {
        SubsequenceAppendRight(p, front, x);
      } else {
        SubsequenceExtend(p, front, x);
      }
    }
  }

  /** `a` is `b` with some elements left out. */
  predicate IsSubsequence<T(==)>(a: seq<T>, b: seq<T>)
    decreases |b|
  {
    if |a| == 0 then true
    else if |b| == 0 then false
    else if a[|a| - 1] == b[|b| - 1] then IsSubsequence(a[..|a| - 1], b[..|b| - 1])
    else IsSubsequence(a, b[..|b| - 1])
  }

  lemma SubsequenceExtend<T>(a: seq<T>, b: seq<T>, x: T)
    requires IsSubsequence(a, b)
    ensures IsSubsequence(a + [x], b + [x])
  {
    assert (a + [x])[..|a|] == a;
    assert (b + [x])[..|b|] == b;
  }

  lemma {:induction false} SubsequenceAppendRight<T>(a: seq<T>, b: seq<T>, x: T)
    requires IsSubsequence(a, b)
    ensures IsSubsequence(a, b + [x])
    decreases |a|, |b|, 1
  {
    assert (b + [x])[..|b|] == b;
    if |a| > 0 && a[|a| - 1] == x {
      assert a == a[..|a| - 1] + [x];
      SubsequenceDropLast(a, b);
    }
  }

  lemma {:induction false} SubsequenceDropLast<T>(a: seq<T>, b: seq<T>)
    requires |a| > 0 && IsSubsequence(a, b)
    ensures IsSubsequence(a[..|a| - 1], b)
    decreases |a|, |b|, 0
  {
    if a[|a| - 1] == b[|b| - 1] {
      SubsequenceAppendRight(a[..|a| - 1], b[..|b| - 1], b[|b| - 1]);
      assert b[..|b| - 1] + [b[|b| - 1]] == b;
    } else {
      SubsequenceDropLast(a, b[..|b| - 1]);
      SubsequenceAppendRight(a[..|a| - 1], b[..|b| - 1], b[|b| - 1]);
      assert b[..|b| - 1] + [b[|b| - 1]] == b;
    }
  }

  lemma CollapseRunsStep(ms: seq<DimensionalMetric>, k: nat)
    requires 0 < k < |ms|
    ensures var p := CollapseRuns(ms[..k]);
            CollapseRuns(ms[..k + 1]) == if p[|p| - 1].value.count == ms[k].value.count then p else p + [ms[k]]
  {
    assert ms[..k + 1][..k] == ms[..k];
    assert ms[..k + 1][k] == ms[k];
  }

  /** The `RemoveAt(i); i--` loop of the "only value changes" option. */
  method CollapseValueChanges(ms: seq<DimensionalMetric>) returns (list: seq<DimensionalMetric>)
    requires |ms| > 0
    ensures list == CollapseRuns(ms)
  {
    list := ms;
    var current := list[0].value.count;
    var i := 1;
    ghost var k := 1;
    assert ms[..1] == [ms[0]];
    while i < |list|
      invariant 1 <= i <= k <= |ms|
      invariant list == CollapseRuns(ms[..k]) + ms[k..]
      invariant i == |CollapseRuns(ms[..k])|
      invariant current == list[i - 1].value.count
      decreases |ms| - k
    {
      ghost var p := CollapseRuns(ms[..k]);
      ghost var rest := ms[k..];
      var metric := list[i].value.count;
      assert list[i] == rest[0] == ms[k];
      assert list[i - 1] == p[i - 1];
      CollapseRunsStep(ms, k);
      assert ms[k + 1..] == rest[1..];
      if current == metric {
        RemoveAtJoin(p, rest);
        list := list[..i] + list[i + 1..];
      } else {
        MoveAcrossJoin(p, rest);
        current := metric;
        i := i + 1;
      }
      k := k + 1;
    }
    assert ms[..k] + ms[k..] == ms;
    assert k == |ms| by {
      assert |list| == i + |ms| - k;
    }
    assert ms[..k] == ms;
  }

  // ----- The sorted list -----

  /** One `SortedList` slot: the key it was added under and its current value.
      `SetValueAtIndex` replaces the value and keeps the key. */
  datatype Entry = Entry(key: DimensionalMetric, value: DimensionalMetric)

  /** The `SortedList` invariant: keys strictly increase under the time comparer. */
  ghost predicate KeysSorted(es: seq<Entry>) {
    forall i, j :: 0 <= i < j < |es| ==> CompareByTime(es[i].key, es[j].key) < 0
  }

  function Values(es: seq<Entry>): (vs: seq<DimensionalMetric>)
    ensures |vs| == |es|
    ensures forall i :: 0 <= i < |es| ==> vs[i] == es[i].value
  {
    if |es| == 0 then [] else Values(es[..|es| - 1]) + [es[|es| - 1].value]
  }

  /** The position `SortedList.Add` looks up: the first key not before `m`. */
  function InsertionIndex(es: seq<Entry>, m: DimensionalMetric): (idx: nat)
    ensures idx <= |es|
    ensures forall i :: 0 <= i < idx ==> CompareByTime(es[i].key, m) < 0
    ensures idx < |es| ==> CompareByTime(es[idx].key, m) >= 0
  {
    if |es| == 0 then 0
    else if CompareByTime(es[0].key, m) >= 0 then 0
    else 1 + InsertionIndex(es[1..], m)
  }

  /** `SortedList.Add(m, m)`: inserted at its place, or `None` when a key with the same time
      window exists (the list throws). */
  function SortedAdd(es: seq<Entry>, m: DimensionalMetric): (r: Option<seq<Entry>>)
    ensures r.Some? ==> |r.value| == |es| + 1 && r.value[InsertionIndex(es, m)] == Entry(m, m)
  {
    var idx := InsertionIndex(es, m);
    if idx < |es| && CompareByTime(es[idx].key, m) == 0 then None
    else Some(es[..idx] + [Entry(m, m)] + es[idx..])
  }

  /** `SortedList.Add` fails exactly when a key with the same time window is present. */
  lemma SortedAddFails(es: seq<Entry>, m: DimensionalMetric)
    requires KeysSorted(es)
    ensures SortedAdd(es, m).None? <==> exists i :: 0 <= i < |es| && CompareByTime(es[i].key, m) == 0
  {
    var idx := InsertionIndex(es, m);
    if !(idx < |es| && CompareByTime(es[idx].key, m) == 0) {
      forall i | 0 <= i < |es| ensures CompareByTime(es[i].key, m) != 0 {
        if i > idx {
          assert CompareByTime(es[idx].key, es[i].key) < 0;
        }
      }
    }
  }

  /** A successful add keeps the keys strictly sorted. */
  lemma SortedAddSorted(es: seq<Entry>, m: DimensionalMetric)
    requires KeysSorted(es) && SortedAdd(es, m).Some?
    ensures KeysSorted(SortedAdd(es, m).value)
  {
    var idx := InsertionIndex(es, m);
    var r := SortedAdd(es, m).value;
    assert idx < |es| ==> CompareByTime(es[idx].key, m) > 0;
    forall i, j | 0 <= i < j < |r| ensures CompareByTime(r[i].key, r[j].key) < 0 {
      if j < idx {
        assert r[i] == es[i] && r[j] == es[j];
      } else if j == idx {
        assert r[i] == es[i];
      } else if i < idx {
        assert r[i] == es[i] && r[j] == es[j - 1];
        if j - 1 > idx {
          assert CompareByTime(es[idx].key, es[j - 1].key) < 0;
        }
      } else if i == idx {
        assert r[j] == es[j - 1];
        if j - 1 > idx {
          assert CompareByTime(es[idx].key, es[j - 1].key) < 0;
        }
      } else {
        assert r[i] == es[i - 1] && r[j] == es[j - 1];
      }
    }
  }

  /** A successful add adds exactly its row to the values. */
  lemma SortedAddValues(es: seq<Entry>, m: DimensionalMetric)
    requires SortedAdd(es, m).Some?
    ensures multiset(Values(SortedAdd(es, m).value)) == multiset(Values(es)) + multiset{m}
    ensures |SortedAdd(es, m).value| == |es| + 1
  {
    var idx := InsertionIndex(es, m);
    assert es == es[..idx] + es[idx..];
    ValuesAppend(es[..idx], [Entry(m, m)]);
    ValuesAppend(es[..idx] + [Entry(m, m)], es[idx..]);
    ValuesAppend(es[..idx], es[idx..]);
  }

  lemma {:induction false} ValuesAppend(a: seq<Entry>, b: seq<Entry>)
    ensures Values(a + b) == Values(a) + Values(b)
  {
  }

  /** Adding the rows one after another, stopping at the first that cannot be added.
      Returns the list reached and whether every add succeeded. */
  function AddAll(es: seq<Entry>, ms: seq<DimensionalMetric>): (r: (seq<Entry>, bool))
    ensures r.1 ==> |r.0| == |es| + |ms|
  {
    if |ms| == 0 then (es, true)
    else
      var (p, ok) := AddAll(es, ms[..|ms| - 1]);
      if !ok then (p, false)
      else match SortedAdd(p, ms[|ms| - 1])
        case None => (p, false)
        case Some(q) => (q, true)
  }

  /** Adding rows one by one keeps the list sorted, and when every add succeeds the list
      holds exactly the old values and the rows. */
  lemma AddAllProperties(es: seq<Entry>, ms: seq<DimensionalMetric>)
    requires KeysSorted(es)
    ensures KeysSorted(AddAll(es, ms).0)
    ensures AddAll(es, ms).1 ==>
              multiset(Values(AddAll(es, ms).0)) == multiset(Values(es)) + multiset(ms) &&
              |AddAll(es, ms).0| == |es| + |ms|
  {
    AddAllSorted(es, ms);
    AddAllValues(es, ms);
  }

  lemma {:induction false} AddAllSorted(es: seq<Entry>, ms: seq<DimensionalMetric>)
    requires KeysSorted(es)
    ensures KeysSorted(AddAll(es, ms).0)
    decreases |ms|
  {
    if |ms| > 0 {
      var front := ms[..|ms| - 1];
      AddAllSorted(es, front);
      var (p, ok) := AddAll(es, front);
      if ok && SortedAdd(p, ms[|ms| - 1]).Some? {
        SortedAddSorted(p, ms[|ms| - 1]);
      }
    }
  }

  lemma {:induction false} AddAllValues(es: seq<Entry>, ms: seq<DimensionalMetric>)
    ensures AddAll(es, ms).1 ==>
              multiset(Values(AddAll(es, ms).0)) == multiset(Values(es)) + multiset(ms) &&
              |AddAll(es, ms).0| == |es| + |ms|
    decreases |ms|
  {
    if |ms| > 0 {
      var front := ms[..|ms| - 1];
      var last := ms[|ms| - 1];
      AddAllValues(es, front);
      var (p, ok) := AddAll(es, front);
      if ok && SortedAdd(p, last).Some? {
        assert AddAll(es, ms) == (SortedAdd(p, last).value, true);
        SortedAddValues(p, last);
        MultisetSnoc(ms);
      } else {
        assert !AddAll(es, ms).1;
      }
    }
  }

  /** The values of the first `|vs|` slots replaced by `vs`, keys untouched. */
  function Overwrite(es: seq<Entry>, vs: seq<DimensionalMetric>): (r: seq<Entry>)
    requires |vs| <= |es|
    ensures |r| == |es|
    ensures forall i :: 0 <= i < |es| ==> r[i].key == es[i].key
    ensures forall i :: 0 <= i < |vs| ==> r[i].value == vs[i]
    ensures forall i :: |vs| <= i < |es| ==> r[i] == es[i]
  {
    seq(|es|, i requires 0 <= i < |es| => if i < |vs| then Entry(es[i].key, vs[i]) else es[i])
  }

  /** Overwriting values leaves the keys, and so their order, as they were. */
  lemma OverwriteKeysSorted(es: seq<Entry>, vs: seq<DimensionalMetric>)
    requires |vs| <= |es| && KeysSorted(es)
    ensures KeysSorted(Overwrite(es, vs))
  {
    var o := Overwrite(es, vs);
    forall i, j | 0 <= i < j < |o| ensures CompareByTime(o[i].key, o[j].key) < 0 {
      assert o[i].key == es[i].key && o[j].key == es[j].key;
    }
  }

  function Min(a: nat, b: nat): nat { if a < b then a else b }

  /** The state the synchronisation reaches: trim to the new row count, overwrite the slots
      that remain, add the rest. */
  function Synchronize(es: seq<Entry>, rows: seq<DimensionalMetric>): (r: (seq<Entry>, bool))
    ensures r.1 ==> |r.0| == |rows|
  {
    var c := Min(|es|, |rows|);
    AddAll(Overwrite(es[..c], rows[..c]), rows[c..])
  }

  /** A successful synchronisation shows exactly the new rows (as a multiset, in time-key
      order), and the list stays sorted either way. */
  lemma SynchronizeProperties(es: seq<Entry>, rows: seq<DimensionalMetric>)
    requires KeysSorted(es)
    ensures KeysSorted(Synchronize(es, rows).0)
    ensures Synchronize(es, rows).1 ==> multiset(Values(Synchronize(es, rows).0)) == multiset(rows)
    ensures Synchronize(es, rows).1 ==> |Synchronize(es, rows).0| == |rows|
  {
    var c := Min(|es|, |rows|);
    var o := Overwrite(es[..c], rows[..c]);
    assert KeysSorted(o) by {
      forall i, j | 0 <= i < j < |o| ensures CompareByTime(o[i].key, o[j].key) < 0 {
        assert o[i].key == es[i].key && o[j].key == es[j].key;
      }
    }
    AddAllProperties(o, rows[c..]);
    assert Values(o) == rows[..c];
    assert rows == rows[..c] + rows[c..];
  }

  lemma PrefixSorted(es: seq<Entry>, c: nat)
    requires KeysSorted(es) && c <= |es|
    ensures KeysSorted(es[..c])
  {
    forall i, j | 0 <= i < j < c ensures CompareByTime(es[..c][i].key, es[..c][j].key) < 0 {
      assert es[..c][i] == es[i] && es[..c][j] == es[j];
    }
  }

  /** Overwriting one more slot. */
  lemma OverwriteStep(es: seq<Entry>, vs: seq<DimensionalMetric>, v: DimensionalMetric)
    requires |vs| < |es|
    ensures var o := Overwrite(es, vs);
            Overwrite(es, vs + [v]) == o[|vs| := Entry(o[|vs|].key, v)] &&
            (o[|vs|].value == v ==> Overwrite(es, vs + [v]) == o)
  {
    var o := Overwrite(es, vs);
    if o[|vs|].value == v {
      assert o[|vs|] == Entry(o[|vs|].key, v);
    }
  }

  /** One pass of the loop of `OnInstrumentDataUpdate` that brings the sorted list in line
      with the rows: past the end of the list, add; otherwise overwrite the slot's value
      when it differs. */
  function UpdateStep(es: seq<Entry>, row: DimensionalMetric, i: nat): (seq<Entry>, bool) {
    if i >= |es| then
      match SortedAdd(es, row)
      case None => (es, false)
      case Some(q) => (q, true)
    else if es[i].value != row then (es[i := Entry(es[i].key, row)], true)
    else (es, true)
  }

  /** The first `n` passes of that loop, stopping at a failed add. */
  function UpdatePasses(list: seq<Entry>, rows: seq<DimensionalMetric>, n: nat): (seq<Entry>, bool)
    requires n <= |rows|
  {
    if n == 0 then (list, true)
    else
      var (p, ok) := UpdatePasses(list, rows, n - 1);
      if !ok then (p, false) else UpdateStep(p, rows[n - 1], n - 1)
  }

  /** Once a pass has failed, later passes change nothing. */
  lemma {:induction false} UpdatePassesStop(list: seq<Entry>, rows: seq<DimensionalMetric>, k: nat, n: nat)
    requires k <= n <= |rows| && !UpdatePasses(list, rows, k).1
    ensures UpdatePasses(list, rows, n) == UpdatePasses(list, rows, k)
    decreases n
  {
    if n > k {
      UpdatePassesStop(list, rows, k, n - 1);
    }
  }

  /** The loop first overwrites the slots left after trimming... */
  lemma {:induction false} UpdatePassesOverwrite(list: seq<Entry>, rows: seq<DimensionalMetric>, n: nat)
    requires n <= |list| && n <= |rows|
    ensures UpdatePasses(list, rows, n) == (Overwrite(list, rows[..n]), true)
    decreases n
  {
    if n == 0 {
      assert Overwrite(list, rows[..0]) == list;
    } else {
      UpdatePassesOverwrite(list, rows, n - 1);
      OverwriteStep(list, rows[..n - 1], rows[n - 1]);
      assert rows[..n] == rows[..n - 1] + [rows[n - 1]];
    }
  }

  /** ...then adds the remaining rows: it computes the overwrite-then-add specification. */
  lemma {:induction false} UpdatePassesOverwriteThenAdd(list: seq<Entry>, rows: seq<DimensionalMetric>, n: nat)
    requires |list| <= n <= |rows|
    ensures UpdatePasses(list, rows, n) == AddAll(Overwrite(list, rows[..|list|]), rows[|list|..n])
    decreases n
  {
    var c := |list|;
    if n == c {
      UpdatePassesOverwrite(list, rows, n);
      assert rows[c..n] == [];
    } else {
      UpdatePassesOverwriteThenAdd(list, rows, n - 1);
      var o := Overwrite(list, rows[..c]);
      assert rows[c..n][..n - 1 - c] == rows[c..n - 1];
      assert rows[c..n][n - 1 - c] == rows[n - 1];
      var (p, ok) := UpdatePasses(list, rows, n - 1);
      var row := rows[n - 1];
      var seg := rows[c..n - 1];
      assert rows[c..n] == seg + [row];
      AddAllSnoc(o, seg, row);
      if ok {
        AddAllLength(o, seg);
        assert n - 1 >= |p|;
        assert UpdatePasses(list, rows, n) == UpdateStep(p, row, n - 1);
      } else {
        assert UpdatePasses(list, rows, n) == (p, false);
      }
    }
  }

  lemma AddAllSnoc(es: seq<Entry>, front: seq<DimensionalMetric>, m: DimensionalMetric)
    ensures !AddAll(es, front).1 ==> AddAll(es, front + [m]) == (AddAll(es, front).0, false)
    ensures AddAll(es, front).1 ==>
              AddAll(es, front + [m]) ==
                (match SortedAdd(AddAll(es, front).0, m)
                 case None => (AddAll(es, front).0, false)
                 case Some(q) => (q, true))
  {
    assert (front + [m])[..|front|] == front;
  }

  lemma {:induction false} AddAllLength(es: seq<Entry>, ms: seq<DimensionalMetric>)
    ensures AddAll(es, ms).1 ==> |AddAll(es, ms).0| == |es| + |ms|
    decreases |ms|
  {
    if |ms| > 0 {
      AddAllLength(es, ms[..|ms| - 1]);
      var (p, ok) := AddAll(es, ms[..|ms| - 1]);
      if ok && SortedAdd(p, ms[|ms| - 1]).Some? {
        SortedAddValues(p, ms[|ms| - 1]);
      }
    }
  }

  /** The loop of `OnInstrumentDataUpdate` that brings the sorted list in line with the rows,
      on a copy of the list. On a failed add the list is returned as it stood. */
  method UpdateList(list: seq<Entry>, rows: seq<DimensionalMetric>) returns (es: seq<Entry>, ok: bool)
    requires KeysSorted(list) && |list| <= |rows|
    ensures KeysSorted(es)
    ensures (es, ok) == AddAll(Overwrite(list, rows[..|list|]), rows[|list|..])
  {
    es := list;
    var i := 0;
    while i < |rows|
      invariant 0 <= i <= |rows|
      invariant UpdatePasses(list, rows, i) == (es, true)
    {
      if i >= |es| {
        var added := SortedAdd(es, rows[i]);
        if added.None? {
          UpdatePassesStop(list, rows, i + 1, |rows|);
          ok := false;
          UpdateListMeetsSpecification(list, rows, es, ok);
          return;
        }
        es := added.value;
      } else if es[i].value != rows[i] {
        es := es[i := Entry(es[i].key, rows[i])];
      }
      i := i + 1;
    }
    ok := true;
    UpdateListMeetsSpecification(list, rows, es, ok);
  }

  lemma UpdateListMeetsSpecification(list: seq<Entry>, rows: seq<DimensionalMetric>, es: seq<Entry>, ok: bool)
    requires KeysSorted(list) && |list| <= |rows|
    requires UpdatePasses(list, rows, |rows|) == (es, ok)
    ensures KeysSorted(es)
    ensures (es, ok) == AddAll(Overwrite(list, rows[..|list|]), rows[|list|..])
  {
    UpdatePassesAll(list, rows);
    OverwriteKeysSorted(list, rows[..|list|]);
    AddAllProperties(Overwrite(list, rows[..|list|]), rows[|list|..]);
  }

  lemma UpdatePassesAll(list: seq<Entry>, rows: seq<DimensionalMetric>)
    requires |list| <= |rows|
    ensures UpdatePasses(list, rows, |rows|) == AddAll(Overwrite(list, rows[..|list|]), rows[|list|..])
  {
    SliceToEnd(rows, |list|);
    UpdatePassesOverwriteThenAdd(list, rows, |rows|);
  }

  /** Rows added by `SortedList.Add(m, m)` keep their key as their value. */
  ghost predicate KeysAreValues(es: seq<Entry>) {
    forall i :: 0 <= i < |es| ==> es[i].key == es[i].value
  }

  /** No two rows share a time window. */
  ghost predicate DistinctWindows(ms: seq<DimensionalMetric>) {
    forall i, j :: 0 <= i < j < |ms| ==> CompareByTime(ms[i], ms[j]) != 0
  }

  lemma SortedAddKeysAreValues(p: seq<Entry>, x: DimensionalMetric)
    requires KeysAreValues(p) && SortedAdd(p, x).Some?
    ensures KeysAreValues(SortedAdd(p, x).value)
  {
    var r := SortedAdd(p, x).value;
    var idx := InsertionIndex(p, x);
    forall i | 0 <= i < |r| ensures r[i].key == r[i].value {
      if i < idx {
        assert r[i] == p[i];
      } else if i > idx {
        assert r[i] == p[i - 1];
      }
    }
  }

  /** When the list holds exactly `front`, keyed by themselves, adding `x` succeeds exactly
      when no row of `front` has the time window of `x`. */
  lemma SortedAddAfterRows(p: seq<Entry>, front: seq<DimensionalMetric>, x: DimensionalMetric)
    requires KeysSorted(p) && KeysAreValues(p) && multiset(Values(p)) == multiset(front)
    ensures SortedAdd(p, x).Some? <==> forall j :: 0 <= j < |front| ==> CompareByTime(front[j], x) != 0
  {
    SortedAddFails(p, x);
    if SortedAdd(p, x).Some? {
      forall j | 0 <= j < |front| ensures CompareByTime(front[j], x) != 0 {
        assert front[j] in multiset(Values(p));
        var k :| 0 <= k < |p| && Values(p)[k] == front[j];
        assert p[k].key == front[j];
      }
    } else {
      var k :| 0 <= k < |p| && CompareByTime(p[k].key, x) == 0;
      assert p[k].key == Values(p)[k];
      assert Values(p)[k] in multiset(front);
      var j :| 0 <= j < |front| && front[j] == Values(p)[k];
    }
  }

  lemma DistinctWindowsSnoc(front: seq<DimensionalMetric>, x: DimensionalMetric)
    ensures DistinctWindows(front + [x]) <==>
            DistinctWindows(front) && forall j :: 0 <= j < |front| ==> CompareByTime(front[j], x) != 0
  {
    var ms := front + [x];
    if DistinctWindows(ms) {
      forall i, j | 0 <= i < j < |front| ensures CompareByTime(front[i], front[j]) != 0 {
        assert ms[i] == front[i] && ms[j] == front[j];
      }
      forall j | 0 <= j < |front| ensures CompareByTime(front[j], x) != 0 {
        assert ms[j] == front[j] && ms[|front|] == x;
      }
    }
  }

  /** Filling an empty list succeeds exactly when the rows' time windows are pairwise
      distinct; the list then holds exactly the rows. */
  lemma {:induction false} AddAllFromEmpty(ms: seq<DimensionalMetric>)
    ensures KeysSorted(AddAll([], ms).0) && KeysAreValues(AddAll([], ms).0)
    ensures AddAll([], ms).1 <==> DistinctWindows(ms)
    ensures AddAll([], ms).1 ==> multiset(Values(AddAll([], ms).0)) == multiset(ms)
    decreases |ms|
  {
    if |ms| > 0 {
      var front := ms[..|ms| - 1];
      var x := ms[|ms| - 1];
      assert ms == front + [x];
      AddAllFromEmpty(front);
      AddAllProperties([], ms);
      DistinctWindowsSnoc(front, x);
      var (p, ok) := AddAll([], front);
      if ok {
        SortedAddAfterRows(p, front, x);
        if SortedAdd(p, x).Some? {
          SortedAddKeysAreValues(p, x);
        }
      } else {
        assert !DistinctWindows(front);
      }
    }
  }

  /** The first update of an empty table shows every row, in time order, unless two rows
      share a time window, in which case `SortedList.Add` throws. */
  lemma FirstUpdateShowsRowsInTimeOrder(rows: seq<DimensionalMetric>)
    ensures Synchronize([], rows).1 <==> DistinctWindows(rows)
    ensures Synchronize([], rows).1 ==>
              var vs := Values(Synchronize([], rows).0);
              multiset(vs) == multiset(rows) &&
              forall i, j :: 0 <= i < j < |vs| ==> CompareByTime(vs[i], vs[j]) < 0
  {
    assert Overwrite([], rows[..0]) == [];
    assert rows[0..] == rows;
    AddAllFromEmpty(rows);
    var es := Synchronize([], rows).0;
    assert forall i :: 0 <= i < |es| ==> Values(es)[i] == es[i].key;
  }

  /** The table component's state. */
  class MetricTableView {
    var entries: seq<Entry>
    var showLatestMetrics: bool
    var onlyShowValueChanges: bool
    var anyDimensionsShown: bool

    ghost predicate Valid()
      reads this
    {
      KeysSorted(entries)
    }

    constructor ()
      ensures Valid()
      ensures entries == [] && showLatestMetrics && !onlyShowValueChanges && !anyDimensionsShown
    {
      entries := [];
      showLatestMetrics := true;
      onlyShowValueChanges := false;
      anyDimensionsShown := false;
    }

    /** `FilteredMetrics`: the last ten rows when "show latest" is on. */
    function FilteredMetrics(): (r: seq<DimensionalMetric>)
      reads this
      ensures showLatestMetrics && |entries| > 10 ==> r == Values(entries)[|entries| - 10..]
      ensures !(showLatestMetrics && |entries| > 10) ==> r == Values(entries)
      ensures |r| <= |entries| && |r| <= (if showLatestMetrics then 10 else |entries|)
    {
      var vs := Values(entries);
      if showLatestMetrics && |vs| > 10 then vs[|vs| - 10..] else vs
    }

    /** `OnInstrumentDataUpdate`, without the re-render. `matched` is the instrument's matched
        dimensions (`None` when not yet known). Returns false when `SortedList.Add` throws. */
    method OnInstrumentDataUpdate(matched: Option<seq<Dimension>>, noDimensions: string) returns (ok: bool)
      requires Valid()
      modifies this
      ensures Valid()
      ensures showLatestMetrics == old(showLatestMetrics) && onlyShowValueChanges == old(onlyShowValueChanges)
      ensures matched.None? ==> ok && !anyDimensionsShown && entries == old(entries)
      ensures matched.Some? ==>
                (anyDimensionsShown <==> AnyDimensions(matched.value, noDimensions)) &&
                var rows := if onlyShowValueChanges then CollapseRuns(Rows(matched.value)) else Rows(matched.value);
                (entries, ok) == Synchronize(old(entries), rows)
    {
      anyDimensionsShown := false;
      ok := true;
      if matched.Some? {
        var metricsWithDimension, any := BuildRows(matched.value, noDimensions);
        anyDimensionsShown := any;
        if onlyShowValueChanges && |metricsWithDimension| > 0 {
          metricsWithDimension := CollapseValueChanges(metricsWithDimension);
        }
        TrimTo(|metricsWithDimension|);
        ok := UpdateRows(metricsWithDimension);
      }
    }

    /** Removing rows from the end until at most `n` remain. */
    method TrimTo(n: nat)
      requires Valid()
      modifies this
      ensures Valid()
      ensures entries == old(entries)[..Min(|old(entries)|, n)]
      ensures showLatestMetrics == old(showLatestMetrics) && onlyShowValueChanges == old(onlyShowValueChanges)
      ensures anyDimensionsShown == old(anyDimensionsShown)
    {
      ghost var original := entries;
      while |entries| > n
        invariant |entries| <= |original| && entries == original[..|entries|]
        invariant Min(|original|, n) <= |entries|
        invariant showLatestMetrics == old(showLatestMetrics) && onlyShowValueChanges == old(onlyShowValueChanges)
        invariant anyDimensionsShown == old(anyDimensionsShown)
        decreases |entries|
      {
        entries := entries[..|entries| - 1];
      }
      PrefixSorted(original, |entries|);
    }

    /** Row by row: overwrite the value of an existing slot when it differs, otherwise add. */
    method UpdateRows(rows: seq<DimensionalMetric>) returns (ok: bool)
      requires Valid() && |entries| <= |rows|
      modifies this
      ensures Valid()
      ensures (entries, ok) == AddAll(Overwrite(old(entries), rows[..|old(entries)|]), rows[|old(entries)|..])
      ensures showLatestMetrics == old(showLatestMetrics) && onlyShowValueChanges == old(onlyShowValueChanges)
      ensures anyDimensionsShown == old(anyDimensionsShown)
    {
      var list;
      list, ok := UpdateList(entries, rows);
      entries := list;
    }
  }
}
