/**
 * Offline preparation of the price series (scripts/preprocessing.py):
 * dropping rows with missing cells, and cutting the PRICE series into a
 * training prefix and a test suffix.
 */
module Preprocessing {
  import opened Wrappers
  import opened Frames

  /** A row of the DATE-indexed frame that `load_data` produces: its DATE index label and its cells. */
  datatype Entry = Entry(date: Value, row: Row)

  /** A DATE-indexed frame: its ordinary columns and its rows, in file order. */
  datatype Table = Table(columns: set<string>, entries: seq<Entry>)

  /** One element of a pandas Series: its DATE index label and its value. */
  datatype Point = Point(date: Value, value: Value)

  type Series = seq<Point>

  /** The two halves returned by `split_data`. */
  datatype Split = Split(train: Series, test: Series)

  /** No ordinary column of the entry holds a missing value (the index is not inspected). */
  predicate Complete(columns: set<string>, e: Entry)
  {
    forall c :: c in columns ==> Cell(e.row, c) != Missing
  }

  /** `a` is `b` with some elements left out, the rest in their original order. */
  predicate IsSubsequence<T(==)>(a: seq<T>, b: seq<T>)
    decreases |b|
  {
    if a == [] then true
    else if b == [] then false
    else if a[0] == b[0] then IsSubsequence(a[1..], b[1..])
    else IsSubsequence(a, b[1..])
  }

  /** The complete entries of `entries`, in order. */
  function KeepComplete(columns: set<string>, entries: seq<Entry>): seq<Entry>
  {
    if entries == [] then []
    else if Complete(columns, entries[0]) then [entries[0]] + KeepComplete(columns, entries[1..])
    else KeepComplete(columns, entries[1..])
  }

  lemma {:induction false} KeepCompleteSound(columns: set<string>, entries: seq<Entry>)
    ensures forall i :: 0 <= i < |KeepComplete(columns, entries)| ==>
              Complete(columns, KeepComplete(columns, entries)[i])
  {
    if entries != [] {
      KeepCompleteSound(columns, entries[1..]);
    }
  }

  lemma {:induction false} KeepCompleteKeeps(columns: set<string>, entries: seq<Entry>)
    ensures forall i :: 0 <= i < |entries| && Complete(columns, entries[i]) ==>
              entries[i] in KeepComplete(columns, entries)
  {
    if entries != [] {
      KeepCompleteKeeps(columns, entries[1..]);
      forall i | 1 <= i < |entries| && Complete(columns, entries[i])
        ensures entries[i] in KeepComplete(columns, entries)
      {
        assert entries[i] == entries[1..][i - 1];
      }
    }
  }

  lemma {:induction false} KeepCompleteSubsequence(columns: set<string>, entries: seq<Entry>)
    ensures IsSubsequence(KeepComplete(columns, entries), entries)
  {
    if entries != [] {
      KeepCompleteSubsequence(columns, entries[1..]);
      var rest := KeepComplete(columns, entries[1..]);
      if !Complete(columns, entries[0]) {
        SubsequenceOfTail(rest, entries);
      }
    }
  }

  lemma {:induction false} KeepCompleteCounts(columns: set<string>, entries: seq<Entry>)
    ensures forall e :: multiset(KeepComplete(columns, entries))[e] ==
              if Complete(columns, e) then multiset(entries)[e] else 0
  {
    if entries != [] {
      KeepCompleteCounts(columns, entries[1..]);
      assert entries == [entries[0]] + entries[1..];
      assert multiset(entries) == multiset{entries[0]} + multiset(entries[1..]);
    }
  }

  /** Leaving out the head of `b` keeps every subsequence of its tail a subsequence. */
  lemma {:induction false} SubsequenceOfTail<T>(a: seq<T>, b: seq<T>)
    requires b != [] && IsSubsequence(a, b[1..])
    ensures IsSubsequence(a, b)
    decreases |b|, 0
  {
    if a != [] && a[0] == b[0] {
      SubsequenceDropHead(a, b[1..]);
    }
  }

  /** Leaving out the head of `a` keeps it a subsequence. */
  lemma {:induction false} SubsequenceDropHead<T>(a: seq<T>, c: seq<T>)
    requires a != [] && IsSubsequence(a, c)
    ensures IsSubsequence(a[1..], c)
    decreases |c|, 1
  {
    if a[0] == c[0] {
      SubsequenceOfTail(a[1..], c);
    } else {
      SubsequenceDropHead(a, c[1..]);
      SubsequenceOfTail(a[1..], c);
    }
  }

  /**
   * `make_stationary(df)`, i.e. `df.dropna()`: the rows without a missing
   * cell, in their original relative order; the columns are unchanged.
   */
  function MakeStationary(t: Table): (r: Table)
    ensures r.columns == t.columns
    ensures forall i :: 0 <= i < |r.entries| ==> Complete(t.columns, r.entries[i])
    ensures forall i :: 0 <= i < |t.entries| && Complete(t.columns, t.entries[i]) ==> t.entries[i] in r.entries
    ensures IsSubsequence(r.entries, t.entries)
    ensures forall e :: multiset(r.entries)[e] == if Complete(t.columns, e) then multiset(t.entries)[e] else 0
  {
    KeepCompleteCounts(t.columns, t.entries);
    KeepCompleteSound(t.columns, t.entries);
    KeepCompleteKeeps(t.columns, t.entries);
    KeepCompleteSubsequence(t.columns, t.entries);
    Table(t.columns, KeepComplete(t.columns, t.entries))
  }

  lemma {:induction false} KeepCompleteIdempotent(columns: set<string>, entries: seq<Entry>)
    ensures KeepComplete(columns, KeepComplete(columns, entries)) == KeepComplete(columns, entries)
  {
    if entries != [] {
      KeepCompleteIdempotent(columns, entries[1..]);
      var rest := KeepComplete(columns, entries[1..]);
      if Complete(columns, entries[0]) {
        assert ([entries[0]] + rest)[1..] == rest;
      }
    }
  }

  /** Dropping missing rows a second time changes nothing. */
  lemma MakeStationaryIdempotent(t: Table)
    ensures MakeStationary(MakeStationary(t)) == MakeStationary(t)
  {
    KeepCompleteIdempotent(t.columns, t.entries);
  }

  lemma {:induction false} KeepCompleteAppend(columns: set<string>, a: seq<Entry>, b: seq<Entry>)
    ensures KeepComplete(columns, a + b) == KeepComplete(columns, a) + KeepComplete(columns, b)
  {
    if a == [] {
      assert a + b == b;
    } else {
      assert (a + b)[0] == a[0];
      assert (a + b)[1..] == a[1..] + b;
      KeepCompleteAppend(columns, a[1..], b);
    }
  }

  /** The filter works row by row: cleaning two stretches of rows and joining them is cleaning the join. */
  lemma MakeStationaryAppend(columns: set<string>, a: seq<Entry>, b: seq<Entry>)
    ensures MakeStationary(Table(columns, a + b)).entries ==
            MakeStationary(Table(columns, a)).entries + MakeStationary(Table(columns, b)).entries
  {
    KeepCompleteAppend(columns, a, b);
  }

  lemma {:induction false} KeepCompleteShrinks(columns: set<string>, entries: seq<Entry>)
    ensures |KeepComplete(columns, entries)| <= |entries|
    ensures KeepComplete(columns, entries) == entries <==>
            forall i :: 0 <= i < |entries| ==> Complete(columns, entries[i])
  {
    if entries != [] {
      KeepCompleteShrinks(columns, entries[1..]);
      if Complete(columns, entries[0]) {
        var rest := KeepComplete(columns, entries[1..]);
        assert [entries[0]] + rest == entries <==> rest == entries[1..] by {
          if [entries[0]] + rest == entries {
            assert ([entries[0]] + rest)[1..] == rest;
          }
        }
        assert (forall i :: 1 <= i < |entries| ==> Complete(columns, entries[i])) <==>
               (forall j :: 0 <= j < |entries[1..]| ==> Complete(columns, entries[1..][j])) by {
          if forall j :: 0 <= j < |entries[1..]| ==> Complete(columns, entries[1..][j]) {
            forall i | 1 <= i < |entries| ensures Complete(columns, entries[i]) {
              assert entries[i] == entries[1..][i - 1];
            }
          }
        }
      }
    }
  }

  /** A frame is left as it is exactly when none of its rows has a missing cell. */
  lemma MakeStationaryFixpoint(t: Table)
    ensures MakeStationary(t) == t <==> forall i :: 0 <= i < |t.entries| ==> Complete(t.columns, t.entries[i])
  {
    KeepCompleteShrinks(t.columns, t.entries);
  }

  /** `df[name]`: the column as a Series carrying the index labels (`date`); a `KeyError` when absent. */
  function ColumnSeries(t: Table, name: string): (s: Option<Series>)
    ensures s.Some? <==> name in t.columns
    ensures s.Some? ==> |s.value| == |t.entries|
    ensures s.Some? ==> forall i :: 0 <= i < |t.entries| ==>
              s.value[i] == Point(t.entries[i].date, Cell(t.entries[i].row, name))
  {
    if name in t.columns then
      Some(seq(|t.entries|, i requires 0 <= i < |t.entries| => Point(t.entries[i].date, Cell(t.entries[i].row, name))))
    else None
  }

  /** `int(n * 0.8)`: the largest whole number of rows not above four fifths of `n`. */
  function TrainLength(n: nat): (k: nat)
    ensures 5 * k <= 4 * n < 5 * k + 5
    ensures k <= n
  {
    (4 * n) / 5
  }

  /**
   * `split_data(df, train_size)`: the PRICE series cut after its first
   * `int(len * 0.8)` elements. The argument `train_size` is overwritten
   * before it is read; a frame without PRICE raises a `KeyError` (`None`).
   */
  function SplitData(t: Table, trainSize: real): (r: Option<Split>)
    ensures r.Some? <==> PriceColumn in t.columns
    ensures r.Some? ==>
              var ts := ColumnSeries(t, PriceColumn).value;
              && r.value.train + r.value.test == ts
              && |r.value.train| == TrainLength(|ts|)
              && |r.value.test| == |ts| - |r.value.train|
              && (|ts| > 0 ==> |r.value.test| > 0)
  {
    match ColumnSeries(t, PriceColumn)
    case None => None
    case Some(ts) =>
      var n := TrainLength(|ts|);
      assert ts[..n] + ts[n..] == ts;
      Some(Split(ts[..n], ts[n..]))
  }

  /** The `train_size` argument has no influence on the split. */
  lemma SplitIgnoresTrainSize(t: Table, a: real, b: real)
    ensures SplitData(t, a) == SplitData(t, b)
  {
  }

  /** `train` is the leading part and `test` the trailing part of the series, each in series order. */
  lemma SplitPrefixSuffix(t: Table, trainSize: real)
    requires PriceColumn in t.columns
    ensures var ts := ColumnSeries(t, PriceColumn).value;
            var s := SplitData(t, trainSize).value;
            && (forall i :: 0 <= i < |s.train| ==> s.train[i] == ts[i])
            && (forall j :: 0 <= j < |s.test| ==> s.test[j] == ts[|s.train| + j])
  {
    var ts := ColumnSeries(t, PriceColumn).value;
    var s := SplitData(t, trainSize).value;
    forall j | 0 <= j < |s.test| ensures s.test[j] == ts[|s.train| + j] {
      assert ts[|s.train| + j] == (s.train + s.test)[|s.train| + j];
    }
  }

  /** After `make_stationary`, neither half of the split holds a missing price. */
  lemma SplitOfStationaryHasNoMissing(t: Table, trainSize: real)
    requires PriceColumn in t.columns
    ensures var s := SplitData(MakeStationary(t), trainSize).value;
            && (forall i :: 0 <= i < |s.train| ==> s.train[i].value != Missing)
            && (forall j :: 0 <= j < |s.test| ==> s.test[j].value != Missing)
  {
    var c := MakeStationary(t);
    var ts := ColumnSeries(c, PriceColumn).value;
    var s := SplitData(c, trainSize).value;
    SplitPrefixSuffix(c, trainSize);
    forall k | 0 <= k < |ts| ensures ts[k].value != Missing {
      assert Complete(c.columns, c.entries[k]);
    }
  }
}
