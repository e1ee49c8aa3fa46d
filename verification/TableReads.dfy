/** Reading rows of a table column: the rows asked for, in any order and with repeats, are cut into runs
of ascending rows of one item, and each run is read from the files of its item. */
module TableReads {
  import opened Rows
  import opened Storage

  datatype Item = Item(metadata: seq<nat>, data: Bytes)

  /** Ascending offsets in one item, from `start` up to before `end`. */
  datatype Run = Run(item: nat, firstRow: int, start: int, end: int, offsets: seq<int>)

  function FirstRow(endRows: seq<int>, i: nat): int
    requires i <= |endRows|
  {
    if i == 0 then 0 else endRows[i - 1]
  }

  ghost predicate EndRowsOk(endRows: seq<int>) {
    forall i {:trigger FirstRow(endRows, i)} | 0 <= i < |endRows| :: FirstRow(endRows, i) <= endRows[i]
  }

  ghost predicate InTable(endRows: seq<int>, r: int) {
    0 <= r < FirstRow(endRows, |endRows|)
  }

  /** The item that row `r` lies in. */
  ghost predicate LiesIn(endRows: seq<int>, r: int, i: nat) {
    i < |endRows| && FirstRow(endRows, i) <= r < endRows[i]
  }

  method ItemFromRow(endRows: seq<int>, r: int) returns (i: nat)
    requires EndRowsOk(endRows) && InTable(endRows, r)
    ensures LiesIn(endRows, r, i)
  {
    i := 0;
    while i < |endRows|
      invariant 0 <= i <= |endRows| && FirstRow(endRows, i) <= r
    {
      if r < endRows[i] {
        break;
      }
      i := i + 1;
    }
  }

  method OffsetFromRow(endRows: seq<int>, r: int) returns (offset: int, ghost i: nat)
    requires EndRowsOk(endRows) && InTable(endRows, r)
    ensures LiesIn(endRows, r, i) && offset == r - FirstRow(endRows, i)
  {
    var k, last := 0, 0;
    while k < |endRows|
      invariant 0 <= k <= |endRows| && last == FirstRow(endRows, k) <= r
    {
      if r < endRows[k] {
        break;
      }
      last := endRows[k];
      k := k + 1;
    }
    offset, i := r - last, k;
  }

  lemma {:induction false} EndRowsMonotone(endRows: seq<int>, i: nat, j: nat)
    requires EndRowsOk(endRows) && i <= j <= |endRows|
    ensures FirstRow(endRows, i) <= FirstRow(endRows, j)
    decreases j
  {
    if i < j { EndRowsMonotone(endRows, i, j - 1); }
  }

  /** A row lies in one item only. */
  lemma OneItem(endRows: seq<int>, r: int, i: nat, j: nat)
    requires EndRowsOk(endRows) && LiesIn(endRows, r, i) && LiesIn(endRows, r, j)
    ensures i == j
  {
    if i < j { EndRowsMonotone(endRows, i + 1, j); }
    if j < i { EndRowsMonotone(endRows, j + 1, i); }
  }

  // ---- Cutting rows into runs --------------------------------------------------------------

  ghost predicate RunOk(endRows: seq<int>, run: Run) {
    && run.item < |endRows| && run.firstRow == FirstRow(endRows, run.item)
    && run.offsets != [] && Ascending(run.offsets)
    && run.start == run.offsets[0] && run.end == run.offsets[|run.offsets| - 1] + 1
    && 0 <= run.start && run.firstRow + run.end <= endRows[run.item]
  }

  /** The rows of a run. */
  function RunRows(run: Run): (r: seq<int>)
    ensures |r| == |run.offsets| && forall i | 0 <= i < |r| :: r[i] == run.firstRow + run.offsets[i]
  {
    seq(|run.offsets|, i requires 0 <= i < |run.offsets| => run.firstRow + run.offsets[i])
  }

  function AllRows(runs: seq<Run>, k: nat): seq<int>
    requires k <= |runs|
  {
    if k == 0 then [] else AllRows(runs, k - 1) + RunRows(runs[k - 1])
  }

  lemma {:induction false} AllRowsFrame(a: seq<Run>, b: seq<Run>, k: nat)
    requires k <= |a| && k <= |b| && forall i | 0 <= i < k :: a[i] == b[i]
    ensures AllRows(a, k) == AllRows(b, k)
  {
    if k > 0 { AllRowsFrame(a, b, k - 1); }
  }

  lemma RunAdded(runs: seq<Run>, run: Run)
    ensures AllRows(runs + [run], |runs| + 1) == AllRows(runs, |runs|) + RunRows(run)
  {
    AllRowsFrame(runs + [run], runs, |runs|);
  }

  /** One more row of the same item joins a run. */
  lemma RunGrows(endRows: seq<int>, run: Run, offset: int, bigger: Run)
    requires RunOk(endRows, run) && run.offsets[|run.offsets| - 1] < offset && run.firstRow + offset < endRows[run.item]
    requires bigger == run.(offsets := run.offsets + [offset], end := offset + 1)
    ensures RunOk(endRows, bigger) && RunRows(bigger) == RunRows(run) + [run.firstRow + offset]
  {
  }

  /** A run of one row. */
  method NewRun(endRows: seq<int>, r: int) returns (run: Run)
    requires EndRowsOk(endRows) && InTable(endRows, r)
    ensures RunOk(endRows, run) && |run.offsets| == 1 && RunRows(run) == [r] && r == run.firstRow + run.offsets[0]
  {
    var item := ItemFromRow(endRows, r);
    var offset, i := OffsetFromRow(endRows, r);
    OneItem(endRows, r, item, i);
    run := Run(item, FirstRow(endRows, item), offset, offset + 1, [offset]);
  }

  /** The runs found so far and the current one hold the first `k` rows. */
  ghost predicate Sliced(endRows: seq<int>, rows: seq<int>, k: nat, runs: seq<Run>, current: Run) {
    && 0 < k <= |rows| && RunOk(endRows, current) && (forall i | 0 <= i < |runs| :: RunOk(endRows, runs[i]))
    && AllRows(runs, |runs|) + RunRows(current) == rows[..k]
  }

  lemma SlicedNew(endRows: seq<int>, rows: seq<int>, k: nat, runs: seq<Run>, current: Run, single: Run)
    requires Sliced(endRows, rows, k, runs, current) && k < |rows| && RunOk(endRows, single) &&
             RunRows(single) == [rows[k]]
    ensures Sliced(endRows, rows, k + 1, runs + [current], single)
  {
    RunAdded(runs, current);
    assert rows[..k + 1] == rows[..k] + [rows[k]];
  }

  lemma SlicedGrow(endRows: seq<int>, rows: seq<int>, k: nat, runs: seq<Run>, current: Run, bigger: Run)
    requires Sliced(endRows, rows, k, runs, current) && k < |rows| && RunOk(endRows, bigger)
    requires RunRows(bigger) == RunRows(current) + [rows[k]]
    ensures Sliced(endRows, rows, k + 1, runs, bigger)
  {
    assert rows[..k + 1] == rows[..k] + [rows[k]];
    assert AllRows(runs, |runs|) + (RunRows(current) + [rows[k]]) ==
           (AllRows(runs, |runs|) + RunRows(current)) + [rows[k]];
  }

  /** The last of the first `k` rows is the last of the current run. */
  lemma LastSliced(endRows: seq<int>, rows: seq<int>, k: nat, runs: seq<Run>, current: Run)
    requires Sliced(endRows, rows, k, runs, current)
    ensures rows[k - 1] == current.firstRow + current.offsets[|current.offsets| - 1]
  {
    var all := AllRows(runs, |runs|) + RunRows(current);
    assert all[|all| - 1] == rows[..k][k - 1];
  }

  /** Adds row `k`: to the current run if it is a later row of the same item, else as a new run. */
  method SliceNext(endRows: seq<int>, rows: seq<int>, k: nat, runs: seq<Run>, current: Run)
    returns (runs': seq<Run>, current': Run)
    requires EndRowsOk(endRows) && Sliced(endRows, rows, k, runs, current) && k < |rows| && InTable(endRows, rows[k])
    ensures Sliced(endRows, rows, k + 1, runs', current')
  {
    runs', current' := runs, current;
    var single := NewRun(endRows, rows[k]);
    LastSliced(endRows, rows, k, runs, current);
    if single.item != current.item || rows[k] <= rows[k - 1] {
      SlicedNew(endRows, rows, k, runs, current, single);
      runs', current' := runs + [current], single;
    } else {
      var offset := single.offsets[0];
      current' := current.(offsets := current.offsets + [offset], end := offset + 1);
      RunGrows(endRows, current, offset, current');
      SlicedGrow(endRows, rows, k, runs, current, current');
    }
  }

  /** `slice_into_row_intervals`: the runs, one after the other, are the rows asked for. */
  method SliceRows(endRows: seq<int>, rows: seq<int>) returns (runs: seq<Run>)
    requires EndRowsOk(endRows) && rows != [] && forall i | 0 <= i < |rows| :: InTable(endRows, rows[i])
    ensures forall i | 0 <= i < |runs| :: RunOk(endRows, runs[i])
    ensures AllRows(runs, |runs|) == rows
  {
    runs := [];
    var current := NewRun(endRows, rows[0]);
    assert rows[..1] == [rows[0]];
    for k := 1 to |rows|
      invariant Sliced(endRows, rows, k, runs, current)
    {
      runs, current := SliceNext(endRows, rows, k, runs, current);
    }
    RunAdded(runs, current);
    runs := runs + [current];
    assert rows[..|rows|] == rows;
  }

  // ---- Reading a column --------------------------------------------------------------------

  /** The elements of each item. */
  ghost function Parts(written: seq<seq<seq<Bytes>>>): (r: seq<seq<Bytes>>)
    ensures |r| == |written| && forall i | 0 <= i < |r| :: r[i] == Flatten(written[i], |written[i]|)
  {
    seq(|written|, i requires 0 <= i < |written| => Flatten(written[i], |written[i]|))
  }

  /** Every item has at least as many elements as the table counts rows for it. */
  ghost predicate PartsHold(parts: seq<seq<Bytes>>, endRows: seq<int>) {
    && |parts| == |endRows| && EndRowsOk(endRows)
    && forall i {:trigger parts[i]} | 0 <= i < |parts| :: endRows[i] - FirstRow(endRows, i) <= |parts[i]|
  }

  /** Every item has as many elements as the table counts rows for it. */
  ghost predicate PartsFit(parts: seq<seq<Bytes>>, endRows: seq<int>) {
    PartsHold(parts, endRows) && forall i {:trigger parts[i]} | 0 <= i < |parts| ::
        |parts[i]| == endRows[i] - FirstRow(endRows, i)
  }

  ghost predicate ItemOk(item: Item, batches: seq<seq<Bytes>>) {
    item.metadata == Metadata(batches, |batches|) && item.data == Concat(Flatten(batches, |batches|))
  }

  /** The files of a column and what was written to them, batch by batch. */
  ghost predicate ColumnHolds(items: seq<Item>, endRows: seq<int>, written: seq<seq<seq<Bytes>>>) {
    && |items| == |written| && PartsHold(Parts(written), endRows)
    && forall i | 0 <= i < |items| :: ItemOk(items[i], written[i])
  }

  ghost predicate ColumnOk(items: seq<Item>, endRows: seq<int>, written: seq<seq<seq<Bytes>>>) {
    ColumnHolds(items, endRows, written) && PartsFit(Parts(written), endRows)
  }

  /** All elements of a column, in row order. */
  ghost function Stored(written: seq<seq<seq<Bytes>>>): seq<Bytes> {
    Flatten(Parts(written), |written|)
  }

  ghost function ItemOf(endRows: seq<int>, r: int, i: nat): (k: nat)
    requires EndRowsOk(endRows) && InTable(endRows, r) && i <= |endRows| && FirstRow(endRows, i) <= r
    ensures LiesIn(endRows, r, k)
    decreases |endRows| - i
  {
    if r < endRows[i] then i else ItemOf(endRows, r, i + 1)
  }

  /** Where the table looks for row `r`. */
  ghost function RowAt(parts: seq<seq<Bytes>>, endRows: seq<int>, r: int): Bytes
    requires PartsHold(parts, endRows) && InTable(endRows, r)
  {
    var i := ItemOf(endRows, r, 0);
    parts[i][r - FirstRow(endRows, i)]
  }

  lemma RowLiesIn(parts: seq<seq<Bytes>>, endRows: seq<int>, r: int, i: nat)
    requires PartsHold(parts, endRows) && LiesIn(endRows, r, i)
    ensures InTable(endRows, r) && RowAt(parts, endRows, r) == parts[i][r - FirstRow(endRows, i)]
  {
    EndRowsMonotone(endRows, 0, i);
    EndRowsMonotone(endRows, i + 1, |endRows|);
    OneItem(endRows, r, ItemOf(endRows, r, 0), i);
  }

  lemma {:induction false} FlattenedSize(parts: seq<seq<Bytes>>, endRows: seq<int>, k: nat)
    requires PartsFit(parts, endRows) && k <= |parts|
    ensures |Flatten(parts, k)| == FirstRow(endRows, k)
  {
    if k > 0 { FlattenedSize(parts, endRows, k - 1); }
  }

  lemma {:induction false} FlattenedAt(parts: seq<seq<Bytes>>, endRows: seq<int>, i: nat, offset: nat, k: nat)
    requires PartsFit(parts, endRows) && i < k <= |parts| && offset < |parts[i]|
    ensures 0 <= FirstRow(endRows, i) + offset < |Flatten(parts, k)|
    ensures Flatten(parts, k)[FirstRow(endRows, i) + offset] == parts[i][offset]
    decreases k
  {
    EndRowsMonotone(endRows, 0, i);
    FlattenedSize(parts, endRows, k - 1);
    if i < k - 1 { FlattenedAt(parts, endRows, i, offset, k - 1); }
  }

  /** If every item has as many elements as the table counts, row `r` is the `r`-th element stored. */
  lemma RowIsStored(parts: seq<seq<Bytes>>, endRows: seq<int>, r: int)
    requires PartsFit(parts, endRows) && InTable(endRows, r)
    ensures r < |Flatten(parts, |parts|)| && RowAt(parts, endRows, r) == Flatten(parts, |parts|)[r]
  {
    var i := ItemOf(endRows, r, 0);
    FlattenedAt(parts, endRows, i, r - FirstRow(endRows, i), |parts|);
  }

  /** The elements of the given rows. */
  ghost function RowsAt(parts: seq<seq<Bytes>>, endRows: seq<int>, rows: seq<int>): (r: seq<Bytes>)
    requires PartsHold(parts, endRows) && forall i | 0 <= i < |rows| :: InTable(endRows, rows[i])
    ensures |r| == |rows| && forall i | 0 <= i < |r| :: r[i] == RowAt(parts, endRows, rows[i])
  {
    seq(|rows|, i requires 0 <= i < |rows| => RowAt(parts, endRows, rows[i]))
  }

  /** A run reads its rows. */
  lemma RunReads(parts: seq<seq<Bytes>>, endRows: seq<int>, run: Run)
    requires PartsHold(parts, endRows) && RunOk(endRows, run)
    ensures forall i | 0 <= i < |run.offsets| :: 0 <= run.offsets[i] < |parts[run.item]|
    ensures forall i | 0 <= i < |run.offsets| :: InTable(endRows, RunRows(run)[i])
    ensures Pick(parts[run.item], run.offsets) == RowsAt(parts, endRows, RunRows(run))
  {
    forall i | 0 <= i < |run.offsets|
      ensures 0 <= run.offsets[i] < |parts[run.item]| && InTable(endRows, RunRows(run)[i])
      ensures parts[run.item][run.offsets[i]] == RowAt(parts, endRows, RunRows(run)[i])
    {
      assert run.offsets[0] <= run.offsets[i] <= run.offsets[|run.offsets| - 1];
      RowLiesIn(parts, endRows, RunRows(run)[i], run.item);
    }
  }

  method ReadRun(items: seq<Item>, run: Run, threshold: int, ghost endRows: seq<int>,
                 ghost written: seq<seq<seq<Bytes>>>)
    returns (out: seq<Bytes>)
    requires ColumnHolds(items, endRows, written) && RunOk(endRows, run)
    ensures forall i | 0 <= i < |run.offsets| :: InTable(endRows, RunRows(run)[i])
    ensures out == RowsAt(Parts(written), endRows, RunRows(run))
  {
    assert ItemOk(items[run.item], written[run.item]);
    RunReads(Parts(written), endRows, run);
    assert run.end <= |Parts(written)[run.item]|;
    out := ReadItem(items[run.item].metadata, items[run.item].data, run.start, run.end, run.offsets, threshold,
                    written[run.item]);
  }

  lemma RowsAtConcat(parts: seq<seq<Bytes>>, endRows: seq<int>, a: seq<int>, b: seq<int>)
    requires PartsHold(parts, endRows)
    requires (forall i | 0 <= i < |a| :: InTable(endRows, a[i])) && (forall i | 0 <= i < |b| :: InTable(endRows, b[i]))
    ensures forall i | 0 <= i < |a + b| :: InTable(endRows, (a + b)[i])
    ensures RowsAt(parts, endRows, a + b) == RowsAt(parts, endRows, a) + RowsAt(parts, endRows, b)
  {
  }

  lemma RowsAreStored(parts: seq<seq<Bytes>>, endRows: seq<int>, rows: seq<int>)
    requires PartsFit(parts, endRows) && forall i | 0 <= i < |rows| :: InTable(endRows, rows[i])
    ensures forall i | 0 <= i < |rows| :: 0 <= rows[i] < |Flatten(parts, |parts|)|
    ensures RowsAt(parts, endRows, rows) == Pick(Flatten(parts, |parts|), rows)
  {
    forall i | 0 <= i < |rows|
      ensures rows[i] < |Flatten(parts, |parts|)| && RowAt(parts, endRows, rows[i]) == Flatten(parts, |parts|)[rows[i]]
    {
      RowIsStored(parts, endRows, rows[i]);
    }
  }

  /** `ColumnSource::read` for a column of bytes: for any rows of the table, in any order and with repeats,
  and for any sparsity threshold, the elements that the table has for these rows, in the order asked
  for. If every item has as many elements as the table counts, these are the stored elements by number. */
  method ReadColumn(items: seq<Item>, endRows: seq<int>, rows: seq<int>, threshold: int,
                    ghost written: seq<seq<seq<Bytes>>>)
    returns (out: seq<Bytes>)
    requires ColumnHolds(items, endRows, written) && rows != [] &&
             forall i | 0 <= i < |rows| :: InTable(endRows, rows[i])
    ensures out == RowsAt(Parts(written), endRows, rows)
    ensures ColumnOk(items, endRows, written) ==>
              (forall i | 0 <= i < |rows| :: 0 <= rows[i] < |Stored(written)|) && out == Pick(Stored(written), rows)
  {
    var runs := SliceRows(endRows, rows);
    out := [];
    ghost var parts := Parts(written);
    for k := 0 to |runs|
      invariant forall i | 0 <= i < |AllRows(runs, k)| :: InTable(endRows, AllRows(runs, k)[i])
      invariant out == RowsAt(parts, endRows, AllRows(runs, k))
    {
      var part := ReadRun(items, runs[k], threshold, endRows, written);
      RowsAtConcat(parts, endRows, AllRows(runs, k), RunRows(runs[k]));
      out := out + part;
    }
    if ColumnOk(items, endRows, written) { RowsAreStored(parts, endRows, rows); }
  }
}
