/** The table that a job writes, and what reading it gives: an item per task holds what the task brought to
the sink, while the table takes the rows of an item from the size of the task. */
module JobTables {
  import opened Rows
  import opened Streams
  import opened Evaluator
  import opened Dag
  import opened Demand
  import opened SparseDense
  import opened Tasks
  import opened Influence
  import opened Cuts
  import Storage
  import opened TableReads

  /** The master counts up the sizes of the tasks. */
  method EndRowsOf(tasks: seq<seq<int>>, ghost b: seq<int>, ghost total: int) returns (endRows: seq<int>)
    requires Boundaries(b, total) && |tasks| == |b| - 1 && forall k | 0 <= k < |tasks| :: tasks[k] == TaskAt(b, k)
    ensures endRows == b[1..]
  {
    endRows := [];
    var rows := 0;
    for k := 0 to |tasks|
      invariant |endRows| == k && rows == b[k]
      invariant forall j | 0 <= j < k :: endRows[j] == b[j + 1]
    {
      assert tasks[k] == TaskAt(b, k) && b[k] <= b[k + 1];
      rows := rows + |tasks[k]|;
      endRows := endRows + [rows];
    }
  }

  /** An element as it is stored: nothing is written for a null element. */
  function BytesOf(e: Element): Storage.Bytes {
    if e.Null? then [] else e.bytes
  }

  function BytesOfAll(es: seq<Element>): (r: seq<Storage.Bytes>)
    ensures |r| == |es| && forall j | 0 <= j < |r| :: r[j] == BytesOf(es[j])
  {
    seq(|es|, j requires 0 <= j < |es| => BytesOf(es[j]))
  }

  /** The stored elements of the given rows of a column. */
  ghost function RowBytes(c: Contents, rows: seq<int>): (r: seq<Storage.Bytes>)
    ensures |r| == |rows| && forall j | 0 <= j < |r| :: r[j] == BytesOf(c(rows[j]))
  {
    seq(|rows|, j requires 0 <= j < |rows| => BytesOf(c(rows[j])))
  }

  /** The files of the `i`-th column of a job: for each task an item, written in batches of any sizes. */
  ghost predicate JobWritten(g: Graph, i: nat, c: Contents, b: seq<int>, items: seq<Item>,
                             written: seq<seq<seq<Storage.Bytes>>>)
    requires GraphOk(g) && i < SinkWidth(g)
  {
    && |items| == |written| == |b| - 1
    && (forall k | 0 <= k < |items| :: ItemOk(items[k], written[k]))
    && (forall k | 0 <= k < |written| :: Parts(written)[k] == RowBytes(c, SinkPart(g, i, TaskAt(b, k))))
  }

  // ---- Writing -----------------------------------------------------------------------------

  /** Writes an item in batches: first those of the plan, then what is left. */
  method WriteItem(elems: seq<Storage.Bytes>, plan: seq<nat>)
    returns (item: Item, ghost batches: seq<seq<Storage.Bytes>>)
    ensures ItemOk(item, batches) && Flatten(batches, |batches|) == elems
  {
    var w := new Storage.ItemWriter();
    var pos := 0;
    for q := 0 to |plan|
      invariant fresh(w) && w.Valid() && 0 <= pos <= |elems|
      invariant Flatten(w.batches, |w.batches|) == elems[..pos]
    {
      var n := if plan[q] < |elems| - pos then plan[q] else |elems| - pos;
      WriteMore(w, elems, pos, n);
      pos := pos + n;
    }
    WriteMore(w, elems, pos, |elems| - pos);
    item, batches := Item(w.metadata, w.data), w.batches;
    assert elems[..|elems|] == elems;
  }

  method WriteMore(w: Storage.ItemWriter, elems: seq<Storage.Bytes>, pos: nat, n: nat)
    requires w.Valid() && pos + n <= |elems| && Flatten(w.batches, |w.batches|) == elems[..pos]
    modifies w
    ensures w.Valid() && Flatten(w.batches, |w.batches|) == elems[..pos + n]
  {
    ghost var before := w.batches;
    w.Write(elems[pos..pos + n]);
    Storage.BatchAdded(before, w.batches, elems[pos..pos + n]);
    assert elems[..pos + n] == elems[..pos] + elems[pos..pos + n];
  }

  /** Writes what the tasks brought to the sink in one column. */
  method WriteColumn(parts: seq<seq<Element>>, plans: seq<seq<nat>>)
    returns (items: seq<Item>, ghost written: seq<seq<seq<Storage.Bytes>>>)
    ensures |items| == |written| == |parts|
    ensures forall k | 0 <= k < |items| :: ItemOk(items[k], written[k])
    ensures forall k | 0 <= k < |written| :: Parts(written)[k] == BytesOfAll(parts[k])
  {
    items, written := [], [];
    for k := 0 to |parts|
      invariant |items| == |written| == k
      invariant forall j | 0 <= j < k :: ItemOk(items[j], written[j])
      invariant forall j | 0 <= j < k :: Flatten(written[j], |written[j]|) == BytesOfAll(parts[j])
    {
      var item, batches := WriteItem(BytesOfAll(parts[k]), if k < |plans| then plans[k] else []);
      items, written := items + [item], written + [batches];
    }
  }

  // ---- Reading -----------------------------------------------------------------------------

  lemma EndRowsAre(b: seq<int>, total: int)
    requires Boundaries(b, total)
    ensures EndRowsOk(b[1..]) && forall k | 0 <= k <= |b[1..]| :: FirstRow(b[1..], k) == b[k]
  {
    forall k | 0 <= k < |b[1..]| ensures FirstRow(b[1..], k) <= b[1..][k] {
      assert b[k] <= b[k + 1];
    }
  }

  lemma PartSizes(g: Graph, i: nat, c: Contents, total: int, b: seq<int>, items: seq<Item>,
                  written: seq<seq<seq<Storage.Bytes>>>, k: nat)
    requires CutOk(g, total, b) && i < SinkWidth(g) && JobWritten(g, i, c, b, items, written) && k < |b| - 1
    ensures b[k + 1] - b[k] <= |Parts(written)[k]|
    ensures |Parts(written)[k]| == b[k + 1] - b[k] <==> Confined(g, i, TaskAt(b, k))
  {
    CutTaskRows(g, total, b, k);
    PartExact(g, i, TaskAt(b, k));
  }

  /** The items always hold enough elements. They hold as many as the table counts if and only if no task
  shares the column with a reader that goes beyond the task. */
  lemma FilesFit(g: Graph, i: nat, c: Contents, total: int, b: seq<int>, items: seq<Item>,
                 written: seq<seq<seq<Storage.Bytes>>>)
    requires CutOk(g, total, b) && i < SinkWidth(g) && JobWritten(g, i, c, b, items, written)
    ensures ColumnHolds(items, b[1..], written)
    ensures ColumnOk(items, b[1..], written) <==> CutConfined(g, i, b)
  {
    var parts := Parts(written);
    EndRowsAre(b, total);
    forall k | 0 <= k < |parts| ensures SizesAgree(parts, b, k) <==> Confined(g, i, TaskAt(b, k)) {
      PartSizes(g, i, c, total, b, items, written, k);
    }
    forall k | 0 <= k < |parts| ensures b[k + 1] - b[k] <= |parts[k]| {
      PartSizes(g, i, c, total, b, items, written, k);
    }
    SizesFit(parts, b, total);
  }

  /** Item `k` has as many elements as its task has rows. */
  ghost predicate SizesAgree(parts: seq<seq<Storage.Bytes>>, b: seq<int>, k: nat)
    requires k < |parts| == |b| - 1
  {
    |parts[k]| == b[k + 1] - b[k]
  }

  lemma SizesFit(parts: seq<seq<Storage.Bytes>>, b: seq<int>, total: int)
    requires Boundaries(b, total) && |parts| == |b| - 1
    requires forall k | 0 <= k < |parts| :: b[k + 1] - b[k] <= |parts[k]|
    ensures PartsHold(parts, b[1..])
    ensures PartsFit(parts, b[1..]) <==> forall k | 0 <= k < |parts| :: SizesAgree(parts, b, k)
  {
    EndRowsAre(b, total);
    var ends := b[1..];
    forall k | 0 <= k < |parts| ensures ends[k] - FirstRow(ends, k) == b[k + 1] - b[k] { }
    if forall k | 0 <= k < |parts| :: SizesAgree(parts, b, k) {
      forall k | 0 <= k < |parts| ensures |parts[k]| == ends[k] - FirstRow(ends, k) { assert SizesAgree(parts, b, k); }
    }
  }

  lemma RowInItem(parts: seq<seq<Storage.Bytes>>, total: int, b: seq<int>, k: nat, r: int)
    requires Boundaries(b, total) && PartsHold(parts, b[1..]) && k < |b| - 1 && b[k] <= r < b[k + 1]
    ensures InTable(b[1..], r) && r - b[k] < |parts[k]| && RowAt(parts, b[1..], r) == parts[k][r - b[k]]
  {
    EndRowsAre(b, total);
    RowLiesIn(parts, b[1..], r, k);
  }

  /** Row `r` of the table reads as the row that stands in its place. */
  lemma RowReads(g: Graph, i: nat, c: Contents, total: int, b: seq<int>, items: seq<Item>,
                 written: seq<seq<seq<Storage.Bytes>>>, k: nat, r: int)
    requires CutOk(g, total, b) && i < SinkWidth(g) && JobWritten(g, i, c, b, items, written)
    requires k < |b| - 1 && b[k] <= r < b[k + 1]
    ensures ColumnHolds(items, b[1..], written) && InTable(b[1..], r) && TaskRows(g, TaskAt(b, k))
    ensures RowAt(Parts(written), b[1..], r) == BytesOf(c(RowFound(g, i, b, k, r)))
  {
    FilesFit(g, i, c, total, b, items, written);
    CutTaskRows(g, total, b, k);
    RowInItem(Parts(written), total, b, k, r);
  }

  /** The task of a row. */
  lemma {:induction false} TaskOf(b: seq<int>, total: int, r: int, n: nat) returns (k: nat)
    requires Boundaries(b, total) && n < |b| && 0 <= r < b[n]
    ensures k < n && b[k] <= r < b[k + 1]
    decreases n
  {
    if b[n - 1] <= r { k := n - 1; } else { k := TaskOf(b, total, r, n - 1); }
  }

  /** Reads rows of the table of a job. If no other reader of the column reads an earlier row for an output
  row, this gives the elements of the full stream, under every cut and in any order of rows. */
  method ReadJob(items: seq<Item>, endRows: seq<int>, rows: seq<int>, threshold: int,
                 ghost g: Graph, ghost i: nat, ghost c: Contents, ghost total: int, ghost b: seq<int>,
                 ghost written: seq<seq<seq<Storage.Bytes>>>)
    returns (out: seq<Storage.Bytes>)
    requires CutOk(g, total, b) && i < SinkWidth(g) && JobWritten(g, i, c, b, items, written) && endRows == b[1..]
    requires rows != [] && forall j | 0 <= j < |rows| :: 0 <= rows[j] < total
    ensures NeverBack(g, i, total) ==> out == RowBytes(c, rows)
  {
    FilesFit(g, i, c, total, b, items, written);
    EndRowsAre(b, total);
    out := ReadColumn(items, endRows, rows, threshold, written);
    if NeverBack(g, i, total) {
      BackFound(g, i, total, b);
      forall j | 0 <= j < |rows| ensures out[j] == BytesOf(c(rows[j])) {
        var k := TaskOf(b, total, rows[j], |b| - 1);
        RowReads(g, i, c, total, b, items, written, k, rows[j]);
        assert TaskRowsFound(g, i, b, k);
      }
    }
  }
}
