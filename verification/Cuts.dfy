/** What a whole job stores. Its output rows are cut into tasks, as `io_packet_size` decides; each task
brings to the sink the rows that its own output rows need, and the table counts the rows of the tasks. */
module Cuts {
  import opened Rows
  import opened Streams
  import opened Evaluator
  import opened Dag
  import opened Demand
  import opened SparseDense
  import opened Tasks
  import opened Influence

  /** The rows from 0 to `total` are output rows of the graph, and `b` cuts them into tasks. */
  ghost predicate CutOk(g: Graph, total: int, b: seq<int>) {
    GraphOk(g) && Boundaries(b, total) && OutputRows(g, Interval(0, total))
  }

  /** The rows of task `k`. */
  function TaskAt(b: seq<int>, k: nat): seq<int>
    requires k < |b| - 1
  {
    Interval(b[k], b[k + 1])
  }

  /** What each task brings to the sink. */
  ghost function StoredParts(g: Graph, i: nat, b: seq<int>): (parts: seq<seq<int>>)
    requires GraphOk(g) && i < SinkWidth(g) && b != []
    ensures |parts| == |b| - 1
    ensures forall k | 0 <= k < |parts| :: parts[k] == SinkPart(g, i, TaskAt(b, k))
  {
    seq(|b| - 1, k requires 0 <= k < |b| - 1 => SinkPart(g, i, TaskAt(b, k)))
  }

  /** The rows that the job stores, in order. */
  ghost function StoredRows(g: Graph, i: nat, b: seq<int>): seq<int>
    requires GraphOk(g) && i < SinkWidth(g) && b != []
  {
    Flatten(StoredParts(g, i, b), |b| - 1)
  }

  // ---- One cut -----------------------------------------------------------------------------

  lemma {:induction false} BoundariesMonotone(b: seq<int>, total: int, i: nat, j: nat)
    requires Boundaries(b, total) && i <= j < |b|
    ensures b[i] <= b[j]
    decreases j
  {
    if i < j { BoundariesMonotone(b, total, i, j - 1); }
  }

  lemma CutTaskRows(g: Graph, total: int, b: seq<int>, k: nat)
    requires CutOk(g, total, b) && k < |b| - 1
    ensures 0 <= b[k] <= b[k + 1] <= total && TaskRows(g, TaskAt(b, k))
  {
    BoundariesMonotone(b, total, 0, k);
    BoundariesMonotone(b, total, k + 1, |b| - 1);
    OutputRowsWithin(g, Interval(0, total), TaskAt(b, k));
  }

  lemma OutputRowsWithin(g: Graph, rows: seq<int>, sub: seq<int>)
    requires GraphOk(g) && OutputRows(g, rows) && forall x | x in sub :: x in rows
    ensures OutputRows(g, sub)
  {
    var sink := g.ops[|g.ops| - 1];
    forall i, x | 0 <= i < |sink.inputs| && x in sub
      ensures sink.inputs[i].op < |g.ops| && InStream(g, sink.inputs[i].op, x)
    {
      assert x in rows;
    }
  }

  /** No output row of a task brings a row of the column that is not the task's. */
  ghost predicate Confined(g: Graph, i: nat, rows: seq<int>)
    requires GraphOk(g) && i < SinkWidth(g)
  {
    forall x, y | x in rows && SharedFor(g, i, x, y) :: y in rows
  }

  /** A task brings its own rows exactly if they need no others. Else it brings more. */
  lemma PartExact(g: Graph, i: nat, rows: seq<int>)
    requires GraphOk(g) && i < SinkWidth(g) && TaskRows(g, rows)
    ensures |rows| <= |SinkPart(g, i, rows)|
    ensures |rows| == |SinkPart(g, i, rows)| <==> SinkPart(g, i, rows) == rows
    ensures SinkPart(g, i, rows) == rows <==> Confined(g, i, rows)
  {
    var part := SinkPart(g, i, rows);
    SinkPartRows(g, i, rows);
    SupersetLength(rows, part);
    if part == rows {
      forall x, y | x in rows && SharedFor(g, i, x, y) ensures y in rows { assert Brings(g, i, x, y); }
    }
    if Confined(g, i, rows) { SameRows(part, rows); }
  }

  /** The first `n` tasks are confined. */
  ghost predicate AllConfined(g: Graph, i: nat, b: seq<int>, n: nat)
    requires GraphOk(g) && i < SinkWidth(g) && n < |b|
  {
    forall k | 0 <= k < n :: Confined(g, i, TaskAt(b, k))
  }

  ghost predicate CutConfined(g: Graph, i: nat, b: seq<int>)
    requires GraphOk(g) && i < SinkWidth(g) && b != []
  {
    AllConfined(g, i, b, |b| - 1)
  }

  lemma ConfinedStep(g: Graph, i: nat, b: seq<int>, k: nat)
    requires GraphOk(g) && i < SinkWidth(g) && 0 < k < |b|
    ensures AllConfined(g, i, b, k) <==> AllConfined(g, i, b, k - 1) && Confined(g, i, TaskAt(b, k - 1))
  {
  }

  lemma PartLength(g: Graph, i: nat, total: int, b: seq<int>, k: nat)
    requires CutOk(g, total, b) && i < SinkWidth(g) && k < |b| - 1
    ensures b[k + 1] - b[k] <= |StoredParts(g, i, b)[k]|
    ensures |StoredParts(g, i, b)[k]| == b[k + 1] - b[k] <==> Confined(g, i, TaskAt(b, k))
  {
    CutTaskRows(g, total, b, k);
    PartExact(g, i, TaskAt(b, k));
  }

  lemma {:induction false} StoredLength(g: Graph, i: nat, total: int, b: seq<int>, k: nat)
    requires CutOk(g, total, b) && i < SinkWidth(g) && k < |b|
    ensures b[k] <= |Flatten(StoredParts(g, i, b), k)|
    ensures |Flatten(StoredParts(g, i, b), k)| == b[k] <==> AllConfined(g, i, b, k)
  {
    if k > 0 {
      StoredLength(g, i, total, b, k - 1);
      PartLength(g, i, total, b, k - 1);
      ConfinedStep(g, i, b, k);
      FlattenLength(StoredParts(g, i, b), k);
    }
  }

  lemma {:induction false} StoredTasks(g: Graph, i: nat, total: int, b: seq<int>, k: nat)
    requires CutOk(g, total, b) && i < SinkWidth(g) && k < |b| && AllConfined(g, i, b, k)
    ensures 0 <= b[k] && Flatten(StoredParts(g, i, b), k) == Interval(0, b[k])
  {
    if k > 0 {
      StoredTasks(g, i, total, b, k - 1);
      CutTaskRows(g, total, b, k - 1);
      assert Confined(g, i, TaskAt(b, k - 1));
      PartExact(g, i, TaskAt(b, k - 1));
      IntervalSplit(0, b[k - 1], b[k]);
    }
  }

  /** Under a given cut, a job stores at least its output rows. It stores exactly these if and only if no
  task has to share the column with a reader that goes beyond the task, and else it stores more. */
  lemma CutExact(g: Graph, i: nat, total: int, b: seq<int>)
    requires CutOk(g, total, b) && i < SinkWidth(g)
    ensures total <= |StoredRows(g, i, b)|
    ensures StoredRows(g, i, b) == Interval(0, total) <==> CutConfined(g, i, b)
    ensures |StoredRows(g, i, b)| == total <==> CutConfined(g, i, b)
  {
    StoredLength(g, i, total, b, |b| - 1);
    BoundariesMonotone(b, total, 0, |b| - 1);
    if CutConfined(g, i, b) { StoredTasks(g, i, total, b, |b| - 1); }
  }

  // ---- Every cut ---------------------------------------------------------------------------

  /** Every other reader of the column reads, for an output row, that row only. A property of the graph. */
  ghost predicate ColumnAlone(g: Graph, i: nat, total: int)
    requires GraphOk(g) && i < SinkWidth(g)
  {
    forall x, y | 0 <= x < total && SharedFor(g, i, x, y) :: y == x
  }

  /** A task for each row. */
  lemma SinglesCut(total: int)
    requires 0 <= total
    ensures var b := Interval(0, total + 1);
            Boundaries(b, total) && forall x | 0 <= x <= total :: b[x] == x
  {
  }

  lemma AloneConfined(g: Graph, i: nat, total: int, b: seq<int>)
    requires CutOk(g, total, b) && i < SinkWidth(g) && ColumnAlone(g, i, total)
    ensures CutConfined(g, i, b)
  {
    forall k | 0 <= k < |b| - 1 ensures Confined(g, i, TaskAt(b, k)) {
      CutTaskRows(g, total, b, k);
    }
  }

  lemma ConfinedAlone(g: Graph, i: nat, total: int)
    requires 0 <= total && GraphOk(g) && i < SinkWidth(g) && CutConfined(g, i, Interval(0, total + 1))
    ensures ColumnAlone(g, i, total)
  {
    var b := Interval(0, total + 1);
    SinglesCut(total);
    forall x, y | 0 <= x < total && SharedFor(g, i, x, y) ensures y == x {
      assert Confined(g, i, TaskAt(b, x)) && b[x] == x && b[x + 1] == x + 1;
      assert x in TaskAt(b, x);
    }
  }

  /** The elements stored for a column are those of the full stream under every cut of the job into tasks if
  and only if every other reader of the column reads, for an output row, that row only. Whether it
  holds does not depend on what the stream contains. */
  lemma JobExact(g: Graph, i: nat, total: int, c: Contents)
    requires 0 <= total && GraphOk(g) && OutputRows(g, Interval(0, total)) && i < SinkWidth(g)
    ensures (forall b | Boundaries(b, total) :: Values(c, StoredRows(g, i, b)) == Values(c, Interval(0, total))) <==>
            ColumnAlone(g, i, total)
  {
    if forall b | Boundaries(b, total) :: Values(c, StoredRows(g, i, b)) == Values(c, Interval(0, total)) {
      var b := Interval(0, total + 1);
      SinglesCut(total);
      assert |Values(c, StoredRows(g, i, b))| == total;
      CutExact(g, i, total, b);
      ConfinedAlone(g, i, total);
    }
    if ColumnAlone(g, i, total) {
      forall b | Boundaries(b, total) ensures StoredRows(g, i, b) == Interval(0, total) {
        AloneConfined(g, i, total, b);
        CutExact(g, i, total, b);
      }
    }
  }

  // ---- Reading the table -------------------------------------------------------------------

  /** The row of the column that stands where the table has row `r`, in task `k`. */
  ghost function RowFound(g: Graph, i: nat, b: seq<int>, k: nat, r: int): int
    requires GraphOk(g) && i < SinkWidth(g) && k < |b| - 1 && b[k] <= r < b[k + 1]
    requires TaskRows(g, TaskAt(b, k))
  {
    PartExact(g, i, TaskAt(b, k));
    SinkPart(g, i, TaskAt(b, k))[r - b[k]]
  }

  ghost predicate TaskRowsFound(g: Graph, i: nat, b: seq<int>, k: nat)
    requires GraphOk(g) && i < SinkWidth(g) && k < |b| - 1
  {
    TaskRows(g, TaskAt(b, k)) && forall r | b[k] <= r < b[k + 1] :: RowFound(g, i, b, k, r) == r
  }

  ghost predicate RowsFound(g: Graph, i: nat, total: int, b: seq<int>)
    requires CutOk(g, total, b) && i < SinkWidth(g)
  {
    forall k | 0 <= k < |b| - 1 :: TaskRowsFound(g, i, b, k)
  }

  /** Every other reader of the column reads, for an output row, no earlier row. A property of the graph. */
  ghost predicate NeverBack(g: Graph, i: nat, total: int)
    requires GraphOk(g) && i < SinkWidth(g)
  {
    forall x, y | 0 <= x < total && SharedFor(g, i, x, y) :: x <= y
  }

  /** The rows of a task are found exactly if it brings no row from before the task. */
  lemma TaskFound(g: Graph, i: nat, b: seq<int>, k: nat)
    requires GraphOk(g) && i < SinkWidth(g) && k < |b| - 1 && b[k] < b[k + 1] && TaskRows(g, TaskAt(b, k))
    ensures TaskRowsFound(g, i, b, k) <==>
            forall x, y | b[k] <= x < b[k + 1] && SharedFor(g, i, x, y) :: b[k] <= y
  {
    var lo, hi := b[k], b[k + 1];
    var part := SinkPart(g, i, Interval(lo, hi));
    SinkPartRows(g, i, Interval(lo, hi));
    FrontRows(lo, hi, part);
    assert forall q | 0 <= q < hi - lo :: RowFound(g, i, b, k, lo + q) == part[q];
    assert TaskRowsFound(g, i, b, k) <==> forall q | 0 <= q < hi - lo :: part[q] == lo + q;
    if forall y | y in part :: lo <= y {
      forall x, y | lo <= x < hi && SharedFor(g, i, x, y) ensures lo <= y {
        assert x in Interval(lo, hi) && Brings(g, i, x, y);
        assert y in part;
      }
    }
  }

  /** Reading the stored table finds every row under every cut if and only if no other reader of the column
  reads, for an output row, an earlier row. */
  lemma JobReads(g: Graph, i: nat, total: int)
    requires 0 <= total && GraphOk(g) && OutputRows(g, Interval(0, total)) && i < SinkWidth(g)
    ensures (forall b | Boundaries(b, total) :: RowsFound(g, i, total, b)) <==> NeverBack(g, i, total)
  {
    if forall b | Boundaries(b, total) :: RowsFound(g, i, total, b) {
      var b := Interval(0, total + 1);
      SinglesCut(total);
      assert RowsFound(g, i, total, b);
      forall x, y | 0 <= x < total && SharedFor(g, i, x, y) ensures x <= y {
        assert b[x] == x && b[x + 1] == x + 1;
        SingleFound(g, i, total, b, x);
      }
    }
    if NeverBack(g, i, total) {
      forall b | Boundaries(b, total) ensures RowsFound(g, i, total, b) { BackFound(g, i, total, b); }
    }
  }

  lemma SingleFound(g: Graph, i: nat, total: int, b: seq<int>, x: int)
    requires CutOk(g, total, b) && i < SinkWidth(g) && RowsFound(g, i, total, b)
    requires 0 <= x < |b| - 1 && b[x] == x && b[x + 1] == x + 1
    ensures forall y | SharedFor(g, i, x, y) :: x <= y
  {
    CutTaskRows(g, total, b, x);
    TaskFound(g, i, b, x);
  }

  lemma BackFound(g: Graph, i: nat, total: int, b: seq<int>)
    requires CutOk(g, total, b) && i < SinkWidth(g) && NeverBack(g, i, total)
    ensures RowsFound(g, i, total, b)
  {
    forall k | 0 <= k < |b| - 1 ensures TaskRowsFound(g, i, b, k) {
      CutTaskRows(g, total, b, k);
      if b[k] < b[k + 1] { TaskFound(g, i, b, k); }
    }
  }
}
