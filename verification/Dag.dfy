/** The graph of ops of a job, restricted to one slice group, and the meaning of its streams:
the element that every column of every op has at every row when each stream is computed in
full. */
module Dag {
  import opened Rows
  import opened Samplers
  import opened Streams

  /** A column of an op, by name. */
  datatype ColRef = ColRef(op: nat, name: string)

  /** After sources have been merged, op 0 is the Source with one column per source op; the
  other source ops stay in the list without inputs or consumers. */
  datatype Kind = Source | MergedSource | Builtin(rowMap: RowMap) | KernelOp(kernel: Kernel) | Sink

  datatype Op = Op(kind: Kind, inputs: seq<ColRef>, outputs: seq<string>)

  /** `rows[k]` is the size of the output domain of op `k`. */
  datatype Graph = Graph(ops: seq<Op>, rows: seq<int>)

  predicate IsUnslice(op: Op) {
    op.kind.Builtin? && op.kind.rowMap.Unslice?
  }

  /** Ops that the evaluator runs. */
  predicate IsAction(op: Op) {
    op.kind.Builtin? || op.kind.KernelOp?
  }

  function ActionOf(op: Op): Action
    requires IsAction(op)
  {
    if op.kind.Builtin? then Remap(op.kind.rowMap) else Compute(op.kind.kernel)
  }

  /** Row `r` is a row of the stream of op `k`. For Unslice these are the rows of the slice group. */
  ghost predicate InStream(g: Graph, k: nat, r: int)
    requires k < |g.ops| && |g.rows| == |g.ops|
  {
    if IsUnslice(g.ops[k]) then
      g.ops[k].kind.rowMap.offset <= r < g.ops[k].kind.rowMap.offset + g.ops[k].kind.rowMap.count
    else 0 <= r < g.rows[k]
  }

  /** Size of the domain that the inputs of op `k` live in. */
  function InputDomain(g: Graph, k: nat): int
    requires k < |g.ops| && |g.rows| == |g.ops| && g.ops[k].inputs != []
  {
    var j := g.ops[k].inputs[0].op;
    if j < |g.rows| then g.rows[j] else 0
  }

  // ---- Dense meaning -----------------------------------------------------------------------

  /** State of a kernel that has executed rows `0, ..., r - 1`. */
  ghost function DenseState(k: Kernel, cols: seq<Contents>, max: int, r: int): Bytes
    decreases if r < 0 then 0 else r
  {
    if r <= 0 then k.init
    else k.step(DenseState(k, cols, max, r - 1), r - 1, WindowAt(k.stencil, cols, max, r - 1)).0
  }

  /** Output of an action at row `r`, computed over the whole stream. */
  ghost function DenseOut(a: Action, cols: seq<Contents>, max: int, r: int): seq<Element>
    requires |cols| > 0
  {
    match a
    case Compute(k) => k.step(DenseState(k, cols, max, r), r, WindowAt(k.stencil, cols, max, r)).1
    case Remap(m) =>
      if WellFormed(m) && InRange(m, r) then [if IsNull(m, r) then Null else cols[0](UpRow(m, r))] else []
  }

  function ElemAt(es: seq<Element>, c: nat): Element {
    if c < |es| then es[c] else Null
  }

  /** The elements of op `k` at row `r`, one per output column. `src` are the source columns. */
  ghost function Dense(g: Graph, src: seq<Contents>, k: nat, r: int): seq<Element>
    requires k < |g.ops| && |g.rows| == |g.ops|
    decreases k, 2
  {
    var op := g.ops[k];
    if op.kind.Source? then seq(|src|, c requires 0 <= c < |src| => src[c](r))
    else if IsAction(op) && op.inputs != [] then
      DenseOut(ActionOf(op), InputContents(g, src, k), InputDomain(g, k), r)
    else []
  }

  /** The contents of the input columns of op `k`. */
  ghost function InputContents(g: Graph, src: seq<Contents>, k: nat): (cols: seq<Contents>)
    requires k < |g.ops| && |g.rows| == |g.ops|
    ensures |cols| == |g.ops[k].inputs|
    decreases k, 1
  {
    seq(|g.ops[k].inputs|, i requires 0 <= i < |g.ops[k].inputs| => ColumnContents(g, src, k, g.ops[k].inputs[i]))
  }

  /** The contents of column `c`, for ops from `k` on. */
  ghost function ColumnContents(g: Graph, src: seq<Contents>, k: nat, c: ColRef): Contents
    requires k < |g.ops| && |g.rows| == |g.ops|
    decreases k, 0
  {
    (r: int) =>
      if c.op < k then ElemAt(Dense(g, src, c.op, r), IndexOf(g.ops[c.op].outputs, c.name)) else Null
  }

  // ---- Well-formed graphs ------------------------------------------------------------------

  /** The state of a kernel after `n` windows starting at row `start`. */
  ghost function RunWindows(k: Kernel, st: Bytes, start: int, ws: seq<Window>, n: nat): Bytes
    requires n <= |ws|
  {
    if n == 0 then st else k.step(RunWindows(k, st, start, ws, n - 1), start + n - 1, ws[n - 1]).0
  }

  ghost function LastOut(k: Kernel, st: Bytes, start: int, ws: seq<Window>): seq<Element>
    requires ws != []
  {
    var n := |ws| - 1;
    k.step(RunWindows(k, st, start, ws, n), start + n, ws[n]).1
  }

  /** What declaring a warmup promises: once the kernel has consumed that many consecutive rows,
  its next output no longer depends on the state it started from. */
  ghost predicate Forgets(k: Kernel) {
    k.memory.Bounded? ==>
      forall s1, s2, start, ws: seq<Window> {:trigger LastOut(k, s1, start, ws), LastOut(k, s2, start, ws)} |
        |ws| == k.memory.warmup + 1 :: LastOut(k, s1, start, ws) == LastOut(k, s2, start, ws)
  }

  ghost predicate KernelOk(k: Kernel, outputs: nat) {
    && StencilBounds(k.stencil) && k.batch >= 1 && Forgets(k)
    && forall st, r, w :: |k.step(st, r, w).1| == outputs
  }

  /** An input names a column of an earlier op that produces one. Only sinks read from Unslice. */
  ghost predicate EdgeOk(g: Graph, k: nat, c: ColRef)
    requires k < |g.ops|
  {
    && c.op < k && c.name in g.ops[c.op].outputs
    && (g.ops[c.op].kind.Source? || IsAction(g.ops[c.op]))
    && (IsUnslice(g.ops[c.op]) ==> g.ops[k].kind.Sink?)
  }

  /** Every row of a remapped stream comes from a row of its parent. */
  ghost predicate MapFits(g: Graph, k: nat, r: int)
    requires k < |g.ops| && |g.rows| == |g.ops| && g.ops[k].kind.Builtin? && g.ops[k].inputs != []
    requires WellFormed(g.ops[k].kind.rowMap)
  {
    InStream(g, k, r) ==>
      InRange(g.ops[k].kind.rowMap, r) && UpRow(g.ops[k].kind.rowMap, r) < InputDomain(g, k)
  }

  /** What validation of a job checks about an op. */
  ghost predicate OpShape(g: Graph, k: nat)
    requires k < |g.ops|
  {
    var op := g.ops[k];
    && Distinct(op.outputs)
    && (forall i | 0 <= i < |op.inputs| :: EdgeOk(g, k, op.inputs[i]))
    && match op.kind
       case Source => k == 0 && op.inputs == []
       case MergedSource => op.inputs == []
       case Sink => k == |g.ops| - 1 && op.inputs != []
       case KernelOp(kernel) => op.inputs != [] && KernelOk(kernel, |op.outputs|)
       case Builtin(m) => |op.inputs| == 1 && |op.outputs| == 1 && WellFormed(m)
  }

  /** What rate matching establishes about the row counts of an op. */
  ghost predicate OpRows(g: Graph, k: nat)
    requires k < |g.ops| && |g.rows| == |g.ops| && OpShape(g, k)
  {
    var op := g.ops[k];
    match op.kind
    case KernelOp(kernel) =>
      && g.rows[k] == InputDomain(g, k)
      && forall i | 0 <= i < |op.inputs| :: g.rows[op.inputs[i].op] == InputDomain(g, k)
    case Builtin(m) => forall r :: MapFits(g, k, r)
    case _ => true
  }

  ghost predicate OpOk(g: Graph, k: nat)
    requires k < |g.ops| && |g.rows| == |g.ops|
  {
    OpShape(g, k) && OpRows(g, k)
  }

  ghost predicate GraphShape(g: Graph) {
    && |g.ops| >= 2 && |g.rows| == |g.ops|
    && g.ops[0].kind.Source? && g.ops[|g.ops| - 1].kind.Sink?
    && forall k | 0 <= k < |g.ops| :: OpShape(g, k)
  }

  /** What validation of a job checks, and what rate matching of row counts establishes. */
  ghost predicate GraphOk(g: Graph) {
    && |g.ops| >= 2 && |g.rows| == |g.ops|
    && g.ops[0].kind.Source? && g.ops[|g.ops| - 1].kind.Sink?
    && forall k | 0 <= k < |g.ops| :: OpOk(g, k)
  }
}
