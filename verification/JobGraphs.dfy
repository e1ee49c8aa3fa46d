/** A job with its row counts, and the graph that its ops form in one slice group: samplers, rows of slices and
offsets of unslice ops are those of the group. */
module JobGraphs {
  import opened Rows
  import opened Samplers
  import opened Partitions
  import opened Streams
  import opened Dag
  import T = Tasks

  /** What an op has besides its place in the graph: the columns it reads and makes and, if it is a kernel, what it
  computes. A kernel with stream arguments (`bound`) has one entry for each of them. */
  datatype Node = Node(kernels: seq<Kernel>, bound: bool, inputs: seq<ColRef>, outputs: seq<string>)

  /** `rates` are the counts of forward propagation, one per slice group (`total_rows_per_op`). */
  datatype Job = Job(ops: seq<T.Op>, nodes: seq<Node>, rates: seq<seq<int>>)

  predicate Sized(job: Job) {
    2 <= |job.ops| == |job.nodes| == |job.rates|
  }

  /** Which of the counts of op `k` is that of slice group `s`. */
  function GroupIndex(ops: seq<T.Op>, k: nat, s: nat): nat {
    if T.Level(ops, k) == 1 then s else 0
  }

  /** The count of op `k` for slice group `s`. */
  function CountAt(ops: seq<T.Op>, rates: seq<seq<int>>, k: nat, s: nat): int {
    if k < |rates| && GroupIndex(ops, k, s) < |rates[k]| then rates[k][GroupIndex(ops, k, s)] else 0
  }

  /** Sources are merged into op 0. */
  function InputOp(ops: seq<T.Op>, j: nat): nat {
    if j < |ops| && ops[j].kind.Source? then 0 else j
  }

  // ---- Looking up a slice group ------------------------------------------------------------

  /** Op `k` has what it needs in slice group `s`. */
  predicate Selectable(job: Job, k: nat, s: nat)
    requires Sized(job) && k < |job.ops|
  {
    var ins := T.InRates(job.ops, job.rates, k);
    && GroupIndex(job.ops, k, s) < |job.rates[k]|
    && match job.ops[k].kind
       case Kernel => job.nodes[k].kernels != []
       case Sample(maps) => GroupIndex(job.ops, k, s) < |maps|
       case Slice(p) => |ins| == 1 && Accepts(p, ins[0]) && s < NumGroups(p, ins[0])
       case Unslice => s < |ins|
       case _ => true
  }

  function KindAt(job: Job, k: nat, s: nat): Kind
    requires Sized(job) && k < |job.ops| && Selectable(job, k, s)
  {
    var ins := T.InRates(job.ops, job.rates, k);
    match job.ops[k].kind
    case Source(_) => if k == 0 then Source else MergedSource
    case Kernel => KernelOp(job.nodes[k].kernels[if s < |job.nodes[k].kernels| then s else 0])
    case Sample(maps) => Builtin(maps[GroupIndex(job.ops, k, s)])
    case Slice(p) => Builtin(RowMap.Slice(Group(p, ins[0], s)))
    case Unslice => Builtin(RowMap.Unslice(Sum(ins, s), Max0(ins[s])))
    case Sink => Sink
  }

  predicate HasGroup(job: Job, s: nat) {
    Sized(job) && forall k | 0 <= k < |job.ops| :: Selectable(job, k, s)
  }

  /** The graph of slice group `s`. */
  function GraphAt(job: Job, s: nat): (g: Graph)
    requires HasGroup(job, s)
    ensures |g.ops| == |g.rows| == |job.ops|
    ensures forall k | 0 <= k < |g.ops| :: g.ops[k] == Op(KindAt(job, k, s), job.nodes[k].inputs, job.nodes[k].outputs)
    ensures forall k | 0 <= k < |g.rows| :: g.rows[k] == CountAt(job.ops, job.rates, k, s)
  {
    Graph(seq(|job.ops|, k requires 0 <= k < |job.ops| =>
            Op(KindAt(job, k, s), job.nodes[k].inputs, job.nodes[k].outputs)),
          seq(|job.ops|, k requires 0 <= k < |job.ops| => CountAt(job.ops, job.rates, k, s)))
  }

  /** Every kernel with stream arguments has one for slice group `s`. The code asks for that of the group also if
  the kernel has a single one for all. */
  predicate ArgsFit(job: Job, s: nat)
    requires Sized(job)
  {
    forall k | 0 <= k < |job.ops| && job.ops[k].kind.Kernel? && job.nodes[k].bound :: s < |job.nodes[k].kernels|
  }

  // ---- Well-made jobs ----------------------------------------------------------------------

  /** Columns are read from the ops that the graph says. Whatever its arguments, a kernel has the stencil and the
  memory that its op declares. */
  ghost predicate NodeOk(job: Job, k: nat)
    requires Sized(job) && k < |job.ops|
  {
    var node, op := job.nodes[k], job.ops[k];
    && |node.inputs| == |op.inputs|
    && (forall q | 0 <= q < |node.inputs| :: node.inputs[q].op == InputOp(job.ops, op.inputs[q]))
    && (forall q | 0 <= q < |node.inputs| && node.inputs[q].op == 0 :: node.inputs[q].name in job.nodes[0].outputs)
    && (op.kind.Kernel? ==> node.kernels != [])
    && (forall a | 0 <= a < |node.kernels| ::
          node.kernels[a].stencil == node.kernels[0].stencil && node.kernels[a].memory == node.kernels[0].memory)
  }

  ghost predicate MapOk(job: Job, k: nat, s: nat)
    requires Sized(job) && k < |job.ops|
  {
    Selectable(job, k, s) && KindAt(job, k, s).Builtin? ==> WellFormed(KindAt(job, k, s).rowMap)
  }

  /** A validated job whose columns, samplers and slices are in order. */
  ghost predicate WellMade(job: Job) {
    && Sized(job) && T.Validated(job.ops)
    && (forall k | 0 <= k < |job.ops| :: NodeOk(job, k))
    && (forall k, s: nat {:trigger MapOk(job, k, s)} | 0 <= k < |job.ops| :: MapOk(job, k, s))
  }

  // ---- The graphs of two groups ------------------------------------------------------------

  /** Ops that are not the same in all slice groups. */
  ghost predicate Grouped(ops: seq<T.Op>, k: nat) {
    k < |ops| && (T.Level(ops, k) == 1 || ops[k].kind.Unslice?)
  }

  /** Only kernels with stream arguments may differ elsewhere, and not in what they read. */
  lemma UngroupedSame(job: Job, k: nat, s: nat, s': nat)
    requires WellMade(job) && k < |job.ops| && !Grouped(job.ops, k)
    ensures Selectable(job, k, s) <==> Selectable(job, k, s')
    ensures Selectable(job, k, s) ==>
              SameDemand(KindAt(job, k, s), KindAt(job, k, s'))
  {
    assert NodeOk(job, k);
  }

  /** Two kinds of op that ask for the same rows. */
  ghost predicate SameDemand(a: Kind, b: Kind) {
    a == b || (a.KernelOp? && b.KernelOp? && a.kernel.stencil == b.kernel.stencil && a.kernel.memory == b.kernel.memory)
  }

  /** A sliced op and an unslice op have an unslice op behind or at them. */
  lemma GroupedExit(ops: seq<T.Op>, k: nat) returns (u: nat)
    requires T.Validated(ops) && Grouped(ops, k)
    ensures k <= u < |ops| && ops[u].kind.Unslice?
  {
    if ops[k].kind.Unslice? { u := k; } else { u := T.Exit(ops, k); }
  }
}
