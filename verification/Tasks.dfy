/** How many rows every op produces, and how the output rows of a job are cut into tasks.

Row counts are propagated forward through the graph, per slice group. The boundaries of tasks are
found a second time, by walking down from the slice op with the rows of one group after the other. */
module Tasks {
  import opened Rows
  import opened Samplers
  import opened Partitions

  /** `Sample` has one sampler per slice group. */
  datatype Kind =
    | Source(rows: nat)
    | Kernel
    | Sample(maps: seq<RowMap>)
    | Slice(partitioner: Partitioner)
    | Unslice
    | Sink

  datatype Op = Op(kind: Kind, inputs: seq<nat>)

  // ---- Rates -------------------------------------------------------------------------------

  ghost predicate SamplerOk(m: RowMap) {
    WellFormed(m) && !m.Slice? && !m.Unslice?
  }

  /** What the inputs of op `k` carry: one count per slice group. */
  function InRates(ops: seq<Op>, rates: seq<seq<int>>, k: nat): seq<int>
    requires k < |ops| && k < |rates|
  {
    if ops[k].inputs == [] || ops[k].inputs[0] >= |rates| then [] else rates[ops[k].inputs[0]]
  }

  ghost predicate Forward(kind: Kind, ins: seq<int>, outs: seq<int>) {
    match kind
    case Source(n) => outs == [n]
    case Kernel => outs == ins
    case Sample(maps) =>
      && |maps| == |ins| == |outs|
      && forall i | 0 <= i < |ins| :: SamplerOk(maps[i]) && outs[i] == DownstreamCount(maps[i], ins[i])
    case Slice(p) =>
      && |ins| == 1 && Accepts(p, ins[0]) && |outs| == NumGroups(p, ins[0])
      && forall i | 0 <= i < |outs| :: outs[i] == GroupSize(p, ins[0], i)
    case Unslice => outs == [Sum(ins, |ins|)]
    case Sink => |ins| == 1 && outs == ins
  }

  /** The counts of op `k` follow from those of its inputs, which agree. */
  ghost predicate RateOk(ops: seq<Op>, rates: seq<seq<int>>, k: nat)
    requires k < |ops| == |rates|
  {
    && (forall i | 0 <= i < |ops[k].inputs| ::
          ops[k].inputs[i] < k && rates[ops[k].inputs[i]] == InRates(ops, rates, k))
    && (ops[k].kind.Source? <==> ops[k].inputs == [])
    && Forward(ops[k].kind, InRates(ops, rates, k), rates[k])
  }

  /** All counts of a job fit together. */
  ghost predicate RatesOk(ops: seq<Op>, rates: seq<seq<int>>) {
    |ops| == |rates| && forall k | 0 <= k < |ops| :: RateOk(ops, rates, k)
  }

  // ---- Validation --------------------------------------------------------------------------

  /** `op_slice_level`. */
  function Level(ops: seq<Op>, k: nat): nat
    decreases k
  {
    if k >= |ops| then 0
    else match ops[k].kind
      case Source(_) => 0
      case Slice(_) => 1
      case Unslice => 0
      case _ => if ops[k].inputs != [] && ops[k].inputs[0] < k then Level(ops, ops[k].inputs[0]) else 0
  }

  /** The level of what op `k` has to read. */
  ghost predicate InputLevelOk(ops: seq<Op>, k: nat, level: nat)
    requires k < |ops|
  {
    match ops[k].kind
    case Slice(_) => level == 0
    case Unslice => level == 1
    case Sink => level == 0
    case _ => level == Level(ops, k)
  }

  /** Inputs come from earlier ops on one slice level. There is no slice within a slice, only sliced data is
  unsliced, only a sink reads what comes out of an unslice op, and sinks read data that is not sliced. */
  ghost predicate OpValidated(ops: seq<Op>, k: nat)
    requires k < |ops|
  {
    && (ops[k].kind.Source? <==> ops[k].inputs == [])
    && (ops[k].kind.Sink? <==> k == |ops| - 1)
    && forall q | 0 <= q < |ops[k].inputs| ::
         var j := ops[k].inputs[q];
         j < k && InputLevelOk(ops, k, Level(ops, j)) && (ops[j].kind.Unslice? ==> ops[k].kind.Sink?)
  }

  ghost predicate IsRead(ops: seq<Op>, k: nat) {
    exists c | k < c < |ops| :: k in ops[c].inputs
  }

  /** A job whose graph the master accepts, and whose ops all lead to the sink. */
  ghost predicate Validated(ops: seq<Op>) {
    && ops != []
    && (forall k | 0 <= k < |ops| :: OpValidated(ops, k))
    && (forall k | 0 <= k < |ops| - 1 :: IsRead(ops, k))
  }

  lemma FirstIsSource(ops: seq<Op>)
    requires Validated(ops)
    ensures ops[0].kind.Source?
  {
    assert OpValidated(ops, 0);
    assert FirstInput(ops, 0) < 0;
  }

  ghost function FirstInput(ops: seq<Op>, k: nat): int {
    if k >= |ops| || ops[k].inputs == [] then -1 else ops[k].inputs[0]
  }

  lemma SinkLevel(ops: seq<Op>)
    requires Validated(ops)
    ensures Level(ops, |ops| - 1) == 0
  {
    var k := |ops| - 1;
    assert OpValidated(ops, k);
    assert InputLevelOk(ops, k, Level(ops, ops[k].inputs[0]));
  }

  /** What reads sliced data is a kernel or sampler within the slice, or leaves it. */
  lemma SlicedReader(ops: seq<Op>, k: nat, c: nat)
    requires Validated(ops) && c < |ops| && k in ops[c].inputs && Level(ops, k) == 1
    ensures ops[c].kind.Unslice? || (Level(ops, c) == 1 && (ops[c].kind.Kernel? || ops[c].kind.Sample?))
  {
    assert OpValidated(ops, c);
    var q :| 0 <= q < |ops[c].inputs| && ops[c].inputs[q] == k;
    assert InputLevelOk(ops, c, Level(ops, k));
  }

  // ---- The walk ----------------------------------------------------------------------------

  /** Op `c`, once for each of its first `n` inputs that is op `k`. */
  function EdgesTo(inputs: seq<nat>, k: nat, c: nat, n: nat): (r: seq<nat>)
    requires n <= |inputs|
    ensures forall x | x in r :: x == c && k in inputs[..n]
    ensures k in inputs[..n] ==> c in r
  {
    if n == 0 then []
    else
      assert inputs[..n] == inputs[..n - 1] + [inputs[n - 1]];
      EdgesTo(inputs, k, c, n - 1) + (if inputs[n - 1] == k then [c] else [])
  }

  function ChildrenFrom(ops: seq<Op>, k: nat, c: nat): (r: seq<nat>)
    requires c <= |ops|
    ensures forall x | x in r :: x < c && k in ops[x].inputs
    ensures forall x | 0 <= x < c && k in ops[x].inputs :: x in r
  {
    if c == 0 then []
    else
      var inputs := ops[c - 1].inputs;
      assert inputs[..|inputs|] == inputs;
      ChildrenFrom(ops, k, c - 1) + EdgesTo(inputs, k, c - 1, |inputs|)
  }

  /** `op_children`: the readers of op `k`, once for every edge. */
  function Children(ops: seq<Op>, k: nat): seq<nat> {
    ChildrenFrom(ops, k, |ops|)
  }

  lemma Readers(ops: seq<Op>, k: nat)
    requires Validated(ops) && k < |ops| - 1
    ensures Children(ops, k) != [] && forall c | c in Children(ops, k) :: k < c < |ops| && k in ops[c].inputs
  {
    assert IsRead(ops, k);
    forall c | c in Children(ops, k) ensures k < c {
      assert OpValidated(ops, c);
      var i :| 0 <= i < |ops[c].inputs| && ops[c].inputs[i] == k;
    }
  }

  /** The last reader of op `k`, which the walk looks at next. */
  ghost function LastReader(ops: seq<Op>, k: nat): (c: nat)
    requires Validated(ops) && k < |ops| - 1
    ensures k < c < |ops| && k in ops[c].inputs && c in Children(ops, k)
  {
    Readers(ops, k);
    var children := Children(ops, k);
    assert children[|children| - 1] in children;
    children[|children| - 1]
  }

  /** The unslice op through which the walk from op `k` leaves the slice. */
  ghost function Exit(ops: seq<Op>, k: nat): (u: nat)
    requires Validated(ops) && k < |ops| && Level(ops, k) == 1
    ensures k < u < |ops| - 1 && ops[u].kind.Unslice?
    decreases |ops| - k
  {
    SinkLevel(ops);
    var c := LastReader(ops, k);
    SlicedReader(ops, k, c);
    assert OpValidated(ops, |ops| - 1);
    if ops[c].kind.Unslice? then c else Exit(ops, c)
  }

  /** The counts that go into an unslice op, one per slice group. */
  ghost function UnsliceCounts(ops: seq<Op>, rates: seq<seq<int>>, unslice: nat): seq<int>
    requires unslice < |ops| == |rates|
  {
    InRates(ops, rates, unslice)
  }

  /** The counts of an op are what its readers get. */
  lemma ReaderRates(ops: seq<Op>, rates: seq<seq<int>>, k: nat, c: nat)
    requires RatesOk(ops, rates) && c < |ops| && k in ops[c].inputs
    ensures k < c && InRates(ops, rates, c) == rates[k] && Forward(ops[c].kind, rates[k], rates[c])
  {
    assert RateOk(ops, rates, c);
    var q :| 0 <= q < |ops[c].inputs| && ops[c].inputs[q] == k;
  }

  /** On the way to the exit the groups stay the same. */
  lemma {:induction false} ExitGroups(ops: seq<Op>, rates: seq<seq<int>>, k: nat)
    requires Validated(ops) && RatesOk(ops, rates) && k < |ops| && Level(ops, k) == 1
    ensures |UnsliceCounts(ops, rates, Exit(ops, k))| == |rates[k]|
    decreases |ops| - k
  {
    SinkLevel(ops);
    var c := LastReader(ops, k);
    SlicedReader(ops, k, c);
    ReaderRates(ops, rates, k, c);
    if !ops[c].kind.Unslice? { ExitGroups(ops, rates, c); }
  }

  /** Only the sink reads from an unslice op. */
  lemma ReaderOfUnslice(ops: seq<Op>, u: nat)
    requires Validated(ops) && u < |ops| && ops[u].kind.Unslice?
    ensures u < |ops| - 1 && LastReader(ops, u) == |ops| - 1
  {
    assert OpValidated(ops, u) && OpValidated(ops, |ops| - 1);
    var c := LastReader(ops, u);
    assert OpValidated(ops, c);
    var q :| 0 <= q < |ops[c].inputs| && ops[c].inputs[q] == u;
  }

  /** Every unslice op has as many rows as the output. */
  lemma UnsliceTotal(ops: seq<Op>, rates: seq<seq<int>>, u: nat)
    requires Validated(ops) && RatesOk(ops, rates) && u < |ops| && ops[u].kind.Unslice?
    ensures rates[|ops| - 1] == [Sum(UnsliceCounts(ops, rates, u), |UnsliceCounts(ops, rates, u)|)]
  {
    ReaderOfUnslice(ops, u);
    assert OpValidated(ops, |ops| - 1) && RateOk(ops, rates, u);
    ReaderRates(ops, rates, u, |ops| - 1);
  }

  /** What leaves an op when `n` rows of group `i` enter it. */
  function Leaves(op: Op, i: nat, n: int): int
    requires op.kind.Sample? ==> i < |op.kind.maps|
    requires op.kind.Sample? ==>
               var m := op.kind.maps[i];
               (m.Strided? ==> m.stride > 0) && (m.StridedRanges? ==> m.step > 0 && |m.starts| == |m.ends|)
  {
    if op.kind.Sample? then DownstreamCount(op.kind.maps[i], n) else n
  }

  ghost predicate CanLeave(op: Op, i: nat) {
    op.kind.Sample? ==> i < |op.kind.maps| && SamplerOk(op.kind.maps[i])
  }

  /** Within the slice, `n` rows of group `i` enter op `k`, from which the walk gets to `exit`. */
  ghost predicate Inside(ops: seq<Op>, rates: seq<seq<int>>, exit: nat, i: nat, k: nat, n: int)
    requires Validated(ops) && |rates| == |ops|
  {
    && k < |ops| && Level(ops, k) == 1 && Exit(ops, k) == exit && CanLeave(ops[k], i)
    && i < |rates[k]| && rates[k][i] == Leaves(ops[k], i, n)
  }

  /** At the exit or at the sink, with the rows of group `i` that go into the exit. */
  ghost predicate Outside(ops: seq<Op>, rates: seq<seq<int>>, exit: nat, i: nat, k: nat, n: int)
    requires exit < |ops| == |rates|
  {
    && k < |ops| && (k == exit || k == |ops| - 1) && !ops[k].kind.Sample?
    && i < |UnsliceCounts(ops, rates, exit)| && n == UnsliceCounts(ops, rates, exit)[i]
  }

  ghost predicate Walking(ops: seq<Op>, rates: seq<seq<int>>, exit: nat, i: nat, k: nat, n: int)
    requires Validated(ops) && exit < |ops| == |rates|
  {
    Inside(ops, rates, exit, i, k, n) || Outside(ops, rates, exit, i, k, n)
  }

  lemma WalkInside(ops: seq<Op>, rates: seq<seq<int>>, exit: nat, i: nat, k: nat, n: int)
    requires Validated(ops) && RatesOk(ops, rates) && exit < |ops| && Inside(ops, rates, exit, i, k, n)
    ensures k < |ops| - 1 && Walking(ops, rates, exit, i, LastReader(ops, k), rates[k][i])
  {
    SinkLevel(ops);
    var c := LastReader(ops, k);
    SlicedReader(ops, k, c);
    ReaderRates(ops, rates, k, c);
    if ops[c].kind.Unslice? {
      assert Outside(ops, rates, exit, i, c, rates[k][i]);
    } else {
      assert Inside(ops, rates, exit, i, c, rates[k][i]);
    }
  }

  /** What leaves op `k` enters its last reader, and the reader's own count follows. */
  lemma WalkOn(ops: seq<Op>, rates: seq<seq<int>>, exit: nat, i: nat, k: nat, n: int)
    requires Validated(ops) && RatesOk(ops, rates) && exit < |ops| && ops[exit].kind.Unslice?
    requires Walking(ops, rates, exit, i, k, n) && !ops[k].kind.Sink?
    ensures CanLeave(ops[k], i) && k < |ops| - 1
    ensures Walking(ops, rates, exit, i, LastReader(ops, k), Leaves(ops[k], i, n))
  {
    if Inside(ops, rates, exit, i, k, n) {
      WalkInside(ops, rates, exit, i, k, n);
    } else {
      assert OpValidated(ops, |ops| - 1);
      ReaderOfUnslice(ops, exit);
      assert Outside(ops, rates, exit, i, |ops| - 1, n);
    }
  }

  /** Passes the count that leaves op `k` on to its children. */
  method PassDown(ops: seq<Op>, k: nat, out: int, counts: seq<int>, stack: seq<nat>)
    returns (counts': seq<int>, stack': seq<nat>)
    requires |counts| == |ops|
    ensures |counts'| == |ops| && stack' == stack + Children(ops, k)
    ensures forall c | c in Children(ops, k) :: counts'[c] == out
    ensures forall x | 0 <= x < |ops| && x !in Children(ops, k) :: counts'[x] == counts[x]
  {
    counts', stack' := counts, stack;
    var children := Children(ops, k);
    assert forall p | 0 <= p < |children| :: children[p] in children;
    for q := 0 to |children|
      invariant |counts'| == |ops| && stack' == stack + children[..q]
      invariant forall p | 0 <= p < q :: counts'[children[p]] == out
      invariant forall x | 0 <= x < |ops| && x !in children :: counts'[x] == counts[x]
    {
      counts' := counts'[children[q] := out];
      stack' := stack' + [children[q]];
      assert children[..q + 1] == children[..q] + [children[q]];
    }
    assert children[..|children|] == children;
  }

  lemma WalkStart(ops: seq<Op>, rates: seq<seq<int>>, slice: nat, i: nat, n: int)
    requires Validated(ops) && |rates| == |ops| && slice < |ops| && ops[slice].kind.Slice?
    requires i < |rates[slice]| && n == rates[slice][i]
    ensures Walking(ops, rates, Exit(ops, slice), i, slice, n)
  {
    assert Inside(ops, rates, Exit(ops, slice), i, slice, n);
  }

  lemma WalkEnd(ops: seq<Op>, rates: seq<seq<int>>, exit: nat, i: nat, k: nat, n: int)
    requires Validated(ops) && exit < |ops| == |rates| && Walking(ops, rates, exit, i, k, n) && ops[k].kind.Sink?
    ensures i < |UnsliceCounts(ops, rates, exit)| && n == UnsliceCounts(ops, rates, exit)[i]
  {
    SinkLevel(ops);
    assert OpValidated(ops, k);
  }

  /** Takes op `k` off the stack. The next one on top is its last reader. */
  method WalkStep(ops: seq<Op>, i: nat, k: nat, counts: seq<int>, rest: seq<nat>,
                  ghost rates: seq<seq<int>>, ghost exit: nat)
    returns (counts': seq<int>, stack: seq<nat>)
    requires Validated(ops) && RatesOk(ops, rates) && exit < |ops| && ops[exit].kind.Unslice?
    requires |counts| == |ops| && k < |ops| && Walking(ops, rates, exit, i, k, counts[k]) && !ops[k].kind.Sink?
    ensures |counts'| == |ops| && stack != [] && k < stack[|stack| - 1] < |ops|
    ensures Walking(ops, rates, exit, i, stack[|stack| - 1], counts'[stack[|stack| - 1]])
  {
    WalkOn(ops, rates, exit, i, k, counts[k]);
    ghost var c := LastReader(ops, k);
    counts', stack := PassDown(ops, k, Leaves(ops[k], i, counts[k]), counts, rest);
    assert stack[|stack| - 1] == c;
  }

  /** Walks `n` rows of slice group `i` down to the sink and returns how many arrive there: as many as forward
  propagation sends into the unslice op on the way. */
  method WalkGroup(ops: seq<Op>, slice: nat, i: nat, n: int, ghost rates: seq<seq<int>>) returns (rows: int)
    requires Validated(ops) && RatesOk(ops, rates) && slice < |ops| && ops[slice].kind.Slice?
    requires i < |rates[slice]| && n == rates[slice][i]
    ensures i < |UnsliceCounts(ops, rates, Exit(ops, slice))|
    ensures rows == UnsliceCounts(ops, rates, Exit(ops, slice))[i]
  {
    var counts: seq<int>, stack: seq<nat> := seq(|ops|, _ => 0)[slice := n], [slice];
    ghost var exit := Exit(ops, slice);
    WalkStart(ops, rates, slice, i, n);
    while true
      invariant stack != [] && |counts| == |ops| && stack[|stack| - 1] < |ops|
      invariant Walking(ops, rates, exit, i, stack[|stack| - 1], counts[stack[|stack| - 1]])
      decreases |ops| - stack[|stack| - 1]
    {
      var k := stack[|stack| - 1];
      if ops[k].kind.Sink? {
        WalkEnd(ops, rates, exit, i, k, counts[k]);
        return counts[k];
      }
      counts, stack := WalkStep(ops, i, k, counts, stack[..|stack| - 1], rates, exit);
    }
  }

  // ---- Boundaries --------------------------------------------------------------------------

  /** `derive_slice_final_output_rows`: after each slice group, how many output rows there are so far.
  The last boundary is the number of output rows that forward propagation finds. */
  method SliceBoundaries(ops: seq<Op>, slice: nat, rows: int, ghost rates: seq<seq<int>>)
    returns (boundaries: seq<int>)
    requires Validated(ops) && RatesOk(ops, rates) && slice < |ops| && ops[slice].kind.Slice?
    requires InRates(ops, rates, slice) == [rows]
    ensures var counts := UnsliceCounts(ops, rates, Exit(ops, slice));
            |boundaries| == |counts| + 1 && forall i | 0 <= i < |boundaries| :: boundaries[i] == Sum(counts, i)
    ensures rates[|ops| - 1] == [boundaries[|boundaries| - 1]]
  {
    assert RateOk(ops, rates, slice);
    var p := ops[slice].kind.partitioner;
    ExitGroups(ops, rates, slice);
    UnsliceTotal(ops, rates, Exit(ops, slice));
    ghost var counts := UnsliceCounts(ops, rates, Exit(ops, slice));
    boundaries := [0];
    var offset := 0;
    for i := 0 to NumGroups(p, rows)
      invariant |boundaries| == i + 1 && offset == Sum(counts, i)
      invariant forall j | 0 <= j <= i :: boundaries[j] == Sum(counts, j)
    {
      var group := GroupAt(p, rows, i);
      GroupSizes(p, rows, i);
      var arrived := WalkGroup(ops, slice, i, |group|, rates);
      offset := offset + arrived;
      boundaries := boundaries + [offset];
    }
  }

  ghost predicate Boundaries(b: seq<int>, total: int) {
    && |b| > 0 && b[0] == 0 && b[|b| - 1] == total
    && forall i | 0 <= i < |b| - 1 :: b[i] <= b[i + 1]
  }

  ghost predicate Apart(b: seq<int>, i: nat, size: int)
    requires i + 1 < |b|
  {
    b[i + 1] == b[i] + size
  }

  /** A boundary every `size` rows. */
  ghost predicate Regular(b: seq<int>, size: int) {
    (b != [] ==> b[0] == 0) && forall i {:trigger Apart(b, i, size)} | 0 <= i < |b| - 1 :: Apart(b, i, size)
  }

  /** And one at the end. */
  ghost predicate PacketCut(b: seq<int>, total: int, size: int) {
    && Boundaries(b, total) && Regular(b[..|b| - 1], size)
    && (forall i | 0 <= i < |b| - 1 :: b[i] < b[i + 1] <= b[i] + size)
  }

  lemma RegularMore(b: seq<int>, size: int, r: int)
    requires Regular(b, size) && r == if b == [] then 0 else b[|b| - 1] + size
    ensures Regular(b + [r], size)
  {
    var b' := b + [r];
    forall i | 0 <= i < |b'| - 1 ensures Apart(b', i, size) { if i < |b| - 1 { assert Apart(b, i, size); } }
  }

  lemma RegularEnds(b: seq<int>, size: int, total: int)
    requires Regular(b, size) && size > 0 && total >= 0
    requires if b == [] then total == 0 else b[|b| - 1] < total <= b[|b| - 1] + size
    ensures PacketCut(b + [total], total, size)
  {
    var b' := b + [total];
    forall i | 0 <= i < |b'| - 1 ensures b'[i] < b'[i + 1] <= b'[i] + size {
      if i < |b| - 1 { assert Apart(b, i, size); }
    }
    assert b'[..|b|] == b;
  }

  /** Without slices: `io_packet_size` rows per task. */
  method PacketBoundaries(total: int, size: int) returns (boundaries: seq<int>)
    requires total >= 0 && size > 0
    ensures PacketCut(boundaries, total, size)
  {
    boundaries := [];
    var r := 0;
    while r < total
      invariant Regular(boundaries, size)
      invariant r == if boundaries == [] then 0 else boundaries[|boundaries| - 1] + size
      invariant boundaries != [] ==> boundaries[|boundaries| - 1] < total
      decreases total - r
    {
      RegularMore(boundaries, size, r);
      boundaries := boundaries + [r];
      r := r + size;
    }
    RegularEnds(boundaries, size, total);
    boundaries := boundaries + [total];
  }

  // ---- Tasks -------------------------------------------------------------------------------

  /** One task between each two boundaries. */
  method BuildTasks(boundaries: seq<int>) returns (tasks: seq<seq<int>>)
    requires |boundaries| > 0
    ensures |tasks| == |boundaries| - 1
    ensures forall i | 0 <= i < |tasks| :: tasks[i] == Interval(boundaries[i], boundaries[i + 1])
  {
    tasks := [];
    for i := 0 to |boundaries| - 1
      invariant |tasks| == i
      invariant forall j | 0 <= j < i :: tasks[j] == Interval(boundaries[j], boundaries[j + 1])
    {
      var rows: seq<int> := [];
      var r := boundaries[i];
      while r < boundaries[i + 1]
        invariant boundaries[i] <= r && (r <= boundaries[i + 1] || rows == [])
        invariant rows == Interval(boundaries[i], r)
      {
        rows := rows + [r];
        r := r + 1;
      }
      if boundaries[i + 1] < boundaries[i] { assert Interval(boundaries[i], boundaries[i + 1]) == []; }
      tasks := tasks + [rows];
    }
  }

  /** The tasks of a job, one after the other, are its output rows. */
  lemma {:induction false} TasksPartition(boundaries: seq<int>, tasks: seq<seq<int>>, total: int, k: nat)
    requires Boundaries(boundaries, total) && |tasks| == |boundaries| - 1
    requires forall i | 0 <= i < |tasks| :: tasks[i] == Interval(boundaries[i], boundaries[i + 1])
    requires k <= |tasks|
    ensures boundaries[k] >= 0 && Flatten(tasks, k) == Interval(0, boundaries[k])
  {
    if k > 0 {
      TasksPartition(boundaries, tasks, total, k - 1);
      IntervalSplit(0, boundaries[k - 1], boundaries[k]);
    }
  }

  lemma IntervalSplit(a: int, b: int, c: int)
    requires a <= b <= c
    ensures Interval(a, b) + Interval(b, c) == Interval(a, c)
  {
  }

  // ---- The slice group of a task -----------------------------------------------------------

  /** The rows from `low` to `high` lie in slice group `g`. */
  ghost predicate LieIn(counts: seq<int>, g: nat, low: int, high: int) {
    g < |counts| && Sum(counts, g) <= low && high < Sum(counts, g) + counts[g]
  }

  /** They lie in some slice group. */
  ghost predicate Findable(counts: seq<int>, low: int, high: int) {
    exists g: nat :: LieIn(counts, g, low, high)
  }

  /** The first of the groups from `g` on that they lie in. */
  ghost function FirstGroup(counts: seq<int>, low: int, high: int, g: nat): (r: nat)
    requires g <= |counts|
    ensures g <= r <= |counts|
    ensures r < |counts| ==> LieIn(counts, r, low, high)
    ensures forall x: nat | g <= x < r :: !LieIn(counts, x, low, high)
    decreases |counts| - g
  {
    if g == |counts| || LieIn(counts, g, low, high) then g else FirstGroup(counts, low, high, g + 1)
  }

  /** Demand analysis finds the slice group that the rows from `low` to `high` lie in, and the number of
  rows before it. It fails exactly if there is none. */
  method FindGroup(counts: seq<int>, low: int, high: int) returns (found: bool, group: nat, offset: int)
    ensures found <==> Findable(counts, low, high)
    ensures found ==> LieIn(counts, group, low, high) && offset == Sum(counts, group)
    ensures group == FirstGroup(counts, low, high, 0)
  {
    offset, group, found := 0, 0, false;
    while group < |counts|
      invariant 0 <= group <= |counts| && offset == Sum(counts, group)
      invariant FirstGroup(counts, low, high, 0) == FirstGroup(counts, low, high, group)
    {
      if low >= offset && high < offset + counts[group] {
        assert LieIn(counts, group, low, high);
        found := true;
        return;
      }
      offset := offset + counts[group];
      group := group + 1;
    }
  }

  /** The rows of a task lie in some group of what enters unslice op `u`. */
  ghost predicate FoundAt(ops: seq<Op>, rates: seq<seq<int>>, rows: seq<int>, u: nat)
    requires |ops| == |rates| && u < |ops|
  {
    rows != [] ==> Findable(InRates(ops, rates, u), rows[0], rows[|rows| - 1])
  }

  /** The slice group that demand analysis has settled on when its walk from the sink has reached op `k`: the
  one found at the last unslice op it came by, and 0 before the first. */
  ghost function GroupFrom(ops: seq<Op>, rates: seq<seq<int>>, rows: seq<int>, k: nat): nat
    requires |ops| == |rates|
    decreases |ops| - k
  {
    if k >= |ops| then 0
    else if ops[k].kind.Unslice? && rows != [] then
      FirstGroup(InRates(ops, rates, k), rows[0], rows[|rows| - 1], 0)
    else GroupFrom(ops, rates, rows, k + 1)
  }

  /** The rows of task `i`, if there are any, lie in slice group `i` and in no other. */
  lemma TaskGroup(counts: seq<int>, i: nat, g: nat, low: int, high: int)
    requires i < |counts| && g < |counts| && forall q | 0 <= q < |counts| :: counts[q] >= 0
    requires Sum(counts, i) <= low <= high < Sum(counts, i + 1)
    ensures LieIn(counts, g, low, high) <==> g == i
  {
    if g < i { SumMonotone(counts, g + 1, i); }
    if i < g { SumMonotone(counts, i + 1, g); }
  }

  // ---- Jobs with slices --------------------------------------------------------------------

  /** For every sampler, the first range that is not covered starts less than a stride past the end. */
  ghost predicate Reached(ops: seq<Op>, rates: seq<seq<int>>, k: nat)
    requires k < |ops| == |rates|
  {
    ops[k].kind.Sample? ==>
      forall i | 0 <= i < |ops[k].kind.maps| && i < |InRates(ops, rates, k)| ::
        SamplerOk(ops[k].kind.maps[i]) && RangeReached(ops[k].kind.maps[i], InRates(ops, rates, k)[i])
  }

  /** If all ranges of all samplers are reached, no count is negative. */
  lemma {:induction false} CountsNonNegative(ops: seq<Op>, rates: seq<seq<int>>, k: nat, i: nat)
    requires RatesOk(ops, rates) && k < |ops| && i < |rates[k]| && forall j | 0 <= j < |ops| :: Reached(ops, rates, j)
    ensures rates[k][i] >= 0
    decreases k, 1
  {
    assert RateOk(ops, rates, k) && Reached(ops, rates, k);
    var ins := InRates(ops, rates, k);
    forall q | 0 <= q < |ins| ensures ins[q] >= 0 { CountsNonNegative(ops, rates, ops[k].inputs[0], q); }
    match ops[k].kind
    case Source(_) =>
    case Kernel =>
    case Sample(maps) => CountExact(maps[i], ins[i]);
    case Slice(p) => GroupSizes(p, ins[0], i);
    case Unslice => SumMonotone(ins, 0, |ins|);
    case Sink =>
  }

  ghost predicate NoNegative(counts: seq<int>) {
    forall i | 0 <= i < |counts| :: counts[i] >= 0
  }

  ghost predicate NoPositive(counts: seq<int>) {
    forall i | 0 <= i < |counts| :: counts[i] <= 0
  }

  /** The rows between two running sums. */
  ghost function GroupTask(counts: seq<int>, i: nat): seq<int>
    requires i < |counts|
  {
    Interval(Sum(counts, i), Sum(counts, i + 1))
  }

  lemma LastCount(counts: seq<int>, k: nat)
    requires 0 < k <= |counts|
    ensures NoNegative(counts[..k]) <==> NoNegative(counts[..k - 1]) && counts[k - 1] >= 0
    ensures NoPositive(counts[..k]) <==> NoPositive(counts[..k - 1]) && counts[k - 1] <= 0
  {
    var head, all := counts[..k - 1], counts[..k];
    assert all == head + [counts[k - 1]];
    assert forall i | 0 <= i < k - 1 :: head[i] == all[i];
    assert all[k - 1] == counts[k - 1];
  }

  /** The first `k` tasks have at least as many rows as their counts say, and as many if none is negative. */
  lemma {:induction false} TasksLength(counts: seq<int>, tasks: seq<seq<int>>, k: nat)
    requires k <= |counts| == |tasks| && forall i | 0 <= i < |tasks| :: |tasks[i]| == Max0(counts[i])
    ensures |Flatten(tasks, k)| >= Sum(counts, k)
    ensures |Flatten(tasks, k)| == Sum(counts, k) <==> NoNegative(counts[..k])
    ensures |Flatten(tasks, k)| == 0 <==> NoPositive(counts[..k])
  {
    if k > 0 {
      TasksLength(counts, tasks, k - 1);
      LastCount(counts, k);
      assert |Flatten(tasks, k)| == |Flatten(tasks, k - 1)| + Max0(counts[k - 1]);
    }
  }

  lemma {:induction false} NegativeSum(counts: seq<int>, k: nat)
    requires k <= |counts| && NoPositive(counts)
    ensures Sum(counts, k) <= 0
  {
    if k > 0 { NegativeSum(counts, k - 1); }
  }

  lemma {:induction false} CountedTasks(counts: seq<int>, tasks: seq<seq<int>>, k: nat)
    requires k <= |counts| == |tasks| && forall i | 0 <= i < |tasks| :: tasks[i] == GroupTask(counts, i)
    requires NoNegative(counts)
    ensures 0 <= Sum(counts, k) && Flatten(tasks, k) == Interval(0, Sum(counts, k))
  {
    if k > 0 {
      CountedTasks(counts, tasks, k - 1);
      IntervalSplit(0, Sum(counts, k - 1), Sum(counts, k));
    }
  }

  /** The tasks are the output rows of the job exactly if no count is negative, or none is positive. */
  lemma GroupTasks(counts: seq<int>, tasks: seq<seq<int>>)
    requires |counts| == |tasks| && forall i | 0 <= i < |tasks| :: tasks[i] == GroupTask(counts, i)
    ensures Flatten(tasks, |tasks|) == Interval(0, Sum(counts, |counts|)) <==> NoNegative(counts) || NoPositive(counts)
  {
    var n := |counts|;
    TasksLength(counts, tasks, n);
    assert counts[..n] == counts;
    if NoPositive(counts) { NegativeSum(counts, n); }
    if NoNegative(counts) { CountedTasks(counts, tasks, n); }
  }

  /** The tasks of a job with a slice: one per slice group. Together they are the output rows of the job if and
  only if the groups have no negative counts, or no positive ones. */
  method SliceTasks(ops: seq<Op>, slice: nat, rows: int, ghost rates: seq<seq<int>>) returns (tasks: seq<seq<int>>)
    requires Validated(ops) && RatesOk(ops, rates) && slice < |ops| && ops[slice].kind.Slice?
    requires InRates(ops, rates, slice) == [rows]
    ensures var counts := UnsliceCounts(ops, rates, Exit(ops, slice));
            && |tasks| == |counts| == |rates[slice]|
            && (forall i | 0 <= i < |tasks| :: tasks[i] == GroupTask(counts, i))
            && rates[|ops| - 1] == [Sum(counts, |counts|)]
            && (Flatten(tasks, |tasks|) == Interval(0, rates[|ops| - 1][0]) <==>
                NoNegative(counts) || NoPositive(counts))
  {
    var boundaries := SliceBoundaries(ops, slice, rows, rates);
    tasks := BuildTasks(boundaries);
    ghost var counts := UnsliceCounts(ops, rates, Exit(ops, slice));
    ExitGroups(ops, rates, slice);
    assert forall i | 0 <= i < |tasks| :: tasks[i] == GroupTask(counts, i);
    GroupTasks(counts, tasks);
  }
}
