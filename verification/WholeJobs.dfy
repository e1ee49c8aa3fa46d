/** A job from its ops to its stored columns: row counts, the cut into tasks, and the run of every task on the
graph of its slice group. */
module WholeJobs {
  import opened Rows
  import opened Samplers
  import opened Streams
  import opened Evaluator
  import opened Dag
  import opened JobGraphs
  import opened Demand
  import opened SparseDense
  import opened Liveness
  import opened Worker
  import opened Influence
  import opened Cuts
  import opened Jobs
  import opened GroupGraphs
  import opened Propagation
  import opened SliceGroups
  import T = Tasks

  // ---- What a job is run with --------------------------------------------------------------

  ghost predicate OpsReady(ops: seq<T.Op>) {
    T.Validated(ops) && forall k | 0 <= k < |ops| :: SamplersOk(ops[k].kind)
  }

  ghost predicate JobReady(job: Job, src: seq<Contents>) {
    && WellMade(job) && T.RatesOk(job.ops, job.rates) && SameSources(job.ops, job.rates) && CountsOk(job.rates)
    && |src| == |job.nodes[0].outputs|
  }

  /** The job forms a graph in slice group `s`, in which every remapping is read. */
  ghost predicate GroupReady(job: Job, s: nat) {
    && HasGroup(job, s) && GraphShape(GraphAt(job, s))
    && forall k | 0 <= k < |job.ops| && GraphAt(job, s).ops[k].kind.Builtin? :: ReadSomewhere(GraphAt(job, s), k)
  }

  /** The counts of the job fit this graph. */
  lemma GroupGraphOk(job: Job, src: seq<Contents>, s: nat)
    requires JobReady(job, src) && GroupReady(job, s)
    ensures Realizes(GraphAt(job, s), job.ops, job.rates, s) && GraphOk(GraphAt(job, s))
  {
    GraphRealizes(job, s);
    RatesFit(GraphAt(job, s), job.ops, job.rates, s);
  }

  // ---- Jobs without slices -----------------------------------------------------------------

  /** Its kernels are served in every task of `size` rows. */
  ghost predicate PlainReady(job: Job, src: seq<Contents>, size: int) {
    && JobReady(job, src) && GroupReady(job, 0)
    && (GraphOk(GraphAt(job, 0)) ==>
          forall b | T.PacketCut(b, TotalRows(job.rates), size) :: JobServed(GraphAt(job, 0), b))
  }

  /** What it stores: for tasks of `size` rows, what its graph says that they bring to the sink. */
  ghost predicate PlainStored(job: Job, src: seq<Contents>, size: int, b: seq<int>, stored: seq<seq<Column>>) {
    && HasGroup(job, 0) && CutOk(GraphAt(job, 0), TotalRows(job.rates), b)
    && T.PacketCut(b, TotalRows(job.rates), size) && |stored| == |b| - 1
    && forall k | 0 <= k < |stored| :: TaskStored(GraphAt(job, 0), src, TaskAt(b, k), stored[k])
  }

  lemma SinkTotal(ops: seq<T.Op>, rates: seq<seq<int>>)
    requires T.Validated(ops) && T.RatesOk(ops, rates) && CountsOk(rates)
    ensures rates[|ops| - 1] == [TotalRows(rates)] && TotalRows(rates) >= 0
  {
    T.SinkLevel(ops);
    OneCount(ops, rates, |ops| - 1);
  }

  /** Runs a job without slices, with tasks of `size` rows (`io_packet_size`). It fails exactly if the row
  counts do not match. */
  method RunPlainJob(ops: seq<T.Op>, nodes: seq<Node>, src: seq<Contents>, size: int, plans: seq<seq<seq<nat>>>)
    returns (res: Result<seq<seq<Column>>>, ghost rates: seq<seq<int>>, ghost b: seq<int>)
    requires OpsReady(ops) && size > 0 && forall k | 0 <= k < |ops| :: !ops[k].kind.Unslice?
    requires forall r | T.RatesOk(ops, r) :: PlainReady(Job(ops, nodes, r), src, size)
    ensures res.Success? <==> T.RatesOk(ops, rates)
    ensures res.Failure? ==> forall r :: !T.RatesOk(ops, r)
    ensures res.Success? ==> PlainStored(Job(ops, nodes, rates), src, size, b, res.value)
  {
    b := [];
    var counts := Propagate(ops);
    if counts.Failure? {
      rates := [];
      return Failure(counts.msg), rates, b;
    }
    rates := counts.value;
    var job := Job(ops, nodes, counts.value);
    assert PlainReady(job, src, size);
    GroupGraphOk(job, src, 0);
    SinkTotal(ops, rates);
    PlainOutput(GraphAt(job, 0), ops, rates);
    var total := counts.value[|ops| - 1][0];
    var boundaries := T.PacketBoundaries(total, size);
    b := boundaries;
    var stored := RunJob(job, src, boundaries, plans, total);
    res := Success(stored);
  }

  // ---- Jobs with slices --------------------------------------------------------------------

  /** Only the sink reads a column that comes out of an unslice op, so a task brings just its own rows. */
  lemma UnslicedColumn(g: Graph, i: nat, rows: seq<int>)
    requires GraphOk(g) && i < SinkWidth(g) && TaskRows(g, rows)
    requires SinkInput(g, i).op < |g.ops| && IsUnslice(g.ops[SinkInput(g, i).op])
    ensures SinkPart(g, i, rows) == rows
  {
    var c := SinkInput(g, i);
    forall k, q ensures !Shares(g, c, k, q) {
      if 0 <= k < |g.ops| - 1 && 0 <= q < |g.ops[k].inputs| {
        assert OpOk(g, k) && EdgeOk(g, k, g.ops[k].inputs[q]);
      }
    }
    PartExact(g, i, rows);
  }

  /** The counts per group that the tasks of the job follow. */
  ghost function TaskCounts(ops: seq<T.Op>, rates: seq<seq<int>>, slice: nat): seq<int>
    requires T.Validated(ops) && |rates| == |ops| && slice < |ops| && ops[slice].kind.Slice?
  {
    T.UnsliceCounts(ops, rates, T.Exit(ops, slice))
  }

  /** The job has a graph in slice group `i`; its task has arguments for its kernels there, and serves them. */
  ghost predicate TaskReadyIn(job: Job, counts: seq<int>, i: nat)
    requires i < |counts|
  {
    && GroupReady(job, i) && (counts[i] > 0 ==> ArgsFit(job, i))
    && (GraphOk(GraphAt(job, i)) ==>
          forall streams, sources | Derived(GraphAt(job, i), T.GroupTask(counts, i), streams, sources) ::
            AllServed(GraphAt(job, i), streams))
  }

  /** What a job with slices is run with. The last part is the exact condition for all its tasks to be evaluated
  in their slice group. */
  ghost predicate SlicedReady(job: Job, src: seq<Contents>, slice: nat) {
    && JobReady(job, src) && slice < |job.ops| && job.ops[slice].kind.Slice?
    && (var counts := TaskCounts(job.ops, job.rates, slice);
        forall i {:trigger TaskReadyIn(job, counts, i)} | 0 <= i < |counts| :: TaskReadyIn(job, counts, i))
    && OneGrouping(job.ops, job.rates, slice)
  }

  /** The graphs of the first `m` slice groups. */
  ghost function GraphsOf(job: Job, m: nat): (gs: seq<Graph>)
    requires forall i | 0 <= i < m :: HasGroup(job, i)
    ensures |gs| == m && forall i | 0 <= i < m :: gs[i] == GraphAt(job, i)
  {
    seq(m, i requires 0 <= i < m => GraphAt(job, i))
  }

  lemma ReadyGraphs(job: Job, src: seq<Contents>, slice: nat)
    requires SlicedReady(job, src, slice)
    ensures var m := |TaskCounts(job.ops, job.rates, slice)|;
            forall i | 0 <= i < m ::
              HasGroup(job, i) && Realizes(GraphAt(job, i), job.ops, job.rates, i) && GraphOk(GraphAt(job, i))
  {
    var counts := TaskCounts(job.ops, job.rates, slice);
    forall i | 0 <= i < |counts|
      ensures HasGroup(job, i) && Realizes(GraphAt(job, i), job.ops, job.rates, i) && GraphOk(GraphAt(job, i))
    {
      assert TaskReadyIn(job, counts, i);
      GroupGraphOk(job, src, i);
    }
  }

  // ---- A task with rows --------------------------------------------------------------------

  lemma UnsliceOk(job: Job, src: seq<Contents>)
    requires JobReady(job, src)
    ensures UnsliceCountsOk(job.ops, job.rates)
  {
    forall u | 0 <= u < |job.ops| && job.ops[u].kind.Unslice?
      ensures T.NoNegative(T.UnsliceCounts(job.ops, job.rates, u))
    {
      UnsliceNonNegative(job.ops, job.rates, u);
    }
  }

  /** Task `i` lies in group `i` of every unslice op, and is evaluated in it. */
  lemma TaskGroups(job: Job, src: seq<Contents>, slice: nat, i: nat)
    requires SlicedReady(job, src, slice) && i < |TaskCounts(job.ops, job.rates, slice)|
    requires TaskCounts(job.ops, job.rates, slice)[i] > 0
    ensures TaskInGroups(job.ops, job.rates, TaskCounts(job.ops, job.rates, slice), i)
    ensures job.ops[|job.ops| - 2].kind.Unslice? || i == 0
  {
    var counts := TaskCounts(job.ops, job.rates, slice);
    UnsliceOk(job, src);
    GroupingTask(job.ops, job.rates, slice, counts, i);
  }

  lemma GroupingTask(ops: seq<T.Op>, rates: seq<seq<int>>, slice: nat, counts: seq<int>, i: nat)
    requires T.Validated(ops) && T.RatesOk(ops, rates) && slice < |ops| && ops[slice].kind.Slice?
    requires 2 <= |ops| && UnsliceCountsOk(ops, rates) && OneGrouping(ops, rates, slice)
    requires counts == TaskCounts(ops, rates, slice) && i < |counts| && counts[i] > 0
    ensures TaskInGroups(ops, rates, counts, i) && (ops[|ops| - 2].kind.Unslice? || i == 0)
  {
    JobEvaluated(ops, rates, slice);
    assert EvaluatedRight(ops, rates, T.GroupTask(counts, i));
    TaskRight(ops, rates, slice, i);
  }

  lemma TaskFoundIn(job: Job, src: seq<Contents>, slice: nat, i: nat, u: nat)
    requires SlicedReady(job, src, slice) && i < |TaskCounts(job.ops, job.rates, slice)|
    requires TaskCounts(job.ops, job.rates, slice)[i] > 0 && u < |job.ops| && job.ops[u].kind.Unslice?
    requires TaskInGroups(job.ops, job.rates, TaskCounts(job.ops, job.rates, slice), i)
    ensures FindsGroup(job, T.GroupTask(TaskCounts(job.ops, job.rates, slice), i), u, i)
  {
    var counts := TaskCounts(job.ops, job.rates, slice);
    UnsliceOk(job, src);
    TaskEnds(counts, i);
    FoundWithin(T.UnsliceCounts(job.ops, job.rates, u), counts, i);
  }

  /** Task `i` is made of output rows of group `i`. */
  lemma TaskOfGroup(job: Job, src: seq<Contents>, slice: nat, i: nat)
    requires SlicedReady(job, src, slice) && i < |TaskCounts(job.ops, job.rates, slice)|
    requires TaskCounts(job.ops, job.rates, slice)[i] > 0
    ensures InOneGroup(job, T.GroupTask(TaskCounts(job.ops, job.rates, slice), i), i)
    ensures job.ops[|job.ops| - 2].kind.Unslice? || i == 0
  {
    var counts := TaskCounts(job.ops, job.rates, slice);
    assert TaskReadyIn(job, counts, i);
    GroupGraphOk(job, src, i);
    TaskGroups(job, src, slice, i);
    SliceOutput(GraphAt(job, i), job.ops, job.rates, slice, i);
    TaskEnds(counts, i);
    forall u | 0 <= u < |job.ops| && job.ops[u].kind.Unslice?
      ensures FindsGroup(job, T.GroupTask(counts, i), u, i)
    {
      TaskFoundIn(job, src, slice, i, u);
    }
  }

  lemma ChosenRight(job: Job, rows: seq<int>, i: nat)
    requires InOneGroup(job, rows, i) && rows != [] && (job.ops[|job.ops| - 2].kind.Unslice? || i == 0)
    ensures T.GroupFrom(job.ops, job.rates, rows, |job.ops| - 2) == i
  {
    LastStream(job.ops, job.rates, rows);
    if job.ops[|job.ops| - 2].kind.Unslice? { assert FindsGroup(job, rows, |job.ops| - 2, i); }
  }

  lemma TaskRunsIn(job: Job, src: seq<Contents>, slice: nat, i: nat, rows: seq<int>)
    requires SlicedReady(job, src, slice) && i < |TaskCounts(job.ops, job.rates, slice)|
    requires TaskCounts(job.ops, job.rates, slice)[i] > 0
    requires rows == T.GroupTask(TaskCounts(job.ops, job.rates, slice), i)
    ensures RunsIn(job, rows, i) && TaskRunnable(GraphAt(job, i), src, rows)
  {
    var counts := TaskCounts(job.ops, job.rates, slice);
    assert TaskReadyIn(job, counts, i);
    TaskOfGroup(job, src, slice, i);
    TaskEnds(counts, i);
    ChosenRight(job, rows, i);
  }

  // ---- A task without rows -----------------------------------------------------------------

  lemma NothingServed(g: Graph, streams: seq<TaskStream>, sources: seq<seq<int>>)
    requires GraphOk(g) && Derived(g, [], streams, sources)
    ensures AllServed(g, streams)
  {
    forall k | 0 <= k < |g.ops| ensures Served(g, k, streams[k]) {
      assert OpOk(g, k) && Demands(g, k, streams[k]);
      forall z ensures z !in streams[k].keep { KeepUnion(g, [], streams, sources, k, z); }
      if g.ops[k].kind.KernelOp? {
        assert forall c :: c in streams[k].compute <==> Needed(g.ops[k].kind.kernel.memory, streams[k].keep, c);
      }
    }
  }

  lemma NoRowsRun(job: Job, src: seq<Contents>)
    requires JobReady(job, src) && GroupReady(job, 0)
    ensures RunsIn(job, [], 0)
  {
    GroupGraphOk(job, src, 0);
    NoRowsNoGroup(job, |job.ops| - 2);
    forall k | 0 <= k < |job.ops| && job.ops[k].kind.Kernel? ensures 0 < |job.nodes[k].kernels| {
      assert NodeOk(job, k);
    }
  }

  /** It is evaluated in group 0, whatever its own, and brings nothing. */
  lemma EmptyRunsIn(job: Job, src: seq<Contents>)
    requires JobReady(job, src) && GroupReady(job, 0)
    ensures RunsIn(job, [], 0) && TaskRunnable(GraphAt(job, 0), src, [])
  {
    NoRowsRun(job, src);
    var g := GraphAt(job, 0);
    forall streams, sources | Derived(g, [], streams, sources) ensures AllServed(g, streams) {
      NothingServed(g, streams, sources);
    }
  }

  lemma EmptyPart(g: Graph, q: nat)
    requires GraphOk(g) && q < SinkWidth(g)
    ensures SinkPart(g, q, []) == []
  {
    var part := SinkPart(g, q, []);
    assert part == [] || part[0] in part;
    forall y ensures y !in part { SinkPartHas(g, q, [], y); }
  }

  lemma EmptyStored(g: Graph, g': Graph, src: seq<Contents>, stored: seq<Column>)
    requires GraphOk(g) && GraphOk(g') && SinkWidth(g) == SinkWidth(g') && TaskStored(g, src, [], stored)
    ensures TaskStored(g', src, [], stored)
  {
    forall q | 0 <= q < |stored|
      ensures stored[q] == Column(SinkPart(g', q, []), Values(SinkContent(g', src, q), SinkPart(g', q, [])))
    {
      EmptyPart(g, q);
      EmptyPart(g', q);
      assert Values(SinkContent(g, src, q), []) == Values(SinkContent(g', src, q), []);
    }
  }

  /** Column `q` of the sink comes out of an unslice op. */
  ghost predicate FromUnslice(ops: seq<T.Op>, q: nat) {
    && ops != [] && q < |ops[|ops| - 1].inputs|
    && var u := ops[|ops| - 1].inputs[q]; u < |ops| && ops[u].kind.Unslice?
  }

  /** Of such a column each task stores its own rows, with the elements of the group's stream. */
  ghost predicate GroupStored(counts: seq<int>, g: Graph, src: seq<Contents>, i: nat, q: nat, stored: seq<Column>)
    requires i < |counts| && GraphOk(g)
  {
    && q < SinkWidth(g) && q < |stored|
    && stored[q] == Column(T.GroupTask(counts, i), Values(SinkContent(g, src, q), T.GroupTask(counts, i)))
  }

  lemma StoresOwnRows(ops: seq<T.Op>, rates: seq<seq<int>>, counts: seq<int>, g: Graph, src: seq<Contents>, i: nat,
                      q: nat, stored: seq<Column>)
    requires i < |counts| && Realizes(g, ops, rates, i) && GraphOk(g) && TaskRows(g, T.GroupTask(counts, i))
    requires FromUnslice(ops, q) && TaskStored(g, src, T.GroupTask(counts, i), stored)
    ensures GroupStored(counts, g, src, i, q, stored)
  {
    var n, u := |ops|, ops[|ops| - 1].inputs[q];
    assert OpRealizes(g, ops, rates, i, n - 1) && OpRealizes(g, ops, rates, i, u);
    UnslicedColumn(g, q, T.GroupTask(counts, i));
    assert stored[q] == Column(SinkPart(g, q, T.GroupTask(counts, i)),
                               Values(SinkContent(g, src, q), SinkPart(g, q, T.GroupTask(counts, i))));
  }

  // ---- The stored column of a job with slices ----------------------------------------------

  /** The slice group that row `x` lies in. */
  ghost function GroupOf(counts: seq<int>, x: int, k: nat): (g: nat)
    requires k <= |counts|
    ensures g <= k
  {
    if k == 0 then 0 else if Sum(counts, k - 1) <= x then k - 1 else GroupOf(counts, x, k - 1)
  }

  lemma {:induction false} GroupOfRow(counts: seq<int>, x: int, k: nat, i: nat)
    requires i < k <= |counts| && T.NoNegative(counts) && Sum(counts, i) <= x < Sum(counts, i + 1)
    ensures GroupOf(counts, x, k) == i
    decreases k
  {
    if i < k - 1 {
      SumMonotone(counts, i + 1, k - 1);
      GroupOfRow(counts, x, k - 1, i);
    }
  }

  /** The column of a job: in each slice group the column of that group's graph. */
  ghost function JobContent(counts: seq<int>, gs: seq<Graph>, src: seq<Contents>, q: nat): Contents {
    (x: int) =>
      var i := GroupOf(counts, x, |counts|);
      if i < |gs| && GraphOk(gs[i]) && q < SinkWidth(gs[i]) then SinkContent(gs[i], src, q)(x) else Null
  }

  lemma GroupPart(counts: seq<int>, gs: seq<Graph>, src: seq<Contents>, q: nat, i: nat)
    requires i < |gs| == |counts| && GraphOk(gs[i]) && q < SinkWidth(gs[i]) && T.NoNegative(counts)
    ensures Values(SinkContent(gs[i], src, q), T.GroupTask(counts, i)) ==
            Values(JobContent(counts, gs, src, q), T.GroupTask(counts, i))
  {
    var rows := T.GroupTask(counts, i);
    forall j | 0 <= j < |rows| ensures SinkContent(gs[i], src, q)(rows[j]) == JobContent(counts, gs, src, q)(rows[j]) {
      GroupOfRow(counts, rows[j], |counts|, i);
    }
  }

  /** Every task stores its own rows of column `q`. */
  ghost predicate ColumnStored(counts: seq<int>, gs: seq<Graph>, src: seq<Contents>, q: nat, stored: seq<seq<Column>>) {
    && |gs| == |counts| == |stored|
    && forall i {:trigger gs[i]} | 0 <= i < |gs| :: GraphOk(gs[i]) && GroupStored(counts, gs[i], src, i, q, stored[i])
  }

  lemma {:induction false} PartsJoined(counts: seq<int>, parts: seq<seq<Element>>, c: Contents, k: nat)
    requires k <= |parts| == |counts| && T.NoNegative(counts)
    requires forall i | 0 <= i < |parts| :: parts[i] == Values(c, T.GroupTask(counts, i))
    ensures 0 <= Sum(counts, k) && Flatten(parts, k) == Values(c, Interval(0, Sum(counts, k)))
  {
    if k > 0 {
      PartsJoined(counts, parts, c, k - 1);
      T.IntervalSplit(0, Sum(counts, k - 1), Sum(counts, k));
      ValuesConcat(c, Interval(0, Sum(counts, k - 1)), T.GroupTask(counts, k - 1));
    }
  }

  /** The elements stored for the column, one group after the other, are the column of the job. */
  lemma GroupsJoined(counts: seq<int>, gs: seq<Graph>, src: seq<Contents>, q: nat, stored: seq<seq<Column>>)
    requires ColumnStored(counts, gs, src, q, stored) && T.NoNegative(counts)
    ensures Flatten(ColumnElems(stored, q), |stored|) ==
            Values(JobContent(counts, gs, src, q), Interval(0, Sum(counts, |counts|)))
  {
    var parts, c := ColumnElems(stored, q), JobContent(counts, gs, src, q);
    forall i | 0 <= i < |parts| ensures parts[i] == Values(c, T.GroupTask(counts, i)) {
      assert GraphOk(gs[i]) && GroupStored(counts, gs[i], src, i, q, stored[i]);
      GroupPart(counts, gs, src, q, i);
    }
    PartsJoined(counts, parts, c, |parts|);
  }

  /** The first `n` tasks store what the graphs of their groups say. */
  ghost predicate GroupsStored(counts: seq<int>, gs: seq<Graph>, src: seq<Contents>, stored: seq<seq<Column>>, n: nat)
    requires n <= |gs| == |counts| && n <= |stored|
  {
    forall i {:trigger gs[i]} | 0 <= i < n ::
      GraphOk(gs[i]) && TaskStored(gs[i], src, T.GroupTask(counts, i), stored[i])
  }

  /** Of column `q` the tasks together store the column of the job, row by row. */
  ghost predicate JobStored(rates: seq<seq<int>>, counts: seq<int>, gs: seq<Graph>, src: seq<Contents>, q: nat,
                            stored: seq<seq<Column>>) {
    && ColumnStored(counts, gs, src, q, stored)
    && Flatten(ColumnElems(stored, q), |stored|) ==
       Values(JobContent(counts, gs, src, q), Interval(0, TotalRows(rates)))
  }

  /** What a job with slices stores: every task what its group's graph says, and together the whole of every
  column that comes out of an unslice op. */
  ghost predicate SlicedStored(ops: seq<T.Op>, rates: seq<seq<int>>, counts: seq<int>, gs: seq<Graph>,
                               src: seq<Contents>, stored: seq<seq<Column>>) {
    && |stored| == |gs| == |counts| && GroupsStored(counts, gs, src, stored, |gs|)
    && rates != [] && rates[|rates| - 1] == [Sum(counts, |counts|)]
    && forall q: nat {:trigger FromUnslice(ops, q)} | FromUnslice(ops, q) ::
         JobStored(rates, counts, gs, src, q, stored)
  }

  lemma ColumnStores(job: Job, src: seq<Contents>, slice: nat, gs: seq<Graph>, q: nat, stored: seq<seq<Column>>)
    requires SlicedReady(job, src, slice) && Family(job, slice, gs) && |stored| == |gs| && FromUnslice(job.ops, q)
    requires GroupsStored(TaskCounts(job.ops, job.rates, slice), gs, src, stored, |gs|)
    ensures ColumnStored(TaskCounts(job.ops, job.rates, slice), gs, src, q, stored)
  {
    var counts := TaskCounts(job.ops, job.rates, slice);
    ReadyGraphs(job, src, slice);
    forall i | 0 <= i < |gs| ensures GraphOk(gs[i]) && GroupStored(counts, gs[i], src, i, q, stored[i]) {
      assert TaskStored(gs[i], src, T.GroupTask(counts, i), stored[i]);
      TaskRowsOf(job, src, slice, i);
      StoresOwnRows(job.ops, job.rates, counts, gs[i], src, i, q, stored[i]);
    }
  }

  /** The graphs of all slice groups that have a task. */
  ghost predicate Family(job: Job, slice: nat, gs: seq<Graph>)
    requires T.Validated(job.ops) && |job.rates| == |job.ops| && slice < |job.ops| && job.ops[slice].kind.Slice?
  {
    && |gs| == |TaskCounts(job.ops, job.rates, slice)|
    && forall i | 0 <= i < |gs| :: HasGroup(job, i) && gs[i] == GraphAt(job, i)
  }

  lemma TaskRowsOf(job: Job, src: seq<Contents>, slice: nat, i: nat)
    requires SlicedReady(job, src, slice) && i < |TaskCounts(job.ops, job.rates, slice)|
    ensures HasGroup(job, i) && GraphOk(GraphAt(job, i))
    ensures TaskRows(GraphAt(job, i), T.GroupTask(TaskCounts(job.ops, job.rates, slice), i))
  {
    var counts := TaskCounts(job.ops, job.rates, slice);
    ReadyGraphs(job, src, slice);
    FollowedCounts(job.ops, job.rates, slice);
    if counts[i] > 0 { TaskRunsIn(job, src, slice, i, T.GroupTask(counts, i)); }
  }

  lemma SlicedStores(job: Job, src: seq<Contents>, slice: nat, gs: seq<Graph>, stored: seq<seq<Column>>)
    requires SlicedReady(job, src, slice) && Family(job, slice, gs) && |stored| == |gs|
    requires GroupsStored(TaskCounts(job.ops, job.rates, slice), gs, src, stored, |gs|)
    ensures SlicedStored(job.ops, job.rates, TaskCounts(job.ops, job.rates, slice), gs, src, stored)
  {
    var counts := TaskCounts(job.ops, job.rates, slice);
    T.UnsliceTotal(job.ops, job.rates, T.Exit(job.ops, slice));
    FollowedCounts(job.ops, job.rates, slice);
    forall q: nat | FromUnslice(job.ops, q) ensures JobStored(job.rates, counts, gs, src, q, stored) {
      ColumnStores(job, src, slice, gs, q, stored);
      GroupsJoined(counts, gs, src, q, stored);
    }
  }

  // ---- Running it --------------------------------------------------------------------------

  lemma AnalysisServes(job: Job, a: Analysis, s: nat, s': nat)
    requires HasGroup(job, s) && HasGroup(job, s') && GraphOk(GraphAt(job, s)) && GraphOk(GraphAt(job, s'))
    requires Correct(GraphAt(job, s), a)
    ensures Correct(GraphAt(job, s'), a)
  {
    CorrectSame(GraphAt(job, s), GraphAt(job, s'), a);
  }

  /** The group that task `i` is evaluated in. */
  lemma GroupOfTask(job: Job, src: seq<Contents>, slice: nat, i: nat, rows: seq<int>) returns (s: nat)
    requires SlicedReady(job, src, slice) && i < |TaskCounts(job.ops, job.rates, slice)|
    requires rows == T.GroupTask(TaskCounts(job.ops, job.rates, slice), i)
    ensures RunsIn(job, rows, s) && TaskRunnable(GraphAt(job, s), src, rows) && s == if rows == [] then 0 else i
  {
    var counts := TaskCounts(job.ops, job.rates, slice);
    FollowedCounts(job.ops, job.rates, slice);
    s := if rows == [] then 0 else i;
    assert Sum(counts, i + 1) == Sum(counts, i) + counts[i];
    if rows == [] {
      assert TaskReadyIn(job, counts, 0);
      EmptyRunsIn(job, src);
    } else {
      TaskRunsIn(job, src, slice, i, rows);
    }
  }

  /** Task `rows` of slice group `i` is evaluated in group `s`: its own, or any if it has no rows. */
  ghost predicate Runnable(job: Job, a: Analysis, src: seq<Contents>, i: nat, rows: seq<int>, s: nat) {
    && HasGroup(job, i) && GraphOk(GraphAt(job, i)) && RunsIn(job, rows, s) && TaskRunnable(GraphAt(job, s), src, rows)
    && Correct(GraphAt(job, s), a) && (rows == [] || s == i)
  }

  lemma TaskRunnableIn(job: Job, a: Analysis, src: seq<Contents>, slice: nat, i: nat, rows: seq<int>) returns (s: nat)
    requires SlicedReady(job, src, slice) && i < |TaskCounts(job.ops, job.rates, slice)|
    requires rows == T.GroupTask(TaskCounts(job.ops, job.rates, slice), i) && Analyzed(job, a)
    ensures Runnable(job, a, src, i, rows, s)
  {
    ReadyGraphs(job, src, slice);
    s := GroupOfTask(job, src, slice, i, rows);
    AnalysisServes(job, a, 0, s);
  }

  lemma StoredAs(job: Job, src: seq<Contents>, i: nat, s: nat, rows: seq<int>, stored: seq<Column>)
    requires HasGroup(job, i) && HasGroup(job, s) && GraphOk(GraphAt(job, i)) && GraphOk(GraphAt(job, s))
    requires (rows == [] || s == i) && TaskStored(GraphAt(job, s), src, rows, stored)
    ensures TaskStored(GraphAt(job, i), src, rows, stored)
  {
    if s != i { EmptyStored(GraphAt(job, s), GraphAt(job, i), src, stored); }
  }

  /** Runs the task of slice group `i`. */
  method RunGroup(job: Job, a: Analysis, src: seq<Contents>, rows: seq<int>, plan: seq<seq<nat>>, ghost i: nat,
                  ghost s: nat)
    returns (result: seq<Column>)
    requires Runnable(job, a, src, i, rows, s)
    ensures TaskStored(GraphAt(job, i), src, rows, result)
  {
    result := RunOneTask(job, a, src, rows, plan, s);
    StoredAs(job, src, i, s, rows, result);
  }

  /** The tasks of all slice groups. */
  method PlanGroups(ops: seq<T.Op>, rates: seq<seq<int>>, slice: nat) returns (tasks: seq<seq<int>>)
    requires T.Validated(ops) && T.RatesOk(ops, rates) && slice < |ops| && ops[slice].kind.Slice?
    ensures |tasks| == |TaskCounts(ops, rates, slice)|
    ensures forall i | 0 <= i < |tasks| :: tasks[i] == T.GroupTask(TaskCounts(ops, rates, slice), i)
  {
    assert T.OpValidated(ops, slice) && T.RateOk(ops, rates, slice);
    tasks := T.SliceTasks(ops, slice, rates[ops[slice].inputs[0]][0], rates);
  }

  lemma StoredMore(counts: seq<int>, gs: seq<Graph>, src: seq<Contents>, stored: seq<seq<Column>>, n: nat,
                   result: seq<Column>)
    requires n == |stored| < |gs| == |counts| && GroupsStored(counts, gs, src, stored, n)
    requires GraphOk(gs[n]) && TaskStored(gs[n], src, T.GroupTask(counts, n), result)
    ensures GroupsStored(counts, gs, src, stored + [result], n + 1)
  {
  }

  ghost predicate Analyzed(job: Job, a: Analysis) {
    HasGroup(job, 0) && GraphOk(GraphAt(job, 0)) && Correct(GraphAt(job, 0), a)
  }

  /** Liveness analysis, once for all slice groups. */
  method AnalyzeJob(job: Job, ghost src: seq<Contents>, ghost slice: nat) returns (a: Analysis)
    requires SlicedReady(job, src, slice) && 0 < |TaskCounts(job.ops, job.rates, slice)|
    ensures Analyzed(job, a)
  {
    ReadyGraphs(job, src, slice);
    a := Analyze(GraphAt(job, 0));
  }

  /** Runs the tasks of all slice groups. */
  method RunGroups(job: Job, src: seq<Contents>, slice: nat, plans: seq<seq<seq<nat>>>, ghost gs: seq<Graph>)
    returns (stored: seq<seq<Column>>)
    requires SlicedReady(job, src, slice) && Family(job, slice, gs)
    ensures SlicedStored(job.ops, job.rates, TaskCounts(job.ops, job.rates, slice), gs, src, stored)
  {
    var tasks := PlanGroups(job.ops, job.rates, slice);
    ghost var counts := TaskCounts(job.ops, job.rates, slice);
    stored := [];
    if tasks != [] {
      var a := AnalyzeJob(job, src, slice);
      for i := 0 to |tasks|
        invariant |stored| == i && GroupsStored(counts, gs, src, stored, i)
      {
        ghost var s := TaskRunnableIn(job, a, src, slice, i, tasks[i]);
        var result := RunGroup(job, a, src, tasks[i], if i < |plans| then plans[i] else [], i, s);
        StoredMore(counts, gs, src, stored, i, result);
        stored := stored + [result];
      }
    }
    SlicedStores(job, src, slice, gs, stored);
  }

  /** Runs a job with slices: a task per slice group, evaluated in that group. It fails exactly if the row
  counts do not match. */
  method RunSlicedJob(ops: seq<T.Op>, nodes: seq<Node>, src: seq<Contents>, slice: nat, plans: seq<seq<seq<nat>>>)
    returns (res: Result<seq<seq<Column>>>, ghost rates: seq<seq<int>>, ghost gs: seq<Graph>)
    requires OpsReady(ops) && slice < |ops| && ops[slice].kind.Slice?
    requires forall r | T.RatesOk(ops, r) :: SlicedReady(Job(ops, nodes, r), src, slice)
    ensures res.Success? <==> T.RatesOk(ops, rates)
    ensures res.Failure? ==> forall r :: !T.RatesOk(ops, r)
    ensures res.Success? ==> Family(Job(ops, nodes, rates), slice, gs)
    ensures res.Success? ==> SlicedStored(ops, rates, TaskCounts(ops, rates, slice), gs, src, res.value)
  {
    var counts := Propagate(ops);
    if counts.Failure? {
      rates, gs := [], [];
      return Failure(counts.msg), rates, gs;
    }
    rates := counts.value;
    var job := Job(ops, nodes, counts.value);
    assert SlicedReady(job, src, slice);
    ReadyGraphs(job, src, slice);
    gs := GraphsOf(job, |TaskCounts(ops, rates, slice)|);
    var stored := RunGroups(job, src, slice, plans, gs);
    res := Success(stored);
  }
}
