/** A job with a slice that meets everything that running it asks for: a source of any number of rows, sliced into
groups of any size, unsliced and stored. */
module SliceJob {
  import opened Rows
  import opened Samplers
  import opened Partitions
  import opened Streams
  import opened Evaluator
  import opened Dag
  import opened JobGraphs
  import opened Demand
  import opened SparseDense
  import opened Liveness
  import opened Worker
  import opened Propagation
  import opened SliceGroups
  import opened GroupGraphs
  import opened Jobs
  import opened WholeJobs
  import T = Tasks

  ghost predicate SliceOps(ops: seq<T.Op>, n: nat, size: int) {
    && |ops| == 4 && ops[0] == T.Op(T.Kind.Source(n), []) && ops[1] == T.Op(T.Kind.Slice(Spaced(1, size)), [0])
    && ops[2] == T.Op(T.Kind.Unslice, [1]) && ops[3] == T.Op(T.Kind.Sink, [2])
  }

  ghost predicate SliceRates(rates: seq<seq<int>>, n: nat, size: int)
    requires size > 0
  {
    && |rates| == 4 && rates[0] == [n] && rates[1] == GroupCounts(n, size)
    && rates[2] == [n] && rates[3] == [n]
  }

  lemma SliceValid(ops: seq<T.Op>, n: nat, size: int)
    requires SliceOps(ops, n, size)
    ensures OpsReady(ops)
  {
    assert T.OpValidated(ops, 0) && T.OpValidated(ops, 1) && T.OpValidated(ops, 2) && T.OpValidated(ops, 3);
    assert 0 in ops[1].inputs && 1 in ops[2].inputs && 2 in ops[3].inputs;
    assert T.IsRead(ops, 0) && T.IsRead(ops, 1) && T.IsRead(ops, 2);
  }

  lemma SliceCounts(ops: seq<T.Op>, n: nat, size: int, rates: seq<seq<int>>)
    requires SliceOps(ops, n, size) && size > 0 && SliceRates(rates, n, size)
    ensures T.RatesOk(ops, rates)
  {
    GroupForward(n, size);
    assert T.RateOk(ops, rates, 0) && T.RateOk(ops, rates, 1) && T.RateOk(ops, rates, 2) && T.RateOk(ops, rates, 3);
  }

  /** The counts of the job are these and no others. */
  lemma SliceCountsOnly(ops: seq<T.Op>, n: nat, size: int, rates: seq<seq<int>>)
    requires SliceOps(ops, n, size) && size > 0 && T.RatesOk(ops, rates)
    ensures SliceRates(rates, n, size)
  {
    var found := [[n], GroupCounts(n, size), [n], [n]];
    SliceCounts(ops, n, size, found);
    RatesUnique(ops, rates, found, 0);
    RatesUnique(ops, rates, found, 1);
    RatesUnique(ops, rates, found, 2);
    RatesUnique(ops, rates, found, 3);
  }

  /** The graph of slice group `i`. */
  ghost predicate GroupGraph(g: Graph, n: nat, size: int, i: nat)
    requires size > 0
  {
    var p, counts := Spaced(1, size), GroupCounts(n, size);
    && i < |counts| && 0 <= counts[i] && Accepts(p, n)
    && |g.ops| == 4 && g.rows == [n, counts[i], n, n]
    && g.ops[0] == Op(Source, [], ["frame"])
    && g.ops[1] == Op(Builtin(RowMap.Slice(Group(p, n, i))), [ColRef(0, "frame")], ["frame"])
    && g.ops[2] == Op(Builtin(RowMap.Unslice(Sum(counts, i), counts[i])), [ColRef(1, "frame")], ["frame"])
    && g.ops[3] == Op(Sink, [ColRef(2, "frame")], [])
  }

  lemma GroupGraphShape(g: Graph, n: nat, size: int, i: nat)
    requires size > 0 && GroupGraph(g, n, size, i)
    ensures GraphShape(g)
  {
    var p, counts := Spaced(1, size), GroupCounts(n, size);
    assert "frame" in g.ops[0].outputs && "frame" in g.ops[1].outputs && "frame" in g.ops[2].outputs;
    assert EdgeOk(g, 1, g.ops[1].inputs[0]) && EdgeOk(g, 2, g.ops[2].inputs[0]) && EdgeOk(g, 3, g.ops[3].inputs[0]);
    GroupRows(p, n, i);
    forall q | 0 <= q < |counts| ensures counts[q] >= 0 { GroupSizes(p, n, q); }
    SumMonotone(counts, 0, i);
    assert OpShape(g, 0) && OpShape(g, 1) && OpShape(g, 2) && OpShape(g, 3);
  }

  lemma ReadNext(g: Graph, k: nat)
    requires k + 1 < |g.ops| == |g.rows| && g.ops[k].outputs == ["frame"]
    requires g.ops[k + 1].inputs == [ColRef(k, "frame")]
    ensures ReadSomewhere(g, k)
  {
    assert g.ops[k + 1].inputs[0] == Col(g, k, 0);
    assert Reading(g, k + 1, Col(g, k, 0));
  }

  lemma SliceLevels(ops: seq<T.Op>, n: nat, size: int, k: nat)
    requires SliceOps(ops, n, size) && k < 4
    ensures T.Level(ops, k) == if k == 1 then 1 else 0
  {
    assert k == 3 ==> T.Level(ops, ops[k].inputs[0]) == 0;
  }

  // ---- The job -----------------------------------------------------------------------------

  function SliceNodes(): seq<Node> {
    [ Node([], false, [], ["frame"]), Node([], false, [ColRef(0, "frame")], ["frame"]),
      Node([], false, [ColRef(1, "frame")], ["frame"]), Node([], false, [ColRef(2, "frame")], []) ]
  }

  ghost predicate IsSliceJob(job: Job, n: nat, size: int) {
    size > 0 && SliceOps(job.ops, n, size) && SliceRates(job.rates, n, size) && job.nodes == SliceNodes()
  }

  lemma SliceSelectable(job: Job, n: nat, size: int, k: nat, s: nat)
    requires IsSliceJob(job, n, size) && k < 4
    ensures (k == 1 || k == 2) && Selectable(job, k, s) ==> s < |GroupCounts(n, size)|
    ensures s < |GroupCounts(n, size)| ==> Selectable(job, k, s)
  {
    SliceLevels(job.ops, n, size, k);
    PlainGroups(n, size, s);
  }

  lemma SliceMapOk(job: Job, n: nat, size: int, k: nat, s: nat)
    requires IsSliceJob(job, n, size) && k < 4
    ensures MapOk(job, k, s)
  {
    SliceSelectable(job, n, size, k, s);
    PlainGroups(n, size, s);
    PlainCounts(n, size);
    if s < |GroupCounts(n, size)| {
      GroupRows(Spaced(1, size), n, s);
      SumMonotone(GroupCounts(n, size), 0, s);
    }
  }

  lemma SliceWellMade(job: Job, n: nat, size: int)
    requires IsSliceJob(job, n, size)
    ensures WellMade(job)
  {
    SliceValid(job.ops, n, size);
    forall k, s: nat | 0 <= k < 4 ensures MapOk(job, k, s) { SliceMapOk(job, n, size, k, s); }
    assert NodeOk(job, 0) && NodeOk(job, 1) && NodeOk(job, 2) && NodeOk(job, 3);
  }

  /** In each of its slice groups the job forms the graph of that group. */
  lemma SliceGraph(job: Job, n: nat, size: int, i: nat)
    requires IsSliceJob(job, n, size) && i < |GroupCounts(n, size)|
    ensures HasGroup(job, i) && GroupGraph(GraphAt(job, i), n, size, i)
  {
    forall k | 0 <= k < 4 ensures Selectable(job, k, i) && T.Level(job.ops, k) == if k == 1 then 1 else 0 {
      SliceSelectable(job, n, size, k, i);
      SliceLevels(job.ops, n, size, k);
    }
    PlainGroups(n, size, i);
    PlainCounts(n, size);
    assert GraphAt(job, i).rows == [n, GroupCounts(n, size)[i], n, n];
  }

  lemma SliceGroupReady(job: Job, n: nat, size: int, i: nat)
    requires IsSliceJob(job, n, size) && i < |GroupCounts(n, size)|
    ensures GroupReady(job, i)
  {
    SliceGraph(job, n, size, i);
    GroupGraphShape(GraphAt(job, i), n, size, i);
    ReadNext(GraphAt(job, i), 1);
    ReadNext(GraphAt(job, i), 2);
  }

  /** The tasks follow the groups of the slice. */
  lemma SliceFollows(ops: seq<T.Op>, n: nat, size: int, rates: seq<seq<int>>, slice: nat)
    requires SliceOps(ops, n, size) && size > 0 && SliceRates(rates, n, size) && slice == 1
    ensures T.Validated(ops) && TaskCounts(ops, rates, slice) == rates[1]
  {
    SliceValid(ops, n, size);
    SliceLevels(ops, n, size, slice);
    var c := T.LastReader(ops, slice);
    assert c == 2;
  }

  lemma SliceTaskReady(job: Job, n: nat, size: int, i: nat)
    requires IsSliceJob(job, n, size) && i < |GroupCounts(n, size)|
    ensures TaskReadyIn(job, GroupCounts(n, size), i)
  {
    SliceGroupReady(job, n, size, i);
    SliceGraph(job, n, size, i);
    var g, rows := GraphAt(job, i), T.GroupTask(GroupCounts(n, size), i);
    if GraphOk(g) {
      forall streams, sources | Derived(g, rows, streams, sources) ensures AllServed(g, streams) {
        GapFreeTask(g, rows, streams, sources);
      }
    }
  }

  lemma SliceRatesReady(job: Job, n: nat, size: int, src: seq<Contents>)
    requires IsSliceJob(job, n, size) && |src| == 1
    ensures JobReady(job, src)
  {
    SliceWellMade(job, n, size);
    SliceCounts(job.ops, n, size, job.rates);
    PlainCounts(n, size);
  }

  lemma SliceGrouping(ops: seq<T.Op>, n: nat, size: int, rates: seq<seq<int>>, slice: nat)
    requires SliceOps(ops, n, size) && size > 0 && SliceRates(rates, n, size) && slice == 1
    ensures T.Validated(ops) && OneGrouping(ops, rates, slice)
  {
    SliceFollows(ops, n, size, rates, slice);
  }

  /** The job can be run: it is ready, whatever counts it has. */
  lemma SliceJobReady(ops: seq<T.Op>, n: nat, size: int, slice: nat, src: seq<Contents>, rates: seq<seq<int>>)
    requires SliceOps(ops, n, size) && size > 0 && slice == 1 && |src| == 1 && T.RatesOk(ops, rates)
    ensures OpsReady(ops) && SlicedReady(Job(ops, SliceNodes(), rates), src, slice)
  {
    var job := Job(ops, SliceNodes(), rates);
    SliceValid(ops, n, size);
    SliceCountsOnly(ops, n, size, rates);
    SliceRatesReady(job, n, size, src);
    SliceFollows(ops, n, size, rates, slice);
    forall i | 0 <= i < |rates[1]| ensures TaskReadyIn(job, rates[1], i) { SliceTaskReady(job, n, size, i); }
    SliceGrouping(ops, n, size, rates, slice);
  }

  // ---- What it stores ----------------------------------------------------------------------

  /** Where row `x` of the output comes from. */
  lemma SliceRow(n: nat, size: int, i: nat, x: int)
    requires size > 0 && i < |GroupCounts(n, size)|
    requires Sum(GroupCounts(n, size), i) <= x < Sum(GroupCounts(n, size), i + 1)
    ensures var p, r := Spaced(1, size), x - Sum(GroupCounts(n, size), i);
            Accepts(p, n) && 0 <= r < |Group(p, n, i)| && Group(p, n, i)[r] == x
  {
    PlainGroups(n, size, i);
    GroupSum(n, size, i);
    GroupSum(n, size, i + 1);
    GroupSizes(Spaced(1, size), n, i);
  }

  /** A remapping passes on the element of the row it asks for. */
  lemma RemapReads(g: Graph, src: seq<Contents>, k: nat, j: nat, f: RowMap, x: int, r: int)
    requires |g.rows| == |g.ops| && j < k < |g.ops| && g.ops[j].outputs == ["frame"]
    requires g.ops[k] == Op(Builtin(f), [ColRef(j, "frame")], ["frame"])
    requires WellFormed(f) && InRange(f, x) && !IsNull(f, x) && UpRow(f, x) == r
    ensures Dense(g, src, k, x) == [ElemAt(Dense(g, src, j, r), 0)]
  {
    assert InputContents(g, src, k)[0](r) == ElemAt(Dense(g, src, j, r), 0);
  }

  lemma SliceDense(g: Graph, n: nat, size: int, i: nat, src: seq<Contents>, k: nat, r: int)
    requires size > 0 && GroupGraph(g, n, size, i) && GraphOk(g) && |src| == 1 && k == 1
    requires 0 <= r < |Group(Spaced(1, size), n, i)|
    ensures Dense(g, src, k, r) == [src[0](Group(Spaced(1, size), n, i)[r])]
  {
    assert OpOk(g, k);
    var group := Group(Spaced(1, size), n, i);
    RemapReads(g, src, k, k - 1, RowMap.Slice(group), r, group[r]);
  }

  lemma UnsliceRow(offset: int, count: int, x: int)
    requires 0 <= offset <= x < offset + count
    ensures var f := RowMap.Unslice(offset, count);
            WellFormed(f) && InRange(f, x) && !IsNull(f, x) && UpRow(f, x) == x - offset
  {
  }

  lemma UnsliceDense(g: Graph, n: nat, size: int, i: nat, src: seq<Contents>, k: nat, x: int)
    requires size > 0 && GroupGraph(g, n, size, i) && GraphOk(g) && |src| == 1 && k == 2
    requires Sum(GroupCounts(n, size), i) <= x < Sum(GroupCounts(n, size), i + 1)
    ensures Dense(g, src, k, x) == [src[0](x)]
  {
    var counts := GroupCounts(n, size);
    var r := x - Sum(counts, i);
    SliceRow(n, size, i, x);
    SliceDense(g, n, size, i, src, k - 1, r);
    assert OpOk(g, k);
    UnsliceRow(Sum(counts, i), counts[i], x);
    RemapReads(g, src, k, k - 1, RowMap.Unslice(Sum(counts, i), counts[i]), x, r);
  }

  /** In its rows, the group's graph gives the sink the source column. */
  lemma SliceContent(g: Graph, n: nat, size: int, i: nat, src: seq<Contents>, x: int)
    requires size > 0 && GroupGraph(g, n, size, i) && GraphOk(g) && |src| == 1
    requires Sum(GroupCounts(n, size), i) <= x < Sum(GroupCounts(n, size), i + 1)
    ensures SinkWidth(g) == 1 && SinkContent(g, src, 0)(x) == src[0](x)
  {
    UnsliceDense(g, n, size, i, src, 2, x);
  }

  lemma SliceStored(n: nat, size: int, gs: seq<Graph>, src: seq<Contents>, stored: seq<seq<Column>>)
    requires size > 0 && |src| == 1 && ColumnStored(GroupCounts(n, size), gs, src, 0, stored)
    requires forall i | 0 <= i < |gs| :: GroupGraph(gs[i], n, size, i)
    ensures Flatten(ColumnElems(stored, 0), |stored|) == Values(src[0], Interval(0, n))
  {
    var counts, parts := GroupCounts(n, size), ColumnElems(stored, 0);
    forall i | 0 <= i < |parts| ensures parts[i] == Values(src[0], T.GroupTask(counts, i)) {
      assert GraphOk(gs[i]) && GroupStored(counts, gs[i], src, i, 0, stored[i]);
      var rows := T.GroupTask(counts, i);
      forall j | 0 <= j < |rows| ensures SinkContent(gs[i], src, 0)(rows[j]) == src[0](rows[j]) {
        SliceContent(gs[i], n, size, i, src, rows[j]);
      }
    }
    forall i | 0 <= i < |counts| ensures counts[i] >= 0 {
      PlainGroups(n, size, i);
      GroupSizes(Spaced(1, size), n, i);
    }
    PartsJoined(counts, parts, src[0], |parts|);
    GroupForward(n, size);
  }

  /** Runs such a job. It always succeeds, and whatever the size of the groups, it stores the source column. */
  method RunSliceJob(n: nat, size: int, src: seq<Contents>, plans: seq<seq<seq<nat>>>)
    returns (stored: seq<seq<Column>>)
    requires size > 0 && |src| == 1
    ensures |stored| == CeilDiv(n, size)
    ensures Flatten(ColumnElems(stored, 0), |stored|) == Values(src[0], Interval(0, n))
  {
    var ops := [ T.Op(T.Kind.Source(n), []), T.Op(T.Kind.Slice(Spaced(1, size)), [0]),
                 T.Op(T.Kind.Unslice, [1]), T.Op(T.Kind.Sink, [2]) ];
    var slice := 1;
    SliceValid(ops, n, size);
    PlainGroups(n, size, 0);
    forall r | T.RatesOk(ops, r) ensures SlicedReady(Job(ops, SliceNodes(), r), src, slice) {
      SliceJobReady(ops, n, size, slice, src, r);
    }
    ghost var rates, gs;
    var res;
    res, rates, gs := RunSlicedJob(ops, SliceNodes(), src, slice, plans);
    SliceCounts(ops, n, size, [[n], GroupCounts(n, size), [n], [n]]);
    assert FromUnslice(ops, 0);
    SliceCountsOnly(ops, n, size, rates);
    SliceFollows(ops, n, size, rates, slice);
    stored := res.value;
    forall i | 0 <= i < |gs| ensures GroupGraph(gs[i], n, size, i) {
      SliceGraph(Job(ops, SliceNodes(), rates), n, size, i);
    }
    SliceStored(n, size, gs, src, stored);
  }
}
