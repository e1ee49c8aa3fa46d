/** From the ops of a job and their row counts to the graph of one slice group: its row counts are those of
forward propagation, its samplers and slices those of the group. The counts match in the sense that
evaluation relies on, and the tasks of the job are output rows of the graph. */
module GroupGraphs {
  import opened Rows
  import opened Samplers
  import opened Partitions
  import opened Dag
  import opened JobGraphs
  import opened Demand
  import opened SparseDense
  import T = Tasks

  // ---- The graph of a slice group ----------------------------------------------------------

  ghost predicate KindRealizes(kind: Kind, ops: seq<T.Op>, rates: seq<seq<int>>, i: nat, k: nat)
    requires k < |ops| == |rates|
  {
    var ins := T.InRates(ops, rates, k);
    match ops[k].kind
    case Source(_) => kind == if k == 0 then Source else MergedSource
    case Kernel => kind.KernelOp?
    case Sample(maps) => GroupIndex(ops, k, i) < |maps| && kind == Builtin(maps[GroupIndex(ops, k, i)])
    case Slice(p) =>
      |ins| == 1 && Accepts(p, ins[0]) && i < NumGroups(p, ins[0]) && kind == Builtin(RowMap.Slice(Group(p, ins[0], i)))
    case Unslice => i < |ins| && 0 <= ins[i] && kind == Builtin(RowMap.Unslice(Sum(ins, i), ins[i]))
    case Sink => kind == Kind.Sink
  }

  /** Op `k` of the graph is op `k` of the job, in slice group `i`. */
  ghost predicate OpRealizes(g: Graph, ops: seq<T.Op>, rates: seq<seq<int>>, i: nat, k: nat)
    requires k < |ops| == |rates| == |g.ops| == |g.rows|
  {
    && KindRealizes(g.ops[k].kind, ops, rates, i, k) && g.rows[k] == CountAt(ops, rates, k, i)
    && |g.ops[k].inputs| == |ops[k].inputs|
    && forall q | 0 <= q < |ops[k].inputs| :: g.ops[k].inputs[q].op == InputOp(ops, ops[k].inputs[q])
  }

  /** All sources have the same number of rows. Only one number is kept for all of them. */
  ghost predicate SameSources(ops: seq<T.Op>, rates: seq<seq<int>>)
    requires |ops| == |rates|
  {
    ops != [] && ops[0].kind.Source? && forall k | 0 <= k < |ops| && ops[k].kind.Source? :: rates[k] == rates[0]
  }

  /** No op has a negative count. */
  ghost predicate CountsOk(rates: seq<seq<int>>) {
    forall k | 0 <= k < |rates| :: T.NoNegative(rates[k])
  }

  /** The job with these counts has a slice group `i`, and `g` is its graph. */
  ghost predicate Realizes(g: Graph, ops: seq<T.Op>, rates: seq<seq<int>>, i: nat) {
    && T.Validated(ops) && T.RatesOk(ops, rates) && SameSources(ops, rates) && |g.ops| == |ops| == |g.rows|
    && CountsOk(rates)
    && (forall k | 0 <= k < |ops| && T.Level(ops, k) == 1 :: i < |rates[k]|)
    && (forall k | 0 <= k < |ops| :: OpRealizes(g, ops, rates, i, k))
  }

  // ---- Counts ------------------------------------------------------------------------------

  /** Outside of slices there is one count per op. */
  lemma {:induction false} OneCount(ops: seq<T.Op>, rates: seq<seq<int>>, k: nat)
    requires T.Validated(ops) && T.RatesOk(ops, rates) && k < |ops| && T.Level(ops, k) == 0
    ensures |rates[k]| == 1
    decreases k
  {
    assert T.OpValidated(ops, k) && T.RateOk(ops, rates, k);
    if !ops[k].kind.Source? && !ops[k].kind.Unslice? {
      assert T.InputLevelOk(ops, k, T.Level(ops, ops[k].inputs[0]));
      OneCount(ops, rates, ops[k].inputs[0]);
    }
  }

  /** Inputs of an op are on the level that its kind asks for. */
  lemma InputIndex(ops: seq<T.Op>, k: nat, q: nat, i: nat)
    requires T.Validated(ops) && k < |ops| && q < |ops[k].inputs|
    ensures ops[k].inputs[q] < k
    ensures GroupIndex(ops, ops[k].inputs[q], i) ==
            if ops[k].kind.Slice? || ops[k].kind.Sink? then 0
            else if ops[k].kind.Unslice? then i
            else GroupIndex(ops, k, i)
  {
    assert T.OpValidated(ops, k);
    assert T.InputLevelOk(ops, k, T.Level(ops, ops[k].inputs[q]));
  }

  /** The count of a parent in the graph is its count in the job. */
  lemma ParentCount(g: Graph, ops: seq<T.Op>, rates: seq<seq<int>>, i: nat, k: nat, q: nat)
    requires Realizes(g, ops, rates, i) && k < |ops| && q < |ops[k].inputs|
    ensures OpRealizes(g, ops, rates, i, k) && g.ops[k].inputs[q].op < |g.rows|
    ensures ops[k].inputs[q] < k && GroupIndex(ops, ops[k].inputs[q], i) < |T.InRates(ops, rates, k)|
    ensures g.rows[g.ops[k].inputs[q].op] == T.InRates(ops, rates, k)[GroupIndex(ops, ops[k].inputs[q], i)]
  {
    var j := ops[k].inputs[q];
    assert OpRealizes(g, ops, rates, i, k) && T.RateOk(ops, rates, k);
    InputIndex(ops, k, q, i);
    assert OpRealizes(g, ops, rates, i, j) && OpRealizes(g, ops, rates, i, 0);
    if T.Level(ops, j) == 0 { OneCount(ops, rates, j); }
    LevelBound(ops, j);
    assert rates[j] == T.InRates(ops, rates, k);
    if ops[j].kind.Source? { assert rates[j] == rates[0]; }
  }

  lemma {:induction false} LevelBound(ops: seq<T.Op>, k: nat)
    ensures T.Level(ops, k) <= 1
    decreases k
  {
    if k < |ops| && ops[k].inputs != [] && ops[k].inputs[0] < k { LevelBound(ops, ops[k].inputs[0]); }
  }

  lemma InputNonNegative(ops: seq<T.Op>, rates: seq<seq<int>>, k: nat, q: nat)
    requires T.RatesOk(ops, rates) && k < |ops| && q < |T.InRates(ops, rates, k)| && CountsOk(rates)
    ensures T.InRates(ops, rates, k)[q] >= 0
  {
    assert T.RateOk(ops, rates, k);
  }

  /** That is so if all ranges of all samplers are reached. */
  lemma ReachedCounts(ops: seq<T.Op>, rates: seq<seq<int>>)
    requires T.RatesOk(ops, rates) && forall k | 0 <= k < |ops| :: T.Reached(ops, rates, k)
    ensures CountsOk(rates)
  {
    forall k, i | 0 <= k < |rates| && 0 <= i < |rates[k]| ensures rates[k][i] >= 0 {
      T.CountsNonNegative(ops, rates, k, i);
    }
  }

  /** The graph that a job forms in a slice group is such a graph. */
  lemma GraphRealizes(job: Job, i: nat)
    requires WellMade(job) && T.RatesOk(job.ops, job.rates) && SameSources(job.ops, job.rates) && CountsOk(job.rates)
    requires HasGroup(job, i)
    ensures Realizes(GraphAt(job, i), job.ops, job.rates, i)
  {
    var g := GraphAt(job, i);
    forall k | 0 <= k < |job.ops|
      ensures OpRealizes(g, job.ops, job.rates, i, k) && (T.Level(job.ops, k) == 1 ==> i < |job.rates[k]|)
    {
      assert Selectable(job, k, i) && NodeOk(job, k);
      if job.ops[k].kind.Unslice? { InputNonNegative(job.ops, job.rates, k, i); }
    }
  }

  // ---- Row counts fit ----------------------------------------------------------------------

  lemma KernelRows(g: Graph, ops: seq<T.Op>, rates: seq<seq<int>>, i: nat, k: nat)
    requires Realizes(g, ops, rates, i) && k < |ops| && ops[k].kind.Kernel? && OpShape(g, k)
    ensures OpRows(g, k)
  {
    assert OpRealizes(g, ops, rates, i, k) && T.RateOk(ops, rates, k);
    forall q | 0 <= q < |ops[k].inputs| ensures g.rows[g.ops[k].inputs[q].op] == g.rows[k] {
      ParentCount(g, ops, rates, i, k, q);
      InputIndex(ops, k, q, i);
    }
  }

  /** A count that is not negative promises no rows that the sampler does not have: it is right or too small. */
  lemma CountedRow(m: RowMap, n: int, r: int)
    requires WellFormed(m) && !m.Slice? && !m.Unslice? && 0 <= n && 0 <= r < DownstreamCount(m, n)
    ensures InRange(m, r) && UpRow(m, r) < n
  {
    if RangeReached(m, n) {
      CountExact(m, n);
    } else {
      var k := OffsetAt(m, FirstEndingAfter(m, n, 0));
      CountTooSmall(m, n, k);
      assert Counts(m, n, k);
    }
  }

  /** The samplers of a group supply as many rows as their count says. */
  lemma SampleRows(g: Graph, ops: seq<T.Op>, rates: seq<seq<int>>, i: nat, k: nat, r: int)
    requires Realizes(g, ops, rates, i) && k < |ops| && ops[k].kind.Sample?
    requires OpShape(g, k) && g.ops[k].kind.Builtin?
    ensures MapFits(g, k, r)
  {
    assert OpRealizes(g, ops, rates, i, k) && T.RateOk(ops, rates, k);
    var m, q, ins := g.ops[k].kind.rowMap, GroupIndex(ops, k, i), T.InRates(ops, rates, k);
    ParentCount(g, ops, rates, i, k, 0);
    InputIndex(ops, k, 0, i);
    InputNonNegative(ops, rates, k, q);
    assert g.rows[k] == DownstreamCount(m, ins[q]) && InputDomain(g, k) == ins[q];
    if 0 <= r < g.rows[k] { CountedRow(m, ins[q], r); }
  }

  /** A slice takes rows of its input. */
  lemma SliceRows(g: Graph, ops: seq<T.Op>, rates: seq<seq<int>>, i: nat, k: nat, r: int)
    requires Realizes(g, ops, rates, i) && k < |ops| && ops[k].kind.Slice?
    requires OpShape(g, k) && g.ops[k].kind.Builtin?
    ensures MapFits(g, k, r)
  {
    assert OpRealizes(g, ops, rates, i, k) && T.RateOk(ops, rates, k);
    var p, n := ops[k].kind.partitioner, T.InRates(ops, rates, k)[0];
    ParentCount(g, ops, rates, i, k, 0);
    InputIndex(ops, k, 0, i);
    GroupSizes(p, n, i);
    GroupRows(p, n, i);
    if 0 <= r < g.rows[k] { assert Group(p, n, i)[r] in Group(p, n, i); }
  }

  /** An unslice op shifts the rows of its group. */
  lemma UnsliceRows(g: Graph, ops: seq<T.Op>, rates: seq<seq<int>>, i: nat, k: nat, r: int)
    requires Realizes(g, ops, rates, i) && k < |ops| && ops[k].kind.Unslice?
    requires OpShape(g, k) && g.ops[k].kind.Builtin?
    ensures MapFits(g, k, r)
  {
    assert OpRealizes(g, ops, rates, i, k);
    ParentCount(g, ops, rates, i, k, 0);
    InputIndex(ops, k, 0, i);
  }

  /** The row counts of forward propagation are what evaluation relies on. */
  lemma RatesFit(g: Graph, ops: seq<T.Op>, rates: seq<seq<int>>, i: nat)
    requires GraphShape(g) && Realizes(g, ops, rates, i)
    ensures GraphOk(g)
  {
    forall k | 0 <= k < |g.ops| ensures OpOk(g, k) {
      assert OpShape(g, k) && OpRealizes(g, ops, rates, i, k);
      match ops[k].kind
      case Kernel => KernelRows(g, ops, rates, i, k);
      case Sample(_) => forall r ensures MapFits(g, k, r) { SampleRows(g, ops, rates, i, k, r); }
      case Slice(_) => forall r ensures MapFits(g, k, r) { SliceRows(g, ops, rates, i, k, r); }
      case Unslice => forall r ensures MapFits(g, k, r) { UnsliceRows(g, ops, rates, i, k, r); }
      case _ =>
    }
  }

  // ---- Tasks -------------------------------------------------------------------------------

  /** The number of output rows of the job. */
  function TotalRows(rates: seq<seq<int>>): int {
    if rates != [] && rates[|rates| - 1] != [] then rates[|rates| - 1][0] else 0
  }

  /** Row `x` is an output row of slice group `i`. */
  ghost predicate InGroup(ops: seq<T.Op>, rates: seq<seq<int>>, i: nat, x: int)
    requires |ops| == |rates|
  {
    && 0 <= x < TotalRows(rates)
    && forall u | 0 <= u < |ops| && ops[u].kind.Unslice? && i < |T.InRates(ops, rates, u)| ::
         Sum(T.InRates(ops, rates, u), i) <= x < Sum(T.InRates(ops, rates, u), i + 1)
  }

  /** What the sink reads as its input `q`: as many rows as the job has. */
  lemma SinkReads(g: Graph, ops: seq<T.Op>, rates: seq<seq<int>>, i: nat, q: nat)
    requires GraphShape(g) && Realizes(g, ops, rates, i) && q < SinkWidth(g)
    ensures q < |ops[|ops| - 1].inputs| && ops[|ops| - 1].inputs[q] < |ops|
    ensures SinkInput(g, q).op == InputOp(ops, ops[|ops| - 1].inputs[q]) < |g.rows|
    ensures g.rows[SinkInput(g, q).op] == TotalRows(rates)
  {
    var n := |ops|;
    assert OpRealizes(g, ops, rates, i, n - 1) && T.RateOk(ops, rates, n - 1) && T.OpValidated(ops, n - 1);
    ParentCount(g, ops, rates, i, n - 1, q);
    InputIndex(ops, n - 1, q, i);
    assert TotalRows(rates) == T.InRates(ops, rates, n - 1)[0];
  }

  lemma UnsliceHas(g: Graph, ops: seq<T.Op>, rates: seq<seq<int>>, i: nat, j: nat, x: int)
    requires Realizes(g, ops, rates, i) && j < |ops| && ops[j].kind.Unslice? && InGroup(ops, rates, i, x)
    ensures InStream(g, j, x)
  {
    assert OpRealizes(g, ops, rates, i, j);
    var ins := T.InRates(ops, rates, j);
    assert Sum(ins, i + 1) == Sum(ins, i) + ins[i];
  }

  lemma SinkInputHas(g: Graph, ops: seq<T.Op>, rates: seq<seq<int>>, i: nat, q: nat, x: int)
    requires GraphShape(g) && Realizes(g, ops, rates, i) && q < SinkWidth(g) && InGroup(ops, rates, i, x)
    ensures SinkInput(g, q).op < |g.ops| && InStream(g, SinkInput(g, q).op, x)
  {
    SinkReads(g, ops, rates, i, q);
    var j := ops[|ops| - 1].inputs[q];
    if ops[j].kind.Unslice? { UnsliceHas(g, ops, rates, i, j, x); } else { SamplesAreNoUnslice(g, ops, rates, i, j); }
  }

  lemma SamplesAreNoUnslice(g: Graph, ops: seq<T.Op>, rates: seq<seq<int>>, i: nat, j: nat)
    requires Realizes(g, ops, rates, i) && j < |ops| && !ops[j].kind.Unslice?
    ensures InputOp(ops, j) < |g.ops| && !IsUnslice(g.ops[InputOp(ops, j)])
  {
    var k := InputOp(ops, j);
    assert OpRealizes(g, ops, rates, i, k) && T.RateOk(ops, rates, k);
    if ops[k].kind.Sample? { assert T.SamplerOk(ops[k].kind.maps[GroupIndex(ops, k, i)]); }
  }

  /** Output rows of a slice group are rows of every stream that the sink reads in it. */
  lemma GroupOutput(g: Graph, ops: seq<T.Op>, rates: seq<seq<int>>, i: nat, rows: seq<int>)
    requires GraphShape(g) && Realizes(g, ops, rates, i) && GraphOk(g) &&
             forall x | x in rows :: InGroup(ops, rates, i, x)
    ensures OutputRows(g, rows)
  {
    var sink := g.ops[|g.ops| - 1];
    forall q, x | 0 <= q < |sink.inputs| && x in rows
      ensures sink.inputs[q].op < |g.ops| && InStream(g, sink.inputs[q].op, x)
    {
      SinkInputHas(g, ops, rates, i, q, x);
    }
  }

  /** Without slices, all rows of the job are output rows of its graph, and so are those of any task. */
  lemma PlainOutput(g: Graph, ops: seq<T.Op>, rates: seq<seq<int>>)
    requires GraphShape(g) && Realizes(g, ops, rates, 0) && forall k | 0 <= k < |ops| :: !ops[k].kind.Unslice?
    ensures GraphOk(g) && OutputRows(g, Interval(0, TotalRows(rates)))
  {
    RatesFit(g, ops, rates, 0);
    GroupOutput(g, ops, rates, 0, Interval(0, TotalRows(rates)));
  }

  /** The rows of the task of slice group `i` lie in group `i` of every unslice op. */
  ghost predicate TaskInGroups(ops: seq<T.Op>, rates: seq<seq<int>>, counts: seq<int>, i: nat)
    requires |ops| == |rates| && i < |counts|
  {
    forall u | 0 <= u < |ops| && ops[u].kind.Unslice? :: TaskWithin(T.UnsliceCounts(ops, rates, u), counts, i)
  }

  ghost predicate TaskWithin(others: seq<int>, counts: seq<int>, i: nat)
    requires i < |counts|
  {
    i < |others| && Sum(others, i) <= Sum(counts, i) && Sum(counts, i + 1) <= Sum(others, i + 1)
  }

  /** The sink reads every unslice op. */
  lemma UnsliceStream(g: Graph, ops: seq<T.Op>, rates: seq<seq<int>>, i: nat, u: nat, rows: seq<int>, x: int)
    requires GraphShape(g) && Realizes(g, ops, rates, i) && GraphOk(g) && OutputRows(g, rows) && x in rows
    requires u < |ops| && ops[u].kind.Unslice?
    ensures var others := T.UnsliceCounts(ops, rates, u);
            i < |others| && Sum(others, i) <= x < Sum(others, i + 1)
  {
    var n := |ops|;
    T.ReaderOfUnslice(ops, u);
    var q :| 0 <= q < |ops[n - 1].inputs| && ops[n - 1].inputs[q] == u;
    assert OpRealizes(g, ops, rates, i, n - 1) && OpRealizes(g, ops, rates, i, u);
    assert g.ops[n - 1].inputs[q].op == u && InStream(g, u, x);
    assert Sum(T.UnsliceCounts(ops, rates, u), i + 1) ==
           Sum(T.UnsliceCounts(ops, rates, u), i) + T.UnsliceCounts(ops, rates, u)[i];
  }

  lemma OutputInGroups(g: Graph, ops: seq<T.Op>, rates: seq<seq<int>>, counts: seq<int>, i: nat)
    requires GraphShape(g) && Realizes(g, ops, rates, i) && GraphOk(g) && i < |counts| && counts[i] > 0
    requires OutputRows(g, T.GroupTask(counts, i))
    ensures TaskInGroups(ops, rates, counts, i)
  {
    var rows := T.GroupTask(counts, i);
    assert Sum(counts, i + 1) == Sum(counts, i) + counts[i];
    forall u | 0 <= u < |ops| && ops[u].kind.Unslice? ensures TaskWithin(T.UnsliceCounts(ops, rates, u), counts, i) {
      UnsliceStream(g, ops, rates, i, u, rows, Sum(counts, i));
      UnsliceStream(g, ops, rates, i, u, rows, Sum(counts, i + 1) - 1);
    }
  }

  lemma RowInGroups(ops: seq<T.Op>, rates: seq<seq<int>>, counts: seq<int>, i: nat, x: int)
    requires |ops| == |rates| && i < |counts| && TaskInGroups(ops, rates, counts, i)
    requires Sum(counts, i) <= x < Sum(counts, i + 1) && 0 <= x < TotalRows(rates)
    ensures InGroup(ops, rates, i, x)
  {
    forall v | 0 <= v < |ops| && ops[v].kind.Unslice? && i < |T.InRates(ops, rates, v)|
      ensures Sum(T.InRates(ops, rates, v), i) <= x < Sum(T.InRates(ops, rates, v), i + 1)
    {
      assert TaskWithin(T.UnsliceCounts(ops, rates, v), counts, i);
    }
  }

  lemma GroupTaskRow(counts: seq<int>, i: nat, x: int)
    requires T.NoNegative(counts) && i < |counts| && x in T.GroupTask(counts, i)
    ensures Sum(counts, i) <= x < Sum(counts, i + 1) && 0 <= x < Sum(counts, |counts|)
  {
    SumMonotone(counts, 0, i);
    SumMonotone(counts, i + 1, |counts|);
  }

  lemma InGroupsOutput(g: Graph, ops: seq<T.Op>, rates: seq<seq<int>>, counts: seq<int>, i: nat)
    requires GraphShape(g) && Realizes(g, ops, rates, i) && GraphOk(g) && i < |counts| && T.NoNegative(counts)
    requires TotalRows(rates) == Sum(counts, |counts|) && TaskInGroups(ops, rates, counts, i)
    ensures OutputRows(g, T.GroupTask(counts, i))
  {
    forall x | x in T.GroupTask(counts, i) ensures InGroup(ops, rates, i, x) {
      GroupTaskRow(counts, i, x);
      RowInGroups(ops, rates, counts, i, x);
    }
    GroupOutput(g, ops, rates, i, T.GroupTask(counts, i));
  }

  lemma UnsliceNonNegative(ops: seq<T.Op>, rates: seq<seq<int>>, u: nat)
    requires T.RatesOk(ops, rates) && CountsOk(rates) && u < |ops| && ops[u].kind.Unslice?
    ensures T.NoNegative(T.UnsliceCounts(ops, rates, u))
  {
    assert T.RateOk(ops, rates, u);
  }

  /** The counts that the tasks follow: one per slice group, none negative, together the output rows. */
  lemma FollowedCounts(ops: seq<T.Op>, rates: seq<seq<int>>, slice: nat)
    requires T.Validated(ops) && T.RatesOk(ops, rates) && slice < |ops| && ops[slice].kind.Slice?
    requires CountsOk(rates)
    ensures var counts := T.UnsliceCounts(ops, rates, T.Exit(ops, slice));
            |counts| == |rates[slice]| && T.NoNegative(counts) && TotalRows(rates) == Sum(counts, |counts|)
  {
    T.ExitGroups(ops, rates, slice);
    UnsliceNonNegative(ops, rates, T.Exit(ops, slice));
    T.UnsliceTotal(ops, rates, T.Exit(ops, slice));
  }

  lemma TaskOutput(g: Graph, ops: seq<T.Op>, rates: seq<seq<int>>, counts: seq<int>, i: nat)
    requires GraphShape(g) && Realizes(g, ops, rates, i) && GraphOk(g) && i < |counts| && T.NoNegative(counts)
    requires TotalRows(rates) == Sum(counts, |counts|)
    ensures OutputRows(g, T.GroupTask(counts, i)) <==> counts[i] == 0 || TaskInGroups(ops, rates, counts, i)
  {
    if counts[i] > 0 {
      if OutputRows(g, T.GroupTask(counts, i)) { OutputInGroups(g, ops, rates, counts, i); }
      if TaskInGroups(ops, rates, counts, i) { InGroupsOutput(g, ops, rates, counts, i); }
    }
  }

  /** The task that follows slice group `i` is made of output rows of the group's graph if and only if it is
  empty, or lies in group `i` of every unslice op. */
  lemma SliceOutput(g: Graph, ops: seq<T.Op>, rates: seq<seq<int>>, slice: nat, i: nat)
    requires GraphShape(g) && Realizes(g, ops, rates, i) && slice < |ops| && ops[slice].kind.Slice?
    ensures var counts := T.UnsliceCounts(ops, rates, T.Exit(ops, slice));
            && GraphOk(g) && i < |counts|
            && (OutputRows(g, T.GroupTask(counts, i)) <==> counts[i] == 0 || TaskInGroups(ops, rates, counts, i))
  {
    RatesFit(g, ops, rates, i);
    FollowedCounts(ops, rates, slice);
    TaskOutput(g, ops, rates, T.UnsliceCounts(ops, rates, T.Exit(ops, slice)), i);
  }

  /** It does if all unslice ops have the same groups, as in a job with one of them. */
  lemma SameGroups(ops: seq<T.Op>, rates: seq<seq<int>>, counts: seq<int>, i: nat)
    requires |ops| == |rates| && i < |counts|
    requires forall u | 0 <= u < |ops| && ops[u].kind.Unslice? :: T.UnsliceCounts(ops, rates, u) == counts
    ensures TaskInGroups(ops, rates, counts, i)
  {
  }
}
