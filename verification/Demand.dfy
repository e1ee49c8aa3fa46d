/** Demand analysis (`derive_stencil_requirements`): walks the graph from the sink upwards and
finds, for the output rows of a task, the rows that every op has to receive, compute and pass
on, and the slice group that they belong to. */
module Demand {
  import opened Rows
  import opened Samplers
  import opened Streams
  import opened Dag
  import opened JobGraphs
  import T = Tasks

  /** `group` is the slice group that the walk had settled on when it came by the op. */
  datatype TaskStream = TaskStream(group: int, valid: seq<int>, compute: seq<int>, keep: seq<int>)

  /** Demand analysis of one task: a stream per op, and the rows to load of every source column. */
  datatype Task = Task(streams: seq<TaskStream>, sources: seq<seq<int>>)

  // ---- Specification -----------------------------------------------------------------------

  /** Row `x` has to be computed for the sake of output row `o`: it is `o` itself, or a row the
  state of the kernel still remembers. */
  ghost predicate NeededFor(memory: Memory, x: int, o: int) {
    0 <= x <= o && (memory.Bounded? ==> o <= x + memory.warmup)
  }

  ghost predicate Needed(memory: Memory, keep: seq<int>, x: int) {
    exists o :: o in keep && NeededFor(memory, x, o)
  }

  /** Row `x` lies in the stencil window of a compute row and within the domain. */
  ghost predicate InWindow(stencil: seq<int>, compute: seq<int>, max: int, x: int) {
    0 <= x < max && exists c, s :: c in compute && s in stencil && x == c + s
  }

  /** What an op of a kind, with inputs of `max` rows, needs for the rows it has to pass on. */
  ghost predicate KindDemands(kind: Kind, max: int, ts: TaskStream)
    requires kind.Builtin? ==> WellFormed(kind.rowMap)
  {
    && Ascending(ts.keep) && Ascending(ts.compute) && Ascending(ts.valid)
    && match kind
       case KernelOp(kernel) =>
         && (forall x :: x in ts.compute <==> Needed(kernel.memory, ts.keep, x))
         && (forall x :: x in ts.valid <==> InWindow(kernel.stencil, ts.compute, max, x))
       case Builtin(m) => AllInRange(m, ts.keep) && ts.valid == UpRows(m, ts.keep) && ts.compute == ts.valid
       case Sink => ts.valid == ts.keep && ts.compute == ts.keep
       case _ => ts.valid == [] && ts.compute == []
  }

  ghost predicate Demands(g: Graph, k: nat, ts: TaskStream)
    requires GraphOk(g) && k < |g.ops|
  {
    assert OpOk(g, k);
    KindDemands(g.ops[k].kind, if g.ops[k].inputs == [] then 0 else InputDomain(g, k), ts)
  }

  /** Op `k` reads row `x` of op `j`. */
  ghost predicate Reads(g: Graph, streams: seq<TaskStream>, k: int, i: int, j: nat, x: int) {
    && 0 <= k < |g.ops| && k < |streams| && 0 <= i < |g.ops[k].inputs|
    && g.ops[k].inputs[i].op == j && x in streams[k].valid
  }

  /** Some op from `from` on reads row `x` of op `j`. */
  ghost predicate Wanted(g: Graph, streams: seq<TaskStream>, from: nat, j: nat, x: int) {
    exists k, i :: from <= k && Reads(g, streams, k, i, j, x)
  }

  /** Some op from `from` on reads row `x` of column `c`. */
  ghost predicate ColumnWanted(g: Graph, streams: seq<TaskStream>, from: nat, c: ColRef, x: int) {
    exists k, i :: from <= k && Reads(g, streams, k, i, c.op, x) && g.ops[k].inputs[i] == c
  }

  ghost predicate StreamsInDomain(g: Graph, streams: seq<TaskStream>)
    requires GraphOk(g) && |streams| == |g.ops|
  {
    forall k, x {:trigger InStream(g, k, x)} | 0 <= k < |g.ops| - 1 && x in streams[k].keep :: InStream(g, k, x)
  }

  /** Op `j` passes on exactly the rows that later ops read. */
  ghost predicate KeepsWanted(g: Graph, streams: seq<TaskStream>, j: nat)
    requires j < |streams|
  {
    forall x :: x in streams[j].keep <==> Wanted(g, streams, j + 1, j, x)
  }

  /** Of source column `c`, exactly the rows are loaded that some op reads. */
  ghost predicate LoadsWanted(g: Graph, streams: seq<TaskStream>, sources: seq<seq<int>>, c: nat)
    requires |g.ops| > 0 && c < |sources| == |g.ops[0].outputs|
  {
    Ascending(sources[c]) && forall x :: x in sources[c] <==>
      ColumnWanted(g, streams, 1, ColRef(0, g.ops[0].outputs[c]), x)
  }

  /** The result of the analysis: every op gets exactly the rows that its consumers read. */
  ghost predicate Derived(g: Graph, requested: seq<int>, streams: seq<TaskStream>, sources: seq<seq<int>>)
    requires GraphOk(g)
  {
    var n := |g.ops|;
    && |streams| == n && |sources| == |g.ops[0].outputs|
    && streams[n - 1].keep == requested
    && (forall k {:trigger Demands(g, k, streams[k])} | 0 <= k < n :: Demands(g, k, streams[k]))
    && (forall j {:trigger KeepsWanted(g, streams, j)} | 0 <= j < n - 1 :: KeepsWanted(g, streams, j))
    && (forall c {:trigger LoadsWanted(g, streams, sources, c)} | 0 <= c < |sources| ::
        LoadsWanted(g, streams, sources, c))
    && StreamsInDomain(g, streams)
  }

  /** Rows of the job's output: rows of every stream the sink reads. */
  ghost predicate OutputRows(g: Graph, rows: seq<int>)
    requires GraphOk(g)
  {
    var sink := g.ops[|g.ops| - 1];
    forall i, x | 0 <= i < |sink.inputs| && x in rows ::
      sink.inputs[i].op < |g.ops| && InStream(g, sink.inputs[i].op, x)
  }

  // ---- Row sets of one op ------------------------------------------------------------------

  /** Adds the rows that the state of the kernel needs before output row `o`. */
  method AddWarmup(rows: seq<int>, o: int, warmup: nat) returns (rows': seq<int>)
    requires Ascending(rows)
    ensures Ascending(rows')
    ensures forall x :: x in rows' <==> x in rows || NeededFor(Bounded(warmup), x, o)
  {
    rows' := rows;
    for i := 0 to warmup + 1
      invariant Ascending(rows')
      invariant forall x :: x in rows' <==> x in rows || (0 <= x <= o && o < x + i)
    {
      if o - i >= 0 {
        rows' := Insert(rows', o - i);
      }
    }
  }

  method ComputeRows(memory: Memory, keep: seq<int>) returns (rows: seq<int>)
    requires Ascending(keep)
    ensures Ascending(rows)
    ensures forall x :: x in rows <==> Needed(memory, keep, x)
  {
    rows := [];
    match memory
    case Bounded(warmup) =>
      for j := 0 to |keep|
        invariant Ascending(rows)
        invariant forall x :: x in rows <==> exists q :: 0 <= q < j && NeededFor(memory, x, keep[q])
      {
        ghost var before := rows;
        rows := AddWarmup(rows, keep[j], warmup);
        forall x ensures x in rows <==> exists q :: 0 <= q < j + 1 && NeededFor(memory, x, keep[q]) {
          assert x in rows <==> x in before || NeededFor(memory, x, keep[j]);
        }
      }
    case Unbounded =>
      if keep != [] {
        var last := keep[|keep| - 1];
        rows := Interval(0, last + 1);
        assert last in keep;
        assert forall o | o in keep :: o <= last;
      }
  }

  /** Stencil rows of one compute row. */
  method AddStencil(rows: seq<int>, c: int, stencil: seq<int>) returns (rows': seq<int>)
    requires Ascending(rows)
    ensures Ascending(rows')
    ensures forall x :: x in rows' <==> x in rows || x - c in stencil
  {
    rows' := rows;
    for i := 0 to |stencil|
      invariant Ascending(rows')
      invariant forall x :: x in rows' <==> x in rows || x - c in stencil[..i]
    {
      assert stencil[..i + 1] == stencil[..i] + [stencil[i]];
      rows' := Insert(rows', c + stencil[i]);
    }
    assert stencil[..|stencil|] == stencil;
  }

  datatype Boundary = RepeatEdge | RepeatNull | Error

  ghost predicate Inside(x: int, max: int) {
    0 <= x < max
  }

  /** The boundary restriction drops rows outside the domain. With the condition ERROR it fails exactly if
  there are any, and has then kept the rows before the first of them. */
  method HandleBoundary(rows: seq<int>, max: int, boundary: Boundary) returns (ok: bool, bounded: seq<int>)
    requires Ascending(rows)
    ensures ok <==> (boundary.Error? ==> forall x | x in rows :: Inside(x, max))
    ensures Ascending(bounded) && forall x | x in bounded :: x in rows && Inside(x, max)
    ensures ok ==> forall x | x in rows && Inside(x, max) :: x in bounded
    ensures !ok ==> |bounded| < |rows| && bounded == rows[..|bounded|] && !Inside(rows[|bounded|], max)
  {
    bounded := [];
    for i := 0 to |rows|
      invariant Ascending(bounded)
      invariant forall x :: x in bounded <==> x in rows[..i] && Inside(x, max)
      invariant boundary.Error? ==> bounded == rows[..i]
    {
      assert rows[..i + 1] == rows[..i] + [rows[i]];
      assert forall x | x in bounded :: x in rows[..i] && x < rows[i];
      if 0 <= rows[i] < max {
        InsertLast(bounded, rows[i]);
        bounded := bounded + [rows[i]];
      } else if boundary.Error? {
        assert rows[i] in rows && !Inside(rows[i], max);
        return false, bounded;
      }
    }
    assert rows[..|rows|] == rows;
    ok := true;
  }

  method InputRows(stencil: seq<int>, compute: seq<int>, max: int) returns (rows: seq<int>)
    ensures Ascending(rows)
    ensures forall x :: x in rows <==> InWindow(stencil, compute, max, x)
  {
    var all: seq<int> := [];
    for j := 0 to |compute|
      invariant Ascending(all)
      invariant forall x :: x in all <==> exists q :: 0 <= q < j && x - compute[q] in stencil
    {
      ghost var before := all;
      all := AddStencil(all, compute[j], stencil);
      forall x ensures x in all <==> exists q :: 0 <= q < j + 1 && x - compute[q] in stencil {
        assert x in all <==> x in before || x - compute[j] in stencil;
      }
    }
    var _, bounded := HandleBoundary(all, max, RepeatEdge);
    rows := bounded;
    forall x ensures x in rows <==> InWindow(stencil, compute, max, x) {
      assert x in rows <==> x in all && Inside(x, max);
      if x in rows {
        var q :| 0 <= q < |compute| && x - compute[q] in stencil;
        assert compute[q] in compute && x == compute[q] + (x - compute[q]);
      }
      if InWindow(stencil, compute, max, x) {
        var c, s :| c in compute && s in stencil && x == c + s;
        var q :| 0 <= q < |compute| && compute[q] == c;
        assert x - compute[q] in stencil;
      }
    }
  }

  /** Row lists as the walk passes them on. */
  ghost predicate RowList(rows: seq<int>) {
    Ascending(rows) && forall x | x in rows :: 0 <= x
  }

  /** The size of the domain of op `k`'s inputs in slice group `s` can be looked up. */
  predicate DomainKnown(job: Job, k: nat, s: nat)
    requires Sized(job) && k < |job.ops|
  {
    var inputs := job.nodes[k].inputs;
    inputs != [] && inputs[0].op < |job.rates| && GroupIndex(job.ops, k, s) < |job.rates[inputs[0].op]|
  }

  function DomainAt(job: Job, k: nat, s: nat): int
    requires Sized(job) && k < |job.ops|
  {
    if DomainKnown(job, k, s) then job.rates[job.nodes[k].inputs[0].op][GroupIndex(job.ops, k, s)] else 0
  }

  /** Op `k` can say what it needs for the rows `keep`, in slice group `s`. */
  ghost predicate Servable(job: Job, k: nat, s: nat, keep: seq<int>)
    requires WellMade(job) && k < |job.ops|
  {
    assert MapOk(job, k, s);
    && Selectable(job, k, s)
    && (job.ops[k].kind.Kernel? ==> DomainKnown(job, k, s))
    && (KindAt(job, k, s).Builtin? ==> AllInRange(KindAt(job, k, s).rowMap, keep))
  }

  method DeriveKernel(kernel: Kernel, max: int, s: nat, keep: seq<int>) returns (ts: TaskStream)
    requires Ascending(keep)
    ensures ts.group == s && ts.keep == keep && KindDemands(KernelOp(kernel), max, ts) && RowList(ts.valid)
  {
    var compute := ComputeRows(kernel.memory, keep);
    var valid := InputRows(kernel.stencil, compute, max);
    ts := TaskStream(s, valid, compute, keep);
  }

  /** A sampler refuses rows that are not rows of its stream. */
  method DeriveRemap(m: RowMap, max: int, s: nat, keep: seq<int>) returns (res: Result<TaskStream>)
    requires WellFormed(m) && RowList(keep)
    ensures res.Success? <==> AllInRange(m, keep)
    ensures res.Success? ==>
              res.value.group == s && res.value.keep == keep && KindDemands(Builtin(m), max, res.value) &&
              RowList(res.value.valid)
  {
    assert forall i | 0 <= i < |keep| :: keep[i] in keep;
    var up := GetUpstreamRows(m, keep);
    if up.Failure? { return Failure(up.msg); }
    forall x | x in up.value ensures 0 <= x {
      UpRowsExact(m, keep, x);
      var d :| d in keep && UpRow(m, d) == x;
      UpNonNegative(m, d);
    }
    res := Success(TaskStream(s, up.value, up.value, keep));
  }

  /** The TaskStream of one op, with the sampler, slice or offset of slice group `s`. */
  method DeriveOp(job: Job, k: nat, s: nat, keep: seq<int>) returns (res: Result<TaskStream>)
    requires WellMade(job) && k < |job.ops| && RowList(keep)
    ensures res.Success? <==> Servable(job, k, s, keep)
    ensures res.Success? ==>
              && MapOk(job, k, s) && KindDemands(KindAt(job, k, s), DomainAt(job, k, s), res.value)
              && res.value.group == s && res.value.keep == keep && RowList(res.value.valid)
  {
    assert MapOk(job, k, s);
    if !Selectable(job, k, s) { return Failure("no such slice group"); }
    match KindAt(job, k, s)
    case KernelOp(kernel) =>
      if !DomainKnown(job, k, s) { return Failure("no such slice group"); }
      var ts := DeriveKernel(kernel, DomainAt(job, k, s), s, keep);
      res := Success(ts);
    case Builtin(m) => res := DeriveRemap(m, DomainAt(job, k, s), s, keep);
    case Sink => res := Success(TaskStream(s, keep, keep, keep));
    case _ => res := Success(TaskStream(s, [], [], keep));
  }

  // ---- Walking up the graph ----------------------------------------------------------------

  /** Rows read by an op lie in the streams they are read from. */
  lemma ReadsInStream(g: Graph, k: nat, ts: TaskStream, i: nat, x: int)
    requires GraphOk(g) && k < |g.ops| && Demands(g, k, ts) && i < |g.ops[k].inputs| && x in ts.valid
    requires !g.ops[k].kind.Sink? ==> forall o | o in ts.keep :: InStream(g, k, o)
    requires g.ops[k].kind.Sink? ==> OutputRows(g, ts.keep)
    ensures g.ops[k].inputs[i].op < k && InStream(g, g.ops[k].inputs[i].op, x)
  {
    assert OpOk(g, k) && EdgeOk(g, k, g.ops[k].inputs[i]);
    match g.ops[k].kind
    case KernelOp(kernel) =>
      assert InWindow(kernel.stencil, ts.compute, InputDomain(g, k), x);
    case Builtin(m) =>
      UpRowsExact(m, ts.keep, x);
      var o :| o in ts.keep && UpRow(m, o) == x;
      assert MapFits(g, k, o);
      UpNonNegative(m, o);
    case Sink =>
    case _ =>
  }

  /** One of the first `n` inputs is a column of op `j`. */
  ghost predicate ReadsOp(inputs: seq<ColRef>, n: nat, j: nat)
    requires n <= |inputs|
  {
    exists q | 0 <= q < n :: inputs[q].op == j
  }

  /** One of the first `n` inputs is source column `c`. */
  ghost predicate ReadsSource(inputs: seq<ColRef>, n: nat, columns: seq<string>, c: nat)
    requires n <= |inputs|
  {
    exists q | 0 <= q < n :: inputs[q].op == 0 && IndexOf(columns, inputs[q].name) == c
  }

  /** `rows'` are `rows` and, if they are read, the rows of `valid`. */
  ghost predicate Adds(rows: seq<int>, rows': seq<int>, used: bool, valid: seq<int>) {
    Ascending(rows') && forall x :: x in rows' <==> x in rows || (used && x in valid)
  }

  ghost predicate AllAdd(required: seq<seq<int>>, required': seq<seq<int>>, sources: seq<seq<int>>,
                         sources': seq<seq<int>>, inputs: seq<ColRef>, n: nat, columns: seq<string>, valid: seq<int>)
    requires n <= |inputs|
  {
    && |required'| == |required| && |sources'| == |sources|
    && (forall j | 0 <= j < |required| :: Adds(required[j], required'[j], ReadsOp(inputs, n, j), valid))
    && (forall c | 0 <= c < |sources| :: Adds(sources[c], sources'[c], ReadsSource(inputs, n, columns, c), valid))
  }

  /** Passes the rows that an op reads through one input up to the op it reads from. */
  method PassUp(input: ColRef, columns: seq<string>, valid: seq<int>, required: seq<seq<int>>, sources: seq<seq<int>>)
    returns (required': seq<seq<int>>, sources': seq<seq<int>>)
    requires input.op < |required| && |sources| == |columns| && (input.op == 0 ==> input.name in columns)
    requires forall j | 0 <= j < |required| :: Ascending(required[j])
    requires forall c | 0 <= c < |sources| :: Ascending(sources[c])
    ensures |required'| == |required| && |sources'| == |sources|
    ensures forall j | 0 <= j < |required| :: Adds(required[j], required'[j], input.op == j, valid)
    ensures forall c | 0 <= c < |sources| ::
              Adds(sources[c], sources'[c], input.op == 0 && IndexOf(columns, input.name) == c, valid)
  {
    required' := required[input.op := Union(required[input.op], valid)];
    sources' := sources;
    if input.op == 0 {
      var col := IndexOf(columns, input.name);
      sources' := sources[col := Union(sources[col], valid)];
    }
  }

  lemma AddMore(rows: seq<int>, rows': seq<int>, rows'': seq<int>, some: bool, one: bool, all: bool, valid: seq<int>)
    requires Adds(rows, rows', some, valid) && Adds(rows', rows'', one, valid) && (all <==> some || one)
    ensures Adds(rows, rows'', all, valid)
  {
  }

  lemma AddInput(required: seq<seq<int>>, required': seq<seq<int>>, required'': seq<seq<int>>, sources: seq<seq<int>>,
                 sources': seq<seq<int>>, sources'': seq<seq<int>>, inputs: seq<ColRef>, n: nat, columns: seq<string>,
                 valid: seq<int>)
    requires n < |inputs| && AllAdd(required, required', sources, sources', inputs, n, columns, valid)
    requires |required''| == |required| && |sources''| == |sources|
    requires forall j | 0 <= j < |required| :: Adds(required'[j], required''[j], inputs[n].op == j, valid)
    requires forall c | 0 <= c < |sources| ::
               Adds(sources'[c], sources''[c], inputs[n].op == 0 && IndexOf(columns, inputs[n].name) == c, valid)
    ensures AllAdd(required, required'', sources, sources'', inputs, n + 1, columns, valid)
  {
    forall j | 0 <= j < |required| ensures Adds(required[j], required''[j], ReadsOp(inputs, n + 1, j), valid) {
      AddMore(required[j], required'[j], required''[j], ReadsOp(inputs, n, j), inputs[n].op == j,
              ReadsOp(inputs, n + 1, j), valid);
    }
    forall c | 0 <= c < |sources|
      ensures Adds(sources[c], sources''[c], ReadsSource(inputs, n + 1, columns, c), valid)
    {
      AddMore(sources[c], sources'[c], sources''[c], ReadsSource(inputs, n, columns, c),
              inputs[n].op == 0 && IndexOf(columns, inputs[n].name) == c, ReadsSource(inputs, n + 1, columns, c),
              valid);
    }
  }

  /** Passes the rows that an op reads up through all its inputs. */
  method PassAllUp(inputs: seq<ColRef>, columns: seq<string>, valid: seq<int>, required: seq<seq<int>>,
                   sources: seq<seq<int>>)
    returns (required': seq<seq<int>>, sources': seq<seq<int>>)
    requires |sources| == |columns|
    requires forall q | 0 <= q < |inputs| ::
               inputs[q].op < |required| && (inputs[q].op == 0 ==> inputs[q].name in columns)
    requires forall j | 0 <= j < |required| :: Ascending(required[j])
    requires forall c | 0 <= c < |sources| :: Ascending(sources[c])
    ensures AllAdd(required, required', sources, sources', inputs, |inputs|, columns, valid)
  {
    required', sources' := required, sources;
    for q := 0 to |inputs|
      invariant AllAdd(required, required', sources, sources', inputs, q, columns, valid)
    {
      var required'', sources'' := PassUp(inputs[q], columns, valid, required', sources');
      AddInput(required, required', required'', sources, sources', sources'', inputs, q, columns, valid);
      required', sources' := required'', sources'';
    }
  }

  /** The walk has settled the ops from `k` on. */
  ghost predicate Settled(g: Graph, requested: seq<int>, streams: seq<TaskStream>, k: nat)
    requires GraphOk(g)
  {
    && |streams| == |g.ops| && k <= |g.ops|
    && (k < |g.ops| ==> streams[|g.ops| - 1].keep == requested)
    && (forall k' | k <= k' < |g.ops| :: Demands(g, k', streams[k']))
    && (forall j, x | k <= j < |g.ops| - 1 :: x in streams[j].keep <==> Wanted(g, streams, j + 1, j, x))
    && (forall j, x | k <= j < |g.ops| - 1 && x in streams[j].keep :: InStream(g, j, x))
  }

  /** Rows wanted from ops that are not settled yet exist there. */
  lemma WantedInStream(g: Graph, requested: seq<int>, streams: seq<TaskStream>, k: nat, j: nat, x: int)
    requires GraphOk(g) && OutputRows(g, requested) && Settled(g, requested, streams, k)
    requires Wanted(g, streams, k, j, x)
    ensures j < |g.ops| && InStream(g, j, x)
  {
    var k', i :| k <= k' && Reads(g, streams, k', i, j, x);
    assert Demands(g, k', streams[k']) && OpOk(g, k');
    ReadsInStream(g, k', streams[k'], i, x);
  }

  lemma SettleOne(g: Graph, requested: seq<int>, streams: seq<TaskStream>, k: nat, ts: TaskStream)
    requires GraphOk(g) && OutputRows(g, requested) && k < |g.ops| && Settled(g, requested, streams, k + 1)
    requires Demands(g, k, ts)
    requires k == |g.ops| - 1 ==> ts.keep == requested
    requires k < |g.ops| - 1 ==> forall x :: x in ts.keep <==> Wanted(g, streams, k + 1, k, x)
    ensures Settled(g, requested, streams[k := ts], k)
  {
    var streams' := streams[k := ts];
    forall j, x | k <= j < |g.ops| - 1 ensures x in streams'[j].keep <==> Wanted(g, streams', j + 1, j, x) {
      WantedStill(g, streams, k, ts, j + 1, j, x);
    }
    forall j, x | k <= j < |g.ops| - 1 && x in streams'[j].keep ensures InStream(g, j, x) {
      if j == k { WantedInStream(g, requested, streams, k + 1, k, x); }
    }
  }

  lemma WantedStill(g: Graph, streams: seq<TaskStream>, k: nat, ts: TaskStream, from: nat, j: nat, x: int)
    requires k < |streams| && k < from
    ensures Wanted(g, streams[k := ts], from, j, x) <==> Wanted(g, streams, from, j, x)
  {
    var streams' := streams[k := ts];
    if Wanted(g, streams', from, j, x) {
      var k', i :| from <= k' && Reads(g, streams', k', i, j, x);
      assert Reads(g, streams, k', i, j, x);
    }
    if Wanted(g, streams, from, j, x) {
      var k', i :| from <= k' && Reads(g, streams, k', i, j, x);
      assert Reads(g, streams', k', i, j, x);
    }
  }

  /** What op `k` reads is wanted as well from now on. */
  lemma WantedMore(g: Graph, streams: seq<TaskStream>, k: nat, ts: TaskStream, j: nat, x: int)
    requires k < |g.ops| && k < |streams|
    ensures Wanted(g, streams[k := ts], k, j, x) <==>
            Wanted(g, streams, k + 1, j, x) || (ReadsOp(g.ops[k].inputs, |g.ops[k].inputs|, j) && x in ts.valid)
  {
    var streams', inputs := streams[k := ts], g.ops[k].inputs;
    WantedStill(g, streams, k, ts, k + 1, j, x);
    if Wanted(g, streams', k, j, x) {
      var k', i :| k <= k' && Reads(g, streams', k', i, j, x);
      if k' > k { assert k + 1 <= k' && Reads(g, streams', k', i, j, x); } else { assert inputs[i].op == j; }
    }
    if ReadsOp(inputs, |inputs|, j) && x in ts.valid {
      var q :| 0 <= q < |inputs| && inputs[q].op == j;
      assert Reads(g, streams', k, q, j, x);
    }
  }

  lemma ColumnWantedStill(g: Graph, streams: seq<TaskStream>, k: nat, ts: TaskStream, c: ColRef, x: int)
    requires k < |streams|
    ensures ColumnWanted(g, streams[k := ts], k + 1, c, x) <==> ColumnWanted(g, streams, k + 1, c, x)
  {
    var streams' := streams[k := ts];
    if ColumnWanted(g, streams', k + 1, c, x) {
      var k', i :| k + 1 <= k' && Reads(g, streams', k', i, c.op, x) && g.ops[k'].inputs[i] == c;
      assert Reads(g, streams, k', i, c.op, x);
    }
    if ColumnWanted(g, streams, k + 1, c, x) {
      var k', i :| k + 1 <= k' && Reads(g, streams, k', i, c.op, x) && g.ops[k'].inputs[i] == c;
      assert Reads(g, streams', k', i, c.op, x);
    }
  }

  lemma ColumnWantedMore(g: Graph, streams: seq<TaskStream>, k: nat, ts: TaskStream, c: ColRef, x: int)
    requires k < |g.ops| && k < |streams|
    ensures ColumnWanted(g, streams[k := ts], k, c, x) <==>
            ColumnWanted(g, streams, k + 1, c, x) || (c in g.ops[k].inputs && x in ts.valid)
  {
    var streams', inputs := streams[k := ts], g.ops[k].inputs;
    ColumnWantedStill(g, streams, k, ts, c, x);
    if ColumnWanted(g, streams', k, c, x) {
      var k', i :| k <= k' && Reads(g, streams', k', i, c.op, x) && g.ops[k'].inputs[i] == c;
      if k' > k { assert k + 1 <= k' && Reads(g, streams', k', i, c.op, x); }
    }
    if c in inputs && x in ts.valid {
      var q :| 0 <= q < |inputs| && inputs[q] == c;
      assert Reads(g, streams', k, q, c.op, x);
    }
  }

  /** Source columns have different names. */
  lemma ReadsColumn(g: Graph, k: nat, c: nat)
    requires GraphOk(g) && k < |g.ops| && c < |g.ops[0].outputs|
    ensures ReadsSource(g.ops[k].inputs, |g.ops[k].inputs|, g.ops[0].outputs, c) <==>
            ColRef(0, g.ops[0].outputs[c]) in g.ops[k].inputs
  {
    assert OpOk(g, 0) && OpOk(g, k);
    var inputs, columns := g.ops[k].inputs, g.ops[0].outputs;
    if ReadsSource(inputs, |inputs|, columns, c) {
      var q :| 0 <= q < |inputs| && inputs[q].op == 0 && IndexOf(columns, inputs[q].name) == c;
      assert inputs[q] == ColRef(0, columns[c]);
    }
    if ColRef(0, columns[c]) in inputs {
      var q :| 0 <= q < |inputs| && inputs[q] == ColRef(0, columns[c]);
      assert IndexOf(columns, inputs[q].name) == c;
    }
  }

  /** `required_output_rows_at_op` of op `j`, when the walk has settled the ops from `k` on. */
  ghost predicate Collected(g: Graph, streams: seq<TaskStream>, k: nat, j: nat, rows: seq<int>) {
    Ascending(rows) && forall x :: x in rows <==> Wanted(g, streams, k, j, x)
  }

  ghost predicate SourceCollected(g: Graph, streams: seq<TaskStream>, k: nat, c: nat, rows: seq<int>)
    requires |g.ops| > 0 && c < |g.ops[0].outputs|
  {
    Ascending(rows) && forall x :: x in rows <==> ColumnWanted(g, streams, k, ColRef(0, g.ops[0].outputs[c]), x)
  }

  /** How far the walk is: the ops from `k` on are settled, and the others know what is wanted of them so far. */
  ghost predicate Walked(g: Graph, requested: seq<int>, streams: seq<TaskStream>, required: seq<seq<int>>,
                         sources: seq<seq<int>>, k: nat)
    requires GraphOk(g)
  {
    && |required| == |g.ops| && |sources| == |g.ops[0].outputs| && Settled(g, requested, streams, k)
    && required[|g.ops| - 1] == requested
    && (forall j | 0 <= j < |g.ops| - 1 :: Collected(g, streams, k, j, required[j]))
    && (forall c | 0 <= c < |sources| :: SourceCollected(g, streams, k, c, sources[c]))
  }

  lemma WalkBegins(g: Graph, requested: seq<int>, streams: seq<TaskStream>, required: seq<seq<int>>,
                   sources: seq<seq<int>>)
    requires GraphOk(g) && |streams| == |required| == |g.ops| && |sources| == |g.ops[0].outputs|
    requires required[|g.ops| - 1] == requested && forall j | 0 <= j < |g.ops| - 1 :: required[j] == []
    requires forall c | 0 <= c < |sources| :: sources[c] == []
    ensures Walked(g, requested, streams, required, sources, |g.ops|)
  {
    var n := |g.ops|;
    assert forall j, x | 0 <= j < n - 1 :: !Wanted(g, streams, n, j, x);
    assert forall c, x | 0 <= c < |sources| :: !ColumnWanted(g, streams, n, ColRef(0, g.ops[0].outputs[c]), x);
  }

  lemma CollectMore(g: Graph, streams: seq<TaskStream>, k: nat, ts: TaskStream, j: nat, rows: seq<int>, rows': seq<int>)
    requires k < |g.ops| && k < |streams| && Collected(g, streams, k + 1, j, rows)
    requires Adds(rows, rows', ReadsOp(g.ops[k].inputs, |g.ops[k].inputs|, j), ts.valid)
    ensures Collected(g, streams[k := ts], k, j, rows')
  {
    forall x ensures x in rows' <==> Wanted(g, streams[k := ts], k, j, x) { WantedMore(g, streams, k, ts, j, x); }
  }

  lemma SourceCollectMore(g: Graph, streams: seq<TaskStream>, k: nat, ts: TaskStream, c: nat, rows: seq<int>,
                          rows': seq<int>)
    requires GraphOk(g) && k < |g.ops| && k < |streams| && c < |g.ops[0].outputs|
    requires SourceCollected(g, streams, k + 1, c, rows)
    requires Adds(rows, rows', ReadsSource(g.ops[k].inputs, |g.ops[k].inputs|, g.ops[0].outputs, c), ts.valid)
    ensures SourceCollected(g, streams[k := ts], k, c, rows')
  {
    var col := ColRef(0, g.ops[0].outputs[c]);
    ReadsColumn(g, k, c);
    forall x ensures x in rows' <==> ColumnWanted(g, streams[k := ts], k, col, x) {
      ColumnWantedMore(g, streams, k, ts, col, x);
    }
  }

  /** Nothing reads the sink. */
  lemma SinkUnread(g: Graph, k: nat, rows: seq<int>, rows': seq<int>, valid: seq<int>)
    requires GraphOk(g) && k < |g.ops| && Ascending(rows)
    requires Adds(rows, rows', ReadsOp(g.ops[k].inputs, |g.ops[k].inputs|, |g.ops| - 1), valid)
    ensures rows' == rows
  {
    assert OpOk(g, k);
    forall q | 0 <= q < |g.ops[k].inputs| ensures g.ops[k].inputs[q].op < k { assert EdgeOk(g, k, g.ops[k].inputs[q]); }
    SameRows(rows, rows');
  }

  /** One step of the walk. */
  lemma WalkStep(g: Graph, requested: seq<int>, streams: seq<TaskStream>, required: seq<seq<int>>,
                 sources: seq<seq<int>>, k: nat, ts: TaskStream, required': seq<seq<int>>, sources': seq<seq<int>>)
    requires GraphOk(g) && OutputRows(g, requested) && Ascending(requested) && k < |g.ops|
    requires Walked(g, requested, streams, required, sources, k + 1) && Demands(g, k, ts) && ts.keep == required[k]
    requires AllAdd(required, required', sources, sources', g.ops[k].inputs, |g.ops[k].inputs|, g.ops[0].outputs,
                    ts.valid)
    ensures Walked(g, requested, streams[k := ts], required', sources', k)
  {
    if k < |g.ops| - 1 { assert Collected(g, streams, k + 1, k, required[k]); }
    SettleOne(g, requested, streams, k, ts);
    SinkUnread(g, k, required[|g.ops| - 1], required'[|g.ops| - 1], ts.valid);
    forall j | 0 <= j < |g.ops| - 1 ensures Collected(g, streams[k := ts], k, j, required'[j]) {
      CollectMore(g, streams, k, ts, j, required[j], required'[j]);
    }
    forall c | 0 <= c < |sources'| ensures SourceCollected(g, streams[k := ts], k, c, sources'[c]) {
      SourceCollectMore(g, streams, k, ts, c, sources[c], sources'[c]);
    }
  }

  /** The Source reads nothing, so it does not matter whether it counts as a reader. */
  lemma FinishDerive(g: Graph, requested: seq<int>, streams: seq<TaskStream>, sources: seq<seq<int>>)
    requires GraphOk(g) && Settled(g, requested, streams, 0) && |sources| == |g.ops[0].outputs|
    requires forall c | 0 <= c < |sources| :: SourceCollected(g, streams, 0, c, sources[c])
    ensures Derived(g, requested, streams, sources)
  {
    assert OpOk(g, 0);
    forall c | 0 <= c < |sources| ensures LoadsWanted(g, streams, sources, c) {
      var col := ColRef(0, g.ops[0].outputs[c]);
      assert SourceCollected(g, streams, 0, c, sources[c]);
      forall x ensures x in sources[c] <==> ColumnWanted(g, streams, 1, col, x) {
        if ColumnWanted(g, streams, 0, col, x) {
          var k, i :| 0 <= k && Reads(g, streams, k, i, 0, x) && g.ops[k].inputs[i] == col;
          assert 1 <= k;
        }
      }
    }
  }

  // ---- The walk of a task ------------------------------------------------------------------

  /** All rows of the task belong to slice group `i`: every unslice op finds them there, and they are output rows of
  the group's graph. A task without rows counts as one of group 0. */
  ghost predicate InOneGroup(job: Job, rows: seq<int>, i: nat) {
    && WellMade(job) && HasGroup(job, i) && GraphOk(GraphAt(job, i)) && OutputRows(GraphAt(job, i), rows)
    && (forall u | 0 <= u < |job.ops| && job.ops[u].kind.Unslice? :: FindsGroup(job, rows, u, i))
    && (rows == [] ==> i == 0)
  }

  ghost predicate FindsGroup(job: Job, rows: seq<int>, u: nat, i: nat)
    requires Sized(job) && u < |job.ops|
  {
    && T.FoundAt(job.ops, job.rates, rows, u)
    && (rows != [] ==> T.FirstGroup(T.InRates(job.ops, job.rates, u), rows[0], rows[|rows| - 1], 0) == i)
  }

  /** The walk has then settled on group `i` wherever it matters. */
  lemma {:induction false} SettledGroup(job: Job, rows: seq<int>, i: nat, k: nat, u: nat)
    requires InOneGroup(job, rows, i) && k <= u < |job.ops| && job.ops[u].kind.Unslice?
    ensures T.GroupFrom(job.ops, job.rates, rows, k) == i
    decreases u - k
  {
    assert FindsGroup(job, rows, u, i);
    if rows == [] {
      NoRowsNoGroup(job, k);
    } else if job.ops[k].kind.Unslice? {
      assert FindsGroup(job, rows, k, i);
    } else {
      SettledGroup(job, rows, i, k + 1, u);
    }
  }

  lemma {:induction false} NoRowsNoGroup(job: Job, k: nat)
    requires Sized(job) && k <= |job.ops|
    ensures T.GroupFrom(job.ops, job.rates, [], k) == 0
    decreases |job.ops| - k
  {
    if k < |job.ops| { NoRowsNoGroup(job, k + 1); }
  }

  /** Inputs of a kernel are on its own slice level. */
  lemma KernelDomain(job: Job, i: nat, k: nat, s: nat)
    requires WellMade(job) && HasGroup(job, i) && k < |job.ops| && job.ops[k].kind.Kernel?
    requires T.Level(job.ops, k) == 1 ==> s == i
    ensures var inputs := GraphAt(job, i).ops[k].inputs;
            inputs != [] && DomainKnown(job, k, s) && DomainAt(job, k, s) == InputDomain(GraphAt(job, i), k)
  {
    assert NodeOk(job, k) && T.OpValidated(job.ops, k);
    var j' := job.ops[k].inputs[0];
    assert T.InputLevelOk(job.ops, k, T.Level(job.ops, j'));
    assert T.OpValidated(job.ops, 0);
    var j := InputOp(job.ops, j');
    assert Selectable(job, j, i);
  }

  lemma WalkKind(job: Job, rows: seq<int>, i: nat, k: nat, s: nat)
    requires InOneGroup(job, rows, i) && k < |job.ops| && s == T.GroupFrom(job.ops, job.rates, rows, k)
    ensures Selectable(job, k, s) && SameDemand(KindAt(job, k, s), GraphAt(job, i).ops[k].kind)
    ensures T.Level(job.ops, k) == 1 ==> s == i
  {
    assert Selectable(job, k, i);
    if Grouped(job.ops, k) {
      var u := GroupedExit(job.ops, k);
      SettledGroup(job, rows, i, k, u);
    } else {
      UngroupedSame(job, k, i, s);
    }
  }

  /** An op is never refused in the walk of such a task ... */
  lemma WalkServed(job: Job, rows: seq<int>, i: nat, k: nat, s: nat, keep: seq<int>)
    requires InOneGroup(job, rows, i) && k < |job.ops| && s == T.GroupFrom(job.ops, job.rates, rows, k)
    requires k < |job.ops| - 1 ==> forall x | x in keep :: InStream(GraphAt(job, i), k, x)
    ensures Servable(job, k, s, keep)
  {
    var g := GraphAt(job, i);
    WalkKind(job, rows, i, k, s);
    assert OpOk(g, k) && OpOk(g, |g.ops| - 1) && MapOk(job, k, s);
    if job.ops[k].kind.Kernel? { KernelDomain(job, i, k, s); }
    if KindAt(job, k, s).Builtin? {
      forall x | x in keep ensures InRange(KindAt(job, k, s).rowMap, x) { assert MapFits(g, k, x); }
    }
  }

  /** ... and says what it needs in the graph of the group. */
  lemma WalkDemands(job: Job, rows: seq<int>, i: nat, k: nat, s: nat, ts: TaskStream)
    requires InOneGroup(job, rows, i) && k < |job.ops| && s == T.GroupFrom(job.ops, job.rates, rows, k)
    requires MapOk(job, k, s) && Selectable(job, k, s) && KindDemands(KindAt(job, k, s), DomainAt(job, k, s), ts)
    ensures Demands(GraphAt(job, i), k, ts)
  {
    var g := GraphAt(job, i);
    WalkKind(job, rows, i, k, s);
    assert OpOk(g, k);
    if job.ops[k].kind.Kernel? { KernelDomain(job, i, k, s); }
  }

  /** What the walk has settled about slice groups. */
  ghost predicate GroupsSettled(job: Job, rows: seq<int>, streams: seq<TaskStream>, k: nat)
    requires Sized(job)
  {
    && |streams| == |job.ops|
    && (forall q | k <= q < |streams| :: streams[q].group == T.GroupFrom(job.ops, job.rates, rows, q))
    && (forall u | k <= u < |job.ops| && job.ops[u].kind.Unslice? :: T.FoundAt(job.ops, job.rates, rows, u))
  }

  /** Unslice ops have to provide the rows of the task, once the walk has come by the sink. */
  ghost predicate UnsliceRequired(job: Job, rows: seq<int>, required: seq<seq<int>>, k: nat)
    requires Sized(job) && |required| == |job.ops|
  {
    forall u | 0 <= u < k && u < |job.ops| && job.ops[u].kind.Unslice? ::
      required[u] == if k < |job.ops| then rows else []
  }

  /** The sink reads every unslice op, and nothing else reads one. */
  lemma UnsliceReader(job: Job, k: nat, u: nat)
    requires WellMade(job) && k < |job.ops| && u < |job.ops| && job.ops[u].kind.Unslice?
    ensures ReadsOp(job.nodes[k].inputs, |job.nodes[k].inputs|, u) <==> k == |job.ops| - 1
  {
    assert NodeOk(job, k) && T.OpValidated(job.ops, k);
    T.FirstIsSource(job.ops);
    var inputs := job.nodes[k].inputs;
    if ReadsOp(inputs, |inputs|, u) {
      var q :| 0 <= q < |inputs| && inputs[q].op == u;
      assert job.ops[k].inputs[q] == u;
    }
    if k == |job.ops| - 1 {
      T.ReaderOfUnslice(job.ops, u);
      assert u in job.ops[k].inputs;
      var q :| 0 <= q < |job.ops[k].inputs| && job.ops[k].inputs[q] == u;
      assert inputs[q].op == u;
    }
  }

  lemma UnsliceKept(job: Job, rows: seq<int>, required: seq<seq<int>>, required': seq<seq<int>>, k: nat,
                    valid: seq<int>)
    requires WellMade(job) && k < |job.ops| == |required| == |required'| && Ascending(rows)
    requires UnsliceRequired(job, rows, required, k + 1)
    requires k == |job.ops| - 1 ==> valid == rows
    requires forall j | 0 <= j < |required| ::
               Adds(required[j], required'[j], ReadsOp(job.nodes[k].inputs, |job.nodes[k].inputs|, j), valid)
    ensures UnsliceRequired(job, rows, required', k)
  {
    forall u | 0 <= u < k && job.ops[u].kind.Unslice? ensures required'[u] == rows {
      UnsliceReader(job, k, u);
      assert Adds(required[u], required'[u], ReadsOp(job.nodes[k].inputs, |job.nodes[k].inputs|, u), valid);
      SameRows(required'[u], rows);
    }
  }

  lemma RowsAdded(rows: seq<int>, rows': seq<int>, used: bool, valid: seq<int>)
    requires RowList(rows) && RowList(valid) && Adds(rows, rows', used, valid)
    ensures RowList(rows')
  {
  }

  /** Settles on the slice group at op `k`: an unslice op looks for the one that its rows lie in. */
  method SettleGroup(job: Job, k: nat, keep: seq<int>, s: nat) returns (found: bool, s': nat)
    requires Sized(job) && k < |job.ops| && s == T.GroupFrom(job.ops, job.rates, keep, k + 1)
    ensures found <==> (job.ops[k].kind.Unslice? ==> T.FoundAt(job.ops, job.rates, keep, k))
    ensures s' == T.GroupFrom(job.ops, job.rates, keep, k)
  {
    found, s' := true, s;
    if job.ops[k].kind.Unslice? && keep != [] {
      var offset;
      found, s', offset := T.FindGroup(T.InRates(job.ops, job.rates, k), keep[0], keep[|keep| - 1]);
    }
  }

  /** All that is certain about the walk of any task. */
  ghost predicate Tidy(job: Job, rows: seq<int>, streams: seq<TaskStream>, required: seq<seq<int>>,
                       sources: seq<seq<int>>, k: nat)
    requires Sized(job)
  {
    && |required| == |job.ops| && |sources| == |job.nodes[0].outputs|
    && required[|job.ops| - 1] == rows && UnsliceRequired(job, rows, required, k)
    && GroupsSettled(job, rows, streams, k)
    && (forall j | 0 <= j < |required| :: RowList(required[j]))
    && (forall c | 0 <= c < |sources| :: RowList(sources[c]))
  }

  lemma TidyStep(job: Job, rows: seq<int>, streams: seq<TaskStream>, required: seq<seq<int>>, sources: seq<seq<int>>,
                 k: nat, ts: TaskStream, required': seq<seq<int>>, sources': seq<seq<int>>)
    requires WellMade(job) && k < |job.ops| && RowList(rows) && Tidy(job, rows, streams, required, sources, k + 1)
    requires AllAdd(required, required', sources, sources', job.nodes[k].inputs, |job.nodes[k].inputs|,
                    job.nodes[0].outputs, ts.valid)
    requires RowList(ts.valid) && (k == |job.ops| - 1 ==> ts.valid == rows)
    requires ts.group == T.GroupFrom(job.ops, job.rates, rows, k)
    requires job.ops[k].kind.Unslice? ==> T.FoundAt(job.ops, job.rates, rows, k)
    ensures Tidy(job, rows, streams[k := ts], required', sources', k)
  {
    var inputs := job.nodes[k].inputs;
    UnsliceKept(job, rows, required, required', k, ts.valid);
    forall j | 0 <= j < |required| ensures RowList(required'[j]) {
      RowsAdded(required[j], required'[j], ReadsOp(inputs, |inputs|, j), ts.valid);
    }
    forall c | 0 <= c < |sources| ensures RowList(sources'[c]) {
      RowsAdded(sources[c], sources'[c], ReadsSource(inputs, |inputs|, job.nodes[0].outputs, c), ts.valid);
    }
    SinkNotRead(job, k);
    SameRows(required'[|job.ops| - 1], rows);
  }

  lemma SinkNotRead(job: Job, k: nat)
    requires WellMade(job) && k < |job.ops|
    ensures forall q | 0 <= q < |job.nodes[k].inputs| :: job.nodes[k].inputs[q].op < |job.ops| - 1
  {
    assert NodeOk(job, k) && T.OpValidated(job.ops, k);
  }

  /** `ts` is what op `k` needs in the slice group that the walk has settled on. */
  ghost predicate Stepped(job: Job, rows: seq<int>, k: nat, keep: seq<int>, ts: TaskStream)
    requires Sized(job) && k < |job.ops|
  {
    var s := T.GroupFrom(job.ops, job.rates, rows, k);
    && ts.group == s && ts.keep == keep && RowList(ts.valid) && Selectable(job, k, s) && MapOk(job, k, s)
    && KindDemands(KindAt(job, k, s), DomainAt(job, k, s), ts)
    && (job.ops[k].kind.Unslice? ==> T.FoundAt(job.ops, job.rates, rows, k))
  }

  /** The TaskStream of op `k`, when the walk has come to it. */
  method StepOp(job: Job, k: nat, keep: seq<int>, s: nat, ghost rows: seq<int>)
    returns (res: Result<TaskStream>)
    requires WellMade(job) && k < |job.ops| && RowList(keep) && s == T.GroupFrom(job.ops, job.rates, rows, k + 1)
    requires job.ops[k].kind.Unslice? ==> keep == rows
    ensures res.Success? ==> Stepped(job, rows, k, keep, res.value)
    ensures res.Failure? ==>
              || (job.ops[k].kind.Unslice? && !T.FoundAt(job.ops, job.rates, rows, k))
              || !Servable(job, k, T.GroupFrom(job.ops, job.rates, rows, k), keep)
  {
    var s' := s;
    if job.ops[k].kind.Unslice? {
      var found;
      found, s' := SettleGroup(job, k, keep, s);
      if !found { return Failure("the rows lie in no slice group"); }
    }
    res := DeriveOp(job, k, s', keep);
  }

  /** For a task in one slice group, the walk takes its step in the graph of that group. */
  lemma WalkOn(job: Job, rows: seq<int>, i: nat, streams: seq<TaskStream>, required: seq<seq<int>>,
               sources: seq<seq<int>>, k: nat, ts: TaskStream, required': seq<seq<int>>, sources': seq<seq<int>>)
    requires InOneGroup(job, rows, i) && RowList(rows) && k < |job.ops|
    requires Walked(GraphAt(job, i), rows, streams, required, sources, k + 1) && Stepped(job, rows, k, required[k], ts)
    requires AllAdd(required, required', sources, sources', job.nodes[k].inputs, |job.nodes[k].inputs|,
                    job.nodes[0].outputs, ts.valid)
    ensures Walked(GraphAt(job, i), rows, streams[k := ts], required', sources', k)
  {
    WalkDemands(job, rows, i, k, T.GroupFrom(job.ops, job.rates, rows, k), ts);
    WalkStep(GraphAt(job, i), rows, streams, required, sources, k, ts, required', sources');
  }

  /** The rows that it asks for are there. */
  lemma WalkRows(job: Job, rows: seq<int>, i: nat, streams: seq<TaskStream>, required: seq<seq<int>>,
                 sources: seq<seq<int>>, k: nat)
    requires InOneGroup(job, rows, i) && k < |job.ops|
    requires Walked(GraphAt(job, i), rows, streams, required, sources, k + 1)
    ensures Servable(job, k, T.GroupFrom(job.ops, job.rates, rows, k), required[k])
  {
    var g := GraphAt(job, i);
    forall x | x in required[k] && k < |g.ops| - 1 ensures InStream(g, k, x) {
      assert Collected(g, streams, k + 1, k, required[k]);
      WantedInStream(g, rows, streams, k + 1, k, x);
    }
    WalkServed(job, rows, i, k, T.GroupFrom(job.ops, job.rates, rows, k), required[k]);
  }

  /** The walk has come to op `k`. */
  ghost predicate Underway(job: Job, rows: seq<int>, i: nat, streams: seq<TaskStream>, required: seq<seq<int>>,
                           sources: seq<seq<int>>, k: nat)
    requires Sized(job)
  {
    && Tidy(job, rows, streams, required, sources, k)
    && (InOneGroup(job, rows, i) ==> Walked(GraphAt(job, i), rows, streams, required, sources, k))
  }

  lemma UnderwayOn(job: Job, rows: seq<int>, i: nat, streams: seq<TaskStream>, required: seq<seq<int>>,
                   sources: seq<seq<int>>, k: nat, ts: TaskStream, required': seq<seq<int>>, sources': seq<seq<int>>)
    requires WellMade(job) && RowList(rows) && k < |job.ops|
    requires Underway(job, rows, i, streams, required, sources, k + 1) && Stepped(job, rows, k, required[k], ts)
    requires AllAdd(required, required', sources, sources', job.nodes[k].inputs, |job.nodes[k].inputs|,
                    job.nodes[0].outputs, ts.valid)
    ensures Underway(job, rows, i, streams[k := ts], required', sources', k)
  {
    assert T.OpValidated(job.ops, |job.ops| - 1) && T.OpValidated(job.ops, k);
    TidyStep(job, rows, streams, required, sources, k, ts, required', sources');
    if InOneGroup(job, rows, i) { WalkOn(job, rows, i, streams, required, sources, k, ts, required', sources'); }
  }

  /** Where the walk stands. */
  datatype Walk = Walk(streams: seq<TaskStream>, required: seq<seq<int>>, sources: seq<seq<int>>, group: nat)

  ghost predicate Reached(job: Job, rows: seq<int>, i: nat, w: Walk, k: nat)
    requires Sized(job)
  {
    && Underway(job, rows, i, w.streams, w.required, w.sources, k)
    && w.group == T.GroupFrom(job.ops, job.rates, rows, k)
  }

  /** The step of the walk at op `k`. */
  method Step(job: Job, k: nat, w: Walk, ghost rows: seq<int>, ghost i: nat) returns (res: Result<Walk>)
    requires WellMade(job) && RowList(rows) && k < |job.ops| && Reached(job, rows, i, w, k + 1)
    ensures InOneGroup(job, rows, i) ==> res.Success?
    ensures res.Success? ==> Reached(job, rows, i, res.value, k)
  {
    assert T.OpValidated(job.ops, |job.ops| - 1);
    if InOneGroup(job, rows, i) { WalkRows(job, rows, i, w.streams, w.required, w.sources, k); }
    var ts := StepOp(job, k, w.required[k], w.group, rows);
    if ts.Failure? { return Failure(ts.msg); }
    SinkNotRead(job, k);
    assert NodeOk(job, k);
    var required, sources :=
      PassAllUp(job.nodes[k].inputs, job.nodes[0].outputs, ts.value.valid, w.required, w.sources);
    UnderwayOn(job, rows, i, w.streams, w.required, w.sources, k, ts.value, required, sources);
    res := Success(Walk(w.streams[k := ts.value], required, sources, ts.value.group));
  }

  /** At the start only the sink has rows to pass on, those of the task. */
  method Start(job: Job, rows: seq<int>, ghost i: nat) returns (w: Walk)
    requires WellMade(job) && RowList(rows)
    ensures Reached(job, rows, i, w, |job.ops|)
  {
    var n := |job.ops|;
    var required: seq<seq<int>> := seq(n, _ => [])[n - 1 := rows];
    w := Walk(seq(n, _ => TaskStream(0, [], [], [])), required, seq(|job.nodes[0].outputs|, _ => []), 0);
    Begin(job, rows, i, w.streams, w.required, w.sources);
  }

  lemma Begin(job: Job, rows: seq<int>, i: nat, streams: seq<TaskStream>, required: seq<seq<int>>,
              sources: seq<seq<int>>)
    requires WellMade(job) && RowList(rows) && |streams| == |required| == |job.ops|
    requires |sources| == |job.nodes[0].outputs| && required[|job.ops| - 1] == rows
    requires forall j | 0 <= j < |job.ops| - 1 :: required[j] == []
    requires forall c | 0 <= c < |sources| :: sources[c] == []
    ensures Underway(job, rows, i, streams, required, sources, |job.ops|)
  {
    assert T.OpValidated(job.ops, |job.ops| - 1);
    if InOneGroup(job, rows, i) { WalkBegins(GraphAt(job, i), rows, streams, required, sources); }
  }

  lemma End(job: Job, rows: seq<int>, i: nat, streams: seq<TaskStream>, required: seq<seq<int>>,
            sources: seq<seq<int>>)
    requires WellMade(job) && Underway(job, rows, i, streams, required, sources, 0)
    ensures GroupsSettled(job, rows, streams, 0)
    ensures InOneGroup(job, rows, i) ==> Derived(GraphAt(job, i), rows, streams, sources)
  {
    if InOneGroup(job, rows, i) { FinishDerive(GraphAt(job, i), rows, streams, sources); }
  }

  /** `derive_stencil_requirements` for one task. It ends well for every task that lies in one slice group, with what
  the ops need in the graph of that group. In any case each stream has the group that the walk has settled on. */
  method Derive(job: Job, rows: seq<int>, ghost i: nat) returns (res: Result<Task>)
    requires WellMade(job) && RowList(rows)
    ensures res.Success? ==> GroupsSettled(job, rows, res.value.streams, 0)
    ensures InOneGroup(job, rows, i) ==>
              res.Success? && Derived(GraphAt(job, i), rows, res.value.streams, res.value.sources)
  {
    var w := Start(job, rows, i);
    var k := |job.ops|;
    while k > 0
      invariant 0 <= k <= |job.ops| && Reached(job, rows, i, w, k)
    {
      k := k - 1;
      var next := Step(job, k, w, rows, i);
      if next.Failure? { return Failure(next.msg); }
      w := next.value;
    }
    End(job, rows, i, w.streams, w.required, w.sources);
    res := Success(Task(w.streams, w.sources));
  }
}
