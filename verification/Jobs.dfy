/** A whole job: liveness analysis once, and then for every task demand analysis, the load of its source
rows in packets of any sizes, and the evaluation of all packets. */
module Jobs {
  import opened Rows
  import opened Samplers
  import opened Streams
  import opened Evaluator
  import opened Dag
  import opened JobGraphs
  import opened Demand
  import opened SparseDense
  import opened Liveness
  import opened Worker
  import opened Tasks
  import T = Tasks
  import opened Influence
  import opened Cuts
  import Storage
  import opened TableReads
  import opened JobTables

  // ---- Packets -----------------------------------------------------------------------------

  /** How many rows the next packet has in column `c`: what the plan says, or what is left. */
  function PacketSize(sizes: seq<nat>, c: nat, left: nat): (n: nat)
    ensures n <= left
  {
    if c < |sizes| && sizes[c] < left then sizes[c] else left
  }

  ghost predicate PosOk(task: Task, pos: seq<nat>) {
    |pos| == |task.sources| && forall c | 0 <= c < |pos| :: pos[c] <= |task.sources[c]|
  }

  /** The next packet of the source columns. */
  method NextPacket(task: Task, src: seq<Contents>, pos: seq<nat>, sizes: seq<nat>) returns (packet: seq<Column>)
    requires |src| == |task.sources| && PosOk(task, pos)
    ensures PacketOk(src, task, pos, packet) && PosOk(task, Advanced(pos, packet))
    ensures sizes == [] ==> forall c | 0 <= c < |pos| :: Advanced(pos, packet)[c] == |task.sources[c]|
  {
    packet := [];
    for c := 0 to |src|
      invariant |packet| == c
      invariant forall c' | 0 <= c' < c :: Delivers(packet[c'], src[c'], task.sources[c'], pos[c'])
      invariant forall c' | 0 <= c' < c :: pos[c'] + |packet[c'].rows| <= |task.sources[c']|
      invariant sizes == [] ==> forall c' | 0 <= c' < c :: pos[c'] + |packet[c'].rows| == |task.sources[c']|
    {
      var n := PacketSize(sizes, c, |task.sources[c]| - pos[c]);
      var rows := task.sources[c][pos[c]..pos[c] + n];
      packet := packet + [Column(rows, Values(src[c], rows))];
    }
  }

  lemma {:induction false} FedFrame(packets: seq<seq<Column>>, more: seq<Column>, columns: nat, p: nat)
    requires p <= |packets| && forall q | 0 <= q < p :: |packets[q]| == columns
    ensures FedBy(packets + [more], columns, p) == FedBy(packets, columns, p)
  {
    if p > 0 { FedFrame(packets, more, columns, p - 1); }
  }

  /** The packets so far. */
  ghost predicate PacketsOk(src: seq<Contents>, task: Task, packets: seq<seq<Column>>)
    requires forall q | 0 <= q < |packets| :: |packets[q]| == |task.sources|
  {
    forall q {:trigger PacketOk(src, task, FedBy(packets, |task.sources|, q), packets[q])} | 0 <= q < |packets| ::
      PacketOk(src, task, FedBy(packets, |task.sources|, q), packets[q])
  }

  ghost predicate Loading(src: seq<Contents>, task: Task, packets: seq<seq<Column>>, pos: seq<nat>) {
    && (forall q | 0 <= q < |packets| :: |packets[q]| == |task.sources|)
    && pos == FedBy(packets, |task.sources|, |packets|) && PacketsOk(src, task, packets)
  }

  lemma PacketsMore(src: seq<Contents>, task: Task, packets: seq<seq<Column>>, packet: seq<Column>)
    requires (forall q | 0 <= q < |packets| :: |packets[q]| == |task.sources|) && PacketsOk(src, task, packets)
    requires PacketOk(src, task, FedBy(packets, |task.sources|, |packets|), packet)
    ensures PacketsOk(src, task, packets + [packet])
  {
    var n, packets' := |task.sources|, packets + [packet];
    forall q | 0 <= q < |packets'| ensures PacketOk(src, task, FedBy(packets', n, q), packets'[q]) {
      FedFrame(packets, packet, n, q);
      if q < |packets| {
        assert packets'[q] == packets[q] && PacketOk(src, task, FedBy(packets, n, q), packets[q]);
      } else {
        assert packets'[q] == packet;
      }
    }
  }

  lemma LoadingMore(src: seq<Contents>, task: Task, packets: seq<seq<Column>>, pos: seq<nat>, packet: seq<Column>)
    requires Loading(src, task, packets, pos) && PacketOk(src, task, pos, packet)
    ensures Loading(src, task, packets + [packet], Advanced(pos, packet))
  {
    PacketsMore(src, task, packets, packet);
    FedFrame(packets, packet, |task.sources|, |packets|);
  }

  /** Cuts the source columns of a task into packets: first those of the plan, then what is left. */
  method Load(task: Task, src: seq<Contents>, plan: seq<seq<nat>>) returns (packets: seq<seq<Column>>)
    requires |src| == |task.sources|
    ensures Splits(src, task, packets)
  {
    var pos := Zeros(|src|);
    packets := [];
    for q := 0 to |plan|
      invariant Loading(src, task, packets, pos) && PosOk(task, pos)
    {
      var packet := NextPacket(task, src, pos, plan[q]);
      LoadingMore(src, task, packets, pos, packet);
      packets, pos := packets + [packet], Advanced(pos, packet);
    }
    var last := NextPacket(task, src, pos, []);
    LoadingMore(src, task, packets, pos, last);
    packets := packets + [last];
  }

  function Least(a: nat, b: nat): nat {
    if a < b then a else b
  }

  /** How far `row` reaches into each column. */
  function Reach(sources: seq<seq<int>>, row: nat): (pos: seq<nat>)
    ensures |pos| == |sources| && forall c | 0 <= c < |pos| :: pos[c] == Least(row, |sources[c]|)
  {
    seq(|sources|, c requires 0 <= c < |sources| => Least(row, |sources[c]|))
  }

  /** `PreEvaluateWorker::yield`: the rows from `row` on, `size` of them, in each column as far as it has any. */
  method WorkPacket(task: Task, src: seq<Contents>, row: nat, size: nat) returns (packet: seq<Column>)
    requires |src| == |task.sources|
    ensures PacketOk(src, task, Reach(task.sources, row), packet)
    ensures Advanced(Reach(task.sources, row), packet) == Reach(task.sources, row + size)
    ensures forall c | 0 <= c < |packet| :: |packet[c].rows| <= size
  {
    packet := [];
    for c := 0 to |src|
      invariant |packet| == c
      invariant forall c' | 0 <= c' < c :: Delivers(packet[c'], src[c'], task.sources[c'],
                                                    Least(row, |task.sources[c']|))
      invariant forall c' | 0 <= c' < c :: |packet[c'].rows| ==
                  Least(row + size, |task.sources[c']|) - Least(row, |task.sources[c']|)
    {
      var n := |task.sources[c]|;
      var rows := task.sources[c][Least(row, n)..Least(row + size, n)];
      packet := packet + [Column(rows, Values(src[c], rows))];
    }
  }

  /** Splits a task into work packets (`work_packet_size`). */
  method WorkPackets(task: Task, src: seq<Contents>, size: nat) returns (packets: seq<seq<Column>>)
    requires |src| == |task.sources| && size > 0
    ensures Splits(src, task, packets)
  {
    var total := 0;
    for c := 0 to |task.sources|
      invariant 0 <= total && forall c' | 0 <= c' < c :: |task.sources[c']| <= total
    {
      if |task.sources[c]| > total {
        total := |task.sources[c]|;
      }
    }
    var row := 0;
    packets := [];
    assert Reach(task.sources, 0) == Zeros(|task.sources|);
    while row < total
      invariant 0 <= row && Loading(src, task, packets, Reach(task.sources, row))
      decreases total - row
    {
      var packet := WorkPacket(task, src, row, size);
      LoadingMore(src, task, packets, Reach(task.sources, row), packet);
      packets, row := packets + [packet], row + size;
    }
  }

  // ---- Tasks -------------------------------------------------------------------------------

  /** Every kernel is served in every task. */
  ghost predicate JobServed(g: Graph, b: seq<int>)
    requires GraphOk(g)
  {
    forall k, streams, sources {:trigger Derived(g, TaskAt(b, k), streams, sources)} |
      0 <= k < |b| - 1 && Derived(g, TaskAt(b, k), streams, sources) :: AllServed(g, streams)
  }

  ghost predicate StencilsGapFree(g: Graph) {
    forall k | 0 <= k < |g.ops| && g.ops[k].kind.KernelOp? :: GapFree(g.ops[k].kind.kernel.stencil)
  }

  lemma GapFreeTask(g: Graph, rows: seq<int>, streams: seq<TaskStream>, sources: seq<seq<int>>)
    requires GraphOk(g) && StencilsGapFree(g) && Derived(g, rows, streams, sources)
    ensures AllServed(g, streams)
  {
    forall q | 0 <= q < |g.ops| ensures Served(g, q, streams[q]) {
      assert OpOk(g, q) && Demands(g, q, streams[q]);
      if g.ops[q].kind.KernelOp? { GapFreeServed(g, q, streams[q]); }
    }
  }

  /** Stencils without gaps make every cut work. */
  lemma GapFreeJob(g: Graph, b: seq<int>)
    requires GraphOk(g) && StencilsGapFree(g)
    ensures JobServed(g, b)
  {
    forall k, streams, sources | 0 <= k < |b| - 1 && Derived(g, TaskAt(b, k), streams, sources)
      ensures AllServed(g, streams)
    {
      GapFreeTask(g, TaskAt(b, k), streams, sources);
    }
  }

  /** What a job is run with. */
  ghost predicate JobOk(g: Graph, total: int, b: seq<int>, src: seq<Contents>) {
    && CutOk(g, total, b) && |src| == |g.ops[0].outputs| && JobServed(g, b)
    && forall k | 0 <= k < |g.ops| && g.ops[k].kind.Builtin? :: ReadSomewhere(g, k)
  }

  /** The full stream of the sink's `i`-th column. */
  ghost function SinkContent(g: Graph, src: seq<Contents>, i: nat): Contents
    requires GraphOk(g) && i < SinkWidth(g)
  {
    InputContents(g, src, |g.ops| - 1)[i]
  }

  /** The columns that a task with the given output rows brings to the sink. */
  ghost predicate TaskStored(g: Graph, src: seq<Contents>, rows: seq<int>, result: seq<Column>)
    requires GraphOk(g)
  {
    && |result| == SinkWidth(g)
    && forall i {:trigger result[i]} | 0 <= i < |result| ::
         result[i] == Column(SinkPart(g, i, rows), Values(SinkContent(g, src, i), SinkPart(g, i, rows)))
  }

  /** What a task is run with. */
  ghost predicate TaskRunnable(g: Graph, src: seq<Contents>, rows: seq<int>) {
    && GraphOk(g) && TaskRows(g, rows) && |src| == |g.ops[0].outputs|
    && (forall streams, sources | Derived(g, rows, streams, sources) :: AllServed(g, streams))
    && (forall k | 0 <= k < |g.ops| && g.ops[k].kind.Builtin? :: ReadSomewhere(g, k))
  }

  /** The task lies in slice group `i`, the worker evaluates it in that group, and kernels have arguments for it. */
  ghost predicate RunsIn(job: Job, rows: seq<int>, i: nat) {
    && InOneGroup(job, rows, i) && ArgsFit(job, i)
    && T.GroupFrom(job.ops, job.rates, rows, |job.ops| - 2) == i
  }

  /** The worker evaluates a task in the group that the walk had settled on at the op before the sink. */
  lemma ChosenGroup(job: Job, rows: seq<int>, streams: seq<TaskStream>)
    requires WellMade(job) && GroupsSettled(job, rows, streams, 0)
    ensures Chosen(WorkerGroup(streams)) == T.GroupFrom(job.ops, job.rates, rows, |job.ops| - 2)
  {
    var n := |job.ops|;
    if n == 2 {
      T.FirstIsSource(job.ops);
      assert T.OpValidated(job.ops, 1);
      assert T.GroupFrom(job.ops, job.rates, rows, 2) == 0;
      assert T.GroupFrom(job.ops, job.rates, rows, 1) == 0;
    }
  }

  lemma TaskRowList(g: Graph, rows: seq<int>)
    requires GraphOk(g) && TaskRows(g, rows)
    ensures RowList(rows)
  {
    var n := |g.ops|;
    assert OpOk(g, n - 1);
    forall x | x in rows ensures 0 <= x {
      var c := g.ops[n - 1].inputs[0];
      assert EdgeOk(g, n - 1, c) && OpOk(g, c.op) && InStream(g, c.op, x);
    }
  }

  /** One task, from demand analysis to the sink. */
  method RunOneTask(job: Job, a: Analysis, src: seq<Contents>, rows: seq<int>, plan: seq<seq<nat>>, ghost i: nat)
    returns (result: seq<Column>)
    requires RunsIn(job, rows, i) && TaskRunnable(GraphAt(job, i), src, rows) && Correct(GraphAt(job, i), a)
    ensures TaskStored(GraphAt(job, i), src, rows, result)
  {
    TaskRowList(GraphAt(job, i), rows);
    var res := Derive(job, rows, i);
    var task := res.value;
    ChosenGroup(job, rows, task.streams);
    var packets := Load(task, src, plan);
    var w := new EvaluateWorker(job, a);
    result := RunTask(w, task, packets, src, rows);
    StoredFromTask(GraphAt(job, i), src, rows, task, result);
  }

  /** A job without slices. */
  ghost predicate PlainJob(job: Job) {
    WellMade(job) && HasGroup(job, 0) && forall k | 0 <= k < |job.ops| :: !job.ops[k].kind.Unslice?
  }

  lemma {:induction false} PlainGroup(job: Job, rows: seq<int>, k: nat)
    requires PlainJob(job) && k <= |job.ops|
    ensures T.GroupFrom(job.ops, job.rates, rows, k) == 0
    decreases |job.ops| - k
  {
    if k < |job.ops| { PlainGroup(job, rows, k + 1); }
  }

  /** All its tasks are in slice group 0. */
  lemma PlainRuns(job: Job, rows: seq<int>)
    requires PlainJob(job) && GraphOk(GraphAt(job, 0)) && OutputRows(GraphAt(job, 0), rows)
    ensures RunsIn(job, rows, 0)
  {
    PlainGroup(job, rows, |job.ops| - 2);
    forall k | 0 <= k < |job.ops| && job.ops[k].kind.Kernel? ensures 0 < |job.nodes[k].kernels| {
      assert NodeOk(job, k);
    }
  }

  lemma JobTaskRunnable(g: Graph, total: int, b: seq<int>, src: seq<Contents>, k: nat)
    requires JobOk(g, total, b, src) && k < |b| - 1
    ensures TaskRunnable(g, src, TaskAt(b, k))
  {
    CutTaskRows(g, total, b, k);
  }

  lemma StoredFromTask(g: Graph, src: seq<Contents>, rows: seq<int>, task: Task, result: seq<Column>)
    requires GraphOk(g) && TaskRows(g, rows) && TaskFits(g, task) && Derived(g, rows, task.streams, task.sources)
    requires SinkComplete(g, src, task, result)
    ensures TaskStored(g, src, rows, result)
  {
    forall i | 0 <= i < |result|
      ensures result[i] == Column(SinkPart(g, i, rows), Values(SinkContent(g, src, i), SinkPart(g, i, rows)))
    {
      SinkPartIs(g, rows, task.streams, task.sources, i);
    }
  }

  // ---- Jobs --------------------------------------------------------------------------------

  /** Runs all tasks of a job without slices. Whatever the cut into tasks, the packets of each task and the batch
  sizes of the kernels, each task stores the rows that the graph says it brings to the sink, with the elements of
  the full streams. */
  method RunJob(job: Job, src: seq<Contents>, b: seq<int>, plans: seq<seq<seq<nat>>>, ghost total: int)
    returns (stored: seq<seq<Column>>)
    requires PlainJob(job) && JobOk(GraphAt(job, 0), total, b, src)
    ensures |stored| == |b| - 1
    ensures forall k | 0 <= k < |stored| :: TaskStored(GraphAt(job, 0), src, TaskAt(b, k), stored[k])
  {
    ghost var g := GraphAt(job, 0);
    var a := Analyze(GraphAt(job, 0));
    var tasks := BuildTasks(b);
    stored := [];
    for k := 0 to |tasks|
      invariant |stored| == k
      invariant forall k' | 0 <= k' < k :: TaskStored(g, src, TaskAt(b, k'), stored[k'])
    {
      JobTaskRunnable(g, total, b, src, k);
      PlainRuns(job, tasks[k]);
      var result := RunOneTask(job, a, src, tasks[k], if k < |plans| then plans[k] else [], 0);
      stored := stored + [result];
    }
  }

  /** The elements of column `i`, task after task. */
  function ColumnElems(stored: seq<seq<Column>>, i: nat): (r: seq<seq<Element>>)
    ensures |r| == |stored| && forall k | 0 <= k < |r| && i < |stored[k]| :: r[k] == stored[k][i].elems
  {
    seq(|stored|, k requires 0 <= k < |stored| => if i < |stored[k]| then stored[k][i].elems else [])
  }

  ghost predicate ValuesOf(c: Contents, parts: seq<seq<int>>, elems: seq<seq<Element>>) {
    |parts| == |elems| && forall k | 0 <= k < |parts| :: elems[k] == Values(c, parts[k])
  }

  lemma {:induction false} FlattenValues(c: Contents, parts: seq<seq<int>>, elems: seq<seq<Element>>, n: nat)
    requires ValuesOf(c, parts, elems) && n <= |parts|
    ensures Flatten(elems, n) == Values(c, Flatten(parts, n))
  {
    if n > 0 {
      FlattenValues(c, parts, elems, n - 1);
      ValuesConcat(c, Flatten(parts, n - 1), parts[n - 1]);
    }
  }

  lemma PartValues(g: Graph, src: seq<Contents>, b: seq<int>, stored: seq<seq<Column>>, i: nat, k: nat)
    requires GraphOk(g) && i < SinkWidth(g) && |stored| == |b| - 1 && k < |stored|
    requires TaskStored(g, src, TaskAt(b, k), stored[k])
    ensures ColumnElems(stored, i)[k] == Values(SinkContent(g, src, i), StoredParts(g, i, b)[k])
  {
  }

  lemma AllPartValues(g: Graph, src: seq<Contents>, b: seq<int>, stored: seq<seq<Column>>, i: nat)
    requires GraphOk(g) && i < SinkWidth(g) && |stored| == |b| - 1
    requires forall k | 0 <= k < |stored| :: TaskStored(g, src, TaskAt(b, k), stored[k])
    ensures ValuesOf(SinkContent(g, src, i), StoredParts(g, i, b), ColumnElems(stored, i))
  {
    var parts, elems, c := StoredParts(g, i, b), ColumnElems(stored, i), SinkContent(g, src, i);
    forall k | 0 <= k < |parts| ensures elems[k] == Values(c, parts[k]) {
      PartValues(g, src, b, stored, i, k);
    }
  }

  lemma StoredValues(c: Contents, parts: seq<seq<int>>, elems: seq<seq<Element>>, rows: seq<int>)
    requires ValuesOf(c, parts, elems) && rows == Flatten(parts, |parts|)
    ensures Flatten(elems, |elems|) == Values(c, rows)
  {
    FlattenValues(c, parts, elems, |parts|);
  }

  /** A job stores the full stream of a column under its cut if and only if no task shares the column with a
  reader that goes beyond the task's rows. */
  lemma StoredExact(g: Graph, src: seq<Contents>, total: int, b: seq<int>, stored: seq<seq<Column>>, i: nat)
    requires CutOk(g, total, b) && i < SinkWidth(g) && |stored| == |b| - 1
    requires forall k | 0 <= k < |stored| :: TaskStored(g, src, TaskAt(b, k), stored[k])
    ensures Flatten(ColumnElems(stored, i), |stored|) == Values(SinkContent(g, src, i), StoredRows(g, i, b))
    ensures Flatten(ColumnElems(stored, i), |stored|) == Values(SinkContent(g, src, i), Interval(0, total)) <==>
            CutConfined(g, i, b)
  {
    AllPartValues(g, src, b, stored, i);
    StoredValues(SinkContent(g, src, i), StoredParts(g, i, b), ColumnElems(stored, i), StoredRows(g, i, b));
    CutExact(g, i, total, b);
    BoundariesMonotone(b, total, 0, |b| - 1);
    assert |Values(SinkContent(g, src, i), StoredRows(g, i, b))| == |StoredRows(g, i, b)|;
  }

  // ---- There and back ----------------------------------------------------------------------

  lemma PartsWritten(g: Graph, src: seq<Contents>, b: seq<int>, stored: seq<seq<Column>>, i: nat, k: nat)
    requires GraphOk(g) && i < SinkWidth(g) && |stored| == |b| - 1 && k < |stored|
    requires TaskStored(g, src, TaskAt(b, k), stored[k])
    ensures BytesOfAll(ColumnElems(stored, i)[k]) == RowBytes(SinkContent(g, src, i), SinkPart(g, i, TaskAt(b, k)))
  {
  }

  /** Runs a job, writes its `i`-th column and reads rows of it back. If no other reader of the column reads
  an earlier row for an output row, this gives the elements of the full stream, whatever the cut into
  tasks, the packets, the batches of the kernels and of the sink, and the order of the rows read. */
  method RunAndRead(job: Job, src: seq<Contents>, b: seq<int>, plans: seq<seq<seq<nat>>>, i: nat,
                    batches: seq<seq<nat>>, rows: seq<int>, threshold: int, ghost total: int)
    returns (out: seq<Storage.Bytes>)
    requires PlainJob(job) && JobOk(GraphAt(job, 0), total, b, src) && i < SinkWidth(GraphAt(job, 0))
    requires rows != [] && forall j | 0 <= j < |rows| :: 0 <= rows[j] < total
    ensures NeverBack(GraphAt(job, 0), i, total) ==> out == RowBytes(SinkContent(GraphAt(job, 0), src, i), rows)
  {
    ghost var g := GraphAt(job, 0);
    var stored := RunJob(job, src, b, plans, total);
    var items, written := WriteColumn(ColumnElems(stored, i), batches);
    forall k | 0 <= k < |written|
      ensures Parts(written)[k] == RowBytes(SinkContent(g, src, i), SinkPart(g, i, TaskAt(b, k)))
    {
      PartsWritten(g, src, b, stored, i, k);
    }
    var tasks := BuildTasks(b);
    var endRows := EndRowsOf(tasks, b, total);
    out := ReadJob(items, endRows, rows, threshold, g, i, SinkContent(g, src, i), total, b, written);
  }
}
