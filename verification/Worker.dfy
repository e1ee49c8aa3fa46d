/** A task on the evaluate worker: packets of the source columns go in, and every packet runs
through all ops of the graph, each op reading its inputs from, and adding its outputs to, a list of
columns whose positions liveness analysis has fixed. What reaches the sink does not depend on how
the task was cut into packets. */
module Worker {
  import opened Rows
  import opened Samplers
  import opened Streams
  import opened Evaluator
  import opened Dag
  import opened JobGraphs
  import opened Demand
  import opened SparseDense
  import opened Liveness

  // ---- Columns -----------------------------------------------------------------------------

  ghost predicate TaskFits(g: Graph, task: Task) {
    g.ops != [] && |g.rows| == |g.ops| == |task.streams| && |task.sources| == |g.ops[0].outputs|
  }

  /** The full content of a column. */
  ghost function Content(g: Graph, src: seq<Contents>, c: ColRef): Contents
    requires g.ops != [] && |g.rows| == |g.ops|
  {
    ColumnContents(g, src, |g.ops| - 1, c)
  }

  /** All rows that a column carries over the whole task. */
  ghost function Full(g: Graph, task: Task, c: ColRef): seq<int>
    requires TaskFits(g, task)
  {
    if c.op == 0 then
      var i := IndexOf(g.ops[0].outputs, c.name);
      if i < |task.sources| then task.sources[i] else []
    else if c.op < |task.streams| then task.streams[c.op].keep
    else []
  }

  /** How many of them have been sent. `pos` counts rows of the source columns. */
  ghost function Sent(g: Graph, states: seq<OpState>, pos: seq<nat>, c: ColRef): nat
    requires g.ops != []
  {
    if c.op == 0 then
      var i := IndexOf(g.ops[0].outputs, c.name);
      if i < |pos| then pos[i] else 0
    else if c.op < |states| then states[c.op].outputIdx
    else 0
  }

  // ---- One op ------------------------------------------------------------------------------

  ghost function OpMachine(g: Graph, src: seq<Contents>, k: nat): Machine
    requires GraphOk(g) && k < |g.ops| && IsAction(g.ops[k])
  {
    assert OpOk(g, k);
    MachineOf(ActionOf(g.ops[k]), InputContents(g, src, k), InputDomain(g, k))
  }

  /** Op `k` is in the middle of its TaskStream. */
  ghost predicate Running(g: Graph, src: seq<Contents>, k: nat, ts: TaskStream, st: OpState)
    requires GraphOk(g) && k < |g.ops| && IsAction(g.ops[k])
  {
    assert OpOk(g, k);
    && st.valid == ts.valid && st.compute == ts.compute && st.keep == ts.keep
    && Consistent(ActionOf(g.ops[k]), InputDomain(g, k), st, InputContents(g, src, k), OpMachine(g, src, k))
  }

  ghost predicate StreamOk(g: Graph, k: nat, ts: TaskStream)
    requires GraphOk(g) && k < |g.ops|
  {
    Demands(g, k, ts) && Served(g, k, ts) && forall x | x in ts.keep :: InStream(g, k, x)
  }

  /** `out` are the rows of `keep` from position `from` on, with the elements of the full stream. */
  ghost predicate DenseRows(g: Graph, src: seq<Contents>, k: nat, keep: seq<int>, from: nat, out: seq<OutRow>)
    requires k < |g.ops| && |g.rows| == |g.ops|
  {
    && from + |out| <= |keep|
    && forall i | 0 <= i < |out| :: out[i] == OutRow(keep[from + i], Dense(g, src, k, keep[from + i]))
  }

  /** Over its whole TaskStream an op hands on the rows asked for. */
  lemma StreamDense(g: Graph, src: seq<Contents>, k: nat, ts: TaskStream)
    requires GraphOk(g) && k < |g.ops| && IsAction(g.ops[k]) && StreamOk(g, k, ts)
    ensures OpOk(g, k)
    ensures TaskOk(ActionOf(g.ops[k]), InputDomain(g, k), ts.valid, ts.compute, ts.keep, OpMachine(g, src, k))
    ensures Runs(ActionOf(g.ops[k]), InputContents(g, src, k), InputDomain(g, k), OpMachine(g, src, k))
    ensures Keep(OutputsTo(OpMachine(g, src, k), ts.compute, |ts.compute|), ts.keep) ==
            DenseOuts(ActionOf(g.ops[k]), InputContents(g, src, k), InputDomain(g, k), ts.keep)
  {
    assert OpOk(g, k);
    var a, cols, max := ActionOf(g.ops[k]), InputContents(g, src, k), InputDomain(g, k);
    StreamTaskOk(g, k, ts, cols);
    MachineLawful(a, cols, max);
    OpExact(g, k, ts, cols, OpMachine(g, src, k));
  }

  /** All that op `k` hands on over its TaskStream. */
  ghost function DenseAll(g: Graph, src: seq<Contents>, k: nat, keep: seq<int>): (all: seq<OutRow>)
    requires GraphOk(g) && k < |g.ops| && IsAction(g.ops[k])
    ensures |all| == |keep|
    ensures forall i | 0 <= i < |keep| :: all[i] == OutRow(keep[i], Dense(g, src, k, keep[i]))
  {
    assert OpOk(g, k);
    DenseOuts(ActionOf(g.ops[k]), InputContents(g, src, k), InputDomain(g, k), keep)
  }

  lemma NextDense(g: Graph, src: seq<Contents>, k: nat, ts: TaskStream, st: OpState, st': OpState, out: seq<OutRow>,
                  all: seq<OutRow>)
    requires GraphOk(g) && k < |g.ops| && IsAction(g.ops[k]) && StreamOk(g, k, ts)
    requires Running(g, src, k, ts, st) && Running(g, src, k, ts, st')
    requires Emitted(OpMachine(g, src, k), st') == Emitted(OpMachine(g, src, k), st) + out
    requires all == DenseAll(g, src, k, ts.keep)
    ensures st.outputIdx + |out| == st'.outputIdx <= |all| && out == all[st.outputIdx..st'.outputIdx]
  {
    assert OpOk(g, k);
    StreamDense(g, src, k, ts);
    var cols, m := InputContents(g, src, k), OpMachine(g, src, k);
    NextOutputs(ActionOf(g.ops[k]), InputDomain(g, k), st, st', cols, m, out, all);
  }

  lemma StretchDense(g: Graph, src: seq<Contents>, k: nat, keep: seq<int>, from: nat, to: nat, out: seq<OutRow>,
                     all: seq<OutRow>)
    requires GraphOk(g) && k < |g.ops| && IsAction(g.ops[k]) && all == DenseAll(g, src, k, keep)
    requires from <= to <= |all| && out == all[from..to]
    ensures DenseRows(g, src, k, keep, from, out)
  {
    forall i | 0 <= i < |out| ensures out[i] == OutRow(keep[from + i], Dense(g, src, k, keep[from + i])) {
      assert out[i] == all[from + i];
    }
  }

  /** What an op hands on between two states are the next rows asked for, with the elements of the
  full stream. */
  lemma OutputsDense(g: Graph, src: seq<Contents>, k: nat, ts: TaskStream, st: OpState, st': OpState, out: seq<OutRow>)
    requires GraphOk(g) && k < |g.ops| && IsAction(g.ops[k]) && StreamOk(g, k, ts)
    requires Running(g, src, k, ts, st) && Running(g, src, k, ts, st')
    requires Emitted(OpMachine(g, src, k), st') == Emitted(OpMachine(g, src, k), st) + out
    ensures st'.outputIdx == st.outputIdx + |out| && DenseRows(g, src, k, ts.keep, st.outputIdx, out)
  {
    var all := DenseAll(g, src, k, ts.keep);
    NextDense(g, src, k, ts, st, st', out, all);
    StretchDense(g, src, k, ts.keep, st.outputIdx, st'.outputIdx, out, all);
  }

  /** An op produces one element per output column at the rows of its stream. */
  lemma OutputWidth(g: Graph, src: seq<Contents>, k: nat, r: int)
    requires GraphOk(g) && k < |g.ops| && IsAction(g.ops[k]) && InStream(g, k, r)
    ensures |Dense(g, src, k, r)| == |g.ops[k].outputs|
  {
    assert OpOk(g, k);
    if g.ops[k].kind.Builtin? { assert MapFits(g, k, r); }
  }

  /** Output column `c` of an op. */
  method OutputColumn(out: seq<OutRow>, c: nat) returns (col: Column)
    requires forall i | 0 <= i < |out| :: c < |out[i].elems|
    ensures col.rows == RowsOf(out) && |col.elems| == |out|
    ensures forall i | 0 <= i < |out| :: col.elems[i] == out[i].elems[c]
  {
    col := Column(RowsOf(out), seq(|out|, i requires 0 <= i < |out| => out[i].elems[c]));
  }

  /** The column's element at row `r`. */
  lemma ContentAt(g: Graph, src: seq<Contents>, k: nat, c: nat, r: int)
    requires GraphOk(g) && k < |g.ops| - 1 && IsAction(g.ops[k]) && c < |g.ops[k].outputs| && InStream(g, k, r)
    ensures |Dense(g, src, k, r)| == |g.ops[k].outputs|
    ensures Content(g, src, Col(g, k, c))(r) == Dense(g, src, k, r)[c]
  {
    OutputWidth(g, src, k, r);
    OutputPosition(g, k, c);
  }

  lemma ColumnDelivers(g: Graph, src: seq<Contents>, k: nat, ts: TaskStream, from: nat, out: seq<OutRow>, c: nat,
                       col: Column)
    requires GraphOk(g) && k < |g.ops| - 1 && IsAction(g.ops[k]) && StreamOk(g, k, ts) && c < |g.ops[k].outputs|
    requires DenseRows(g, src, k, ts.keep, from, out)
    requires col.rows == RowsOf(out) && |col.elems| == |out|
    requires forall i | 0 <= i < |out| :: c < |out[i].elems| && col.elems[i] == out[i].elems[c]
    ensures Delivers(col, Content(g, src, Col(g, k, c)), ts.keep, from)
  {
    forall i | 0 <= i < |out| ensures col.elems[i] == Content(g, src, Col(g, k, c))(col.rows[i]) {
      assert ts.keep[from + i] in ts.keep;
      ContentAt(g, src, k, c, ts.keep[from + i]);
    }
  }

  /** Splits output rows into columns. */
  method OutputColumns(g: Graph, k: nat, out: seq<OutRow>, ghost src: seq<Contents>, ghost ts: TaskStream,
                       ghost from: nat)
    returns (outs: seq<Column>)
    requires GraphOk(g) && k < |g.ops| - 1 && IsAction(g.ops[k]) && StreamOk(g, k, ts)
    requires DenseRows(g, src, k, ts.keep, from, out)
    ensures |outs| == |g.ops[k].outputs|
    ensures forall c | 0 <= c < |outs| ::
              Delivers(outs[c], Content(g, src, Col(g, k, c)), ts.keep, from) && |outs[c].rows| == |out|
  {
    forall i | 0 <= i < |out| ensures |out[i].elems| == |g.ops[k].outputs| {
      assert ts.keep[from + i] in ts.keep;
      OutputWidth(g, src, k, ts.keep[from + i]);
    }
    outs := [];
    for c := 0 to |g.ops[k].outputs|
      invariant |outs| == c
      invariant forall c' | 0 <= c' < c ::
                  Delivers(outs[c'], Content(g, src, Col(g, k, c')), ts.keep, from) && |outs[c'].rows| == |out|
    {
      var col := OutputColumn(out, c);
      ColumnDelivers(g, src, k, ts, from, out, c, col);
      outs := outs + [col];
    }
  }

  /** The packets `inputs` have arrived. */
  ghost predicate Arrived(valid: seq<int>, fulls: seq<seq<int>>, pos: seq<nat>, inputs: seq<Column>, idx: seq<nat>) {
    && |inputs| == |fulls| == |pos| == |idx|
    && forall i {:trigger fulls[i]} | 0 <= i < |inputs| :: Received(valid, fulls[i], pos[i] + |inputs[i].rows|, idx[i])
  }

  /** `outs` are the packets that take the columns of op `k` from `from` to `to` rows of `keep`. */
  ghost predicate Handed(g: Graph, src: seq<Contents>, k: nat, keep: seq<int>, from: nat, to: nat, outs: seq<Column>)
    requires k < |g.ops| && |g.rows| == |g.ops|
  {
    && |outs| == |g.ops[k].outputs|
    && forall c {:trigger Col(g, k, c)} | 0 <= c < |outs| ::
         Delivers(outs[c], Content(g, src, Col(g, k, c)), keep, from) && to == from + |outs[c].rows|
  }

  /** Feeds one packet to op `k`. */
  method RunOp(g: Graph, k: nat, st: OpState, inputs: seq<Column>,
               ghost src: seq<Contents>, ghost ts: TaskStream, ghost fulls: seq<seq<int>>, ghost pos: seq<nat>)
    returns (st': OpState, outs: seq<Column>)
    requires GraphOk(g) && k < |g.ops| - 1 && IsAction(g.ops[k]) && StreamOk(g, k, ts) && Running(g, src, k, ts, st)
    requires |inputs| == |fulls| == |pos| == |g.ops[k].inputs| == |st.inputIdx|
    requires forall i | 0 <= i < |inputs| ::
               Expects(ts.valid, st.inputIdx[i], inputs[i], InputContents(g, src, k)[i], fulls[i], pos[i])
    ensures Running(g, src, k, ts, st')
    ensures Arrived(ts.valid, fulls, pos, inputs, st'.inputIdx)
    ensures Handed(g, src, k, ts.keep, st.outputIdx, st'.outputIdx, outs)
  {
    assert OpOk(g, k);
    StreamDense(g, src, k, ts);
    var out;
    st', out := FeedOp(ActionOf(g.ops[k]), InputDomain(g, k), st, inputs, InputContents(g, src, k),
                       OpMachine(g, src, k), fulls, pos);
    OutputsDense(g, src, k, ts, st, st', out);
    outs := OutputColumns(g, k, out, src, ts, st.outputIdx);
  }

  // ---- The list of columns -----------------------------------------------------------------

  /** What is fixed during a task. A builtin op is only part of a graph if something reads it. */
  ghost predicate TaskReady(g: Graph, a: Analysis, src: seq<Contents>, requested: seq<int>, task: Task) {
    && GraphOk(g) && Correct(g, a) && TaskFits(g, task) && |src| == |task.sources|
    && Derived(g, requested, task.streams, task.sources) && AllServed(g, task.streams)
    && forall k | 0 <= k < |g.ops| && g.ops[k].kind.Builtin? :: ReadSomewhere(g, k)
  }

  ghost predicate ReadSomewhere(g: Graph, k: nat)
    requires k < |g.ops| && |g.rows| == |g.ops|
  {
    forall c | 0 <= c < |g.ops[k].outputs| :: exists r :: k < r && Reading(g, r, Col(g, k, c))
  }

  /** Op `k` has received exactly what the ops before it have sent. */
  ghost predicate Linked(g: Graph, task: Task, states: seq<OpState>, pos: seq<nat>, k: nat)
    requires TaskFits(g, task) && k < |g.ops| == |states|
  {
    && |states[k].inputIdx| == |g.ops[k].inputs|
    && forall i | 0 <= i < |g.ops[k].inputs| ::
         Received(task.streams[k].valid, Full(g, task, g.ops[k].inputs[i]), Sent(g, states, pos, g.ops[k].inputs[i]),
                  states[k].inputIdx[i])
  }

  ghost predicate OpInvariant(g: Graph, src: seq<Contents>, task: Task, states: seq<OpState>, pos: seq<nat>, k: nat)
    requires GraphOk(g) && TaskFits(g, task) && k < |g.ops| == |states|
  {
    IsAction(g.ops[k]) ==> Running(g, src, k, task.streams[k], states[k]) && Linked(g, task, states, pos, k)
  }

  /** The invariant of a worker between packets. */
  ghost predicate Between(g: Graph, src: seq<Contents>, task: Task, states: seq<OpState>, pos: seq<nat>) {
    && GraphOk(g) && TaskFits(g, task) && |states| == |g.ops| && |pos| == |task.sources|
    && (forall k | 0 <= k < |g.ops| :: OpInvariant(g, src, task, states, pos, k))
  }

  /** `col` is the packet of column `c` that takes the worker from (`states`, `pos`) to
  (`states'`, `pos'`). */
  ghost predicate Carried(g: Graph, src: seq<Contents>, task: Task, states: seq<OpState>, pos: seq<nat>,
                          states': seq<OpState>, pos': seq<nat>, c: ColRef, col: Column)
    requires TaskFits(g, task)
  {
    && Delivers(col, Content(g, src, c), Full(g, task, c), Sent(g, states, pos, c))
    && Sent(g, states', pos', c) == Sent(g, states, pos, c) + |col.rows|
  }

  /** Column by column, the list is right about the columns `tags`. */
  ghost predicate Aligned(right: (ColRef, Column) -> bool, tags: seq<ColRef>, columns: seq<Column>) {
    |columns| == |tags| && forall p | 0 <= p < |tags| :: right(tags[p], columns[p])
  }

  lemma AlignedWithout(right: (ColRef, Column) -> bool, tags: seq<ColRef>, columns: seq<Column>, drop: seq<int>)
    requires Aligned(right, tags, columns)
    ensures Aligned(right, Without(tags, drop, |tags|), Without(columns, drop, |tags|))
  {
    SameLength(tags, columns, drop, |tags|);
    forall p | 0 <= p < |Without(tags, drop, |tags|)|
      ensures right(Without(tags, drop, |tags|)[p], Without(columns, drop, |tags|)[p])
    {
      var q := WithoutAligned(tags, columns, drop, |tags|, p);
    }
  }

  lemma AlignedConcat(right: (ColRef, Column) -> bool, tags: seq<ColRef>, columns: seq<Column>, tags2: seq<ColRef>,
                      columns2: seq<Column>)
    requires Aligned(right, tags, columns) && Aligned(right, tags2, columns2)
    ensures Aligned(right, tags + tags2, columns + columns2)
  {
  }

  /** `Carried`, for columns of ops before `k`. */
  ghost function Flow(g: Graph, src: seq<Contents>, task: Task, states: seq<OpState>, pos: seq<nat>,
                      states': seq<OpState>, pos': seq<nat>, k: nat): (ColRef, Column) -> bool
    requires TaskFits(g, task)
  {
    (c: ColRef, col: Column) => c.op < k && Carried(g, src, task, states, pos, states', pos', c, col)
  }

  /** Columns of ops before `k` do not notice that op `k` moves on. */
  lemma FlowFrame(g: Graph, src: seq<Contents>, task: Task, states: seq<OpState>, pos: seq<nat>,
                  states': seq<OpState>, pos': seq<nat>, k: nat, states'': seq<OpState>, tags: seq<ColRef>,
                    columns: seq<Column>)
    requires TaskFits(g, task) && |states''| == |states'|
    requires forall j | 0 < j < |states'| && j != k :: states''[j] == states'[j]
    requires Aligned(Flow(g, src, task, states, pos, states', pos', k), tags, columns)
    ensures Aligned(Flow(g, src, task, states, pos, states'', pos', k + 1), tags, columns)
  {
    var right, right' := Flow(g, src, task, states, pos, states', pos', k),
                         Flow(g, src, task, states, pos, states'', pos', k + 1);
    forall p | 0 <= p < |tags| ensures right'(tags[p], columns[p]) {
      assert right(tags[p], columns[p]);
    }
  }

  /** Packets of the source columns. */
  ghost predicate PacketOk(src: seq<Contents>, task: Task, pos: seq<nat>, packet: seq<Column>) {
    && |packet| == |task.sources| == |src| == |pos|
    && forall c | 0 <= c < |packet| :: Delivers(packet[c], src[c], task.sources[c], pos[c])
  }

  function Advanced(pos: seq<nat>, packet: seq<Column>): (r: seq<nat>)
    requires |pos| == |packet|
    ensures |r| == |pos| && forall c | 0 <= c < |pos| :: r[c] == pos[c] + |packet[c].rows|
  {
    seq(|pos|, c requires 0 <= c < |pos| => pos[c] + |packet[c].rows|)
  }

  lemma SourceContent(g: Graph, src: seq<Contents>, c: nat, rows: seq<int>)
    requires GraphOk(g) && c < |g.ops[0].outputs| == |src|
    ensures Values(Content(g, src, Col(g, 0, c)), rows) == Values(src[c], rows)
  {
    OutputPosition(g, 0, c);
    forall r ensures Content(g, src, Col(g, 0, c))(r) == src[c](r) {
      assert Dense(g, src, 0, r)[c] == src[c](r);
    }
  }

  lemma PacketAligned(g: Graph, src: seq<Contents>, task: Task, states: seq<OpState>, pos: seq<nat>,
                      packet: seq<Column>)
    requires GraphOk(g) && TaskFits(g, task) && PacketOk(src, task, pos, packet)
    ensures Aligned(Flow(g, src, task, states, pos, states, Advanced(pos, packet), 1), Outputs(g, 0), packet)
  {
    forall c | 0 <= c < |packet|
      ensures Carried(g, src, task, states, pos, states, Advanced(pos, packet), Outputs(g, 0)[c], packet[c])
    {
      OutputPosition(g, 0, c);
      SourceContent(g, src, c, packet[c].rows);
    }
  }

  // ---- One packet at one op ----------------------------------------------------------------

  lemma SameContent(g: Graph, src: seq<Contents>, k: nat, c: ColRef, rows: seq<int>)
    requires GraphOk(g) && c.op < k < |g.ops|
    ensures Values(ColumnContents(g, src, k, c), rows) == Values(Content(g, src, c), rows)
  {
    forall r ensures ColumnContents(g, src, k, c)(r) == Content(g, src, c)(r) { }
  }

  /** A column carries every row that an op reads of it. */
  lemma FullCovers(g: Graph, a: Analysis, src: seq<Contents>, requested: seq<int>, task: Task, k: nat, i: nat)
    requires TaskReady(g, a, src, requested, task) && k < |g.ops| && i < |g.ops[k].inputs|
    ensures g.ops[k].inputs[i].op < k
    ensures Sorted(Full(g, task, g.ops[k].inputs[i])) &&
            Within(task.streams[k].valid, Full(g, task, g.ops[k].inputs[i]))
  {
    var c := g.ops[k].inputs[i];
    assert OpOk(g, k) && EdgeOk(g, k, c);
    if c.op == 0 {
      assert LoadsWanted(g, task.streams, task.sources, IndexOf(g.ops[0].outputs, c.name));
    } else {
      assert Demands(g, c.op, task.streams[c.op]);
    }
    SortedAscends(Full(g, task, c));
    forall x | x in task.streams[k].valid ensures x in Full(g, task, c) {
      ReadRowProvided(g, requested, task.streams, task.sources, k, i, x);
    }
  }

  /** Op `k` finds the packets of its inputs in the list of columns. */
  lemma InputExpected(g: Graph, a: Analysis, src: seq<Contents>, requested: seq<int>, task: Task, states: seq<OpState>,
                      pos: seq<nat>, states': seq<OpState>, pos': seq<nat>, k: nat, columns: seq<Column>, i: nat)
    requires TaskReady(g, a, src, requested, task) && 0 < k < |g.ops| == |states| && IsAction(g.ops[k])
    requires Linked(g, task, states, pos, k) && i < |g.ops[k].inputs|
    requires Aligned(Flow(g, src, task, states, pos, states', pos', k), a.live[k - 1], columns)
    ensures StepOk(g, a, k) && a.mapping[k][i] < |columns|
    ensures Expects(task.streams[k].valid, states[k].inputIdx[i], columns[a.mapping[k][i]], InputContents(g, src, k)[i],
                    Full(g, task, g.ops[k].inputs[i]), Sent(g, states, pos, g.ops[k].inputs[i]))
    ensures Sent(g, states', pos', g.ops[k].inputs[i]) ==
            Sent(g, states, pos, g.ops[k].inputs[i]) + |columns[a.mapping[k][i]].rows|
  {
    assert StepOk(g, a, k);
    var c, p := g.ops[k].inputs[i], a.mapping[k][i];
    assert a.live[k - 1][p] == c;
    assert Flow(g, src, task, states, pos, states', pos', k)(c, columns[p]);
    FullCovers(g, a, src, requested, task, k, i);
    SameContent(g, src, k, c, columns[p].rows);
  }

  ghost function Fulls(g: Graph, task: Task, k: nat): (r: seq<seq<int>>)
    requires TaskFits(g, task) && k < |g.ops|
    ensures |r| == |g.ops[k].inputs| && forall i | 0 <= i < |r| :: r[i] == Full(g, task, g.ops[k].inputs[i])
  {
    seq(|g.ops[k].inputs|, i requires 0 <= i < |g.ops[k].inputs| => Full(g, task, g.ops[k].inputs[i]))
  }

  ghost function Sents(g: Graph, states: seq<OpState>, pos: seq<nat>, k: nat): (r: seq<nat>)
    requires k < |g.ops|
    ensures |r| == |g.ops[k].inputs| && forall i | 0 <= i < |r| :: r[i] == Sent(g, states, pos, g.ops[k].inputs[i])
  {
    seq(|g.ops[k].inputs|, i requires 0 <= i < |g.ops[k].inputs| => Sent(g, states, pos, g.ops[k].inputs[i]))
  }

  /** Op `k` can take its inputs from the list of columns. */
  ghost predicate Takes(g: Graph, src: seq<Contents>, task: Task, states: seq<OpState>, pos: seq<nat>,
                        states': seq<OpState>, pos': seq<nat>, k: nat, inputs: seq<Column>)
    requires TaskFits(g, task) && k < |g.ops| == |states|
  {
    && |inputs| == |g.ops[k].inputs| == |states[k].inputIdx|
    && (forall i {:trigger inputs[i]} | 0 <= i < |inputs| ::
          Expects(task.streams[k].valid, states[k].inputIdx[i], inputs[i], InputContents(g, src, k)[i],
                  Fulls(g, task, k)[i], Sents(g, states, pos, k)[i]))
    && (forall i {:trigger g.ops[k].inputs[i]} | 0 <= i < |inputs| ::
          Sent(g, states', pos', g.ops[k].inputs[i]) == Sent(g, states, pos, g.ops[k].inputs[i]) + |inputs[i].rows|)
  }

  method SelectColumns(columns: seq<Column>, mapping: seq<int>) returns (inputs: seq<Column>)
    requires forall i | 0 <= i < |mapping| :: 0 <= mapping[i] < |columns|
    ensures |inputs| == |mapping| && forall i | 0 <= i < |mapping| :: inputs[i] == columns[mapping[i]]
  {
    inputs := [];
    for i := 0 to |mapping|
      invariant |inputs| == i && forall i' | 0 <= i' < i :: inputs[i'] == columns[mapping[i']]
    {
      inputs := inputs + [columns[mapping[i]]];
    }
  }

  lemma InputsTaken(g: Graph, a: Analysis, src: seq<Contents>, requested: seq<int>, task: Task, states: seq<OpState>,
                    pos: seq<nat>,
                    states': seq<OpState>, pos': seq<nat>, k: nat, columns: seq<Column>, inputs: seq<Column>)
    requires TaskReady(g, a, src, requested, task) && 0 < k < |g.ops| == |states| && IsAction(g.ops[k]) &&
             StepOk(g, a, k)
    requires Linked(g, task, states, pos, k)
    requires Aligned(Flow(g, src, task, states, pos, states', pos', k), a.live[k - 1], columns)
    requires |inputs| == |a.mapping[k]| && forall i | 0 <= i < |inputs| ::
                                             a.mapping[k][i] < |columns| && inputs[i] == columns[a.mapping[k][i]]
    ensures Takes(g, src, task, states, pos, states', pos', k, inputs)
  {
    forall i | 0 <= i < |inputs|
      ensures Expects(task.streams[k].valid, states[k].inputIdx[i], inputs[i], InputContents(g, src, k)[i],
                      Fulls(g, task, k)[i], Sents(g, states, pos, k)[i])
      ensures Sent(g, states', pos', g.ops[k].inputs[i]) == Sent(g, states, pos, g.ops[k].inputs[i]) + |inputs[i].rows|
    {
      InputExpected(g, a, src, requested, task, states, pos, states', pos', k, columns, i);
    }
  }

  /** Runs op `k` on its inputs. */
  method FeedOne(g: Graph, k: nat, st: OpState, inputs: seq<Column>,
                 ghost src: seq<Contents>, ghost task: Task, ghost states: seq<OpState>, ghost pos: seq<nat>,
                 ghost states': seq<OpState>, ghost pos': seq<nat>)
    returns (st': OpState, outs: seq<Column>)
    requires GraphOk(g) && TaskFits(g, task) && 0 < k < |g.ops| - 1 && |g.ops| == |states| == |states'| &&
             IsAction(g.ops[k])
    requires StreamOk(g, k, task.streams[k]) && Running(g, src, k, task.streams[k], st) && st == states[k]
    requires Takes(g, src, task, states, pos, states', pos', k, inputs)
    ensures Running(g, src, k, task.streams[k], st') && Linked(g, task, states'[k := st'], pos', k)
    ensures Aligned(Flow(g, src, task, states, pos, states'[k := st'], pos', k + 1), Outputs(g, k), outs)
  {
    st', outs := RunOp(g, k, st, inputs, src, task.streams[k], Fulls(g, task, k), Sents(g, states, pos, k));
    StillLinked(g, src, task, states, pos, states', pos', k, st', inputs);
    OutputsFlow(g, src, task, states, pos, states', pos', k, st', outs);
  }

  lemma StreamsOk(g: Graph, a: Analysis, src: seq<Contents>, requested: seq<int>, task: Task, k: nat)
    requires TaskReady(g, a, src, requested, task) && k < |g.ops| - 1
    ensures StreamOk(g, k, task.streams[k])
  {
  }

  /** What an op before `k` has sent does not depend on the state of op `k`. */
  lemma SentFrame(g: Graph, states: seq<OpState>, pos: seq<nat>, k: nat, st: OpState, i: nat)
    requires GraphOk(g) && k < |g.ops| == |states| && i < |g.ops[k].inputs|
    ensures Sent(g, states[k := st], pos, g.ops[k].inputs[i]) == Sent(g, states, pos, g.ops[k].inputs[i])
  {
    assert OpOk(g, k) && EdgeOk(g, k, g.ops[k].inputs[i]);
  }

  lemma StillLinked(g: Graph, src: seq<Contents>, task: Task, states: seq<OpState>, pos: seq<nat>,
                    states': seq<OpState>, pos': seq<nat>, k: nat, st: OpState, inputs: seq<Column>)
    requires GraphOk(g) && TaskFits(g, task) && 0 < k < |g.ops| == |states| == |states'|
    requires Takes(g, src, task, states, pos, states', pos', k, inputs)
    requires Arrived(task.streams[k].valid, Fulls(g, task, k), Sents(g, states, pos, k), inputs, st.inputIdx)
    ensures Linked(g, task, states'[k := st], pos', k)
  {
    var next := states'[k := st];
    forall i | 0 <= i < |g.ops[k].inputs|
      ensures Received(task.streams[k].valid, Full(g, task, g.ops[k].inputs[i]),
                       Sent(g, next, pos', g.ops[k].inputs[i]), st.inputIdx[i])
    {
      SentFrame(g, states', pos', k, st, i);
      assert Fulls(g, task, k)[i] == Full(g, task, g.ops[k].inputs[i]);
    }
  }

  lemma OutputsFlow(g: Graph, src: seq<Contents>, task: Task, states: seq<OpState>, pos: seq<nat>,
                    states': seq<OpState>, pos': seq<nat>, k: nat, st: OpState, outs: seq<Column>)
    requires GraphOk(g) && TaskFits(g, task) && 0 < k < |g.ops| == |states| == |states'|
    requires Handed(g, src, k, task.streams[k].keep, states[k].outputIdx, st.outputIdx, outs)
    ensures Aligned(Flow(g, src, task, states, pos, states'[k := st], pos', k + 1), Outputs(g, k), outs)
  {
    forall c | 0 <= c < |outs|
      ensures Carried(g, src, task, states, pos, states'[k := st], pos', Outputs(g, k)[c], outs[c])
    { }
  }

  // ---- Updating the list -------------------------------------------------------------------

  lemma {:induction false} WithoutSize<T>(s: seq<T>, drop: seq<int>, n: nat)
    requires n <= |s|
    ensures |Without(s, drop, n)| <= n
    ensures |Without(s, drop, n)| == n ==> Without(s, drop, n) == s[..n]
    ensures Without(s, drop, n) == [] || exists q :: 0 <= q < n && s[q] in Without(s, drop, n)
  {
    if n > 0 { WithoutSize(s, drop, n - 1); }
  }

  lemma ReadEdge(g: Graph, r: nat, c: ColRef)
    requires GraphOk(g) && Reading(g, r, c)
    ensures EdgeOk(g, r, c)
  {
    assert OpOk(g, r);
    var i :| 0 <= i < |g.ops[r].inputs| && g.ops[r].inputs[i] == c;
    assert EdgeOk(g, r, g.ops[r].inputs[i]);
  }

  lemma LiveBelow(g: Graph, a: Analysis, k: nat, x: ColRef)
    requires GraphOk(g) && Correct(g, a) && 0 < k < |g.ops| - 1
    requires x in Without(a.live[k - 1], a.dead[k], |a.live[k - 1]|)
    ensures x.op < k
  {
    var before := a.live[k - 1];
    assert before == LiveAfter(g, k - 1);
    var kept := Without(before, a.dead[k], |before|);
    var p :| 0 <= p < |kept| && kept[p] == x;
    var q := WithoutAligned(before, before, a.dead[k], |before|, p);
    LiveIsReadLater(g, k - 1, x);
  }

  /** Nothing else than the used outputs of op `k` is new in the list of live columns. */
  lemma UsedOutputs(g: Graph, a: Analysis, k: nat, c: nat)
    requires GraphOk(g) && Correct(g, a) && 0 < k < |g.ops| - 1 && c < |g.ops[k].outputs|
    ensures StepOk(g, a, k)
    ensures Col(g, k, c) in Without(Outputs(g, k), a.unused[k], |g.ops[k].outputs|) <==>
            exists r :: k < r && Reading(g, r, Col(g, k, c))
  {
    var x := Col(g, k, c);
    assert StepOk(g, a, k) && a.live[k] == LiveAfter(g, k);
    LiveIsReadLater(g, k, x);
    var kept := Without(a.live[k - 1], a.dead[k], |a.live[k - 1]|);
    assert x !in kept by {
      if x in kept { LiveBelow(g, a, k, x); }
    }
  }

  /** A builtin op always adds its one column. */
  lemma BuiltinOutputs(g: Graph, a: Analysis, k: nat)
    requires GraphOk(g) && Correct(g, a) && 0 < k < |g.ops| - 1 && g.ops[k].kind.Builtin? && ReadSomewhere(g, k)
    ensures StepOk(g, a, k) && Without(Outputs(g, k), a.unused[k], |g.ops[k].outputs|) == Outputs(g, k)
  {
    assert OpOk(g, k);
    UsedOutputs(g, a, k, 0);
    WithoutSize(Outputs(g, k), a.unused[k], 1);
    assert Outputs(g, k)[..1] == Outputs(g, k);
  }

  /** A merged source adds none. */
  lemma MergedOutputs(g: Graph, a: Analysis, k: nat)
    requires GraphOk(g) && Correct(g, a) && 0 < k < |g.ops| - 1 && !IsAction(g.ops[k])
    ensures StepOk(g, a, k) && Without(Outputs(g, k), a.unused[k], |g.ops[k].outputs|) == []
  {
    assert StepOk(g, a, k) && OpOk(g, k);
    forall c | 0 <= c < |g.ops[k].outputs|
      ensures Col(g, k, c) !in Without(Outputs(g, k), a.unused[k], |g.ops[k].outputs|)
    {
      UsedOutputs(g, a, k, c);
      forall r | k < r ensures !Reading(g, r, Col(g, k, c)) {
        if Reading(g, r, Col(g, k, c)) { ReadEdge(g, r, Col(g, k, c)); }
      }
    }
    WithoutSize(Outputs(g, k), a.unused[k], |g.ops[k].outputs|);
  }

  /** The outputs of op `k` that join the list. */
  method UsedColumns(g: Graph, a: Analysis, k: nat, outs: seq<Column>, ghost right: (ColRef, Column) -> bool)
    returns (used: seq<Column>)
    requires GraphOk(g) && Correct(g, a) && 0 < k < |g.ops| - 1 && (g.ops[k].kind.Builtin? ==> ReadSomewhere(g, k))
    requires if IsAction(g.ops[k]) then Aligned(right, Outputs(g, k), outs) else outs == []
    ensures StepOk(g, a, k) && Aligned(right, Without(Outputs(g, k), a.unused[k], |g.ops[k].outputs|), used)
  {
    assert StepOk(g, a, k);
    if g.ops[k].kind.KernelOp? {
      AlignedWithout(right, Outputs(g, k), outs, a.unused[k]);
      used := EraseAll(outs, a.unused[k]);
    } else {
      if g.ops[k].kind.Builtin? { BuiltinOutputs(g, a, k); } else { MergedOutputs(g, a, k); }
      used := outs;
    }
  }

  /** Adds the outputs of op `k` that are used and erases dead columns. */
  method UpdateColumns(g: Graph, a: Analysis, k: nat, columns: seq<Column>, outs: seq<Column>,
                       ghost right: (ColRef, Column) -> bool)
    returns (columns': seq<Column>)
    requires GraphOk(g) && Correct(g, a) && 0 < k < |g.ops| - 1 && (g.ops[k].kind.Builtin? ==> ReadSomewhere(g, k))
    requires Aligned(right, a.live[k - 1], columns)
    requires if IsAction(g.ops[k]) then Aligned(right, Outputs(g, k), outs) else outs == []
    ensures Aligned(right, a.live[k], columns')
  {
    var used := UsedColumns(g, a, k, outs, right);
    assert StepOk(g, a, k);
    ghost var tags := Without(Outputs(g, k), a.unused[k], |g.ops[k].outputs|);
    WithoutTail(columns, used, a.dead[k], |used|);
    assert used[..|used|] == used;
    AlignedWithout(right, a.live[k - 1], columns, a.dead[k]);
    AlignedConcat(right, Without(a.live[k - 1], a.dead[k], |columns|), Without(columns, a.dead[k], |columns|), tags,
                  used);
    columns' := EraseAll(columns + used, a.dead[k]);
  }

  /** One packet at op `k`: takes the inputs from the list, runs the op, and updates the list. */
  method ProcessOp(g: Graph, a: Analysis, k: nat, st: OpState, columns: seq<Column>,
                   ghost src: seq<Contents>, ghost requested: seq<int>, ghost task: Task, ghost states: seq<OpState>,
                     ghost pos: seq<nat>,
                   ghost states': seq<OpState>, ghost pos': seq<nat>)
    returns (st': OpState, columns': seq<Column>)
    requires TaskReady(g, a, src, requested, task) && 0 < k < |g.ops| - 1 && |g.ops| == |states| == |states'|
    requires OpInvariant(g, src, task, states, pos, k) && st == states[k] == states'[k]
    requires Aligned(Flow(g, src, task, states, pos, states', pos', k), a.live[k - 1], columns)
    ensures OpInvariant(g, src, task, states'[k := st'], pos', k)
    ensures Aligned(Flow(g, src, task, states, pos, states'[k := st'], pos', k + 1), a.live[k], columns')
  {
    st' := st;
    var outs: seq<Column> := [];
    if IsAction(g.ops[k]) {
      assert StepOk(g, a, k);
      var inputs := SelectColumns(columns, a.mapping[k]);
      InputsTaken(g, a, src, requested, task, states, pos, states', pos', k, columns, inputs);
      StreamsOk(g, a, src, requested, task, k);
      st', outs := FeedOne(g, k, st, inputs, src, task, states, pos, states', pos');
    }
    FlowFrame(g, src, task, states, pos, states', pos', k, states'[k := st'], a.live[k - 1], columns);
    columns' := UpdateColumns(g, a, k, columns, outs, Flow(g, src, task, states, pos, states'[k := st'], pos', k + 1));
  }

  // ---- One packet through all ops ----------------------------------------------------------

  /** Op `j` does not depend on the state of later ops. */
  lemma InvariantFrame(g: Graph, src: seq<Contents>, task: Task, states: seq<OpState>, states': seq<OpState>,
                       pos: seq<nat>, j: nat)
    requires GraphOk(g) && TaskFits(g, task) && j < |g.ops| == |states| == |states'|
    requires forall i | 0 <= i <= j :: states'[i] == states[i]
    requires OpInvariant(g, src, task, states, pos, j)
    ensures OpInvariant(g, src, task, states', pos, j)
  {
    if IsAction(g.ops[j]) {
      assert OpOk(g, j);
      forall i | 0 <= i < |g.ops[j].inputs|
        ensures Sent(g, states', pos, g.ops[j].inputs[i]) == Sent(g, states, pos, g.ops[j].inputs[i])
      {
        assert EdgeOk(g, j, g.ops[j].inputs[i]);
      }
    }
  }

  /** The walk over the ops has reached op `k`. */
  ghost predicate Reaching(g: Graph, src: seq<Contents>, task: Task, states: seq<OpState>, states': seq<OpState>,
                           pos': seq<nat>, k: nat)
    requires GraphOk(g) && TaskFits(g, task) && |g.ops| == |states|
  {
    && |states'| == |g.ops|
    && (forall j | k <= j < |g.ops| :: states'[j] == states[j])
    && (forall j | 0 <= j < k && j < |g.ops| :: OpInvariant(g, src, task, states', pos', j))
  }

  lemma ReachNext(g: Graph, src: seq<Contents>, task: Task, states: seq<OpState>, states': seq<OpState>, pos': seq<nat>,
                  k: nat, st: OpState)
    requires GraphOk(g) && TaskFits(g, task) && k < |g.ops| == |states|
    requires Reaching(g, src, task, states, states', pos', k)
    requires OpInvariant(g, src, task, states'[k := st], pos', k)
    ensures Reaching(g, src, task, states, states'[k := st], pos', k + 1)
  {
    var next := states'[k := st];
    forall j | 0 <= j < k ensures OpInvariant(g, src, task, next, pos', j) {
      assert OpInvariant(g, src, task, states', pos', j);
      InvariantFrame(g, src, task, states', next, pos', j);
    }
  }

  /** Runs one packet through the ops between the source and the sink. */
  method FeedOps(g: Graph, a: Analysis, states: seq<OpState>, packet: seq<Column>,
                 ghost src: seq<Contents>, ghost requested: seq<int>, ghost task: Task, ghost pos: seq<nat>)
    returns (states': seq<OpState>, columns: seq<Column>)
    requires TaskReady(g, a, src, requested, task) && Between(g, src, task, states, pos) &&
             PacketOk(src, task, pos, packet)
    ensures Between(g, src, task, states', Advanced(pos, packet))
    ensures Aligned(Flow(g, src, task, states, pos, states', Advanced(pos, packet), |g.ops| - 1), a.live[|g.ops| - 2],
                    columns)
  {
    ghost var pos' := Advanced(pos, packet);
    states', columns := states, packet;
    PacketAligned(g, src, task, states, pos, packet);
    assert OpOk(g, 0);
    var k := 1;
    while k < |g.ops| - 1
      invariant 1 <= k <= |g.ops| - 1
      invariant Reaching(g, src, task, states, states', pos', k)
      invariant Aligned(Flow(g, src, task, states, pos, states', pos', k), a.live[k - 1], columns)
    {
      assert OpInvariant(g, src, task, states, pos, k);
      var st;
      st, columns := ProcessOp(g, a, k, states'[k], columns, src, requested, task, states, pos, states', pos');
      ReachNext(g, src, task, states, states', pos', k, st);
      states' := states'[k := st];
      k := k + 1;
    }
    assert OpOk(g, |g.ops| - 1);
  }

  /** Feeds one packet of the source columns and returns the packets of the sink's columns. */
  method FeedPacket(g: Graph, a: Analysis, states: seq<OpState>, packet: seq<Column>,
                    ghost src: seq<Contents>, ghost requested: seq<int>, ghost task: Task, ghost pos: seq<nat>)
    returns (states': seq<OpState>, out: seq<Column>)
    requires TaskReady(g, a, src, requested, task) && Between(g, src, task, states, pos) &&
             PacketOk(src, task, pos, packet)
    ensures Between(g, src, task, states', Advanced(pos, packet))
    ensures Aligned(Flow(g, src, task, states, pos, states', Advanced(pos, packet), |g.ops| - 1),
                    g.ops[|g.ops| - 1].inputs, out)
  {
    var n := |g.ops|;
    var columns;
    states', columns := FeedOps(g, a, states, packet, src, requested, task, pos);
    assert StepOk(g, a, n - 1);
    out := SelectColumns(columns, a.mapping[n - 1]);
  }

  // ---- A whole task ------------------------------------------------------------------------

  /** `new_task`, for all ops. Source and sink have no state. */
  function NewStates(g: Graph, streams: seq<TaskStream>): (states: seq<OpState>)
    requires |streams| == |g.ops|
    ensures |states| == |g.ops|
  {
    seq(|g.ops|, k requires 0 <= k < |g.ops| =>
      if IsAction(g.ops[k]) then
        Evaluator.NewTask(ActionOf(g.ops[k]), streams[k].valid, streams[k].compute, streams[k].keep, |g.ops[k].inputs|)
      else Evaluator.NewTask(Remap(All), [], [], [], 0))
  }

  function Zeros(n: nat): (pos: seq<nat>)
    ensures |pos| == n && forall c | 0 <= c < n :: pos[c] == 0
  {
    seq(n, _ => 0)
  }

  lemma NothingSent(g: Graph, task: Task, c: ColRef)
    requires TaskFits(g, task)
    ensures Sent(g, NewStates(g, task.streams), Zeros(|task.sources|), c) == 0
  {
  }

  lemma NewTaskLinked(g: Graph, a: Analysis, src: seq<Contents>, requested: seq<int>, task: Task, k: nat)
    requires TaskReady(g, a, src, requested, task) && k < |g.ops| && IsAction(g.ops[k])
    ensures Linked(g, task, NewStates(g, task.streams), Zeros(|task.sources|), k)
  {
    forall i | 0 <= i < |g.ops[k].inputs|
      ensures Received(task.streams[k].valid, Full(g, task, g.ops[k].inputs[i]),
                       Sent(g, NewStates(g, task.streams), Zeros(|task.sources|), g.ops[k].inputs[i]), 0)
    {
      NothingSent(g, task, g.ops[k].inputs[i]);
      FullCovers(g, a, src, requested, task, k, i);
      assert Demands(g, k, task.streams[k]);
      SortedAscends(task.streams[k].valid);
      StartReceived(task.streams[k].valid, Full(g, task, g.ops[k].inputs[i]));
    }
  }

  lemma StartReceived(sub: seq<int>, sup: seq<int>)
    requires Sorted(sub) && Sorted(sup) && Within(sub, sup)
    ensures Received(sub, sup, 0, 0)
  {
    SortedAscends(sub);
    SortedAscends(sup);
    if sub != [] { SupersetPointwise(sub, sup, 0); }
  }

  lemma NewTaskBetween(g: Graph, a: Analysis, src: seq<Contents>, requested: seq<int>, task: Task)
    requires TaskReady(g, a, src, requested, task)
    ensures Between(g, src, task, NewStates(g, task.streams), Zeros(|task.sources|))
  {
    forall k | 0 <= k < |g.ops|
      ensures OpInvariant(g, src, task, NewStates(g, task.streams), Zeros(|task.sources|), k)
    {
      if IsAction(g.ops[k]) {
        assert OpOk(g, k) && OpOk(g, |g.ops| - 1);
        StreamsOk(g, a, src, requested, task, k);
        NewTaskRunning(g, src, k, task.streams[k]);
        NewTaskLinked(g, a, src, requested, task, k);
      }
    }
  }

  lemma NewTaskRunning(g: Graph, src: seq<Contents>, k: nat, ts: TaskStream)
    requires GraphOk(g) && k < |g.ops| && IsAction(g.ops[k]) && StreamOk(g, k, ts)
    ensures Running(g, src, k, ts, Evaluator.NewTask(ActionOf(g.ops[k]), ts.valid, ts.compute, ts.keep,
                                                     |g.ops[k].inputs|))
  {
    assert OpOk(g, k);
    StreamDense(g, src, k, ts);
    NewTaskConsistent(ActionOf(g.ops[k]), InputDomain(g, k), ts.valid, ts.compute, ts.keep, InputContents(g, src, k),
                      OpMachine(g, src, k));
  }

  /** Once all source rows have been fed, every column has been sent in full. */
  lemma {:induction false} EverythingSent(g: Graph, a: Analysis, src: seq<Contents>, requested: seq<int>, task: Task,
                                          states: seq<OpState>, pos: seq<nat>, k: nat, i: nat)
    requires TaskReady(g, a, src, requested, task) && Between(g, src, task, states, pos)
    requires forall c | 0 <= c < |pos| :: pos[c] == |task.sources[c]|
    requires k < |g.ops| && i < |g.ops[k].inputs|
    ensures Sent(g, states, pos, g.ops[k].inputs[i]) == |Full(g, task, g.ops[k].inputs[i])|
    decreases k
  {
    FullCovers(g, a, src, requested, task, k, i);
    var j := g.ops[k].inputs[i].op;
    assert OpOk(g, k) && EdgeOk(g, k, g.ops[k].inputs[i]) && OpOk(g, j);
    if j > 0 {
      assert OpInvariant(g, src, task, states, pos, j);
      forall i' | 0 <= i' < |g.ops[j].inputs| ensures states[j].inputIdx[i'] == |task.streams[j].valid| {
        EverythingSent(g, a, src, requested, task, states, pos, j, i');
      }
      EmittedRows(ActionOf(g.ops[j]), InputDomain(g, j), states[j], InputContents(g, src, j), OpMachine(g, src, j));
    }
  }

  /** The sink's column `c`, as far as it has been sent. */
  ghost predicate SentSoFar(g: Graph, src: seq<Contents>, task: Task, states: seq<OpState>, pos: seq<nat>, c: ColRef,
                            col: Column)
    requires TaskFits(g, task)
  {
    var full, sent := Full(g, task, c), Sent(g, states, pos, c);
    sent <= |full| && col == Column(full[..sent], Values(Content(g, src, c), full[..sent]))
  }

  /** What has reached the sink. */
  ghost predicate Gathered(g: Graph, src: seq<Contents>, task: Task, states: seq<OpState>, pos: seq<nat>,
                           result: seq<Column>)
    requires TaskFits(g, task)
  {
    && |result| == SinkWidth(g)
    && forall i {:trigger SinkInput(g, i)} | 0 <= i < |result| ::
         SentSoFar(g, src, task, states, pos, SinkInput(g, i), result[i])
  }

  lemma GatherMore(col: Column, next: Column, c: Contents, full: seq<int>, sent: nat)
    requires sent <= |full| && col == Column(full[..sent], Values(c, full[..sent])) && Delivers(next, c, full, sent)
    ensures Column(col.rows + next.rows, col.elems + next.elems) ==
            Column(full[..sent + |next.rows|], Values(c, full[..sent + |next.rows|]))
  {
    assert full[..sent + |next.rows|] == full[..sent] + next.rows;
    ValuesConcat(c, full[..sent], next.rows);
  }

  /** Appends packets to the columns gathered so far. */
  method Append(result: seq<Column>, out: seq<Column>) returns (result': seq<Column>)
    requires |result| == |out|
    ensures |result'| == |out|
    ensures forall i | 0 <= i < |out| ::
              result'[i] == Column(result[i].rows + out[i].rows, result[i].elems + out[i].elems)
  {
    result' := [];
    for i := 0 to |out|
      invariant |result'| == i
      invariant forall j | 0 <= j < i ::
                  result'[j] == Column(result[j].rows + out[j].rows, result[j].elems + out[j].elems)
    {
      result' := result' + [Column(result[i].rows + out[i].rows, result[i].elems + out[i].elems)];
    }
  }

  lemma SentNext(g: Graph, src: seq<Contents>, task: Task, states: seq<OpState>, pos: seq<nat>,
                 states': seq<OpState>, pos': seq<nat>, c: ColRef, col: Column, next: Column, col': Column)
    requires TaskFits(g, task) && SentSoFar(g, src, task, states, pos, c, col)
    requires Carried(g, src, task, states, pos, states', pos', c, next)
    requires col' == Column(col.rows + next.rows, col.elems + next.elems)
    ensures SentSoFar(g, src, task, states', pos', c, col')
  {
    GatherMore(col, next, Content(g, src, c), Full(g, task, c), Sent(g, states, pos, c));
  }

  lemma GatheredNext(g: Graph, src: seq<Contents>, task: Task, states: seq<OpState>, pos: seq<nat>,
                     states': seq<OpState>, pos': seq<nat>, result: seq<Column>, out: seq<Column>, result': seq<Column>)
    requires TaskFits(g, task) && Gathered(g, src, task, states, pos, result)
    requires Aligned(Flow(g, src, task, states, pos, states', pos', |g.ops| - 1), g.ops[|g.ops| - 1].inputs, out)
    requires |result'| == |out| == |result|
    requires forall i | 0 <= i < |out| ::
               result'[i] == Column(result[i].rows + out[i].rows, result[i].elems + out[i].elems)
    ensures Gathered(g, src, task, states', pos', result')
  {
    forall i | 0 <= i < |result'| ensures SentSoFar(g, src, task, states', pos', SinkInput(g, i), result'[i]) {
      var c := SinkInput(g, i);
      assert Flow(g, src, task, states, pos, states', pos', |g.ops| - 1)(c, out[i]);
      assert SentSoFar(g, src, task, states, pos, c, result[i]);
      SentNext(g, src, task, states, pos, states', pos', c, result[i], out[i], result'[i]);
    }
  }

  // ---- The slice group of a task -----------------------------------------------------------

  /** The group of the last of the streams from 1 up to `k` that has one. Ops 0 and the sink are not the worker's. */
  function LastGroup(streams: seq<TaskStream>, k: nat): int
    requires k <= |streams|
  {
    if k <= 1 then -1 else if streams[k - 1].group != -1 then streams[k - 1].group else LastGroup(streams, k - 1)
  }

  /** The slice group that the worker evaluates a task in: that of the op before the sink. */
  function WorkerGroup(streams: seq<TaskStream>): int {
    if streams == [] then -1 else LastGroup(streams, |streams| - 1)
  }

  method ChooseGroup(streams: seq<TaskStream>) returns (group: int)
    requires 2 <= |streams|
    ensures group == WorkerGroup(streams)
  {
    group := -1;
    for k := 1 to |streams| - 1
      invariant group == LastGroup(streams, k)
    {
      if streams[k].group != -1 {
        group := streams[k].group;
      }
    }
  }

  /** The graph that the worker takes its samplers, slices and offsets from. */
  function Chosen(group: int): nat {
    if group < 0 then 0 else group
  }

  predicate Startable(job: Job, group: int) {
    HasGroup(job, Chosen(group)) && ArgsFit(job, Chosen(group))
  }

  class EvaluateWorker {
    const job: Job
    const analysis: Analysis
    var group: int
    var graph: Graph
    var states: seq<OpState>
    ghost var src: seq<Contents>
    ghost var requested: seq<int>
    ghost var task: Task
    ghost var pos: seq<nat>

    /** In the middle of a task: every op has consumed exactly what its parents have sent. */
    ghost predicate Valid()
      reads this
    {
      TaskReady(graph, analysis, src, requested, task) && Between(graph, src, task, states, pos)
    }

    /** In the middle of the given task, with `result` gathered so far. */
    ghost predicate Midway(g: Graph, src: seq<Contents>, requested: seq<int>, task: Task, pos: seq<nat>,
                           result: seq<Column>)
      reads this
    {
      && Valid() && graph == g && this.src == src && this.requested == requested && this.task == task
      && this.pos == pos && Gathered(graph, src, task, states, pos, result)
    }

    constructor (j: Job, a: Analysis)
      ensures job == j && analysis == a
    {
      job, analysis, group, graph, states := j, a, -1, Graph([], []), [];
    }

    /** `new_task`: takes the slice group from the streams of the task, and samplers, slices, offsets and kernel
    arguments from that group. It fails exactly if one of them is missing. */
    method NewTask(newTask: Task, ghost newSrc: seq<Contents>, ghost newRequested: seq<int>) returns (ok: bool)
      requires Sized(job) && |newTask.streams| == |job.ops|
      modifies this
      ensures group == WorkerGroup(newTask.streams) && (ok <==> Startable(job, group))
      ensures ok ==> graph == GraphAt(job, Chosen(group))
      ensures ok && TaskReady(graph, analysis, newSrc, newRequested, newTask) ==>
                && Valid() && src == newSrc && requested == newRequested && task == newTask
                && states == NewStates(graph, task.streams) && pos == Zeros(|task.sources|)
    {
      group := ChooseGroup(newTask.streams);
      ok := Startable(job, group);
      if ok {
        graph := GraphAt(job, Chosen(group));
        states := NewStates(graph, newTask.streams);
        task := newTask;
        src, requested, pos := newSrc, newRequested, Zeros(|newTask.sources|);
        if TaskReady(graph, analysis, src, requested, task) {
          NewTaskBetween(graph, analysis, src, requested, task);
        }
      }
    }

    /** `feed`: takes the next packet of the source columns and returns the packets of the sink's
    columns, each of them the next rows of that column with the elements of the full stream. */
    method Feed(packet: seq<Column>) returns (out: seq<Column>)
      requires Valid() && PacketOk(src, task, pos, packet)
      modifies this`states, this`pos
      ensures Valid() && pos == Advanced(old(pos), packet)
      ensures Aligned(Flow(graph, src, task, old(states), old(pos), states, pos, |graph.ops| - 1),
                      graph.ops[|graph.ops| - 1].inputs, out)
    {
      states, out := FeedPacket(graph, analysis, states, packet, src, requested, task, pos);
      pos := Advanced(pos, packet);
    }
  }

  /** Source rows fed by the first `p` packets. */
  ghost function FedBy(packets: seq<seq<Column>>, columns: nat, p: nat): (pos: seq<nat>)
    requires p <= |packets| && forall q | 0 <= q < p :: |packets[q]| == columns
    ensures |pos| == columns
  {
    if p == 0 then Zeros(columns) else Advanced(FedBy(packets, columns, p - 1), packets[p - 1])
  }

  /** `packets` is some way of cutting the source columns of a task into packets. */
  ghost predicate Splits(src: seq<Contents>, task: Task, packets: seq<seq<Column>>) {
    && (forall q | 0 <= q < |packets| :: |packets[q]| == |task.sources|)
    && (forall q {:trigger PacketOk(src, task, FedBy(packets, |task.sources|, q), packets[q])} | 0 <= q < |packets| ::
          PacketOk(src, task, FedBy(packets, |task.sources|, q), packets[q]))
    && (forall c | 0 <= c < |task.sources| :: FedBy(packets, |task.sources|, |packets|)[c] == |task.sources[c]|)
  }

  /** The columns of the sink, with all their rows and the elements of the full streams. */
  ghost predicate SinkComplete(g: Graph, src: seq<Contents>, task: Task, result: seq<Column>)
    requires GraphOk(g) && TaskFits(g, task)
  {
    && |result| == SinkWidth(g)
    && forall i {:trigger result[i]} | 0 <= i < |result| ::
         result[i] == Column(SinkRows(g, task.streams, task.sources, i),
                             Values(InputContents(g, src, |g.ops| - 1)[i], SinkRows(g, task.streams, task.sources, i)))
  }

  lemma GatheredAll(g: Graph, a: Analysis, src: seq<Contents>, requested: seq<int>, task: Task, states: seq<OpState>,
                    pos: seq<nat>, result: seq<Column>)
    requires TaskReady(g, a, src, requested, task) && Between(g, src, task, states, pos)
    requires forall c | 0 <= c < |pos| :: pos[c] == |task.sources[c]|
    requires Gathered(g, src, task, states, pos, result)
    ensures SinkComplete(g, src, task, result)
  {
    forall i | 0 <= i < |result|
      ensures result[i] == Column(SinkRows(g, task.streams, task.sources, i),
                                  Values(InputContents(g, src, |g.ops| - 1)[i],
                                         SinkRows(g, task.streams, task.sources, i)))
    {
      var c := SinkInput(g, i);
      EverythingSent(g, a, src, requested, task, states, pos, |g.ops| - 1, i);
      assert Full(g, task, c)[..|Full(g, task, c)|] == Full(g, task, c);
      assert OpOk(g, |g.ops| - 1) && EdgeOk(g, |g.ops| - 1, c);
      assert Full(g, task, c) == SinkRows(g, task.streams, task.sources, i);
    }
  }

  lemma NothingGathered(g: Graph, src: seq<Contents>, task: Task)
    requires TaskFits(g, task)
    ensures Gathered(g, src, task, NewStates(g, task.streams), Zeros(|task.sources|),
                     seq(SinkWidth(g), _ => Column([], [])))
  {
    forall i | 0 <= i < SinkWidth(g)
      ensures Sent(g, NewStates(g, task.streams), Zeros(|task.sources|), SinkInput(g, i)) == 0
    {
      NothingSent(g, task, SinkInput(g, i));
    }
  }

  /** The worker can start the task, and the task fits the graph of the slice group that it chooses. */
  ghost predicate TaskStarts(job: Job, a: Analysis, src: seq<Contents>, requested: seq<int>, task: Task) {
    && |task.streams| == |job.ops| && Startable(job, WorkerGroup(task.streams))
    && TaskReady(GraphAt(job, Chosen(WorkerGroup(task.streams))), a, src, requested, task)
  }

  /** Begins a task. */
  method BeginTask(w: EvaluateWorker, task: Task, ghost src: seq<Contents>, ghost requested: seq<int>)
    returns (result: seq<Column>)
    requires TaskStarts(w.job, w.analysis, src, requested, task)
    modifies w
    ensures w.Midway(GraphAt(w.job, Chosen(WorkerGroup(task.streams))), src, requested, task, Zeros(|task.sources|),
                     result)
  {
    var ok := w.NewTask(task, src, requested);
    result := seq(SinkWidth(w.graph), _ => Column([], []));
    NothingGathered(w.graph, src, task);
  }

  /** Feeds one packet and gathers what comes out for the sink. */
  method FeedAndGather(w: EvaluateWorker, packet: seq<Column>, result: seq<Column>, ghost g: Graph,
                       ghost src: seq<Contents>, ghost requested: seq<int>, ghost task: Task, ghost pos: seq<nat>,
                       ghost pos': seq<nat>)
    returns (result': seq<Column>)
    requires w.Midway(g, src, requested, task, pos, result) && PacketOk(src, task, pos, packet)
    requires pos' == Advanced(pos, packet)
    modifies w
    ensures w.Midway(g, src, requested, task, pos', result')
  {
    ghost var states := w.states;
    var out := w.Feed(packet);
    result' := Append(result, out);
    GatheredNext(w.graph, src, task, states, pos, w.states, w.pos, result, out, result');
  }

  /** Feeds the `p`-th packet of a task. */
  method FeedNext(w: EvaluateWorker, packets: seq<seq<Column>>, p: nat, result: seq<Column>, ghost g: Graph,
                  ghost src: seq<Contents>, ghost requested: seq<int>, ghost task: Task)
    returns (result': seq<Column>)
    requires Splits(src, task, packets) && p < |packets|
    requires w.Midway(g, src, requested, task, FedBy(packets, |task.sources|, p), result)
    modifies w
    ensures w.Midway(g, src, requested, task, FedBy(packets, |task.sources|, p + 1), result')
  {
    assert PacketOk(src, task, FedBy(packets, |task.sources|, p), packets[p]);
    ghost var pos, pos' := FedBy(packets, |task.sources|, p), FedBy(packets, |task.sources|, p + 1);
    result' := FeedAndGather(w, packets[p], result, g, src, requested, task, pos, pos');
  }

  /** At the end of a task everything has reached the sink. */
  ghost method EndTask(w: EvaluateWorker, g: Graph, src: seq<Contents>, requested: seq<int>, task: Task, pos: seq<nat>,
                       result: seq<Column>)
    requires w.Midway(g, src, requested, task, pos, result)
    requires forall c | 0 <= c < |pos| :: pos[c] == |task.sources[c]|
    ensures GraphOk(g) && TaskFits(g, task) && SinkComplete(g, src, task, result)
  {
    GatheredAll(w.graph, w.analysis, src, requested, task, w.states, pos, result);
  }

  /** Runs a whole task. Whatever the packets, and whatever the batch sizes of the kernels, the sink
  receives the same columns: the full streams of the slice group that the worker has chosen, restricted to the rows
  that reach it. */
  method RunTask(w: EvaluateWorker, task: Task, packets: seq<seq<Column>>, ghost src: seq<Contents>,
                 ghost requested: seq<int>)
    returns (result: seq<Column>)
    requires TaskStarts(w.job, w.analysis, src, requested, task) && Splits(src, task, packets)
    modifies w
    ensures SinkComplete(GraphAt(w.job, Chosen(WorkerGroup(task.streams))), src, task, result)
  {
    ghost var g := GraphAt(w.job, Chosen(WorkerGroup(task.streams)));
    result := BeginTask(w, task, src, requested);
    for p := 0 to |packets|
      invariant w.Midway(g, src, requested, task, FedBy(packets, |task.sources|, p), result)
    {
      result := FeedNext(w, packets, p, result, g, src, requested, task);
    }
    EndTask(w, g, src, requested, task, FedBy(packets, |task.sources|, |packets|), result);
  }
}
