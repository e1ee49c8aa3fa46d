/** Which rows of which op an output row of the job makes every op read, told from the graph alone. Demand
analysis of a task is the union of this over the task's rows, so what a task brings to the sink, and
what a whole job stores under any cut into tasks, follow from the graph. */
module Influence {
  import opened Rows
  import opened Samplers
  import opened Streams
  import opened Dag
  import opened Demand
  import opened SparseDense

  // ---- One output row ----------------------------------------------------------------------

  /** Op `k` has op `j` as its `i`-th input. */
  ghost predicate Edge(g: Graph, j: nat, k: int, i: int) {
    0 <= k < |g.ops| && 0 <= i < |g.ops[k].inputs| && g.ops[k].inputs[i].op == j
  }

  /** For the sake of output row `x`, op `j` passes on row `z`. */
  ghost predicate PassesOn(g: Graph, j: nat, x: int, z: int)
    requires GraphOk(g) && j < |g.ops|
    decreases |g.ops| - j, 0
  {
    if j == |g.ops| - 1 then z == x
    else exists k, i :: j < k && Edge(g, j, k, i) && ReadsFor(g, k, x, z)
  }

  /** For the sake of output row `x`, op `k` reads row `y` of its inputs. */
  ghost predicate ReadsFor(g: Graph, k: nat, x: int, y: int)
    requires GraphOk(g) && k < |g.ops|
    decreases |g.ops| - k, 1
  {
    assert OpOk(g, k);
    match g.ops[k].kind
    case KernelOp(kernel) =>
      && 0 <= y < InputDomain(g, k)
      && exists o, c :: PassesOn(g, k, x, o) && NeededFor(kernel.memory, c, o) && y - c in kernel.stencil
    case Builtin(m) => exists o :: PassesOn(g, k, x, o) && InRange(m, o) && UpRow(m, o) == y
    case Sink => y == x
    case _ => false
  }

  // ---- A task ------------------------------------------------------------------------------

  /** For the sake of some row of `rows`. */
  ghost predicate PassesOnAny(g: Graph, j: nat, rows: seq<int>, z: int)
    requires GraphOk(g) && j < |g.ops|
  {
    exists x :: x in rows && PassesOn(g, j, x, z)
  }

  ghost predicate ReadsForAny(g: Graph, k: nat, rows: seq<int>, y: int)
    requires GraphOk(g) && k < |g.ops|
  {
    exists x :: x in rows && ReadsFor(g, k, x, y)
  }

  /** What a kernel reads is decided row by row. */
  lemma KernelUnion(g: Graph, k: nat, rows: seq<int>, ts: TaskStream, y: int)
    requires GraphOk(g) && k < |g.ops| && g.ops[k].kind.KernelOp? && Demands(g, k, ts)
    requires forall z :: z in ts.keep <==> PassesOnAny(g, k, rows, z)
    ensures y in ts.valid <==> ReadsForAny(g, k, rows, y)
  {
    assert OpOk(g, k);
    var kernel, max := g.ops[k].kind.kernel, InputDomain(g, k);
    if y in ts.valid {
      assert InWindow(kernel.stencil, ts.compute, max, y);
      var c, s :| c in ts.compute && s in kernel.stencil && y == c + s;
      assert Needed(kernel.memory, ts.keep, c);
      var o :| o in ts.keep && NeededFor(kernel.memory, c, o);
      var x :| x in rows && PassesOn(g, k, x, o);
      assert y - c in kernel.stencil;
      assert ReadsFor(g, k, x, y);
    }
    if ReadsForAny(g, k, rows, y) {
      var x :| x in rows && ReadsFor(g, k, x, y);
      var o, c :| PassesOn(g, k, x, o) && NeededFor(kernel.memory, c, o) && y - c in kernel.stencil;
      assert PassesOnAny(g, k, rows, o);
      assert Needed(kernel.memory, ts.keep, c);
      assert c in ts.compute && y - c in kernel.stencil && y == c + (y - c);
      assert InWindow(kernel.stencil, ts.compute, max, y);
    }
  }

  lemma BuiltinUnion(g: Graph, k: nat, rows: seq<int>, ts: TaskStream, y: int)
    requires GraphOk(g) && k < |g.ops| && g.ops[k].kind.Builtin? && Demands(g, k, ts)
    requires forall z :: z in ts.keep <==> PassesOnAny(g, k, rows, z)
    ensures y in ts.valid <==> ReadsForAny(g, k, rows, y)
  {
    assert OpOk(g, k);
    var m := g.ops[k].kind.rowMap;
    UpRowsExact(m, ts.keep, y);
    if y in ts.valid {
      var o :| o in ts.keep && UpRow(m, o) == y;
      var x :| x in rows && PassesOn(g, k, x, o);
      assert ReadsFor(g, k, x, y);
    }
    if ReadsForAny(g, k, rows, y) {
      var x :| x in rows && ReadsFor(g, k, x, y);
      var o :| PassesOn(g, k, x, o) && InRange(m, o) && UpRow(m, o) == y;
      assert PassesOnAny(g, k, rows, o);
    }
  }

  lemma ReadUnion(g: Graph, k: nat, rows: seq<int>, ts: TaskStream, y: int)
    requires GraphOk(g) && k < |g.ops| && Demands(g, k, ts)
    requires forall z :: z in ts.keep <==> PassesOnAny(g, k, rows, z)
    ensures y in ts.valid <==> ReadsForAny(g, k, rows, y)
  {
    assert OpOk(g, k);
    match g.ops[k].kind
    case KernelOp(_) => KernelUnion(g, k, rows, ts, y);
    case Builtin(_) => BuiltinUnion(g, k, rows, ts, y);
    case Sink =>
      assert PassesOnAny(g, k, rows, y) <==> ReadsForAny(g, k, rows, y) by {
        assert forall x :: PassesOn(g, k, x, y) <==> ReadsFor(g, k, x, y);
      }
    case _ =>
  }

  /** Demand analysis of a task asks every op to pass on the rows that some output row of the task needs,
  and no others. */
  lemma {:induction false} KeepUnion(g: Graph, rows: seq<int>, streams: seq<TaskStream>, sources: seq<seq<int>>, j: nat,
                                     z: int)
    requires GraphOk(g) && Derived(g, rows, streams, sources) && j < |g.ops|
    ensures z in streams[j].keep <==> PassesOnAny(g, j, rows, z)
    decreases |g.ops| - j, 0
  {
    if j < |g.ops| - 1 {
      assert KeepsWanted(g, streams, j);
      if z in streams[j].keep {
        assert Wanted(g, streams, j + 1, j, z);
        var k, i :| j + 1 <= k && Reads(g, streams, k, i, j, z);
        ValidUnion(g, rows, streams, sources, k, z);
        var x :| x in rows && ReadsFor(g, k, x, z);
        assert Edge(g, j, k, i);
        assert PassesOn(g, j, x, z);
      }
      if PassesOnAny(g, j, rows, z) {
        var x :| x in rows && PassesOn(g, j, x, z);
        var k, i :| j < k && Edge(g, j, k, i) && ReadsFor(g, k, x, z);
        ValidUnion(g, rows, streams, sources, k, z);
        assert Reads(g, streams, k, i, j, z);
        assert Wanted(g, streams, j + 1, j, z);
      }
    } else {
      assert z in rows <==> PassesOnAny(g, j, rows, z) by {
        if z in rows { assert PassesOn(g, j, z, z); }
      }
    }
  }

  /** And every op reads the rows that some output row of the task makes it read. */
  lemma {:induction false} ValidUnion(g: Graph, rows: seq<int>, streams: seq<TaskStream>, sources: seq<seq<int>>,
                                      k: nat, y: int)
    requires GraphOk(g) && Derived(g, rows, streams, sources) && k < |g.ops|
    ensures y in streams[k].valid <==> ReadsForAny(g, k, rows, y)
    decreases |g.ops| - k, 1
  {
    assert Demands(g, k, streams[k]);
    forall z ensures z in streams[k].keep <==> PassesOnAny(g, k, rows, z) {
      KeepUnion(g, rows, streams, sources, k, z);
    }
    ReadUnion(g, k, rows, streams[k], y);
  }

  // ---- What a task brings to the sink ------------------------------------------------------

  /** Op `k` shares column `c` with the sink. All columns of an op are passed on together; source columns
  are loaded one by one. */
  ghost predicate Shares(g: Graph, c: ColRef, k: int, i: int) {
    0 <= k < |g.ops| - 1 && Edge(g, c.op, k, i) && (c.op == 0 ==> g.ops[k].inputs[i] == c)
  }

  /** Output row `x` makes an op other than the sink read row `y` of the sink's `i`-th column. */
  ghost predicate SharedFor(g: Graph, i: nat, x: int, y: int)
    requires GraphOk(g) && i < SinkWidth(g)
  {
    exists k, i' :: Shares(g, SinkInput(g, i), k, i') && ReadsFor(g, k, x, y)
  }

  /** Output row `x` brings row `y` of its `i`-th column to the sink. */
  ghost predicate Brings(g: Graph, i: nat, x: int, y: int)
    requires GraphOk(g) && i < SinkWidth(g)
  {
    y == x || SharedFor(g, i, x, y)
  }

  ghost predicate BringsAny(g: Graph, i: nat, rows: seq<int>, y: int)
    requires GraphOk(g) && i < SinkWidth(g)
  {
    exists x :: x in rows && Brings(g, i, x, y)
  }

  lemma SinkRowsUnion(g: Graph, rows: seq<int>, streams: seq<TaskStream>, sources: seq<seq<int>>, i: nat, y: int)
    requires GraphOk(g) && Derived(g, rows, streams, sources) && i < SinkWidth(g)
    ensures y in SinkRows(g, streams, sources, i) <==> BringsAny(g, i, rows, y)
  {
    var c := SinkInput(g, i);
    SinkRowsAre(g, rows, streams, sources, i, y);
    if y in rows { assert Brings(g, i, y, y); }
    if k, i' :| k < |g.ops| - 1 && SharedRead(g, streams, c, k, i', y) {
      ValidUnion(g, rows, streams, sources, k, y);
      var x :| x in rows && ReadsFor(g, k, x, y);
      assert Shares(g, c, k, i');
      assert Brings(g, i, x, y);
    }
    if BringsAny(g, i, rows, y) {
      var x :| x in rows && Brings(g, i, x, y);
      if x != y {
        var k, i' :| Shares(g, c, k, i') && ReadsFor(g, k, x, y);
        ValidUnion(g, rows, streams, sources, k, y);
        assert SharedRead(g, streams, c, k, i', y);
      }
    }
  }

  // ---- Rows exist --------------------------------------------------------------------------

  /** A row that is read for the sake of an output row lies in the stream it is read from. */
  lemma {:induction false} ReadInStream(g: Graph, k: nat, i: nat, x: int, y: int)
    requires GraphOk(g) && OutputRows(g, [x]) && k < |g.ops| && i < |g.ops[k].inputs| && ReadsFor(g, k, x, y)
    ensures g.ops[k].inputs[i].op < k && InStream(g, g.ops[k].inputs[i].op, y)
    decreases |g.ops| - k, 1
  {
    assert OpOk(g, k) && EdgeOk(g, k, g.ops[k].inputs[i]);
    match g.ops[k].kind
    case KernelOp(_) =>
    case Builtin(m) =>
      var o :| PassesOn(g, k, x, o) && InRange(m, o) && UpRow(m, o) == y;
      PassedInStream(g, k, x, o);
      assert MapFits(g, k, o);
      UpNonNegative(m, o);
    case Sink => assert x in [x];
    case _ =>
  }

  lemma {:induction false} PassedInStream(g: Graph, j: nat, x: int, z: int)
    requires GraphOk(g) && OutputRows(g, [x]) && j < |g.ops| - 1 && PassesOn(g, j, x, z)
    ensures InStream(g, j, z)
    decreases |g.ops| - j, 0
  {
    var k, i :| j < k && Edge(g, j, k, i) && ReadsFor(g, k, x, z);
    ReadInStream(g, k, i, x, z);
  }

  ghost function StreamEnd(g: Graph, k: nat): int
    requires k < |g.ops| == |g.rows|
  {
    if IsUnslice(g.ops[k]) then g.ops[k].kind.rowMap.offset + g.ops[k].kind.rowMap.count else g.rows[k]
  }

  lemma BroughtInStream(g: Graph, i: nat, x: int, y: int)
    requires GraphOk(g) && i < SinkWidth(g) && OutputRows(g, [x]) && Brings(g, i, x, y)
    ensures SinkInput(g, i).op < |g.ops| && 0 <= y < StreamEnd(g, SinkInput(g, i).op)
  {
    var n, c := |g.ops|, SinkInput(g, i);
    assert OpOk(g, n - 1) && EdgeOk(g, n - 1, c) && OpOk(g, c.op);
    if y == x {
      assert ReadsFor(g, n - 1, x, y);
      ReadInStream(g, n - 1, i, x, y);
    } else {
      var k, i' :| Shares(g, c, k, i') && ReadsFor(g, k, x, y);
      ReadInStream(g, k, i', x, y);
    }
  }

  // ---- The rows of a task ------------------------------------------------------------------

  /** The rows below `n` with a property, in order. */
  ghost function Select(n: int, p: int -> bool): seq<int>
    decreases if n < 0 then 0 else n
  {
    if n <= 0 then [] else Select(n - 1, p) + if p(n - 1) then [n - 1] else []
  }

  lemma {:induction false} SelectRows(n: int, p: int -> bool)
    ensures Ascending(Select(n, p))
    ensures forall y :: y in Select(n, p) <==> 0 <= y < n && p(y)
    decreases if n < 0 then 0 else n
  {
    if n > 0 {
      SelectRows(n - 1, p);
      var s := Select(n - 1, p);
      forall i | 0 <= i < |s| ensures s[i] < n - 1 { assert s[i] in Select(n - 1, p); }
    }
  }

  /** The rows of its `i`-th column that a task with the given output rows brings to the sink. */
  ghost function SinkPart(g: Graph, i: nat, rows: seq<int>): seq<int>
    requires GraphOk(g) && i < SinkWidth(g)
  {
    var c := SinkInput(g, i);
    assert OpOk(g, |g.ops| - 1) && EdgeOk(g, |g.ops| - 1, c);
    Select(StreamEnd(g, c.op), y => BringsAny(g, i, rows, y))
  }

  ghost predicate TaskRows(g: Graph, rows: seq<int>)
    requires GraphOk(g)
  {
    Ascending(rows) && OutputRows(g, rows)
  }

  lemma BroughtBelow(g: Graph, i: nat, rows: seq<int>, y: int)
    requires GraphOk(g) && i < SinkWidth(g) && TaskRows(g, rows) && BringsAny(g, i, rows, y)
    ensures SinkInput(g, i).op < |g.ops| && 0 <= y < StreamEnd(g, SinkInput(g, i).op)
  {
    var x :| x in rows && Brings(g, i, x, y);
    assert OutputRows(g, [x]);
    BroughtInStream(g, i, x, y);
  }

  lemma SinkPartHas(g: Graph, i: nat, rows: seq<int>, y: int)
    requires GraphOk(g) && i < SinkWidth(g) && TaskRows(g, rows)
    ensures y in SinkPart(g, i, rows) <==> BringsAny(g, i, rows, y)
  {
    var c := SinkInput(g, i);
    assert OpOk(g, |g.ops| - 1) && EdgeOk(g, |g.ops| - 1, c);
    SelectRows(StreamEnd(g, c.op), z => BringsAny(g, i, rows, z));
    if BringsAny(g, i, rows, y) { BroughtBelow(g, i, rows, y); }
  }

  lemma SinkPartAscends(g: Graph, i: nat, rows: seq<int>)
    requires GraphOk(g) && i < SinkWidth(g)
    ensures Ascending(SinkPart(g, i, rows))
  {
    var c := SinkInput(g, i);
    assert OpOk(g, |g.ops| - 1) && EdgeOk(g, |g.ops| - 1, c);
    SelectRows(StreamEnd(g, c.op), z => BringsAny(g, i, rows, z));
  }

  lemma SinkPartRows(g: Graph, i: nat, rows: seq<int>)
    requires GraphOk(g) && i < SinkWidth(g) && TaskRows(g, rows)
    ensures Ascending(SinkPart(g, i, rows)) && Within(rows, SinkPart(g, i, rows))
    ensures forall y :: y in SinkPart(g, i, rows) <==> BringsAny(g, i, rows, y)
  {
    SinkPartAscends(g, i, rows);
    forall y ensures y in SinkPart(g, i, rows) <==> BringsAny(g, i, rows, y) { SinkPartHas(g, i, rows, y); }
    forall x | x in rows ensures BringsAny(g, i, rows, x) { assert Brings(g, i, x, x); }
  }

  /** What demand analysis lets through to the sink is told by the graph and the task's rows alone. */
  lemma SinkPartIs(g: Graph, rows: seq<int>, streams: seq<TaskStream>, sources: seq<seq<int>>, i: nat)
    requires GraphOk(g) && TaskRows(g, rows) && Derived(g, rows, streams, sources) && i < SinkWidth(g)
    ensures SinkRows(g, streams, sources, i) == SinkPart(g, i, rows)
  {
    SinkPartRows(g, i, rows);
    SinkRowsAscend(g, rows, streams, sources, i);
    forall y ensures y in SinkRows(g, streams, sources, i) <==> y in SinkPart(g, i, rows) {
      SinkRowsUnion(g, rows, streams, sources, i, y);
    }
    SameRows(SinkRows(g, streams, sources, i), SinkPart(g, i, rows));
  }
}
