/** Evaluating only the rows that demand analysis asks for gives, at those rows, what evaluating
every stream in full gives. */
module SparseDense {
  import opened Rows
  import opened Samplers
  import opened Streams
  import opened Evaluator
  import opened Dag
  import opened Demand

  // ---- Stencils and the edge of the domain -------------------------------------------------

  /** The analysis drops rows outside the domain while the evaluator clamps them to it. For a
  compute row `c` alone, every window row that the evaluator reads has been requested. */
  ghost predicate EdgeCovered(stencil: seq<int>, c: int, max: int) {
    forall s | s in stencil :: InWindow(stencil, [c], max, WindowRow(c, s, max))
  }

  /** Ascending without gaps, around 0. */
  ghost predicate GapFree(s: seq<int>) {
    |s| > 0 && s[0] <= 0 <= s[|s| - 1] && s == Interval(s[0], s[|s| - 1] + 1)
  }

  lemma {:induction false} FillUp(stencil: seq<int>, s: int, t: int)
    requires forall x | x in stencil && x < 0 :: x + 1 in stencil
    requires s in stencil && s <= t <= 0
    ensures t in stencil
    decreases t - s
  {
    if s < t { FillUp(stencil, s + 1, t); }
  }

  lemma {:induction false} FillDown(stencil: seq<int>, s: int, t: int)
    requires forall x | x in stencil && x > 0 :: x - 1 in stencil
    requires s in stencil && 0 <= t <= s
    ensures t in stencil
    decreases s - t
  {
    if t < s { FillDown(stencil, s - 1, t); }
  }

  lemma NeighbourAbove(stencil: seq<int>, x: int)
    requires x in stencil && x < 0 && EdgeCovered(stencil, -x - 1, -x)
    ensures x + 1 in stencil
  {
    assert InWindow(stencil, [-x - 1], -x, WindowRow(-x - 1, x, -x));
    var c, s :| c in [-x - 1] && s in stencil && 0 == c + s;
    assert s == x + 1;
  }

  lemma NeighbourBelow(stencil: seq<int>, x: int)
    requires x in stencil && x > 0 && EdgeCovered(stencil, 0, x)
    ensures x - 1 in stencil
  {
    assert InWindow(stencil, [0], x, WindowRow(0, x, x));
    var c, s :| c in [0] && s in stencil && x - 1 == c + s;
  }

  /** A stencil in ascending order works at the edges of every domain exactly when it has no gaps
  and contains 0. */
  lemma StencilCoverage(stencil: seq<int>)
    requires stencil != [] && Ascending(stencil)
    ensures (forall c, max | 0 <= c < max :: EdgeCovered(stencil, c, max)) <==> GapFree(stencil)
  {
    var lo, hi := stencil[0], stencil[|stencil| - 1];
    if forall c, max | 0 <= c < max :: EdgeCovered(stencil, c, max) {
      forall x | x in stencil && x < 0 ensures x + 1 in stencil { NeighbourAbove(stencil, x); }
      forall x | x in stencil && x > 0 ensures x - 1 in stencil { NeighbourBelow(stencil, x); }
      if lo <= 0 { FillUp(stencil, lo, 0); } else { FillDown(stencil, lo, 0); }
      assert 0 in stencil;
      forall x ensures x in stencil <==> x in Interval(lo, hi + 1) {
        if lo <= x <= 0 { FillUp(stencil, lo, x); }
        if 0 <= x <= hi { FillDown(stencil, hi, x); }
      }
      SameRows(stencil, Interval(lo, hi + 1));
    }
    if GapFree(stencil) {
      forall c, max | 0 <= c < max ensures EdgeCovered(stencil, c, max) {
        forall s | s in stencil ensures InWindow(stencil, [c], max, WindowRow(c, s, max)) {
          GapFreeWindow(stencil, [c], max, c, s);
        }
      }
    }
  }

  /** With stencil 0, 2 and two rows, row 0 reads row 1 in place of row 2, which nobody asked for. */
  lemma GapNotCovered()
    ensures !EdgeCovered([0, 2], 0, 2)
  {
    var stencil := [0, 2];
    assert stencil[1] == 2 && WindowRow(0, 2, 2) == 1;
    assert forall s | s in stencil :: s == 0 || s == 2;
    assert !InWindow(stencil, [0], 2, WindowRow(0, 2, 2));
  }

  lemma GapFreeWindow(stencil: seq<int>, compute: seq<int>, max: int, c: int, s: int)
    requires GapFree(stencil) && c in compute && 0 <= c < max && s in stencil
    ensures InWindow(stencil, compute, max, WindowRow(c, s, max))
  {
    var w := WindowRow(c, s, max);
    var s' := w - c;
    assert s' in Interval(stencil[0], stencil[|stencil| - 1] + 1);
    assert c in compute && s' in stencil && w == c + s';
  }

  // ---- TaskStreams fit the evaluator -------------------------------------------------------

  lemma ComputeInDomain(g: Graph, k: nat, ts: TaskStream, c: int)
    requires GraphOk(g) && k < |g.ops| && g.ops[k].kind.KernelOp? && Demands(g, k, ts)
    requires forall x | x in ts.keep :: InStream(g, k, x)
    requires c in ts.compute
    ensures OpOk(g, k) && 0 <= c < InputDomain(g, k)
  {
    assert OpOk(g, k);
    assert Needed(g.ops[k].kind.kernel.memory, ts.keep, c);
  }

  /** A kernel receives the rows it computes and every row that the evaluator reads for them. */
  ghost predicate Served(g: Graph, k: nat, ts: TaskStream)
    requires GraphOk(g) && k < |g.ops|
  {
    assert OpOk(g, k);
    g.ops[k].kind.KernelOp? ==>
      && Within(ts.compute, ts.valid)
      && forall c, s {:trigger WindowRow(c, s, InputDomain(g, k))} |
           c in ts.compute && s in g.ops[k].kind.kernel.stencil :: WindowRow(c, s, InputDomain(g, k)) in ts.valid
  }

  ghost predicate AllServed(g: Graph, streams: seq<TaskStream>)
    requires GraphOk(g) && |streams| == |g.ops|
  {
    forall k {:trigger Served(g, k, streams[k])} | 0 <= k < |g.ops| :: Served(g, k, streams[k])
  }

  /** A stencil without gaps is served in every task. */
  lemma GapFreeServed(g: Graph, k: nat, ts: TaskStream)
    requires GraphOk(g) && k < |g.ops| && Demands(g, k, ts)
    requires forall x | x in ts.keep :: InStream(g, k, x)
    requires g.ops[k].kind.KernelOp? ==> GapFree(g.ops[k].kind.kernel.stencil)
    ensures Served(g, k, ts)
  {
    assert OpOk(g, k);
    if g.ops[k].kind.KernelOp? {
      var stencil, max := g.ops[k].kind.kernel.stencil, InputDomain(g, k);
      forall c | c in ts.compute ensures c in ts.valid {
        ComputeInDomain(g, k, ts, c);
        assert 0 in Interval(stencil[0], stencil[|stencil| - 1] + 1);
        GapFreeWindow(stencil, ts.compute, max, c, 0);
      }
      forall c, s | c in ts.compute && s in stencil ensures WindowRow(c, s, max) in ts.valid {
        ComputeInDomain(g, k, ts, c);
        GapFreeWindow(stencil, ts.compute, max, c, s);
      }
    }
  }

  lemma KernelInputOk(g: Graph, k: nat, ts: TaskStream)
    requires GraphOk(g) && k < |g.ops| && g.ops[k].kind.KernelOp? && Demands(g, k, ts)
    requires Served(g, k, ts)
    ensures OpOk(g, k) && InputOk(g.ops[k].kind.kernel.stencil, InputDomain(g, k), ts.valid, ts.compute)
  {
    assert OpOk(g, k);
    var stencil, max := g.ops[k].kind.kernel.stencil, InputDomain(g, k);
    SortedAscends(ts.valid);
    SortedAscends(ts.compute);
    forall v | v in ts.valid ensures InDomain(v, max) {
      assert InWindow(stencil, ts.compute, max, v);
    }
  }

  lemma BuiltinInputOk(g: Graph, k: nat, ts: TaskStream)
    requires GraphOk(g) && k < |g.ops| && g.ops[k].kind.Builtin? && Demands(g, k, ts)
    requires forall x | x in ts.keep :: InStream(g, k, x)
    ensures OpOk(g, k) && InputOk([0], InputDomain(g, k), ts.valid, ts.compute)
    ensures forall v | v in ts.valid :: DownOf(g.ops[k].kind.rowMap, v) != []
  {
    assert OpOk(g, k);
    var m, max := g.ops[k].kind.rowMap, InputDomain(g, k);
    SortedAscends(ts.valid);
    forall v | v in ts.valid ensures InDomain(v, max) && DownOf(m, v) != [] {
      UpRowsExact(m, ts.keep, v);
      var o :| o in ts.keep && UpRow(m, o) == v;
      assert MapFits(g, k, o);
      UpNonNegative(m, o);
      DownOfExact(m, v, o);
    }
    forall c, s | c in ts.compute && s in [0] ensures WindowRow(c, s, max) in ts.valid {
      assert InDomain(c, max);
    }
  }

  /** The rows an op has to pass on arise from the rows it computes. */
  lemma KeepCovered(g: Graph, k: nat, ts: TaskStream, cols: seq<Contents>, d: int)
    requires GraphOk(g) && k < |g.ops| && IsAction(g.ops[k]) && Demands(g, k, ts) && |cols| > 0
    requires forall x | x in ts.keep :: InStream(g, k, x)
    requires d in ts.keep
    ensures OpOk(g, k) && Covers(MachineOf(ActionOf(g.ops[k]), cols, InputDomain(g, k)), ts.compute, d)
  {
    assert OpOk(g, k);
    if g.ops[k].kind.KernelOp? {
      assert NeededFor(g.ops[k].kind.kernel.memory, d, d);
    } else {
      UpRowsExact(g.ops[k].kind.rowMap, ts.keep, UpRow(g.ops[k].kind.rowMap, d));
    }
  }

  /** Every TaskStream that the analysis derives is one the evaluator can run. */
  lemma StreamTaskOk(g: Graph, k: nat, ts: TaskStream, cols: seq<Contents>)
    requires GraphOk(g) && k < |g.ops| && IsAction(g.ops[k]) && Demands(g, k, ts) && |cols| > 0
    requires Served(g, k, ts) && forall x | x in ts.keep :: InStream(g, k, x)
    ensures OpOk(g, k)
    ensures TaskOk(ActionOf(g.ops[k]), InputDomain(g, k), ts.valid, ts.compute, ts.keep,
                   MachineOf(ActionOf(g.ops[k]), cols, InputDomain(g, k)))
  {
    assert OpOk(g, k);
    var a, max := ActionOf(g.ops[k]), InputDomain(g, k);
    var m := MachineOf(a, cols, max);
    MachineLawful(a, cols, max);
    forall d | d in ts.keep ensures Covers(m, ts.compute, d) { KeepCovered(g, k, ts, cols, d); }
    KeptRows(m, ts.compute, ts.keep);
    if g.ops[k].kind.KernelOp? { KernelInputOk(g, k, ts); } else { BuiltinInputOk(g, k, ts); }
  }

  // ---- State and warmup --------------------------------------------------------------------

  lemma Adjacent(s: seq<int>, q: nat, p: nat)
    requires Ascending(s) && q < |s| && p < |s| && s[p] == s[q] + 1
    ensures p == q + 1
  {
    assert q < p <==> s[q] < s[p];
    assert q + 1 < |s| && s[q] < s[q + 1];
  }

  /** Compute rows hold the whole stretch of rows that an output row remembers. */
  lemma {:induction false} Consecutive(compute: seq<int>, memory: Memory, keep: seq<int>, j: nat, i: nat)
    requires Ascending(compute) && j < |compute| && compute[j] in keep
    requires forall x :: x in compute <==> Needed(memory, keep, x)
    requires i <= compute[j] && (memory.Bounded? ==> i <= memory.warmup)
    ensures i <= j && compute[j - i] == compute[j] - i
  {
    if i > 0 {
      Consecutive(compute, memory, keep, j, i - 1);
      var x := compute[j] - i;
      assert NeededFor(memory, x, compute[j]);
      assert x in compute;
      var q :| 0 <= q < |compute| && compute[q] == x;
      Adjacent(compute, q, j - (i - 1));
    }
  }

  /** A run from row 0 is the dense run. */
  lemma {:induction false} FromStart(k: Kernel, cols: seq<Contents>, max: int, compute: seq<int>, j: nat, m: Machine)
    requires Runs(Compute(k), cols, max, m) && j <= |compute|
    requires forall i | 0 <= i < j :: compute[i] == i
    ensures StateTo(m, compute, j) == DenseState(k, cols, max, j)
  {
    if j > 0 {
      FromStart(k, cols, max, compute, j - 1, m);
      var s := StateTo(m, compute, j - 1);
      assert m.step(s, j - 1) == ActionStep(Compute(k), cols, max, s, j - 1);
    }
  }

  ghost function Windows(k: Kernel, cols: seq<Contents>, max: int, start: int, n: nat): (ws: seq<Window>)
    ensures |ws| == n
    ensures forall i | 0 <= i < n :: ws[i] == WindowAt(k.stencil, cols, max, start + i)
  {
    seq(n, i requires 0 <= i < n => WindowAt(k.stencil, cols, max, start + i))
  }

  lemma {:induction false} SparseRun(k: Kernel, cols: seq<Contents>, max: int, compute: seq<int>, from: nat, start: int,
                                     ws: seq<Window>, n: nat, m: Machine)
    requires Runs(Compute(k), cols, max, m) && n <= |ws| && from + n <= |compute|
    requires forall i | 0 <= i < |ws| :: ws[i] == WindowAt(k.stencil, cols, max, start + i)
    requires forall q | from <= q < from + n :: compute[q] == start + (q - from)
    ensures StateTo(m, compute, from + n) == RunWindows(k, StateTo(m, compute, from), start, ws, n)
  {
    if n > 0 {
      SparseRun(k, cols, max, compute, from, start, ws, n - 1, m);
      var s := StateTo(m, compute, from + n - 1);
      assert compute[from + n - 1] == start + n - 1;
      assert m.step(s, start + n - 1) == ActionStep(Compute(k), cols, max, s, start + n - 1);
    }
  }

  lemma {:induction false} DenseRun(k: Kernel, cols: seq<Contents>, max: int, start: int, ws: seq<Window>, n: nat)
    requires 0 <= start && n <= |ws|
    requires forall i | 0 <= i < |ws| :: ws[i] == WindowAt(k.stencil, cols, max, start + i)
    ensures DenseState(k, cols, max, start + n) == RunWindows(k, DenseState(k, cols, max, start), start, ws, n)
  {
    if n > 0 { DenseRun(k, cols, max, start, ws, n - 1); }
  }

  /** The element lists that row `o` produces when the kernel arrives there in state `s`. */
  ghost function OutFrom(k: Kernel, cols: seq<Contents>, max: int, s: Bytes, o: int): seq<Element> {
    k.step(s, o, WindowAt(k.stencil, cols, max, o)).1
  }

  lemma LastIsOut(k: Kernel, cols: seq<Contents>, max: int, s: Bytes, start: int, ws: seq<Window>)
    requires ws == Windows(k, cols, max, start, |ws|) && ws != []
    ensures LastOut(k, s, start, ws) ==
            OutFrom(k, cols, max, RunWindows(k, s, start, ws, |ws| - 1), start + |ws| - 1)
  {
    var n := |ws| - 1;
    assert ws[n] == WindowAt(k.stencil, cols, max, start + n);
  }

  lemma Forgotten(k: Kernel, cols: seq<Contents>, max: int, s1: Bytes, s2: Bytes, start: int, ws: seq<Window>)
    requires Forgets(k) && k.memory.Bounded?
    requires ws == Windows(k, cols, max, start, k.memory.warmup + 1)
    ensures OutFrom(k, cols, max, RunWindows(k, s1, start, ws, k.memory.warmup), start + k.memory.warmup) ==
            OutFrom(k, cols, max, RunWindows(k, s2, start, ws, k.memory.warmup), start + k.memory.warmup)
  {
    LastIsOut(k, cols, max, s1, start, ws);
    LastIsOut(k, cols, max, s2, start, ws);
  }

  /** The state in which a sparse run arrives at row `o`, after the rows right before it. */
  lemma SparseArrives(k: Kernel, cols: seq<Contents>, max: int, compute: seq<int>, j: nat, w: nat, o: int,
                      ws: seq<Window>, m: Machine)
    requires Runs(Compute(k), cols, max, m) && w <= j < |compute| && ws == Windows(k, cols, max, o - w, w + 1)
    requires forall q | j - w <= q < j :: compute[q] == o - (j - q)
    ensures StateTo(m, compute, j) == RunWindows(k, StateTo(m, compute, j - w), o - w, ws, w)
  {
    SparseRun(k, cols, max, compute, j - w, o - w, ws, w, m);
  }

  lemma DenseArrives(k: Kernel, cols: seq<Contents>, max: int, w: nat, o: int, ws: seq<Window>)
    requires w <= o && ws == Windows(k, cols, max, o - w, w + 1)
    ensures DenseState(k, cols, max, o) == RunWindows(k, DenseState(k, cols, max, o - w), o - w, ws, w)
  {
    DenseRun(k, cols, max, o - w, ws, w);
  }

  lemma WarmedUp(k: Kernel, cols: seq<Contents>, max: int, compute: seq<int>, j: nat, w: nat, o: int, m: Machine)
    requires Runs(Compute(k), cols, max, m) && Forgets(k) && k.memory == Bounded(w) && w <= j < |compute| && w <= o
    requires forall q | j - w <= q < j :: compute[q] == o - (j - q)
    ensures OutFrom(k, cols, max, StateTo(m, compute, j), o) == OutFrom(k, cols, max, DenseState(k, cols, max, o), o)
  {
    var ws := Windows(k, cols, max, o - w, w + 1);
    SparseArrives(k, cols, max, compute, j, w, o, ws, m);
    DenseArrives(k, cols, max, w, o, ws);
    Forgotten(k, cols, max, StateTo(m, compute, j - w), DenseState(k, cols, max, o - w), o - w, ws);
  }

  lemma FromRowZero(memory: Memory, compute: seq<int>, keep: seq<int>, j: nat)
    requires Ascending(compute) && j < |compute| && compute[j] in keep
    requires forall x :: x in compute <==> Needed(memory, keep, x)
    requires 0 <= compute[j] && (memory.Bounded? ==> compute[j] < memory.warmup)
    ensures compute[j] == j && forall i | 0 <= i < j :: compute[i] == i
  {
    Consecutive(compute, memory, keep, j, compute[j]);
    assert compute[0] in compute && Needed(memory, keep, compute[0]);
    forall i | 0 <= i < j ensures compute[i] == i { Consecutive(compute, memory, keep, j, j - i); }
  }

  /** At a row that is asked for, a kernel that ran over the sparse compute rows only gives the
  output of the kernel that ran over all rows. */
  lemma KernelExact(k: Kernel, cols: seq<Contents>, max: int, compute: seq<int>, keep: seq<int>, j: nat, m: Machine)
    requires Runs(Compute(k), cols, max, m) && Forgets(k) && Ascending(compute)
    requires forall x :: x in compute <==> Needed(k.memory, keep, x)
    requires j < |compute| && compute[j] in keep
    ensures OutFrom(k, cols, max, StateTo(m, compute, j), compute[j]) == DenseOut(Compute(k), cols, max, compute[j])
  {
    assert compute[j] in compute && Needed(k.memory, keep, compute[j]);
    if k.memory.Bounded? && k.memory.warmup <= compute[j] {
      Consecutive(compute, k.memory, keep, j, k.memory.warmup);
      forall q | j - k.memory.warmup <= q < j ensures compute[q] == compute[j] - (j - q) {
        Consecutive(compute, k.memory, keep, j, j - q);
      }
      WarmedUp(k, cols, max, compute, j, k.memory.warmup, compute[j], m);
    } else {
      FromRowZero(k.memory, compute, keep, j);
      FromStart(k, cols, max, compute, j, m);
    }
  }

  // ---- One op ------------------------------------------------------------------------------

  /** The rows `keep` of an action with their dense elements. */
  ghost function DenseOuts(a: Action, cols: seq<Contents>, max: int, keep: seq<int>): (l: seq<OutRow>)
    requires |cols| > 0
    ensures |l| == |keep|
    ensures forall i | 0 <= i < |keep| :: l[i] == OutRow(keep[i], DenseOut(a, cols, max, keep[i]))
  {
    seq(|keep|, i requires 0 <= i < |keep| => OutRow(keep[i], DenseOut(a, cols, max, keep[i])))
  }

  /** An output row that is asked for carries its dense elements. */
  lemma {:induction false} OutputExact(g: Graph, k: nat, ts: TaskStream, cols: seq<Contents>, n: nat, x: OutRow,
                                       m: Machine)
    requires GraphOk(g) && k < |g.ops| && IsAction(g.ops[k]) && Demands(g, k, ts) && OpOk(g, k)
    requires Runs(ActionOf(g.ops[k]), cols, InputDomain(g, k), m) && n <= |ts.compute|
    requires x in OutputsTo(m, ts.compute, n) && x.row in ts.keep
    ensures x.elems == DenseOut(ActionOf(g.ops[k]), cols, InputDomain(g, k), x.row)
  {
    var a, max := ActionOf(g.ops[k]), InputDomain(g, k);
    if x in OutputsTo(m, ts.compute, n - 1) {
      OutputExact(g, k, ts, cols, n - 1, x, m);
    } else {
      var s, r := StateTo(m, ts.compute, n - 1), ts.compute[n - 1];
      assert m.step(s, r) == ActionStep(a, cols, max, s, r);
      if a.Compute? {
        KernelExact(a.kernel, cols, max, ts.compute, ts.keep, n - 1, m);
      } else {
        RemapExact(a.rowMap, cols, max, r, x);
      }
    }
  }

  lemma RemapExact(f: RowMap, cols: seq<Contents>, max: int, r: int, x: OutRow)
    requires WellFormed(f) && |cols| > 0 && x in RemapRows(f, DownOf(f, r), cols[0](r))
    ensures x.elems == DenseOut(Remap(f), cols, max, x.row)
  {
    var ds := DownOf(f, r);
    var i :| 0 <= i < |ds| && ds[i] == x.row && x == RemapRows(f, ds, cols[0](r))[i];
    DownOfExact(f, r, ds[i]);
  }

  /** Over its TaskStream, an op hands downstream exactly the rows asked for, each with the
  elements it has in the full stream. */
  lemma OpExact(g: Graph, k: nat, ts: TaskStream, cols: seq<Contents>, m: Machine)
    requires GraphOk(g) && k < |g.ops| && IsAction(g.ops[k]) && Demands(g, k, ts) && OpOk(g, k)
    requires Runs(ActionOf(g.ops[k]), cols, InputDomain(g, k), m)
    requires RowsOf(Keep(OutputsTo(m, ts.compute, |ts.compute|), ts.keep)) == ts.keep
    ensures Keep(OutputsTo(m, ts.compute, |ts.compute|), ts.keep) ==
            DenseOuts(ActionOf(g.ops[k]), cols, InputDomain(g, k), ts.keep)
  {
    var l := OutputsTo(m, ts.compute, |ts.compute|);
    var kept := Keep(l, ts.keep);
    forall i | 0 <= i < |kept| ensures kept[i] == DenseOuts(ActionOf(g.ops[k]), cols, InputDomain(g, k), ts.keep)[i] {
      assert kept[i] in kept;
      KeepMembers(l, ts.keep, |l|, kept[i]);
      assert RowsOf(kept)[i] == kept[i].row;
      OutputExact(g, k, ts, cols, |ts.compute|, kept[i], m);
    }
  }

  // ---- The whole graph ---------------------------------------------------------------------

  /** The elements that output list `l` has at row `r`. */
  ghost function ElemsAt(l: seq<OutRow>, r: int): seq<Element> {
    if r in RowsOf(l) then l[IndexOf(RowsOf(l), r)].elems else []
  }

  /** The elements of op `k` at row `r` when every op runs over its TaskStream only: rows that were
  not read, computed or passed on are missing. */
  ghost function Sparse(g: Graph, src: seq<Contents>, streams: seq<TaskStream>, sources: seq<seq<int>>, k: nat,
                        r: int): seq<Element>
    requires k < |g.ops| && |g.rows| == |g.ops| == |streams| && |src| == |sources|
    decreases k, 2
  {
    var op := g.ops[k];
    if op.kind.Source? then
      seq(|src|, c requires 0 <= c < |src| => if r in sources[c] then src[c](r) else Null)
    else if IsAction(op) && op.inputs != [] && ActionOk(ActionOf(op)) then
      var m := MachineOf(ActionOf(op), SparseInputs(g, src, streams, sources, k), InputDomain(g, k));
      ElemsAt(Keep(OutputsTo(m, streams[k].compute, |streams[k].compute|), streams[k].keep), r)
    else []
  }

  ghost function SparseInputs(g: Graph, src: seq<Contents>, streams: seq<TaskStream>, sources: seq<seq<int>>,
                              k: nat): (cols: seq<Contents>)
    requires k < |g.ops| && |g.rows| == |g.ops| == |streams| && |src| == |sources|
    ensures |cols| == |g.ops[k].inputs|
    decreases k, 1
  {
    seq(|g.ops[k].inputs|, i requires 0 <= i < |g.ops[k].inputs| =>
      SparseColumn(g, src, streams, sources, k, g.ops[k].inputs[i]))
  }

  ghost function SparseColumn(g: Graph, src: seq<Contents>, streams: seq<TaskStream>, sources: seq<seq<int>>, k: nat,
                              c: ColRef): Contents
    requires k < |g.ops| && |g.rows| == |g.ops| == |streams| && |src| == |sources|
    decreases k, 0
  {
    (r: int) =>
      if c.op < k then ElemAt(Sparse(g, src, streams, sources, c.op, r), IndexOf(g.ops[c.op].outputs, c.name)) else Null
  }

  /** Two machines that agree on the compute rows produce the same. */
  lemma {:induction false} MachineFrame(m1: Machine, m2: Machine, rows: seq<int>, k: nat)
    requires m1.init == m2.init && k <= |rows|
    requires forall st, r | r in rows :: m1.step(st, r) == m2.step(st, r)
    ensures StateTo(m1, rows, k) == StateTo(m2, rows, k) && OutputsTo(m1, rows, k) == OutputsTo(m2, rows, k)
  {
    if k > 0 { MachineFrame(m1, m2, rows, k - 1); }
  }

  /** An op looks at the rows of its TaskStream only. */
  lemma StepFrame(g: Graph, k: nat, ts: TaskStream, cols1: seq<Contents>, cols2: seq<Contents>, st: Bytes, r: int)
    requires GraphOk(g) && k < |g.ops| && IsAction(g.ops[k]) && OpOk(g, k) && |cols1| == |cols2| > 0
    requires InputOk(Stencil(ActionOf(g.ops[k])), InputDomain(g, k), ts.valid, ts.compute)
    requires forall i, x | 0 <= i < |cols1| && x in ts.valid :: cols1[i](x) == cols2[i](x)
    requires r in ts.compute
    ensures ActionStep(ActionOf(g.ops[k]), cols1, InputDomain(g, k), st, r) ==
            ActionStep(ActionOf(g.ops[k]), cols2, InputDomain(g, k), st, r)
  {
    var a, max := ActionOf(g.ops[k]), InputDomain(g, k);
    if a.Compute? {
      var w1, w2 := WindowAt(a.kernel.stencil, cols1, max, r), WindowAt(a.kernel.stencil, cols2, max, r);
      forall i | 0 <= i < |cols1| ensures w1[i] == w2[i] {
        forall j | 0 <= j < |a.kernel.stencil| ensures w1[i][j] == w2[i][j] {
          assert WindowRow(r, a.kernel.stencil[j], max) in ts.valid;
        }
      }
      assert w1 == w2;
    } else {
      assert r in ts.valid;
    }
  }

  /** A row that op `k` reads is one its parent passes on. */
  lemma ReadRowProvided(g: Graph, requested: seq<int>, streams: seq<TaskStream>, sources: seq<seq<int>>, k: nat, i: nat,
                        x: int)
    requires GraphOk(g) && Derived(g, requested, streams, sources) && k < |g.ops| && i < |g.ops[k].inputs|
    requires x in streams[k].valid
    ensures OpOk(g, k) && EdgeOk(g, k, g.ops[k].inputs[i]) && x in streams[g.ops[k].inputs[i].op].keep
    ensures g.ops[k].inputs[i].op == 0 ==> x in sources[IndexOf(g.ops[0].outputs, g.ops[k].inputs[i].name)]
  {
    assert OpOk(g, k) && EdgeOk(g, k, g.ops[k].inputs[i]);
    var c := g.ops[k].inputs[i];
    assert Reads(g, streams, k, i, c.op, x);
    assert KeepsWanted(g, streams, c.op) && Wanted(g, streams, c.op + 1, c.op, x);
    if c.op == 0 {
      var col := IndexOf(g.ops[0].outputs, c.name);
      assert LoadsWanted(g, streams, sources, col) && ColRef(0, g.ops[0].outputs[col]) == c;
      assert ColumnWanted(g, streams, 1, ColRef(0, g.ops[0].outputs[col]), x);
    }
  }

  /** A column read by op `k` has its full-stream element at every row that op `k` reads. */
  lemma {:induction false} ColumnExact(g: Graph, src: seq<Contents>, requested: seq<int>, streams: seq<TaskStream>,
                                       sources: seq<seq<int>>, k: nat, i: nat, x: int)
    requires GraphOk(g) && Derived(g, requested, streams, sources) && |src| == |sources| && AllServed(g, streams)
    requires k < |g.ops| && i < |g.ops[k].inputs| && x in streams[k].valid
    ensures SparseInputs(g, src, streams, sources, k)[i](x) == InputContents(g, src, k)[i](x)
    decreases k, 0
  {
    ReadRowProvided(g, requested, streams, sources, k, i, x);
    var c := g.ops[k].inputs[i];
    if c.op == 0 {
      assert OpOk(g, 0);
      var col := IndexOf(g.ops[0].outputs, c.name);
      assert Sparse(g, src, streams, sources, 0, x)[col] == src[col](x) == Dense(g, src, 0, x)[col];
    } else {
      assert OpOk(g, c.op);
      SparseMatchesDense(g, src, requested, streams, sources, c.op, x);
    }
  }

  /** Evaluating each op over the rows of its TaskStream gives, at every row it passes on, the
  elements of the fully evaluated stream. */
  lemma {:induction false} SparseMatchesDense(g: Graph, src: seq<Contents>, requested: seq<int>,
                                              streams: seq<TaskStream>, sources: seq<seq<int>>, k: nat, r: int)
    requires GraphOk(g) && Derived(g, requested, streams, sources) && |src| == |sources| && AllServed(g, streams)
    requires k < |g.ops| && IsAction(g.ops[k]) && r in streams[k].keep
    ensures Sparse(g, src, streams, sources, k, r) == Dense(g, src, k, r)
    decreases k, 1
  {
    assert OpOk(g, k);
    var a, max, ts := ActionOf(g.ops[k]), InputDomain(g, k), streams[k];
    var sparse, dense := SparseInputs(g, src, streams, sources, k), InputContents(g, src, k);
    var m1, m2 := MachineOf(a, sparse, max), MachineOf(a, dense, max);
    assert Served(g, k, ts);
    StreamTaskOk(g, k, ts, dense);
    forall i, x | 0 <= i < |sparse| && x in ts.valid ensures sparse[i](x) == dense[i](x) {
      ColumnExact(g, src, requested, streams, sources, k, i, x);
    }
    forall st, c | c in ts.compute ensures m1.step(st, c) == m2.step(st, c) {
      StepFrame(g, k, ts, sparse, dense, st, c);
    }
    MachineFrame(m1, m2, ts.compute, |ts.compute|);
    MachineLawful(a, dense, max);
    OpExact(g, k, ts, dense, m2);
    var l := DenseOuts(a, dense, max, ts.keep);
    assert RowsOf(l) == ts.keep;
  }

  /** Every row the sink is asked for is delivered with its full-stream value in every column. */
  lemma RequestedRowsExact(g: Graph, src: seq<Contents>, requested: seq<int>, streams: seq<TaskStream>,
                           sources: seq<seq<int>>, i: nat, r: int)
    requires GraphOk(g) && Derived(g, requested, streams, sources) && |src| == |sources| && AllServed(g, streams)
    requires i < |g.ops[|g.ops| - 1].inputs| && r in requested
    ensures SparseInputs(g, src, streams, sources, |g.ops| - 1)[i](r) == InputContents(g, src, |g.ops| - 1)[i](r)
  {
    assert Demands(g, |g.ops| - 1, streams[|g.ops| - 1]) && OpOk(g, |g.ops| - 1);
    ColumnExact(g, src, requested, streams, sources, |g.ops| - 1, i, r);
  }

  // ---- What the sink receives --------------------------------------------------------------

  function SinkWidth(g: Graph): nat
    requires g.ops != []
  {
    |g.ops[|g.ops| - 1].inputs|
  }

  function SinkInput(g: Graph, i: nat): ColRef
    requires g.ops != [] && i < SinkWidth(g)
  {
    g.ops[|g.ops| - 1].inputs[i]
  }

  /** The rows of the sink's `i`-th column that reach it. Nothing after the ops selects rows, so
  these are all rows that its parent passes on, or that the load of a source column brings in. */
  ghost function SinkRows(g: Graph, streams: seq<TaskStream>, sources: seq<seq<int>>, i: nat): seq<int>
    requires GraphOk(g) && |streams| == |g.ops| && |sources| == |g.ops[0].outputs| && i < SinkWidth(g)
  {
    var c := SinkInput(g, i);
    assert OpOk(g, |g.ops| - 1) && EdgeOk(g, |g.ops| - 1, c);
    if c.op == 0 then sources[IndexOf(g.ops[0].outputs, c.name)] else streams[c.op].keep
  }

  /** Op `k` shares input `c` with the sink and reads row `x` of it. All columns of an op are
  passed on together; source columns are loaded one by one. */
  ghost predicate SharedRead(g: Graph, streams: seq<TaskStream>, c: ColRef, k: int, i: int, x: int) {
    Reads(g, streams, k, i, c.op, x) && (c.op == 0 ==> g.ops[k].inputs[i] == c)
  }

  lemma SharedReadArrives(g: Graph, requested: seq<int>, streams: seq<TaskStream>, sources: seq<seq<int>>, i: nat,
                          k: nat, i': nat, x: int)
    requires GraphOk(g) && Derived(g, requested, streams, sources) && i < SinkWidth(g)
    requires SharedRead(g, streams, SinkInput(g, i), k, i', x)
    ensures x in SinkRows(g, streams, sources, i)
  {
    ReadRowProvided(g, requested, streams, sources, k, i', x);
  }

  lemma ArrivedIsRead(g: Graph, requested: seq<int>, streams: seq<TaskStream>, sources: seq<seq<int>>, i: nat, x: int)
    requires GraphOk(g) && Derived(g, requested, streams, sources) && i < SinkWidth(g)
    requires x in SinkRows(g, streams, sources, i)
    ensures exists k, i' :: SharedRead(g, streams, SinkInput(g, i), k, i', x)
  {
    var c := SinkInput(g, i);
    assert OpOk(g, |g.ops| - 1) && EdgeOk(g, |g.ops| - 1, c);
    if c.op == 0 {
      var col := IndexOf(g.ops[0].outputs, c.name);
      assert LoadsWanted(g, streams, sources, col) && ColumnWanted(g, streams, 1, ColRef(0, g.ops[0].outputs[col]), x);
      var k, i' :| 1 <= k && Reads(g, streams, k, i', 0, x) && g.ops[k].inputs[i'] == c;
      assert SharedRead(g, streams, c, k, i', x);
    } else {
      assert KeepsWanted(g, streams, c.op) && Wanted(g, streams, c.op + 1, c.op, x);
      var k, i' :| c.op + 1 <= k && Reads(g, streams, k, i', c.op, x);
      assert SharedRead(g, streams, c, k, i', x);
    }
  }

  lemma SinkReads(g: Graph, requested: seq<int>, streams: seq<TaskStream>, sources: seq<seq<int>>, i: nat, k: int,
                  i': int, x: int)
    requires GraphOk(g) && Derived(g, requested, streams, sources) && i < SinkWidth(g)
    ensures k >= |g.ops| - 1 && SharedRead(g, streams, SinkInput(g, i), k, i', x) ==> x in requested
    ensures x in requested ==> SharedRead(g, streams, SinkInput(g, i), |g.ops| - 1, i, x)
  {
    assert Demands(g, |g.ops| - 1, streams[|g.ops| - 1]) && OpOk(g, |g.ops| - 1);
  }

  lemma SinkRowsAre(g: Graph, requested: seq<int>, streams: seq<TaskStream>, sources: seq<seq<int>>, i: nat, x: int)
    requires GraphOk(g) && Derived(g, requested, streams, sources) && i < SinkWidth(g)
    ensures x in SinkRows(g, streams, sources, i) <==>
            x in requested || exists k, i' :: k < |g.ops| - 1 && SharedRead(g, streams, SinkInput(g, i), k, i', x)
  {
    if x in SinkRows(g, streams, sources, i) {
      ArrivedIsRead(g, requested, streams, sources, i, x);
      var k, i' :| SharedRead(g, streams, SinkInput(g, i), k, i', x);
      SinkReads(g, requested, streams, sources, i, k, i', x);
    }
    if x in requested {
      SinkReads(g, requested, streams, sources, i, 0, 0, x);
      SharedReadArrives(g, requested, streams, sources, i, |g.ops| - 1, i, x);
    }
    if k, i' :| k < |g.ops| - 1 && SharedRead(g, streams, SinkInput(g, i), k, i', x) {
      SharedReadArrives(g, requested, streams, sources, i, k, i', x);
    }
  }

  lemma SinkRowsAscend(g: Graph, requested: seq<int>, streams: seq<TaskStream>, sources: seq<seq<int>>, i: nat)
    requires GraphOk(g) && Derived(g, requested, streams, sources) && i < SinkWidth(g)
    ensures Ascending(SinkRows(g, streams, sources, i))
  {
    var c := SinkInput(g, i);
    assert OpOk(g, |g.ops| - 1) && EdgeOk(g, |g.ops| - 1, c);
    if c.op == 0 {
      assert LoadsWanted(g, streams, sources, IndexOf(g.ops[0].outputs, c.name));
    } else {
      assert Demands(g, c.op, streams[c.op]);
    }
  }

  /** The sink receives exactly the requested rows of a column if and only if every other op that
  shares the column reads requested rows only. */
  lemma SinkRowsExact(g: Graph, requested: seq<int>, streams: seq<TaskStream>, sources: seq<seq<int>>, i: nat)
    requires GraphOk(g) && Derived(g, requested, streams, sources) && i < SinkWidth(g)
    ensures SinkRows(g, streams, sources, i) == requested <==>
            forall k, i', x | k < |g.ops| - 1 && SharedRead(g, streams, SinkInput(g, i), k, i', x) :: x in requested
  {
    var n := |g.ops|;
    var c, rows := SinkInput(g, i), SinkRows(g, streams, sources, i);
    assert OpOk(g, n - 1) && EdgeOk(g, n - 1, c) && Demands(g, n - 1, streams[n - 1]);
    if rows == requested {
      forall k, i', x | k < n - 1 && SharedRead(g, streams, c, k, i', x) ensures x in requested {
        SinkRowsAre(g, requested, streams, sources, i, x);
      }
    }
    if forall k, i', x | k < n - 1 && SharedRead(g, streams, c, k, i', x) :: x in requested {
      forall x ensures x in rows <==> x in requested { SinkRowsAre(g, requested, streams, sources, i, x); }
      SinkRowsAscend(g, requested, streams, sources, i);
      SameRows(rows, requested);
    }
  }

  /** A source column that the sink stores next to a kernel with stencil -1, 0, 1 over it. */
  function Blur(): Graph {
    Graph(
      [ Op(Source, [], ["frame"]),
        Op(KernelOp(Kernel([], (st, r, w) => (st, [Null]), [-1, 0, 1], 1, Bounded(0))), [ColRef(0, "frame")],
           ["blurred"]),
        Op(Sink, [ColRef(1, "blurred"), ColRef(0, "frame")], []) ],
      [3, 3, 3])
  }

  lemma BlurOk()
    ensures GraphOk(Blur()) && OutputRows(Blur(), [1])
  {
    var g := Blur();
    assert g.ops[1].inputs[0] == ColRef(0, "frame") && "frame" in g.ops[0].outputs && "blurred" in g.ops[1].outputs;
    assert Interval(-1, 2) == [-1, 0, 1];
    assert EdgeOk(g, 1, g.ops[1].inputs[0]);
    assert EdgeOk(g, 2, g.ops[2].inputs[0]) && EdgeOk(g, 2, g.ops[2].inputs[1]);
    assert KernelOk(g.ops[1].kind.kernel, 1);
    assert OpOk(g, 0) && OpOk(g, 1) && OpOk(g, 2);
  }

  lemma BlurStream(ts: TaskStream)
    requires GraphOk(Blur()) && Demands(Blur(), 1, ts) && ts.keep == [1]
    ensures ts.valid == [0, 1, 2]
  {
    assert OpOk(Blur(), 1);
    forall x ensures x in ts.compute <==> x == 1 {
      assert x in ts.compute <==> Needed(Bounded(0), [1], x);
      assert NeededFor(Bounded(0), 1, 1);
    }
    forall x ensures x in ts.valid <==> x in [0, 1, 2] {
      assert x in ts.valid <==> InWindow([-1, 0, 1], ts.compute, 3, x);
      assert [-1, 0, 1][0] == -1 && [-1, 0, 1][1] == 0 && [-1, 0, 1][2] == 1;
      if 0 <= x <= 2 { assert 1 in ts.compute && x - 1 in [-1, 0, 1] && x == 1 + (x - 1); }
    }
    SameRows(ts.valid, [0, 1, 2]);
  }

  lemma BlurReads(streams: seq<TaskStream>, sources: seq<seq<int>>, k: int, i': int, x: int)
    requires GraphOk(Blur()) && Derived(Blur(), [1], streams, sources) && k < 2
    ensures !SharedRead(Blur(), streams, SinkInput(Blur(), 0), k, i', x)
    ensures SharedRead(Blur(), streams, SinkInput(Blur(), 1), k, i', x) <==> k == 1 && i' == 0 && x in streams[1].valid
  {
    assert Blur().ops[0].inputs == [] && |Blur().ops[1].inputs| == 1;
  }

  /** Asked for row 1 only, the sink gets row 1 of the kernel's column but rows 0, 1 and 2 of the
  source column. */
  lemma SinkReceivesMore(streams: seq<TaskStream>, sources: seq<seq<int>>)
    requires GraphOk(Blur()) && Derived(Blur(), [1], streams, sources)
    ensures SinkRows(Blur(), streams, sources, 0) == [1] && SinkRows(Blur(), streams, sources, 1) == [0, 1, 2]
  {
    var g := Blur();
    forall k, i', x | k < 2 ensures !SharedRead(g, streams, SinkInput(g, 0), k, i', x) {
      BlurReads(streams, sources, k, i', x);
    }
    SinkRowsExact(g, [1], streams, sources, 0);
    assert SinkRows(g, streams, sources, 0) == streams[1].keep;
    assert Demands(g, 1, streams[1]);
    BlurStream(streams[1]);
    var rows := SinkRows(g, streams, sources, 1);
    forall x ensures x in rows <==> x in [0, 1, 2] {
      SinkRowsAre(g, [1], streams, sources, 1, x);
      BlurReads(streams, sources, 1, 0, x);
      forall k, i' | k < 2 && SharedRead(g, streams, SinkInput(g, 1), k, i', x) ensures x in [0, 1, 2] {
        BlurReads(streams, sources, k, i', x);
      }
    }
    assert OpOk(g, 2) && "frame" in g.ops[0].outputs && IndexOf(g.ops[0].outputs, "frame") == 0;
    SinkRowsAscend(g, [1], streams, sources, 1);
    SameRows(rows, [0, 1, 2]);
  }
}
