/** The streaming evaluator of one op (`EvaluateWorker::feed`, the body of its loop over ops).

Input columns arrive in packets, each column at its own pace. Elements wait in a cache until
every row of their stencil window has arrived, compute rows are executed in batches, outputs
nobody asked for are dropped, and cache entries no later row needs are evicted. */
module Evaluator {
  import opened Rows
  import opened Samplers
  import opened Streams

  /** A packet of one column. */
  datatype Column = Column(rows: seq<int>, elems: seq<Element>)

  /** State of one op within a task: its TaskStream, its cursors and its element cache. */
  datatype OpState = OpState(
    valid: seq<int>,               // valid_input_rows_
    compute: seq<int>,             // compute_rows_
    keep: seq<int>,                // valid_output_rows_
    inputIdx: seq<nat>,            // current_valid_input_idx_, per input column
    computeIdx: nat,               // current_compute_idx_
    outputIdx: nat,                // current_valid_output_idx_
    cacheIdx: nat,                 // current_element_cache_input_idx_
    cacheRows: seq<seq<int>>,      // element_cache_row_ids_, per input column
    cache: seq<seq<Element>>,      // element_cache_, per input column
    kernel: Bytes)                 // private state of the kernel

  /** `new_task`, for one op with `columns` inputs. */
  function NewTask(a: Action, valid: seq<int>, compute: seq<int>, keep: seq<int>, columns: nat): OpState {
    OpState(valid, compute, keep, seq(columns, _ => 0), 0, 0, 0,
            seq(columns, _ => []), seq(columns, _ => []), Initial(a))
  }

  // ---- Specification -----------------------------------------------------------------------

  ghost predicate InDomain(r: int, max: int) {
    0 <= r < max
  }

  /** The row that stencil entry `s` reads for compute row `c`. */
  ghost function WindowRow(c: int, s: int, max: int): int {
    Clamp(c + s, max)
  }

  /** The rows an op receives, and the rows it computes in their order. */
  ghost predicate InputOk(stencil: seq<int>, max: int, valid: seq<int>, compute: seq<int>) {
    && Sorted(valid) && Sorted(compute) && Within(compute, valid)
    && StencilBounds(stencil)
    && (forall v {:trigger InDomain(v, max)} | v in valid :: InDomain(v, max))
    && (forall c, s {:trigger WindowRow(c, s, max)} | c in compute && s in stencil :: WindowRow(c, s, max) in valid)
  }

  /** Among everything the op produces are the rows asked for, in the order asked. */
  ghost predicate Promises(m: Machine, compute: seq<int>, keep: seq<int>) {
    RowsOf(Keep(OutputsTo(m, compute, |compute|), keep)) == keep
  }

  /** What demand analysis guarantees about a TaskStream. */
  ghost predicate TaskOk(a: Action, max: int, valid: seq<int>, compute: seq<int>, keep: seq<int>, m: Machine) {
    && ActionOk(a)
    && InputOk(Stencil(a), max, valid, compute)
    && (a.Compute? ==> a.kernel.batch >= 1)
    && (a.Remap? ==> compute == valid)
    && (a.Remap? ==> forall v {:trigger DownOf(a.rowMap, v)} | v in valid :: DownOf(a.rowMap, v) != [])
    && Promises(m, compute, keep)
  }

  function Values(c: Contents, rows: seq<int>): (es: seq<Element>)
    ensures |es| == |rows|
    ensures forall k | 0 <= k < |rows| :: es[k] == c(rows[k])
  {
    seq(|rows|, k requires 0 <= k < |rows| => c(rows[k]))
  }

  /** Column `i` holds the valid rows from position `p` up to what it has received. */
  ghost predicate ColumnCached(st: OpState, cols: seq<Contents>, p: int, i: nat) {
    && i < |st.inputIdx| && i < |st.cacheRows| && i < |st.cache| && i < |cols|
    && 0 <= p <= st.inputIdx[i] <= |st.valid|
    && st.cacheRows[i] == st.valid[p..st.inputIdx[i]]
    && st.cache[i] == Values(cols[i], st.cacheRows[i])
  }

  /** All columns start at the same row. */
  ghost predicate Cached(st: OpState, cols: seq<Contents>, p: int) {
    && |st.inputIdx| == |st.cacheRows| == |st.cache| == |cols| > 0
    && forall i | 0 <= i < |cols| :: ColumnCached(st, cols, p, i)
  }

  /** Every column has received at least `e` rows. */
  ghost predicate Reached(st: OpState, e: nat) {
    forall i | 0 <= i < |st.inputIdx| :: e <= st.inputIdx[i]
  }

  ghost predicate AllReceived(st: OpState) {
    forall i | 0 <= i < |st.inputIdx| :: st.inputIdx[i] == |st.valid|
  }

  /** With `e` rows computed and `p` rows evicted: no evicted row is needed any more. */
  ghost predicate Retained(a: Action, max: int, valid: seq<int>, compute: seq<int>, e: nat, p: int)
    requires |Stencil(a)| > 0
  {
    && (|valid| > 0 ==> p < |valid|)
    && (e < |compute| && 0 < p <= |valid| ==> valid[p - 1] < WindowRow(compute[e], Stencil(a)[0], max))
    && (a.Remap? && e < |valid| ==> p == e)
  }

  /** What the op has handed downstream so far. */
  ghost function Emitted(m: Machine, st: OpState): seq<OutRow>
    requires st.cacheIdx <= |st.compute|
  {
    Keep(OutputsTo(m, st.compute, st.cacheIdx), st.keep)
  }

  ghost predicate Executed(m: Machine, st: OpState) {
    && st.cacheIdx <= |st.compute|
    && st.kernel == StateTo(m, st.compute, st.cacheIdx)
    && st.outputIdx == |Emitted(m, st)|
  }

  function Evicted(st: OpState): int
    requires |st.inputIdx| > 0 && |st.cacheRows| > 0
  {
    st.inputIdx[0] - |st.cacheRows[0]|
  }

  ghost predicate Loaded(a: Action, max: int, st: OpState, cols: seq<Contents>, m: Machine, p: int) {
    && TaskOk(a, max, st.valid, st.compute, st.keep, m)
    && Cached(st, cols, p) && Retained(a, max, st.valid, st.compute, st.cacheIdx, p)
    && Received(st.compute, st.valid, st.inputIdx[0], st.computeIdx)
    && st.cacheIdx <= st.computeIdx && Reached(st, st.cacheIdx)
    && Executed(m, st)
  }

  /** The invariant that every packet keeps. `cols` are the full contents of the input columns. */
  ghost predicate Consistent(a: Action, max: int, st: OpState, cols: seq<Contents>, m: Machine) {
    && |st.inputIdx| > 0 && |st.cacheRows| > 0
    && Loaded(a, max, st, cols, m, Evicted(st))
    && (AllReceived(st) ==> st.cacheIdx == |st.compute|)
  }

  /** The next packet of a column whose whole content is the rows `full`, `pos` of them already
  delivered. */
  ghost predicate Delivers(col: Column, c: Contents, full: seq<int>, pos: nat) {
    && pos + |col.rows| <= |full|
    && col.rows == full[pos..pos + |col.rows|]
    && col.elems == Values(c, col.rows)
  }

  /** An input column that has received `idx` of its valid rows and now gets the packet `col`. */
  ghost predicate Expects(valid: seq<int>, idx: nat, col: Column, c: Contents, full: seq<int>, pos: nat) {
    && Sorted(full) && Within(valid, full)
    && Delivers(col, c, full, pos) && Received(valid, full, pos, idx)
  }

  ghost predicate SameTask(st: OpState, st': OpState) {
    st'.valid == st.valid && st'.compute == st.compute && st'.keep == st.keep
  }

  // ---- Receiving input ---------------------------------------------------------------------

  lemma ValuesConcat(c: Contents, r1: seq<int>, r2: seq<int>)
    ensures Values(c, r1 + r2) == Values(c, r1) + Values(c, r2)
  {
  }

  /** Row `a` of `full` arrives when `n` valid rows have been received: it is the next valid row
  or no valid row, and no valid row has been skipped. */
  ghost predicate Arrives(valid: seq<int>, full: seq<int>, a: nat, n: nat) {
    Received(valid, full, a, n) && a < |full| ==>
      && (n < |valid| ==> full[a] <= valid[n])
      && Received(valid, full, a + 1, if n < |valid| && full[a] == valid[n] then n + 1 else n)
  }

  lemma ArrivesAt(valid: seq<int>, full: seq<int>, a: nat, n: nat)
    requires Sorted(valid) && Sorted(full) && Within(valid, full)
    ensures Arrives(valid, full, a, n)
  {
    SortedAscends(valid);
    SortedAscends(full);
    if Received(valid, full, a, n) && a < |full| { ReceiveOne(valid, full, a, n); }
  }

  lemma ArrivesAlways(valid: seq<int>, full: seq<int>)
    requires Sorted(valid) && Sorted(full) && Within(valid, full)
    ensures forall a: nat, n: nat :: Arrives(valid, full, a, n)
  {
    forall a: nat, n: nat ensures Arrives(valid, full, a, n) { ArrivesAt(valid, full, a, n); }
  }

  /** Moves the elements of one column that the op needs into the cache. The check that no
  needed row was skipped never fails. */
  method FillColumn(valid: seq<int>, idx: nat, col: Column, ghost c: Contents, ghost full: seq<int>, ghost pos: nat)
    returns (idx': nat, rows: seq<int>, elems: seq<Element>)
    requires forall a: nat, n: nat :: Arrives(valid, full, a, n)
    requires Delivers(col, c, full, pos) && Received(valid, full, pos, idx)
    ensures idx <= idx' <= |valid| && Received(valid, full, pos + |col.rows|, idx')
    ensures rows == valid[idx..idx'] && elems == Values(c, rows)
  {
    idx', rows, elems := idx, [], [];
    for r := 0 to |col.rows|
      invariant idx <= idx' <= |valid|
      invariant Received(valid, full, pos + r, idx')
      invariant |rows| == |elems| == idx' - idx
      invariant forall k | 0 <= k < |rows| :: rows[k] == valid[idx + k]
      invariant forall k | 0 <= k < |rows| :: elems[k] == c(rows[k])
    {
      assert Arrives(valid, full, pos + r, idx') && col.rows[r] == full[pos + r];
      assert idx' >= |valid| || col.rows[r] <= valid[idx'];
      if idx' < |valid| && col.rows[r] == valid[idx'] {
        rows := rows + [col.rows[r]];
        elems := elems + [col.elems[r]];
        idx' := idx' + 1;
      }
    }
  }

  lemma Spliced(valid: seq<int>, p: nat, i: nat, j: nat)
    requires p <= i <= j <= |valid|
    ensures valid[p..i] + valid[i..j] == valid[p..j]
  {
  }

  /** Appends what arrived in column `i` to its cache. */
  method FillCache(st: OpState, i: nat, col: Column, ghost cols: seq<Contents>, ghost full: seq<int>, ghost pos: nat,
                   ghost p: int)
    returns (st': OpState)
    requires Cached(st, cols, p) && Sorted(st.valid) && i < |cols|
    requires Expects(st.valid, st.inputIdx[i], col, cols[i], full, pos)
    ensures Cached(st', cols, p)
    ensures st' == st.(inputIdx := st'.inputIdx, cacheRows := st'.cacheRows, cache := st'.cache)
    ensures forall j | 0 <= j < |cols| && j != i :: st'.inputIdx[j] == st.inputIdx[j]
    ensures st.inputIdx[i] <= st'.inputIdx[i]
    ensures Received(st.valid, full, pos + |col.rows|, st'.inputIdx[i])
  {
    ArrivesAlways(st.valid, full);
    var idx, rows, elems := FillColumn(st.valid, st.inputIdx[i], col, cols[i], full, pos);
    assert ColumnCached(st, cols, p, i);
    Spliced(st.valid, p, st.inputIdx[i], idx);
    ValuesConcat(cols[i], st.cacheRows[i], rows);
    st' := st.(
      inputIdx := st.inputIdx[i := idx],
      cacheRows := st.cacheRows[i := st.cacheRows[i] + rows],
      cache := st.cache[i := st.cache[i] + elems]);
    forall j | 0 <= j < |cols| ensures ColumnCached(st', cols, p, j) {
      assert ColumnCached(st, cols, p, j);
    }
  }

  method FillCaches(st: OpState, inputs: seq<Column>, ghost cols: seq<Contents>, ghost fulls: seq<seq<int>>,
                    ghost pos: seq<nat>, ghost p: int)
    returns (st': OpState)
    requires Cached(st, cols, p) && Sorted(st.valid)
    requires |inputs| == |fulls| == |pos| == |cols|
    requires forall i | 0 <= i < |cols| :: Expects(st.valid, st.inputIdx[i], inputs[i], cols[i], fulls[i], pos[i])
    ensures Cached(st', cols, p)
    ensures st' == st.(inputIdx := st'.inputIdx, cacheRows := st'.cacheRows, cache := st'.cache)
    ensures forall i | 0 <= i < |cols| :: st.inputIdx[i] <= st'.inputIdx[i]
    ensures forall i | 0 <= i < |cols| :: Received(st.valid, fulls[i], pos[i] + |inputs[i].rows|, st'.inputIdx[i])
  {
    st' := st;
    for i := 0 to |inputs|
      invariant Cached(st', cols, p)
      invariant st' == st.(inputIdx := st'.inputIdx, cacheRows := st'.cacheRows, cache := st'.cache)
      invariant forall j | 0 <= j < i :: st.inputIdx[j] <= st'.inputIdx[j]
      invariant forall j | 0 <= j < i :: Received(st.valid, fulls[j], pos[j] + |inputs[j].rows|, st'.inputIdx[j])
      invariant forall j | i <= j < |cols| :: st'.inputIdx[j] == st.inputIdx[j]
    {
      assert Expects(st.valid, st.inputIdx[i], inputs[i], cols[i], fulls[i], pos[i]);
      st' := FillCache(st', i, inputs[i], cols, fulls[i], pos[i], p);
    }
  }

  /** Counts the compute rows that have arrived in the first column; rows already counted are
  passed over again without effect, as long as they are cached. */
  method AdvanceCompute(cached: seq<int>, compute: seq<int>, ci: nat, ghost valid: seq<int>, ghost p: nat,
                        ghost n0: nat)
    returns (ci': nat)
    requires Sorted(valid) && Sorted(compute) && Within(compute, valid)
    requires p <= n0 <= p + |cached| <= |valid| && cached == valid[p..p + |cached|]
    requires Received(compute, valid, n0, ci)
    ensures ci <= ci' <= |compute| && Received(compute, valid, p + |cached|, ci')
  {
    ci' := ci;
    SortedAscends(valid);
    SortedAscends(compute);
    for i := 0 to |cached|
      invariant ci <= ci' <= |compute|
      invariant Received(compute, valid, if p + i < n0 then n0 else p + i, ci')
    {
      assert cached[i] == valid[p + i];
      if n0 <= p + i { ReceiveOne(compute, valid, p + i, ci'); }
      assert ci' >= |compute| || cached[i] <= compute[ci'];
      if ci' < |compute| && cached[i] == compute[ci'] {
        ci' := ci' + 1;
      }
    }
  }

  /** Receives one packet in every column. */
  method Receive(st: OpState, inputs: seq<Column>,
                 ghost cols: seq<Contents>, ghost fulls: seq<seq<int>>, ghost pos: seq<nat>, ghost p: int)
    returns (st1: OpState, ci: nat)
    requires Sorted(st.valid) && Sorted(st.compute) && Within(st.compute, st.valid)
    requires Cached(st, cols, p) && Received(st.compute, st.valid, st.inputIdx[0], st.computeIdx)
    requires |inputs| == |fulls| == |pos| == |cols|
    requires forall i | 0 <= i < |cols| :: Expects(st.valid, st.inputIdx[i], inputs[i], cols[i], fulls[i], pos[i])
    ensures Cached(st1, cols, p)
    ensures st1 == st.(inputIdx := st1.inputIdx, cacheRows := st1.cacheRows, cache := st1.cache)
    ensures forall i | 0 <= i < |cols| :: st.inputIdx[i] <= st1.inputIdx[i]
    ensures forall i | 0 <= i < |cols| :: Received(st.valid, fulls[i], pos[i] + |inputs[i].rows|, st1.inputIdx[i])
    ensures Received(st.compute, st.valid, st1.inputIdx[0], ci) && st.computeIdx <= ci
  {
    st1 := FillCaches(st, inputs, cols, fulls, pos, p);
    assert ColumnCached(st, cols, p, 0) && ColumnCached(st1, cols, p, 0);
    assert |st1.cacheRows[0]| == st1.inputIdx[0] - p;
    ci := AdvanceCompute(st1.cacheRows[0], st.compute, st.computeIdx, st.valid, p, st.inputIdx[0]);
  }

  lemma StillLoaded(a: Action, max: int, st: OpState, st1: OpState, ci: nat, cols: seq<Contents>, m: Machine, p: int)
    requires Loaded(a, max, st, cols, m, p)
    requires st1 == st.(inputIdx := st1.inputIdx, cacheRows := st1.cacheRows, cache := st1.cache)
    requires Cached(st1, cols, p)
    requires forall i | 0 <= i < |cols| :: st.inputIdx[i] <= st1.inputIdx[i]
    requires Received(st.compute, st.valid, st1.inputIdx[0], ci) && st.computeIdx <= ci
    ensures Loaded(a, max, st1.(computeIdx := ci), cols, m, p)
  {
    var st' := st1.(computeIdx := ci);
    CachedFrame(st1, st', cols, p);
  }

  lemma CachedFrame(st: OpState, st': OpState, cols: seq<Contents>, p: int)
    requires Cached(st, cols, p)
    requires st'.valid == st.valid && st'.inputIdx == st.inputIdx && st'.cacheRows == st.cacheRows &&
             st'.cache == st.cache
    ensures Cached(st', cols, p)
  {
    forall i | 0 <= i < |cols| ensures ColumnCached(st', cols, p, i) {
      assert ColumnCached(st, cols, p, i);
    }
  }

  // ---- Counting ready rows -----------------------------------------------------------------

  /** No column is empty, and all have reached row `seen`. */
  ghost predicate SeenEverywhere(cacheRows: seq<seq<int>>, seen: int) {
    forall i | 0 <= i < |cacheRows| :: |cacheRows[i]| > 0 && seen <= cacheRows[i][|cacheRows[i]| - 1]
  }

  /** The highest row that every column has reached, or -1 if some column is empty. */
  method MaxRowSeen(cacheRows: seq<seq<int>>) returns (seen: int)
    requires |cacheRows| > 0
    requires forall i | 0 <= i < |cacheRows| :: |cacheRows[i]| > 0 ==> 0 <= cacheRows[i][|cacheRows[i]| - 1]
    ensures seen != -1 ==> SeenEverywhere(cacheRows, seen)
    ensures (forall i | 0 <= i < |cacheRows| :: |cacheRows[i]| > 0) ==>
              exists i | 0 <= i < |cacheRows| :: cacheRows[i][|cacheRows[i]| - 1] <= seen
  {
    seen := -1;
    for i := 0 to |cacheRows|
      invariant forall j | 0 <= j < i :: |cacheRows[j]| > 0
      invariant i > 0 ==> seen >= 0
      invariant i == 0 ==> seen == -1
      invariant forall j | 0 <= j < i :: seen <= cacheRows[j][|cacheRows[j]| - 1]
      invariant i > 0 ==> exists j | 0 <= j < i :: cacheRows[j][|cacheRows[j]| - 1] <= seen
    {
      if |cacheRows[i]| == 0 {
        seen := -1;
        return;
      }
      var back := cacheRows[i][|cacheRows[i]| - 1];
      if seen == -1 || back < seen {
        seen := back;
      }
    }
  }

  /** Consecutive compute rows from `from` whose furthest window row has been seen everywhere. */
  ghost predicate Ready(compute: seq<int>, from: nat, n: nat, seen: int, max: int, last: int) {
    from + n <= |compute| && forall j | from <= j < from + n :: Clamp(compute[j] + last, max) <= seen
  }

  /** `compute_producible_elements`: the largest multiple of `batch` rows that are ready. */
  method Producible(compute: seq<int>, from: nat, to: nat, seen: int, max: int, last: int, batch: int) returns (n: nat)
    requires from <= to <= |compute| && batch >= 1
    ensures from + n <= to && n % batch == 0 && Ready(compute, from, n, seen, max, last)
    ensures from + n + batch <= to ==> !Ready(compute, from, n + batch, seen, max, last)
  {
    var rows := ReadyRun(compute, from, to, seen, max, last);
    n := rows - rows % batch;
    ModSub(rows, batch);
    assert from + n + batch <= to ==> from <= from + rows < from + n + batch;
  }

  method ReadyRun(compute: seq<int>, from: nat, to: nat, seen: int, max: int, last: int) returns (rows: nat)
    requires from <= to <= |compute|
    ensures from + rows <= to && Ready(compute, from, rows, seen, max, last)
    ensures from + rows < to ==> seen < Clamp(compute[from + rows] + last, max)
  {
    rows := 0;
    while from + rows < to && Clamp(compute[from + rows] + last, max) <= seen
      invariant from + rows <= to && Ready(compute, from, rows, seen, max, last)
    {
      rows := rows + 1;
    }
  }

  lemma ModSub(x: nat, b: int)
    requires b >= 1
    ensures 0 <= x - x % b <= x && (x - x % b) % b == 0 && x < x - x % b + b
  {
    var q := x / b;
    assert x - x % b == q * b;
    DivUnique(q, 0, b);
  }

  lemma ClampMonotone(x: int, y: int, max: int)
    requires x <= y && 0 < max
    ensures Clamp(x, max) <= Clamp(y, max)
  {
  }

  /** The caches hold the windows of the compute rows from `from` up to `to`. */
  ghost predicate HoldsWindows(stencil: seq<int>, max: int, cols: seq<Contents>, cacheRows: seq<seq<int>>,
                               cache: seq<seq<Element>>, compute: seq<int>, from: nat, to: nat) {
    && |cacheRows| == |cache| == |cols| && from <= to <= |compute|
    && (forall i | 0 <= i < |cols| :: cache[i] == Values(cols[i], cacheRows[i]))
    && (forall i, j, s {:trigger cacheRows[i], WindowRow(compute[j], s, max)} |
          0 <= i < |cols| && from <= j < to && s in stencil ::
          WindowRow(compute[j], s, max) in cacheRows[i])
  }

  /** A row that has arrived and has not been evicted is in the cache. */
  lemma RowHeld(valid: seq<int>, cached: seq<int>, p: int, n: nat, w: int)
    requires Ascending(valid) && 0 <= p <= n <= |valid| && cached == valid[p..n]
    requires w in valid && n > 0 && w <= valid[n - 1] && (p > 0 ==> valid[p - 1] < w)
    ensures w in cached
  {
    var q :| 0 <= q < |valid| && valid[q] == w;
    assert p <= q < n;
    assert cached[q - p] == w;
  }

  /** The window rows of a compute row lie between those of its extreme stencil entries. */
  lemma WindowBounds(stencil: seq<int>, max: int, valid: seq<int>, compute: seq<int>, e: nat, j: nat, s: int)
    requires InputOk(stencil, max, valid, compute) && e <= j < |compute| && s in stencil
    ensures 0 <= compute[j] < max && WindowRow(compute[j], s, max) in valid
    ensures WindowRow(compute[e], stencil[0], max) <= WindowRow(compute[j], s, max)
    ensures WindowRow(compute[j], s, max) <= WindowRow(compute[j], stencil[|stencil| - 1], max)
    ensures compute[j] <= WindowRow(compute[j], stencil[|stencil| - 1], max)
    ensures 0 <= WindowRow(compute[j], stencil[|stencil| - 1], max)
  {
    SortedAscends(compute);
    var c := compute[j];
    assert c in compute && c in valid;
    assert InDomain(c, max);
    ClampMonotone(compute[e] + stencil[0], c + s, max);
    ClampMonotone(c + s, c + stencil[|stencil| - 1], max);
    ClampMonotone(c, c + stencil[|stencil| - 1], max);
  }

  /** Every window row of a ready row is in the cache of every column. */
  lemma WindowHeld(a: Action, max: int, st: OpState, cols: seq<Contents>, p: int, seen: int, j: nat, i: nat, s: int)
    requires InputOk(Stencil(a), max, st.valid, st.compute) && s in Stencil(a)
    requires ColumnCached(st, cols, p, i) && Retained(a, max, st.valid, st.compute, st.cacheIdx, p)
    requires st.cacheIdx <= j < |st.compute|
    requires Clamp(st.compute[j] + Stencil(a)[|Stencil(a)| - 1], max) <= seen
    requires |st.cacheRows[i]| > 0 && seen <= st.cacheRows[i][|st.cacheRows[i]| - 1]
    ensures WindowRow(st.compute[j], s, max) in st.cacheRows[i]
  {
    SortedAscends(st.valid);
    WindowBounds(Stencil(a), max, st.valid, st.compute, st.cacheIdx, j, s);
    RowHeld(st.valid, st.cacheRows[i], p, st.inputIdx[i], WindowRow(st.compute[j], s, max));
  }

  lemma WindowsHeld(a: Action, max: int, st: OpState, cols: seq<Contents>, p: int, seen: int, n: nat)
    requires InputOk(Stencil(a), max, st.valid, st.compute)
    requires Cached(st, cols, p) && Retained(a, max, st.valid, st.compute, st.cacheIdx, p)
    requires seen != -1 ==> SeenEverywhere(st.cacheRows, seen)
    requires Ready(st.compute, st.cacheIdx, n, seen, max, Stencil(a)[|Stencil(a)| - 1])
    ensures HoldsWindows(Stencil(a), max, cols, st.cacheRows, st.cache, st.compute, st.cacheIdx, st.cacheIdx + n)
  {
    var stencil, e := Stencil(a), st.cacheIdx;
    forall i | 0 <= i < |cols| ensures st.cache[i] == Values(cols[i], st.cacheRows[i]) {
      assert ColumnCached(st, cols, p, i);
    }
    if n > 0 { WindowBounds(stencil, max, st.valid, st.compute, e, e, stencil[0]); }
    forall i, j, s | 0 <= i < |cols| && e <= j < e + n && s in stencil
      ensures WindowRow(st.compute[j], s, max) in st.cacheRows[i]
    {
      assert ColumnCached(st, cols, p, i);
      WindowHeld(a, max, st, cols, p, seen, j, i, s);
    }
  }

  /** No column lags behind the rows already computed: a sorted superset is pointwise no greater
  than its subset. */
  lemma EndReceived(a: Action, max: int, st: OpState, cols: seq<Contents>, p: int, seen: int, n: nat)
    requires InputOk(Stencil(a), max, st.valid, st.compute)
    requires Cached(st, cols, p) && Reached(st, st.cacheIdx)
    requires seen != -1 ==> SeenEverywhere(st.cacheRows, seen)
    requires Ready(st.compute, st.cacheIdx, n, seen, max, Stencil(a)[|Stencil(a)| - 1])
    ensures Reached(st, st.cacheIdx + n)
  {
    if n > 0 {
      var j := st.cacheIdx + n - 1;
      var stencil := Stencil(a);
      WindowBounds(stencil, max, st.valid, st.compute, j, j, stencil[0]);
      SortedAscends(st.valid);
      SortedAscends(st.compute);
      SupersetPointwise(st.compute, st.valid, j);
      forall i | 0 <= i < |cols| ensures st.cacheIdx + n <= st.inputIdx[i] {
        assert ColumnCached(st, cols, p, i);
        assert st.valid[j] <= seen <= st.valid[st.inputIdx[i] - 1];
      }
    }
  }

  /** Once all input has arrived nothing is held back. */
  lemma AllReady(a: Action, max: int, st: OpState, cols: seq<Contents>, p: int, seen: int)
    requires InputOk(Stencil(a), max, st.valid, st.compute)
    requires Cached(st, cols, p) && st.cacheIdx <= |st.compute| && AllReceived(st)
    requires |st.valid| > 0 ==> p < |st.valid|
    requires Received(st.compute, st.valid, st.inputIdx[0], st.computeIdx)
    requires (forall i | 0 <= i < |st.cacheRows| :: |st.cacheRows[i]| > 0) ==>
               exists i | 0 <= i < |st.cacheRows| :: st.cacheRows[i][|st.cacheRows[i]| - 1] <= seen
    ensures st.computeIdx == |st.compute|
    ensures Ready(st.compute, st.cacheIdx, |st.compute| - st.cacheIdx, seen, max, Stencil(a)[|Stencil(a)| - 1])
  {
    var stencil := Stencil(a);
    var hi := stencil[|stencil| - 1];
    SortedAscends(st.valid);
    forall j | st.cacheIdx <= j < |st.compute| ensures Clamp(st.compute[j] + hi, max) <= seen {
      assert hi in stencil;
      WindowBounds(stencil, max, st.valid, st.compute, j, j, hi);
      forall i | 0 <= i < |cols|
        ensures |st.cacheRows[i]| > 0 && st.cacheRows[i][|st.cacheRows[i]| - 1] == st.valid[|st.valid| - 1]
      {
        assert ColumnCached(st, cols, p, i);
      }
      LastIsGreatest(st.valid, WindowRow(st.compute[j], hi, max));
    }
  }

  lemma LastIsGreatest(valid: seq<int>, w: int)
    requires Ascending(valid) && w in valid
    ensures w <= valid[|valid| - 1]
  {
  }

  /** Batch size for this packet: the kernel's own, or 1 towards the end of the task. */
  function BatchNow(a: Action, st: OpState): (b: int)
    requires |st.inputIdx| > 0 && (a.Compute? ==> a.kernel.batch >= 1)
    ensures b >= 1
    ensures st.inputIdx[0] == |st.valid| ==> b == 1
  {
    if a.Remap? || |st.valid| - st.inputIdx[0] < a.kernel.batch then 1 else a.kernel.batch
  }

  lemma CachedRowsNonNegative(a: Action, max: int, st: OpState, cols: seq<Contents>, p: int)
    requires InputOk(Stencil(a), max, st.valid, st.compute) && Cached(st, cols, p)
    ensures forall i | 0 <= i < |st.cacheRows| :: |st.cacheRows[i]| > 0 ==> 0 <= st.cacheRows[i][|st.cacheRows[i]| - 1]
  {
    forall i | 0 <= i < |st.cacheRows| && |st.cacheRows[i]| > 0 ensures 0 <= st.cacheRows[i][|st.cacheRows[i]| - 1] {
      assert ColumnCached(st, cols, p, i);
      var v := st.valid[st.inputIdx[i] - 1];
      assert v in st.valid && InDomain(v, max);
    }
  }

  method CountReady(a: Action, max: int, st: OpState, ghost cols: seq<Contents>, ghost p: int) returns (n: nat)
    requires InputOk(Stencil(a), max, st.valid, st.compute) && (a.Compute? ==> a.kernel.batch >= 1)
    requires Cached(st, cols, p) && Retained(a, max, st.valid, st.compute, st.cacheIdx, p)
    requires Received(st.compute, st.valid, st.inputIdx[0], st.computeIdx)
    requires st.cacheIdx <= st.computeIdx && Reached(st, st.cacheIdx)
    ensures st.cacheIdx + n <= st.computeIdx && Reached(st, st.cacheIdx + n)
    ensures HoldsWindows(Stencil(a), max, cols, st.cacheRows, st.cache, st.compute, st.cacheIdx, st.cacheIdx + n)
    ensures AllReceived(st) ==> st.cacheIdx + n == |st.compute|
  {
    CachedRowsNonNegative(a, max, st, cols, p);
    var seen := MaxRowSeen(st.cacheRows);
    var stencil := Stencil(a);
    n := Producible(st.compute, st.cacheIdx, st.computeIdx, seen, max, stencil[|stencil| - 1], BatchNow(a, st));
    ReadyFacts(a, max, st, cols, p, seen, n);
    if AllReceived(st) {
      AllReady(a, max, st, cols, p, seen);
    }
  }

  lemma ReadyFacts(a: Action, max: int, st: OpState, cols: seq<Contents>, p: int, seen: int, n: nat)
    requires InputOk(Stencil(a), max, st.valid, st.compute)
    requires Cached(st, cols, p) && Retained(a, max, st.valid, st.compute, st.cacheIdx, p) && Reached(st, st.cacheIdx)
    requires seen != -1 ==> SeenEverywhere(st.cacheRows, seen)
    requires Ready(st.compute, st.cacheIdx, n, seen, max, Stencil(a)[|Stencil(a)| - 1])
    ensures Reached(st, st.cacheIdx + n)
    ensures HoldsWindows(Stencil(a), max, cols, st.cacheRows, st.cache, st.compute, st.cacheIdx, st.cacheIdx + n)
  {
    WindowsHeld(a, max, st, cols, p, seen, n);
    EndReceived(a, max, st, cols, p, seen, n);
  }

  // ---- Executing ---------------------------------------------------------------------------

  /** Element cached under row `r` (a null element if there is none). */
  function Lookup(rows: seq<int>, elems: seq<Element>, r: int): Element
    requires |rows| == |elems|
  {
    var k := IndexOf(rows, r);
    if k < |rows| then elems[k] else Null
  }

  /** Stages the window of one compute row from the element cache. */
  method StageWindow(stencil: seq<int>, max: int, cacheRows: seq<seq<int>>, cache: seq<seq<Element>>, compute: seq<int>,
                     r: nat, ghost from: nat, ghost to: nat, ghost cols: seq<Contents>)
    returns (w: Window)
    requires HoldsWindows(stencil, max, cols, cacheRows, cache, compute, from, to) && from <= r < to
    ensures w == WindowAt(stencil, cols, max, compute[r])
  {
    w := [];
    ghost var want := WindowAt(stencil, cols, max, compute[r]);
    for i := 0 to |cacheRows|
      invariant w == want[..i]
    {
      var line := [];
      for j := 0 to |stencil|
        invariant line == want[i][..j]
      {
        assert WindowRow(compute[r], stencil[j], max) in cacheRows[i];
        line := line + [Lookup(cacheRows[i], cache[i], Clamp(compute[r] + stencil[j], max))];
      }
      assert line == want[i];
      w := w + [line];
    }
  }

  /** `execute_kernel` on one batch: the kernel takes the windows of the rows from `start` on in
  order. */
  function RunBatch(k: Kernel, st: Bytes, compute: seq<int>, start: nat, windows: seq<Window>, n: nat)
    : (Bytes, seq<OutRow>)
    requires n <= |windows| && start + |windows| <= |compute|
  {
    if n == 0 then (st, [])
    else
      var (s, out) := RunBatch(k, st, compute, start, windows, n - 1);
      var (s', elems) := k.step(s, compute[start + n - 1], windows[n - 1]);
      (s', out + [OutRow(compute[start + n - 1], elems)])
  }

  ghost predicate Staged(k: Kernel, max: int, cols: seq<Contents>, compute: seq<int>, start: nat,
                         windows: seq<Window>) {
    && start + |windows| <= |compute|
    && forall j | 0 <= j < |windows| :: windows[j] == WindowAt(k.stencil, cols, max, compute[start + j])
  }

  lemma {:induction false} BatchIsFold(k: Kernel, compute: seq<int>, start: nat, windows: seq<Window>, n: nat,
                                       cols: seq<Contents>, max: int, m: Machine)
    requires Runs(Compute(k), cols, max, m) && Staged(k, max, cols, compute, start, windows) && n <= |windows|
    ensures RunBatch(k, StateTo(m, compute, start), compute, start, windows, n).0 == StateTo(m, compute, start + n)
    ensures OutputsTo(m, compute, start + n) ==
            OutputsTo(m, compute, start) + RunBatch(k, StateTo(m, compute, start), compute, start, windows, n).1
  {
    if n > 0 {
      BatchIsFold(k, compute, start, windows, n - 1, cols, max, m);
      var s, r := StateTo(m, compute, start + n - 1), compute[start + n - 1];
      assert m.step(s, r) == ActionStep(Compute(k), cols, max, s, r);
      assert windows[n - 1] == WindowAt(k.stencil, cols, max, r);
      Assoc(OutputsTo(m, compute, start), RunBatch(k, StateTo(m, compute, start), compute, start, windows, n - 1).1,
            m.step(s, r).1);
    }
  }

  method StageBatch(k: Kernel, max: int, cacheRows: seq<seq<int>>, cache: seq<seq<Element>>, compute: seq<int>,
                    start: nat, end: nat, ghost from: nat, ghost to: nat, ghost cols: seq<Contents>)
    returns (windows: seq<Window>)
    requires HoldsWindows(k.stencil, max, cols, cacheRows, cache, compute, from, to) && from <= start <= end <= to
    ensures |windows| == end - start && Staged(k, max, cols, compute, start, windows)
  {
    windows := [];
    for r := start to end
      invariant |windows| == r - start && Staged(k, max, cols, compute, start, windows)
    {
      var w := StageWindow(k.stencil, max, cacheRows, cache, compute, r, from, to, cols);
      windows := windows + [w];
    }
  }

  /** Runs the kernel over the compute rows from `from` up to `to` in batches of its batch size. */
  method ExecuteKernel(k: Kernel, st: Bytes, max: int, cacheRows: seq<seq<int>>, cache: seq<seq<Element>>,
                       compute: seq<int>, from: nat, to: nat, ghost cols: seq<Contents>, ghost m: Machine)
    returns (st': Bytes, out: seq<OutRow>)
    requires k.batch >= 1 && Runs(Compute(k), cols, max, m)
    requires HoldsWindows(k.stencil, max, cols, cacheRows, cache, compute, from, to)
    requires st == StateTo(m, compute, from)
    ensures st' == StateTo(m, compute, to)
    ensures OutputsTo(m, compute, to) == OutputsTo(m, compute, from) + out
  {
    st', out := st, [];
    var start := from;
    while start < to
      invariant from <= start <= to
      invariant st' == StateTo(m, compute, start)
      invariant OutputsTo(m, compute, start) == OutputsTo(m, compute, from) + out
    {
      var end := if start + k.batch < to then start + k.batch else to;
      var windows := StageBatch(k, max, cacheRows, cache, compute, start, end, from, to, cols);
      BatchIsFold(k, compute, start, windows, |windows|, cols, max, m);
      var res := RunBatch(k, st', compute, start, windows, |windows|);
      Assoc(OutputsTo(m, compute, from), out, res.1);
      st', out := res.0, out + res.1;
      start := end;
    }
  }

  ghost function FromDown(l: seq<DownRow>, es: seq<Element>): (r: seq<OutRow>)
    requires forall x | x in l :: x.from < |es|
    ensures |r| == |l|
  {
    seq(|l|, k requires 0 <= k < |l| =>
      assert l[k] in l;
      OutRow(l[k].row, [if l[k].from < 0 then Null else es[l[k].from]]))
  }

  lemma FromDownConcat(A: seq<DownRow>, B: seq<DownRow>, es: seq<Element>)
    requires forall x | x in A + B :: x.from < |es|
    ensures (forall x | x in A :: x.from < |es|) && (forall x | x in B :: x.from < |es|)
    ensures FromDown(A + B, es) == FromDown(A, es) + FromDown(B, es)
  {
    forall x | x in A ensures x.from < |es| { assert x in A + B; }
    forall x | x in B ensures x.from < |es| { assert x in A + B; }
  }

  lemma DownRowsBounded(m: RowMap, us: seq<int>, n: nat)
    requires WellFormed(m) && n <= |us|
    ensures forall x | x in DownRows(m, us, n) :: x.from < n
  {
    DownRowsProduce(m, us, n);
    forall x | x in DownRows(m, us, n) ensures x.from < n {
      assert Produces(m, us, n, x);
    }
  }

  /** The outputs of remapping the first `n` of the rows `us`, with their elements `es`. */
  ghost function Remapped(f: RowMap, us: seq<int>, es: seq<Element>, n: nat): seq<OutRow>
    requires WellFormed(f) && n <= |us| && n <= |es|
  {
    if n == 0 then [] else Remapped(f, us, es, n - 1) + RemapRows(f, DownOf(f, us[n - 1]), es[n - 1])
  }

  /** Passing elements on by reference gives those outputs. */
  lemma {:induction false} PassedIsRemapped(f: RowMap, us: seq<int>, es: seq<Element>, n: nat)
    requires WellFormed(f) && n <= |us| <= |es|
    ensures forall x | x in DownRows(f, us, n) :: x.from < |es|
    ensures FromDown(DownRows(f, us, n), es) == Remapped(f, us, es, n)
  {
    DownRowsBounded(f, us, n);
    if n > 0 {
      PassedIsRemapped(f, us, es, n - 1);
      var A, B := DownRows(f, us, n - 1), Spread(f, DownOf(f, us[n - 1]), n - 1);
      FromDownConcat(A, B, es);
      assert FromDown(B, es) == RemapRows(f, DownOf(f, us[n - 1]), es[n - 1]);
    }
  }

  /** Row `k` of `us` stands in `compute`, and its element is the `k`-th cached one. */
  ghost predicate AtFront(cols: seq<Contents>, compute: seq<int>, from: nat, us: seq<int>, es: seq<Element>, k: nat) {
    k < |us| && k < |es| && from + k < |compute| && |cols| > 0 && us[k] == compute[from + k] && es[k] == cols[0](us[k])
  }

  /** Remapping the rows `us`, which stand in `compute` from position `from` on. */
  lemma {:induction false} RemapIsOutputs(f: RowMap, cols: seq<Contents>, max: int, compute: seq<int>, from: nat,
                                          us: seq<int>, n: nat, es: seq<Element>, m: Machine)
    requires Runs(Remap(f), cols, max, m) && n <= |us| <= |es| && from + |us| <= |compute|
    requires forall k {:trigger AtFront(cols, compute, from, us, es, k)} | 0 <= k < |us| ::
               AtFront(cols, compute, from, us, es, k)
    ensures OutputsTo(m, compute, from + n) == OutputsTo(m, compute, from) + Remapped(f, us, es, n)
    ensures StateTo(m, compute, from + n) == StateTo(m, compute, from)
  {
    if n > 0 {
      RemapIsOutputs(f, cols, max, compute, from, us, n - 1, es, m);
      assert AtFront(cols, compute, from, us, es, n - 1);
      var s, r := StateTo(m, compute, from + n - 1), us[n - 1];
      assert m.step(s, r) == ActionStep(Remap(f), cols, max, s, r);
      Assoc(OutputsTo(m, compute, from), Remapped(f, us, es, n - 1), RemapRows(f, DownOf(f, r), es[n - 1]));
    }
  }

  lemma NeverStops(m: RowMap, us: seq<int>, n: nat)
    requires WellFormed(m) && StopsAt(m, us, n)
    requires forall u {:trigger DownOf(m, u)} | u in us :: DownOf(m, u) != []
    ensures n == |us|
  {
    forall k | 0 <= k < |us| ensures m.StridedRanges? ==> Held(m, us[k]) {
      assert DownOf(m, us[k]) != [];
    }
  }

  /** Downstream rows of rows that all have some. */
  method AllDownstreamRows(f: RowMap, us: seq<int>) returns (l: seq<DownRow>)
    requires WellFormed(f) && Ascending(us)
    requires forall u {:trigger DownOf(f, u)} | u in us :: DownOf(f, u) != []
    ensures l == DownRows(f, us, |us|)
  {
    ghost var n;
    l, n := GetDownstreamRows(f, us);
    NeverStops(f, us, n);
  }

  /** Passing on the downstream rows of `us` is what executing them gives. */
  lemma RemapPasses(f: RowMap, cols: seq<Contents>, max: int, compute: seq<int>, from: nat, us: seq<int>,
                    es: seq<Element>, m: Machine)
    requires Runs(Remap(f), cols, max, m) && |us| <= |es| && from + |us| <= |compute|
    requires forall k {:trigger AtFront(cols, compute, from, us, es, k)} | 0 <= k < |us| ::
               AtFront(cols, compute, from, us, es, k)
    ensures WellFormed(f) && forall x | x in DownRows(f, us, |us|) :: x.from < |es|
    ensures OutputsTo(m, compute, from + |us|) ==
            OutputsTo(m, compute, from) + FromDown(DownRows(f, us, |us|), es)
    ensures StateTo(m, compute, from + |us|) == StateTo(m, compute, from)
  {
    RemapIsOutputs(f, cols, max, compute, from, us, |us|, es, m);
    PassedIsRemapped(f, us, es, |us|);
  }

  /** Sample, Space, Slice and Unslice: rows are renumbered, elements passed on by reference. */
  method ExecuteRemap(f: RowMap, cache0: seq<Element>, us: seq<int>, ghost compute: seq<int>, ghost from: nat,
                      ghost cols: seq<Contents>, ghost max: int, ghost m: Machine)
    returns (out: seq<OutRow>)
    requires Runs(Remap(f), cols, max, m) && |us| <= |cache0| && from + |us| <= |compute|
    requires Ascending(us)
    requires forall u {:trigger DownOf(f, u)} | u in us :: DownOf(f, u) != []
    requires forall k {:trigger AtFront(cols, compute, from, us, cache0, k)} | 0 <= k < |us| ::
               AtFront(cols, compute, from, us, cache0, k)
    ensures OutputsTo(m, compute, from + |us|) == OutputsTo(m, compute, from) + out
    ensures StateTo(m, compute, from + |us|) == StateTo(m, compute, from)
  {
    RemapPasses(f, cols, max, compute, from, us, cache0, m);
    var l := AllDownstreamRows(f, us);
    out := PassElements(l, cache0);
  }

  method PassElements(l: seq<DownRow>, cache0: seq<Element>) returns (out: seq<OutRow>)
    requires forall x | x in l :: x.from < |cache0|
    ensures out == FromDown(l, cache0)
  {
    out := [];
    for i := 0 to |l|
      invariant out == FromDown(l, cache0)[..i]
    {
      assert l[i] in l;
      out := out + [OutRow(l[i].row, [if l[i].from < 0 then Null else cache0[l[i].from]])];
    }
  }

  /** The cache of a remapping starts at the row to be computed next. */
  lemma RemapFront(a: Action, max: int, st: OpState, cols: seq<Contents>, p: int, n: nat)
    requires a.Remap? && ActionOk(a) && Sorted(st.valid) && st.compute == st.valid
    requires forall v {:trigger DownOf(a.rowMap, v)} | v in st.valid :: DownOf(a.rowMap, v) != []
    requires Cached(st, cols, p) && Retained(a, max, st.valid, st.compute, st.cacheIdx, p)
    requires 0 < n && st.cacheIdx + n <= |st.compute| && Reached(st, st.cacheIdx + n)
    ensures Ascending(st.compute[st.cacheIdx..st.cacheIdx + n]) && n <= |st.cache[0]|
    ensures forall k | 0 <= k < n :: st.cache[0][k] == cols[0](st.compute[st.cacheIdx + k])
    ensures forall u {:trigger DownOf(a.rowMap, u)} | u in st.compute[st.cacheIdx..st.cacheIdx + n] ::
              DownOf(a.rowMap, u) != []
  {
    SortedAscends(st.valid);
    assert ColumnCached(st, cols, p, 0);
    assert p == st.cacheIdx;
    forall k | 0 <= k < n ensures st.cache[0][k] == cols[0](st.compute[st.cacheIdx + k]) {
      assert st.cacheRows[0][k] == st.valid[p + k];
    }
  }

  /** Executes the ready rows of a remapping. */
  method ExecuteFront(a: Action, max: int, st: OpState, n: nat, ghost cols: seq<Contents>, ghost m: Machine,
                      ghost p: int)
    returns (out: seq<OutRow>)
    requires a.Remap? && Runs(a, cols, max, m) && Sorted(st.valid) && st.compute == st.valid
    requires forall v {:trigger DownOf(a.rowMap, v)} | v in st.valid :: DownOf(a.rowMap, v) != []
    requires Cached(st, cols, p) && Retained(a, max, st.valid, st.compute, st.cacheIdx, p)
    requires 0 < n && st.cacheIdx + n <= |st.compute| && Reached(st, st.cacheIdx + n)
    ensures StateTo(m, st.compute, st.cacheIdx + n) == StateTo(m, st.compute, st.cacheIdx)
    ensures OutputsTo(m, st.compute, st.cacheIdx + n) == OutputsTo(m, st.compute, st.cacheIdx) + out
  {
    RemapFront(a, max, st, cols, p, n);
    var us := st.compute[st.cacheIdx..st.cacheIdx + n];
    forall k | 0 <= k < |us| ensures AtFront(cols, st.compute, st.cacheIdx, us, st.cache[0], k) { }
    out := ExecuteRemap(a.rowMap, st.cache[0], us, st.compute, st.cacheIdx, cols, max, m);
  }

  /** Executes the ready rows of the op. */
  method Execute(a: Action, max: int, st: OpState, n: nat, ghost cols: seq<Contents>, ghost m: Machine, ghost p: int)
    returns (kernel: Bytes, out: seq<OutRow>)
    requires TaskOk(a, max, st.valid, st.compute, st.keep, m) && Runs(a, cols, max, m)
    requires Cached(st, cols, p) && Retained(a, max, st.valid, st.compute, st.cacheIdx, p)
    requires st.cacheIdx + n <= |st.compute| && Reached(st, st.cacheIdx + n)
    requires HoldsWindows(Stencil(a), max, cols, st.cacheRows, st.cache, st.compute, st.cacheIdx, st.cacheIdx + n)
    requires st.kernel == StateTo(m, st.compute, st.cacheIdx)
    ensures kernel == StateTo(m, st.compute, st.cacheIdx + n)
    ensures OutputsTo(m, st.compute, st.cacheIdx + n) == OutputsTo(m, st.compute, st.cacheIdx) + out
  {
    kernel, out := st.kernel, [];
    match a
    case Compute(k) =>
      kernel, out := ExecuteKernel(k, st.kernel, max, st.cacheRows, st.cache, st.compute, st.cacheIdx, st.cacheIdx + n,
                                   cols, m);
    case Remap(f) =>
      if n > 0 {
        out := ExecuteFront(a, max, st, n, cols, m, p);
      }
  }

  // ---- Filtering ---------------------------------------------------------------------------

  /** The cursor compares against the right row: the next output is wanted exactly when it is
  the next row of `keep`. */
  lemma CursorExact(l: seq<OutRow>, keep: seq<int>, k: nat)
    requires k < |l| && RowsOf(Keep(l, keep)) == keep
    ensures var idx := |KeepTo(l, keep, k)|;
            l[k].row in keep <==> idx < |keep| && l[k].row == keep[idx]
  {
    var idx := |KeepTo(l, keep, k)|;
    KeepPrefix(l, keep, k + 1, |l|);
    if l[k].row in keep {
      assert KeepTo(l, keep, k + 1)[idx] == l[k];
      assert RowsOf(Keep(l, keep))[idx] == l[k].row;
    }
  }

  /** Keeps the rows asked for downstream by walking `keep` with a cursor. */
  method FilterOutputs(out: seq<OutRow>, keep: seq<int>, idx: nat, ghost l: seq<OutRow>, ghost b: nat)
    returns (kept: seq<OutRow>, idx': nat)
    requires RowsOf(Keep(l, keep)) == keep
    requires b + |out| <= |l| && forall i | 0 <= i < |out| :: out[i] == l[b + i]
    requires idx == |KeepTo(l, keep, b)|
    ensures KeepTo(l, keep, b + |out|) == KeepTo(l, keep, b) + kept
    ensures idx' == |KeepTo(l, keep, b + |out|)|
  {
    kept, idx' := [], idx;
    for i := 0 to |out|
      invariant KeepTo(l, keep, b + i) == KeepTo(l, keep, b) + kept
      invariant idx' == |KeepTo(l, keep, b + i)|
    {
      CursorExact(l, keep, b + i);
      if idx' < |keep| && out[i].row == keep[idx'] {
        Assoc(KeepTo(l, keep, b), kept, [out[i]]);
        kept := kept + [out[i]];
        idx' := idx' + 1;
      }
    }
  }

  /** Filters the outputs `produced`, which follow `done` in the list of all. */
  method KeepNext(produced: seq<OutRow>, keep: seq<int>, idx: nat, ghost all: seq<OutRow>, ghost done: seq<OutRow>)
    returns (out: seq<OutRow>, idx': nat)
    requires RowsOf(Keep(all, keep)) == keep && done + produced <= all && idx == |Keep(done, keep)|
    ensures Keep(done + produced, keep) == Keep(done, keep) + out && idx' == |Keep(done + produced, keep)|
  {
    KeepOfPrefix(done, all, keep, |done|);
    KeepOfPrefix(done + produced, all, keep, |done + produced|);
    forall i | 0 <= i < |produced|
      ensures produced[i] == all[|done| + i]
    {
      assert (done + produced)[|done| + i] == produced[i];
    }
    out, idx' := FilterOutputs(produced, keep, idx, all, |done|);
  }

  /** Hands the outputs asked for downstream and moves the cursors past them. */
  method HandOver(st: OpState, n: nat, kernel: Bytes, produced: seq<OutRow>, ghost m: Machine)
    returns (st': OpState, out: seq<OutRow>)
    requires Promises(m, st.compute, st.keep)
    requires Executed(m, st) && st.cacheIdx + n <= |st.compute|
    requires kernel == StateTo(m, st.compute, st.cacheIdx + n)
    requires OutputsTo(m, st.compute, st.cacheIdx + n) == OutputsTo(m, st.compute, st.cacheIdx) + produced
    ensures st' == st.(cacheIdx := st.cacheIdx + n, kernel := st'.kernel, outputIdx := st'.outputIdx)
    ensures Executed(m, st')
    ensures Emitted(m, st') == Emitted(m, st) + out
  {
    ghost var all, done := OutputsTo(m, st.compute, |st.compute|), OutputsTo(m, st.compute, st.cacheIdx);
    OutputsPrefix(m, st.compute, st.cacheIdx + n, |st.compute|);
    var outputIdx;
    out, outputIdx := KeepNext(produced, st.keep, st.outputIdx, all, done);
    st' := st.(cacheIdx := st.cacheIdx + n, kernel := kernel, outputIdx := outputIdx);
  }

  // ---- Eviction ----------------------------------------------------------------------------

  /** Pops the rows below `minUsed` off all columns together, as long as the first column has
  any. No deque is popped when empty, and the columns stay aligned. */
  method EvictBelow(st: OpState, minUsed: int, ghost e: nat, ghost cols: seq<Contents>, ghost p: int)
    returns (st': OpState, ghost p': int)
    requires Cached(st, cols, p) && Sorted(st.valid) && 0 <= p < |st.valid|
    requires e < |st.valid| && Reached(st, e) && minUsed <= st.valid[e]
    ensures st' == st.(cacheRows := st'.cacheRows, cache := st'.cache)
    ensures Cached(st', cols, p') && p <= p' < |st.valid|
    ensures p' > p ==> st.valid[p' - 1] < minUsed
    ensures |st'.cacheRows[0]| > 0 ==> minUsed <= st'.cacheRows[0][0]
  {
    st', p' := st, p;
    SortedAscends(st.valid);
    while |st'.cacheRows[0]| > 0 && st'.cacheRows[0][0] < minUsed
      invariant st' == st.(cacheRows := st'.cacheRows, cache := st'.cache)
      invariant Cached(st', cols, p') && p <= p' < |st.valid|
      invariant p' > p ==> st.valid[p' - 1] < minUsed
      decreases |st.valid| - p'
    {
      assert ColumnCached(st', cols, p', 0);
      assert st.valid[p'] < st.valid[e];
      assert p' < e;
      st' := PopFronts(st', cols, p');
      p' := p' + 1;
    }
  }

  /** Drops the cache entries that no later compute row needs. */
  method Evict(a: Action, max: int, st: OpState, rowEnd: nat, ghost cols: seq<Contents>, ghost p: int)
    returns (st': OpState, ghost p': int)
    requires InputOk(Stencil(a), max, st.valid, st.compute) && (a.Remap? ==> st.compute == st.valid)
    requires Cached(st, cols, p) && st.cacheIdx <= rowEnd <= |st.compute|
    requires |st.valid| > 0 && Reached(st, rowEnd)
    requires Retained(a, max, st.valid, st.compute, st.cacheIdx, p)
    ensures st' == st.(cacheRows := st'.cacheRows, cache := st'.cache)
    ensures Cached(st', cols, p')
    ensures Retained(a, max, st.valid, st.compute, rowEnd, p')
  {
    var e := if rowEnd < |st.valid| - 1 then rowEnd else |st.valid| - 1;
    var minUsed := st.valid[e] + Stencil(a)[0];
    assert ColumnCached(st, cols, p, 0);
    st', p' := EvictBelow(st, minUsed, e, cols, p);
    assert ColumnCached(st', cols, p', 0);
    EvictedEnough(a, max, st.valid, st.compute, st.cacheIdx, rowEnd, e, minUsed, p, p', st.inputIdx[0],
                  st'.cacheRows[0]);
  }

  lemma EvictedEnough(a: Action, max: int, valid: seq<int>, compute: seq<int>, from: nat, rowEnd: nat, e: nat,
                      minUsed: int, p: int, p': int, n0: nat, cached: seq<int>)
    requires InputOk(Stencil(a), max, valid, compute) && (a.Remap? ==> compute == valid)
    requires 0 <= p <= p' <= n0 <= |valid| && p' < |valid| && from <= rowEnd <= |compute| && rowEnd <= n0
    requires e == if rowEnd < |valid| - 1 then rowEnd else |valid| - 1
    requires minUsed == valid[e] + Stencil(a)[0]
    requires cached == valid[p'..n0]
    requires p' > p ==> valid[p' - 1] < minUsed
    requires |cached| > 0 ==> minUsed <= cached[0]
    requires Retained(a, max, valid, compute, from, p)
    ensures Retained(a, max, valid, compute, rowEnd, p')
  {
    var stencil := Stencil(a);
    SortedAscends(valid);
    SortedAscends(compute);
    if rowEnd < |compute| && 0 < p' {
      WindowBounds(stencil, max, valid, compute, from, rowEnd, stencil[0]);
      SupersetPointwise(compute, valid, rowEnd);
      assert valid[p' - 1] in valid && InDomain(valid[p' - 1], max);
    }
    if a.Remap? && rowEnd < |valid| {
      assert minUsed == valid[rowEnd];
    }
  }

  method PopFronts(st: OpState, ghost cols: seq<Contents>, ghost p: int) returns (st': OpState)
    requires Cached(st, cols, p) && 0 <= p && Reached(st, p + 1)
    ensures st' == st.(cacheRows := st'.cacheRows, cache := st'.cache)
    ensures Cached(st', cols, p + 1)
  {
    var rows, elems := [], [];
    for i := 0 to |st.cacheRows|
      invariant |rows| == |elems| == i
      invariant forall j | 0 <= j < i ::
                  p + 1 <= st.inputIdx[j] <= |st.valid| && rows[j] == st.valid[p + 1..st.inputIdx[j]]
      invariant forall j | 0 <= j < i :: elems[j] == Values(cols[j], rows[j])
    {
      assert ColumnCached(st, cols, p, i);
      assert |st.cache[i]| > 0;
      rows := rows + [st.cacheRows[i][1..]];
      elems := elems + [st.cache[i][1..]];
      assert elems[i] == Values(cols[i], rows[i]);
    }
    st' := st.(cacheRows := rows, cache := elems);
    ghost var p' := p + 1;
    assert forall i | 0 <= i < |cols| :: ColumnCached(st', cols, p', i);
  }

  // ---- One packet through one op -----------------------------------------------------------

  /** Feeds one packet of every input column to the op. For every split into packets and every
  batch size, what is handed downstream continues what was handed downstream before. */
  method FeedOp(a: Action, max: int, st: OpState, inputs: seq<Column>,
                ghost cols: seq<Contents>, ghost m: Machine, ghost fulls: seq<seq<int>>, ghost pos: seq<nat>)
    returns (st': OpState, out: seq<OutRow>)
    requires Consistent(a, max, st, cols, m) && Runs(a, cols, max, m)
    requires |inputs| == |fulls| == |pos| == |cols|
    requires forall i | 0 <= i < |cols| :: Expects(st.valid, st.inputIdx[i], inputs[i], cols[i], fulls[i], pos[i])
    ensures Consistent(a, max, st', cols, m) && SameTask(st, st')
    ensures forall i | 0 <= i < |cols| :: Received(st.valid, fulls[i], pos[i] + |inputs[i].rows|, st'.inputIdx[i])
    ensures Emitted(m, st') == Emitted(m, st) + out
  {
    ghost var p := Evicted(st);
    var st0, ci := Receive(st, inputs, cols, fulls, pos, p);
    StillLoaded(a, max, st, st0, ci, cols, m, p);
    var st1 := st0.(computeIdx := ci);
    var n := CountReady(a, max, st1, cols, p);
    st', out := Step(a, max, st1, n, cols, m, p);
  }

  method Advance(a: Action, max: int, st: OpState, n: nat, ghost cols: seq<Contents>, ghost m: Machine, ghost p: int)
    returns (st': OpState, out: seq<OutRow>)
    requires TaskOk(a, max, st.valid, st.compute, st.keep, m) && Runs(a, cols, max, m)
    requires Cached(st, cols, p) && Retained(a, max, st.valid, st.compute, st.cacheIdx, p)
    requires st.cacheIdx + n <= |st.compute| && Reached(st, st.cacheIdx + n) && Executed(m, st)
    requires HoldsWindows(Stencil(a), max, cols, st.cacheRows, st.cache, st.compute, st.cacheIdx, st.cacheIdx + n)
    ensures st' == st.(cacheIdx := st.cacheIdx + n, kernel := st'.kernel, outputIdx := st'.outputIdx)
    ensures Executed(m, st')
    ensures Emitted(m, st') == Emitted(m, st) + out
  {
    var kernel, produced := Execute(a, max, st, n, cols, m, p);
    st', out := HandOver(st, n, kernel, produced, m);
  }

  method EvictIfAny(a: Action, max: int, st: OpState, rowEnd: nat, ghost cols: seq<Contents>, ghost p: int)
    returns (st': OpState, ghost p': int)
    requires InputOk(Stencil(a), max, st.valid, st.compute) && (a.Remap? ==> st.compute == st.valid)
    requires Cached(st, cols, p) && st.cacheIdx <= rowEnd <= |st.compute| && Reached(st, rowEnd)
    requires Retained(a, max, st.valid, st.compute, st.cacheIdx, p)
    ensures st' == st.(cacheRows := st'.cacheRows, cache := st'.cache)
    ensures Cached(st', cols, p')
    ensures Retained(a, max, st.valid, st.compute, rowEnd, p')
  {
    if |st.valid| > 0 {
      st', p' := Evict(a, max, st, rowEnd, cols, p);
    } else {
      st', p' := st, p;
      SortedAscends(st.valid);
      SortedAscends(st.compute);
      if |st.compute| > 0 { SupersetPointwise(st.compute, st.valid, 0); }
    }
  }

  method Step(a: Action, max: int, st: OpState, n: nat, ghost cols: seq<Contents>, ghost m: Machine, ghost p: int)
    returns (st': OpState, out: seq<OutRow>)
    requires Loaded(a, max, st, cols, m, p) && Runs(a, cols, max, m)
    requires st.cacheIdx + n <= st.computeIdx && Reached(st, st.cacheIdx + n)
    requires HoldsWindows(Stencil(a), max, cols, st.cacheRows, st.cache, st.compute, st.cacheIdx, st.cacheIdx + n)
    requires AllReceived(st) ==> st.cacheIdx + n == |st.compute|
    ensures Consistent(a, max, st', cols, m) && SameTask(st, st') && st'.inputIdx == st.inputIdx
    ensures Emitted(m, st') == Emitted(m, st) + out
  {
    var st2, kept := Advance(a, max, st, n, cols, m, p);
    out := kept;
    var st3, p3 := EvictIfAny(a, max, st, st.cacheIdx + n, cols, p);
    st' := st2.(cacheRows := st3.cacheRows, cache := st3.cache);
    Finish(a, max, st, st2, st3, st', cols, m, p3);
  }

  lemma Finish(a: Action, max: int, st: OpState, st2: OpState, st3: OpState, st': OpState, cols: seq<Contents>,
               m: Machine, p: int)
    requires TaskOk(a, max, st.valid, st.compute, st.keep, m)
    requires st2 == st.(cacheIdx := st2.cacheIdx, kernel := st2.kernel, outputIdx := st2.outputIdx)
    requires st3 == st.(cacheRows := st3.cacheRows, cache := st3.cache)
    requires st' == st2.(cacheRows := st3.cacheRows, cache := st3.cache)
    requires Cached(st3, cols, p) && Retained(a, max, st.valid, st.compute, st2.cacheIdx, p)
    requires Received(st.compute, st.valid, st.inputIdx[0], st.computeIdx)
    requires st2.cacheIdx <= st.computeIdx && Reached(st, st2.cacheIdx) && Executed(m, st2)
    requires AllReceived(st) ==> st2.cacheIdx == |st.compute|
    ensures Consistent(a, max, st', cols, m)
    ensures Emitted(m, st') == Emitted(m, st2)
  {
    CachedFrame(st3, st', cols, p);
    assert ColumnCached(st', cols, p, 0);
  }

  /** A new task starts in a consistent state. */
  lemma NewTaskConsistent(a: Action, max: int, valid: seq<int>, compute: seq<int>, keep: seq<int>, cols: seq<Contents>,
                          m: Machine)
    requires TaskOk(a, max, valid, compute, keep, m) && Runs(a, cols, max, m)
    ensures Consistent(a, max, NewTask(a, valid, compute, keep, |cols|), cols, m)
    ensures Emitted(m, NewTask(a, valid, compute, keep, |cols|)) == []
  {
    var st := NewTask(a, valid, compute, keep, |cols|);
    assert forall i | 0 <= i < |cols| :: ColumnCached(st, cols, 0, i);
    SortedAscends(valid);
    SortedAscends(compute);
    if compute != [] { SupersetPointwise(compute, valid, 0); }
    assert st.inputIdx[0] == 0;
  }

  /** Rows handed downstream are the leading rows asked for; after the last packet, all of them. */
  lemma EmittedRows(a: Action, max: int, st: OpState, cols: seq<Contents>, m: Machine)
    requires Consistent(a, max, st, cols, m)
    ensures st.outputIdx <= |st.keep| && RowsOf(Emitted(m, st)) == st.keep[..st.outputIdx]
    ensures Emitted(m, st) <= Keep(OutputsTo(m, st.compute, |st.compute|), st.keep)
    ensures AllReceived(st) ==> st.outputIdx == |st.keep|
  {
    var all, done := OutputsTo(m, st.compute, |st.compute|), OutputsTo(m, st.compute, st.cacheIdx);
    OutputsPrefix(m, st.compute, st.cacheIdx, |st.compute|);
    KeepOfPrefix(done, all, st.keep, |done|);
    KeepPrefix(all, st.keep, |done|, |all|);
    PrefixRows(Keep(all, st.keep), Emitted(m, st));
  }

  /** What is handed over between two states is the next stretch of all that will be. */
  lemma NextOutputs(a: Action, max: int, st: OpState, st': OpState, cols: seq<Contents>, m: Machine, out: seq<OutRow>,
                    all: seq<OutRow>)
    requires Consistent(a, max, st, cols, m) && Consistent(a, max, st', cols, m) && SameTask(st, st')
    requires Emitted(m, st') == Emitted(m, st) + out
    requires all == Keep(OutputsTo(m, st.compute, |st.compute|), st.keep)
    ensures st.outputIdx + |out| == st'.outputIdx <= |all| && out == all[st.outputIdx..st'.outputIdx]
  {
    EmittedRows(a, max, st', cols, m);
    assert |Emitted(m, st)| == st.outputIdx && |Emitted(m, st')| == st'.outputIdx;
    NextStretch(Emitted(m, st), out, all);
  }

  lemma NextStretch(before: seq<OutRow>, out: seq<OutRow>, all: seq<OutRow>)
    requires before + out <= all
    ensures out == all[|before|..|before| + |out|]
  {
    assert all[|before|..|before| + |out|] == (before + out)[|before|..];
  }

  lemma PrefixRows(l: seq<OutRow>, e: seq<OutRow>)
    requires e <= l
    ensures RowsOf(e) == RowsOf(l)[..|e|]
  {
  }
}
