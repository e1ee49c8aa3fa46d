/** What one op computes: the meaning of a kernel or of a row remapping over a list of rows,
independent of packets, batches and caches. */
module Streams {
  import opened Rows
  import opened Samplers

  type Bytes = seq<bv8>

  datatype Element = Null | Data(bytes: Bytes)

  /** For each input column, the elements in the stencil dimension. */
  type Window = seq<seq<Element>>

  /** How far back a kernel remembers (`bounded_state` with its warmup, or `unbounded_state`).
  A kernel without state is one that remembers nothing. */
  datatype Memory = Bounded(warmup: nat) | Unbounded

  /** A kernel, as a machine that consumes the windows of its compute rows one by one. */
  datatype Kernel = Kernel(
    init: Bytes,
    step: (Bytes, int, Window) -> (Bytes, seq<Element>),
    stencil: seq<int>,
    batch: int,
    memory: Memory)

  /** A stencil lists its offsets from the lowest to the highest, and reaches around 0. */
  ghost predicate StencilBounds(s: seq<int>) {
    && |s| > 0 && s[0] <= 0 <= s[|s| - 1]
    && forall x | x in s :: s[0] <= x <= s[|s| - 1]
  }

  datatype Action = Compute(kernel: Kernel) | Remap(rowMap: RowMap)

  /** An output row of an op with its element in every output column. */
  datatype OutRow = OutRow(row: int, elems: seq<Element>)

  /** Contents of an input column: the element at each row. */
  type Contents = int -> Element

  /** REPEAT_EDGE: requests past either end of the domain get the row at that end. */
  function Clamp(r: int, max: int): int {
    if r < 0 then 0 else if r >= max then max - 1 else r
  }

  function Stencil(a: Action): seq<int> {
    if a.Compute? then a.kernel.stencil else [0]
  }

  function WindowAt(stencil: seq<int>, cols: seq<Contents>, max: int, row: int): (w: Window)
    ensures |w| == |cols|
  {
    seq(|cols|, i requires 0 <= i < |cols| =>
      seq(|stencil|, j requires 0 <= j < |stencil| => cols[i](Clamp(row + stencil[j], max))))
  }

  ghost predicate ActionOk(a: Action) {
    a.Remap? ==> WellFormed(a.rowMap)
  }

  function Initial(a: Action): Bytes {
    if a.Compute? then a.kernel.init else []
  }

  function RemapRows(m: RowMap, ds: seq<int>, e: Element): (r: seq<OutRow>)
    requires WellFormed(m)
    ensures |r| == |ds|
    ensures forall k | 0 <= k < |ds| :: r[k] == OutRow(ds[k], [if IsNull(m, ds[k]) then Null else e])
  {
    seq(|ds|, k requires 0 <= k < |ds| => OutRow(ds[k], [if IsNull(m, ds[k]) then Null else e]))
  }

  /** What an op does with one compute row: a kernel emits that row, a remapping emits every
  downstream row that asks for it. */
  function ActionStep(a: Action, cols: seq<Contents>, max: int, st: Bytes, row: int): (Bytes, seq<OutRow>)
    requires ActionOk(a) && |cols| > 0
  {
    match a
    case Compute(k) =>
      var (st', elems) := k.step(st, row, WindowAt(k.stencil, cols, max, row));
      (st', [OutRow(row, elems)])
    case Remap(m) => (st, RemapRows(m, DownOf(m, row), cols[0](row)))
  }

  // ---- Machines ----------------------------------------------------------------------------

  /** An op bound to its input: a transducer from compute rows to output rows. `owner` names the
  compute row that an output row comes from. */
  datatype Machine = Machine(
    init: Bytes,
    step: (Bytes, int) -> (Bytes, seq<OutRow>),
    owns: int -> bool,
    owner: int -> int)

  function RowsOf(l: seq<OutRow>): (r: seq<int>)
    ensures |r| == |l|
    ensures forall k | 0 <= k < |l| :: r[k] == l[k].row
  {
    seq(|l|, k requires 0 <= k < |l| => l[k].row)
  }

  ghost predicate HasRow(l: seq<OutRow>, d: int) {
    exists x :: x in l && x.row == d
  }

  /** A compute row produces an ascending block of rows that it owns. */
  ghost predicate BlockLaw(m: Machine, st: Bytes, r: int) {
    var l := m.step(st, r).1;
    Ascending(RowsOf(l)) && forall x | x in l :: m.owns(x.row) && m.owner(x.row) == r
  }

  /** An owned row is produced by its owner. */
  ghost predicate OwnerLaw(m: Machine, st: Bytes, d: int) {
    m.owns(d) ==> HasRow(m.step(st, m.owner(d)).1, d)
  }

  /** Later rows have later owners. */
  ghost predicate OrderLaw(m: Machine, d: int, d': int) {
    m.owns(d) && m.owns(d') && d <= d' ==> m.owner(d) <= m.owner(d')
  }

  /** Compute rows own disjoint, ordered blocks of output rows. */
  ghost predicate Lawful(m: Machine) {
    && (forall st, r :: BlockLaw(m, st, r))
    && (forall st, d :: OwnerLaw(m, st, d))
    && (forall d, d' :: OrderLaw(m, d, d'))
  }

  lemma Assoc<T>(a: seq<T>, b: seq<T>, c: seq<T>)
    ensures (a + b) + c == a + (b + c)
  {
  }

  /** State after the first `k` compute rows. */
  function StateTo(m: Machine, rows: seq<int>, k: nat): Bytes
    requires k <= |rows|
  {
    if k == 0 then m.init else m.step(StateTo(m, rows, k - 1), rows[k - 1]).0
  }

  /** Everything produced over the first `k` compute rows, in order. */
  function OutputsTo(m: Machine, rows: seq<int>, k: nat): seq<OutRow>
    requires k <= |rows|
  {
    if k == 0 then [] else OutputsTo(m, rows, k - 1) + m.step(StateTo(m, rows, k - 1), rows[k - 1]).1
  }

  lemma {:induction false} OutputsPrefix(m: Machine, rows: seq<int>, j: nat, k: nat)
    requires j <= k <= |rows|
    ensures OutputsTo(m, rows, j) <= OutputsTo(m, rows, k)
    decreases k
  {
    if j < k { OutputsPrefix(m, rows, j, k - 1); }
  }

  /** Those of the first `k` rows of `l` that are kept for downstream ops. */
  function KeepTo(l: seq<OutRow>, keep: seq<int>, k: nat): seq<OutRow>
    requires k <= |l|
  {
    if k == 0 then [] else KeepTo(l, keep, k - 1) + (if l[k - 1].row in keep then [l[k - 1]] else [])
  }

  function Keep(l: seq<OutRow>, keep: seq<int>): seq<OutRow> {
    KeepTo(l, keep, |l|)
  }

  lemma {:induction false} KeepMembers(l: seq<OutRow>, keep: seq<int>, k: nat, x: OutRow)
    requires k <= |l|
    ensures x in KeepTo(l, keep, k) <==> x.row in keep && exists i | 0 <= i < k :: l[i] == x
  {
    if k > 0 { KeepMembers(l, keep, k - 1, x); }
  }

  lemma {:induction false} KeepPrefix(l: seq<OutRow>, keep: seq<int>, j: nat, k: nat)
    requires j <= k <= |l|
    ensures KeepTo(l, keep, j) <= KeepTo(l, keep, k)
    decreases k
  {
    if j < k { KeepPrefix(l, keep, j, k - 1); }
  }

  /** Filtering a prefix is the prefix of filtering. */
  lemma {:induction false} KeepOfPrefix(a: seq<OutRow>, l: seq<OutRow>, keep: seq<int>, k: nat)
    requires a <= l && k <= |a|
    ensures KeepTo(a, keep, k) == KeepTo(l, keep, k)
  {
    if k > 0 { KeepOfPrefix(a, l, keep, k - 1); }
  }

  lemma {:induction false} KeepAscending(l: seq<OutRow>, keep: seq<int>, k: nat)
    requires Ascending(RowsOf(l)) && k <= |l|
    ensures Ascending(RowsOf(KeepTo(l, keep, k)))
  {
    if k > 0 {
      KeepAscending(l, keep, k - 1);
      var r := KeepTo(l, keep, k - 1);
      forall i | 0 <= i < |r| ensures r[i].row < l[k - 1].row {
        assert r[i] in r;
        KeepMembers(l, keep, k - 1, r[i]);
        var q :| 0 <= q < k - 1 && l[q] == r[i];
        assert RowsOf(l)[q] < RowsOf(l)[k - 1];
      }
    }
  }

  /** Each output row is owned by one of the compute rows. */
  lemma {:induction false} OutputOwner(m: Machine, rows: seq<int>, k: nat, x: OutRow)
    requires Lawful(m) && k <= |rows| && x in OutputsTo(m, rows, k)
    ensures m.owns(x.row) && exists q | 0 <= q < k :: rows[q] == m.owner(x.row)
  {
    if x in OutputsTo(m, rows, k - 1) {
      OutputOwner(m, rows, k - 1, x);
    } else {
      assert BlockLaw(m, StateTo(m, rows, k - 1), rows[k - 1]);
    }
  }

  lemma OutputOrder(m: Machine, rows: seq<int>, k: nat, x: OutRow, y: OutRow)
    requires Lawful(m) && Ascending(rows) && 0 < k <= |rows|
    requires x in OutputsTo(m, rows, k - 1) && y in m.step(StateTo(m, rows, k - 1), rows[k - 1]).1
    ensures x.row < y.row
  {
    OutputOwner(m, rows, k - 1, x);
    var q :| 0 <= q < k - 1 && rows[q] == m.owner(x.row);
    assert BlockLaw(m, StateTo(m, rows, k - 1), rows[k - 1]);
    assert OrderLaw(m, y.row, x.row);
  }

  /** Outputs of ascending compute rows ascend. */
  lemma {:induction false} OutputsAscending(m: Machine, rows: seq<int>, k: nat)
    requires Lawful(m) && Ascending(rows) && k <= |rows|
    ensures Ascending(RowsOf(OutputsTo(m, rows, k)))
  {
    if k > 0 {
      OutputsAscending(m, rows, k - 1);
      var A := OutputsTo(m, rows, k - 1);
      var B := m.step(StateTo(m, rows, k - 1), rows[k - 1]).1;
      assert BlockLaw(m, StateTo(m, rows, k - 1), rows[k - 1]);
      forall i, j | 0 <= i < |A| && 0 <= j < |B| ensures A[i].row < B[j].row {
        OutputOrder(m, rows, k, A[i], B[j]);
      }
      AppendAscending(A, B);
    }
  }

  lemma AppendAscending(A: seq<OutRow>, B: seq<OutRow>)
    requires Ascending(RowsOf(A)) && Ascending(RowsOf(B))
    requires forall i, j | 0 <= i < |A| && 0 <= j < |B| :: A[i].row < B[j].row
    ensures Ascending(RowsOf(A + B))
  {
    var l := A + B;
    forall i, j | 0 <= i < j < |l| ensures RowsOf(l)[i] < RowsOf(l)[j] {
      if j < |A| { assert RowsOf(A)[i] < RowsOf(A)[j]; }
      else if i >= |A| { assert RowsOf(B)[i - |A|] < RowsOf(B)[j - |A|]; }
    }
  }

  /** Output row `d` arises from the compute rows `rows`. */
  ghost predicate Covers(m: Machine, rows: seq<int>, d: int) {
    m.owns(d) && m.owner(d) in rows
  }

  lemma {:induction false} CoveredIsOutput(m: Machine, rows: seq<int>, k: nat, q: nat, d: int)
    requires Lawful(m) && q < k <= |rows| && m.owns(d) && m.owner(d) == rows[q]
    ensures HasRow(OutputsTo(m, rows, k), d)
  {
    var A := OutputsTo(m, rows, k - 1);
    var B := m.step(StateTo(m, rows, k - 1), rows[k - 1]).1;
    if q < k - 1 {
      CoveredIsOutput(m, rows, k - 1, q, d);
      var x :| x in A && x.row == d;
      assert x in A + B;
    } else {
      assert OwnerLaw(m, StateTo(m, rows, k - 1), d);
      var x :| x in B && x.row == d;
      assert x in A + B;
    }
  }

  lemma KeptIsWanted(l: seq<OutRow>, keep: seq<int>, d: int)
    requires d in RowsOf(Keep(l, keep))
    ensures d in keep
  {
    var kept := Keep(l, keep);
    var k :| 0 <= k < |kept| && RowsOf(kept)[k] == d;
    assert kept[k] in kept;
    KeepMembers(l, keep, |l|, kept[k]);
  }

  lemma WantedIsKept(m: Machine, rows: seq<int>, keep: seq<int>, d: int)
    requires Lawful(m) && Ascending(rows) && d in keep && Covers(m, rows, d)
    ensures d in RowsOf(Keep(OutputsTo(m, rows, |rows|), keep))
  {
    var l := OutputsTo(m, rows, |rows|);
    var q :| 0 <= q < |rows| && rows[q] == m.owner(d);
    CoveredIsOutput(m, rows, |rows|, q, d);
    var x :| x in l && x.row == d;
    KeepMembers(l, keep, |l|, x);
    var kept := Keep(l, keep);
    var k :| 0 <= k < |kept| && kept[k] == x;
    assert RowsOf(kept)[k] == d;
  }

  /** Over all compute rows, exactly the rows asked for are kept, in order. */
  lemma KeptRows(m: Machine, rows: seq<int>, keep: seq<int>)
    requires Lawful(m) && Ascending(rows) && Ascending(keep)
    requires forall d {:trigger Covers(m, rows, d)} | d in keep :: Covers(m, rows, d)
    ensures RowsOf(Keep(OutputsTo(m, rows, |rows|), keep)) == keep
  {
    var l := OutputsTo(m, rows, |rows|);
    var r := RowsOf(Keep(l, keep));
    OutputsAscending(m, rows, |rows|);
    KeepAscending(l, keep, |l|);
    forall d ensures d in r <==> d in keep {
      if d in r { KeptIsWanted(l, keep, d); }
      if d in keep {
        assert Covers(m, rows, d);
        WantedIsKept(m, rows, keep, d);
      }
    }
    SameRows(r, keep);
  }

  // ---- Ops as machines ---------------------------------------------------------------------

  ghost function MachineOf(a: Action, cols: seq<Contents>, max: int): Machine
    requires ActionOk(a) && |cols| > 0
  {
    Machine(
      Initial(a),
      (st, r) => ActionStep(a, cols, max, st, r),
      d => a.Compute? || InRange(a.rowMap, d),
      d => if a.Remap? && InRange(a.rowMap, d) then UpRow(a.rowMap, d) else d)
  }

  /** `m` is the machine of `a`. The verifier looks inside only where a step is named. */
  ghost predicate Runs(a: Action, cols: seq<Contents>, max: int, m: Machine) {
    && ActionOk(a) && |cols| > 0
    && m.init == Initial(a)
    && (forall st, r {:trigger ActionStep(a, cols, max, st, r)} :: m.step(st, r) == ActionStep(a, cols, max, st, r))
  }

  lemma RemapStepLaws(m: RowMap, r: int, e: Element, d: int)
    requires WellFormed(m)
    ensures Ascending(RowsOf(RemapRows(m, DownOf(m, r), e)))
    ensures HasRow(RemapRows(m, DownOf(m, r), e), d) <==> InRange(m, d) && UpRow(m, d) == r
  {
    DownOfAscending(m, r);
    DownOfExact(m, r, d);
    var ds := DownOf(m, r);
    var l := RemapRows(m, ds, e);
    if d in ds {
      var k :| 0 <= k < |ds| && ds[k] == d;
      assert l[k] in l;
    }
  }

  /** Every op is a lawful machine. */
  lemma MachineLawful(a: Action, cols: seq<Contents>, max: int)
    requires ActionOk(a) && |cols| > 0
    ensures Lawful(MachineOf(a, cols, max)) && Runs(a, cols, max, MachineOf(a, cols, max))
  {
    var m := MachineOf(a, cols, max);
    forall st, r ensures BlockLaw(m, st, r) {
      if a.Remap? {
        var l := m.step(st, r).1;
        RemapStepLaws(a.rowMap, r, cols[0](r), 0);
        forall x | x in l ensures m.owns(x.row) && m.owner(x.row) == r {
          RemapStepLaws(a.rowMap, r, cols[0](r), x.row);
        }
      }
    }
    forall st, d ensures OwnerLaw(m, st, d) {
      if a.Remap? {
        RemapStepLaws(a.rowMap, m.owner(d), cols[0](m.owner(d)), d);
      } else {
        assert m.step(st, d).1[0] in m.step(st, d).1;
      }
    }
    forall d, d' ensures OrderLaw(m, d, d') {
      if a.Remap? && m.owns(d) && m.owns(d') && d <= d' { UpMonotone(a.rowMap, d, d'); }
    }
  }
}
