/** Row maps of the built-in stream ops: the domain samplers behind Sample and Space, and the
remappings that Slice and Unslice perform for one slice group.

Each of them relates the rows of a downstream sequence to the rows of the upstream sequence.
`UpRow` is the map upwards used by demand analysis, `DownOf` the map downwards used during
evaluation. */
module Samplers {
  import opened Rows

  datatype RowMap =
    | All
    | Strided(stride: int)
    | StridedRanges(step: int, starts: seq<int>, ends: seq<int>)
    | Gather(rows: seq<int>)
    | SpaceNull(spacing: int)
    | SpaceRepeat(spacing: int)
    | Slice(group: seq<int>)
    | Unslice(offset: int, count: nat)

  datatype Result<T> = Success(value: T) | Failure(msg: string)

  /** Division rounded towards positive infinity, for a positive divisor. */
  function CeilDiv(a: int, b: int): int
    requires b > 0
  {
    -((-a) / b)
  }

  lemma CeilDivSpec(a: int, b: int, k: int)
    requires b > 0
    ensures k < CeilDiv(a, b) <==> k * b < a
  {
    var c := CeilDiv(a, b);
    assert c * b - b < a <= c * b;
    MulMonotone(k, c - 1, b);
    assert (c - 1) * b == c * b - b;
    MulMonotone(c, k, b);
  }

  lemma MulMonotone(x: int, y: int, b: int)
    requires b >= 0
    ensures x <= y ==> x * b <= y * b
  {
  }

  /** `q` is the quotient as soon as the remainder fits. */
  lemma DivUnique(q: int, e: int, b: int)
    requires 0 <= e < b
    ensures (q * b + e) / b == q && (q * b + e) % b == e
  {
    var d := (q * b + e) / b;
    var m := (q * b + e) % b;
    assert d * b + m == q * b + e;
    MulMonotone(d, q - 1, b);
    MulMonotone(q + 1, d, b);
    assert (q - 1) * b == q * b - b && (q + 1) * b == q * b + b;
  }

  // ---- Strided ranges ----------------------------------------------------------------------

  /** Rows that range `i` contributes to the downstream sequence. */
  function RangeRows(m: RowMap, i: nat): int
    requires m.StridedRanges? && m.step > 0 && |m.starts| == |m.ends| && i < |m.starts|
  {
    CeilDiv(m.ends[i] - m.starts[i], m.step)
  }

  /** `offset_at_range_starts_`: downstream row at which range `i` begins. */
  function OffsetAt(m: RowMap, i: nat): int
    requires m.StridedRanges? && m.step > 0 && |m.starts| == |m.ends| && i <= |m.starts|
  {
    if i == 0 then 0 else OffsetAt(m, i - 1) + RangeRows(m, i - 1)
  }

  ghost predicate RangesOk(m: RowMap) {
    && m.StridedRanges? && m.step > 0 && |m.starts| == |m.ends|
    && (forall i | 0 <= i < |m.starts| :: 0 <= m.starts[i] <= m.ends[i])
    && (forall i, j | 0 <= i < j < |m.starts| :: m.ends[i] <= m.starts[j])
  }

  /** First range from `i` on that ends after downstream row `d`. */
  function RangeOf(m: RowMap, d: int, i: nat): (k: nat)
    requires m.StridedRanges? && m.step > 0 && |m.starts| == |m.ends| && i <= |m.starts|
    ensures i <= k <= |m.starts|
    ensures k < |m.starts| ==> d < OffsetAt(m, k + 1)
    ensures i < k ==> OffsetAt(m, k) <= d
    decreases |m.starts| - i
  {
    if i == |m.starts| || d < OffsetAt(m, i + 1) then i else RangeOf(m, d, i + 1)
  }

  /** First range from `i` on that holds upstream row `r`. */
  function RangeHolding(m: RowMap, r: int, i: nat): (k: nat)
    requires m.StridedRanges? && |m.starts| == |m.ends| && i <= |m.starts|
    ensures i <= k <= |m.starts|
    ensures k < |m.starts| ==> m.starts[k] <= r < m.ends[k]
    ensures forall j | i <= j < k :: !(m.starts[j] <= r < m.ends[j])
    decreases |m.starts| - i
  {
    if i == |m.starts| || m.starts[i] <= r < m.ends[i] then i else RangeHolding(m, r, i + 1)
  }

  lemma {:induction false} OffsetsMonotone(m: RowMap, i: nat, j: nat)
    requires RangesOk(m) && i <= j <= |m.starts|
    ensures 0 <= OffsetAt(m, i) <= OffsetAt(m, j)
    decreases j
  {
    if j > 0 {
      CeilDivSpec(m.ends[j - 1] - m.starts[j - 1], m.step, -1);
      if i < j { OffsetsMonotone(m, i, j - 1); } else { OffsetsMonotone(m, i - 1, j - 1); }
    }
  }

  /** A downstream row of the map falls into exactly one range. */
  lemma RangeOfExact(m: RowMap, d: int, k: nat)
    requires RangesOk(m) && k < |m.starts|
    requires OffsetAt(m, k) <= d < OffsetAt(m, k + 1)
    ensures RangeOf(m, d, 0) == k
  {
    var c := RangeOf(m, d, 0);
    if c + 1 <= k { OffsetsMonotone(m, c + 1, k); }
    if k + 1 <= c { OffsetsMonotone(m, k + 1, c); }
  }

  lemma RangeOfBounds(m: RowMap, d: int)
    requires RangesOk(m) && 0 <= d < OffsetAt(m, |m.starts|)
    ensures var k := RangeOf(m, d, 0);
            k < |m.starts| && OffsetAt(m, k) <= d < OffsetAt(m, k + 1)
  {
  }

  /** Range `k` has its next `q` downstream rows exactly as long as their steps stay inside it. */
  lemma RangeWidth(m: RowMap, k: nat, q: int)
    requires RangesOk(m) && k < |m.starts|
    ensures OffsetAt(m, k) + q < OffsetAt(m, k + 1) <==> q * m.step < m.ends[k] - m.starts[k]
  {
    CeilDivSpec(m.ends[k] - m.starts[k], m.step, q);
  }

  // ---- The maps ----------------------------------------------------------------------------

  /** What the engine needs of a map's arguments: positive strides, and row lists in order. */
  ghost predicate WellFormed(m: RowMap) {
    match m
    case All => true
    case Strided(stride) => stride > 0
    case StridedRanges(_, _, _) => RangesOk(m)
    case Gather(rows) => Ascending(rows) && (forall r | r in rows :: r >= 0)
    case SpaceNull(spacing) => spacing > 0
    case SpaceRepeat(spacing) => spacing > 0
    case Slice(group) => Ascending(group) && (forall r | r in group :: r >= 0)
    case Unslice(offset, _) => offset >= 0
  }

  /** `d` is a row of the downstream sequence. */
  ghost predicate InRange(m: RowMap, d: int)
    requires WellFormed(m)
  {
    match m
    case StridedRanges(_, starts, _) => 0 <= d < OffsetAt(m, |starts|)
    case Gather(rows) => 0 <= d < |rows|
    case Slice(group) => 0 <= d < |group|
    case Unslice(offset, count) => offset <= d < offset + count
    case _ => 0 <= d
  }

  /** The upstream row behind downstream row `d`. */
  function UpRow(m: RowMap, d: int): int
    requires WellFormed(m) && InRange(m, d)
  {
    match m
    case All => d
    case Strided(stride) => d * stride
    case StridedRanges(step, starts, _) =>
      RangeOfBounds(m, d);
      var k := RangeOf(m, d, 0);
      starts[k] + (d - OffsetAt(m, k)) * step
    case Gather(rows) => rows[d]
    case SpaceNull(spacing) => d / spacing
    case SpaceRepeat(spacing) => d / spacing
    case Slice(group) => group[d]
    case Unslice(offset, _) => d - offset
  }

  /** Downstream rows that carry a null element instead of an upstream one. */
  predicate IsNull(m: RowMap, d: int)
    requires m.SpaceNull? ==> m.spacing > 0
  {
    m.SpaceNull? && d % m.spacing != 0
  }

  /** The downstream rows that one upstream row produces. */
  function DownOf(m: RowMap, r: int): seq<int>
    requires WellFormed(m)
  {
    match m
    case All => if r >= 0 then [r] else []
    case Strided(stride) => if r >= 0 && r % stride == 0 then [r / stride] else []
    case StridedRanges(step, starts, _) =>
      var k := RangeHolding(m, r, 0);
      if k < |starts| && (r - starts[k]) % step == 0 then [OffsetAt(m, k) + (r - starts[k]) / step] else []
    case Gather(rows) => if r in rows then [IndexOf(rows, r)] else []
    case SpaceNull(spacing) => if r >= 0 then Interval(r * spacing, r * spacing + spacing) else []
    case SpaceRepeat(spacing) => if r >= 0 then Interval(r * spacing, r * spacing + spacing) else []
    case Slice(group) => if r in group then [IndexOf(group, r)] else []
    case Unslice(offset, count) => if 0 <= r < count then [r + offset] else []
  }

  lemma RangesUpExact(m: RowMap, r: int, d: int)
    requires RangesOk(m)
    ensures d in DownOf(m, r) <==> InRange(m, d) && UpRow(m, d) == r
  {
    if InRange(m, d) && UpRow(m, d) == r { RangesUpDown(m, d); }
    if d in DownOf(m, r) { RangesDownUp(m, r); }
  }

  lemma RangesUpDown(m: RowMap, d: int)
    requires RangesOk(m) && InRange(m, d)
    ensures d in DownOf(m, UpRow(m, d))
  {
    var k := RangeOf(m, d, 0);
    UpWithinRange(m, d);
    var q := d - OffsetAt(m, k);
    UpInRange(m, d, k, q);
    RangeRowDown(m, k, q, UpRow(m, d));
  }

  lemma RangeRowDown(m: RowMap, k: nat, q: nat, r: int)
    requires RangesOk(m) && k < |m.starts| && m.starts[k] <= r < m.ends[k] && r - m.starts[k] == q * m.step
    ensures DownOf(m, r) == [OffsetAt(m, k) + q]
  {
    HoldingUnique(m, r, k);
    DivUnique(q, 0, m.step);
  }

  lemma UpWithinRange(m: RowMap, d: int)
    requires RangesOk(m) && InRange(m, d)
    ensures var k := RangeOf(m, d, 0);
            k < |m.starts| && OffsetAt(m, k) <= d && m.starts[k] <= UpRow(m, d) < m.ends[k]
  {
    RangeOfBounds(m, d);
    var k := RangeOf(m, d, 0);
    var q := d - OffsetAt(m, k);
    UpInRange(m, d, k, q);
    RangeWidth(m, k, q);
    MulMonotone(0, q, m.step);
  }

  lemma WholeSteps(x: int, step: int)
    requires step > 0 && x % step == 0
    ensures (x / step) * step == x && (0 <= x ==> 0 <= x / step)
  {
  }

  lemma UpInRange(m: RowMap, d: int, k: nat, q: nat)
    requires RangesOk(m) && k < |m.starts| && InRange(m, d) && RangeOf(m, d, 0) == k && d - OffsetAt(m, k) == q
    ensures UpRow(m, d) == m.starts[k] + q * m.step
  {
  }

  lemma RangeRowUp(m: RowMap, k: nat, q: nat, d: int)
    requires RangesOk(m) && k < |m.starts| && d == OffsetAt(m, k) + q && d < OffsetAt(m, k + 1)
    ensures InRange(m, d) && UpRow(m, d) == m.starts[k] + q * m.step
  {
    OffsetsMonotone(m, 0, k);
    OffsetsMonotone(m, k + 1, |m.starts|);
    RangeOfExact(m, d, k);
    UpInRange(m, d, k, q);
  }

  lemma RangesDownUp(m: RowMap, r: int)
    requires RangesOk(m)
    ensures forall d | d in DownOf(m, r) :: InRange(m, d) && UpRow(m, d) == r
  {
    var k := RangeHolding(m, r, 0);
    if k < |m.starts| && (r - m.starts[k]) % m.step == 0 {
      var q := (r - m.starts[k]) / m.step;
      WholeSteps(r - m.starts[k], m.step);
      RangeWidth(m, k, q);
      RangeRowUp(m, k, q, OffsetAt(m, k) + q);
      assert DownOf(m, r) == [OffsetAt(m, k) + q];
    }
  }

  lemma HoldingUnique(m: RowMap, r: int, k: nat)
    requires RangesOk(m) && k < |m.starts| && m.starts[k] <= r < m.ends[k]
    ensures RangeHolding(m, r, 0) == k
  {
    var c := RangeHolding(m, r, 0);
    assert c <= k;
  }

  lemma SpaceBlock(r: int, b: int, d: int)
    requires b > 0
    ensures 0 <= r && r * b <= d < r * b + b <==> 0 <= d && d / b == r
  {
    var q := d / b;
    assert d == q * b + d % b;
    if r * b <= d < r * b + b { DivUnique(r, d - r * b, b); }
    MulMonotone(0, r, b);
  }

  lemma SpaceExact(m: RowMap, r: int, d: int)
    requires WellFormed(m) && (m.SpaceNull? || m.SpaceRepeat?)
    ensures d in DownOf(m, r) <==> InRange(m, d) && UpRow(m, d) == r
  {
    SpaceBlock(r, m.spacing, d);
  }

  /** The map downwards is the inverse image of the map upwards: an upstream row produces
  exactly the downstream rows that ask for it. */
  lemma DownOfExact(m: RowMap, r: int, d: int)
    requires WellFormed(m)
    ensures d in DownOf(m, r) <==> InRange(m, d) && UpRow(m, d) == r
  {
    match m
    case All =>
    case Strided(stride) =>
      if 0 <= d { DivUnique(d, 0, stride); MulMonotone(0, d, stride); }
      if 0 <= r { assert r == (r / stride) * stride + r % stride; }
    case StridedRanges(_, _, _) => RangesUpExact(m, r, d);
    case Gather(rows) => ListExact(rows, r, d);
    case SpaceNull(_) => SpaceExact(m, r, d);
    case SpaceRepeat(_) => SpaceExact(m, r, d);
    case Slice(group) => ListExact(group, r, d);
    case Unslice(_, _) =>
  }

  lemma ListExact(rows: seq<int>, r: int, d: int)
    requires Ascending(rows)
    ensures r in rows && d == IndexOf(rows, r) <==> 0 <= d < |rows| && rows[d] == r
  {
  }

  lemma DownOfAscending(m: RowMap, r: int)
    requires WellFormed(m)
    ensures Ascending(DownOf(m, r))
  {
  }

  /** Later downstream rows never ask for earlier upstream rows. */
  lemma UpMonotone(m: RowMap, d: int, d': int)
    requires WellFormed(m) && InRange(m, d) && InRange(m, d') && d <= d'
    ensures UpRow(m, d) <= UpRow(m, d')
  {
    match m
    case Strided(stride) => MulMonotone(d, d', stride);
    case StridedRanges(_, _, _) =>
      RangesUpMonotone(m, d, d');
    case SpaceNull(spacing) => DivMonotone(d, d', spacing);
    case SpaceRepeat(spacing) => DivMonotone(d, d', spacing);
    case _ =>
  }

  lemma RangesUpMonotone(m: RowMap, d: int, d': int)
    requires RangesOk(m) && InRange(m, d) && InRange(m, d') && d <= d'
    ensures UpRow(m, d) <= UpRow(m, d')
  {
    var k, k' := RangeOf(m, d, 0), RangeOf(m, d', 0);
    RangeOrder(m, d, d');
    UpWithinRange(m, d);
    UpWithinRange(m, d');
    if k == k' {
      MulMonotone(d - OffsetAt(m, k), d' - OffsetAt(m, k), m.step);
    } else {
      assert m.ends[k] <= m.starts[k'];
    }
  }

  lemma RangeOrder(m: RowMap, d: int, d': int)
    requires RangesOk(m) && 0 <= d <= d' < OffsetAt(m, |m.starts|)
    ensures RangeOf(m, d, 0) <= RangeOf(m, d', 0)
  {
    RangeOfBounds(m, d);
    RangeOfBounds(m, d');
    var k, k' := RangeOf(m, d, 0), RangeOf(m, d', 0);
    OffsetsMonotone(m, if k' + 1 <= k then k' + 1 else k, k);
  }

  lemma DivMonotone(x: int, y: int, b: int)
    requires x <= y && b > 0
    ensures x / b <= y / b
  {
    var p, q := x / b, y / b;
    assert x == p * b + x % b && y == q * b + y % b;
    MulMonotone(q + 1, p, b);
    assert (q + 1) * b == q * b + b;
  }

  /** Rows upstream of rows are never negative. */
  lemma UpNonNegative(m: RowMap, d: int)
    requires WellFormed(m) && InRange(m, d)
    ensures 0 <= UpRow(m, d)
  {
    match m
    case Strided(stride) => MulMonotone(0, d, stride);
    case StridedRanges(step, _, _) =>
      RangeOfBounds(m, d);
      MulMonotone(0, d - OffsetAt(m, RangeOf(m, d, 0)), step);
    case SpaceNull(spacing) => DivMonotone(0, d, spacing);
    case SpaceRepeat(spacing) => DivMonotone(0, d, spacing);
    case Gather(rows) => assert rows[d] in rows;
    case Slice(group) => assert group[d] in group;
    case _ =>
  }

  // ---- Row lists upwards -------------------------------------------------------------------

  /** Every listed row is a row of the downstream sequence. */
  ghost predicate AllInRange(m: RowMap, ds: seq<int>)
    requires WellFormed(m)
  {
    forall d | d in ds :: InRange(m, d)
  }

  /** The first `n` requested rows are in range. */
  ghost predicate InRangeTo(m: RowMap, ds: seq<int>, n: nat)
    requires WellFormed(m) && n <= |ds|
  {
    forall i {:trigger InRange(m, ds[i])} | 0 <= i < n :: InRange(m, ds[i])
  }

  lemma InRangeAll(m: RowMap, ds: seq<int>)
    requires WellFormed(m)
    ensures AllInRange(m, ds) <==> InRangeTo(m, ds, |ds|)
  {
    if AllInRange(m, ds) {
      forall i | 0 <= i < |ds| ensures InRange(m, ds[i]) { assert ds[i] in ds; }
    }
  }

  ghost function UpRowsTo(m: RowMap, ds: seq<int>, n: nat): (us: seq<int>)
    requires WellFormed(m) && n <= |ds| && InRangeTo(m, ds, n)
    ensures Ascending(us)
  {
    if n == 0 then [] else Insert(UpRowsTo(m, ds, n - 1), UpRow(m, ds[n - 1]))
  }

  /** The upstream rows that a list of downstream rows asks for, each once, in order. */
  ghost function UpRows(m: RowMap, ds: seq<int>): (us: seq<int>)
    requires WellFormed(m) && AllInRange(m, ds)
    ensures Ascending(us)
  {
    UpRowsTo(m, ds, |ds|)
  }

  /** One of the first `n` requested rows asks for row `u`. */
  ghost predicate Asked(m: RowMap, ds: seq<int>, n: nat, u: int)
    requires WellFormed(m) && n <= |ds| && InRangeTo(m, ds, n)
  {
    exists i | 0 <= i < n :: UpRow(m, ds[i]) == u
  }

  lemma AskedMore(m: RowMap, ds: seq<int>, n: nat, u: int)
    requires WellFormed(m) && 0 < n <= |ds| && InRangeTo(m, ds, n)
    ensures Asked(m, ds, n, u) <==> Asked(m, ds, n - 1, u) || UpRow(m, ds[n - 1]) == u
  {
  }

  lemma {:induction false} UpRowsSource(m: RowMap, ds: seq<int>, n: nat, u: int)
    requires WellFormed(m) && n <= |ds| && InRangeTo(m, ds, n)
    ensures u in UpRowsTo(m, ds, n) <==> Asked(m, ds, n, u)
  {
    if n > 0 {
      UpRowsSource(m, ds, n - 1, u);
      AskedMore(m, ds, n, u);
    }
  }

  /** A row is listed exactly when some requested row asks for it. */
  lemma UpRowsExact(m: RowMap, ds: seq<int>, u: int)
    requires WellFormed(m) && AllInRange(m, ds)
    ensures u in UpRows(m, ds) <==> exists d :: d in ds && UpRow(m, d) == u
  {
    UpRowsSource(m, ds, |ds|, u);
    if u in UpRows(m, ds) {
      var i :| 0 <= i < |ds| && UpRow(m, ds[i]) == u;
      assert ds[i] in ds;
    }
    if d :| d in ds && UpRow(m, d) == u {
      var i :| 0 <= i < |ds| && ds[i] == d;
    }
  }

  lemma InsertLast(s: seq<int>, x: int)
    requires Ascending(s) && forall y | y in s :: y < x
    ensures Insert(s, x) == s + [x]
  {
    assert Ascending(s + [x]) by {
      forall i, j | 0 <= i < j < |s + [x]| ensures (s + [x])[i] < (s + [x])[j] {
        assert s[i] in s;
      }
    }
    SameRows(Insert(s, x), s + [x]);
  }

  /** Outside Space, distinct downstream rows ask for distinct upstream rows. */
  lemma UpStrict(m: RowMap, d: int, d': int)
    requires WellFormed(m) && !m.SpaceNull? && !m.SpaceRepeat?
    requires InRange(m, d) && InRange(m, d') && d < d'
    ensures UpRow(m, d) < UpRow(m, d')
  {
    UpMonotone(m, d, d');
    DownOfExact(m, UpRow(m, d), d);
    DownOfExact(m, UpRow(m, d), d');
    assert |DownOf(m, UpRow(m, d))| <= 1;
  }

  lemma UpRowsLast(m: RowMap, ds: seq<int>, i: nat)
    requires WellFormed(m) && !m.SpaceNull? && !m.SpaceRepeat?
    requires Ascending(ds) && i < |ds| && InRangeTo(m, ds, i + 1)
    ensures UpRowsTo(m, ds, i + 1) == UpRowsTo(m, ds, i) + [UpRow(m, ds[i])]
  {
    forall y | y in UpRowsTo(m, ds, i) ensures y < UpRow(m, ds[i]) {
      UpRowsSource(m, ds, i, y);
      var j :| 0 <= j < i && UpRow(m, ds[j]) == y;
      UpStrict(m, ds[j], ds[i]);
    }
    InsertLast(UpRowsTo(m, ds, i), UpRow(m, ds[i]));
  }

  /** Whether one row request can be served; the code reports an error otherwise. */
  method Serves(m: RowMap, d: int) returns (ok: bool)
    requires WellFormed(m) && 0 <= d
    ensures ok <==> InRange(m, d)
  {
    match m
    case StridedRanges(_, starts, _) => ok := d < OffsetAt(m, |starts|);
    case Gather(rows) => ok := d < |rows|;
    case Slice(group) => ok := d < |group|;
    case Unslice(offset, count) => ok := offset <= d < offset + count;
    case _ => ok := true;
  }

  /** `get_upstream_rows`, and the upward remappings of Slice and Unslice. The request is
  refused as soon as one row lies outside the downstream sequence. */
  method GetUpstreamRows(m: RowMap, ds: seq<int>) returns (res: Result<seq<int>>)
    requires WellFormed(m) && Ascending(ds) && forall i | 0 <= i < |ds| :: 0 <= ds[i]
    ensures res.Success? <==> AllInRange(m, ds)
    ensures res.Success? ==> res.value == UpRows(m, ds)
  {
    InRangeAll(m, ds);
    var us: seq<int> := [];
    for i := 0 to |ds|
      invariant InRangeTo(m, ds, i)
      invariant us == UpRowsTo(m, ds, i)
    {
      var ok := Serves(m, ds[i]);
      if !ok {
        return Failure("out of bounds request");
      }
      us := AddUpRow(m, ds, i, us);
    }
    res := Success(us);
  }

  /** Space collects the rows it needs in a set, the other maps append them to a list. */
  method AddUpRow(m: RowMap, ds: seq<int>, i: nat, us: seq<int>) returns (us': seq<int>)
    requires WellFormed(m) && Ascending(ds) && i < |ds| && InRangeTo(m, ds, i + 1)
    requires us == UpRowsTo(m, ds, i)
    ensures us' == UpRowsTo(m, ds, i + 1)
  {
    var u := UpRow(m, ds[i]);
    if m.SpaceNull? || m.SpaceRepeat? {
      us' := Insert(us, u);
    } else {
      UpRowsLast(m, ds, i);
      us' := us + [u];
    }
  }

  // ---- Row lists downwards -----------------------------------------------------------------

  /** A downstream row and the position of the upstream row behind it (-1 for none). */
  datatype DownRow = DownRow(row: int, from: int)

  function Spread(m: RowMap, ds: seq<int>, i: int): (r: seq<DownRow>)
    requires m.SpaceNull? ==> m.spacing > 0
    ensures |r| == |ds|
    ensures forall k | 0 <= k < |ds| :: r[k] == DownRow(ds[k], if IsNull(m, ds[k]) then -1 else i)
  {
    seq(|ds|, k requires 0 <= k < |ds| => DownRow(ds[k], if IsNull(m, ds[k]) then -1 else i))
  }

  /** All downstream rows that the first `n` of a list of upstream rows produce. */
  function DownRows(m: RowMap, us: seq<int>, n: nat): seq<DownRow>
    requires WellFormed(m) && n <= |us|
  {
    if n == 0 then [] else DownRows(m, us, n - 1) + Spread(m, DownOf(m, us[n - 1]), n - 1)
  }

  /** Blocks of downstream rows follow the order of the upstream rows they come from. */
  lemma DownOrder(m: RowMap, r: int, r': int, d: int, d': int)
    requires WellFormed(m) && r < r' && d in DownOf(m, r) && d' in DownOf(m, r')
    ensures d < d'
  {
    DownOfExact(m, r, d);
    DownOfExact(m, r', d');
    if d' <= d { UpMonotone(m, d', d); }
  }

  /** `x` carries the `q`-th upstream row, which is the row it asks for. */
  ghost predicate Carries(m: RowMap, us: seq<int>, q: int, x: DownRow)
    requires WellFormed(m)
  {
    && 0 <= q < |us| && InRange(m, x.row) && us[q] == UpRow(m, x.row)
    && x.from == if IsNull(m, x.row) then -1 else q
  }

  ghost predicate Produces(m: RowMap, us: seq<int>, n: nat, x: DownRow)
    requires WellFormed(m)
  {
    exists q | 0 <= q < n :: Carries(m, us, q, x)
  }

  /** Only rows asking for a row of `us` are produced from `us`. */
  lemma {:induction false} DownRowsProduce(m: RowMap, us: seq<int>, n: nat)
    requires WellFormed(m) && n <= |us|
    ensures forall x | x in DownRows(m, us, n) :: Produces(m, us, n, x)
  {
    if n > 0 {
      DownRowsProduce(m, us, n - 1);
      var ds := DownOf(m, us[n - 1]);
      var B := Spread(m, ds, n - 1);
      forall x | x in DownRows(m, us, n) ensures Produces(m, us, n, x) {
        if x in B {
          var k :| 0 <= k < |B| && B[k] == x;
          DownOfExact(m, us[n - 1], ds[k]);
          assert Carries(m, us, n - 1, x);
        } else {
          assert Produces(m, us, n - 1, x);
          var q :| 0 <= q < n - 1 && Carries(m, us, q, x);
          assert 0 <= q < n;
        }
      }
    }
  }

  /** Every row asking for a row of `us` is produced from `us`. */
  lemma {:induction false} DownRowsComplete(m: RowMap, us: seq<int>, n: nat, q: nat, d: int)
    requires WellFormed(m) && q < n <= |us| && InRange(m, d) && UpRow(m, d) == us[q]
    ensures exists x :: x in DownRows(m, us, n) && x.row == d
  {
    var ds := DownOf(m, us[n - 1]);
    var B := Spread(m, ds, n - 1);
    if q == n - 1 {
      DownOfExact(m, us[n - 1], d);
      var k :| 0 <= k < |ds| && ds[k] == d;
      assert B[k] in DownRows(m, us, n);
    } else {
      DownRowsComplete(m, us, n - 1, q, d);
      var x :| x in DownRows(m, us, n - 1) && x.row == d;
      assert x in DownRows(m, us, n);
    }
  }

  ghost predicate InOrder(l: seq<DownRow>) {
    forall i, j | 0 <= i < j < |l| :: l[i].row < l[j].row
  }

  lemma BlockOrder(m: RowMap, us: seq<int>, n: nat, x: DownRow, d: int)
    requires WellFormed(m) && Ascending(us) && 0 < n <= |us|
    requires x in DownRows(m, us, n - 1) && d in DownOf(m, us[n - 1])
    ensures x.row < d
  {
    DownRowsProduce(m, us, n - 1);
    assert Produces(m, us, n - 1, x);
    var q :| 0 <= q < n - 1 && Carries(m, us, q, x);
    DownOfExact(m, us[q], x.row);
    DownOrder(m, us[q], us[n - 1], x.row, d);
  }

  /** The rows produced from `us` come in order. */
  lemma {:induction false} DownRowsInOrder(m: RowMap, us: seq<int>, n: nat)
    requires WellFormed(m) && Ascending(us) && n <= |us|
    ensures InOrder(DownRows(m, us, n))
  {
    if n > 0 {
      var A := DownRows(m, us, n - 1);
      var ds := DownOf(m, us[n - 1]);
      var B := Spread(m, ds, n - 1);
      DownRowsInOrder(m, us, n - 1);
      DownOfAscending(m, us[n - 1]);
      forall i, j | 0 <= i < |A| && 0 <= j < |B| ensures A[i].row < B[j].row {
        BlockOrder(m, us, n, A[i], ds[j]);
      }
      assert InOrder(A + B);
    }
  }

  /** The listed rows of `l` that are members of `ds`. */
  function KeepRows(l: seq<DownRow>, ds: seq<int>): (r: seq<int>)
    ensures forall d :: d in r <==> d in ds && exists x :: x in l && x.row == d
  {
    if l == [] then []
    else
      var n := |l| - 1;
      assert l == l[..n] + [l[n]];
      KeepRows(l[..n], ds) + (if l[n].row in ds then [l[n].row] else [])
  }

  lemma {:induction false} KeepRowsAscending(l: seq<DownRow>, ds: seq<int>)
    requires InOrder(l)
    ensures Ascending(KeepRows(l, ds))
  {
    if l != [] {
      var n := |l| - 1;
      KeepRowsAscending(l[..n], ds);
      var r := KeepRows(l[..n], ds);
      forall i | 0 <= i < |r| ensures r[i] < l[n].row {
        assert r[i] in r;
        var x :| x in l[..n] && x.row == r[i];
      }
    }
  }

  /** Going up from any ascending in-range request and coming down again restores the request
  once the other produced rows are filtered out, and each produced row knows the upstream
  element it carries. */
  lemma UpDownRoundTrip(m: RowMap, ds: seq<int>)
    requires WellFormed(m) && Ascending(ds) && AllInRange(m, ds)
    ensures var us := UpRows(m, ds);
            && KeepRows(DownRows(m, us, |us|), ds) == ds
            && forall x | x in DownRows(m, us, |us|) :: Produces(m, us, |us|, x)
  {
    var us := UpRows(m, ds);
    DownRowsInOrder(m, us, |us|);
    DownRowsProduce(m, us, |us|);
    var l := DownRows(m, us, |us|);
    KeepRowsAscending(l, ds);
    forall d | d in ds ensures exists x :: x in l && x.row == d {
      UpRowsExact(m, ds, UpRow(m, d));
      var q :| 0 <= q < |us| && us[q] == UpRow(m, d);
      DownRowsComplete(m, us, |us|, q, d);
    }
    SameRows(KeepRows(l, ds), ds);
  }

  /** Some range holds row `r`. */
  ghost predicate Held(m: RowMap, r: int)
    requires m.StridedRanges? && |m.starts| == |m.ends|
  {
    RangeHolding(m, r, 0) < |m.starts|
  }

  ghost predicate HeldAll(m: RowMap, us: seq<int>, n: nat)
    requires m.StridedRanges? && |m.starts| == |m.ends| && n <= |us|
  {
    forall i | 0 <= i < n :: Held(m, us[i])
  }

  /** The code of StridedRanges gives up for good at the first row outside every range. */
  ghost predicate StopsAt(m: RowMap, us: seq<int>, n: nat)
    requires WellFormed(m)
  {
    && n <= |us|
    && (n < |us| ==> m.StridedRanges? && !Held(m, us[n]))
    && (m.StridedRanges? ==> HeldAll(m, us, n))
  }

  ghost predicate Rowless(m: RowMap, us: seq<int>, j: nat)
    requires WellFormed(m) && j < |us|
  {
    DownOf(m, us[j]) == []
  }

  ghost predicate NoRowsFrom(m: RowMap, us: seq<int>, i: nat, n: nat)
    requires WellFormed(m) && i <= n <= |us|
  {
    forall j | i <= j < n :: Rowless(m, us, j)
  }

  /** List `k + 1` extends list `k`. */
  ghost predicate Extends(ls: seq<seq<DownRow>>, k: nat) {
    k + 1 < |ls| && ls[k] <= ls[k + 1]
  }

  /** ... by nothing. */
  ghost predicate Repeats(ls: seq<seq<DownRow>>, k: nat) {
    k + 1 < |ls| && ls[k] == ls[k + 1]
  }

  lemma {:induction false} PrefixChain(ls: seq<seq<DownRow>>, i: nat, n: nat)
    requires i <= n < |ls| && forall k: nat | i <= k < n :: Extends(ls, k)
    ensures ls[i] <= ls[n]
    ensures ls[i] == ls[n] <==> forall k: nat | i <= k < n :: Repeats(ls, k)
    decreases n
  {
    if i < n {
      PrefixChain(ls, i, n - 1);
      assert Extends(ls, n - 1);
      assert Repeats(ls, n - 1) <==> ls[n - 1] == ls[n];
    }
  }

  lemma NextRows(m: RowMap, us: seq<int>, n: nat)
    requires WellFormed(m) && 0 < n <= |us|
    ensures DownRows(m, us, n - 1) <= DownRows(m, us, n)
    ensures DownRows(m, us, n - 1) == DownRows(m, us, n) <==> DownOf(m, us[n - 1]) == []
  {
    var block := Spread(m, DownOf(m, us[n - 1]), n - 1);
    assert |DownRows(m, us, n)| == |DownRows(m, us, n - 1)| + |block|;
  }

  /** The downstream rows of longer and longer lists. */
  ghost function Growing(m: RowMap, us: seq<int>): (ls: seq<seq<DownRow>>)
    requires WellFormed(m)
    ensures |ls| == |us| + 1 && forall k | 0 <= k < |ls| :: ls[k] == DownRows(m, us, k)
  {
    seq(|us| + 1, k requires 0 <= k <= |us| => DownRows(m, us, k))
  }

  lemma GrowingStep(m: RowMap, us: seq<int>, ls: seq<seq<DownRow>>, k: nat)
    requires WellFormed(m) && k < |us| && ls == Growing(m, us)
    ensures Extends(ls, k) && (Repeats(ls, k) <==> Rowless(m, us, k))
  {
    NextRows(m, us, k + 1);
  }

  /** A longer list of upstream rows adds nothing exactly if its further rows have no downstream rows. */
  lemma DownRowsGrow(m: RowMap, us: seq<int>, i: nat, n: nat)
    requires WellFormed(m) && i <= n <= |us|
    ensures DownRows(m, us, i) <= DownRows(m, us, n)
    ensures DownRows(m, us, i) == DownRows(m, us, n) <==> NoRowsFrom(m, us, i, n)
  {
    var ls := Growing(m, us);
    forall k: nat | i <= k < n ensures Extends(ls, k) && (Repeats(ls, k) <==> Rowless(m, us, k)) {
      GrowingStep(m, us, ls, k);
    }
    PrefixChain(ls, i, n);
  }

  /** No row behind one outside every range has a downstream row. */
  ghost predicate NothingBehind(m: RowMap, us: seq<int>)
    requires WellFormed(m)
  {
    m.StridedRanges? ==> forall i, j | 0 <= i < j < |us| && !Held(m, us[i]) :: Rowless(m, us, j)
  }

  lemma BehindStop(m: RowMap, us: seq<int>, n: nat)
    requires WellFormed(m) && StopsAt(m, us, n)
    ensures NothingBehind(m, us) <==> NoRowsFrom(m, us, n, |us|)
  {
    if n < |us| {
      assert Rowless(m, us, n);
      if NothingBehind(m, us) {
        forall j | n <= j < |us| ensures Rowless(m, us, j) { assert j == n || !Held(m, us[n]); }
      }
    }
  }

  /** Giving up at the first row outside every range loses nothing if and only if no row behind one
  outside every range has a downstream row. */
  lemma NothingDropped(m: RowMap, us: seq<int>, n: nat)
    requires WellFormed(m) && StopsAt(m, us, n)
    ensures DownRows(m, us, n) == DownRows(m, us, |us|) <==> NothingBehind(m, us)
  {
    DownRowsGrow(m, us, n, |us|);
    BehindStop(m, us, n);
  }

  /** A row of the second range comes behind a row of neither: it is dropped. */
  lemma BehindGap(m: RowMap, us: seq<int>)
    requires RangesOk(m) && |m.starts| == 2 && |us| == 3
    requires m.starts[0] <= us[0] < m.ends[0] <= us[1] < m.starts[1] == us[2] < m.ends[1]
    ensures StopsAt(m, us, 1) && DownOf(m, us[2]) == [OffsetAt(m, 1)]
    ensures DownRows(m, us, 1) != DownRows(m, us, |us|)
  {
    HoldingUnique(m, us[0], 0);
    RangeRowDown(m, 1, 0, us[2]);
    NothingDropped(m, us, 1);
  }

  /** Row 10 lies in a range and is dropped, because row 5 before it lies in none. */
  lemma RowDropped(m: RowMap, us: seq<int>)
    requires m == StridedRanges(1, [0, 10], [2, 12]) && us == [0, 5, 10]
    ensures WellFormed(m) && StopsAt(m, us, 1) && DownOf(m, us[2]) == [2]
    ensures DownRows(m, us, 1) != DownRows(m, us, |us|)
  {
    BehindGap(m, us);
  }

  /** The scan over the ranges stands at `range`, and no row from `r` on lies before it. */
  ghost predicate Cursor(m: RowMap, range: nat, offset: int, r: int)
    requires RangesOk(m)
  {
    range <= |m.starts| && offset == OffsetAt(m, range) && forall j | 0 <= j < range :: m.ends[j] <= r
  }

  lemma CursorAhead(m: RowMap, range: nat, offset: int, r: int, r': int)
    requires RangesOk(m) && Cursor(m, range, offset, r) && r <= r'
    ensures Cursor(m, range, offset, r')
  {
  }

  /** No range before `k` holds row `r`. */
  ghost predicate NotHeldBefore(m: RowMap, r: int, k: nat)
    requires RangesOk(m) && k <= |m.starts|
  {
    forall j | 0 <= j < k :: !(m.starts[j] <= r < m.ends[j])
  }

  lemma ScanEnd(m: RowMap, r: int, k: nat)
    requires RangesOk(m) && k <= |m.starts| && NotHeldBefore(m, r, k)
    requires k < |m.starts| ==> m.starts[k] <= r < m.ends[k]
    ensures k == RangeHolding(m, r, 0)
    ensures k < |m.starts| ==> Cursor(m, k, OffsetAt(m, k), r)
  {
    if k < |m.starts| { HoldingUnique(m, r, k); }
  }

  method RelativeRow(m: RowMap, r: int, offset: int, range: nat) returns (ds: seq<int>)
    requires RangesOk(m) && range == RangeHolding(m, r, 0) < |m.starts| && offset == OffsetAt(m, range)
    ensures ds == DownOf(m, r)
  {
    var relative := r - m.starts[range];
    ds := if relative % m.step == 0 then [offset + relative / m.step] else [];
  }

  method ScanRow(m: RowMap, r: int, offset: int, range: nat)
    returns (ok: bool, offset': int, range': nat, ds: seq<int>)
    requires RangesOk(m) && Cursor(m, range, offset, r)
    ensures ok <==> Held(m, r)
    ensures ok ==> Cursor(m, range', offset', r) && ds == DownOf(m, r)
  {
    offset', range', ds := offset, range, [];
    while range' < |m.ends| && !(m.starts[range'] <= r < m.ends[range'])
      invariant 0 <= range' <= |m.starts|
      invariant offset' == OffsetAt(m, range')
      invariant NotHeldBefore(m, r, range')
    {
      offset' := offset' + RangeRows(m, range');
      range' := range' + 1;
    }
    ScanEnd(m, r, range');
    ok := range' != |m.ends|;
    if ok {
      ds := RelativeRow(m, r, offset', range');
    }
  }

  method RangesDownstreamRows(m: RowMap, us: seq<int>) returns (out: seq<DownRow>, ghost n: nat)
    requires RangesOk(m) && Ascending(us)
    ensures StopsAt(m, us, n)
    ensures out == DownRows(m, us, n)
  {
    out := [];
    var offset, range := 0, 0;
    for i := 0 to |us|
      invariant i < |us| ==> Cursor(m, range, offset, us[i])
      invariant HeldAll(m, us, i)
      invariant out == DownRows(m, us, i)
    {
      var ok, offset', range', ds := ScanRow(m, us[i], offset, range);
      if !ok {
        n := i;
        return;
      }
      var block := SpreadRows(m, ds, i);
      out, offset, range := out + block, offset', range';
      if i + 1 < |us| { CursorAhead(m, range, offset, us[i], us[i + 1]); }
    }
    n := |us|;
  }

  method SpreadRows(m: RowMap, ds: seq<int>, i: int) returns (block: seq<DownRow>)
    requires m.SpaceNull? ==> m.spacing > 0
    ensures block == Spread(m, ds, i)
  {
    block := [];
    for k := 0 to |ds|
      invariant block == Spread(m, ds, i)[..k]
    {
      block := block + [DownRow(ds[k], if IsNull(m, ds[k]) then -1 else i)];
    }
  }

  /** `get_downstream_rows`, and the downward remappings of Slice and Unslice. */
  method GetDownstreamRows(m: RowMap, us: seq<int>) returns (out: seq<DownRow>, ghost n: nat)
    requires WellFormed(m) && Ascending(us)
    ensures StopsAt(m, us, n) && out == DownRows(m, us, n)
    ensures out == DownRows(m, us, |us|) <==> NothingBehind(m, us)
  {
    if m.StridedRanges? {
      out, n := RangesDownstreamRows(m, us);
      NothingDropped(m, us, n);
      return;
    }
    out, n := [], |us|;
    for i := 0 to |us|
      invariant out == DownRows(m, us, i)
    {
      var block := SpreadRows(m, DownOf(m, us[i]), i);
      out := out + block;
    }
  }

  // ---- Row counts --------------------------------------------------------------------------

  /** `k` counts the downstream rows that an upstream sequence of `n` rows can supply. */
  ghost predicate Counts(m: RowMap, n: int, k: int)
    requires WellFormed(m)
  {
    k >= 0 && forall d | 0 <= d :: InRange(m, d) && UpRow(m, d) < n <==> d < k
  }

  function FirstEndingAfter(m: RowMap, n: int, i: nat): (k: nat)
    requires m.StridedRanges? && |m.starts| == |m.ends| && i <= |m.ends|
    ensures i <= k <= |m.ends|
    ensures k < |m.ends| ==> n < m.ends[k]
    ensures forall j | i <= j < k :: m.ends[j] <= n
    decreases |m.ends| - i
  {
    if i == |m.ends| || n < m.ends[i] then i else FirstEndingAfter(m, n, i + 1)
  }

  /** The first range that the sequence does not cover starts before the sequence ends, give or
  take less than a stride. */
  ghost predicate RangeReached(m: RowMap, n: int)
    requires WellFormed(m)
  {
    m.StridedRanges? ==>
      var i := FirstEndingAfter(m, n, 0);
      i < |m.starts| ==> m.starts[i] < n + m.step
  }

  /** Rows of a Gather below `n`, for ascending rows. */
  function GatheredBelow(rows: seq<int>, n: int, k: nat): (c: nat)
    requires k <= |rows|
    ensures k <= c <= |rows|
    ensures c < |rows| ==> rows[c] >= n
    ensures forall j | k <= j < c :: rows[j] < n
    decreases |rows| - k
  {
    if k == |rows| || rows[k] >= n then k else GatheredBelow(rows, n, k + 1)
  }

  /** The number that a sampler gives for an upstream sequence of `n` rows. */
  function DownstreamCount(m: RowMap, n: int): int
    requires m.Strided? ==> m.stride > 0
    requires m.StridedRanges? ==> m.step > 0 && |m.starts| == |m.ends|
  {
    match m
    case Strided(stride) => CeilDiv(n, stride)
    case StridedRanges(step, starts, ends) =>
      var i := FirstEndingAfter(m, n, 0);
      OffsetAt(m, i) + (if i == |ends| then 0 else CeilDiv(n - starts[i], step))
    case Gather(rows) => GatheredBelow(rows, n, 0)
    case SpaceNull(spacing) => n * spacing
    case SpaceRepeat(spacing) => n * spacing
    case _ => n
  }

  /** The count is right exactly when the first range that the upstream sequence does not cover starts
  less than a stride past its end. */
  lemma CountExact(m: RowMap, n: int)
    requires WellFormed(m) && !m.Slice? && !m.Unslice? && 0 <= n
    ensures Counts(m, n, DownstreamCount(m, n)) <==> RangeReached(m, n)
  {
    match m
    case Strided(_) => CountStrided(m, n);
    case StridedRanges(_, _, _) => CountRanges(m, n, FirstEndingAfter(m, n, 0));
    case SpaceNull(_) => CountSpace(m, n);
    case SpaceRepeat(_) => CountSpace(m, n);
    case _ =>
  }

  /** There is at most one right count. */
  lemma CountUnique(m: RowMap, n: int, k: int, k': int)
    requires WellFormed(m) && Counts(m, n, k) && Counts(m, n, k')
    ensures k == k'
  {
    var d := if k < k' then k else k';
    var supplied := InRange(m, d) && UpRow(m, d) < n;
    assert supplied <==> d < k;
    assert supplied <==> d < k';
  }

  /** If the first range that is not covered starts further away, the count is too small: the ranges
  before it are all there is, and something is subtracted from their rows. */
  lemma CountTooSmall(m: RowMap, n: int, k: int)
    requires WellFormed(m) && 0 <= n && !RangeReached(m, n)
    ensures Counts(m, n, OffsetAt(m, FirstEndingAfter(m, n, 0)))
    ensures Counts(m, n, k) ==> DownstreamCount(m, n) < k
  {
    var i := FirstEndingAfter(m, n, 0);
    OffsetsMonotone(m, 0, i);
    OffsetsMonotone(m, i, |m.starts|);
    CeilDivSpec(n - m.starts[i], m.step, -1);
    forall d | 0 <= d ensures InRange(m, d) && UpRow(m, d) < n <==> d < OffsetAt(m, i) {
      RowsOfCovered(m, n, i, d);
    }
    if Counts(m, n, k) { CountUnique(m, n, k, OffsetAt(m, i)); }
  }

  /** With 5 rows upstream, the range from 10 to 20 is counted as -5 rows. */
  lemma CountBelowZero()
    ensures var m := StridedRanges(1, [10], [20]); WellFormed(m) && DownstreamCount(m, 5) == -5 && Counts(m, 5, 0)
  {
    var m := StridedRanges(1, [10], [20]);
    assert FirstEndingAfter(m, 5, 0) == 0;
    forall d | 0 <= d && InRange(m, d) ensures UpRow(m, d) >= 5 { RangesFirst(m, d); }
  }

  /** Nothing is taken from before the first range. */
  lemma RangesFirst(m: RowMap, d: int)
    requires RangesOk(m) && InRange(m, d)
    ensures |m.starts| > 0 && UpRow(m, d) >= m.starts[0]
  {
    RangeOfBounds(m, d);
    var k := RangeOf(m, d, 0);
    MulMonotone(0, d - OffsetAt(m, k), m.step);
  }

  /** A wrong count is too small. */
  lemma CountBelow(m: RowMap, n: int)
    requires WellFormed(m) && 0 <= n && !RangeReached(m, n)
    ensures forall c | Counts(m, n, c) :: DownstreamCount(m, n) < c
  {
    forall c | Counts(m, n, c) ensures DownstreamCount(m, n) < c { CountTooSmall(m, n, c); }
  }

  method CoveredRanges(m: RowMap, n: int) returns (i: nat)
    requires RangesOk(m)
    ensures i == FirstEndingAfter(m, n, 0)
  {
    i := 0;
    while i < |m.ends| && m.ends[i] <= n
      invariant 0 <= i <= |m.ends|
      invariant FirstEndingAfter(m, n, 0) == FirstEndingAfter(m, n, i)
    {
      i := i + 1;
    }
  }

  method NumRangesRows(m: RowMap, n: int) returns (k: int)
    requires RangesOk(m)
    ensures k == DownstreamCount(m, n)
  {
    var i := CoveredRanges(m, n);
    k := 0;
    for se := 0 to i
      invariant k == OffsetAt(m, se)
    {
      k := k + RangeRows(m, se);
    }
    if i != |m.ends| {
      k := k + CeilDiv(n - m.starts[i], m.step);
    }
  }

  method NumGathered(rows: seq<int>, n: int) returns (k: nat)
    ensures k == GatheredBelow(rows, n, 0)
  {
    k := 0;
    while k < |rows| && rows[k] < n
      invariant 0 <= k <= |rows|
      invariant GatheredBelow(rows, n, 0) == GatheredBelow(rows, n, k)
    {
      k := k + 1;
    }
  }

  /** `get_num_downstream_rows`. The count it returns is right or too small. */
  method NumDownstreamRows(m: RowMap, n: int) returns (k: int)
    requires WellFormed(m) && !m.Slice? && !m.Unslice? && 0 <= n
    ensures k == DownstreamCount(m, n)
    ensures Counts(m, n, k) <==> RangeReached(m, n)
    ensures !RangeReached(m, n) ==> forall c | Counts(m, n, c) :: k < c
  {
    CountExact(m, n);
    if !RangeReached(m, n) { CountBelow(m, n); }
    match m
    case All => k := n;
    case Strided(stride) => k := CeilDiv(n, stride);
    case StridedRanges(_, _, _) => k := NumRangesRows(m, n);
    case Gather(rows) => k := NumGathered(rows, n);
    case SpaceNull(spacing) => k := n * spacing;
    case SpaceRepeat(spacing) => k := n * spacing;
  }

  lemma CountStrided(m: RowMap, n: int)
    requires WellFormed(m) && m.Strided? && 0 <= n
    ensures Counts(m, n, CeilDiv(n, m.stride))
  {
    forall d | 0 <= d ensures d * m.stride < n <==> d < CeilDiv(n, m.stride) {
      CeilDivSpec(n, m.stride, d);
    }
    CeilDivSpec(n, m.stride, -1);
  }

  lemma CountSpace(m: RowMap, n: int)
    requires WellFormed(m) && (m.SpaceNull? || m.SpaceRepeat?) && 0 <= n
    ensures Counts(m, n, n * m.spacing)
  {
    var b := m.spacing;
    MulMonotone(0, n, b);
    forall d | 0 <= d ensures d / b < n <==> d < n * b {
      var q := d / b;
      assert d == q * b + d % b;
      MulMonotone(q + 1, n, b);
      MulMonotone(n, q, b);
      assert (q + 1) * b == q * b + b;
    }
  }

  /** Rows of the ranges before `i` are below `n`. */
  lemma RangeBefore(m: RowMap, n: int, i: nat, d: int)
    requires RangesOk(m) && i == FirstEndingAfter(m, n, 0)
    requires 0 <= d < OffsetAt(m, i)
    ensures InRange(m, d) && UpRow(m, d) < n
  {
    OffsetsMonotone(m, i, |m.starts|);
    UpWithinRange(m, d);
    RangeOfBounds(m, d);
    var k := RangeOf(m, d, 0);
    OffsetsMonotone(m, if i <= k then i else k, k);
    assert k < i;
  }

  /** A row of a later range than `i`. */
  lemma RangeBeyond(m: RowMap, i: nat, k: nat, q: int)
    requires RangesOk(m) && i < k <= |m.starts| && OffsetAt(m, k) <= OffsetAt(m, i) + q
    ensures m.ends[i] - m.starts[i] <= q * m.step
  {
    OffsetsMonotone(m, i + 1, k);
    RangeWidth(m, i, q);
  }

  lemma RangeNotBefore(m: RowMap, i: nat, d: int)
    requires RangesOk(m) && i < |m.starts| && InRange(m, d) && OffsetAt(m, i) <= d
    ensures i <= RangeOf(m, d, 0) < |m.starts|
  {
    RangeOfBounds(m, d);
    var k := RangeOf(m, d, 0);
    if k < i { OffsetsMonotone(m, k + 1, i); }
  }

  /** From range `i` on, a row is below `n` exactly when it lies in the covered part of `i`. */
  lemma RangeAfter(m: RowMap, n: int, i: nat, d: int, q: nat)
    requires RangesOk(m) && i == FirstEndingAfter(m, n, 0) && i < |m.starts|
    requires InRange(m, d) && d == OffsetAt(m, i) + q
    ensures UpRow(m, d) < n <==> q * m.step < n - m.starts[i]
  {
    var k := RangeOf(m, d, 0);
    RangeNotBefore(m, i, d);
    UpWithinRange(m, d);
    if k == i { UpInRange(m, d, k, q); } else { RangeBeyond(m, i, k, q); }
  }

  /** If the first range that is not covered lies beyond the end, the covered ranges supply all there is. */
  lemma RowsOfCovered(m: RowMap, n: int, i: nat, d: nat)
    requires RangesOk(m) && i == FirstEndingAfter(m, n, 0) && i < |m.starts| && n <= m.starts[i]
    ensures InRange(m, d) && UpRow(m, d) < n <==> d < OffsetAt(m, i)
  {
    OffsetsMonotone(m, i, |m.starts|);
    if d < OffsetAt(m, i) {
      RangeBefore(m, n, i, d);
    } else if InRange(m, d) {
      RangeAfter(m, n, i, d, d - OffsetAt(m, i));
      MulMonotone(0, d - OffsetAt(m, i), m.step);
    }
  }

  /** What `num_downstream_rows` answers for strided ranges, given the first range not covered. */
  function RangesAnswer(m: RowMap, n: int, i: nat): int
    requires RangesOk(m) && i <= |m.starts|
  {
    OffsetAt(m, i) + if i < |m.starts| then CeilDiv(n - m.starts[i], m.step) else 0
  }

  /** Row `d` of the map is below `n` exactly if it is among the answered ones. */
  lemma AnsweredRow(m: RowMap, n: int, i: nat, d: nat)
    requires RangesOk(m) && i == FirstEndingAfter(m, n, 0) && OffsetAt(m, i) <= RangesAnswer(m, n, i)
    ensures InRange(m, d) && UpRow(m, d) < n <==> d < RangesAnswer(m, n, i)
  {
    if d < OffsetAt(m, i) {
      RangeBefore(m, n, i, d);
    } else if i < |m.starts| {
      var q := d - OffsetAt(m, i);
      CeilDivSpec(n - m.starts[i], m.step, q);
      PartialRange(m, n, i);
      if InRange(m, d) { RangeAfter(m, n, i, d, q); }
    }
  }

  lemma CountRanges(m: RowMap, n: int, i: nat)
    requires RangesOk(m) && 0 <= n && i == FirstEndingAfter(m, n, 0)
    ensures Counts(m, n, RangesAnswer(m, n, i)) <==> RangeReached(m, n)
  {
    var k := RangesAnswer(m, n, i);
    OffsetsMonotone(m, 0, i);
    assert RangeReached(m, n) <==> OffsetAt(m, i) <= k by {
      if i < |m.starts| { CeilDivSpec(n - m.starts[i], m.step, -1); }
    }
    if OffsetAt(m, i) <= k {
      forall d | 0 <= d ensures InRange(m, d) && UpRow(m, d) < n <==> d < k { AnsweredRow(m, n, i, d); }
    } else if 0 <= k {
      RangeBefore(m, n, i, k);
      assert !(InRange(m, k) && UpRow(m, k) < n <==> k < k);
    }
  }

  lemma PartialRange(m: RowMap, n: int, i: nat)
    requires RangesOk(m) && i < |m.starts| && n < m.ends[i]
    ensures CeilDiv(n - m.starts[i], m.step) <= RangeRows(m, i)
    ensures OffsetAt(m, i) + CeilDiv(n - m.starts[i], m.step) <= OffsetAt(m, |m.starts|)
  {
    var c := CeilDiv(n - m.starts[i], m.step);
    CeilDivSpec(n - m.starts[i], m.step, c - 1);
    CeilDivSpec(m.ends[i] - m.starts[i], m.step, c - 1);
    OffsetsMonotone(m, i + 1, |m.starts|);
  }
}
