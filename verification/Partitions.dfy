/** Partitioners: they cut a sequence of rows into the groups of a slice. */
module Partitions {
  import opened Rows
  import opened Samplers

  /** `Spaced`: every `stride`-th row, `size` of them per group. `Ranges`: one group per range. */
  datatype Partitioner =
    | Spaced(stride: int, size: int)
    | Ranges(stride: int, starts: seq<int>, ends: seq<int>)

  predicate Shaped(p: Partitioner) {
    p.stride > 0 && (p.Spaced? ==> p.size > 0) && (p.Ranges? ==> |p.starts| == |p.ends|)
  }

  /** What the constructors check. */
  predicate Accepts(p: Partitioner, n: int) {
    Shaped(p) && (p.Ranges? ==> forall i | 0 <= i < |p.starts| :: p.starts[i] <= p.ends[i] <= n)
  }

  /** The rows `first, first + stride, ...`, `count` of them. */
  function Steps(first: int, stride: int, count: nat): (r: seq<int>)
    ensures |r| == count && forall i | 0 <= i < count :: r[i] == first + i * stride
  {
    seq(count, i requires 0 <= i < count => first + i * stride)
  }

  function Max0(x: int): nat {
    if x < 0 then 0 else x
  }

  function NumGroups(p: Partitioner, n: int): nat
    requires Shaped(p)
  {
    match p
    case Spaced(stride, size) => Max0(CeilDiv(CeilDiv(n, stride), size))
    case Ranges(_, starts, _) => |starts|
  }

  /** Position of the first row of group `g` among all rows selected. */
  function GroupStart(p: Partitioner, n: int, g: nat): int
    requires Shaped(p) && g <= NumGroups(p, n)
  {
    match p
    case Spaced(stride, size) => if g == NumGroups(p, n) then CeilDiv(n, stride) else g * size
    case Ranges(stride, starts, ends) =>
      if g == 0 then 0 else GroupStart(p, n, g - 1) + CeilDiv(ends[g - 1] - starts[g - 1], stride)
  }

  function GroupSize(p: Partitioner, n: int, g: nat): int
    requires Accepts(p, n) && g < NumGroups(p, n)
  {
    GroupStart(p, n, g + 1) - GroupStart(p, n, g)
  }

  /** The rows of group `g`. */
  function Group(p: Partitioner, n: int, g: nat): seq<int>
    requires Accepts(p, n) && g < NumGroups(p, n)
  {
    match p
    case Spaced(stride, size) => Steps(g * size * stride, stride, Max0(GroupSize(p, n, g)))
    case Ranges(stride, starts, ends) => Steps(starts[g], stride, Max0(GroupSize(p, n, g)))
  }

  lemma CeilDivNonNegative(a: int, b: int)
    requires b > 0 && a >= 0
    ensures CeilDiv(a, b) >= 0
    ensures a > 0 ==> CeilDiv(a, b) > 0
  {
    CeilDivSpec(a, b, 0);
    CeilDivSpec(a, b, -1);
  }

  /** Full groups in front, a last one that is not empty. */
  lemma SpacedGroups(p: Partitioner, n: int, g: nat)
    requires Accepts(p, n) && p.Spaced?
    ensures g < NumGroups(p, n) <==> g * p.size < CeilDiv(n, p.stride)
  {
    CeilDivSpec(CeilDiv(n, p.stride), p.size, g);
  }

  /** No group has a negative size. */
  lemma GroupSizes(p: Partitioner, n: int, g: nat)
    requires Accepts(p, n) && g < NumGroups(p, n)
    ensures GroupSize(p, n, g) >= 0
    ensures p.Spaced? ==> 0 < GroupSize(p, n, g) <= p.size
    ensures p.Spaced? && g + 1 < NumGroups(p, n) ==> GroupSize(p, n, g) == p.size
    ensures |Group(p, n, g)| == GroupSize(p, n, g)
  {
    match p
    case Spaced(stride, size) =>
      SpacedGroups(p, n, g);
      SpacedGroups(p, n, g + 1);
      assert (g + 1) * size == g * size + size;
    case Ranges(stride, starts, ends) =>
      CeilDivNonNegative(ends[g] - starts[g], stride);
  }

  /** The rows of the first `g` groups, one after the other. */
  function GroupsTo(p: Partitioner, n: int, g: nat): seq<int>
    requires Accepts(p, n) && g <= NumGroups(p, n)
  {
    if g == 0 then [] else GroupsTo(p, n, g - 1) + Group(p, n, g - 1)
  }

  lemma StepsConcat(stride: int, a: nat, b: nat)
    ensures Steps(0, stride, a) + Steps(a * stride, stride, b) == Steps(0, stride, a + b)
  {
    forall i | 0 <= i < b ensures a * stride + i * stride == (a + i) * stride { }
  }

  /** The groups of a spaced partitioner, put together, are every `stride`-th row of the sequence. */
  lemma {:induction false} SpacedPartition(p: Partitioner, n: int, g: nat)
    requires Accepts(p, n) && p.Spaced? && n >= 0 && g <= NumGroups(p, n)
    ensures GroupStart(p, n, g) >= 0 && GroupsTo(p, n, g) == Steps(0, p.stride, GroupStart(p, n, g))
    ensures GroupStart(p, n, NumGroups(p, n)) == CeilDiv(n, p.stride)
  {
    CeilDivNonNegative(n, p.stride);
    if g == 0 {
      if NumGroups(p, n) == 0 { SpacedGroups(p, n, 0); }
    } else {
      SpacedPartition(p, n, g - 1);
      GroupSizes(p, n, g - 1);
      StepsConcat(p.stride, GroupStart(p, n, g - 1), GroupSize(p, n, g - 1));
    }
  }

  lemma StepsAscend(first: int, stride: int, count: nat)
    requires stride > 0
    ensures Ascending(Steps(first, stride, count))
  {
    var rows := Steps(first, stride, count);
    forall i, j | 0 <= i < j < |rows| ensures rows[i] < rows[j] {
      MulMonotone(i + 1, j, stride);
      assert (i + 1) * stride == i * stride + stride;
    }
  }

  lemma SpacedEnd(p: Partitioner, n: int, g: nat)
    requires Accepts(p, n) && p.Spaced? && g < NumGroups(p, n)
    ensures g * p.size <= GroupStart(p, n, g + 1)
    ensures var total, end := CeilDiv(n, p.stride), g * p.size + p.size;
            GroupStart(p, n, g + 1) == if total < end then total else end
  {
    SpacedGroups(p, n, g);
    SpacedGroups(p, n, g + 1);
    assert (g + 1) * p.size == g * p.size + p.size;
  }

  lemma SpacedBound(p: Partitioner, n: int, g: nat, i: nat)
    requires Accepts(p, n) && p.Spaced? && g < NumGroups(p, n) && i < GroupSize(p, n, g)
    ensures 0 <= g * p.size * p.stride + i * p.stride < n
  {
    SpacedEnd(p, n, g);
    MulMonotone(0, g, p.size);
    StepBound(g * p.size, i, p.stride, n);
  }

  lemma StepBound(first: nat, i: nat, stride: int, n: int)
    requires stride > 0 && first + i < CeilDiv(n, stride)
    ensures 0 <= first * stride + i * stride < n
  {
    MulMonotone(0, first + i, stride);
    CeilDivSpec(n, stride, first + i);
    assert (first + i) * stride == first * stride + i * stride;
  }

  lemma RangeBound(p: Partitioner, n: int, g: nat, i: nat)
    requires Accepts(p, n) && p.Ranges? && g < NumGroups(p, n) && i < GroupSize(p, n, g)
    ensures p.starts[g] <= p.starts[g] + i * p.stride < p.ends[g]
  {
    MulMonotone(0, i, p.stride);
    CeilDivSpec(p.ends[g] - p.starts[g], p.stride, i);
  }

  /** Groups ascend. They stay within the sequence unless a range that is not empty starts before row 0,
  which the constructor lets pass. */
  lemma GroupRows(p: Partitioner, n: int, g: nat)
    requires Accepts(p, n) && g < NumGroups(p, n)
    ensures Ascending(Group(p, n, g)) && forall r | r in Group(p, n, g) :: r < n
    ensures (forall r | r in Group(p, n, g) :: 0 <= r) <==>
            (p.Ranges? ==> 0 <= p.starts[g] || p.starts[g] == p.ends[g])
  {
    var rows := Group(p, n, g);
    GroupSizes(p, n, g);
    StepsAscend(if p.Spaced? then g * p.size * p.stride else p.starts[g], p.stride, |rows|);
    forall i | 0 <= i < |rows| ensures rows[i] < n && (p.Spaced? || 0 <= p.starts[g] ==> 0 <= rows[i]) {
      if p.Spaced? { SpacedBound(p, n, g, i); } else { RangeBound(p, n, g, i); }
    }
    if p.Ranges? {
      CeilDivNonNegative(p.ends[g] - p.starts[g], p.stride);
      assert p.starts[g] < p.ends[g] ==> rows[0] == p.starts[g] && rows[0] in rows;
    }
  }

  /** A group whose only row is -1. */
  lemma NegativeStart()
    ensures var p := Ranges(1, [-1], [0]); Accepts(p, 5) && Group(p, 5, 0) == [-1]
  {
    var p := Ranges(1, [-1], [0]);
    assert GroupStart(p, 5, 0) == 0 && GroupStart(p, 5, 0 + 1) == CeilDiv(1, 1) == 1;
    var rows := Steps(-1, 1, 1);
    assert rows[0] == -1;
  }

  // ---- Building and asking -----------------------------------------------------------------

  /** Starts of the groups of a spaced partitioner. */
  method SpacedOffsets(p: Partitioner, n: int) returns (offsets: seq<int>)
    requires p.Spaced? && Accepts(p, n)
    ensures |offsets| == NumGroups(p, n) + 1
    ensures forall g | 0 <= g <= NumGroups(p, n) :: offsets[g] == GroupStart(p, n, g)
  {
    var rows := CeilDiv(n, p.stride);
    offsets := [];
    var i := 0;
    while i < rows
      invariant i == |offsets| * p.size && 0 <= i
      invariant |offsets| <= NumGroups(p, n)
      invariant forall g | 0 <= g < |offsets| :: offsets[g] == g * p.size
    {
      SpacedGroups(p, n, |offsets|);
      offsets := offsets + [i];
      i := i + p.size;
    }
    SpacedGroups(p, n, |offsets|);
    offsets := offsets + [rows];
  }

  ghost predicate RangesGood(p: Partitioner, n: int, k: nat)
    requires p.Ranges? && k <= |p.starts| == |p.ends|
  {
    forall j | 0 <= j < k :: p.starts[j] <= p.ends[j] <= n
  }

  /** Starts of the groups of a range partitioner, as long as its ranges are good. */
  method RangeOffsets(p: Partitioner, n: int) returns (res: Result<seq<int>>)
    requires p.Ranges? && p.stride > 0 && |p.starts| == |p.ends|
    ensures res.Success? <==> Accepts(p, n)
    ensures res.Success? ==> |res.value| == |p.starts| + 1
    ensures res.Success? ==> forall g | 0 <= g <= |p.starts| :: res.value[g] == GroupStart(p, n, g)
  {
    var offsets, total := [], 0;
    for i := 0 to |p.starts|
      invariant RangesGood(p, n, i)
      invariant total == GroupStart(p, n, i)
      invariant |offsets| == i && forall g | 0 <= g < i :: offsets[g] == GroupStart(p, n, g)
    {
      if p.starts[i] > p.ends[i] {
        return Failure("start should not be after end");
      }
      if p.ends[i] > n {
        return Failure("end should be less than table num rows");
      }
      offsets := offsets + [total];
      total := total + CeilDiv(p.ends[i] - p.starts[i], p.stride);
    }
    res := Success(offsets + [total]);
  }

  /** The constructor: checks the arguments and computes where groups start. */
  method Offsets(p: Partitioner, n: int) returns (res: Result<seq<int>>)
    ensures res.Success? <==> Accepts(p, n)
    ensures res.Success? ==> |res.value| == NumGroups(p, n) + 1
    ensures res.Success? ==> forall g | 0 <= g <= NumGroups(p, n) :: res.value[g] == GroupStart(p, n, g)
  {
    if p.stride <= 0 {
      return Failure("stride must be greater than 0");
    }
    if p.Spaced? {
      if p.size <= 0 {
        return Failure("group size must be greater than 0");
      }
      var offsets := SpacedOffsets(p, n);
      return Success(offsets);
    }
    if |p.starts| != |p.ends| {
      return Failure("starts and ends not the same size");
    }
    res := RangeOffsets(p, n);
  }

  /** The rows `s * stride, ..., (e - 1) * stride`. */
  method SpacedRows(s: int, e: int, stride: int) returns (rows: seq<int>)
    requires s <= e
    ensures rows == Steps(s * stride, stride, e - s)
  {
    rows := [];
    for i := s to e
      invariant |rows| == i - s
      invariant forall k | 0 <= k < |rows| :: rows[k] == s * stride + k * stride
    {
      assert i * stride == s * stride + (i - s) * stride;
      rows := rows + [i * stride];
    }
  }

  method RangeStepRows(s: int, e: int, stride: int) returns (rows: seq<int>)
    requires s <= e && stride > 0
    ensures CeilDiv(e - s, stride) >= 0 && rows == Steps(s, stride, CeilDiv(e - s, stride))
  {
    rows := [];
    CeilDivNonNegative(e - s, stride);
    var i := s;
    while i < e
      invariant i == s + |rows| * stride
      invariant forall k | 0 <= k < |rows| :: rows[k] == s + k * stride
      invariant |rows| <= CeilDiv(e - s, stride)
      decreases e - i
    {
      CeilDivSpec(e - s, stride, |rows|);
      rows := rows + [i];
      i := i + stride;
    }
    CeilDivSpec(e - s, stride, |rows|);
  }

  /** `group_at`. */
  method GroupAt(p: Partitioner, n: int, g: nat) returns (rows: seq<int>)
    requires Accepts(p, n) && g < NumGroups(p, n)
    ensures rows == Group(p, n, g)
  {
    match p
    case Spaced(stride, size) =>
      var total, pos := CeilDiv(n, stride), g * size;
      SpacedEnd(p, n, g);
      rows := SpacedRows(pos, if total < pos + size then total else pos + size, stride);
    case Ranges(stride, starts, ends) =>
      rows := RangeStepRows(starts[g], ends[g], stride);
  }
}
