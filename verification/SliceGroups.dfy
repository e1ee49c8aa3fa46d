/** The slice group of a task. Demand analysis looks for it at every unslice op on its way up, and every TaskStream gets
the one it had found last. The evaluator takes a single one for all ops: that of the op before the sink. */
module SliceGroups {
  import opened Rows
  import opened Samplers
  import opened Partitions
  import opened Tasks
  import opened JobGraphs
  import opened GroupGraphs
  import opened Propagation

  // ---- One task ----------------------------------------------------------------------------

  /** The group that the rows of a task are found in at unslice op `u`. */
  ghost function FoundGroup(ops: seq<Op>, rates: seq<seq<int>>, rows: seq<int>, u: nat): nat
    requires |ops| == |rates| && u < |ops| && rows != []
  {
    FirstGroup(InRates(ops, rates, u), rows[0], rows[|rows| - 1], 0)
  }

  ghost predicate AllFound(ops: seq<Op>, rates: seq<seq<int>>, rows: seq<int>)
    requires |ops| == |rates|
  {
    forall u | 0 <= u < |ops| && ops[u].kind.Unslice? :: FoundAt(ops, rates, rows, u)
  }

  /** The group that a task is evaluated in. */
  ghost function EvaluatedIn(ops: seq<Op>, rates: seq<seq<int>>, rows: seq<int>): nat
    requires 2 <= |ops| == |rates|
  {
    GroupFrom(ops, rates, rows, |ops| - 2)
  }

  /** The analysis of the task does not fail, and every op that depends on the slice group is evaluated in the group
  that its TaskStream was derived for. */
  ghost predicate EvaluatedRight(ops: seq<Op>, rates: seq<seq<int>>, rows: seq<int>)
    requires 2 <= |ops| == |rates|
  {
    && AllFound(ops, rates, rows)
    && forall k: nat | Grouped(ops, k) :: GroupFrom(ops, rates, rows, k) == EvaluatedIn(ops, rates, rows)
  }

  /** All unslice ops find the task in group `g`. */
  ghost predicate FoundIn(ops: seq<Op>, rates: seq<seq<int>>, rows: seq<int>, g: nat)
    requires |ops| == |rates| && rows != []
  {
    forall u | 0 <= u < |ops| && ops[u].kind.Unslice? :: FoundGroup(ops, rates, rows, u) == g
  }

  lemma {:induction false} GroupAbove(ops: seq<Op>, rates: seq<seq<int>>, rows: seq<int>, g: nat, k: nat)
    requires |ops| == |rates| && rows != [] && FoundIn(ops, rates, rows, g) && k <= |ops|
    ensures GroupFrom(ops, rates, rows, k) == 0 || GroupFrom(ops, rates, rows, k) == g
    ensures (exists u | k <= u < |ops| :: ops[u].kind.Unslice?) ==> GroupFrom(ops, rates, rows, k) == g
    decreases |ops| - k
  {
    if k < |ops| && !ops[k].kind.Unslice? {
      GroupAbove(ops, rates, rows, g, k + 1);
    } else if k < |ops| {
      assert FoundGroup(ops, rates, rows, k) == g;
    }
  }

  /** What the op before the sink has. */
  lemma LastStream(ops: seq<Op>, rates: seq<seq<int>>, rows: seq<int>)
    requires Validated(ops) && 2 <= |ops| == |rates| && rows != []
    ensures EvaluatedIn(ops, rates, rows) ==
            if ops[|ops| - 2].kind.Unslice? then FoundGroup(ops, rates, rows, |ops| - 2) else 0
  {
    assert OpValidated(ops, |ops| - 1);
    assert GroupFrom(ops, rates, rows, |ops|) == 0;
    assert GroupFrom(ops, rates, rows, |ops| - 1) == 0;
  }

  lemma FoundRight(ops: seq<Op>, rates: seq<seq<int>>, rows: seq<int>, g: nat)
    requires Validated(ops) && 2 <= |ops| == |rates| && rows != []
    requires AllFound(ops, rates, rows) && FoundIn(ops, rates, rows, g) && (ops[|ops| - 2].kind.Unslice? || g == 0)
    ensures EvaluatedRight(ops, rates, rows)
  {
    LastStream(ops, rates, rows);
    forall k: nat | Grouped(ops, k) ensures GroupFrom(ops, rates, rows, k) == EvaluatedIn(ops, rates, rows) {
      var u := GroupedExit(ops, k);
      GroupAbove(ops, rates, rows, g, k);
      if ops[|ops| - 2].kind.Unslice? { assert FoundGroup(ops, rates, rows, |ops| - 2) == g; }
    }
  }

  lemma RightFound(ops: seq<Op>, rates: seq<seq<int>>, rows: seq<int>, u: nat)
    requires Validated(ops) && 2 <= |ops| == |rates| && rows != [] && EvaluatedRight(ops, rates, rows)
    requires u < |ops| && ops[u].kind.Unslice?
    ensures FoundGroup(ops, rates, rows, u) == EvaluatedIn(ops, rates, rows)
  {
    assert Grouped(ops, u);
  }

  /** A task is evaluated right if and only if all unslice ops find it in a group of the same number, and the op
  before the sink is an unslice op or that number is 0. */
  lemma TaskEvaluated(ops: seq<Op>, rates: seq<seq<int>>, rows: seq<int>)
    requires Validated(ops) && 2 <= |ops| == |rates| && rows != []
    ensures EvaluatedRight(ops, rates, rows) <==>
            && AllFound(ops, rates, rows)
            && exists g: nat :: FoundIn(ops, rates, rows, g) && (ops[|ops| - 2].kind.Unslice? || g == 0)
  {
    LastStream(ops, rates, rows);
    if EvaluatedRight(ops, rates, rows) {
      forall u | 0 <= u < |ops| && ops[u].kind.Unslice?
        ensures FoundGroup(ops, rates, rows, u) == EvaluatedIn(ops, rates, rows)
      {
        RightFound(ops, rates, rows, u);
      }
      assert FoundIn(ops, rates, rows, EvaluatedIn(ops, rates, rows));
    }
    if AllFound(ops, rates, rows) {
      if g: nat :| FoundIn(ops, rates, rows, g) && (ops[|ops| - 2].kind.Unslice? || g == 0) {
        FoundRight(ops, rates, rows, g);
      }
    }
  }

  // ---- All tasks of a job ------------------------------------------------------------------

  /** Where task `i` of a job is found, if groups have no negative counts: nowhere else than where it lies. */
  lemma GroupFound(counts: seq<int>, g: nat, low: int, high: int)
    requires NoNegative(counts) && low <= high && LieIn(counts, g, low, high)
    ensures Findable(counts, low, high) && FirstGroup(counts, low, high, 0) == g
  {
    assert Sum(counts, g + 1) == Sum(counts, g) + counts[g];
    TaskGroup(counts, g, FirstGroup(counts, low, high, 0), low, high);
  }

  /** The ends of a task with rows. */
  lemma TaskEnds(counts: seq<int>, i: nat)
    requires i < |counts| && counts[i] > 0
    ensures var rows := GroupTask(counts, i);
            rows != [] && rows[0] == Sum(counts, i) && rows[|rows| - 1] == Sum(counts, i) + counts[i] - 1
  {
    assert Sum(counts, i + 1) == Sum(counts, i) + counts[i];
  }

  /** Task `i` is found in group `i` of another unslice op exactly if it lies in it. */
  lemma FoundWithin(others: seq<int>, counts: seq<int>, i: nat)
    requires NoNegative(others) && i < |counts| && counts[i] > 0
    ensures var low, high := Sum(counts, i), Sum(counts, i) + counts[i] - 1;
            Findable(others, low, high) && FirstGroup(others, low, high, 0) == i <==> TaskWithin(others, counts, i)
  {
    var low, high := Sum(counts, i), Sum(counts, i) + counts[i] - 1;
    assert Sum(counts, i + 1) == Sum(counts, i) + counts[i];
    if i < |others| {
      assert Sum(others, i + 1) == Sum(others, i) + others[i];
      assert LieIn(others, i, low, high) <==> TaskWithin(others, counts, i);
      if LieIn(others, i, low, high) { GroupFound(others, i, low, high); }
    }
  }

  ghost predicate UnsliceCountsOk(ops: seq<Op>, rates: seq<seq<int>>)
    requires |ops| == |rates|
  {
    forall u | 0 <= u < |ops| && ops[u].kind.Unslice? :: NoNegative(UnsliceCounts(ops, rates, u))
  }

  lemma TaskRight(ops: seq<Op>, rates: seq<seq<int>>, slice: nat, i: nat)
    requires Validated(ops) && RatesOk(ops, rates) && slice < |ops| && ops[slice].kind.Slice?
    requires UnsliceCountsOk(ops, rates)
    ensures var counts := UnsliceCounts(ops, rates, Exit(ops, slice));
            i < |counts| && counts[i] > 0 ==>
              (EvaluatedRight(ops, rates, GroupTask(counts, i)) <==>
               TaskInGroups(ops, rates, counts, i) && (ops[|ops| - 2].kind.Unslice? || i == 0))
  {
    var u0 := Exit(ops, slice);
    var counts := UnsliceCounts(ops, rates, u0);
    if i < |counts| && counts[i] > 0 {
      var rows := GroupTask(counts, i);
      TaskEnds(counts, i);
      TaskEvaluated(ops, rates, rows);
      forall u | 0 <= u < |ops| && ops[u].kind.Unslice?
        ensures FoundAt(ops, rates, rows, u) && FoundGroup(ops, rates, rows, u) == i <==>
                TaskWithin(UnsliceCounts(ops, rates, u), counts, i)
      {
        FoundWithin(UnsliceCounts(ops, rates, u), counts, i);
      }
      assert TaskWithin(counts, counts, i);
      assert FoundGroup(ops, rates, rows, u0) == i;
      if TaskInGroups(ops, rates, counts, i) { assert FoundIn(ops, rates, rows, i); }
      if g: nat :| FoundIn(ops, rates, rows, g) && (ops[|ops| - 2].kind.Unslice? || g == 0) { assert g == i; }
    }
  }

  /** The count of group `i`; groups past the end are empty. */
  ghost function CountOf(counts: seq<int>, i: nat): int {
    if i < |counts| then counts[i] else 0
  }

  /** The same counts, apart from empty groups at the end. */
  ghost predicate SameCounts(a: seq<int>, b: seq<int>) {
    forall i: nat :: CountOf(a, i) == CountOf(b, i)
  }

  ghost function SumTo(counts: seq<int>, i: nat): int {
    if i <= |counts| then Sum(counts, i) else Sum(counts, |counts|)
  }

  lemma SumToNext(counts: seq<int>, i: nat)
    ensures SumTo(counts, i + 1) == SumTo(counts, i) + CountOf(counts, i)
  {
  }

  ghost predicate TasksWithin(others: seq<int>, counts: seq<int>) {
    forall i | 0 <= i < |counts| && counts[i] > 0 :: TaskWithin(others, counts, i)
  }

  lemma {:induction false} SumsBelow(others: seq<int>, counts: seq<int>, j: nat)
    requires NoNegative(others) && NoNegative(counts) && TasksWithin(others, counts)
    requires Sum(others, |others|) == Sum(counts, |counts|)
    ensures SumTo(others, j) <= SumTo(counts, j)
    decreases if j < |counts| then |counts| - j else 0
  {
    if j >= |counts| {
      if j <= |others| { SumMonotone(others, j, |others|); }
    } else if counts[j] > 0 {
      assert TaskWithin(others, counts, j);
    } else {
      SumsBelow(others, counts, j + 1);
      SumToNext(others, j);
      SumToNext(counts, j);
    }
  }

  lemma {:induction false} SumsAbove(others: seq<int>, counts: seq<int>, j: nat)
    requires NoNegative(others) && NoNegative(counts) && TasksWithin(others, counts)
    ensures SumTo(counts, j) <= SumTo(others, j)
    decreases j
  {
    if j > 0 {
      SumsAbove(others, counts, j - 1);
      SumToNext(others, j - 1);
      SumToNext(counts, j - 1);
      if j <= |counts| && counts[j - 1] > 0 { assert TaskWithin(others, counts, j - 1); }
    }
  }

  lemma {:induction false} SameSums(others: seq<int>, counts: seq<int>, j: nat)
    requires SameCounts(others, counts)
    ensures SumTo(others, j) == SumTo(counts, j)
    decreases j
  {
    if j > 0 {
      SameSums(others, counts, j - 1);
      SumToNext(others, j - 1);
      SumToNext(counts, j - 1);
      assert CountOf(others, j - 1) == CountOf(counts, j - 1);
    }
  }

  /** All tasks lie in the groups of their number if and only if the groups are the same. */
  lemma WithinSame(others: seq<int>, counts: seq<int>)
    requires NoNegative(others) && NoNegative(counts) && Sum(others, |others|) == Sum(counts, |counts|)
    ensures TasksWithin(others, counts) <==> SameCounts(others, counts)
  {
    if TasksWithin(others, counts) {
      forall i: nat ensures CountOf(others, i) == CountOf(counts, i) {
        SumsBelow(others, counts, i);
        SumsBelow(others, counts, i + 1);
        SumsAbove(others, counts, i);
        SumsAbove(others, counts, i + 1);
        SumToNext(others, i);
        SumToNext(counts, i);
      }
    }
    if SameCounts(others, counts) {
      forall i | 0 <= i < |counts| && counts[i] > 0 ensures TaskWithin(others, counts, i) {
        assert CountOf(others, i) == CountOf(counts, i);
        SameSums(others, counts, i);
        SameSums(others, counts, i + 1);
      }
    }
  }

  /** All unslice ops have the groups that the tasks follow; and the op before the sink is an unslice op, or there is
  one group with rows only, the first. */
  ghost predicate OneGrouping(ops: seq<Op>, rates: seq<seq<int>>, slice: nat)
    requires Validated(ops) && 2 <= |ops| == |rates| && slice < |ops| && ops[slice].kind.Slice?
  {
    var counts := UnsliceCounts(ops, rates, Exit(ops, slice));
    && (forall u | 0 <= u < |ops| && ops[u].kind.Unslice? :: SameCounts(UnsliceCounts(ops, rates, u), counts))
    && (ops[|ops| - 2].kind.Unslice? || forall i | 1 <= i < |counts| :: counts[i] == 0)
  }

  ghost predicate AllRight(ops: seq<Op>, rates: seq<seq<int>>, counts: seq<int>)
    requires 2 <= |ops| == |rates|
  {
    forall i | 0 <= i < |counts| && counts[i] > 0 :: EvaluatedRight(ops, rates, GroupTask(counts, i))
  }

  lemma AllWithin(ops: seq<Op>, rates: seq<seq<int>>, slice: nat, u: nat)
    requires Validated(ops) && RatesOk(ops, rates) && slice < |ops| && ops[slice].kind.Slice?
    requires UnsliceCountsOk(ops, rates) && u < |ops| && ops[u].kind.Unslice?
    ensures var counts := UnsliceCounts(ops, rates, Exit(ops, slice));
            TasksWithin(UnsliceCounts(ops, rates, u), counts) <==> SameCounts(UnsliceCounts(ops, rates, u), counts)
  {
    UnsliceTotal(ops, rates, u);
    UnsliceTotal(ops, rates, Exit(ops, slice));
    WithinSame(UnsliceCounts(ops, rates, u), UnsliceCounts(ops, rates, Exit(ops, slice)));
  }

  /** All tasks with rows are evaluated right if and only if the job has one grouping. */
  lemma JobEvaluated(ops: seq<Op>, rates: seq<seq<int>>, slice: nat)
    requires Validated(ops) && RatesOk(ops, rates) && slice < |ops| && ops[slice].kind.Slice?
    requires UnsliceCountsOk(ops, rates)
    ensures AllRight(ops, rates, UnsliceCounts(ops, rates, Exit(ops, slice))) <==> OneGrouping(ops, rates, slice)
  {
    var counts := UnsliceCounts(ops, rates, Exit(ops, slice));
    forall i: nat
      ensures i < |counts| && counts[i] > 0 ==>
                (EvaluatedRight(ops, rates, GroupTask(counts, i)) <==>
                 TaskInGroups(ops, rates, counts, i) && (ops[|ops| - 2].kind.Unslice? || i == 0))
    {
      TaskRight(ops, rates, slice, i);
    }
    forall u | 0 <= u < |ops| && ops[u].kind.Unslice?
      ensures TasksWithin(UnsliceCounts(ops, rates, u), counts) <==> SameCounts(UnsliceCounts(ops, rates, u), counts)
    {
      AllWithin(ops, rates, slice, u);
    }
    AllInGroups(ops, rates, counts);
    assert NoNegative(counts);
  }

  lemma OneUnsliceGrouping(ops: seq<Op>, rates: seq<seq<int>>, slice: nat, u: nat, counts: seq<int>)
    requires Validated(ops) && 2 <= |ops| == |rates| && slice < |ops| && ops[slice].kind.Slice?
    requires u == Exit(ops, slice) && forall x | 0 <= x < |ops| && ops[x].kind.Unslice? :: x == u
    requires counts == UnsliceCounts(ops, rates, u) && NoNegative(counts)
    ensures UnsliceCountsOk(ops, rates)
    ensures OneGrouping(ops, rates, slice) <==> u == |ops| - 2 || forall i | 1 <= i < |counts| :: counts[i] == 0
  {
  }

  /** With a single unslice op: all tasks with rows are evaluated right if and only if that op stands before the sink,
  or only the first group has rows. */
  lemma OneUnslice(ops: seq<Op>, rates: seq<seq<int>>, slice: nat, counts: seq<int>)
    requires Validated(ops) && RatesOk(ops, rates) && slice < |ops| && ops[slice].kind.Slice?
    requires forall u | 0 <= u < |ops| && ops[u].kind.Unslice? :: u == Exit(ops, slice)
    requires counts == UnsliceCounts(ops, rates, Exit(ops, slice)) && NoNegative(counts)
    ensures AllRight(ops, rates, counts) <==>
            Exit(ops, slice) == |ops| - 2 || forall i | 1 <= i < |counts| :: counts[i] == 0
  {
    OneUnsliceGrouping(ops, rates, slice, Exit(ops, slice), counts);
    JobEvaluated(ops, rates, slice);
  }

  /** The evaluator has stream arguments for all kernels in all tasks with rows if and only if every kernel that has any
  has one for each group with rows. A kernel with a single one is no exception, inside a slice or not. */
  lemma ArgumentsFit(job: Job, slice: nat, counts: seq<int>)
    requires Sized(job) && Validated(job.ops) && RatesOk(job.ops, job.rates)
    requires slice < |job.ops| && job.ops[slice].kind.Slice?
    requires UnsliceCountsOk(job.ops, job.rates) && OneGrouping(job.ops, job.rates, slice)
    requires counts == UnsliceCounts(job.ops, job.rates, Exit(job.ops, slice))
    ensures (forall i | 0 <= i < |counts| && counts[i] > 0 ::
               ArgsFit(job, EvaluatedIn(job.ops, job.rates, GroupTask(counts, i)))) <==>
            forall k, i | 0 <= k < |job.ops| && job.ops[k].kind.Kernel? && job.nodes[k].bound &&
                          |job.nodes[k].kernels| <= i < |counts| :: counts[i] == 0
  {
    JobEvaluated(job.ops, job.rates, slice);
    forall i | 0 <= i < |counts| && counts[i] > 0
      ensures EvaluatedIn(job.ops, job.rates, GroupTask(counts, i)) == i
    {
      EvaluatedInOwn(job.ops, job.rates, slice, counts, i);
    }
  }

  lemma EvaluatedInOwn(ops: seq<Op>, rates: seq<seq<int>>, slice: nat, counts: seq<int>, i: nat)
    requires Validated(ops) && RatesOk(ops, rates) && slice < |ops| && ops[slice].kind.Slice?
    requires counts == UnsliceCounts(ops, rates, Exit(ops, slice)) && NoNegative(counts)
    requires i < |counts| && counts[i] > 0 && EvaluatedRight(ops, rates, GroupTask(counts, i))
    ensures EvaluatedIn(ops, rates, GroupTask(counts, i)) == i
  {
    TaskEnds(counts, i);
    var rows := GroupTask(counts, i);
    RightFound(ops, rates, rows, Exit(ops, slice));
    GroupFound(counts, i, rows[0], rows[|rows| - 1]);
  }

  lemma AllInGroups(ops: seq<Op>, rates: seq<seq<int>>, counts: seq<int>)
    requires |ops| == |rates|
    ensures (forall i | 0 <= i < |counts| && counts[i] > 0 :: TaskInGroups(ops, rates, counts, i)) <==>
            forall u | 0 <= u < |ops| && ops[u].kind.Unslice? :: TasksWithin(UnsliceCounts(ops, rates, u), counts)
  {
    if forall i | 0 <= i < |counts| && counts[i] > 0 :: TaskInGroups(ops, rates, counts, i) {
      forall u | 0 <= u < |ops| && ops[u].kind.Unslice?
        ensures TasksWithin(UnsliceCounts(ops, rates, u), counts)
      {
        forall i | 0 <= i < |counts| && counts[i] > 0
          ensures TaskWithin(UnsliceCounts(ops, rates, u), counts, i)
        {
          assert TaskInGroups(ops, rates, counts, i);
        }
      }
    }
    if forall u | 0 <= u < |ops| && ops[u].kind.Unslice? :: TasksWithin(UnsliceCounts(ops, rates, u), counts) {
      forall i | 0 <= i < |counts| && counts[i] > 0 ensures TaskInGroups(ops, rates, counts, i) {
        forall u | 0 <= u < |ops| && ops[u].kind.Unslice?
          ensures TaskWithin(UnsliceCounts(ops, rates, u), counts, i)
        {
          assert TasksWithin(UnsliceCounts(ops, rates, u), counts);
        }
      }
    }
  }

  // ---- Two slices --------------------------------------------------------------------------

  lemma PlainCounts(n: nat, size: int)
    requires size > 0
    ensures NoNegative(GroupCounts(n, size))
    ensures |GroupCounts(n, size)| > 0 <==> n > 0
    ensures |GroupCounts(n, size)| > 1 <==> n > size
    ensures n > 0 ==> GroupCounts(n, size)[0] == if n <= size then n else size
  {
    PlainGroups(n, size, 0);
    PlainGroups(n, size, 1);
    var p := Spaced(1, size);
    forall g | 0 <= g < |GroupCounts(n, size)| ensures GroupCounts(n, size)[g] >= 0 { GroupSizes(p, n, g); }
  }

  lemma SamePlainCounts(n: nat, a: int, b: int)
    requires a > 0 && b > 0
    ensures SameCounts(GroupCounts(n, b), GroupCounts(n, a)) <==> a == b || (n <= a && n <= b)
  {
    PlainCounts(n, a);
    PlainCounts(n, b);
    if SameCounts(GroupCounts(n, b), GroupCounts(n, a)) {
      assert CountOf(GroupCounts(n, b), 0) == CountOf(GroupCounts(n, a), 0);
      assert CountOf(GroupCounts(n, b), 1) == CountOf(GroupCounts(n, a), 1);
      if n > a { GroupSizes(Spaced(1, a), n, 1); }
      if n > b { GroupSizes(Spaced(1, b), n, 1); }
    }
    if n <= a && n <= b { assert GroupCounts(n, a) == GroupCounts(n, b); }
  }

  lemma TwoSlicesGroups(ops: seq<Op>, n: nat, a: int, b: int, rates: seq<seq<int>>, slice: nat)
    requires TwoSlices(ops, n, a, b) && a > 0 && b > 0 && RatesOk(ops, rates) && slice == 1
    ensures Validated(ops) && Level(ops, slice) == 1 && UnsliceCountsOk(ops, rates)
    ensures OneGrouping(ops, rates, slice) <==> SameCounts(GroupCounts(n, b), GroupCounts(n, a))
  {
    TwoSlicesTasks(ops, n, a, b, rates, slice);
    TwoSlicesRates(ops, n, a, b, rates);
    PlainCounts(n, a);
    PlainCounts(n, b);
    TwoUnslice(ops, rates, slice, 2, 4);
  }

  /** With two unslice ops, one of them behind the slice that the tasks follow, the other before the sink. */
  lemma TwoUnslice(ops: seq<Op>, rates: seq<seq<int>>, slice: nat, u: nat, u': nat)
    requires Validated(ops) && 2 <= |ops| == |rates| && slice < |ops| && ops[slice].kind.Slice?
    requires u == Exit(ops, slice) && u' == |ops| - 2 && ops[u'].kind.Unslice?
    requires forall x | 0 <= x < |ops| && ops[x].kind.Unslice? :: x == u || x == u'
    requires NoNegative(UnsliceCounts(ops, rates, u)) && NoNegative(UnsliceCounts(ops, rates, u'))
    ensures UnsliceCountsOk(ops, rates)
    ensures OneGrouping(ops, rates, slice) <==>
            SameCounts(UnsliceCounts(ops, rates, u'), UnsliceCounts(ops, rates, u))
  {
  }

  /** Two slices of one source: all tasks are evaluated right if and only if their groups have the same size, or there
  is one group only. */
  lemma TwoSlicesEvaluated(ops: seq<Op>, n: nat, a: int, b: int, rates: seq<seq<int>>, slice: nat)
    requires TwoSlices(ops, n, a, b) && a > 0 && b > 0 && RatesOk(ops, rates) && slice == 1
    ensures Validated(ops) && Level(ops, slice) == 1
    ensures AllRight(ops, rates, UnsliceCounts(ops, rates, Exit(ops, slice))) <==> a == b || (n <= a && n <= b)
  {
    TwoSlicesGroups(ops, n, a, b, rates, slice);
    JobEvaluated(ops, rates, slice);
    SamePlainCounts(n, a, b);
  }

  lemma PlainLies(n: nat, size: int, g: nat, low: int, high: int)
    requires size > 0 && g * size <= low <= high < n && high < (g + 1) * size
    ensures NoNegative(GroupCounts(n, size)) && LieIn(GroupCounts(n, size), g, low, high)
  {
    PlainCounts(n, size);
    PlainGroups(n, size, g);
    PlainGroups(n, size, g + 1);
    GroupSum(n, size, g);
    GroupSum(n, size, g + 1);
  }

  lemma PlainFound(n: nat, size: int, g: nat, low: int, high: int)
    requires size > 0 && g * size <= low <= high < n && high < (g + 1) * size
    ensures Findable(GroupCounts(n, size), low, high) && FirstGroup(GroupCounts(n, size), low, high, 0) == g
  {
    PlainLies(n, size, g, low, high);
    GroupFound(GroupCounts(n, size), g, low, high);
  }

  /** Groups of `a` rows against a single group, as with four rows, `a` = 2 and `b` = 4: every task is found, but from
  the second on at different numbers. The first slice is derived for group `g` and evaluated in group 0. */
  lemma TwoSlicesMixed(ops: seq<Op>, n: nat, a: int, b: int, rates: seq<seq<int>>, slice: nat, g: nat, rows: seq<int>)
    requires TwoSlices(ops, n, a, b) && 0 < a && n <= b && RatesOk(ops, rates) && slice == 1
    requires 0 < g && g * a < n && rows != [] && g * a <= rows[0] <= rows[|rows| - 1] < n
    requires rows[|rows| - 1] < (g + 1) * a
    ensures AllFound(ops, rates, rows)
    ensures GroupFrom(ops, rates, rows, slice) == g && EvaluatedIn(ops, rates, rows) == 0
  {
    var low, high := rows[0], rows[|rows| - 1];
    TwoSlicesTasks(ops, n, a, b, rates, slice);
    TwoSlicesRates(ops, n, a, b, rates);
    PlainFound(n, a, g, low, high);
    PlainFound(n, b, 0, low, high);
    TwoSlicesWalk(ops, n, a, b, rates, rows);
  }

  lemma TwoSlicesWalk(ops: seq<Op>, n: nat, a: int, b: int, rates: seq<seq<int>>, rows: seq<int>)
    requires TwoSlices(ops, n, a, b) && |rates| == 6 && rows != []
    ensures GroupFrom(ops, rates, rows, 1) == FirstGroup(rates[1], rows[0], rows[|rows| - 1], 0)
    ensures EvaluatedIn(ops, rates, rows) == FirstGroup(rates[3], rows[0], rows[|rows| - 1], 0)
    ensures Findable(rates[1], rows[0], rows[|rows| - 1]) && Findable(rates[3], rows[0], rows[|rows| - 1]) ==>
              AllFound(ops, rates, rows)
  {
    assert GroupFrom(ops, rates, rows, 2) == FirstGroup(rates[1], rows[0], rows[|rows| - 1], 0);
  }
}
