/** A job that is accepted and evaluated in the wrong slice group: a source is sliced, unsliced and stored, next to the
output of a kernel over the whole source. The kernel stands before the sink. */
module SideJob {
  import opened Rows
  import opened Samplers
  import opened Partitions
  import opened Dag
  import opened JobGraphs
  import opened GroupGraphs
  import opened Propagation
  import opened SliceGroups
  import opened Tasks

  ghost predicate SideOps(ops: seq<Tasks.Op>, n: nat, size: int) {
    && |ops| == 5 && ops[0] == Tasks.Op(Tasks.Kind.Source(n), [])
    && ops[1] == Tasks.Op(Tasks.Kind.Slice(Spaced(1, size)), [0]) && ops[2] == Tasks.Op(Tasks.Kind.Unslice, [1])
    && ops[3] == Tasks.Op(Tasks.Kind.Kernel, [0]) && ops[4] == Tasks.Op(Tasks.Kind.Sink, [2, 3])
  }

  lemma SideValid(ops: seq<Tasks.Op>, n: nat, size: int)
    requires SideOps(ops, n, size)
    ensures Validated(ops)
  {
    assert OpValidated(ops, 0) && OpValidated(ops, 1) && OpValidated(ops, 2);
    assert OpValidated(ops, 3) && OpValidated(ops, 4);
    assert 0 in ops[1].inputs && 1 in ops[2].inputs && 2 in ops[4].inputs && 3 in ops[4].inputs;
    assert IsRead(ops, 0) && IsRead(ops, 1) && IsRead(ops, 2) && IsRead(ops, 3);
  }

  function SideRates(n: nat, size: int): seq<seq<int>>
    requires size > 0
  {
    [[n], GroupCounts(n, size), [n], [n], [n]]
  }

  /** The job is accepted for all numbers of rows and all sizes of groups. */
  lemma SideAccepted(ops: seq<Tasks.Op>, n: nat, size: int)
    requires SideOps(ops, n, size) && size > 0
    ensures Validated(ops) && RatesOk(ops, SideRates(n, size))
  {
    var rates := SideRates(n, size);
    SideValid(ops, n, size);
    GroupForward(n, size);
    assert RateOk(ops, rates, 0) && RateOk(ops, rates, 1) && RateOk(ops, rates, 2);
    assert RateOk(ops, rates, 3) && RateOk(ops, rates, 4);
  }

  lemma SideCounts(ops: seq<Tasks.Op>, n: nat, size: int, rates: seq<seq<int>>)
    requires SideOps(ops, n, size) && size > 0 && RatesOk(ops, rates)
    ensures rates == SideRates(n, size)
  {
    SideAccepted(ops, n, size);
    forall k: nat | k < 5 ensures rates[k] == SideRates(n, size)[k] { RatesUnique(ops, rates, SideRates(n, size), k); }
  }

  lemma SideFollows(ops: seq<Tasks.Op>, n: nat, size: int, rates: seq<seq<int>>, slice: nat)
    requires SideOps(ops, n, size) && |rates| == 5 && slice == 1
    ensures Validated(ops) && Level(ops, slice) == 1 && Exit(ops, slice) == 2
    ensures UnsliceCounts(ops, rates, Exit(ops, slice)) == rates[1]
    ensures forall u | 0 <= u < |ops| && ops[u].kind.Unslice? :: u == Exit(ops, slice)
  {
    SideValid(ops, n, size);
    var c := LastReader(ops, slice);
    assert c == 2;
  }

  lemma OneGroup(n: nat, size: int)
    requires size > 0
    ensures (forall i | 1 <= i < |GroupCounts(n, size)| :: GroupCounts(n, size)[i] == 0) <==> n <= size
  {
    PlainCounts(n, size);
    if n > size { GroupSizes(Spaced(1, size), n, 1); }
  }

  /** All its tasks are evaluated in the group that demand analysis has found if and only if there is one group. */
  lemma SideEvaluated(ops: seq<Tasks.Op>, n: nat, size: int, rates: seq<seq<int>>, slice: nat)
    requires SideOps(ops, n, size) && size > 0 && RatesOk(ops, rates) && slice == 1
    ensures Validated(ops) && Level(ops, slice) == 1
    ensures AllRight(ops, rates, UnsliceCounts(ops, rates, Exit(ops, slice))) <==> n <= size
  {
    SideFollows(ops, n, size, rates, slice);
    SideCounts(ops, n, size, rates);
    PlainCounts(n, size);
    OneGroup(n, size);
    OneUnslice(ops, rates, slice, rates[1]);
  }

  lemma SideWalk(ops: seq<Tasks.Op>, n: nat, size: int, rates: seq<seq<int>>, slice: nat, rows: seq<int>)
    requires SideOps(ops, n, size) && |rates| == 5 && rows != [] && slice == 1
    ensures GroupFrom(ops, rates, rows, slice) == FirstGroup(rates[1], rows[0], rows[|rows| - 1], 0)
    ensures EvaluatedIn(ops, rates, rows) == 0
    ensures Findable(rates[1], rows[0], rows[|rows| - 1]) ==> AllFound(ops, rates, rows)
  {
    assert GroupFrom(ops, rates, rows, 5) == 0;
    assert GroupFrom(ops, rates, rows, 4) == 0;
    assert GroupFrom(ops, rates, rows, 2) == FirstGroup(rates[1], rows[0], rows[|rows| - 1], 0);
  }

  /** From the second task on, the slice op is derived for group `i` and evaluated in group 0. None of the rows that
  it has been derived for is a row of group 0: the evaluator looks each of them up there, and does not find it. With
  four rows in groups of two, these are rows 2 and 3. */
  lemma SideLost(job: Job, n: nat, size: int, slice: nat, i: nat, rows: seq<int>, r: int)
    requires Sized(job) && SideOps(job.ops, n, size) && RatesOk(job.ops, job.rates) && size > 0 && slice == 1
    requires 0 < i < |GroupCounts(n, size)| && rows == GroupTask(GroupCounts(n, size), i)
    requires Accepts(Spaced(1, size), n) && r in Group(Spaced(1, size), n, i)
    ensures rows != [] && AllFound(job.ops, job.rates, rows)
    ensures GroupFrom(job.ops, job.rates, rows, slice) == i && EvaluatedIn(job.ops, job.rates, rows) == 0
    ensures Selectable(job, slice, i) && r in KindAt(job, slice, i).rowMap.group
    ensures Selectable(job, slice, 0) && WellFormed(KindAt(job, slice, 0).rowMap)
    ensures DownOf(KindAt(job, slice, 0).rowMap, r) == []
  {
    SideFollows(job.ops, n, size, job.rates, slice);
    SideCounts(job.ops, n, size, job.rates);
    SideFound(n, size, i, rows);
    SideWalk(job.ops, n, size, job.rates, slice, rows);
    SideMaps(job, n, size, slice, i);
    SideMaps(job, n, size, slice, 0);
    GroupsApart(n, size, i, r);
  }

  lemma SideMaps(job: Job, n: nat, size: int, slice: nat, i: nat)
    requires Sized(job) && SideOps(job.ops, n, size) && size > 0 && job.rates == SideRates(n, size) && slice == 1
    requires Accepts(Spaced(1, size), n) && i < |GroupCounts(n, size)|
    ensures Selectable(job, slice, i) && KindAt(job, slice, i) == Builtin(RowMap.Slice(Group(Spaced(1, size), n, i)))
    ensures WellFormed(RowMap.Slice(Group(Spaced(1, size), n, i)))
  {
    GroupRows(Spaced(1, size), n, i);
  }

  lemma SideFound(n: nat, size: int, i: nat, rows: seq<int>)
    requires size > 0 && i < |GroupCounts(n, size)| && rows == GroupTask(GroupCounts(n, size), i)
    ensures rows != [] && Findable(GroupCounts(n, size), rows[0], rows[|rows| - 1])
    ensures FirstGroup(GroupCounts(n, size), rows[0], rows[|rows| - 1], 0) == i
  {
    var counts := GroupCounts(n, size);
    PlainGroups(n, size, i);
    GroupSizes(Spaced(1, size), n, i);
    TaskEnds(counts, i);
    PlainCounts(n, size);
    GroupFound(counts, i, rows[0], rows[|rows| - 1]);
  }

  /** Groups of consecutive rows have no row in common. */
  lemma GroupsApart(n: nat, size: int, i: nat, r: int)
    requires size > 0 && Accepts(Spaced(1, size), n) && 0 < i < NumGroups(Spaced(1, size), n)
    requires r in Group(Spaced(1, size), n, i)
    ensures r !in Group(Spaced(1, size), n, 0)
  {
    var p := Spaced(1, size);
    GroupSizes(p, n, 0);
    assert i * size >= size by { MulMonotone(1, i, size); }
    assert size <= r;
    forall x | x in Group(p, n, 0) ensures x < size { }
  }
}
