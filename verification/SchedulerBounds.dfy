/** Bounds on what the workers of a bulk job can be made to do: each task is handed out at most three
times, and only finitely many steps hand out, finish or return tasks. */
module SchedulerBounds {
  import opened Scheduler
  import opened BulkJobRuns

  // ---- Sums over all tasks -----------------------------------------------------------------

  ghost function SumJob(f: TaskId -> int, j: nat, n: nat): int {
    if n == 0 then 0 else SumJob(f, j, n - 1) + f(TaskId(j, n - 1))
  }

  ghost function SumTo(sizes: seq<nat>, f: TaskId -> int, k: nat): int
    requires k <= |sizes|
  {
    if k == 0 then 0 else SumTo(sizes, f, k - 1) + SumJob(f, k - 1, sizes[k - 1])
  }

  ghost predicate IsTask(sizes: seq<nat>, t: TaskId) {
    t.job < |sizes| && t.task < sizes[t.job]
  }

  lemma {:induction false} SumJobOrder(f: TaskId -> int, g: TaskId -> int, j: nat, n: nat, t0: TaskId)
    requires forall t :: f(t) <= g(t)
    ensures SumJob(f, j, n) <= SumJob(g, j, n)
    ensures t0.job == j && t0.task < n ==> SumJob(f, j, n) + g(t0) - f(t0) <= SumJob(g, j, n)
  {
    if n > 0 { SumJobOrder(f, g, j, n - 1, t0); }
  }

  /** Sums follow the order of their terms, with the gap at any one task. */
  lemma {:induction false} SumOrder(sizes: seq<nat>, f: TaskId -> int, g: TaskId -> int, k: nat, t0: TaskId)
    requires k <= |sizes| && forall t :: f(t) <= g(t)
    ensures SumTo(sizes, f, k) <= SumTo(sizes, g, k)
    ensures t0.job < k && IsTask(sizes, t0) ==> SumTo(sizes, f, k) + g(t0) - f(t0) <= SumTo(sizes, g, k)
  {
    if k > 0 {
      SumOrder(sizes, f, g, k - 1, t0);
      SumJobOrder(f, g, k - 1, sizes[k - 1], t0);
    }
  }

  lemma {:induction false} SumJobConst(c: int, j: nat, n: nat)
    ensures SumJob(_ => c, j, n) == c * n
  {
    if n > 0 { SumJobConst(c, j, n - 1); }
  }

  lemma {:induction false} SumConst(sizes: seq<nat>, c: int, k: nat)
    requires k <= |sizes|
    ensures SumTo(sizes, _ => c, k) == c * TasksTo(sizes, k)
  {
    if k > 0 {
      SumConst(sizes, c, k - 1);
      SumJobConst(c, k - 1, sizes[k - 1]);
    }
  }

  // ---- At most three times -----------------------------------------------------------------

  ghost function HandedOut(s: State): TaskId -> int {
    t => Count(s.handouts, t)
  }

  /** How often tasks were handed out altogether. */
  ghost function TotalHandouts(s: State): int {
    SumTo(s.sizes, HandedOut(s), |s.sizes|)
  }

  /** In every reachable state no task has been handed out more than three times, so that workers have
  received at most three times as many tasks as there are. */
  lemma HandoutBound(sizes: seq<nat>, workers: map<int, WorkerState>, s: State)
    requires Reachable(sizes, workers, s)
    ensures forall t :: Count(s.handouts, t) <= TOTAL_FAILURES_BEFORE_REMOVAL
    ensures TotalHandouts(s) <= TOTAL_FAILURES_BEFORE_REMOVAL * TotalTasks(s)
  {
    ReachableOk(sizes, workers, s);
    forall t ensures Count(s.handouts, t) <= TOTAL_FAILURES_BEFORE_REMOVAL { assert CountOk(s, {}, t); }
    SumConst(s.sizes, TOTAL_FAILURES_BEFORE_REMOVAL, |s.sizes|);
    SumOrder(s.sizes, HandedOut(s), _ => TOTAL_FAILURES_BEFORE_REMOVAL, |s.sizes|, TaskId(0, 0));
  }

  // ---- A measure ---------------------------------------------------------------------------

  /** What task `t` can still cost: two for every time it may be handed out again (handing it out and
  taking it back), one if a worker has it. */
  ghost function Cost(s: State): TaskId -> int {
    t => 2 * (TOTAL_FAILURES_BEFORE_REMOVAL - Count(s.handouts, t)) + Indicator(Held(s, t))
  }

  ghost function Effort(s: State): int {
    SumTo(s.sizes, Cost(s), |s.sizes|)
  }

  lemma EffortNonNegative(s: State)
    requires Invariant(s, {})
    ensures Effort(s) >= 0
  {
    forall t ensures 0 <= Cost(s)(t) { assert CountOk(s, {}, t); }
    SumConst(s.sizes, 0, |s.sizes|);
    SumOrder(s.sizes, _ => 0, Cost(s), |s.sizes|, TaskId(0, 0));
  }

  lemma EffortSame(s: State, s': State)
    requires s'.sizes == s.sizes && s'.handouts == s.handouts && s'.held == s.held
    ensures Effort(s') == Effort(s)
  {
    HeldSame(s, s');
    SumOrder(s.sizes, Cost(s'), Cost(s), |s.sizes|, TaskId(0, 0));
    SumOrder(s.sizes, Cost(s), Cost(s'), |s.sizes|, TaskId(0, 0));
  }

  /** Handing out a task costs effort. */
  lemma HandEffort(s: State, s': State, w: int, t0: TaskId)
    requires IsTask(s.sizes, t0) && !Held(s, t0) && s'.sizes == s.sizes
    requires s'.held == s.held[w := HeldOf(s, w) + {t0}] && s'.handouts == Increment(s.handouts, t0)
    ensures Effort(s') < Effort(s)
  {
    HandHeld(s, s', w, t0);
    forall t ensures Cost(s')(t) <= Cost(s)(t) { }
    SumOrder(s.sizes, Cost(s'), Cost(s), |s.sizes|, t0);
  }

  /** Taking tasks from a worker costs effort. */
  lemma TakeEffort(s: State, s': State, t0: TaskId)
    requires IsTask(s.sizes, t0) && Held(s, t0) && !Held(s', t0) && s'.sizes == s.sizes && s'.handouts == s.handouts
    requires forall t :: Held(s', t) ==> Held(s, t)
    ensures Effort(s') < Effort(s)
  {
    forall t ensures Cost(s')(t) <= Cost(s)(t) { }
    SumOrder(s.sizes, Cost(s'), Cost(s), |s.sizes|, t0);
  }

  lemma RefillEffort(s: State)
    ensures Effort(Refill(s)) == Effort(s)
  {
    RefillHistory(s);
    EffortSame(s, Refill(s));
  }

  lemma RefillHistory(s: State)
    ensures Refill(s).sizes == s.sizes && Refill(s).handouts == s.handouts && Refill(s).held == s.held
  {
    assert Advance(s).handouts == s.handouts && Advance(s).held == s.held;
    assert Generate(Advance(s)).handouts == s.handouts && Generate(Advance(s)).held == s.held;
  }

  lemma GiveEffort(s: State, w: int)
    requires Invariant(s, {}) && s.queue != []
    ensures Effort(Give(s, w)) <= Effort(s)
    ensures s.queue[|s.queue| - 1].job !in s.blacklisted ==> Effort(Give(s, w)) < Effort(s)
  {
    var t0 := s.queue[|s.queue| - 1];
    if t0.job in s.blacklisted {
      EffortSame(s, Give(s, w));
    } else {
      assert t0 in s.queue && PlaceOk(s, {}, t0);
      HandEffort(s, Give(s, w), w, t0);
    }
  }

  /** Every task handed out costs effort. */
  lemma {:induction false} AssignEffort(s: State, w: int, n: nat)
    requires Invariant(s, {}) && BulkJobRuns.Runs(s, w)
    ensures Effort(Assign(s, w, n).0) + |Assign(s, w, n).1| <= Effort(s)
    decreases Pending(s)
  {
    if n > 0 {
      var s1 := Refill(s);
      RefillEffort(s);
      if s1.queue != [] {
        RefillKeeps(s);
        GiveEffort(s1, w);
        GiveKeeps(s1, w);
        RoundShape(s, w);
        AssignEffort(Give(s1, w), w, if s1.queue[|s1.queue| - 1].job in s1.blacklisted then n else n - 1);
      }
    }
  }

  lemma FinishHistory(s: State, w: int, t: TaskId)
    requires w in s.held && t.job < |s.usedPerJob| && |s.usedPerJob| == |s.sizes|
    ensures Finish(s, w, t).sizes == s.sizes && Finish(s, w, t).handouts == s.handouts
    ensures Finish(s, w, t).held == s.held[w := s.held[w] - {t}]
  {
  }

  lemma FinishEffort(s: State, w: int, t: TaskId)
    requires Invariant(s, {}) && HeldBy(s, w, t) && t.job < |s.sizes|
    ensures Effort(Finish(s, w, t)) < Effort(s)
  {
    FinishHistory(s, w, t);
    LetGo(s, Finish(s, w, t), w, t);
    assert Held(s, t) && PlaceOk(s, {}, t);
    TakeEffort(s, Finish(s, w, t), t);
  }

  lemma {:induction false} FailHistory(s: State, order: seq<TaskId>, k: nat)
    requires JobsExist(s, order) && k <= |order|
    ensures FailTo(s, order, k).handouts == s.handouts
  {
    if k > 0 { FailHistory(s, order, k - 1); }
  }

  lemma StopEffort(s: State, w: int, order: seq<TaskId>)
    requires Invariant(s, {}) && Listing(order, HeldOf(s, w)) && JobsExist(s, order)
    ensures Effort(StopJob(s, w, order)) <= Effort(s)
    ensures HeldOf(s, w) != {} ==> Effort(StopJob(s, w, order)) < Effort(s)
  {
    var s' := StopJob(s, w, order);
    FailHistory(s.(held := s.held - {w}), order, |order|);
    StoppedHolds(s, w, order);
    forall t ensures Held(s', t) ==> Held(s, t) && t !in HeldOf(s, w) {
      if v :| HeldBy(s', v, t) { assert HeldBy(s, v, t) && HolderOk(s, v, w, t); }
    }
    if HeldOf(s, w) != {} {
      var t0 :| t0 in HeldOf(s, w);
      assert HeldBy(s, w, t0) && Held(s, t0) && PlaceOk(s, {}, t0);
      TakeEffort(s, s', t0);
    } else {
      SumOrder(s.sizes, Cost(s'), Cost(s), |s.sizes|, TaskId(0, 0));
    }
  }

  /** Steps that hand out, finish or return tasks. */
  ghost predicate Effective(s: State, e: Event)
    requires Invariant(s, {})
  {
    match e
    case NextWork(w, n) => BulkJobRuns.Runs(s, w) && Assign(s, w, n).1 != []
    case FinishedWork(w, t) => w in s.workers && HeldBy(s, w, t)
    case FinishedJob(w, _) => HeldOf(s, w) != {}
    case RemoveWorker(w, _) => HeldOf(s, w) != {}
    case _ => false
  }

  /** No step adds effort; effective ones use some up. */
  lemma StepEffort(s: State, e: Event)
    requires Invariant(s, {}) && Possible(s, e)
    ensures Effort(Step(s, e)) + Indicator(Effective(s, e)) <= Effort(s)
  {
    match e
    case RegisterWorker(w) => EffortSame(s, Step(s, e));
    case StartJob(w) => EffortSame(s, Step(s, e));
    case NextWork(w, n) => if BulkJobRuns.Runs(s, w) { AssignEffort(s, w, n); }
    case FinishedWork(w, t) =>
      if w in s.workers && HeldBy(s, w, t) {
        FinishKeeps(s, w, t);
        FinishEffort(s, w, t);
      }
    case FinishedJob(w, order) =>
      HeldExist(s, w, order);
      StopEffort(s, w, order);
    case RemoveWorker(w, order) =>
      HeldExist(s, w, order);
      StopEffort(s, w, order);
      if w in s.workers { EffortSame(StopJob(s, w, order), Step(s, e)); }
  }

  ghost function EffectiveSteps(s: State, events: seq<Event>): nat
    requires exists s' :: BulkJobRuns.Run(s, events, s')
    decreases |events|
  {
    if events == [] then 0
    else
      var s' :| BulkJobRuns.Run(s, events, s');
      assert BulkJobRuns.Run(Step(s, events[0]), events[1..], s');
      Indicator(Effective(s, events[0])) + EffectiveSteps(Step(s, events[0]), events[1..])
  }

  /** However long a run is and however many workers fail in it, at most six steps per task hand out,
  finish or return tasks. */
  lemma {:induction false} EffectiveBound(s: State, events: seq<Event>, s': State)
    requires Invariant(s, {}) && BulkJobRuns.Run(s, events, s')
    ensures EffectiveSteps(s, events) + Effort(s') <= Effort(s)
    decreases |events|
  {
    if events != [] {
      StepKeeps(s, events[0]);
      StepEffort(s, events[0]);
      EffectiveBound(Step(s, events[0]), events[1..], s');
    }
  }

  lemma EffectiveStepsBounded(sizes: seq<nat>, workers: map<int, WorkerState>, events: seq<Event>, s: State)
    requires BulkJobRuns.Run(NewBulkJob(sizes, workers), events, s)
    ensures EffectiveSteps(NewBulkJob(sizes, workers), events) <= 6 * TasksTo(sizes, |sizes|)
  {
    var s0 := NewBulkJob(sizes, workers);
    NewBulkJobOk(sizes, workers);
    RunKeeps(s0, events, s);
    EffectiveBound(s0, events, s);
    EffortNonNegative(s);
    forall t ensures Cost(s0)(t) <= 6 { assert !Held(s0, t); }
    SumConst(sizes, 6, |sizes|);
    SumOrder(sizes, Cost(s0), _ => 6, |sizes|, TaskId(0, 0));
  }

  // ---- Tasks sent to workers ---------------------------------------------------------------

  lemma HandoutsSame(s: State, s': State)
    requires s'.sizes == s.sizes && s'.handouts == s.handouts
    ensures TotalHandouts(s') == TotalHandouts(s)
  {
    SumOrder(s.sizes, HandedOut(s'), HandedOut(s), |s.sizes|, TaskId(0, 0));
    SumOrder(s.sizes, HandedOut(s), HandedOut(s'), |s.sizes|, TaskId(0, 0));
  }

  lemma GiveHandouts(s: State, w: int)
    requires Invariant(s, {}) && s.queue != []
    ensures TotalHandouts(s) + Indicator(s.queue[|s.queue| - 1].job !in s.blacklisted) <= TotalHandouts(Give(s, w))
  {
    var t0 := s.queue[|s.queue| - 1];
    if t0.job in s.blacklisted {
      HandoutsSame(s, Give(s, w));
    } else {
      assert t0 in s.queue && PlaceOk(s, {}, t0);
      SumOrder(s.sizes, HandedOut(s), HandedOut(Give(s, w)), |s.sizes|, t0);
    }
  }

  lemma {:induction false} AssignHandouts(s: State, w: int, n: nat)
    requires Invariant(s, {}) && BulkJobRuns.Runs(s, w)
    ensures TotalHandouts(s) + |Assign(s, w, n).1| <= TotalHandouts(Assign(s, w, n).0)
    decreases Pending(s)
  {
    if n > 0 {
      var s1 := Refill(s);
      RefillHistory(s);
      HandoutsSame(s, s1);
      if s1.queue != [] {
        RefillKeeps(s);
        GiveHandouts(s1, w);
        GiveKeeps(s1, w);
        RoundShape(s, w);
        AssignHandouts(Give(s1, w), w, if s1.queue[|s1.queue| - 1].job in s1.blacklisted then n else n - 1);
      }
    }
  }

  /** Tasks in the reply to a request. */
  ghost function Packets(s: State, e: Event): nat
    requires Invariant(s, {})
  {
    if e.NextWork? && BulkJobRuns.Runs(s, e.worker) then |Assign(s, e.worker, e.count).1| else 0
  }

  lemma StepHandouts(s: State, e: Event)
    requires Invariant(s, {}) && Possible(s, e)
    ensures TotalHandouts(s) + Packets(s, e) <= TotalHandouts(Step(s, e))
  {
    match e
    case RegisterWorker(w) => HandoutsSame(s, Step(s, e));
    case StartJob(w) => HandoutsSame(s, Step(s, e));
    case NextWork(w, n) => if BulkJobRuns.Runs(s, w) { AssignHandouts(s, w, n); }
    case FinishedWork(w, t) =>
      if w in s.workers && HeldBy(s, w, t) {
        FinishKeeps(s, w, t);
        FinishHistory(s, w, t);
        HandoutsSame(s, Step(s, e));
      }
    case FinishedJob(w, order) =>
      HeldExist(s, w, order);
      FailHistory(s.(held := s.held - {w}), order, |order|);
      HandoutsSame(s, Step(s, e));
    case RemoveWorker(w, order) =>
      HeldExist(s, w, order);
      FailHistory(s.(held := s.held - {w}), order, |order|);
      HandoutsSame(s, Step(s, e));
  }

  ghost function PacketsSent(s: State, events: seq<Event>): nat
    requires exists s' :: BulkJobRuns.Run(s, events, s')
    decreases |events|
  {
    if events == [] then 0
    else
      var s' :| BulkJobRuns.Run(s, events, s');
      assert BulkJobRuns.Run(Step(s, events[0]), events[1..], s');
      Packets(s, events[0]) + PacketsSent(Step(s, events[0]), events[1..])
  }

  lemma {:induction false} PacketsCounted(s: State, events: seq<Event>, s': State)
    requires Invariant(s, {}) && BulkJobRuns.Run(s, events, s')
    ensures PacketsSent(s, events) + TotalHandouts(s) <= TotalHandouts(s')
    decreases |events|
  {
    if events != [] {
      StepKeeps(s, events[0]);
      StepHandouts(s, events[0]);
      PacketsCounted(Step(s, events[0]), events[1..], s');
    }
  }

  /** Over any run, with any failures of workers, at most three times as many tasks are sent to workers
  as the bulk job has. */
  lemma PacketsBounded(sizes: seq<nat>, workers: map<int, WorkerState>, events: seq<Event>, s: State)
    requires BulkJobRuns.Run(NewBulkJob(sizes, workers), events, s)
    ensures PacketsSent(NewBulkJob(sizes, workers), events) <= TOTAL_FAILURES_BEFORE_REMOVAL * TotalTasks(s)
  {
    var s0 := NewBulkJob(sizes, workers);
    NewBulkJobOk(sizes, workers);
    PacketsCounted(s0, events, s);
    assert Reachable(sizes, workers, s);
    HandoutBound(sizes, workers, s);
    SumConst(sizes, 0, |sizes|);
    SumOrder(sizes, _ => 0, HandedOut(s0), |sizes|, TaskId(0, 0));
  }
}
