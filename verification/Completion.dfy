/** What stays true once it is true, and how a bulk job comes to its end. */
module Completion {
  import opened Scheduler
  import opened BulkJobRuns

  // ---- What only grows ---------------------------------------------------------------------

  /** Nothing that was finished, committed or blacklisted is taken back. */
  ghost predicate Grows(s: State, s': State) {
    && s'.sizes == s.sizes && s.done <= s'.done && s.blacklisted <= s'.blacklisted
    && s.committed <= s'.committed && (s.finished ==> s'.finished) && s.nextJob <= s'.nextJob
  }

  ghost predicate SameHistory(s: State, s': State) {
    && s'.sizes == s.sizes && s'.done == s.done && s'.blacklisted == s.blacklisted
    && s'.committed == s.committed && s'.finished == s.finished && s.nextJob <= s'.nextJob && s'.used == s.used
  }

  lemma AdvanceHistory(s: State)
    ensures SameHistory(s, Advance(s))
  {
  }

  lemma GenerateHistory(s: State)
    ensures SameHistory(s, Generate(s))
  {
  }

  lemma GiveHistory(s: State, w: int)
    requires s.queue != []
    ensures SameHistory(s, Give(s, w))
  {
  }

  lemma RefillHistory(s: State)
    ensures SameHistory(s, Refill(s))
  {
    AdvanceHistory(s);
    GenerateHistory(Advance(s));
  }

  lemma {:induction false} AssignHistory(s: State, w: int, n: nat)
    requires Shape(s)
    ensures SameHistory(s, Assign(s, w, n).0)
    decreases Pending(s)
  {
    if n > 0 {
      var s1 := Refill(s);
      RefillHistory(s);
      if s1.queue != [] {
        GiveHistory(s1, w);
        RoundShape(s, w);
        AssignHistory(Give(s1, w), w, if s1.queue[|s1.queue| - 1].job in s1.blacklisted then n else n - 1);
      }
    }
  }

  lemma FinishGrows(s: State, w: int, t: TaskId)
    requires w in s.held && t.job < |s.usedPerJob| && |s.usedPerJob| == |s.sizes|
    ensures Grows(s, Finish(s, w, t))
  {
  }

  lemma FailGrows(s: State, t: TaskId)
    requires t.job < |s.usedPerJob| && |s.usedPerJob| == |s.sizes|
    ensures Grows(s, Fail(s, t))
  {
  }

  lemma {:induction false} FailToGrows(s: State, order: seq<TaskId>, k: nat)
    requires JobsExist(s, order) && k <= |order|
    ensures Grows(s, FailTo(s, order, k))
  {
    if k > 0 {
      FailToGrows(s, order, k - 1);
      FailGrows(FailTo(s, order, k - 1), order[k - 1]);
    }
  }

  lemma StepGrows(s: State, e: Event)
    requires Invariant(s, {}) && Possible(s, e)
    ensures Grows(s, Step(s, e))
  {
    match e
    case RegisterWorker(w) =>
    case StartJob(w) =>
    case NextWork(w, n) => if BulkJobRuns.Runs(s, w) { AssignHistory(s, w, n); }
    case FinishedWork(w, t) =>
      if w in s.workers && HeldBy(s, w, t) {
        FinishKeeps(s, w, t);
        FinishGrows(s, w, t);
      }
    case FinishedJob(w, order) =>
      HeldExist(s, w, order);
      FailToGrows(s.(held := s.held - {w}), order, |order|);
    case RemoveWorker(w, order) =>
      HeldExist(s, w, order);
      FailToGrows(s.(held := s.held - {w}), order, |order|);
  }

  lemma {:induction false} RunGrows(s: State, events: seq<Event>, s': State)
    requires Invariant(s, {}) && Run(s, events, s')
    ensures Grows(s, s')
    decreases |events|
  {
    if events != [] {
      StepKeeps(s, events[0]);
      StepGrows(s, events[0]);
      RunGrows(Step(s, events[0]), events[1..], s');
    }
  }

  /** Whatever happens later, a committed job stays committed and is never blacklisted, and a
  blacklisted job stays blacklisted and is never committed. */
  lemma CommittedForGood(sizes: seq<nat>, workers: map<int, WorkerState>, s: State, events: seq<Event>, s': State,
                         j: nat)
    requires Reachable(sizes, workers, s) && Run(s, events, s') && j < |s.sizes|
    ensures j in s.committed ==> j in s'.committed && j !in s'.blacklisted
    ensures j in s.blacklisted ==> j in s'.blacklisted && j !in s'.committed
  {
    ReachableOk(sizes, workers, s);
    RunKeeps(s, events, s');
    RunGrows(s, events, s');
    assert JobOk(s', j);
  }

  // ---- The end -----------------------------------------------------------------------------

  /** When all tasks are used up, the jobs that tasks were not generated from have none. */
  lemma EndOfJobs(s: State, j: nat)
    requires Invariant(s, {}) && s.used == TotalTasks(s) && s.nextJob <= j < |s.sizes|
    ensures s.sizes[j] == 0
  {
    AllUsed(s, |s.sizes|);
    assert Over(s, j);
    LaterJobsUnused(s, j);
    JobComplete(s, {}, j);
  }

  /** Worker `w` runs the job, and no task is under way. */
  ghost predicate Solo(s: State, w: int) {
    Invariant(s, {}) && BulkJobRuns.Runs(s, w) && forall t :: !Held(s, t)
  }

  /** Nothing waits, and no job was given up. */
  ghost predicate Tidy(s: State) {
    s.queue == [] && s.blacklisted == {}
  }

  ghost predicate AllGenerated(s: State) {
    s.queue == [] && s.nextTask == s.numTasks && s.nextJob == |s.sizes|
  }

  lemma SoloAllGenerated(s: State, w: int)
    requires Solo(s, w) && AllGenerated(s)
    ensures s.used == TotalTasks(s)
  {
    forall j | 0 <= j < |s.sizes| && j !in s.blacklisted ensures Over(s, j) {
      forall t | t in TasksOf(j, s.sizes[j]) ensures t in s.done { assert PlaceOk(s, {}, t) && Generated(s, t); }
    }
    AllUsed(s, |s.sizes|);
  }

  // ---- Asking for a task -------------------------------------------------------------------

  /** Refilling the queue leaves it empty only when the master moves past an empty job, or is through. */
  lemma RefillMoves(s: State)
    requires Shape(s)
    ensures Refill(s).held == s.held && Refill(s).blacklisted == s.blacklisted
    ensures Refill(s).queue == [] ==> s.queue == [] && (Refill(s).nextJob > s.nextJob || AllGenerated(s))
    ensures s.queue == [] && Refill(s).queue != [] ==>
              |Refill(s).queue| == 1 && Refill(s).nextJob == Refill(s).queue[0].job + 1
  {
    var s1 := Advance(s);
    assert s1.held == s.held && s1.blacklisted == s.blacklisted && s1.queue == s.queue;
  }

  /** The state `r` after worker `w` asked in state `s` and got nothing. */
  ghost predicate GotNone(s: State, r: State)
    requires Shape(s) && Shape(r)
  {
    && r.held == s.held && Pending(r) <= Pending(s)
    && (Pending(r) < Pending(s) || r.nextJob > s.nextJob || AllGenerated(s))
  }

  /** After it got task `t`. */
  ghost predicate Got(s: State, r: State, w: int, t: TaskId) {
    r.held == s.held[w := HeldOf(s, w) + {t}] && t.job !in s.blacklisted
  }

  /** The answer to worker `w`, which asked for one task. */
  ghost predicate Answer(s: State, r: State, w: int, given: bool, t: TaskId)
    requires Shape(s)
  {
    && Shape(r) && r.workers == s.workers
    && (if given then Got(s, r, w, t) else GotNone(s, r))
    && (Tidy(s) ==> r.queue == [] && (given ==> r.nextJob == t.job + 1))
  }

  /** Handing out the task at the back of the queue. */
  lemma AskGiven(s: State, w: int, t: TaskId)
    requires Shape(s) && Refill(s).queue != [] && t == Refill(s).queue[|Refill(s).queue| - 1] && t.job !in s.blacklisted
    ensures Answer(s, Assign(s, w, 1).0, w, true, t)
  {
    var s1 := Refill(s);
    RefillMoves(s);
    RoundShape(s, w);
    assert Assign(s, w, 1).0 == Give(s1, w);
  }

  /** Throwing it away. */
  lemma AskDropped(s: State, w: int)
    requires Shape(s) && Refill(s).queue != [] && Refill(s).queue[|Refill(s).queue| - 1].job in s.blacklisted
    ensures var s2 := Give(Refill(s), w);
            && Shape(s2) && 0 <= Pending(s2) < Pending(s) && Assign(s, w, 1) == Assign(s2, w, 1)
            && s2.held == s.held && s2.blacklisted == s.blacklisted && s2.workers == s.workers
  {
    RefillMoves(s);
    RoundShape(s, w);
  }

  lemma DroppedAnswer(s: State, s2: State, r: State, w: int, given: bool, t: TaskId)
    requires Shape(s) && Shape(s2) && Answer(s2, r, w, given, t) && Pending(s2) < Pending(s) && s.blacklisted != {}
    requires s2.held == s.held && s2.blacklisted == s.blacklisted && s2.workers == s.workers
    ensures Answer(s, r, w, given, t)
  {
  }

  lemma AskEmpty(s: State, w: int, t: TaskId)
    requires Shape(s) && Refill(s).queue == []
    ensures Answer(s, Assign(s, w, 1).0, w, false, t)
  {
    RefillMoves(s);
    RefillShape(s);
  }

  /** The worker asks for one task. Tasks of jobs that were given up are thrown away on the way. */
  lemma {:induction false} Ask(s: State, w: int) returns (given: bool, t: TaskId)
    requires Shape(s)
    ensures Answer(s, Assign(s, w, 1).0, w, given, t)
    decreases Pending(s)
  {
    var s1 := Refill(s);
    given, t := false, TaskId(0, 0);
    if s1.queue == [] {
      AskEmpty(s, w, t);
    } else {
      t := s1.queue[|s1.queue| - 1];
      if t.job in s.blacklisted {
        AskDropped(s, w);
        var s2 := Give(s1, w);
        given, t := Ask(s2, w);
        DroppedAnswer(s, s2, Assign(s2, w, 1).0, w, given, t);
      } else {
        AskGiven(s, w, t);
        given := true;
      }
    }
  }

  lemma SoloAsk(s: State, w: int) returns (s1: State, given: bool, t: TaskId)
    requires Solo(s, w) && s.used < TotalTasks(s)
    ensures s1 == Step(s, NextWork(w, 1)) && Invariant(s1, {}) && SameHistory(s, s1) && s1.workers == s.workers
    ensures given ==> Got(s, s1, w, t)
    ensures !given ==> s1.held == s.held && Pending(s1) <= Pending(s)
    ensures !given ==> Pending(s1) < Pending(s) || s1.nextJob > s.nextJob
    ensures Tidy(s) ==> Tidy(s1) && (given ==> s1.nextJob == t.job + 1)
  {
    s1 := Assign(s, w, 1).0;
    StepKeeps(s, NextWork(w, 1));
    AssignHistory(s, w, 1);
    given, t := Ask(s, w);
    if AllGenerated(s) { SoloAllGenerated(s, w); }
  }

  // ---- Reporting a task --------------------------------------------------------------------

  lemma FinishCounts(s: State, w: int, t: TaskId)
    requires w in s.held && t.job < |s.usedPerJob| && |s.usedPerJob| == |s.sizes|
    ensures var r := Finish(s, w, t);
            && r.used == s.used + (if t.job !in s.blacklisted && t in s.active then 1 else 0) && r.queue == s.queue
            && r.blacklisted == s.blacklisted && r.nextJob == s.nextJob
  {
  }

  lemma FinishWorkers(s: State, w: int, t: TaskId)
    requires w in s.held && t.job < |s.usedPerJob| && |s.usedPerJob| == |s.sizes|
    ensures var r := Finish(s, w, t);
            r.workers == s.workers && r.sizes == s.sizes && r.held == s.held[w := s.held[w] - {t}]
  {
  }

  /** A worker reports a task that it holds. */
  lemma Report(s: State, w: int, t: TaskId) returns (s1: State)
    requires Invariant(s, {}) && HeldBy(s, w, t)
    ensures BulkJobRuns.Runs(s, w) && s1 == Step(s, FinishedWork(w, t)) && Invariant(s1, {})
    ensures forall t' :: Held(s1, t') <==> Held(s, t') && t' != t
    ensures s1.workers == s.workers && s1.sizes == s.sizes && s1.blacklisted == s.blacklisted
    ensures s1.queue == s.queue && s1.nextJob == s.nextJob && s.used <= s1.used
    ensures t.job !in s.blacklisted ==> s1.used == s.used + 1
    ensures t.job < |s.sizes| && s.sizes[t.job] > 0
  {
    assert Held(s, t) && PlaceOk(s, {}, t);
    FinishKeeps(s, w, t);
    s1 := Finish(s, w, t);
    FinishCounts(s, w, t);
    FinishWorkers(s, w, t);
    LetGo(s, s1, w, t);
  }

  ghost predicate LastStepAt(s: State) {
    0 < s.nextJob <= |s.sizes| && s.sizes[s.nextJob - 1] > 0
  }

  /** What the end of a round has in common with its start. */
  ghost predicate Onward(s: State, s': State) {
    s'.sizes == s.sizes && s'.blacklisted == s.blacklisted && s.used <= s'.used && (Tidy(s) ==> Tidy(s'))
  }

  lemma SoloTask(s: State, s1: State, w: int, t: TaskId) returns (s': State)
    requires Solo(s, w) && Invariant(s1, {}) && s1.workers == s.workers && Got(s, s1, w, t) && SameHistory(s, s1)
    requires Tidy(s) ==> Tidy(s1) && s1.nextJob == t.job + 1
    ensures Run(s1, [FinishedWork(w, t)], s') && Solo(s', w) && Onward(s, s') && s'.used == s.used + 1
    ensures Tidy(s) ==> LastStepAt(s')
  {
    HandHeld(s, s1, w, t);
    assert HeldBy(s1, w, t);
    s' := Report(s1, w, t);
    RunOne(s1, FinishedWork(w, t));
  }

  /** One round: the worker gets a task and reports it, or gets none and less is left to look at. */
  lemma SoloRound(s: State, w: int) returns (events: seq<Event>, s': State)
    requires Solo(s, w) && s.used < TotalTasks(s)
    ensures Run(s, events, s') && Solo(s', w) && Onward(s, s')
    ensures s'.used > s.used || (Pending(s') <= Pending(s) && (Pending(s') < Pending(s) || s'.nextJob > s.nextJob))
    ensures s'.used > s.used && Tidy(s) ==> LastStepAt(s')
  {
    var s1, given, t := SoloAsk(s, w);
    RunOne(s, NextWork(w, 1));
    if given {
      s' := SoloTask(s, s1, w, t);
      RunConcat(s, [NextWork(w, 1)], s1, [FinishedWork(w, t)], s');
      events := [NextWork(w, 1)] + [FinishedWork(w, t)];
    } else {
      events, s' := [NextWork(w, 1)], s1;
      HeldSame(s, s1);
    }
  }

  /** One worker that does not fail brings the bulk job to its end when no other works on it. If nothing had been
  returned or given up before, then the master has generated tasks up to the job of the last task. */
  lemma {:induction false} SoloRun(s: State, w: int) returns (events: seq<Event>, s': State)
    requires Solo(s, w) && s.used < TotalTasks(s)
    ensures Run(s, events, s') && Invariant(s', {}) && s'.sizes == s.sizes && s'.blacklisted == s.blacklisted
    ensures s'.used == TotalTasks(s') && (Tidy(s) ==> LastStepAt(s'))
    decreases TotalTasks(s) - s.used, Pending(s), |s.sizes| - s.nextJob
  {
    events, s' := SoloRound(s, w);
    UsedBounded(s', {}, |s'.sizes|);
    PendingNonNegative(s');
    if s'.used < TotalTasks(s') {
      var s1, rest := s', [];
      rest, s' := SoloRun(s1, w);
      RunConcat(s, events, s1, rest, s');
      events := events + rest;
    }
  }

  // ---- From every state --------------------------------------------------------------------

  ghost function HeldTasks(s: State): set<TaskId> {
    set w, t | w in s.held && t in s.held[w] :: t
  }

  /** All tasks under way are reported. */
  lemma {:induction false} ReportAll(s: State) returns (events: seq<Event>, s': State)
    requires Invariant(s, {})
    ensures Run(s, events, s') && Invariant(s', {}) && forall t :: !Held(s', t)
    ensures s'.sizes == s.sizes && s'.blacklisted == s.blacklisted
    decreases HeldTasks(s)
  {
    if w, t :| HeldBy(s, w, t) {
      var s1 := Report(s, w, t);
      RunOne(s, FinishedWork(w, t));
      HeldTask(s, t);
      HeldTask(s1, t);
      assert Held(s, t) && !Held(s1, t);
      forall x | x in HeldTasks(s1) ensures x in HeldTasks(s) { HeldTask(s1, x); HeldTask(s, x); }
      var rest;
      rest, s' := ReportAll(s1);
      RunConcat(s, [FinishedWork(w, t)], s1, rest, s');
      events := [FinishedWork(w, t)] + rest;
    } else {
      events, s' := [], s;
    }
  }

  lemma HeldTask(s: State, t: TaskId)
    ensures t in HeldTasks(s) <==> Held(s, t)
  {
    if w :| HeldBy(s, w, t) { assert t in HeldTasks(s); }
    if t in HeldTasks(s) {
      var w :| w in s.held && t in s.held[w];
      assert HeldBy(s, w, t);
    }
  }

  /** There is always another worker id. */
  lemma {:induction false} UnusedId(ids: set<int>) returns (w: int)
    ensures forall x | x in ids :: x < w
    decreases ids
  {
    if x :| x in ids {
      var v := UnusedId(ids - {x});
      w := if x < v then v else x + 1;
      assert forall y | y in ids :: y == x || y in ids - {x};
    } else {
      w := 0;
    }
  }

  /** A new worker joins. */
  lemma Join(s: State) returns (w: int, events: seq<Event>, s': State)
    requires Invariant(s, {}) && forall t :: !Held(s, t)
    ensures Run(s, events, s') && Solo(s', w) && s'.sizes == s.sizes && s'.blacklisted == s.blacklisted
    ensures s'.used == s.used
  {
    w := UnusedId(s.workers.Keys + s.held.Keys);
    var s1 := Step(s, RegisterWorker(w));
    StepKeeps(s, RegisterWorker(w));
    RunOne(s, RegisterWorker(w));
    s' := Step(s1, StartJob(w));
    StepKeeps(s1, StartJob(w));
    RunOne(s1, StartJob(w));
    RunConcat(s, [RegisterWorker(w)], s1, [StartJob(w)], s');
    events := [RegisterWorker(w)] + [StartJob(w)];
    HeldSame(s, s');
  }

  lemma Finishable(s: State) returns (events: seq<Event>, s': State)
    requires Invariant(s, {})
    ensures Run(s, events, s') && Invariant(s', {}) && s'.sizes == s.sizes && s'.blacklisted == s.blacklisted
    ensures s'.used == TotalTasks(s')
  {
    events, s' := ReportAll(s);
    UsedBounded(s', {}, |s'.sizes|);
    if s'.used < TotalTasks(s') {
      var s1, e1 := s', events;
      var w, e2, s2 := Join(s1);
      RunConcat(s, e1, s1, e2, s2);
      var e3;
      e3, s' := SoloRun(s2, w);
      RunConcat(s, e1 + e2, s2, e3, s');
      events := e1 + e2 + e3;
    }
  }

  /** Whatever has happened to a bulk job with tasks, it can still come to its end: there is a continuation after
  which it is over, in which no further job is given up, and every job with tasks that was not given up
  is committed. */
  lemma CanFinish(sizes: seq<nat>, workers: map<int, WorkerState>, s: State) returns (events: seq<Event>, s': State)
    requires Reachable(sizes, workers, s) && TotalTasks(s) > 0
    ensures Run(s, events, s') && Reachable(sizes, workers, s') && s'.finished
    ensures s'.sizes == s.sizes && s'.blacklisted == s.blacklisted
    ensures forall j: nat | j < |s.sizes| && s.sizes[j] > 0 && j !in s.blacklisted :: j in s'.committed
  {
    ReachableOk(sizes, workers, s);
    events, s' := Finishable(s);
    var before :| Run(NewBulkJob(sizes, workers), before, s);
    RunConcat(NewBulkJob(sizes, workers), before, s, events, s');
    UsedTasks(sizes, workers, s');
    forall j: nat | j < |s.sizes| && s.sizes[j] > 0 && j !in s.blacklisted ensures j in s'.committed {
      assert Over(s', j);
      CommittedJobs(sizes, workers, s', j);
    }
  }

  // ---- The assertion at the end ------------------------------------------------------------

  /** The master asserts that it has generated tasks from all jobs when the last task is used up. */
  ghost predicate EndAssertion(sizes: seq<nat>) {
    forall workers, s | Reachable(sizes, workers, s) && s.used == TotalTasks(s) :: s.nextJob == |s.sizes|
  }

  lemma {:induction false} RunSizes(s: State, events: seq<Event>, s': State)
    requires Invariant(s, {}) && Run(s, events, s')
    ensures s'.sizes == s.sizes
  {
    RunGrows(s, events, s');
  }

  /** If the last job has a task, the master has got to it by the end. */
  lemma EndAtLast(sizes: seq<nat>, workers: map<int, WorkerState>, s: State)
    requires sizes != [] && sizes[|sizes| - 1] > 0 && Reachable(sizes, workers, s) && s.used == TotalTasks(s)
    ensures s.nextJob == |s.sizes|
  {
    ReachableOk(sizes, workers, s);
    var events :| Run(NewBulkJob(sizes, workers), events, s);
    NewBulkJobOk(sizes, workers);
    RunSizes(NewBulkJob(sizes, workers), events, s);
    if s.nextJob < |s.sizes| { EndOfJobs(s, |s.sizes| - 1); }
  }

  /** A bulk job with tasks meets that assertion in every run if and only if its last job has a task. */
  lemma EndAssertionHolds(sizes: seq<nat>)
    requires TasksTo(sizes, |sizes|) > 0
    ensures EndAssertion(sizes) <==> sizes[|sizes| - 1] > 0
  {
    if sizes[|sizes| - 1] > 0 {
      forall workers, s | Reachable(sizes, workers, s) && s.used == TotalTasks(s) ensures s.nextJob == |s.sizes| {
        EndAtLast(sizes, workers, s);
      }
    } else {
      var s := EarlyEnd(sizes);
      assert Reachable(sizes, map[0 := Idle], s);
    }
  }

  /** A run of a bulk job whose last job is empty that ends before the master gets to that job. */
  lemma EarlyEnd(sizes: seq<nat>) returns (s: State)
    requires TasksTo(sizes, |sizes|) > 0 && sizes[|sizes| - 1] == 0
    ensures Reachable(sizes, map[0 := Idle], s) && s.used == TotalTasks(s) && s.nextJob < |s.sizes|
  {
    var workers := map[0 := Idle];
    var s0 := NewBulkJob(sizes, workers);
    NewBulkJobOk(sizes, workers);
    var start := [StartJob(0)];
    var s1 := Step(s0, start[0]);
    assert start[1..] == [];
    assert Run(s0, start, s1);
    StepKeeps(s0, start[0]);
    assert forall t :: !Held(s1, t);
    var events;
    events, s := SoloRun(s1, 0);
    RunConcat(s0, start, s1, events, s);
  }
}
