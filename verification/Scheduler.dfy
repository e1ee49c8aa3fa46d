/** The scheduler of the master: the state of one bulk job, the steps that requests of workers make
it take, and what every run of such steps keeps. */
module Scheduler {
  import opened Rows

  datatype TaskId = TaskId(job: nat, task: nat)

  datatype WorkerState = Idle | RunningJob | Unregistered

  const TOTAL_FAILURES_BEFORE_REMOVAL: int := 3

  /** `sizes` has the number of tasks of every job. `done` (the tasks that counted as finished),
  `handouts` (how often a task was handed out) and `committed` (the tables committed, in order)
  record the history; the master itself keeps only counters. */
  datatype State = State(
    sizes: seq<nat>,
    nextJob: nat,
    nextTask: nat,
    numTasks: nat,
    active: set<TaskId>,
    queue: seq<TaskId>,
    used: int,
    usedPerJob: seq<nat>,
    held: map<int, set<TaskId>>,
    failures: map<TaskId, nat>,
    blacklisted: set<nat>,
    workers: map<int, WorkerState>,
    finished: bool,
    done: set<TaskId>,
    handouts: map<TaskId, nat>,
    committed: seq<nat>)

  function Count(m: map<TaskId, nat>, t: TaskId): nat {
    if t in m then m[t] else 0
  }

  function Increment(m: map<TaskId, nat>, t: TaskId): map<TaskId, nat> {
    m[t := Count(m, t) + 1]
  }

  /** Tasks of the first `k` jobs. */
  function TasksTo(sizes: seq<nat>, k: nat): nat
    requires k <= |sizes|
  {
    if k == 0 then 0 else TasksTo(sizes, k - 1) + sizes[k - 1]
  }

  function TotalTasks(s: State): nat {
    TasksTo(s.sizes, |s.sizes|)
  }

  function NewBulkJob(sizes: seq<nat>, workers: map<int, WorkerState>): State {
    State(sizes, 0, 0, 0, {}, [], 0, seq(|sizes|, _ => 0), map[], map[], {}, workers, false, {}, map[], [])
  }

  // ---- Steps -------------------------------------------------------------------------------

  /** Moves on to the next job at the end of one. */
  function Advance(s: State): (r: State)
    ensures r.workers == s.workers && r.sizes == s.sizes
  {
    if s.nextTask == s.numTasks && s.nextJob < |s.sizes| then
      s.(nextTask := 0, numTasks := s.sizes[s.nextJob], nextJob := s.nextJob + 1)
    else s
  }

  /** Generates the next task of the current job. */
  function Generate(s: State): (r: State)
    ensures r.workers == s.workers && r.sizes == s.sizes
  {
    if s.nextTask < s.numTasks && s.nextJob > 0 then
      var t := TaskId(s.nextJob - 1, s.nextTask);
      s.(active := s.active + {t}, queue := [t] + s.queue, nextTask := s.nextTask + 1)
    else s
  }

  /** Generates one more task if the queue is empty. A job without tasks yields none this time. */
  function Refill(s: State): (r: State)
    ensures r.workers == s.workers && r.sizes == s.sizes
  {
    if s.queue != [] then s else Generate(Advance(s))
  }

  function HeldOf(s: State, w: int): set<TaskId> {
    if w in s.held then s.held[w] else {}
  }

  /** Takes the task at the back of the queue, and hands it to worker `w` unless its job was
  blacklisted. */
  function Give(s: State, w: int): (r: State)
    requires s.queue != []
    ensures r.workers == s.workers && r.sizes == s.sizes
  {
    var t := s.queue[|s.queue| - 1];
    var s1 := s.(queue := s.queue[..|s.queue| - 1]);
    if t.job in s.blacklisted then s1
    else s1.(held := s1.held[w := HeldOf(s1, w) + {t}], handouts := Increment(s1.handouts, t))
  }

  /** The bulk job is over once all tasks are used up. */
  function CheckFinished(s: State): State {
    if s.used == TotalTasks(s) then s.(finished := true) else s
  }

  /** Worker `w` reports task `t`, which it holds. */
  function Finish(s: State, w: int, t: TaskId): State
    requires w in s.held && t.job < |s.usedPerJob| && |s.usedPerJob| == |s.sizes|
  {
    var s1 := s.(held := s.held[w := s.held[w] - {t}]);
    if t.job in s.blacklisted || t !in s.active then CheckFinished(s1)
    else
      var n := s1.usedPerJob[t.job] + 1;
      CheckFinished(s1.(
        active := s1.active - {t}, used := s1.used + 1, usedPerJob := s1.usedPerJob[t.job := n],
        done := s1.done + {t},
        committed := if n == s1.sizes[t.job] then s1.committed + [t.job] else s1.committed))
  }

  function TasksOf(j: nat, n: nat): set<TaskId> {
    set i: nat | i < n :: TaskId(j, i)
  }

  function Blacklist(s: State, j: nat): State
    requires j < |s.usedPerJob| && |s.usedPerJob| == |s.sizes|
  {
    if j in s.blacklisted then s
    else CheckFinished(s.(
      blacklisted := s.blacklisted + {j},
      active := s.active - TasksOf(j, s.sizes[j]),
      used := s.used + s.sizes[j] - s.usedPerJob[j]))
  }

  /** A worker lost task `t`. */
  function Fail(s: State, t: TaskId): State
    requires t.job < |s.usedPerJob| && |s.usedPerJob| == |s.sizes|
  {
    var s1 := s.(queue := s.queue + [t], failures := Increment(s.failures, t));
    if Count(s1.failures, t) >= TOTAL_FAILURES_BEFORE_REMOVAL then Blacklist(s1, t.job) else s1
  }

  ghost predicate JobsExist(s: State, ts: seq<TaskId>) {
    |s.usedPerJob| == |s.sizes| && forall i | 0 <= i < |ts| :: ts[i].job < |s.sizes|
  }

  /** The first `k` tasks of `order` fail one after the other. */
  function FailTo(s: State, order: seq<TaskId>, k: nat): (r: State)
    requires JobsExist(s, order) && k <= |order|
    ensures r.sizes == s.sizes && |r.usedPerJob| == |s.usedPerJob| && r.held == s.held && r.workers == s.workers
  {
    if k == 0 then s else Fail(FailTo(s, order, k - 1), order[k - 1])
  }

  /** `order` is some order in which the set `ts` can be walked. */
  ghost predicate Listing(order: seq<TaskId>, ts: set<TaskId>) {
    && (forall i, j | 0 <= i < j < |order| :: order[i] != order[j])
    && (forall t :: t in order <==> t in ts)
  }

  /** Everything that worker `w` holds fails, and the worker stops. */
  function StopJob(s: State, w: int, order: seq<TaskId>): State
    requires JobsExist(s, order)
  {
    var s1 := FailTo(s.(held := s.held - {w}), order, |order|);
    s1.(workers := s1.workers[w := Idle])
  }

  // ---- The invariant -----------------------------------------------------------------------

  predicate Generated(s: State, t: TaskId) {
    t.job < |s.sizes| && t.task < s.sizes[t.job] &&
      (t.job + 1 < s.nextJob || (t.job + 1 == s.nextJob && t.task < s.nextTask))
  }

  ghost predicate HeldBy(s: State, w: int, t: TaskId) {
    w in s.held && t in s.held[w]
  }

  ghost predicate Held(s: State, t: TaskId) {
    exists w :: HeldBy(s, w, t)
  }

  ghost function Indicator(b: bool): nat {
    if b then 1 else 0
  }

  /** Where task `t` is. `limbo` are tasks taken from a worker that are about to be put back. */
  ghost predicate PlaceOk(s: State, limbo: set<TaskId>, t: TaskId) {
    && (t in s.queue || Held(s, t) || t in s.done || t in limbo ==> Generated(s, t))
    && !(t in s.queue && (Held(s, t) || t in s.done || t in limbo))
    && !(Held(s, t) && (t in s.done || t in limbo))
    && !(t in s.done && t in limbo)
    && (t.job !in s.blacklisted && Generated(s, t) ==> t in s.queue || Held(s, t) || t in s.done || t in limbo)
    && (t.job !in s.blacklisted ==> (t in s.active <==> Generated(s, t) && t !in s.done))
  }

  /** How often task `t` was handed out. */
  ghost predicate CountOk(s: State, limbo: set<TaskId>, t: TaskId) {
    && Count(s.handouts, t) <= TOTAL_FAILURES_BEFORE_REMOVAL
    && (t.job !in s.blacklisted ==> Count(s.failures, t) < TOTAL_FAILURES_BEFORE_REMOVAL)
    && (t.job !in s.blacklisted ==>
          Count(s.handouts, t) == Count(s.failures, t) + Indicator(Held(s, t) || t in limbo || t in s.done))
    && (!Generated(s, t) ==> Count(s.handouts, t) == 0)
  }

  /** One holder per task, and only workers that run the job hold any. */
  ghost predicate HolderOk(s: State, w: int, w': int, t: TaskId) {
    HeldBy(s, w, t) && HeldBy(s, w', t) ==> w == w'
  }

  ghost function DoneIn(done: set<TaskId>, j: nat): set<TaskId> {
    set t | t in done && t.job == j
  }

  ghost predicate JobOk(s: State, j: nat)
    requires j < |s.usedPerJob| == |s.sizes|
  {
    && s.usedPerJob[j] == |DoneIn(s.done, j)|
    && (j in s.blacklisted ==> s.usedPerJob[j] < s.sizes[j])
    && (j in s.committed <==> s.usedPerJob[j] == s.sizes[j] > 0)
  }

  /** Tasks used up by the first `k` jobs: the finished ones, or all of a blacklisted job. */
  ghost function UsedTo(s: State, k: nat): int
    requires k <= |s.usedPerJob| == |s.sizes|
  {
    if k == 0 then 0 else UsedTo(s, k - 1) + (if k - 1 in s.blacklisted then s.sizes[k - 1] else s.usedPerJob[k - 1])
  }

  ghost predicate Shape(s: State) {
    && |s.usedPerJob| == |s.sizes| && s.nextJob <= |s.sizes| && s.nextTask <= s.numTasks
    && s.numTasks == (if s.nextJob == 0 then 0 else s.sizes[s.nextJob - 1])
    && (forall j | j in s.blacklisted :: j < s.nextJob)
  }

  ghost predicate Core(s: State, limbo: set<TaskId>) {
    && Shape(s) && Distinct(s.queue) && Distinct(s.committed)
    && (forall t :: PlaceOk(s, limbo, t))
    && (forall t :: CountOk(s, limbo, t))
    && (forall w, w', t :: HolderOk(s, w, w', t))
    && (forall w | w in s.held :: w in s.workers && s.workers[w] == RunningJob)
    && (forall j | 0 <= j < |s.sizes| :: JobOk(s, j))
    && s.used == UsedTo(s, |s.sizes|)
  }

  /** What every step keeps. */
  ghost predicate Invariant(s: State, limbo: set<TaskId>) {
    Core(s, limbo) && (s.finished <==> TotalTasks(s) > 0 && s.used == TotalTasks(s))
  }

  // ---- Counting ----------------------------------------------------------------------------

  lemma {:induction false} TasksOfSize(j: nat, n: nat)
    ensures |TasksOf(j, n)| == n
  {
    if n > 0 {
      TasksOfSize(j, n - 1);
      assert TasksOf(j, n) == TasksOf(j, n - 1) + {TaskId(j, n - 1)};
    } else {
      assert TasksOf(j, 0) == {};
    }
  }

  lemma SubsetSize<T>(a: set<T>, b: set<T>)
    requires a <= b
    ensures |a| <= |b|
    ensures |a| == |b| ==> a == b
  {
    assert b == a + (b - a);
    assert |b| == |a| + |b - a|;
  }

  /** A job is complete exactly when all its tasks are done. */
  lemma JobComplete(s: State, limbo: set<TaskId>, j: nat)
    requires Core(s, limbo) && j < |s.sizes|
    ensures s.usedPerJob[j] <= s.sizes[j]
    ensures s.usedPerJob[j] == s.sizes[j] <==> TasksOf(j, s.sizes[j]) <= s.done
  {
    assert JobOk(s, j);
    var all := TasksOf(j, s.sizes[j]);
    forall t | t in DoneIn(s.done, j) ensures t in all { assert PlaceOk(s, limbo, t); }
    TasksOfSize(j, s.sizes[j]);
    SubsetSize(DoneIn(s.done, j), all);
    if all <= s.done { assert DoneIn(s.done, j) == all; }
  }

  lemma {:induction false} UsedBounded(s: State, limbo: set<TaskId>, k: nat)
    requires Core(s, limbo) && k <= |s.sizes|
    ensures UsedTo(s, k) <= TasksTo(s.sizes, k)
  {
    if k > 0 {
      UsedBounded(s, limbo, k - 1);
      JobComplete(s, limbo, k - 1);
    }
  }

  ghost function Share(s: State, j: nat): int
    requires j < |s.usedPerJob| == |s.sizes|
  {
    if j in s.blacklisted then s.sizes[j] else s.usedPerJob[j]
  }

  lemma {:induction false} UsedShift(s: State, s': State, j: nat, k: nat)
    requires |s.usedPerJob| == |s.sizes| == |s'.usedPerJob| == |s'.sizes| && k <= |s.sizes| && j < |s.sizes|
    requires forall i | 0 <= i < |s.sizes| && i != j :: Share(s', i) == Share(s, i)
    ensures UsedTo(s', k) == UsedTo(s, k) + (if j < k then Share(s', j) - Share(s, j) else 0)
  {
    if k > 0 {
      UsedShift(s, s', j, k - 1);
      assert k - 1 != j ==> Share(s', k - 1) == Share(s, k - 1);
    }
  }

  lemma {:induction false} UsedSame(s: State, s': State, k: nat)
    requires s'.sizes == s.sizes && s'.usedPerJob == s.usedPerJob && s'.blacklisted == s.blacklisted
    requires k <= |s.usedPerJob| == |s.sizes|
    ensures UsedTo(s', k) == UsedTo(s, k)
  {
    if k > 0 { UsedSame(s, s', k - 1); }
  }

  // ---- Every step keeps the invariant ------------------------------------------------------

  /** Facts about jobs do not depend on where tasks are. */
  lemma JobsKept(s: State, s': State, limbo: set<TaskId>)
    requires Invariant(s, limbo)
    requires s' == s.(nextJob := s'.nextJob, nextTask := s'.nextTask, numTasks := s'.numTasks, active := s'.active,
                      queue := s'.queue,
                      held := s'.held, failures := s'.failures, workers := s'.workers, handouts := s'.handouts)
    ensures forall j | 0 <= j < |s'.sizes| :: JobOk(s', j)
    ensures s'.used == UsedTo(s', |s'.sizes|)
    ensures s'.finished <==> TotalTasks(s') > 0 && s'.used == TotalTasks(s')
  {
    UsedSame(s, s', |s.sizes|);
    forall j | 0 <= j < |s'.sizes| ensures JobOk(s', j) { assert JobOk(s, j); }
  }

  lemma HeldSame(s: State, s': State)
    requires s'.held == s.held
    ensures forall t :: Held(s', t) == Held(s, t)
    ensures forall w, t :: HeldBy(s', w, t) == HeldBy(s, w, t)
  {
    forall t ensures Held(s', t) == Held(s, t) {
      if w :| HeldBy(s, w, t) { assert HeldBy(s', w, t); }
      if w :| HeldBy(s', w, t) { assert HeldBy(s, w, t); }
    }
  }

  /** Moving on to the next job generates nothing yet. */
  lemma NextJobKeeps(s: State, s': State, limbo: set<TaskId>)
    requires Invariant(s, limbo) && s.nextTask == s.numTasks && s.nextJob < |s.sizes|
    requires s' == s.(nextTask := 0, numTasks := s.sizes[s.nextJob], nextJob := s.nextJob + 1)
    ensures Invariant(s', limbo)
  {
    JobsKept(s, s', limbo);
    HeldSame(s, s');
    forall t ensures Generated(s', t) == Generated(s, t) && PlaceOk(s', limbo, t) && CountOk(s', limbo, t) {
      assert PlaceOk(s, limbo, t) && CountOk(s, limbo, t);
    }
    forall w, w', t ensures HolderOk(s', w, w', t) { assert HolderOk(s, w, w', t); }
  }

  lemma GenerateKeeps(s: State, s': State, t0: TaskId, limbo: set<TaskId>)
    requires Invariant(s, limbo) && s.nextTask < s.numTasks && s.queue == [] && s.nextJob > 0
    requires t0 == TaskId(s.nextJob - 1, s.nextTask)
    requires s' == s.(active := s.active + {t0}, queue := [t0], nextTask := s.nextTask + 1)
    ensures Invariant(s', limbo)
  {
    JobsKept(s, s', limbo);
    HeldSame(s, s');
    forall t ensures PlaceOk(s', limbo, t) && CountOk(s', limbo, t) {
      assert PlaceOk(s, limbo, t) && CountOk(s, limbo, t);
      assert Generated(s', t) <==> Generated(s, t) || t == t0;
    }
    forall w, w', t ensures HolderOk(s', w, w', t) { assert HolderOk(s, w, w', t); }
  }

  lemma AdvanceKeeps(s: State)
    requires Invariant(s, {}) && s.queue == []
    ensures Invariant(Advance(s), {}) && Advance(s).queue == []
  {
    if s.nextTask == s.numTasks && s.nextJob < |s.sizes| { NextJobKeeps(s, Advance(s), {}); }
  }

  lemma FillKeeps(s: State)
    requires Invariant(s, {}) && s.queue == []
    ensures Invariant(Generate(s), {})
  {
    if s.nextTask < s.numTasks && s.nextJob > 0 {
      assert Generate(s).queue == [TaskId(s.nextJob - 1, s.nextTask)];
      GenerateKeeps(s, Generate(s), TaskId(s.nextJob - 1, s.nextTask), {});
    }
  }

  lemma RefillKeeps(s: State)
    requires Invariant(s, {})
    ensures Invariant(Refill(s), {})
  {
    if s.queue == [] {
      AdvanceKeeps(s);
      FillKeeps(Advance(s));
    }
  }

  /** A task of a blacklisted job is thrown away. */
  lemma DropKeeps(s: State, s': State)
    requires Invariant(s, {}) && s.queue != [] && s.queue[|s.queue| - 1].job in s.blacklisted
    requires s' == s.(queue := s.queue[..|s.queue| - 1])
    ensures Invariant(s', {})
  {
    JobsKept(s, s', {});
    HeldSame(s, s');
    var t0 := s.queue[|s.queue| - 1];
    assert s.queue == s'.queue + [t0];
    forall t ensures PlaceOk(s', {}, t) && CountOk(s', {}, t) {
      assert PlaceOk(s, {}, t) && CountOk(s, {}, t);
      assert t != t0 ==> (t in s.queue <==> t in s'.queue);
    }
    forall w, w', t ensures HolderOk(s', w, w', t) { assert HolderOk(s, w, w', t); }
  }

  lemma HandHeld(s: State, s': State, w: int, t0: TaskId)
    requires s'.held == s.held[w := HeldOf(s, w) + {t0}]
    ensures forall v, t :: HeldBy(s', v, t) <==> HeldBy(s, v, t) || (v == w && t == t0)
    ensures forall t :: Held(s', t) <==> Held(s, t) || t == t0
  {
    assert HeldBy(s', w, t0);
    forall t ensures Held(s', t) <==> Held(s, t) || t == t0 {
      if v :| HeldBy(s, v, t) { assert HeldBy(s', v, t); }
      if v :| HeldBy(s', v, t) { assert HeldBy(s, v, t) || t == t0; }
    }
  }

  lemma HandPlaces(s: State, s': State, w: int, t0: TaskId)
    requires Invariant(s, {}) && s.queue != [] && t0 == s.queue[|s.queue| - 1] && t0.job !in s.blacklisted
    requires s' == s.(queue := s.queue[..|s.queue| - 1], held := s.held[w := HeldOf(s, w) + {t0}],
                      handouts := Increment(s.handouts, t0))
    ensures forall t :: PlaceOk(s', {}, t)
    ensures forall t :: CountOk(s', {}, t)
  {
    HandHeld(s, s', w, t0);
    assert s.queue == s'.queue + [t0] && t0 in s.queue;
    assert PlaceOk(s, {}, t0) && CountOk(s, {}, t0);
    forall t ensures PlaceOk(s', {}, t) && CountOk(s', {}, t) {
      assert PlaceOk(s, {}, t) && CountOk(s, {}, t);
      assert t != t0 ==> (t in s.queue <==> t in s'.queue);
    }
  }

  lemma HandKeeps(s: State, s': State, w: int, t0: TaskId)
    requires Invariant(s, {}) && s.queue != [] && t0 == s.queue[|s.queue| - 1] && t0.job !in s.blacklisted
    requires w in s.workers && s.workers[w] == RunningJob
    requires s' == s.(queue := s.queue[..|s.queue| - 1], held := s.held[w := HeldOf(s, w) + {t0}],
                      handouts := Increment(s.handouts, t0))
    ensures Invariant(s', {})
  {
    JobsKept(s, s', {});
    HandPlaces(s, s', w, t0);
    HandHeld(s, s', w, t0);
    assert t0 in s.queue && PlaceOk(s, {}, t0);
    forall v, v', t ensures HolderOk(s', v, v', t) {
      assert HolderOk(s, v, v', t);
      assert HeldBy(s, v, t) ==> Held(s, t);
      assert HeldBy(s, v', t) ==> Held(s, t);
    }
  }

  lemma GiveKeeps(s: State, w: int)
    requires Invariant(s, {}) && s.queue != [] && w in s.workers && s.workers[w] == RunningJob
    ensures Invariant(Give(s, w), {})
  {
    var t0 := s.queue[|s.queue| - 1];
    if t0.job in s.blacklisted { DropKeeps(s, Give(s, w)); } else { HandKeeps(s, Give(s, w), w, t0); }
  }

  // ---- Reporting a task --------------------------------------------------------------------

  lemma LetGo(s: State, s': State, w: int, t0: TaskId)
    requires w in s.held && s'.held == s.held[w := s.held[w] - {t0}] && HeldBy(s, w, t0)
    requires forall v, v', t :: HolderOk(s, v, v', t)
    ensures forall v, t :: HeldBy(s', v, t) <==> HeldBy(s, v, t) && t != t0
    ensures forall t :: Held(s', t) <==> Held(s, t) && t != t0
  {
    forall v, t ensures HeldBy(s', v, t) <==> HeldBy(s, v, t) && t != t0 { assert HolderOk(s, w, v, t); }
    forall t ensures Held(s', t) <==> Held(s, t) && t != t0 {
      if v :| HeldBy(s, v, t) { assert HeldBy(s', v, t) <==> t != t0; }
      if v :| HeldBy(s', v, t) { assert HeldBy(s, v, t); }
    }
  }

  /** A report for a blacklisted job only takes the task from the worker. */
  lemma ReportDropped(s: State, s': State, w: int, t0: TaskId)
    requires Invariant(s, {}) && HeldBy(s, w, t0) && t0.job in s.blacklisted
    requires s' == s.(held := s.held[w := s.held[w] - {t0}])
    ensures Invariant(s', {})
  {
    JobsKept(s, s', {});
    LetGo(s, s', w, t0);
    forall t ensures PlaceOk(s', {}, t) && CountOk(s', {}, t) { assert PlaceOk(s, {}, t) && CountOk(s, {}, t); }
    forall v, v', t ensures HolderOk(s', v, v', t) { assert HolderOk(s, v, v', t); }
  }

  /** The state after a first report, before the check for completion. */
  function Reported(s: State, w: int, t: TaskId): State
    requires w in s.held && t.job < |s.usedPerJob| && |s.usedPerJob| == |s.sizes|
  {
    var n := s.usedPerJob[t.job] + 1;
    s.(held := s.held[w := s.held[w] - {t}], active := s.active - {t}, used := s.used + 1,
       usedPerJob := s.usedPerJob[t.job := n], done := s.done + {t},
       committed := if n == s.sizes[t.job] then s.committed + [t.job] else s.committed)
  }

  lemma ReportPlaces(s: State, w: int, t0: TaskId)
    requires Invariant(s, {}) && HeldBy(s, w, t0) && t0.job !in s.blacklisted && t0.job < |s.sizes|
    ensures forall t :: PlaceOk(Reported(s, w, t0), {}, t)
    ensures forall t :: CountOk(Reported(s, w, t0), {}, t)
    ensures forall v, v', t :: HolderOk(Reported(s, w, t0), v, v', t)
  {
    var s' := Reported(s, w, t0);
    LetGo(s, s', w, t0);
    assert Held(s, t0);
    forall t ensures PlaceOk(s', {}, t) && CountOk(s', {}, t) {
      assert PlaceOk(s, {}, t) && CountOk(s, {}, t);
      assert Generated(s', t) == Generated(s, t);
    }
    forall v, v', t ensures HolderOk(s', v, v', t) { assert HolderOk(s, v, v', t); }
  }

  lemma ReportJobs(s: State, w: int, t0: TaskId)
    requires Invariant(s, {}) && HeldBy(s, w, t0) && t0.job !in s.blacklisted && t0.job < |s.sizes|
    ensures forall j | 0 <= j < |s.sizes| :: JobOk(Reported(s, w, t0), j)
    ensures Distinct(Reported(s, w, t0).committed)
    ensures Reported(s, w, t0).used == UsedTo(Reported(s, w, t0), |s.sizes|)
  {
    var s', j0 := Reported(s, w, t0), t0.job;
    assert Held(s, t0) && PlaceOk(s, {}, t0);
    UnfinishedJob(s, {}, t0);
    forall j | 0 <= j < |s.sizes| ensures JobOk(s', j) {
      assert JobOk(s, j);
      assert DoneIn(s'.done, j) == if j == j0 then DoneIn(s.done, j) + {t0} else DoneIn(s.done, j);
    }
    UsedShift(s, s', j0, |s.sizes|);
  }

  /** A job with a task that is not done is not complete. */
  lemma UnfinishedJob(s: State, limbo: set<TaskId>, t: TaskId)
    requires Core(s, limbo) && Generated(s, t) && t !in s.done
    ensures s.usedPerJob[t.job] < s.sizes[t.job] && t.job !in s.committed
  {
    JobComplete(s, limbo, t.job);
    assert t in TasksOf(t.job, s.sizes[t.job]);
    assert JobOk(s, t.job);
  }

  lemma CoreFlag(s: State, s': State, limbo: set<TaskId>)
    requires Core(s, limbo) && s' == s.(finished := s'.finished)
    ensures Core(s', limbo)
  {
    HeldSame(s, s');
    UsedSame(s, s', |s.sizes|);
    forall t
      ensures PlaceOk(s', limbo, t) && CountOk(s', limbo, t)
    {
      assert PlaceOk(s, limbo, t) && CountOk(s, limbo, t);
    }
    forall v, v', t ensures HolderOk(s', v, v', t) { assert HolderOk(s, v, v', t); }
    forall j | 0 <= j < |s'.sizes| ensures JobOk(s', j) { assert JobOk(s, j); }
  }

  /** After more tasks have been used up, the check for completion sets things right. */
  lemma CheckKeeps(s: State, before: State, limbo: set<TaskId>)
    requires Core(s, limbo) && TotalTasks(s) > 0 && s.sizes == before.sizes
    requires before.finished <==> before.used == TotalTasks(before)
    requires s.finished == before.finished && s.used >= before.used
    ensures Invariant(CheckFinished(s), limbo)
  {
    UsedBounded(s, limbo, |s.sizes|);
    CoreFlag(s, CheckFinished(s), limbo);
  }

  lemma HasTasks(s: State, t: TaskId)
    requires Shape(s) && Generated(s, t)
    ensures TotalTasks(s) > 0
  {
    TasksMonotone(s.sizes, t.job + 1, |s.sizes|);
  }

  lemma {:induction false} TasksMonotone(sizes: seq<nat>, j: nat, k: nat)
    requires j <= k <= |sizes|
    ensures TasksTo(sizes, j) <= TasksTo(sizes, k)
    decreases k
  {
    if j < k { TasksMonotone(sizes, j, k - 1); }
  }

  lemma FinishDropped(s: State, w: int, t: TaskId)
    requires Invariant(s, {}) && HeldBy(s, w, t) && t.job in s.blacklisted && t.job < |s.sizes| && TotalTasks(s) > 0
    ensures Invariant(Finish(s, w, t), {})
  {
    var s1 := s.(held := s.held[w := s.held[w] - {t}]);
    ReportDropped(s, s1, w, t);
    CheckKeeps(s1, s, {});
  }

  lemma ReportCore(s: State, w: int, t: TaskId)
    requires Invariant(s, {}) && HeldBy(s, w, t) && t.job !in s.blacklisted && t.job < |s.sizes|
    ensures Core(Reported(s, w, t), {})
  {
    ReportPlaces(s, w, t);
    ReportJobs(s, w, t);
  }

  lemma FinishReported(s: State, w: int, t: TaskId)
    requires Invariant(s, {}) && HeldBy(s, w, t) && t.job !in s.blacklisted && t.job < |s.sizes| && TotalTasks(s) > 0
    requires t in s.active
    ensures Invariant(Finish(s, w, t), {})
  {
    ReportCore(s, w, t);
    assert Finish(s, w, t) == CheckFinished(Reported(s, w, t));
    CheckKeeps(Reported(s, w, t), s, {});
  }

  lemma FinishKeeps(s: State, w: int, t: TaskId)
    requires Invariant(s, {}) && HeldBy(s, w, t)
    ensures t.job < |s.sizes| && Invariant(Finish(s, w, t), {})
  {
    assert Held(s, t) && PlaceOk(s, {}, t);
    HasTasks(s, t);
    if t.job in s.blacklisted { FinishDropped(s, w, t); } else { FinishReported(s, w, t); }
  }

  // ---- Losing a worker ---------------------------------------------------------------------

  lemma ReleaseKeeps(s: State, s': State, w: int)
    requires Invariant(s, {}) && s' == s.(held := s.held - {w})
    ensures Invariant(s', HeldOf(s, w))
  {
    JobsKept(s, s', {});
    var limbo := HeldOf(s, w);
    forall v, t ensures HeldBy(s', v, t) <==> HeldBy(s, v, t) && v != w { }
    forall t ensures Held(s', t) <==> Held(s, t) && t !in limbo {
      if v :| HeldBy(s, v, t) {
        assert HolderOk(s, v, w, t);
        assert v != w ==> HeldBy(s', v, t);
        assert v == w ==> t in limbo;
      }
      if v :| HeldBy(s', v, t) { assert HeldBy(s, v, t) && HolderOk(s, v, w, t); }
    }
    forall t ensures PlaceOk(s', limbo, t) && CountOk(s', limbo, t) {
      assert PlaceOk(s, {}, t) && CountOk(s, {}, t);
      if t in limbo { assert HeldBy(s, w, t); }
      assert Generated(s', t) == Generated(s, t);
    }
    forall v, v', t ensures HolderOk(s', v, v', t) { assert HolderOk(s, v, v', t); }
  }

  /** Task `t` goes back to the queue. Only the number of its failures may now be too large. */
  lemma RequeueKeeps(s: State, s': State, t0: TaskId, limbo: set<TaskId>)
    requires Invariant(s, limbo) && t0 in limbo
    requires s' == s.(queue := s.queue + [t0], failures := Increment(s.failures, t0))
    requires t0.job in s.blacklisted || Count(s'.failures, t0) < TOTAL_FAILURES_BEFORE_REMOVAL
    ensures Invariant(s', limbo - {t0})
  {
    JobsKept(s, s', limbo);
    HeldSame(s, s');
    assert PlaceOk(s, limbo, t0) && CountOk(s, limbo, t0);
    forall t ensures PlaceOk(s', limbo - {t0}, t) && CountOk(s', limbo - {t0}, t) {
      assert PlaceOk(s, limbo, t) && CountOk(s, limbo, t);
      assert Generated(s', t) == Generated(s, t);
    }
    forall w, w', t ensures HolderOk(s', w, w', t) { assert HolderOk(s, w, w', t); }
  }

  /** The state after blacklisting, before the check for completion. */
  function Banned(s: State, j: nat): State
    requires j < |s.usedPerJob| && |s.usedPerJob| == |s.sizes|
  {
    s.(blacklisted := s.blacklisted + {j}, active := s.active - TasksOf(j, s.sizes[j]),
       used := s.used + s.sizes[j] - s.usedPerJob[j])
  }

  lemma BanKeeps(s: State, j0: nat, limbo: set<TaskId>)
    requires Core(s, limbo) && j0 < s.nextJob && j0 !in s.blacklisted && s.usedPerJob[j0] < s.sizes[j0]
    ensures Core(Banned(s, j0), limbo)
  {
    var s' := Banned(s, j0);
    HeldSame(s, s');
    forall t ensures PlaceOk(s', limbo, t) && CountOk(s', limbo, t) {
      assert PlaceOk(s, limbo, t) && CountOk(s, limbo, t);
      assert Generated(s', t) == Generated(s, t);
    }
    forall w, w', t ensures HolderOk(s', w, w', t) { assert HolderOk(s, w, w', t); }
    forall j | 0 <= j < |s'.sizes| ensures JobOk(s', j) { assert JobOk(s, j); }
    UsedShift(s, s', j0, |s.sizes|);
  }

  lemma FailKeeps(s: State, t: TaskId, limbo: set<TaskId>)
    requires Invariant(s, limbo) && t in limbo
    ensures t.job < |s.sizes| && Invariant(Fail(s, t), limbo - {t})
  {
    assert PlaceOk(s, limbo, t);
    var failures := Increment(s.failures, t);
    if t.job !in s.blacklisted && Count(failures, t) >= TOTAL_FAILURES_BEFORE_REMOVAL {
      UnfinishedJob(s, limbo, t);
      HasTasks(s, t);
      BanKeeps(s, t.job, limbo);
      CheckKeeps(Banned(s, t.job), s, limbo);
      RequeueKeeps(CheckFinished(Banned(s, t.job)), Fail(s, t), t, limbo);
    } else {
      RequeueKeeps(s, Fail(s, t), t, limbo);
    }
  }

  ghost function Left(order: seq<TaskId>, k: nat): set<TaskId>
    requires k <= |order|
  {
    set t | t in order[k..]
  }

  lemma {:induction false} FailToKeeps(s: State, order: seq<TaskId>, k: nat)
    requires Invariant(s, Left(order, 0)) && Distinct(order) && JobsExist(s, order) && k <= |order|
    ensures Invariant(FailTo(s, order, k), Left(order, k))
  {
    if k > 0 {
      FailToKeeps(s, order, k - 1);
      var t := order[k - 1];
      assert order[k - 1..] == [t] + order[k..];
      FailKeeps(FailTo(s, order, k - 1), t, Left(order, k - 1));
      assert Left(order, k) == Left(order, k - 1) - {t};
    }
  }

  /** Workers that hold nothing may change their state. */
  lemma WorkerKeeps(s: State, s': State)
    requires Invariant(s, {}) && s' == s.(workers := s'.workers)
    requires forall w | w in s.held :: w in s'.workers && s'.workers[w] == RunningJob
    ensures Invariant(s', {})
  {
    JobsKept(s, s', {});
    HeldSame(s, s');
    forall t ensures PlaceOk(s', {}, t) && CountOk(s', {}, t) { assert PlaceOk(s, {}, t) && CountOk(s, {}, t); }
    forall v, v', t ensures HolderOk(s', v, v', t) { assert HolderOk(s, v, v', t); }
  }

  lemma HeldExist(s: State, w: int, order: seq<TaskId>)
    requires Invariant(s, {}) && Listing(order, HeldOf(s, w))
    ensures JobsExist(s, order)
  {
    forall i | 0 <= i < |order| ensures order[i].job < |s.sizes| {
      assert order[i] in order && HeldBy(s, w, order[i]) && Held(s, order[i]) && PlaceOk(s, {}, order[i]);
    }
  }

  lemma StopKeeps(s: State, w: int, order: seq<TaskId>)
    requires Invariant(s, {}) && Listing(order, HeldOf(s, w))
    ensures JobsExist(s, order) && Invariant(StopJob(s, w, order), {})
  {
    HeldExist(s, w, order);
    var s0 := s.(held := s.held - {w});
    ReleaseKeeps(s, s0, w);
    assert order[0..] == order;
    assert Left(order, 0) == HeldOf(s, w);
    FailToKeeps(s0, order, |order|);
    assert Left(order, |order|) == {};
    WorkerKeeps(FailTo(s0, order, |order|), StopJob(s, w, order));
  }

  // ---- Handing out tasks -------------------------------------------------------------------

  /** Tasks generated so far. */
  function GeneratedCount(s: State): nat
    requires s.nextJob <= |s.sizes|
  {
    if s.nextJob == 0 then 0 else TasksTo(s.sizes, s.nextJob - 1) + s.nextTask
  }

  /** What is left to do for the loop of `NextWork`: tasks not generated yet and the queue. */
  function Pending(s: State): int
    requires s.nextJob <= |s.sizes|
  {
    TotalTasks(s) - GeneratedCount(s) + |s.queue|
  }

  lemma PendingNonNegative(s: State)
    requires Shape(s)
    ensures Pending(s) >= 0
  {
    TasksMonotone(s.sizes, s.nextJob, |s.sizes|);
  }

  lemma AdvanceShape(s: State)
    requires Shape(s)
    ensures Shape(Advance(s)) && Pending(Advance(s)) == Pending(s)
  {
    if s.nextTask == s.numTasks && 0 < s.nextJob < |s.sizes| {
      assert TasksTo(s.sizes, s.nextJob) == TasksTo(s.sizes, s.nextJob - 1) + s.sizes[s.nextJob - 1];
    }
  }

  lemma GenerateShape(s: State)
    requires Shape(s)
    ensures Shape(Generate(s)) && Pending(Generate(s)) == Pending(s)
  {
  }

  lemma RefillShape(s: State)
    requires Shape(s)
    ensures Shape(Refill(s)) && Pending(Refill(s)) == Pending(s)
  {
    AdvanceShape(s);
    GenerateShape(Advance(s));
  }

  lemma GiveShape(s: State, w: int)
    requires Shape(s) && s.queue != []
    ensures Shape(Give(s, w)) && 0 <= Pending(Give(s, w)) == Pending(s) - 1
  {
    PendingNonNegative(Give(s, w));
  }

  /** The loop of `NextWork` for `n` more tasks: the new state and the tasks handed out. */
  function Assign(s: State, w: int, n: nat): (State, seq<TaskId>)
    requires Shape(s)
    decreases Pending(s)
  {
    if n == 0 then (s, [])
    else
      RefillShape(s);
      var s1 := Refill(s);
      if s1.queue == [] then (s1, [])
      else
        GiveShape(s1, w);
        var t := s1.queue[|s1.queue| - 1];
        if t.job in s1.blacklisted then Assign(Give(s1, w), w, n)
        else
          var (s3, ts) := Assign(Give(s1, w), w, n - 1);
          (s3, [t] + ts)
  }

  /** One round of the loop that takes a task from the queue. */
  lemma RoundShape(s: State, w: int)
    requires Shape(s) && Refill(s).queue != []
    ensures Shape(Give(Refill(s), w)) && 0 <= Pending(Give(Refill(s), w)) < Pending(s)
  {
    RefillShape(s);
    GiveShape(Refill(s), w);
  }

  lemma {:induction false} AssignKeeps(s: State, w: int, n: nat)
    requires Invariant(s, {}) && w in s.workers && s.workers[w] == RunningJob
    ensures Invariant(Assign(s, w, n).0, {})
    decreases Pending(s)
  {
    if n > 0 {
      var s1 := Refill(s);
      if s1.queue == [] {
        RefillKeeps(s);
      } else {
        RoundShape(s, w);
        RefillKeeps(s);
        GiveKeeps(s1, w);
        AssignKeeps(Give(s1, w), w, if s1.queue[|s1.queue| - 1].job in s1.blacklisted then n else n - 1);
      }
    }
  }
}
