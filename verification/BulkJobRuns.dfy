/** Runs of a bulk job: any number of workers that come, fail, ask for work and report tasks in any
order. */
module BulkJobRuns {
  import opened Scheduler
  import Rows

  /** A request to the master, or a decision of its own to give up on a worker. Requests that the
  master rejects leave its state alone. `order` is the order in which the tasks of a lost worker are
  put back. */
  datatype Event =
    | RegisterWorker(worker: int)
    | StartJob(worker: int)
    | NextWork(worker: int, count: nat)
    | FinishedWork(worker: int, task: TaskId)
    | FinishedJob(worker: int, order: seq<TaskId>)
    | RemoveWorker(worker: int, order: seq<TaskId>)

  predicate Runs(s: State, w: int) {
    w in s.workers && s.workers[w] == RunningJob
  }

  /** Worker ids are never reused, and the tasks of a lost worker are walked once each. */
  ghost predicate Possible(s: State, e: Event) {
    match e
    case RegisterWorker(w) => w !in s.workers && w !in s.held
    case FinishedJob(w, order) => Listing(order, HeldOf(s, w))
    case RemoveWorker(w, order) => Listing(order, HeldOf(s, w))
    case _ => true
  }

  ghost function Step(s: State, e: Event): State
    requires Invariant(s, {}) && Possible(s, e)
  {
    match e
    case RegisterWorker(w) => s.(workers := s.workers[w := Idle])
    case StartJob(w) => if w in s.workers && s.workers[w] == Idle then s.(workers := s.workers[w := RunningJob]) else s
    case NextWork(w, n) => if Runs(s, w) then Assign(s, w, n).0 else s
    case FinishedWork(w, t) =>
      if w in s.workers && HeldBy(s, w, t) then (FinishKeeps(s, w, t); Finish(s, w, t)) else s
    case FinishedJob(w, order) =>
      if w in s.workers && s.workers[w] != Unregistered then (HeldExist(s, w, order); StopJob(s, w, order)) else s
    case RemoveWorker(w, order) =>
      if w in s.workers then
        HeldExist(s, w, order);
        var s1 := StopJob(s, w, order);
        s1.(workers := s1.workers[w := Unregistered])
      else s
  }

  /** Every step keeps the invariant. */
  lemma StepKeeps(s: State, e: Event)
    requires Invariant(s, {}) && Possible(s, e)
    ensures Invariant(Step(s, e), {})
  {
    match e
    case RegisterWorker(w) => WorkerKeeps(s, Step(s, e));
    case StartJob(w) => if w in s.workers && s.workers[w] == Idle { WorkerKeeps(s, Step(s, e)); }
    case NextWork(w, n) => if Runs(s, w) { AssignKeeps(s, w, n); }
    case FinishedWork(w, t) => if w in s.workers && HeldBy(s, w, t) { FinishKeeps(s, w, t); }
    case FinishedJob(w, order) =>
      if w in s.workers && s.workers[w] != Unregistered { StopKeeps(s, w, order); }
    case RemoveWorker(w, order) =>
      if w in s.workers {
        StopKeeps(s, w, order);
        StoppedHolds(s, w, order);
        WorkerKeeps(StopJob(s, w, order), Step(s, e));
      }
  }

  lemma StoppedHolds(s: State, w: int, order: seq<TaskId>)
    requires JobsExist(s, order)
    ensures StopJob(s, w, order).held == s.held - {w}
  {
  }

  lemma NewBulkJobOk(sizes: seq<nat>, workers: map<int, WorkerState>)
    ensures Invariant(NewBulkJob(sizes, workers), {})
  {
    var s := NewBulkJob(sizes, workers);
    forall t ensures PlaceOk(s, {}, t) && CountOk(s, {}, t) { assert !Held(s, t); }
    forall j | 0 <= j < |s.sizes| ensures JobOk(s, j) { assert DoneIn({}, j) == {}; }
    NothingUsed(s, |s.sizes|);
  }

  lemma {:induction false} NothingUsed(s: State, k: nat)
    requires s == NewBulkJob(s.sizes, s.workers) && k <= |s.sizes|
    ensures UsedTo(s, k) == 0
  {
    if k > 0 { NothingUsed(s, k - 1); }
  }

  /** `s'` can be reached from `s` by `events`. */
  ghost predicate Run(s: State, events: seq<Event>, s': State)
    decreases |events|
  {
    if events == [] then s' == s
    else
      && Invariant(s, {}) && Possible(s, events[0])
      && Run(Step(s, events[0]), events[1..], s')
  }

  /** A state that a bulk job of jobs of the given sizes can get into. */
  ghost predicate Reachable(sizes: seq<nat>, workers: map<int, WorkerState>, s: State) {
    exists events :: Run(NewBulkJob(sizes, workers), events, s)
  }

  lemma {:induction false} RunKeeps(s: State, events: seq<Event>, s': State)
    requires Invariant(s, {}) && Run(s, events, s')
    ensures Invariant(s', {})
    decreases |events|
  {
    if events != [] {
      StepKeeps(s, events[0]);
      RunKeeps(Step(s, events[0]), events[1..], s');
    }
  }

  lemma {:induction false} RunConcat(s: State, e1: seq<Event>, s1: State, e2: seq<Event>, s2: State)
    requires Run(s, e1, s1) && Run(s1, e2, s2)
    ensures Run(s, e1 + e2, s2)
    decreases |e1|
  {
    if e1 == [] {
      assert e1 + e2 == e2;
    } else {
      RunConcat(Step(s, e1[0]), e1[1..], s1, e2, s2);
      assert (e1 + e2)[1..] == e1[1..] + e2;
    }
  }

  lemma RunOne(s: State, e: Event)
    requires Invariant(s, {}) && Possible(s, e)
    ensures Run(s, [e], Step(s, e))
  {
    assert [e][1..] == [];
  }

  /** The invariant holds in every reachable state. */
  lemma ReachableOk(sizes: seq<nat>, workers: map<int, WorkerState>, s: State)
    requires Reachable(sizes, workers, s)
    ensures Invariant(s, {})
  {
    var events :| Run(NewBulkJob(sizes, workers), events, s);
    NewBulkJobOk(sizes, workers);
    RunKeeps(NewBulkJob(sizes, workers), events, s);
  }

  // ---- Where tasks are ---------------------------------------------------------------------

  lemma DistinctOnce<T>(q: seq<T>, i: nat)
    requires Rows.Distinct(q) && i < |q|
    ensures multiset(q)[q[i]] == 1
  {
    assert q == q[..i] + [q[i]] + q[i + 1..];
    assert q[i] !in q[..i] && q[i] !in q[i + 1..];
  }

  /** In every reachable state, each generated task of a job that is not blacklisted is in exactly one
  place: once in the queue, with exactly one worker, or finished. A task that is held is still active,
  so the master never ignores the report for it. */
  lemma OnePlace(sizes: seq<nat>, workers: map<int, WorkerState>, s: State, t: TaskId)
    requires Reachable(sizes, workers, s) && Generated(s, t) && t.job !in s.blacklisted
    ensures Indicator(t in s.queue) + Indicator(Held(s, t)) + Indicator(t in s.done) == 1
    ensures multiset(s.queue)[t] <= 1
    ensures forall w, w' :: HeldBy(s, w, t) && HeldBy(s, w', t) ==> w == w'
    ensures Held(s, t) ==> t in s.active
  {
    ReachableOk(sizes, workers, s);
    assert PlaceOk(s, {}, t);
    if t in s.queue {
      var i :| 0 <= i < |s.queue| && s.queue[i] == t;
      DistinctOnce(s.queue, i);
    }
    forall w, w' ensures HeldBy(s, w, t) && HeldBy(s, w', t) ==> w == w' { assert HolderOk(s, w, w', t); }
  }

  // ---- Counting used tasks -----------------------------------------------------------------

  ghost predicate Over(s: State, j: nat)
    requires j < |s.usedPerJob| == |s.sizes|
  {
    j in s.blacklisted || TasksOf(j, s.sizes[j]) <= s.done
  }

  lemma {:induction false} AllUsed(s: State, k: nat)
    requires Core(s, {}) && k <= |s.sizes|
    ensures UsedTo(s, k) == TasksTo(s.sizes, k) <==> forall j | 0 <= j < k :: Over(s, j)
  {
    if k > 0 {
      AllUsed(s, k - 1);
      UsedBounded(s, {}, k - 1);
      JobComplete(s, {}, k - 1);
      assert Over(s, k - 1) <==> Share(s, k - 1) == s.sizes[k - 1];
      assert (forall j | 0 <= j < k :: Over(s, j)) <==> (forall j | 0 <= j < k - 1 :: Over(s, j)) && Over(s, k - 1);
    }
  }

  /** In every reachable state the counter of used tasks is the number of finished tasks of jobs that
  are not blacklisted plus the full sizes of those that are. It never exceeds the total, and reaches it
  exactly when every job is complete or blacklisted; the bulk job is then, and only then, over. */
  lemma UsedTasks(sizes: seq<nat>, workers: map<int, WorkerState>, s: State)
    requires Reachable(sizes, workers, s)
    ensures |s.usedPerJob| == |s.sizes|
    ensures s.used == UsedTo(s, |s.sizes|) <= TotalTasks(s)
    ensures forall j | 0 <= j < |s.sizes| ::
              Share(s, j) == if j in s.blacklisted then s.sizes[j] else |DoneIn(s.done, j)|
    ensures s.used == TotalTasks(s) <==> forall j | 0 <= j < |s.sizes| :: Over(s, j)
    ensures TotalTasks(s) > 0 ==> (s.finished <==> forall j | 0 <= j < |s.sizes| :: Over(s, j))
  {
    ReachableOk(sizes, workers, s);
    UsedBounded(s, {}, |s.sizes|);
    AllUsed(s, |s.sizes|);
    forall j | 0 <= j < |s.sizes|
      ensures Share(s, j) == if j in s.blacklisted then s.sizes[j] else |DoneIn(s.done, j)|
    {
      assert JobOk(s, j);
    }
  }

  /** Jobs that tasks have not been generated from are untouched. */
  lemma LaterJobsUnused(s: State, j: nat)
    requires Invariant(s, {}) && s.nextJob <= j < |s.sizes| && j !in s.blacklisted
    ensures s.usedPerJob[j] == 0
  {
    assert JobOk(s, j);
    forall t | t in DoneIn(s.done, j) ensures Generated(s, t) { assert PlaceOk(s, {}, t); }
    assert DoneIn(s.done, j) == {};
  }

  // ---- Committing --------------------------------------------------------------------------

  /** In every reachable state, the tables committed are exactly those of the jobs with tasks whose
  tasks have all been reported finished, each once; a blacklisted job is not among them. */
  lemma CommittedJobs(sizes: seq<nat>, workers: map<int, WorkerState>, s: State, j: nat)
    requires Reachable(sizes, workers, s) && j < |s.sizes|
    ensures j in s.committed <==> s.sizes[j] > 0 && TasksOf(j, s.sizes[j]) <= s.done
    ensures multiset(s.committed)[j] <= 1
    ensures j in s.committed ==> j !in s.blacklisted
  {
    ReachableOk(sizes, workers, s);
    assert JobOk(s, j);
    JobComplete(s, {}, j);
    if j in s.committed {
      var i :| 0 <= i < |s.committed| && s.committed[i] == j;
      DistinctOnce(s.committed, i);
    }
  }

  // ---- Progress ----------------------------------------------------------------------------

  /** While the bulk job is not over, some task that is neither finished nor blacklisted is not
  generated yet, waits in the queue, or is held by a worker that runs the job. */
  lemma Progress(sizes: seq<nat>, workers: map<int, WorkerState>, s: State) returns (t: TaskId)
    requires Reachable(sizes, workers, s) && !s.finished && TotalTasks(s) > 0
    ensures t.job < |s.sizes| && t.task < s.sizes[t.job] && t !in s.done && t.job !in s.blacklisted
    ensures !Generated(s, t) || t in s.queue || exists w :: HeldBy(s, w, t) && Runs(s, w)
  {
    ReachableOk(sizes, workers, s);
    AllUsed(s, |s.sizes|);
    var j :| 0 <= j < |s.sizes| && !Over(s, j);
    t :| t in TasksOf(j, s.sizes[j]) && t !in s.done;
    assert PlaceOk(s, {}, t);
    if Generated(s, t) && t !in s.queue {
      var w :| HeldBy(s, w, t);
      assert Runs(s, w);
    }
  }

  /** Only workers that run the job hold tasks. */
  lemma OnlyRunningHold(sizes: seq<nat>, workers: map<int, WorkerState>, s: State, w: int)
    requires Reachable(sizes, workers, s) && HeldOf(s, w) != {}
    ensures Runs(s, w)
  {
    ReachableOk(sizes, workers, s);
  }
}
