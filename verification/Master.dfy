/** The master's handlers for one bulk job. Each takes the step that `Step` describes; all run under
one lock, so that each is atomic. */
module Master {
  import opened Scheduler
  import opened BulkJobRuns

  /** The loop of `NextWork` started in `s0` for `count` tasks; it has handed out `packets` and now is
  in state `s` with `left` tasks to go. */
  ghost predicate Underway(s0: State, w: int, count: nat, packets: seq<TaskId>, s: State, left: nat)
    requires Shape(s0) && Shape(s)
  {
    && Assign(s0, w, count).0 == Assign(s, w, left).0
    && Assign(s0, w, count).1 == packets + Assign(s, w, left).1
  }

  lemma UnderwayStart(s0: State, w: int, count: nat)
    requires Shape(s0)
    ensures Underway(s0, w, count, [], s0, count)
  {
  }

  lemma UnderwayRound(s0: State, w: int, count: nat, packets: seq<TaskId>, s: State, left: nat)
    requires Shape(s0) && Shape(s) && Underway(s0, w, count, packets, s, left) && left > 0 && Refill(s).queue != []
    ensures var s1 := Refill(s);
            var t := s1.queue[|s1.queue| - 1];
            Shape(Give(s1, w)) && 0 <= Pending(Give(s1, w)) < Pending(s)
            && if t.job in s1.blacklisted then Underway(s0, w, count, packets, Give(s1, w), left)
               else Underway(s0, w, count, packets + [t], Give(s1, w), left - 1)
  {
    RoundShape(s, w);
    var t := Refill(s).queue[|Refill(s).queue| - 1];
    if t.job !in Refill(s).blacklisted {
      var rest := Assign(Give(Refill(s), w), w, left - 1).1;
      assert packets + ([t] + rest) == (packets + [t]) + rest;
    }
  }

  /** What one round does: the queue stays empty, or its last task is taken. */
  ghost predicate RoundResult(s: State, w: int, empty: bool, t: TaskId, given: bool, s': State) {
    var r := Refill(s);
    && (empty <==> r.queue == [])
    && (empty ==> s' == r)
    && (!empty ==> t == r.queue[|r.queue| - 1] && given == (t.job !in r.blacklisted) && s' == Give(r, w))
  }

  lemma UnderwayNext(s0: State, w: int, count: nat, packets: seq<TaskId>, s: State, left: nat, empty: bool, t: TaskId,
                     given: bool, s': State)
    requires Shape(s0) && Shape(s) && Underway(s0, w, count, packets, s, left) && left > 0 &&
             RoundResult(s, w, empty, t, given, s')
    ensures empty ==> (s', packets) == Assign(s0, w, count)
    ensures !empty ==> Shape(s') && 0 <= Pending(s') < Pending(s)
    ensures !empty && given ==> Underway(s0, w, count, packets + [t], s', left - 1)
    ensures !empty && !given ==> Underway(s0, w, count, packets, s', left)
  {
    if empty { UnderwayEnd(s0, w, count, packets, s, left); } else { UnderwayRound(s0, w, count, packets, s, left); }
  }

  lemma UnderwayEnd(s0: State, w: int, count: nat, packets: seq<TaskId>, s: State, left: nat)
    requires Shape(s0) && Shape(s) && Underway(s0, w, count, packets, s, left) && (left == 0 || Refill(s).queue == [])
    ensures Assign(s0, w, count) == (if left == 0 then s else Refill(s), packets)
  {
    assert packets + [] == packets;
  }

  /** Failing a task does not look at who holds what. */
  lemma CheckHeld(s: State, h: map<int, set<TaskId>>)
    ensures CheckFinished(s.(held := h)) == CheckFinished(s).(held := h)
  {
  }

  lemma BlacklistHeld(s: State, h: map<int, set<TaskId>>, j: nat)
    requires j < |s.usedPerJob| && |s.usedPerJob| == |s.sizes|
    ensures Blacklist(s.(held := h), j) == Blacklist(s, j).(held := h)
  {
    if j !in s.blacklisted {
      CheckHeld(Banned(s, j), h);
      assert Banned(s.(held := h), j) == Banned(s, j).(held := h);
    }
  }

  lemma FailHeld(s: State, h: map<int, set<TaskId>>, t: TaskId)
    requires t.job < |s.usedPerJob| && |s.usedPerJob| == |s.sizes|
    ensures Fail(s.(held := h), t) == Fail(s, t).(held := h)
  {
    BlacklistHeld(s.(queue := s.queue + [t], failures := Increment(s.failures, t)), h, t.job);
  }

  lemma FailNext(s: State, order: seq<TaskId>, h: map<int, set<TaskId>>, k: nat)
    requires JobsExist(s, order) && k < |order|
    ensures Fail(FailTo(s, order, k).(held := h), order[k]) == FailTo(s, order, k + 1).(held := h)
  {
    FailHeld(FailTo(s, order, k), h, order[k]);
  }

  /** Walks a set of tasks in some order. */
  method Walk(ts: set<TaskId>) returns (order: seq<TaskId>)
    ensures Listing(order, ts)
  {
    order := [];
    var rest := ts;
    while rest != {}
      invariant rest <= ts
      invariant forall i, j | 0 <= i < j < |order| :: order[i] != order[j]
      invariant forall t :: t in order <==> t in ts - rest
      decreases rest
    {
      var t :| t in rest;
      assert t !in order;
      order := order + [t];
      rest := rest - {t};
    }
  }

  class BulkJob {
    const sizes: seq<nat>
    const totalTasks: nat
    var nextJob: nat
    var nextTask: nat
    var numTasks: nat
    var active: set<TaskId>
    var queue: seq<TaskId>
    var used: int
    var usedPerJob: seq<nat>
    var held: map<int, set<TaskId>>
    var failures: map<TaskId, nat>
    var blacklisted: set<nat>
    var workers: map<int, WorkerState>
    var finished: bool
    var committed: seq<nat>
    ghost var done: set<TaskId>
    ghost var handouts: map<TaskId, nat>

    ghost function Model(): State
      reads this
    {
      State(sizes, nextJob, nextTask, numTasks, active, queue, used, usedPerJob, held, failures, blacklisted, workers,
            finished, done, handouts, committed)
    }

    ghost predicate Valid()
      reads this
    {
      Invariant(Model(), {}) && totalTasks == TasksTo(sizes, |sizes|)
    }

    constructor (jobSizes: seq<nat>, registered: map<int, WorkerState>)
      ensures Valid() && Model() == NewBulkJob(jobSizes, registered)
    {
      sizes, totalTasks := jobSizes, TasksTo(jobSizes, |jobSizes|);
      nextJob, nextTask, numTasks := 0, 0, 0;
      active, queue, used, usedPerJob := {}, [], 0, seq(|jobSizes|, _ => 0);
      held, failures, blacklisted, workers, finished, committed := map[], map[], {}, registered, false, [];
      done, handouts := {}, map[];
      new;
      NewBulkJobOk(jobSizes, registered);
    }

    // ---- NextWork --------------------------------------------------------------------------

    method AdvanceJob()
      modifies this`nextJob, this`nextTask, this`numTasks
      ensures Model() == Advance(old(Model()))
    {
      if nextTask == numTasks {
        if nextJob < |sizes| {
          nextTask := 0;
          numTasks := sizes[nextJob];
          nextJob := nextJob + 1;
        }
      }
    }

    method GenerateTask()
      requires Shape(Model())
      modifies this`nextTask, this`active, this`queue
      ensures Model() == Generate(old(Model()))
    {
      if nextTask < numTasks {
        var t := TaskId(nextJob - 1, nextTask);
        active := active + {t};
        queue := [t] + queue;
        nextTask := nextTask + 1;
      }
    }

    /** Creates more work if the queue is empty and there is any. */
    method RefillQueue()
      requires Shape(Model())
      modifies this`nextJob, this`nextTask, this`numTasks, this`active, this`queue
      ensures Model() == Refill(old(Model()))
    {
      if queue == [] {
        AdvanceShape(Model());
        AdvanceJob();
        GenerateTask();
      }
    }

    /** Takes the last task of the queue and hands it to `w`, unless its job was blacklisted. */
    method GiveTask(w: int) returns (t: TaskId, given: bool)
      requires queue != []
      modifies this`queue, this`held, this`handouts
      ensures t == old(queue[|queue| - 1]) && given == (t.job !in blacklisted)
      ensures Model() == Give(old(Model()), w)
    {
      t := queue[|queue| - 1];
      queue := queue[..|queue| - 1];
      given := t.job !in blacklisted;
      if given {
        held := held[w := (if w in held then held[w] else {}) + {t}];
        handouts := Increment(handouts, t);
      }
    }

    /** Hands up to `count` tasks to worker `w`. Without any, the worker is told to stop once the bulk
    job is over, and to come back later otherwise. */
    method NextWork(w: int, count: nat) returns (packets: seq<TaskId>, noMoreWork: bool, waitForWork: bool)
      requires Valid()
      modifies this
      ensures Valid() && Model() == Step(old(Model()), Event.NextWork(w, count))
      ensures BulkJobRuns.Runs(old(Model()), w) ==> packets == Assign(old(Model()), w, count).1
      ensures !BulkJobRuns.Runs(old(Model()), w) ==> packets == []
      ensures packets == [] && BulkJobRuns.Runs(old(Model()), w) && count > 0 ==>
              noMoreWork == finished && waitForWork == !finished
      ensures packets != [] ==> !noMoreWork && !waitForWork
    {
      packets, noMoreWork, waitForWork := [], false, false;
      StepKeeps(Model(), Event.NextWork(w, count));
      if w !in workers || workers[w] != RunningJob {
        noMoreWork := true;
        return;
      }
      var done;
      packets, done := AssignTasks(w, count);
      if packets == [] && done {
        noMoreWork, waitForWork := finished, !finished;
      }
    }

    /** One round of the loop of `NextWork`. */
    method AssignRound(w: int) returns (empty: bool, t: TaskId, given: bool)
      requires Shape(Model())
      modifies this`nextJob, this`nextTask, this`numTasks, this`active, this`queue, this`held, this`handouts
      ensures RoundResult(old(Model()), w, empty, t, given, Model())
    {
      given, t := false, TaskId(0, 0);
      RefillQueue();
      empty := queue == [];
      if !empty {
        t, given := GiveTask(w);
      }
    }

    /** One round, as part of a loop that was started in `s0` for `count` tasks. */
    method ContinueAssigning(w: int, packets: seq<TaskId>, left: nat, ghost s0: State, ghost count: nat)
      returns (packets': seq<TaskId>, left': nat, out: bool)
      requires Shape(s0) && Shape(Model()) && Underway(s0, w, count, packets, Model(), left) && left > 0
      modifies this`nextJob, this`nextTask, this`numTasks, this`active, this`queue, this`held, this`handouts
      ensures |packets'| + left' == |packets| + left
      ensures out ==> (Model(), packets') == Assign(s0, w, count)
      ensures !out ==> Shape(Model()) && Underway(s0, w, count, packets', Model(), left')
      ensures !out ==> 0 <= Pending(Model()) < Pending(old(Model()))
    {
      ghost var s := Model();
      packets', left' := packets, left;
      var t, given;
      out, t, given := AssignRound(w);
      UnderwayNext(s0, w, count, packets, s, left, out, t, given, Model());
      if !out && given {
        packets', left' := packets + [t], left - 1;
      }
    }

    /** The loop of `NextWork`. `out` tells that it ran out of work. */
    method AssignTasks(w: int, count: nat) returns (packets: seq<TaskId>, out: bool)
      requires Shape(Model())
      modifies this`nextJob, this`nextTask, this`numTasks, this`active, this`queue, this`held, this`handouts
      ensures (Model(), packets) == Assign(old(Model()), w, count)
      ensures count > 0 && packets == [] ==> out
    {
      packets, out := [], false;
      var left := count;
      ghost var s0 := Model();
      UnderwayStart(s0, w, count);
      while left > 0 && !out
        invariant |packets| + left == count
        invariant !out ==> Shape(Model()) && Underway(s0, w, count, packets, Model(), left)
        invariant out ==> (Model(), packets) == Assign(s0, w, count)
        decreases !out, if out then 0 else Pending(Model())
      {
        packets, left, out := ContinueAssigning(w, packets, left, s0, count);
      }
      if !out { UnderwayEnd(s0, w, count, packets, Model(), 0); }
    }

    // ---- FinishedWork ----------------------------------------------------------------------

    /** Raises the flag once all tasks are used up. */
    method NoteFinished()
      requires totalTasks == TasksTo(sizes, |sizes|)
      modifies this`finished
      ensures Model() == CheckFinished(old(Model()))
    {
      if used == totalTasks {
        finished := true;
      }
    }

    /** Counts task `t` as finished, and commits the table of its job with the last one. */
    method CountFinished(t: TaskId)
      requires t.job < |usedPerJob| == |sizes|
      modifies this`active, this`used, this`usedPerJob, this`committed, this`done
      ensures Model() == old(Model()).(active := old(active) - {t}, used := old(used) + 1,
                                       usedPerJob := old(usedPerJob)[t.job := old(usedPerJob)[t.job] + 1],
                                         done := old(done) + {t},
                                       committed := if old(usedPerJob)[t.job] + 1 ==
                                         sizes[t.job] then old(committed) + [t.job] else old(committed))
    {
      active := active - {t};
      used := used + 1;
      usedPerJob := usedPerJob[t.job := usedPerJob[t.job] + 1];
      done := done + {t};
      if usedPerJob[t.job] == sizes[t.job] {
        committed := committed + [t.job];
      }
    }

    /** Takes task `t` from worker `w` and counts it, unless its job was blacklisted. */
    method TakeReport(w: int, t: TaskId)
      requires w in held && t.job < |usedPerJob| == |sizes| && totalTasks == TasksTo(sizes, |sizes|)
      modifies this`held, this`active, this`used, this`usedPerJob, this`committed, this`done, this`finished
      ensures Model() == Finish(old(Model()), w, t)
    {
      held := held[w := held[w] - {t}];
      if t.job !in blacklisted && t in active {
        CountFinished(t);
      }
      NoteFinished();
    }

    /** Worker `w` reports that it has finished task `t`. A report from an unknown worker, or for a task
    that the worker does not hold, changes nothing. */
    method FinishedWork(w: int, t: TaskId)
      requires Valid()
      modifies this
      ensures Valid() && Model() == Step(old(Model()), Event.FinishedWork(w, t))
    {
      StepKeeps(Model(), Event.FinishedWork(w, t));
      if w in workers && w in held && t in held[w] {
        FinishKeeps(Model(), w, t);
        TakeReport(w, t);
      }
    }

    // ---- Losing workers --------------------------------------------------------------------

    method Deactivate(j: nat)
      requires j < |sizes|
      modifies this`active
      ensures active == old(active) - TasksOf(j, sizes[j])
    {
      for i := 0 to sizes[j]
        invariant active == old(active) - TasksOf(j, i)
      {
        active := active - {TaskId(j, i)};
        assert TasksOf(j, i + 1) == TasksOf(j, i) + {TaskId(j, i)};
      }
    }

    /** Removes a job from the bulk job: its remaining tasks count as used. */
    method BlacklistJob(j: nat)
      requires j < |usedPerJob| == |sizes| && totalTasks == TasksTo(sizes, |sizes|)
      modifies this`blacklisted, this`active, this`used, this`finished
      ensures Model() == Blacklist(old(Model()), j)
    {
      if j in blacklisted {
        return;
      }
      blacklisted := blacklisted + {j};
      Deactivate(j);
      used := used + sizes[j] - usedPerJob[j];
      NoteFinished();
    }

    /** Puts task `t` back and counts the failure; the third one removes the whole job. */
    method FailTask(t: TaskId)
      requires t.job < |usedPerJob| == |sizes| && totalTasks == TasksTo(sizes, |sizes|)
      modifies this`queue, this`failures, this`blacklisted, this`active, this`used, this`finished
      ensures Model() == Fail(old(Model()), t)
    {
      queue := queue + [t];
      failures := Increment(failures, t);
      if failures[t] >= TOTAL_FAILURES_BEFORE_REMOVAL {
        BlacklistJob(t.job);
      }
    }

    /** Returns all tasks that worker `w` holds, in some order, and makes it idle. */
    method StopJobOnWorker(w: int) returns (ghost order: seq<TaskId>)
      requires Valid()
      modifies this
      ensures Listing(order, HeldOf(old(Model()), w)) && JobsExist(old(Model()), order)
      ensures Model() == StopJob(old(Model()), w, order)
    {
      var tasks := Walk(if w in held then held[w] else {});
      order := tasks;
      HeldExist(Model(), w, tasks);
      FailTasks(w, tasks);
      held := held - {w};
      workers := workers[w := Idle];
    }

    method FailTasks(w: int, tasks: seq<TaskId>)
      requires JobsExist(Model(), tasks) && totalTasks == TasksTo(sizes, |sizes|)
      modifies this`queue, this`failures, this`blacklisted, this`active, this`used, this`finished
      ensures JobsExist(old(Model()).(held := held - {w}), tasks)
      ensures Model() == FailTo(old(Model()).(held := held - {w}), tasks, |tasks|).(held := held)
    {
      ghost var released := Model().(held := held - {w});
      assert Model() == FailTo(released, tasks, 0).(held := held);
      for k := 0 to |tasks|
        invariant Model() == FailTo(released, tasks, k).(held := held)
      {
        FailNext(released, tasks, held, k);
        FailTask(tasks[k]);
      }
    }

    /** Worker `w` leaves the job; what it still holds counts as failed. */
    method FinishedJob(w: int) returns (ghost order: seq<TaskId>)
      requires Valid()
      modifies this
      ensures Listing(order, HeldOf(old(Model()), w))
      ensures Valid() && Model() == Step(old(Model()), Event.FinishedJob(w, order))
    {
      ghost var s := Model();
      if w in workers && workers[w] != Unregistered {
        order := StopJobOnWorker(w);
      } else {
        order := [];
      }
      StepKeeps(s, Event.FinishedJob(w, order));
    }

    /** Gives up on worker `w`. */
    method RemoveWorker(w: int) returns (ghost order: seq<TaskId>)
      requires Valid() && w in workers
      modifies this
      ensures Listing(order, HeldOf(old(Model()), w))
      ensures Valid() && Model() == Step(old(Model()), Event.RemoveWorker(w, order))
    {
      ghost var s := Model();
      order := StopJobOnWorker(w);
      workers := workers[w := Unregistered];
      StepKeeps(s, Event.RemoveWorker(w, order));
    }

    method RegisterWorker(w: int)
      requires Valid() && w !in workers
      modifies this`workers
      ensures Valid() && Model() == Step(old(Model()), Event.RegisterWorker(w))
    {
      StepKeeps(Model(), Event.RegisterWorker(w));
      workers := workers[w := Idle];
    }

    method StartJob(w: int)
      requires Valid()
      modifies this`workers
      ensures Valid() && Model() == Step(old(Model()), Event.StartJob(w))
    {
      StepKeeps(Model(), Event.StartJob(w));
      if w in workers && workers[w] == Idle {
        workers := workers[w := RunningJob];
      }
    }
  }
}
