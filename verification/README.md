# Scanner, verified

A Dafny model of the parts of Scanner that decide what a bulk job computes: how its output rows are cut
into tasks, which rows every op of the graph has to compute for a task, how the evaluator runs those ops
packet by packet, how the master hands tasks to workers that may fail, and how columns are stored and
read back. `dafny verify dfyconfig.toml` checks the whole project.

| module | what it models |
|---|---|
| `Rows` | ascending lists of row ids (`std::set<i64>` and sorted vectors), prefix sums, concatenation |
| `Samplers`, `Partitions` | row maps of Sample, Space, Slice and Unslice; partitioners |
| `Streams`, `Evaluator` | what one op computes; the streaming evaluation of one op (`EvaluateWorker::feed`) |
| `Dag`, `JobGraphs`, `Demand`, `SparseDense` | the meaning of a graph of ops; a job and its graph in one slice group; demand analysis; sparse evaluation equals full evaluation |
| `Liveness` | liveness analysis: columns by name become positions in a list |
| `Worker` | a whole task on the evaluate worker, from source packets to the columns of the sink |
| `Scheduler`, `BulkJobRuns`, `SchedulerBounds`, `Completion`, `Master` | the scheduler as a state machine, its runs, and the master's handlers |
| `Tasks`, `Propagation`, `GroupGraphs`, `SliceGroups` | validation, row counts per op and slice group, task boundaries; the loop that finds the counts; the graph of a slice group with its counts; the slice group that a task is derived for and the one it is evaluated in |
| `Influence`, `Cuts` | which rows an output row makes every op read, told from the graph alone; what a job stores under any cut into tasks |
| `Jobs`, `JobTables`, `WholeJobs`, `BlurJob`, `SliceJob`, `SideJob` | running all tasks of a job, its table and reading it back; a job from its ops to its columns; a job whose output depends on the cut; a job with a slice; a job that is evaluated in the wrong slice group |
| `Storage`, `TableReads`, `Video` | item files, reading rows of a column, keyframe intervals |
| `Packets` | sorting interleaved packets into tasks, and tasks onto save workers |
| `Toposort` | the client's topological sort |

## Main results

* **Packets and batches do not matter** (`Worker.RunTask`). For every graph, every cut of the source
  columns into packets and all batch sizes, every column that reaches the sink is the fully evaluated
  stream, restricted to the rows that reach it. It rests on `Evaluator.FeedOp` (one op), `Demand.Derive`
  (the rows each op gets), `SparseDense.SparseMatchesDense` (warmup, unbounded state, stencils and several
  consumers) and `Liveness.Analyze` (the positions of columns).
* **The scheduler loses and repeats nothing** (`BulkJobRuns`, `Completion`, `SchedulerBounds`). In every
  run, with any failures of workers, a task of a job that is not blacklisted is in exactly one place; the
  counter of used tasks is exact; tables are committed exactly when all tasks of the job are finished, and
  never for a blacklisted job; each task is handed out at most three times. From every reachable state of a
  bulk job with tasks there is a continuation that finishes it and commits every job with tasks that is not
  blacklisted (`Completion.CanFinish`): no state is a dead end. `Master.BulkJob` has the handlers, each proved
  to take the step of the state machine.
* **What a whole job stores** (`Jobs.RunJob`, `Jobs.StoredExact`, `Cuts.JobExact`). For every cut into tasks, every
  packet plan of every task and all batch sizes, a task stores the rows that the graph says its output
  rows bring to the sink, with the elements of the full streams. The stored elements are the full stream
  under every cut if and only if every other reader of the column reads, for an output row, that row only;
  this is a property of the graph alone (`Cuts.ColumnAlone`), and for a given cut `Cuts.CutExact` has the
  condition.
* **Reading a stored table back** (`Jobs.RunAndRead`, `Cuts.JobReads`). Every row stands where the table looks for it,
  under every cut, if and only if no other reader of the column reads an earlier row for an output row
  (`Cuts.NeverBack`, again a property of the graph). Then running a job, writing a column in any batches and
  reading any rows of it in any order gives the elements of the full stream. It rests on
  `TableReads.ReadColumn`, which covers both read paths.
* **Row counts** (`Propagation.Propagate`). The loop over ready ops finds the row counts of all ops, or reports an
  error exactly if there are none that match. The counts it finds are those that evaluation relies on
  (`GroupGraphs.RatesFit`), so `WholeJobs.RunPlainJob` and `WholeJobs.RunSlicedJob` go from the ops of a job to its
  stored columns.
* **Tasks of sliced jobs** (`Tasks.SliceTasks`). For a validated job with any number of slices, the walk from a slice
  op finds, per group, the rows that forward propagation sends into the unslice op it leaves through. The
  tasks are the output rows if and only if the groups have no negative counts, or no positive ones.
* **The slice group of a task** (`Demand.Derive`, `Worker.EvaluateWorker.NewTask`, `SliceGroups.JobEvaluated`). Demand
  analysis looks for the group at every unslice op; the evaluator takes samplers, slices, offsets and kernel
  arguments from the group of the op before the sink. Every op of every task is evaluated in the group that
  it was derived for if and only if all unslice ops have the same groups, and the op before the sink is an
  unslice op or only the first group has rows. Then the job stores, group after group, the whole of every
  column that comes out of an unslice op (`WholeJobs.RunSlicedJob`); for a source, a slice, an unslice op and a
  sink this holds for all numbers of rows and all sizes of groups (`SliceJob.RunSliceJob`).

## Where the code differs from what it promises

Each of these is proved, with the exact condition under which the code does what it should.

* Demand analysis drops stencil rows outside the domain (scanner/engine/dag_analysis.cpp:1328-1336) while the
  evaluator clamps them to it (scanner/engine/evaluate_worker.cpp:898-904). Every row that is read has been
  requested, for all rows of all domains, if and only if the stencil has no gaps and contains 0
  (`SparseDense.StencilCoverage`); with stencil 0, 2 and two rows it has not (`SparseDense.GapNotCovered`). The
  results about tasks hold for every stencil on the tasks where the rows have been requested
  (`SparseDense.Served`).
* The sink gets all rows that its parent passes on, not only the rows of the task. The two are equal if and
  only if every other op that shares the column reads rows of the task only (`SparseDense.SinkRowsExact` on the
  result of the analysis, `Cuts.PartExact` on the graph). So the documented promise that packet sizes do not
  affect the output (python/scannerpy/database.py:1314-1323) fails for `io_packet_size`, which decides the tasks,
  exactly for the columns that are not alone (`Cuts.JobExact`). A sink that stores a source column of three
  rows next to a kernel with stencil -1, 0, 1 over it stores source rows 0, 1, 2 as one task
  (`BlurJob.BlurOneTask`), and 0, 1, 0, 1, 2, 1, 2 as three tasks (`BlurJob.BlurThreeTasks`).
* The table takes the rows of an item from the size of the task (scanner/engine/master.cpp:1629-1637). The items
  have as many elements as that if and only if no task shares the column with a reader that goes beyond
  it (`JobTables.FilesFit`). In the example above, row 1 of the table with three items reads as source row 0
  (`BlurJob.BlurReadBack`).
* The row count of a StridedRanges sampler is right if and only if the first range that the upstream sequence
  does not cover starts less than a stride past its end (`Samplers.CountExact`); otherwise it is too small
  (`Samplers.CountTooSmall`), and can be negative (`Samplers.CountBelowZero`).
* `get_downstream_rows` of StridedRanges stops at the first row outside all ranges and drops what follows
  (`Samplers.GetDownstreamRows`, with the input of `Samplers.RowDropped`). It loses nothing if and only if no row
  behind one that is outside all ranges has a downstream row (`Samplers.NothingDropped`). Rows that come from
  `get_upstream_rows` meet this (`Evaluator.AllDownstreamRows`).
* The check that all slices of a job have the same number of groups compares where it should assign
  (scanner/engine/dag_analysis.cpp:654-655) and never takes effect. A source of `n` rows that is sliced into groups
  of `a` rows and once more into groups of `b` rows is accepted for all `n`, `a` and `b`
  (`Propagation.TwoSlicesAccepted`), and has as many groups in both slices if and only if `n / a` and `n / b`,
  rounded up, are equal (`Propagation.TwoSlicesAgree`; `Propagation.TwoSlicesDiffer` has two groups and one). The
  tasks follow one slice, and demand analysis asserts that it finds the rows of each task in one group of
  the other (scanner/engine/dag_analysis.cpp:1447-1459). It finds all of them if and only if `n <= b` or `a`
  divides `b` (`Propagation.TwoSlicesFound`); with four rows, `a = 4` and `b = 2` it does not
  (`Propagation.TwoSlicesLost`). So the equal numbers of groups that the check is after are not what the search
  needs.
* The evaluator has one slice group per task, that of the last TaskStream it gets
  (scanner/engine/evaluate_worker.cpp:435-440), while demand analysis sets it anew at every unslice op and has 0 before
  the first (scanner/engine/dag_analysis.cpp:1343, :1454-1464, :1581). A task is evaluated in the group that it was
  derived for if and only if all unslice ops find it in groups of the same number, and the op before the sink
  is an unslice op or that number is 0 (`SliceGroups.TaskEvaluated`; for all tasks of a job
  `SliceGroups.JobEvaluated`, with one unslice op `SliceGroups.OneUnslice`). A source that is sliced, unsliced and
  stored next to a kernel over it is accepted for all numbers of rows and all sizes of groups
  (`SideJob.SideAccepted`), and evaluated right if and only if there is one group (`SideJob.SideEvaluated`). In
  every other task the slice op looks its rows up in group 0, where none of them is (`SideJob.SideLost`). Two
  slices of one source are evaluated right if and only if their groups have the same size or there is one
  group (`SliceGroups.TwoSlicesEvaluated`): with four rows, `a = 2` and `b = 4`, all tasks are found, but the second
  one in groups 1 and 0 (`SliceGroups.TwoSlicesMixed`).
* A kernel with one stream argument is meant to get it in every slice group; the code works out which argument to
  take and then asks for that of the group (scanner/engine/evaluate_worker.cpp:511-518). All tasks find their
  arguments if and only if every kernel that has any has one for each group with rows
  (`SliceGroups.ArgumentsFit`), so a single one will do for the first group only.
* A count of a StridedRanges sampler inside a slice can be negative. The tasks of the job are its output rows if
  and only if no group has a negative count, or none a positive one (`Tasks.GroupTasks`, `Tasks.SliceTasks`).
* A range partitioner accepts ranges that start before row 0. The rows of a group are rows of the sequence if
  and only if its range is empty or does not (`Partitions.GroupRows`, `Partitions.NegativeStart`).
* The master asserts that it has generated tasks from all jobs when the last task is used up
  (scanner/engine/master.cpp:1110, :2166). For a bulk job with tasks this holds in every run if and only if
  the last job has a task (`Completion.EndAssertionHolds`, with the run of `Completion.EarlyEnd`).
* A job without tasks is never committed (`BulkJobRuns.CommittedJobs`).

## Model

| member | source | states |
|---|---|---|
| `Rows.SupersetPointwise` | scanner/engine/evaluate_worker.cpp:1011-1017 | a sorted superset is pointwise no greater than its subset; eviction relies on it |
| `Rows.ReceiveOne` | scanner/engine/evaluate_worker.cpp:600-618 | the next row that arrives is the next row needed or none that is needed; no needed row is skipped |
| `Samplers.DownOfExact` | scanner/engine/sampler.cpp:120-133 | for every row map, the downstream rows of an upstream row are exactly those whose upstream row it is |
| `Samplers.UpMonotone` | scanner/engine/sampler.cpp:102-110 | later downstream rows come from later or equal upstream rows |
| `Samplers.GetUpstreamRows` | scanner/engine/sampler.cpp:179-205 | for ascending rows: succeeds exactly when all are in range, and then returns the ascending set of upstream rows needed |
| `Samplers.UpRowsExact` | scanner/engine/sampler.cpp:353-366 | a row is requested upstream exactly if some requested downstream row comes from it |
| `Samplers.ScanRow` | scanner/engine/sampler.cpp:237-252 | the range cursor of StridedRanges finds the range of a row, or the end, and its offset |
| `Samplers.GetDownstreamRows` | scanner/engine/sampler.cpp:230-257 | the downstream rows with their upstream positions, up to the first row outside all ranges; nothing is lost by that if and only if no later row has a downstream row |
| `Samplers.NothingDropped` | scanner/engine/sampler.cpp:237-252 | stopping at the first row outside all ranges loses nothing, if and only if no row behind such a row has a downstream row |
| `Samplers.RowDropped` | scanner/engine/sampler.cpp:243-246 | ranges 0-2 and 10-12 and rows 0, 5, 10: row 10 is dropped |
| `Samplers.DownRowsProduce` | scanner/engine/sampler.cpp:376-392 | every downstream row listed points at the upstream row it comes from, or at none if it is a null row |
| `Samplers.DownRowsComplete` | scanner/engine/sampler.cpp:435-449 | every downstream row of every upstream row is listed |
| `Samplers.DownRowsInOrder` | scanner/engine/sampler.cpp:435-449 | downstream rows are listed in ascending order |
| `Samplers.UpDownRoundTrip` | scanner/engine/sampler.cpp:102-133 | mapping ascending in-range rows up and down again and keeping the requested ones gives the requested rows back |
| `Samplers.CountExact` | scanner/engine/sampler.cpp:207-228 | the row count is the number of in-range downstream rows, if and only if the first range that is not covered starts less than a stride past the end |
| `Samplers.CountTooSmall` | scanner/engine/sampler.cpp:221-224 | otherwise it is below that number, which exists |
| `Samplers.NumDownstreamRows` | scanner/engine/sampler.cpp:112-118 | computes that count for every sampler; it is right or too small |
| `Samplers.CountBelowZero` | scanner/engine/sampler.cpp:222-225 | a concrete StridedRanges sampler whose count is -5 |
| `Partitions.Offsets` | scanner/engine/sampler.cpp:507-534 | fails exactly on invalid arguments; otherwise the start of every group, and the total |
| `Partitions.GroupAt` | scanner/engine/sampler.cpp:559-570 | the rows of a group |
| `Partitions.GroupSizes` | scanner/engine/sampler.cpp:544-550 | the rows of a group are as many as the offsets say; groups of a strided partitioner are full except the last, which is not empty |
| `Partitions.SpacedPartition` | scanner/engine/sampler.cpp:559-570 | the groups of a strided partitioner, put together, are every stride-th row of the sequence |
| `Partitions.GroupRows` | scanner/engine/sampler.cpp:646-655 | groups ascend and end within the sequence; they start within it if and only if the range is empty or does not start before row 0 |
| `Partitions.NegativeStart` | scanner/engine/sampler.cpp:585-625 | a partitioner that is accepted and has a group with row -1 only |
| `Streams.MachineLawful` | scanner/engine/evaluate_worker.cpp:770-856 | every kernel and every remapping gives each compute row an ascending block of output rows, in order and without overlap |
| `Streams.KeptRows` | scanner/engine/evaluate_worker.cpp:960-1000 | over all compute rows, exactly the rows asked for are kept, in order |
| `Evaluator.FillColumn` | scanner/engine/evaluate_worker.cpp:593-619 | exactly the next needed rows enter the cache, and the check for skipped rows never fails |
| `Evaluator.AdvanceCompute` | scanner/engine/evaluate_worker.cpp:648-657 | counts the compute rows among the rows received; rows seen again change nothing |
| `Evaluator.MaxRowSeen` | scanner/engine/evaluate_worker.cpp:629-645 | the highest row that every column has reached |
| `Evaluator.Producible` | scanner/engine/evaluate_worker.cpp:674-700 | consecutive rows whose furthest window row was seen everywhere, rounded down to whole batches |
| `Evaluator.CountReady` | scanner/engine/evaluate_worker.cpp:702-730 | the windows of the rows counted are all in the cache; when all input has arrived, all remaining rows are counted |
| `Evaluator.StageWindow` | scanner/engine/evaluate_worker.cpp:892-907 | the window staged is the clamped stencil window of the full input stream |
| `Evaluator.ExecuteKernel` | scanner/engine/evaluate_worker.cpp:877-920 | batches of any size give the state and outputs of executing row after row |
| `Evaluator.AllDownstreamRows` | scanner/engine/evaluate_worker.cpp:785-818 | for rows of a TaskStream no downstream row is dropped |
| `Evaluator.ExecuteRemap` | scanner/engine/evaluate_worker.cpp:785-856 | Sample, Space, Slice and Unslice emit every downstream row of every row, with its element or null |
| `Evaluator.FilterOutputs` | scanner/engine/evaluate_worker.cpp:973-1001 | walking the wanted rows with a cursor keeps exactly the wanted outputs |
| `Evaluator.EvictBelow` | scanner/engine/evaluate_worker.cpp:1018-1035 | popping all columns together keeps them aligned and never pops an empty deque |
| `Evaluator.EvictedEnough` | scanner/engine/evaluate_worker.cpp:1011-1017 | no row is evicted that an unproduced compute row still needs |
| `Evaluator.NewTaskConsistent` | scanner/engine/evaluate_worker.cpp:436-460 | a new task starts in a consistent state with nothing emitted |
| `Evaluator.FeedOp` | scanner/engine/evaluate_worker.cpp:593-1039 | for every packet the op stays consistent with the full input stream, and what it hands on continues what it has handed on |
| `Evaluator.EmittedRows` | scanner/engine/evaluate_worker.cpp:960-1000 | the rows handed on are the leading rows asked for, and all of them once all input has arrived |
| `Demand.ComputeRows` | scanner/engine/dag_analysis.cpp:1480-1504 | the rows to compute: the rows asked for and what the state of the kernel remembers |
| `Demand.HandleBoundary` | scanner/engine/dag_analysis.cpp:1322-1341 | keeps exactly the rows inside the domain; under ERROR it fails exactly if there are others, with the rows before the first of them kept |
| `Demand.InputRows` | scanner/engine/dag_analysis.cpp:1507-1529 | the rows of all stencil windows that lie in the domain |
| `Demand.DeriveOp` | scanner/engine/dag_analysis.cpp:1358-1530 | the TaskStream of one op, with the sampler, slice or offset of the slice group that the walk has settled on; fails exactly if there is none, or a sampler refuses a row |
| `Demand.SettleGroup` | scanner/engine/dag_analysis.cpp:1447-1464 | an unslice op settles on the first group that the rows lie in, and fails exactly if there is none; other ops keep the group |
| `Demand.PassUp` | scanner/engine/dag_analysis.cpp:1538-1556 | the rows read are added to what the parent, and the source column, has to provide |
| `Demand.Derive` | scanner/engine/dag_analysis.cpp:1343-1586 | for a task in one slice group: succeeds, and every op gets exactly the rows that its consumers read in that group's graph, every source column exactly the rows read of it; for any task the analysis does not fail on, each stream has the group that the walk had settled on |
| `Demand.SettledGroup` | scanner/engine/dag_analysis.cpp:1454-1464 | for such a task the walk has the group of the task at every op from which an unslice op is still reached |
| `Demand.UnsliceReader` | scanner/engine/dag_analysis.cpp:149-161 | the sink reads every unslice op and nothing else does, so each of them looks for the rows of the task |
| `SparseDense.StencilCoverage` | scanner/engine/evaluate_worker.cpp:897-905 | every clamped window row has been requested, for all domains, if and only if the stencil has no gaps and contains 0 |
| `SparseDense.GapNotCovered` | scanner/engine/evaluate_worker.cpp:897-905 | stencil 0, 2 with two rows reads a row that was not requested |
| `SparseDense.GapFreeServed` | scanner/engine/dag_analysis.cpp:1507-1529 | a stencil without gaps around 0 gets every row it reads, in every task |
| `SparseDense.StreamTaskOk` | scanner/engine/dag_analysis.cpp:1580-1585 | every TaskStream derived is one that the evaluator can run, if a kernel gets the rows it reads |
| `SparseDense.KernelExact` | scanner/engine/dag_analysis.cpp:1480-1501 | with warmup or unbounded state, a kernel that ran over its compute rows only gives, at rows asked for, the output of having run over all rows |
| `SparseDense.OpExact` | scanner/engine/dag_analysis.cpp:1474-1530 | over its TaskStream an op hands on exactly the rows asked for, with the elements of the full stream |
| `SparseDense.SparseMatchesDense` | scanner/engine/dag_analysis.cpp:1346-1586 | for every graph, evaluating each op over its TaskStream only gives the fully evaluated elements at every row passed on |
| `SparseDense.RequestedRowsExact` | scanner/engine/dag_analysis.cpp:1346-1586 | every row of the task has its fully evaluated element in every column of the sink |
| `SparseDense.SinkRowsAre` | scanner/engine/evaluate_worker.cpp:1230-1243 | the rows that reach the sink are those of the task and those that other ops read of the same column |
| `SparseDense.SinkRowsExact` | scanner/engine/evaluate_worker.cpp:1230-1243 | they are the rows of the task if and only if all other readers of the column read only those |
| `SparseDense.BlurOk` | scanner/engine/dag_analysis.cpp:103-111 | the graph of the next row is a valid one |
| `SparseDense.SinkReceivesMore` | scanner/engine/evaluate_worker.cpp:1230-1243 | a concrete graph where one column of the sink gets one row and another three |
| `Liveness.FindUses` | scanner/engine/dag_analysis.cpp:1035-1092 | the last op to use every column |
| `Liveness.LiveColumns` | scanner/engine/dag_analysis.cpp:1096-1109 | the list of columns that live on after an op |
| `Liveness.LiveIsReadLater` | scanner/engine/dag_analysis.cpp:1096-1109 | a column is in that list exactly if a later op reads it; before the first op, all source columns are |
| `Liveness.DeadColumns` | scanner/engine/dag_analysis.cpp:1124-1175 | the positions of columns used for the last time, and the outputs that nobody uses |
| `Liveness.LiveStep` | scanner/engine/evaluate_worker.cpp:1042-1057 | dropping the dead columns and adding the used outputs leads from one live list to the next |
| `Liveness.MapInputs` | scanner/engine/dag_analysis.cpp:1179-1195 | every input is found at its position in the live list |
| `Liveness.EraseAll` | scanner/engine/evaluate_worker.cpp:1047-1056 | erasing ascending positions from the back removes exactly those positions |
| `Liveness.Analyze` | scanner/engine/dag_analysis.cpp:1016-1197 | all of this for every op of every graph with unique column names per op |
| `Liveness.CorrectSame` | scanner/engine/dag_analysis.cpp:1016-1197 | the analysis depends on names only: one serves all slice groups |
| `Worker.RunOp` | scanner/engine/evaluate_worker.cpp:593-1039 | the columns an op adds carry the next rows asked for, with the elements of the full stream |
| `Worker.SelectColumns` | scanner/engine/evaluate_worker.cpp:593-600 | the inputs of an op are the columns at its mapped positions |
| `Worker.UpdateColumns` | scanner/engine/evaluate_worker.cpp:745-766 | after every op the run-time list of columns is the live list |
| `Worker.FeedPacket` | scanner/engine/evaluate_worker.cpp:544-1066 | one packet through all ops: every op has consumed what its parents sent, and the sink gets the next rows of its columns |
| `Worker.EverythingSent` | scanner/engine/evaluate_worker.cpp:720-728 | once all source rows are in, nothing is left behind in any op |
| `Worker.EvaluateWorker.NewTask` | scanner/engine/evaluate_worker.cpp:403-530 | takes the group of the last of its streams that has one, and samplers, slices, offsets and kernel arguments of that group; fails exactly if one is missing; otherwise starts the task with empty caches and nothing sent |
| `Worker.EvaluateWorker.Feed` | scanner/engine/evaluate_worker.cpp:533-1066 | keeps the worker's invariant and emits the next rows of every column of the sink |
| `Worker.RunTask` | python/scannerpy/database.py:1314-1323 | for every cut into packets and all batch sizes, the sink's columns are the fully evaluated streams of the chosen slice group at the rows that reach it |
| `Jobs.ChosenGroup` | scanner/engine/evaluate_worker.cpp:435-440 | the group chosen is the one that demand analysis had settled on at the op before the sink |
| `Scheduler.RefillKeeps` | scanner/engine/master.cpp:937-962 | generating a task keeps the invariant |
| `Scheduler.GiveKeeps` | scanner/engine/master.cpp:975-1009 | handing out a task, or throwing one of a blacklisted job away, keeps the invariant |
| `Scheduler.AssignKeeps` | scanner/engine/master.cpp:934-1012 | so does the whole loop of NextWork |
| `Scheduler.RoundShape` | scanner/engine/master.cpp:934-1012 | every round of that loop reduces the ungenerated tasks plus the length of the queue |
| `Scheduler.FinishKeeps` | scanner/engine/master.cpp:1064-1116 | a report of a held task keeps the invariant |
| `Scheduler.FailKeeps` | scanner/engine/master.cpp:2100-2118 | returning a task keeps the invariant, also when the third failure blacklists its job |
| `Scheduler.BanKeeps` | scanner/engine/master.cpp:2146-2160 | blacklisting an unfinished job keeps it |
| `Scheduler.StopKeeps` | scanner/engine/master.cpp:2093-2125 | losing a worker keeps it, for every order of its tasks |
| `BulkJobRuns.StepKeeps` | scanner/engine/master.cpp:899-1171 | every request and every loss of a worker keeps the invariant |
| `BulkJobRuns.ReachableOk` | scanner/engine/master.cpp:1647-1652 | the invariant holds in every reachable state |
| `BulkJobRuns.OnePlace` | scanner/engine/master.cpp:1084-1086 | a generated task of a job that is not blacklisted is once in the queue, with exactly one worker, or finished; if held it is still active |
| `BulkJobRuns.UsedTasks` | scanner/engine/master.cpp:1090-1116 | the counter is the finished tasks plus the sizes of blacklisted jobs, at most the total, and equal to it exactly when all jobs are complete or blacklisted |
| `BulkJobRuns.CommittedJobs` | scanner/engine/master.cpp:1093-1098 | a table is committed once, exactly if its job has tasks and all are finished; never for a blacklisted job |
| `BulkJobRuns.Progress` | scanner/engine/master.cpp:965-972 | while unfinished, some unfinished task is ungenerated, queued, or held by a running worker |
| `BulkJobRuns.OnlyRunningHold` | scanner/engine/master.cpp:908-914 | only workers that run the job hold tasks |
| `SchedulerBounds.HandoutBound` | scanner/engine/master.cpp:2112-2117 | no task is handed out more than three times |
| `SchedulerBounds.PacketsBounded` | scanner/engine/master.cpp:986-1009 | over any run at most three times as many tasks are sent out as there are |
| `SchedulerBounds.StepEffort` | scanner/engine/master.cpp:2100-2119 | a measure that no step raises and that every step handing out, finishing or returning tasks lowers |
| `SchedulerBounds.EffectiveStepsBounded` | scanner/engine/master.cpp:2100-2119 | at most six such steps per task in any run |
| `Completion.CommittedForGood` | scanner/engine/master.cpp:2146-2159 | committed jobs stay committed and are never blacklisted; blacklisted jobs stay so and are never committed |
| `Completion.EndOfJobs` | scanner/engine/master.cpp:1108-1110 | when all tasks are used, jobs not yet reached have no tasks |
| `Completion.SoloRun` | scanner/engine/master.cpp:934-1116 | from every state of the invariant in which no task is held, one worker that does not fail uses up all tasks and blacklists nothing |
| `Completion.CanFinish` | scanner/engine/master.cpp:899-1122 | from every reachable state of a bulk job with tasks some continuation finishes it, blacklists nothing more, and has every other job with tasks committed |
| `Completion.EndAssertionHolds` | scanner/engine/master.cpp:1110-1110 | the assertion at the end holds in every run if and only if the last job has a task |
| `Completion.EarlyEnd` | scanner/engine/master.cpp:2166-2166 | a run that ends before the master reaches an empty last job |
| `Master.BulkJob.constructor` | scanner/engine/master.cpp:1647-1652 | a new bulk job is in the initial state |
| `Master.BulkJob.NextWork` | scanner/engine/master.cpp:899-1021 | takes the step of the state machine; an empty reply says stop exactly if the bulk job is over |
| `Master.BulkJob.FinishedWork` | scanner/engine/master.cpp:1022-1122 | takes the step; reports from unknown workers or for tasks not held change nothing |
| `Master.BulkJob.FinishedJob` | scanner/engine/master.cpp:1124-1171 | takes the step |
| `Master.BulkJob.StopJobOnWorker` | scanner/engine/master.cpp:2093-2125 | returns all tasks of a worker, each once |
| `Master.BulkJob.BlacklistJob` | scanner/engine/master.cpp:2143-2173 | removes the tasks of the job and counts them as used |
| `Master.BulkJob.RemoveWorker` | scanner/engine/master.cpp:2127-2141 | takes the step |
| `Master.BulkJob.RegisterWorker` | scanner/engine/master.cpp:506-551 | takes the step |
| `Master.BulkJob.StartJob` | scanner/engine/master.cpp:1956-1963 | only idle workers start the job |
| `Tasks.WalkGroup` | scanner/engine/dag_analysis.cpp:780-829 | with any number of slices, the walk down from a slice op ends, and brings to the sink the rows of the group that forward propagation sends into the unslice op on its way |
| `Tasks.ExitGroups` | scanner/engine/dag_analysis.cpp:671-682 | that unslice op gets as many groups as leave the slice op |
| `Tasks.ReaderOfUnslice` | scanner/engine/dag_analysis.cpp:149-161 | in a validated job only the sink reads from an unslice op |
| `Tasks.UnsliceTotal` | scanner/engine/dag_analysis.cpp:671-682 | the groups of every unslice op add up to the output rows of the job |
| `Tasks.SliceBoundaries` | scanner/engine/dag_analysis.cpp:747-834 | for every slice op, the boundaries are the running sums of what enters the unslice op behind it, the last one the number of output rows of forward propagation |
| `Tasks.PacketBoundaries` | scanner/engine/master.cpp:1558-1564 | without slices, tasks of `io_packet_size` rows from row 0 to the end, the last one shorter but not empty |
| `Tasks.BuildTasks` | scanner/engine/master.cpp:1582-1595 | one task per pair of boundaries |
| `Tasks.TasksPartition` | scanner/engine/master.cpp:1580-1595 | the tasks, one after the other, are the output rows |
| `Tasks.FindGroup` | scanner/engine/dag_analysis.cpp:1447-1464 | finds the first slice group that holds all rows of a task and the rows before it; fails exactly if there is none |
| `Tasks.TaskGroup` | scanner/engine/dag_analysis.cpp:1447-1464 | rows of task i lie in slice group i of the counts that the tasks follow, and in no other |
| `Tasks.CountsNonNegative` | scanner/engine/dag_analysis.cpp:602-629 | no count is negative if all ranges of all samplers are reached |
| `Tasks.SliceTasks` | scanner/engine/master.cpp:1566-1596 | one task per slice group, between the running sums of the group counts; together they are the output rows of the job if and only if no count is negative, or none is positive |
| `Tasks.GroupTasks` | scanner/engine/master.cpp:1580-1595 | rows between running sums of any counts are the rows up to the total, if and only if no count is negative or none is positive |
| `Propagation.Outgoing` | scanner/engine/dag_analysis.cpp:598-682 | the counts that leave an op, or an error exactly if there are none |
| `Propagation.HandOut` | scanner/engine/dag_analysis.cpp:686-694 | counts go to the readers once per edge, and a reader is stacked when its last edge is served |
| `Propagation.SomethingReady` | scanner/engine/dag_analysis.cpp:696-699 | the stack does not run empty before the sink is reached |
| `Propagation.EverythingDone` | scanner/engine/dag_analysis.cpp:590-597 | when the sink is on top of the stack, every op has its counts |
| `Propagation.Propagate` | scanner/engine/dag_analysis.cpp:546-701 | returns the counts of all ops, or an error exactly if no counts match |
| `Propagation.RatesUnique` | scanner/engine/dag_analysis.cpp:546-701 | there is at most one assignment of counts |
| `Propagation.TwoSlicesAccepted` | scanner/engine/dag_analysis.cpp:653-667 | two slices of one source are accepted, for all numbers of rows and all sizes of groups |
| `Propagation.TwoSlicesAgree` | scanner/engine/dag_analysis.cpp:654-663 | they have the same number of groups if and only if the two sizes divide the rows into equally many groups |
| `Propagation.TwoSlicesDiffer` | scanner/engine/dag_analysis.cpp:653-667 | a valid job with a slice of two groups and one of one group is accepted |
| `Propagation.TwoSlicesFound` | scanner/engine/dag_analysis.cpp:1447-1459 | the assertion that the rows of a task are found in the second slice holds for all tasks, if and only if that slice has at most one group or its groups consist of whole groups of the first |
| `Propagation.TwoSlicesLost` | scanner/engine/dag_analysis.cpp:1447-1459 | four rows in groups of four and of two: the assertion fails |
| `SliceGroups.TaskEvaluated` | scanner/engine/evaluate_worker.cpp:435-440 | a task with rows is analysed without failure and evaluated in the group that every op was derived for, if and only if all unslice ops find it in groups of the same number, and the op before the sink is an unslice op or that number is 0 |
| `SliceGroups.WithinSame` | scanner/engine/dag_analysis.cpp:653-667 | all tasks lie in the groups of their number of another unslice op, if and only if both have the same counts, apart from empty groups at the end |
| `SliceGroups.JobEvaluated` | scanner/engine/evaluate_worker.cpp:435-440 | all tasks with rows of a job are evaluated right, if and only if all unslice ops have the groups that the tasks follow, and the op before the sink is an unslice op or only the first group has rows |
| `SliceGroups.OneUnslice` | scanner/engine/evaluate_worker.cpp:435-440 | with one unslice op: if and only if it stands before the sink or only the first group has rows |
| `SliceGroups.ArgumentsFit` | scanner/engine/evaluate_worker.cpp:511-518 | all tasks with rows find their kernel arguments, if and only if every kernel that has any has one for each group with rows |
| `SliceGroups.TwoSlicesEvaluated` | scanner/engine/evaluate_worker.cpp:435-440 | two slices of one source: all tasks are evaluated right if and only if their groups have the same size or there is one group |
| `SliceGroups.TwoSlicesMixed` | scanner/engine/dag_analysis.cpp:1454-1464 | groups against a single group: from the second task on, the first slice is derived for its group and evaluated in group 0 |
| `SideJob.SideAccepted` | scanner/engine/dag_analysis.cpp:546-701 | a slice, an unslice op and a kernel beside them are accepted for all numbers of rows and sizes of groups |
| `SideJob.SideEvaluated` | scanner/engine/evaluate_worker.cpp:435-440 | all its tasks are evaluated right if and only if there is one group |
| `SideJob.SideLost` | scanner/engine/evaluate_worker.cpp:820-838 | from its second task on, no row that the slice op was derived for is in the group that it is evaluated in |
| `GroupGraphs.SampleRows` | scanner/engine/dag_analysis.cpp:612-629 | every row that a sampler's count promises comes from a row of its input, also where the count is too small |
| `GroupGraphs.GraphRealizes` | scanner/engine/dag_analysis.cpp:546-701 | the graph that a job forms in a slice group has the samplers, slices, offsets and counts of that group |
| `GroupGraphs.ReachedCounts` | scanner/engine/dag_analysis.cpp:602-629 | no op has a negative count if all ranges of all samplers are reached |
| `GroupGraphs.RatesFit` | scanner/engine/dag_analysis.cpp:546-701 | with matching counts, the graph of every slice group has the row counts that evaluation relies on |
| `GroupGraphs.PlainOutput` | scanner/engine/master.cpp:1558-1564 | without slices, every task is made of output rows of the graph |
| `GroupGraphs.SliceOutput` | scanner/engine/master.cpp:1566-1596 | with any number of slices, the task of a slice group is made of output rows of the group's graph, if and only if it is empty or lies in that group of every unslice op |
| `GroupGraphs.SameGroups` | scanner/engine/dag_analysis.cpp:653-667 | it does lie there if all unslice ops have the same groups, as in a job with one of them |
| `Influence.KeepUnion` | scanner/engine/dag_analysis.cpp:1346-1586 | an op passes on exactly the rows that some output row of the task needs, by a relation on the graph alone |
| `Influence.ValidUnion` | scanner/engine/dag_analysis.cpp:1346-1586 | and reads exactly the rows that some output row makes it read |
| `Influence.ReadInStream` | scanner/engine/dag_analysis.cpp:1514-1529 | rows read for the sake of an output row exist |
| `Influence.SinkPartIs` | scanner/engine/evaluate_worker.cpp:1230-1243 | the rows that reach the sink follow from the graph and the task's rows |
| `Cuts.PartExact` | scanner/engine/evaluate_worker.cpp:1230-1243 | a task brings at least its own rows, and just these if and only if no other reader of the column goes beyond them |
| `Cuts.CutExact` | python/scannerpy/database.py:1314-1323 | under a given cut a job stores at least its rows, and just these if and only if no task shares the column with a reader that goes beyond it |
| `Cuts.JobExact` | python/scannerpy/database.py:1314-1323 | the stored elements are the full stream under every cut, if and only if every other reader of the column reads for an output row that row only |
| `Cuts.JobReads` | scanner/engine/master.cpp:1629-1637 | every row is found where the table looks for it under every cut, if and only if no other reader of the column reads an earlier row |
| `Jobs.Load` | scanner/engine/load_worker.cpp:80-126 | any plan of packet sizes cuts the source columns of a task completely |
| `Jobs.WorkPackets` | scanner/engine/evaluate_worker.cpp:201-286 | work packets of `work_packet_size` rows cut the source columns of a task completely, also if they differ in length |
| `Jobs.GapFreeJob` | scanner/engine/dag_analysis.cpp:1507-1529 | with stencils without gaps, every kernel gets the rows it reads in every task of every cut |
| `Jobs.RunOneTask` | scanner/engine/worker.cpp:1808-1834 | demand analysis, load and evaluation of a task that is evaluated in its slice group give the columns that the group's graph says it brings to the sink |
| `Jobs.RunJob` | python/scannerpy/database.py:1314-1323 | for a job without slices, every cut, all packet plans and batch sizes: every task stores the rows that the graph says, with the elements of the full streams |
| `Jobs.StoredExact` | python/scannerpy/database.py:1314-1323 | the job stores the full stream of a column under its cut, if and only if no task shares it with a reader that goes beyond the task |
| `Jobs.RunAndRead` | scanner/engine/column_source.cpp:527-541 | running a job, writing a column and reading rows of it gives the elements of the full stream, if no other reader of the column looks back |
| `JobTables.EndRowsOf` | scanner/engine/master.cpp:1629-1637 | the end rows of the items are the boundaries of the tasks |
| `JobTables.WriteItem` | scanner/engine/column_sink.cpp:181-195 | an item written in any batches holds the elements in order |
| `JobTables.FilesFit` | scanner/engine/master.cpp:1629-1637 | the items have at least as many elements as the table counts, and as many if and only if no task shares the column with a reader that goes beyond it |
| `JobTables.RowReads` | scanner/engine/column_source.cpp:43-117 | a row of the table reads as the row that stands in its place |
| `JobTables.ReadJob` | scanner/engine/column_source.cpp:527-541 | reading any rows of a job's table gives the elements of the full stream, if no other reader of the column looks back |
| `BlurJob.BlurOneTask` | python/scannerpy/database.py:1314-1323 | as one task, three source rows are stored |
| `BlurJob.BlurThreeTasks` | python/scannerpy/database.py:1314-1323 | as three tasks, the same job stores rows 0, 1, 0, 1, 2, 1, 2 |
| `BlurJob.BlurReadBack` | scanner/engine/master.cpp:1629-1637 | row 1 of that table reads as source row 0, and the items do not fit the table |
| `BlurJob.BlurNotAlone` | python/scannerpy/database.py:1314-1323 | its column is shared with a reader that goes beyond an output row, and that looks back |
| `BlurJob.BlurRealized` | scanner/engine/dag_analysis.cpp:546-701 | it is the graph of an accepted job of three ops with matching counts, that can be run |
| `WholeJobs.RunPlainJob` | scanner/engine/master.cpp:1535-1596 | a job without slices, from its ops and `io_packet_size` to the stored columns, on the cut into tasks of that size; fails exactly if the counts do not match |
| `WholeJobs.UnslicedColumn` | scanner/engine/dag_analysis.cpp:149-161 | of a column that comes out of an unslice op, a task brings just its own rows |
| `WholeJobs.GroupsJoined` | scanner/engine/master.cpp:1580-1596 | tasks that each store their own rows store, one after the other, the column whose rows come from the graphs of their groups |
| `WholeJobs.RunSlicedJob` | scanner/engine/master.cpp:1566-1596 | a job with slices all of whose tasks are evaluated in their groups: every task stores what its group's graph says; the tasks together store the whole of every column that comes out of an unslice op; fails exactly if the counts do not match |
| `SliceJob.SliceJobReady` | scanner/engine/dag_analysis.cpp:546-701 | a source, a slice, an unslice op and a sink meet all that running a sliced job asks for, for all numbers of rows and sizes of groups |
| `SliceJob.SliceContent` | scanner/engine/dag_analysis.cpp:1410-1469 | in the graph of a group, each of the group's rows reaches the sink with the element of the source at that row |
| `SliceJob.RunSliceJob` | scanner/engine/master.cpp:1566-1596 | such a job always runs and stores the source column, in as many items as there are groups |
| `Storage.ElementAt` | scanner/engine/column_source.cpp:355-369 | prefix sums of the sizes locate every element in the data file |
| `Storage.ItemWriter.Write` | scanner/engine/column_sink.cpp:181-195 | a batch adds its count and sizes to the metadata and its bytes to the data |
| `Storage.ReadSizes` | scanner/engine/column_source.cpp:328-346 | for any batches, parsing the metadata gives the sizes of all elements and ends exactly at the end of the file |
| `Storage.ReadSparse` | scanner/engine/column_source.cpp:380-392 | element-wise reading gives the elements asked for |
| `Storage.ReadDense` | scanner/engine/column_source.cpp:393-416 | block-wise reading gives the elements asked for and never looks past the list of offsets |
| `Storage.ReadItem` | scanner/engine/column_source.cpp:303-417 | so the two ways agree, whatever the threshold |
| `TableReads.SliceRows` | scanner/engine/column_source.cpp:43-117 | for any rows, unsorted or repeated, the runs are ascending within one item and together the rows asked for |
| `TableReads.ReadColumn` | scanner/engine/column_source.cpp:527-541 | what the table has for the rows, in the order asked for; the stored elements by number, if every item has as many as the table counts |
| `Video.NextInterval` | scanner/engine/column_source.cpp:142-175 | closes or extends an interval so that it holds the row |
| `Video.SliceVideo` | scanner/engine/column_source.cpp:124-184 | the frames of the intervals are the rows asked for, lie between the interval's keyframes, and keyframes inside an interval are byte-adjacent |
| `Packets.Drive` | scanner/engine/worker.cpp:131-247 | for any interleaving, the packets of each task come out together, in order and complete |
| `Packets.Distribute` | scanner/engine/worker.cpp:360-402 | all packets of a task go to one save worker, in order |
| `Toposort.Explore` | python/scannerpy/database.py:443-466 | finds exactly the ops the sink depends on, with all edges counted |
| `Toposort.Sort` | python/scannerpy/database.py:443-500 | every op the sink depends on once, after all its inputs, a source first and the sink last |

## Left out

- gRPC, threads, timers, pings and timeouts: they appear only as requests in any order and as loss of workers at any time.
- Worker histories, start times and `unfinished_workers`: bookkeeping that no decision about tasks reads.
- `BulkJobRuns.Step`: a request whose handler throws or fails an assertion (unknown worker id in NextWork, a report for a task not held) is modelled as changing nothing.
- Failures per job and task are one map, and iteration over `std::set` and `std::map` is in any order.
- Storage backends, protobuf encoding, paths and retries; files are sequences of bytes or of 64-bit words.
- Video encoding and decoding, devices and reference counts; elements are byte sequences or null.
- `Demand.Derive`: boundary condition REPEAT_EDGE only, the one that the evaluator asserts; under ERROR the analysis ignores the failure that `Demand.HandleBoundary` reports.
- `Dag.GraphOk`: stencils are listed from their lowest to their highest offset and reach around 0, kernels with a warmup forget older rows, sampler ranges are sorted and disjoint and Gather rows ascend.
- `GroupGraphs.Realizes`: no count of the job is negative (with negative counts the tasks are not its output rows, see `Tasks.SliceTasks`), and all its sources have the same number of rows; after the merge of sources the code uses the row count of op 0 for all of them.
- Empty row sets: an unbounded-state kernel without requested rows, and a task without rows below an unslice op, read past the end of a list in the code; `Demand.ComputeRows` gives no rows, and a task without rows keeps slice group 0 in `Demand.Derive`.
- Remapping of input edges to op 0, and the registries of ops, kernels, sources and sinks.
- `Worker.EvaluateWorker.NewTask`: one evaluate worker has all ops; if kernels run on several kinds of devices the code gives each worker a part of them (scanner/engine/worker.cpp:1173-1188), and each takes the slice group of the last op of its part.
- Creation of samplers and enumerators in forward propagation: `Propagation.Propagate` starts from samplers that were created and from the row counts of sources.
- `WholeJobs.RunPlainJob`: the sources of the job have the same number of rows and no count is negative, as in `GroupGraphs.Realizes`, and the kernels get the rows they read (`Jobs.JobServed`), which stencils without gaps always do (`Jobs.GapFreeJob`).
- `WholeJobs.RunSlicedJob`: the same, and the job meets the exact conditions for its tasks to be evaluated in their groups and to find their arguments (`SliceGroups.JobEvaluated`, `SliceGroups.ArgumentsFit`); what else a task evaluated in another group stores, if it gets that far, is not part of this model.
- `Samplers.WellFormed`: strides are positive; `validate` of the Strided sampler succeeds also when its constructor has found a stride of zero or less (scanner/engine/sampler.cpp:88-100), and what the engine then computes is not part of this model.
- GatherPartitioner: its `group_at` ignores its argument.
- Float rounding: `ceil` of a float quotient is exact ceiling division here, which agrees below 2^24.
- `Packets.Drive`: packets are sorted whole; their split into work packets is `Jobs.WorkPackets`.
- `Jobs.Load`: a plan of any sizes stands for the packets that `LoadWorker::yield` makes of a task; past the end of a shorter column the model has no rows, where the code forms a range that ends before it starts.
