# A verified model of the TaskR scheduler and its two task-graph applications

The project models three linked parts of TaskR and proves what they are for.

* **The scheduler** (`Scheduler*.dfy`, `Runtime.dfy`). Tasks carry an in-counter and a vector of dependents; workers pop
  from their own queue or the common one, poll pending operations, run a task and then release its dependents one
  decrement at a time. `Scheduler` is a state machine in which every access to an atomic counter or a queue is a step
  and all workers interleave; a worker's program counter (`Pc`) says where it is inside the pull function, a task's life
  or the finish callback. `Runtime` is the same thing as an object: its methods update the source's fields, and each is
  specified by one step of the state machine. Two fields of a state are history only: `place` (where a task is) and
  `named` (the queue to which it was last pushed). `Fairness` says what a fair run of any machine with workers is and
  how such runs make progress; `SchedulerFairness`, `CholeskyFairness`, `MutexFairness` and `JacobiFairness` use it.
  `SchedulerCycles` is about which graphs are executed to their end, `SchedulerTermination` and `SchedulerCalls` about
  what one call of the pull function does, with a forced termination and without, `Turns` about tasks that take turns in
  the ready queues while others wait in vain.
* **Mutex and condition variable** (`Mutex*.dfy`, `ConditionVariable.dfy`, `Notifications.dfy`, `Wait*.dfy`,
  `Notices.dfy`). Neither wakes a task: they set an owner or a flag that the scheduler polls. `MutexClient` and
  `MutexRuns` run the contended counter on the scheduler itself; `MutexProgress` and `MutexFairness` bring it to its
  end, for any affinities that do not change, `MutexStarvation` and `MutexExamples` show when it has none, `AffineTasks`
  when that cannot happen. `ConditionVariable` is one machine of all four waits, the notifications, both mutexes and a
  clock; `Notifications` is about what a notification has done when it returns, `Waits` and `WaitCalls` about what the
  waits return and when; `Notices` has the queue of flags as an object and as a value.
* **Cholesky** (`Cholesky*.dfy`). The same loop nest runs in place and builds a task graph from a grid that remembers
  only the writers of each block. `CholeskyFactor` says what the loop nest computes, without its order.
  `CholeskyExecution` composes the scheduler with the blocks in memory; a running kernel reads its blocks one at a time
  and may leave garbage in its target while it is at work.
* **Jacobi3D** (`Jacobi*.dfy`). `JacobiProtocol` has all tasks of all processes interleave cell by cell over two buffers
  and the channels between processes; its reference is `JacobiSweeps.GlobalValue`, synchronous sweeps on plain integer
  coordinates. `JacobiArrays`, `JacobiHalo`, `JacobiReset` and `JacobiTopology` are the loops over the flat buffers and
  the set-up of a process; `JacobiMean` says what a sweep does to the values. `JacobiRefinement`, `JacobiTasks` and
  `JacobiInitial` connect them with the steps of the protocol. `JacobiGraph` builds the graph of a process in the
  runtime, `JacobiExecution` has the schedulers of all processes execute these graphs, where a send or receive task
  suspends when its channel makes it wait, and `JacobiWork` and `JacobiFairness` bring that to its end.

The main results:

* a task runs only after the bodies of all its predecessors, is made ready exactly once, and the active counter always
  equals the tasks that are somewhere in the system, also during forced drains; a worker stops only when nothing is
  queued, held, running or still releasing;
* with bodies that do not suspend, the fair runs finish every task, within a number of rounds given by the first state,
  exactly if no tasks depend on one another in a circle (`SchedulerCycles.FinishesIffAcyclic`), and then every worker
  stops;
* after a forced termination a worker that enters the pull function looks for a task only after it has emptied first the
  common queue and then its own (`SchedulerTermination.ForceTerminationDrains`);
* every schedule of the Cholesky graph computes the blocks of the sequential loop nest, with the kernels uninterpreted:
  those of a factor that is given without the order of the operations and whose transpose times itself is the matrix
  (`CholeskyFactor`). Every fair schedule comes to its end. No reader is ever recorded, and none needs to be: once a
  block has been read by an operation that does not write it, no later operation writes it (`ReadAfterLastWrite`);
* every interleaving of the Jacobi tasks computes the synchronous sweeps of the global grid; adjacent subgrids are at
  most one iteration apart, a channel never holds more than two messages, nothing deadlocks although a task waits for
  its faces in a fixed order, and every run of the exchange is finite. When the schedulers of all processes execute the
  built graphs, every step is one of the exchange or leaves it alone: that a task runs only when it is ready is then no
  guard but a consequence (`JacobiExecution.Refines`). Every fair execution finishes all tasks of all processes, with
  these sweeps in the two buffers, and then every worker stops (`JacobiFairness.FairExecutionsFinish`,
  `FairExecutionsSweep`, `FairExecutionsEnd`). One buffer then holds everywhere the mean of what the other holds around
  (`JacobiMean.FairExecutionsAverage`);
* N tasks that each increment a shared counter M times under the mutex end with N * M; the lock passes in order of
  waiting. With affinities that do not change, and a minimum of active workers that lets sleepers wake up
  (`Turns.Awake`), a fair run comes to that end exactly if it comes to no state in which every worker is occupied with a
  waiting task of its own and the owner of the mutex is in the common queue
  (`MutexFairness.FairRunsCountUnlessStarved`). None does if no affinity names some worker, as when there are no
  affinities at all, if every task has an affinity, or if tasks with an affinity depend on nothing
  (`MutexFairness.FairRunsCount`). `MutexExamples` has a run that comes to such a state where none of these holds, and
  fair runs of any length that do not end where only the minimum is too small;
* no wake-up is lost: while a task owns the condition mutex, no other is between evaluating the predicate and sleeping,
  and a notification of all that it then calls returns only when every task that was waiting has been resumed or has its
  flag set (`Notifications.NoLostWakeup`);
* every evaluation of the predicate, the first one included, ends a wait if and only if the predicate is true;
* a timed wait with predicate returns true only when its task has just found the predicate true under the mutex, and
  false only after a poll found more than the timeout passed; one without predicate returns true exactly when the poll
  that resumed it found its flag raised.

A run is fair when it falls into rounds in each of which every worker takes a step or, at some point, cannot go on by
itself (`Fairness.IsRound`): a worker that stays able to go on is left out for no longer than a round. Nothing else is
asked of the order of steps, and such runs exist from every reachable state.

Assumptions, stated once: atomics and both queue types are linearizable; `suspend` gives control back to the worker,
which then fires the suspend callback, and that calls `resumeTask` (as in `examples/mutex/cpp/pthreads.cpp:54`); pushing
to a channel copies the message; tasks, dependencies and additions come before the run; there is at least one worker
where progress is claimed; counters do not wrap around (unbounded integers stand for `size_t` and `uint32_t`); Jacobi
subgrids are at least as wide as the ghost depth.

What the environment decides is a parameter: whether a poll succeeds, whether a fail streak has expired, whether a
worker is asked to resume, whether a body suspends (`Choice`), when time passes.

Verify everything with
`dafny verify dfyconfig.toml --resource-limit 2000000 --verification-time-limit 0 --warn-contradictory-assumptions`.

## Model

| member | source | states |
|---|---|---|
| TaskRuntime.Runtime.constructor | include/taskr/runtime.hpp:150-193 | a fresh runtime with empty queues and zero counters; tasks can be set up in it |
| TaskRuntime.Runtime.NewTask | include/taskr/task.hpp:60-77 | a new task has no dependency, no dependent and no pending operation; set-up stays consistent |
| TaskRuntime.Runtime.AddDependency | include/taskr/task.hpp:126-160 | one more in the dependent's counter, the dependent at the end of the predecessor's vector; the counters still equal the edges |
| TaskRuntime.Runtime.ResumeTask | include/taskr/runtime.hpp:250-276 | a task with dependencies is left alone, an affinity beyond the workers is an error, otherwise the task goes to the end of the queue its affinity names |
| TaskRuntime.Runtime.AddTask | include/taskr/runtime.hpp:233-243 | the active counter rises before the task is resumed, also when the affinity is invalid |
| TaskRuntime.Runtime.EnterLoop | include/taskr/runtime.hpp:528-541 | the worker counts as inside before it looks at any queue; with the flag of a forced termination it empties the queues first, without it the worker looks for a task |
| TaskRuntime.Runtime.PopFrom | include/taskr/runtime.hpp:577-580 | takes the oldest task of the queue, or none |
| TaskRuntime.Runtime.PopTask | include/taskr/runtime.hpp:577-580 | own queue first, then the common one, one pop at a time |
| TaskRuntime.Runtime.DrainTask | include/taskr/runtime.hpp:541-555 | after a forced termination, the common queue and then the own one are emptied task by task |
| TaskRuntime.Runtime.DiscardTask | include/taskr/runtime.hpp:546-553 | a drained task leaves the system and the active counter falls by one |
| TaskRuntime.Runtime.PollOperation | include/taskr/runtime.hpp:583-606 | a finished pending operation is removed, the first unfinished one sends the task back, a task without any leaves with the worker |
| TaskRuntime.Runtime.RequeueTask | include/taskr/runtime.hpp:594-599 | a task whose poll failed goes back to the queue its affinity names now |
| TaskRuntime.Runtime.LeaveLoop | include/taskr/runtime.hpp:618-623 | the worker stops counting as inside and goes on to its task, to sleep, to its end or to the next call |
| TaskRuntime.Runtime.CheckTaskWorkerSuspension | include/taskr/runtime.hpp:662-669 | a worker goes to sleep only after its inactivity time and only if more than the minimum are inside |
| TaskRuntime.Runtime.CheckTermination | include/taskr/runtime.hpp:625-639 | a worker terminates exactly when the active counter is zero and the runtime finishes on the last task |
| TaskRuntime.Runtime.CheckResumeWorker | include/taskr/runtime.hpp:641-657 | a sleeping worker resumes iff too few are inside, it was asked to, no task is active or its own queue is not empty |
| TaskRuntime.Runtime.WakeUp | include/taskr/worker.hpp:113-120 | a worker leaves its sleep exactly when its resume check holds |
| TaskRuntime.Runtime.SuspendBody | include/taskr/task.hpp:112 | a suspending body leaves its pending operations behind the ones already there |
| TaskRuntime.Runtime.OnTaskSuspend | include/taskr/runtime.hpp:695-702 | the suspend callback puts the task back into the queue its affinity names |
| TaskRuntime.Runtime.FinishBody | include/taskr/runtime.hpp:680-686 | a finished body is followed by the release of its dependents |
| TaskRuntime.Runtime.DecrementNext | include/taskr/runtime.hpp:421-432 | one decrement per step; whoever brings a counter to zero is the one that pushes the dependent |
| TaskRuntime.Runtime.PushDependent | include/taskr/runtime.hpp:430-431 | the dependent goes to the queue its affinity names, then the next dependent's turn comes |
| TaskRuntime.Runtime.DecreaseActive | include/taskr/runtime.hpp:691-692 | the active counter falls only after all dependents are released |
| TaskRuntime.Runtime.ForceTermination | include/taskr/runtime.hpp:444 | sets the flag and changes nothing else |
| TaskRuntime.Runtime.SetWorkerAffinity | include/taskr/task.hpp:91 | changes where the task is queued next |
| SchedulerSetup.NewTaskKeepsSetup | include/taskr/task.hpp:60-77 | creating tasks keeps every in-counter equal to the number of edges into its task |
| SchedulerSetup.DependencyKeepsSetup | include/taskr/task.hpp:126-151 | so does adding a dependency, repeated ones counted separately |
| SchedulerSetup.AddedTaskKeepsSetup | include/taskr/runtime.hpp:233-276 | an added task is queued exactly when it has no dependency |
| SchedulerSetup.SetupInit | include/taskr/runtime.hpp:233-243 | with all tasks added, the set-up is an initial state of the scheduler |
| SchedulerInvariant.StepInv | include/taskr/runtime.hpp:421-693 | every step of every worker keeps the invariants: counters equal unreleased edges, places agree with queues and workers, the two counters of the runtime are exact |
| SchedulerInvariant.RunInv | include/taskr/runtime.hpp:528-693 | the invariants hold in every state of every run |
| SchedulerInvariant.DecrementedIsBlocked | include/taskr/runtime.hpp:424-431 | a decremented dependent still had a positive counter: no counter passes zero, so exactly one decrement sees zero |
| SchedulerInvariant.DecrementUnreleased | include/taskr/runtime.hpp:424-428 | a decrement releases exactly its own edge, whatever other finishing tasks do in between |
| SchedulerInvariant.StepAffinity | include/taskr/runtime.hpp:256-275 | the queue a task was pushed to is the one it is in, or the one it was popped from by the worker that holds it |
| SchedulerInvariant.StaysZero | include/taskr/runtime.hpp:625-639 | once zero, the active counter stays zero, so that all workers terminate |
| SchedulerTheorems.ReadyAfterPredecessors | include/taskr/runtime.hpp:421-432 | a task that is ready, running or finished has only predecessors whose bodies are done |
| SchedulerTheorems.RunsAfterPredecessors | include/taskr/runtime.hpp:421-432 | in every run a body runs only after the bodies of all its predecessors |
| SchedulerTheorems.StepAges | include/taskr/runtime.hpp:528-693 | a task never goes back to an earlier stage, and its body becomes done only on the worker that runs it |
| SchedulerTheorems.ReachesOnce | include/taskr/runtime.hpp:424-431 | a task is made ready by its dependencies, completed and removed at most once each |
| SchedulerTheorems.ReachesSometime | include/taskr/runtime.hpp:424-431 | a finished task was made ready, completed and removed in some step: with the above, exactly once |
| SchedulerAccounting.Conservation | include/taskr/runtime.hpp:233-243 | the active counter equals blocked tasks, plus tasks about to be pushed, plus the lengths of all queues, plus tasks held by workers |
| SchedulerAccounting.RunConservation | include/taskr/runtime.hpp:541-600 | the same in every state of every run, forced drains included |
| SchedulerAccounting.TerminatesWhenDone | include/taskr/runtime.hpp:625-639 | a worker that terminates leaves empty queues, no held or releasing task, and, unless forced, only finished tasks |
| SchedulerAccounting.NoTaskStranded | include/taskr/runtime.hpp:641-669 | a sleeping worker's own queue wakes it; with nobody inside, or no active task, every sleeper may wake |
| SchedulerAccounting.QueuedWhereNamed | include/taskr/runtime.hpp:256-275 | a task enters only the queue that its affinity names at that moment |
| SchedulerAccounting.RunsWhereQueued | include/taskr/runtime.hpp:577-580 | a body runs only on the worker to whose queue the task was pushed, or on any if that was the common queue |
| SchedulerTermination.SettingsStay | include/taskr/runtime.hpp:444 | in every run the flag of a forced termination, once set, stays set; the minimum of active workers and whether the runtime finishes with the last task do not change |
| SchedulerTermination.DropsTask | include/taskr/runtime.hpp:541-555 | emptying a queue takes its oldest task, and in the worker's next step that task is out of the system and the counter one lower |
| SchedulerTermination.AbsentStays | include/taskr/runtime.hpp:541-555 | a task that has been dropped never comes back |
| SchedulerTermination.ForceTerminationDrains | include/taskr/runtime.hpp:541-577 | a worker that enters the pull function after a forced termination was asked for does nothing but empty queues until it has found first the common queue and then its own empty, and every task that it takes until then is dropped for good |
| SchedulerCalls.OwnQueueFirst | include/taskr/runtime.hpp:577-580 | a worker looks into the common queue only after it has found its own queue empty in the same call |
| SchedulerCalls.CallGoesForward | include/taskr/runtime.hpp:528-623 | within a call a worker never goes back: it empties, looks into its queue, into the common one, polls one task, and leaves with it or without any |
| SchedulerCalls.CallFindsNothing | include/taskr/runtime.hpp:607-669 | a worker whose call has found no task stops exactly if the runtime finishes with the last task and none is active at the check; otherwise it sleeps exactly if its streak has expired and more than the minimum are active; else it calls again |
| SchedulerCalls.StopsOnlyWhenDone | include/taskr/runtime.hpp:625-639 | in every run a worker stops only if the runtime is to finish with the last task and no task is active |
| SchedulerCalls.SleepsOnlyWhenIdle | include/taskr/runtime.hpp:662-669 | a sleeping worker has gone to sleep in its latest call, which found no task for too long while more than the minimum of workers were active |
| SchedulerCalls.MinimumStaysAwake | include/taskr/runtime.hpp:668 | with no more workers than the minimum none ever sleeps |
| SchedulerCalls.WakesWithReason | include/taskr/runtime.hpp:641-657 | a sleeping worker wakes up only if it is asked to, no more than the minimum are active, no task is active, or its own queue has one |
| SchedulerCalls.AffinityStep | include/taskr/task.hpp:91 | in every run affinities change only by setting one, and then only that one, to the given value |
| SchedulerPolling.PendingStep | include/taskr/runtime.hpp:583-606 | the pending operations of a task change only when the worker that polls it finds the first one finished, which is removed, or when its body suspends, which adds new ones at the end |
| SchedulerPolling.SchedulePolled | include/taskr/runtime.hpp:583-606 | a task is run only when no pending operation of it is left |
| SchedulerProgress.MeasureDecreases | include/taskr/runtime.hpp:528-693 | every step that advances a task lowers a natural-number measure, and no step raises it |
| SchedulerProgress.AlwaysProgress | include/taskr/runtime.hpp:528-669 | while a task is active, some execution advances a task without any worker being asked to resume |
| SchedulerProgress.WorkIsBounded | include/taskr/runtime.hpp:528-693 | an execution has no more advancing steps than the measure of its first state |
| SchedulerFairness.HolderLeads | include/taskr/runtime.hpp:618-693 | a worker that holds a task can always go on, and each of its steps advances a task |
| SchedulerFairness.FetchersLead | include/taskr/runtime.hpp:528-669 | with a task in a ready queue, each step of a worker that looks there brings it nearer to popping it, through sleep and wake-up, and one of them can go on |
| SchedulerFairness.FairRunsFinish | include/taskr/runtime.hpp:528-693 | every fair run of an acyclic graph has finished every task after a number of rounds given by its first state |
| SchedulerFairness.FairRunsEnd | include/taskr/runtime.hpp:625-669 | and nine rounds later every worker has terminated, if the runtime finishes on the last task |
| SchedulerFairness.FairRunFrom | include/taskr/runtime.hpp:528-693 | from every reachable state there are fair runs of any length |
| SchedulerFairness.EveryTaskCanFinish | include/taskr/runtime.hpp:528-693 | so from every reachable state some run finishes every task and stops every worker |
| SchedulerCycles.OrderedIffAcyclic | include/taskr/task.hpp:126-151 | tasks can be ranked so that ranks rise along all dependencies exactly if no tasks depend on one another in a circle |
| SchedulerCycles.CycleNeverRuns | include/taskr/runtime.hpp:421-432 | tasks on a cycle of dependencies stay blocked in every run, whatever the bodies do |
| SchedulerCycles.FinishesIffAcyclic | include/taskr/runtime.hpp:421-693 | from an initial state, all fair runs that have come far enough have finished every task if and only if the graph has no cycle |
| SchedulerCycles.OuroborosIsInitial | include/taskr/task.hpp:126-151 | a task that depends on itself makes an initial state with a cycle |
| Turns.TurnStep | include/taskr/runtime.hpp:577-606 | while others wait in vain, a task whose polls succeed stays on its way, and each step of a worker that may pop it, or holds it, brings it nearer to its own next step |
| Turns.CarrierCanGoOn | include/taskr/runtime.hpp:641-669 | one of these workers can go on, through sleep and wake-up, if every task has an affinity, or the minimum of active workers lets those wake up that no affinity names |
| Fairness.FairRunsGetDone | include/taskr/runtime.hpp:528-669 | a machine in which some work is always within reach of fair workers gets done, with an explicit bound |
| CholeskyProgram.ReadAfterLastWrite | examples/cholesky/source/cholesky.hpp:91-140 | once an operation has read a block it does not write, no later operation writes that block |
| CholeskyProgram.ConflictIsDependency | examples/cholesky/source/cholesky.hpp:46-141 | any two operations on a common block, one of them writing it, are joined by a dependency, write-after-read pairs included |
| CholeskyFactor.ProgramComputesFactor | examples/cholesky/sequential/cholesky.hpp:58-76 | the loop nest leaves on and above the diagonal the blocks of the factor, each given by the blocks above it: what is left of it after the products of their columns are taken away, solved for; below the diagonal nothing changes |
| CholeskyFactor.FactorTimesFactor | examples/cholesky/sequential/cholesky.hpp:32-77 | if gemm and syrk subtract the product of a transposed block and another, and potrf and trsm solve their equations, the transposed factor times the factor is the matrix, for blocks whose product does not commute |
| CholeskySequential.Cholesky | examples/cholesky/sequential/cholesky.hpp:56-77 | the in-place loop nest leaves in the array the blocks of the factor on and above the diagonal, the old ones below it |
| CholeskyGraph.AddTaskDependency | examples/cholesky/source/cholesky.hpp:46-50 | the task gets exactly the recorded writers of the block as new predecessors |
| CholeskyGraph.UpdateDependencyGrid | examples/cholesky/source/cholesky.hpp:59 | the grid keeps holding exactly the writers of every block |
| CholeskyGraph.CreateTask | examples/cholesky/source/cholesky.hpp:94-98 | the new task depends on exactly the writers of the blocks it touches, each once |
| CholeskyGraph.InsertTask | examples/cholesky/source/cholesky.hpp:94-99 | one more operation in the graph, the grid and the runtime |
| CholeskyGraph.Cholesky | examples/cholesky/source/cholesky.hpp:86-141 | the finished graph holds the dependencies between all operations of the loop nest, no other and none twice, and the runtime can start |
| CholeskyGraph.GraphOrdered | examples/cholesky/source/cholesky.hpp:86-141 | the graph has no cycle |
| CholeskyExecution.MoveGood | examples/cholesky/source/cholesky.hpp:86-141 | every step of the scheduler and of a running kernel keeps each block at a sequential value or in the hands of one kernel |
| CholeskyExecution.ScheduleComputesSequential | examples/cholesky/source/cholesky.hpp:46-141 | when a worker has found all tasks finished, memory holds the blocks of the factor, and is what the sequential loop nest computes, for every number of blocks and workers and every interleaving |
| CholeskyExecution.ReadsSequentialValue | examples/cholesky/source/cholesky.hpp:61-84 | every read of a running kernel sees the sequential value of its position, never a stale, partial or later one |
| CholeskyFairness.FairExecutionsFactorize | examples/cholesky/source/cholesky.hpp:46-141 | every fair execution, loads and stores of the kernels included, ends with all tasks finished and the blocks of the factor, those of the sequential loop nest |
| CholeskyFairness.FactorizationCanFinish | examples/cholesky/source/cholesky.hpp:86-141 | from every reachable state of the execution some moves lead there |
| CholeskyLayout.ConvertToBlockMatrix | examples/cholesky/utils.hpp:76-96 | every block holds its part of the plain matrix, all indices in bounds |
| CholeskyLayout.ConvertToPlainMatrix | examples/cholesky/utils.hpp:107-122 | every entry that a block covers is copied, every other one is left as it was |
| CholeskyLayout.PlainRoundTrip | examples/cholesky/utils.hpp:76-122 | plain to blocks to plain restores all entries if the dimension is a multiple of the block size, and never writes the last row if it is not |
| CholeskyLayout.BlockRoundTrip | examples/cholesky/utils.hpp:76-122 | blocks to plain to blocks restores every block, for any dimension |
| JacobiTopology.Partition | examples/jacobi3d/source/grid.cpp:34-70 | fails exactly when the grid cannot be dealt out evenly, and says at which division and axis; otherwise the parts make up the grid |
| JacobiTopology.RankTables | examples/jacobi3d/source/grid.cpp:90-111 | the two directions of the rank tables are inverse to each other |
| JacobiTopology.FindNeighbor | examples/jacobi3d/source/grid.cpp:282-364 | the neighbour table names the kind, process and position that the grid says |
| JacobiTopology.SlotKeyIsInjective | examples/jacobi3d/source/grid.cpp:210-212 | slot keys are injective in process, position and kind of slot |
| JacobiTopology.EndsMeet | examples/jacobi3d/source/grid.cpp:374-569 | the producer across a face and the consumer of the facing subgrid use the same three slots |
| JacobiTopology.ChannelsAreSeparate | examples/jacobi3d/source/grid.cpp:374-569 | ports that share a slot are the same port |
| JacobiGrid.NeighborBack | examples/jacobi3d/source/grid.cpp:297-350 | neighbourhood is symmetric, of the same kind, X0 against X1 and so on, also across processes |
| JacobiGrid.ShiftStays | examples/jacobi3d/source/grid.cpp:726-735 | what the stencil reads is in the subgrid, in a neighbour's cells along the facing face, or outside the grid |
| JacobiGrid.GhostIsUnique | examples/jacobi3d/source/grid.cpp:759-822 | a ghost cell of a process belongs to one port only and to no subgrid of the process |
| JacobiSweeps.ValueIsGlobal | examples/jacobi3d/source/grid.cpp:700-742 | sweeps of the decomposed grid are sweeps on plain integer coordinates |
| JacobiSweeps.CellAtFlat | examples/jacobi3d/source/grid.cpp:274-280 | every global coordinate is the coordinate of a cell of the decomposition: the subgrids cover the grid |
| JacobiSweeps.FlatCellAt | examples/jacobi3d/source/grid.cpp:274-280 | and of one only: they are disjoint |
| JacobiMean.ReadsOnce | examples/jacobi3d/source/grid.cpp:726-735 | the stencil reads no coordinate twice |
| JacobiMean.ReadsAround | examples/jacobi3d/source/grid.cpp:726-735 | it reads exactly the coordinates at distance 0 to the depth along one axis |
| JacobiMean.RulesTakeMean | examples/jacobi3d/source/grid.cpp:726-736 | times 1 + 6 * depth, the update of the values that the stencil reads is their sum |
| JacobiMean.SweepIsMean | examples/jacobi3d/source/grid.cpp:700-742 | one sweep more on the global grid gives every cell the mean of the values around it |
| JacobiMean.SweepsStayBetween | examples/jacobi3d/source/grid.cpp:637-742 | no sweep leaves the range from 0 to 1 of the initial values |
| JacobiMean.FairExecutionsAverage | examples/jacobi3d/source/jacobi3d.hpp:82-151 | every fair execution of the schedulers of all processes ends with one buffer holding at every coordinate the mean of what the other buffer holds around it, zero outside the grid |
| JacobiInvariant.StartFacts | examples/jacobi3d/source/jacobi3d.hpp:105-121 | when a compute task may run, its local neighbours and its own pack and unpack have come far enough |
| JacobiInvariant.ReadIsValue | examples/jacobi3d/source/grid.cpp:700-742 | while a subgrid computes iteration k, every cell its stencil reads holds the value of sweep k |
| JacobiInvariant.PackReadsValue | examples/jacobi3d/source/grid.cpp:824-885 | a pack task reads the values of the sweep just computed |
| JacobiInvariant.MoveInv | examples/jacobi3d/source/jacobi3d.hpp:104-135 | every step of every task keeps the counts and the values: both buffers, ghost layers, pack buffers and messages |
| JacobiTheorems.ReadsAreSynchronous | examples/jacobi3d/source/grid.cpp:700-742 | in every run, at any time during compute k, all it may read are values of the global grid after exactly k sweeps |
| JacobiTheorems.ResultIsSynchronous | examples/jacobi3d/source/jacobi3d.hpp:82-143 | after n iterations one buffer holds n sweeps of the global grid, the other n - 1 |
| JacobiTheorems.DriftIsBounded | examples/jacobi3d/source/jacobi3d.hpp:104-135 | adjacent subgrids, local or remote, are never more than one iteration apart |
| JacobiTheorems.PushNeverWaits | examples/jacobi3d/source/grid.hpp:188-202 | a channel holds at most two messages, so a send task that may run never finds it full |
| JacobiTheorems.HeadIsNextMessage | examples/jacobi3d/source/grid.hpp:204-218 | the message that receive k finds at the head is the neighbour's of iteration k |
| JacobiTheorems.NeverDeadlocks | examples/jacobi3d/source/jacobi3d.hpp:104-135 | while a subgrid has iterations left, some task of some process can take a step |
| JacobiTheorems.RunsAreFinite | examples/jacobi3d/source/jacobi3d.hpp:82-143 | every run is finite, with a bound that depends on the grid and n only |
| JacobiTheorems.InitExists | examples/jacobi3d/source/jacobi3d.hpp:64-77 | the exchange has an initial state, so what holds of all runs is not empty |
| JacobiTheorems.RunsComplete | examples/jacobi3d/source/jacobi3d.hpp:82-151 | a run that cannot go on has computed every iteration and delivered every message |
| JacobiGraph.AddTaskDependency | include/taskr/task.hpp:126-130 | one more recorded dependency of the task being wired |
| JacobiGraph.DependenciesListed | examples/jacobi3d/source/jacobi3d.hpp:104-135 | the list of dependencies added to a task is exactly the relation used by the exchange |
| JacobiGraph.WireTask | examples/jacobi3d/source/jacobi3d.hpp:104-135 | the graph gets exactly the dependencies of the task |
| JacobiGraph.BuildSubgrid | examples/jacobi3d/source/jacobi3d.hpp:88-142 | the tasks of one subgrid and iteration are created, wired and added; everything they depend on exists |
| JacobiGraph.Jacobi3d | examples/jacobi3d/source/jacobi3d.hpp:82-143 | the graph of a process holds all its tasks and exactly their dependencies, and the runtime can start |
| JacobiGraph.GraphOrdered | examples/jacobi3d/source/jacobi3d.hpp:104-135 | the graph of a process has no cycle |
| JacobiGraph.RunsWhenReady | examples/jacobi3d/source/jacobi3d.hpp:104-151 | on this graph a task is ready or running only when the bodies of all it depends on in the exchange have ended |
| JacobiExecution.MoveGood | examples/jacobi3d/source/jacobi3d.hpp:82-151 | every step of every scheduler and of every running body keeps: ended bodies have finished their tasks, and the invariants of scheduler and exchange |
| JacobiExecution.Refines | examples/jacobi3d/source/jacobi3d.hpp:82-151 | each step of the execution of all graphs is a step of the exchange or leaves it alone: running tasks are ready |
| JacobiExecution.ResultIsSynchronous | examples/jacobi3d/source/jacobi3d.hpp:82-151 | when no scheduler has an active task left, the buffers hold n and n - 1 synchronous sweeps of the global grid |
| JacobiWork.WaitsForMessage | examples/jacobi3d/source/grid.hpp:188-218 | a ready task that suspends at a face is a receive task whose message has not been sent: no channel is ever full |
| JacobiWork.OpensWhenSent | examples/jacobi3d/source/grid.hpp:204-217 | the poll of a suspended receive task succeeds exactly when its message has been sent |
| JacobiWork.MoveSound | examples/jacobi3d/source/grid.hpp:188-218 | every step of a body, and every step of a scheduler that advances a task, suspends one or ends its waiting, leaves less to do; no step leaves more |
| JacobiFairness.TargetLeads | include/taskr/runtime.hpp:577-606 | in each process a task whose polls succeed gets its turn, whatever the schedulers of the others do |
| JacobiFairness.SomeTarget | examples/jacobi3d/source/jacobi3d.hpp:104-151 | while tasks are left, one is ready and waits for nothing: what a receive task waits for leads back to a task of smaller rank, across processes |
| JacobiFairness.FairExecutionsFinish | examples/jacobi3d/source/jacobi3d.hpp:82-151 | every fair execution by the workers of all processes has finished all tasks after a number of rounds given by its first state |
| JacobiFairness.FairExecutionsSweep | examples/jacobi3d/source/jacobi3d.hpp:82-151 | and then the buffers hold n and n - 1 synchronous sweeps of the global grid |
| JacobiFairness.FairExecutionsEnd | include/taskr/runtime.hpp:625-669 | and nine rounds later every worker of every process has terminated, if its runtime finishes on the last task |
| JacobiFairness.FairExecutionFrom | examples/jacobi3d/source/jacobi3d.hpp:82-151 | from every reachable state there are fair executions of any length: a worker that can go on has a step to take |
| JacobiFairness.SweepsCanFinish | examples/jacobi3d/source/jacobi3d.hpp:82-151 | so from every reachable state some execution leads to no active task in any process |
| JacobiFairness.StartSound | examples/jacobi3d/source/jacobi3d.hpp:82-143 | executions that start with the graphs as they are built and added are of this kind |
| JacobiArrays.IndexInBounds | examples/jacobi3d/source/grid.cpp:726-737 | flat indices of buffer cells are in bounds |
| JacobiArrays.IndexIsInjective | examples/jacobi3d/source/grid.cpp:726-737 | different cells have different flat indices |
| JacobiArrays.InvCoeff | examples/jacobi3d/source/grid.cpp:32 | the coefficient is the inverse of 1 + 6 * depth |
| JacobiArrays.StarCellsOnce | examples/jacobi3d/source/grid.cpp:726-735 | the star of a cell is the cells at distance 0 to the depth along one axis, each once |
| JacobiArrays.MeanOfConstant | examples/jacobi3d/source/grid.cpp:726-736 | where all cells of the star have one value, the new value is the same |
| JacobiArrays.Star | examples/jacobi3d/source/grid.cpp:726-735 | the loop over distances accumulates the star sum |
| JacobiArrays.ComputeTile | examples/jacobi3d/source/grid.cpp:714-740 | a tile updates its cells, none twice, and nothing else |
| JacobiArrays.Compute | examples/jacobi3d/source/grid.cpp:700-742 | the blocked loops write every cell of the subgrid exactly once, and no other cell: times the number of cells in its star, the new value is the sum of the values of these cells in the other buffer |
| JacobiHalo.PackFace | examples/jacobi3d/source/grid.cpp:824-885 | the message holds the cells along the face, in order |
| JacobiHalo.UnpackFace | examples/jacobi3d/source/grid.cpp:759-822 | the cells of the face get the values of the message and no other cell changes |
| JacobiHalo.TwinIsGlobal | examples/jacobi3d/source/grid.cpp:759-885 | a ghost cell and its twin in the neighbouring process have the same global coordinate |
| JacobiHalo.TwinInFace | examples/jacobi3d/source/grid.cpp:759-885 | the twin of a ghost cell is at the same place of the facing face |
| JacobiHalo.Exchange | examples/jacobi3d/source/grid.cpp:759-885 | packing there and unpacking here leaves every ghost cell equal to the neighbour's cell of the same global coordinate, and touches no other cell, on each of the six faces |
| JacobiReset.Reset | examples/jacobi3d/source/grid.cpp:637-698 | a reset task writes the cells around its subgrid in both buffers: 0 beyond the global boundary, 1 elsewhere |
| JacobiReset.ResetAll | examples/jacobi3d/source/jacobi3d.hpp:64-77 | in whatever order the reset tasks run, both buffers end with 0 in ghost layers on the global boundary and 1 elsewhere |
| JacobiInitial.ResetIsInitial | examples/jacobi3d/source/grid.cpp:637-698 | the reset buffers are the initial state of the exchange |
| JacobiRefinement.OwnCellsAreBox | examples/jacobi3d/source/grid.cpp:274-280 | the cells of a subgrid are the box that its loops run over |
| JacobiRefinement.SlabIsFace | examples/jacobi3d/source/grid.cpp:824-885 | the cells sent across a face are those that the pack loops copy |
| JacobiRefinement.GhostIsFace | examples/jacobi3d/source/grid.cpp:759-822 | the ghost cells of a port are those that the unpack loops fill |
| JacobiRefinement.StencilIsUpdate | examples/jacobi3d/source/grid.cpp:726-737 | what the compute loops write into a cell, the mean over its star, is what the step of the exchange writes |
| JacobiTasks.WritesAllowed | examples/jacobi3d/source/grid.cpp:700-742 | the cells of a subgrid at work can be written one after the other in any order, each by a step of the exchange |
| JacobiTasks.WritesUpdate | examples/jacobi3d/source/grid.cpp:700-742 | afterwards each holds the update of what the other buffer held at the beginning, and no other cell has changed |
| JacobiTasks.ComputeTask | examples/jacobi3d/source/grid.cpp:700-742 | the compute loops leave in the buffer what these steps leave, in whatever order they are taken |
| JacobiTasks.PacksAllowed | examples/jacobi3d/source/grid.cpp:824-885 | the cells along a face can be copied to the pack buffer one after the other in any order, each by a step of the exchange |
| JacobiTasks.PackTask | examples/jacobi3d/source/grid.cpp:824-885 | the pack loops leave in the message what the copying steps leave in the pack buffer |
| JacobiTasks.MessageArrives | examples/jacobi3d/source/grid.cpp:759-885 | what the message holds of a cell for the face it was packed from, it holds for the ghost layer it is unpacked to |
| JacobiTasks.UnpacksAllowed | examples/jacobi3d/source/grid.cpp:759-822 | the same for copying from the message to the ghost cells of a port |
| JacobiTasks.UnpackTask | examples/jacobi3d/source/grid.cpp:759-822 | the unpack loops leave in the buffer what the copying steps leave, given the message at the head of the channel |
| TaskMutex.Mutex.TryLock | include/taskr/mutex.hpp:58-64 | succeeds exactly when the mutex is free |
| TaskMutex.Mutex.Lock | include/taskr/mutex.hpp:105-131 | takes a free mutex, otherwise puts the task at the end of the queue and has it suspend |
| TaskMutex.Mutex.Unlock | include/taskr/mutex.hpp:82-96 | fails for a task that is not the owner, otherwise passes the lock to the longest waiting task |
| TaskMutex.HistoryKeepsQueue | include/taskr/mutex.hpp:58-144 | a non-empty queue implies an owner; waiters are distinct and none is the owner |
| TaskMutex.NobodyOvertaken | include/taskr/mutex.hpp:58-64 | whoever gets the lock at once overtakes no waiter |
| TaskMutex.ServedInOrder | include/taskr/mutex.hpp:82-96 | the task at position k gets the lock with release k + 1, no sooner and no later |
| MutexClient.UnlockIsRelease | include/taskr/mutex.hpp:88-93 | clearing the owner and setting the next one, seen as two steps by polls, is one release |
| MutexClient.MoveGood | examples/mutex/cpp/mutex.hpp:36-42 | every step of the scheduler and of the tasks keeps the invariants of the client |
| MutexRuns.MutualExclusion | examples/mutex/cpp/mutex.hpp:38-40 | at most one task is between lock and unlock, and it owns the mutex |
| MutexRuns.ReturnsAsOwner | include/taskr/mutex.hpp:105-128 | a lock call that suspended its task returns only to the owner |
| MutexRuns.EveryIncrementCounts | examples/mutex/cpp/mutex.hpp:36-62 | when a worker terminates the shared value is tasks times rounds, although read and write are separate steps |
| MutexProgress.TaskLeads | include/taskr/runtime.hpp:577-606 | a task that polls well gets its turn in its own queue, and in the common one unless all workers are occupied with their own tasks, however many waiting tasks go round there |
| MutexProgress.SomeTarget | include/taskr/mutex.hpp:82-131 | while a task is active some worker ends a task, or some task is on its way (the one inside unlock, the owner, one that occupies a worker, or any ready one), or an occupied worker pops the common queue once more, or the counter is starved |
| MutexFairness.FairRunsCountUnlessStarved | examples/mutex/cpp/mutex.hpp:36-62 | for all affinities that do not change, and a minimum that lets sleepers wake up, a fair run that has come far enough has done all rounds of all tasks and holds tasks times rounds, if and only if it has come to no starved state |
| MutexFairness.FairRunsCount | examples/mutex/cpp/mutex.hpp:36-62 | every fair run does so, within a bound given by its first state, if some worker is named by no affinity, every task has an affinity, or tasks with an affinity depend on nothing; the cited tasks have none |
| MutexFairness.FairRunsEnd | examples/mutex/cpp/mutex.hpp:51-54 | and nine rounds later every worker has terminated |
| MutexFairness.CounterCanFinish | examples/mutex/cpp/mutex.hpp:36-62 | from every reachable state of such a setting some run ends so |
| MutexFairness.StartSound | examples/mutex/cpp/mutex.hpp:45-54 | runs that start with all tasks added where their affinities name are of this kind; the setting is checked on the first state |
| AffineTasks.PoliteStep | include/taskr/runtime.hpp:577-580 | where tasks with an affinity depend on nothing, a worker comes to the common queue only after all tasks that name it have finished |
| AffineTasks.SuitsNeverStarves | include/taskr/runtime.hpp:577-606 | no state of a run in one of the three settings is starved |
| MutexStarvation.StarvedForever | include/taskr/runtime.hpp:577-606 | once every worker has a waiting task of its own and the owner of the mutex is in the common queue, no run without a change of affinity leaves this state |
| MutexExamples.CanStarve | include/taskr/runtime.hpp:577-606 | a run from the start comes to such a state: two workers, and two tasks with an affinity that depend on the first owner |
| MutexExamples.StarvesOn | include/taskr/runtime.hpp:577-606 | from the same start there are fair runs of any length that do not finish all tasks |
| MutexExamples.SleepsOn | include/taskr/runtime.hpp:641-669 | with two workers and a minimum of zero there are such runs although tasks with an affinity depend on nothing: one worker sleeps while the other polls in vain |
| Notices.WaitingTasks.Push | include/taskr/conditionVariable.hpp:56-59 | the flag is cleared and queued behind those that wait; no other flag changes |
| Notices.WaitingTasks.NotifyOne | include/taskr/conditionVariable.hpp:276-281 | sets the oldest flag and takes it out, or does nothing; no other flag changes |
| Notices.WaitingTasks.NotifyAll | include/taskr/conditionVariable.hpp:297-302 | sets all queued flags, no other, and empties the queue |
| Notices.NotifyEveryByOne | include/taskr/conditionVariable.hpp:297-302 | notifying the oldest until none is left is notifying all |
| ConditionVariable.MoveInv | include/taskr/conditionVariable.hpp:53-305 | every step of the four waits, the notifications and the tasks around them keeps the invariants |
| ConditionVariable.FlagQueuedOrRaised | include/taskr/conditionVariable.hpp:53-73 | a task that has released the condition mutex and is not resumed has its flag queued exactly once or already set, also beside timed waits that leave flags behind |
| ConditionVariable.NoTaskInWindow | include/taskr/conditionVariable.hpp:85-115 | while a task owns the condition mutex no other is between evaluating the predicate and sleeping |
| ConditionVariable.NotifiedInOrder | include/taskr/conditionVariable.hpp:271-285 | the flag at position k moves up by one with every notification served |
| ConditionVariable.NotifiedByNumber | include/taskr/conditionVariable.hpp:271-285 | and notification k + 1 sets it |
| Notifications.RaisedStays | include/taskr/conditionVariable.hpp:271-305 | a flag that is set stays set |
| Notifications.QueuedIsServed | include/taskr/conditionVariable.hpp:271-305 | a flag leaves the queue only by being set |
| Notifications.NotifyAllServesAll | include/taskr/conditionVariable.hpp:292-305 | a notification of all that returns has found the queue empty after its call; every flag queued between the call and then is set |
| Notifications.NotifyOneServesOne | include/taskr/conditionVariable.hpp:271-285 | a notification of one that returns has set the oldest flag and taken it out of the queue, if there was one, in one step, and has done nothing else to the flags |
| Notifications.NotifyAllMissesNobody | include/taskr/conditionVariable.hpp:292-305 | when a notification of all returns, every task that slept when it was called has been resumed since or has its flag set |
| Notifications.NoLostWakeup | include/taskr/conditionVariable.hpp:85-305 | a task owns the condition mutex, where it may change the condition, and then calls a notification of all, which returns: every task that was in a wait has been resumed since or has its flag set |
| Waits.WaitReturns | include/taskr/conditionVariable.hpp:53-264 | every wait returns only to the owner of the condition mutex; the untimed one with predicate only when its task has just found it true, the plain one only after a poll saw its flag |
| Waits.WakesAfterNotification | include/taskr/conditionVariable.hpp:63-73 | a poll of an untimed wait succeeds only after a notification has been served, in a step that is given, which took the flag of this very wait from the queue and set it |
| Waits.TimedWaitWithPredicate | include/taskr/conditionVariable.hpp:133-195 | returns true only when its task has just found the predicate true under the mutex it owns; false only after the poll that resumed it found more than the timeout passed since the call |
| Waits.DecidesInTime | include/taskr/conditionVariable.hpp:149-191 | after being resumed it returns false if and only if that poll found the time over, and evaluates the predicate otherwise |
| Waits.TimedWait | include/taskr/conditionVariable.hpp:208-264 | returns true exactly when the poll that resumed it saw the notification, at which it looks first; otherwise more than the timeout has passed |
| Waits.WaitNeedsOwner | include/taskr/conditionVariable.hpp:88-214 | a wait with predicate or timeout fails at once, changing nothing, exactly when its task does not own the condition mutex |
| WaitCalls.EvaluationDecides | include/taskr/conditionVariable.hpp:91-195 | the first and every later evaluation of the predicate is done by the owner of the condition mutex and ends the wait, with true if it is timed, if and only if the predicate is true; otherwise the task goes on to queue its flag |
| WaitCalls.SleepsOnFalse | include/taskr/conditionVariable.hpp:91-113 | a task of a wait with predicate that is between evaluating and giving up the condition mutex has found the predicate false, and it is false still |
| WaitCalls.TrueReturnsAtOnce | include/taskr/conditionVariable.hpp:91-142 | a wait with predicate called when the predicate is true returns in its first step |
| WaitCalls.WaitKeepsCall | include/taskr/conditionVariable.hpp:85-264 | a wait keeps the kind and the timeout of its call; a timed one takes the time once, at its first evaluation, or, without predicate, after it has queued its flag |
| WaitCalls.PollSucceeds | include/taskr/conditionVariable.hpp:160-241 | the poll of a sleeping task succeeds if and only if its flag is set or, in a timed wait, more than the timeout has passed in whole microseconds of a clock that counts nanoseconds |
| WaitCalls.GivesUp | include/taskr/conditionVariable.hpp:148-195 | a timed wait with predicate returns false after being resumed if and only if that poll came more than the timeout after the first evaluation, and evaluates the predicate otherwise |
| WaitCalls.PlainGivesUp | include/taskr/conditionVariable.hpp:208-264 | a timed wait without predicate returns whether the poll that resumed it saw its flag; if not, the poll came more than the timeout after the flag was queued |

## Left out

- TaskRuntime.Runtime.AddTask: the wake-up call to the owner of an affinity queue is not modelled; a worker may be asked to resume at any time (`Choice.asked`), and the proofs of progress do not use it.
- SchedulerSetup.AddedTaskKeepsSetup: a blocked task whose affinity is invalid can be added, and an affinity can be set to an invalid value, but then no invariant is claimed: the error would be raised on a worker that resumes the task.
- TaskRuntime.Runtime: the loops of the pull function and of the finish callback appear as changes of the program counter, one method per iteration, because other workers may act between any two iterations.
- SchedulerInvariant.RunInv: tasks added, and dependencies created, after the run has started.
- SchedulerAccounting.TerminatesWhenDone: after a forced termination drained tasks release no dependents, so that only the counter is claimed to be right.
- SchedulerFairness.FairRunsFinish: bodies that suspend, whose pending operations may never finish; `MutexFairness` has the suspensions of the mutex, `JacobiFairness` those of the channels.
- MutexFairness.FairRunsCount: affinities that change during the run. Unless every task has an affinity, it is also required that the workers are at most one more than the minimum of active workers, or that those named by affinities are no more than this minimum (`Turns.Awake`: always so without affinities, and with the default minimum of one for two workers); `MutexExamples.SleepsOn` shows what can happen otherwise. Which graphs outside the three settings can come to a starved state is open: `MutexExamples.CanStarve` gives one of them. Workers that never sleep, because the inactivity time is negative, are not treated apart.
- At least the minimum number of workers awake: the check and the suspension are separate steps, so two workers may both pass; the wake-up conditions are proved instead.
- Capacity of the queues and blocking pushes, services and service workers, user callbacks other than suspend and finish, life-cycle states of the runtime, JSON configuration, instrumentation.
- Dependencies that a running task adds to itself (`examples/fibonacci/cpp/fibonacci.hpp:39-48`): what happens when children finish first is decided by code that is not part of this model.
- CholeskyExecution.ScheduleComputesSequential: a failing factorization kernel (`examples/cholesky/source/cholesky.hpp:68`) and floating-point rounding; kernels are uninterpreted functions, each reading its blocks and finally storing one result.
- CholeskyFactor.FactorTimesFactor: the laws of the kernels are assumptions about whole blocks; that potrf and syrk use and write only the upper triangle of a diagonal block is left to the kernels.
- CholeskyLayout.PlainRoundTrip: 32-bit overflow of index arithmetic.
- CholeskyFairness.FairExecutionsFactorize: kernels that never end; overwriting a block under work and reading a block again do not count as going on.
- JacobiGraph.Jacobi3d: the four communication tasks of the last iteration are created but never added by the source; only the added tasks are modelled. Each task is created, wired and added before the next, so the order of a task's dependents may differ. Names are tuples: a collision of the source's hashed task names is not modelled.
- JacobiProtocol: the cells of one face or subgrid are handled in any order, of which the order of the loops is one; faces have the source's order. A task of a subgrid without remote faces does nothing and counts as done.
- JacobiTheorems.NeverDeadlocks: channels that are not yet connected; suspended send and receive tasks are steps that cannot be taken yet. In `JacobiExecution` they suspend and are polled; looking at a channel and suspending is one step there.
- JacobiFairness.FairExecutionsFinish: affinities, of which the example has none.
- JacobiTasks.ComputeTask: cell values are reals, so rounding is not modelled.
- Residual reduction, printing, OmpSs and plain MPI variants, Python bindings.
- TaskMutex.HistoryKeepsQueue: re-entrant locking, and the short internal `std::mutex`, whose critical sections are single steps here (the two assignments of unlock are separate steps in `MutexClient`).
- Notifications.NoLostWakeup: a notification of one task may be spent on the flag that a timed-out wait has left in the queue; the claim is about notifications of all. Writing to such a flag after its wait has returned is modelled as having no effect. A plain untimed wait called without owning the condition mutex fails only after it has queued its flag; the model starts such a wait as the owner.
- Waits.TimedWait: a poll that finds neither flag nor time over changes nothing and is no step of its own; that polls go on is the scheduler's part.
