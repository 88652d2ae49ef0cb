/**
The runtime and its tasks as an object. Setting a graph up is a sequence of calls; from the start on, every method
is one atomic step of one worker and is specified by the step of the scheduler's state machine.
*/
module TaskRuntime {
  import opened Scheduler
  import opened SchedulerInvariant
  import opened SchedulerSetup

  datatype Outcome = Success | InvalidAffinity

  datatype Option<T> = None | Some(value: T)

  class Runtime {
    // The tasks: vectors of dependents, in-counters, pending operations, affinities
    var outputDependencies: seq<seq<nat>>
    var dependencyCount: seq<int>
    var pendingOperations: seq<seq<nat>>
    var workerAffinity: seq<int>

    // The runtime
    var commonReadyTaskQueue: seq<nat>
    var workerReadyTaskQueue: seq<seq<nat>>
    var activeTaskCount: int
    var activeTaskWorkerCount: int
    var forceTerminate: bool
    const minimumActiveTaskWorkers: nat
    const finishOnLastTask: bool

    // Where every worker is in its code
    var position: seq<Pc>

    // History: the tasks added, where they are, and the queue they were last pushed to
    ghost var added: set<nat>
    ghost var place: seq<Place>
    ghost var named: seq<nat>

    ghost function View(): State
      reads this
    {
      State(Graph(outputDependencies), workerReadyTaskQueue + [commonReadyTaskQueue], dependencyCount,
            pendingOperations, workerAffinity, named, place, position, activeTaskCount, activeTaskWorkerCount,
            minimumActiveTaskWorkers, finishOnLastTask, forceTerminate)
    }

    // -------------------------------------------------------------------------------------------------------
    // Setting up
    // -------------------------------------------------------------------------------------------------------

    constructor (workers: nat, minimum: nat, finishOnLast: bool)
      ensures Setup(View(), added) && added == {} && View().g.out == [] && |View().pc| == workers
      ensures View().minimum == minimum && View().finishOnLast == finishOnLast
    {
      outputDependencies, dependencyCount, pendingOperations, workerAffinity := [], [], [], [];
      commonReadyTaskQueue, workerReadyTaskQueue := [], seq(workers, _ => []);
      activeTaskCount, activeTaskWorkerCount, forceTerminate := 0, 0, false;
      minimumActiveTaskWorkers, finishOnLastTask := minimum, finishOnLast;
      position := seq(workers, _ => Idle);
      added, place, named := {}, [], [];
    }

    /** Creates a task: no dependencies, not added. */
    method NewTask(affinity: int) returns (t: nat)
      requires Setup(View(), added)
      modifies this
      ensures t == Tasks(old(View())) && View() == WithNewTask(old(View()), affinity)
      ensures Setup(View(), added) && added == old(added) && t !in added
    {
      NewTaskKeepsSetup(View(), added, affinity);
      t := |outputDependencies|;
      outputDependencies := outputDependencies + [[]];
      dependencyCount := dependencyCount + [0];
      pendingOperations := pendingOperations + [[]];
      workerAffinity := workerAffinity + [affinity];
      place, named := place + [Absent], named + [0];
    }

    /** Task t will wait for task p: one more in t's counter, t at the end of p's vector of dependents. */
    method AddDependency(t: nat, p: nat)
      requires Setup(View(), added) && t < Tasks(View()) && p < Tasks(View()) && t !in added
      modifies this
      ensures View() == WithDependency(old(View()), t, p)
      ensures Setup(View(), added) && added == old(added)
    {
      DependencyKeepsSetup(View(), added, t, p);
      dependencyCount := dependencyCount[t := dependencyCount[t] + 1];
      outputDependencies := outputDependencies[p := outputDependencies[p] + [t]];
    }

    /** Queues a task whose in-counter is zero where its affinity says; leaves another one alone. */
    method ResumeTask(t: nat) returns (outcome: Outcome)
      requires t < |dependencyCount| == |workerAffinity| == |place| == |named| && |workerReadyTaskQueue| == |position|
      modifies this
      ensures outcome == InvalidAffinity <==> old(dependencyCount[t] <= 0 && workerAffinity[t] >= |position|)
      ensures outcome == InvalidAffinity ==> View() == old(View())
      ensures outcome == Success ==> View() == if old(dependencyCount[t] > 0) then old(View()) else Scheduler.ResumeTask(old(View()), t)
      ensures added == old(added)
    {
      if dependencyCount[t] > 0 { return Success; }
      if workerAffinity[t] >= |workerReadyTaskQueue| { return InvalidAffinity; }
      ghost var a := QueueOf(View(), t);
      ghost var ready := View().ready;
      if workerAffinity[t] >= 0 {
        var w := workerAffinity[t];
        workerReadyTaskQueue := workerReadyTaskQueue[w := workerReadyTaskQueue[w] + [t]];
      } else {
        commonReadyTaskQueue := commonReadyTaskQueue + [t];
      }
      assert View().ready == ready[a := ready[a] + [t]];
      place, named := place[t := Queued(a)], named[t := a];
      return Success;
    }

    /** Counts the task as active and resumes it; if it is ready and has an invalid affinity, it stays counted. The affinity of
        a task with dependencies is not looked at. */
    method AddTask(t: nat) returns (outcome: Outcome)
      requires t < |dependencyCount| == |workerAffinity| == |place| == |named| && |workerReadyTaskQueue| == |position|
      modifies this
      ensures outcome == InvalidAffinity <==> old(dependencyCount[t] <= 0 && workerAffinity[t] >= |position|)
      ensures outcome == InvalidAffinity ==> View() == old(View()).(active := old(activeTaskCount) + 1)
      ensures outcome == Success ==> View() == WithAddedTask(old(View()), t)
      ensures added == if outcome == Success then old(added) + {t} else old(added)
    {
      activeTaskCount := activeTaskCount + 1;
      if dependencyCount[t] > 0 { place := place[t := Blocked]; }
      outcome := ResumeTask(t);
      if outcome == Success { added := added + {t}; }
    }

    // -------------------------------------------------------------------------------------------------------
    // The atomic steps of a worker
    // -------------------------------------------------------------------------------------------------------

    method EnterLoop(w: nat)
      requires Basic(View()) && w < |position| && position[w].Idle?
      modifies this
      ensures View() == Enter(old(View()), w)
    {
      activeTaskWorkerCount := activeTaskWorkerCount + 1;
      position := position[w := if forceTerminate then DrainCommon else PopOwn];
    }

    /** Pops the oldest task of the worker's own queue or of the common one. */
    method PopFrom(w: nat, own: bool) returns (task: Option<nat>)
      requires w < |position| == |workerReadyTaskQueue|
      modifies this`workerReadyTaskQueue, this`commonReadyTaskQueue
      ensures var a := if own then w else |position|;
        var q := old(View()).ready[a];
        && task == (if q == [] then None else Some(q[0]))
        && View() == old(View()).(ready := if q == [] then old(View()).ready else old(View()).ready[a := q[1..]])
    {
      var q := if own then workerReadyTaskQueue[w] else commonReadyTaskQueue;
      if q == [] { return None; }
      if own {
        workerReadyTaskQueue := workerReadyTaskQueue[w := q[1..]];
      } else {
        commonReadyTaskQueue := q[1..];
      }
      assert View().ready == old(View()).ready[if own then w else |position| := q[1..]];
      return Some(q[0]);
    }

    method PopTask(w: nat)
      requires Basic(View()) && w < |position| && (position[w].PopOwn? || position[w].PopCommon?)
      modifies this
      ensures View() == PopStep(old(View()), w)
    {
      assert QueueOk(View(), w) && QueueOk(View(), |position|);
      var own := position[w].PopOwn?;
      var task := PopFrom(w, own);
      if task.Some? {
        place := place[task.value := OnWorker(w)];
        position := position[w := Polling(task.value)];
      } else {
        position := position[w := if own then PopCommon else NoTask];
      }
    }

    method DrainTask(w: nat)
      requires Basic(View()) && w < |position| && (position[w].DrainOwn? || position[w].DrainCommon?)
      modifies this
      ensures View() == DrainStep(old(View()), w)
    {
      assert QueueOk(View(), w) && QueueOk(View(), |position|);
      var own := position[w].DrainOwn?;
      var task := PopFrom(w, own);
      if task.Some? {
        place := place[task.value := OnWorker(w)];
        position := position[w := Discard(task.value, !own)];
      } else {
        position := position[w := if own then PopOwn else DrainOwn];
      }
    }

    method DiscardTask(w: nat)
      requires Basic(View()) && w < |position| && position[w].Discard?
      modifies this
      ensures View() == DiscardStep(old(View()), w)
    {
      assert WorkerOk(View(), w);
      activeTaskCount := activeTaskCount - 1;
      place := place[position[w].t := Absent];
      position := position[w := if position[w].common then DrainCommon else DrainOwn];
    }

    /** Runs the checker of the first pending operation, whose result is given. */
    method PollOperation(w: nat, finished: bool)
      requires Basic(View()) && w < |position| && position[w].Polling?
      modifies this
      ensures View() == PollStep(old(View()), w, finished)
    {
      assert WorkerOk(View(), w);
      var t := position[w].t;
      if pendingOperations[t] == [] {
        position := position[w := LeaveWith(t)];
      } else if finished {
        pendingOperations := pendingOperations[t := pendingOperations[t][1..]];
      } else {
        position := position[w := Requeue(t)];
      }
    }

    /** Pushes task t, whose in-counter is zero; its affinity is a valid one. */
    method PushReady(t: nat)
      requires Inv(View()) && t < |place| && !place[t].Blocked?
      modifies this
      ensures View() == Scheduler.ResumeTask(old(View()), t)
    {
      assert CounterOk(View(), t);
      assert View().affinity[t] == workerAffinity[t];
      var outcome := ResumeTask(t);
    }

    method RequeueTask(w: nat)
      requires Inv(View()) && w < |position| && position[w].Requeue?
      modifies this
      ensures View() == RequeueStep(old(View()), w)
    {
      assert WorkerOk(View(), w);
      PushReady(position[w].t);
      position := position[w := NoTask];
    }

    method LeaveLoop(w: nat)
      requires Basic(View()) && w < |position| && (position[w].LeaveWith? || position[w].LeaveEmpty?)
      modifies this
      ensures View() == WorkerStep(old(View()), w, Choice(true, true, true, false, []))
    {
      activeTaskWorkerCount := activeTaskWorkerCount - 1;
      var pc := position[w];
      position := position[w := if pc.LeaveWith? then Running(pc.t)
                                else if pc.stop then Stopped else if pc.sleep then Asleep else Idle];
    }

    /** Decides whether the worker goes to sleep; `expired` says whether its fail streak is long enough. */
    method CheckTaskWorkerSuspension(w: nat, expired: bool)
      requires Basic(View()) && w < |position| && position[w].NoTask?
      modifies this
      ensures View() == SuspensionStep(old(View()), w, expired)
    {
      var sleep := expired && activeTaskWorkerCount > minimumActiveTaskWorkers;
      position := position[w := Pc.CheckTermination(sleep)];
    }

    method CheckTermination(w: nat)
      requires Basic(View()) && w < |position| && position[w].CheckTermination?
      modifies this
      ensures View() == TerminationStep(old(View()), w)
    {
      var stop := finishOnLastTask && activeTaskCount == 0;
      position := position[w := LeaveEmpty(position[w].sleep, stop)];
    }

    /** The condition on which a suspended worker resumes; `asked` says whether it was asked to explicitly. */
    method CheckResumeWorker(w: nat, asked: bool) returns (resumes: bool)
      requires Basic(View()) && w < |position|
      ensures resumes <==> asked || ResumeCheck(View(), w)
    {
      assert View().ready[w] == workerReadyTaskQueue[w];
      if activeTaskWorkerCount <= minimumActiveTaskWorkers { return true; }
      if asked { return true; }
      if activeTaskCount == 0 { return true; }
      if workerReadyTaskQueue[w] != [] { return true; }
      return false;
    }

    method WakeUp(w: nat, asked: bool) returns (resumes: bool)
      requires Basic(View()) && w < |position| && position[w].Asleep?
      modifies this
      ensures resumes <==> asked || ResumeCheck(old(View()), w)
      ensures View() == (if resumes then Goto(old(View()), w, Idle) else old(View()))
    {
      resumes := CheckResumeWorker(w, asked);
      if resumes {
        position := position[w := Idle];
      }
    }

    /** The body of the task the worker runs suspends, having added these pending operations. */
    method SuspendBody(w: nat, operations: seq<nat>)
      requires Basic(View()) && w < |position| && position[w].Running?
      modifies this
      ensures View() == BodyStep(old(View()), w, true, operations)
    {
      assert WorkerOk(View(), w);
      var t := position[w].t;
      pendingOperations := pendingOperations[t := pendingOperations[t] + operations];
      position := position[w := Yielded(t)];
    }

    /** The suspend callback puts the task back into a ready queue. */
    method OnTaskSuspend(w: nat)
      requires Inv(View()) && w < |position| && position[w].Yielded?
      modifies this
      ensures View() == SuspendCallbackStep(old(View()), w)
    {
      assert WorkerOk(View(), w);
      PushReady(position[w].t);
      position := position[w := Idle];
    }

    method FinishBody(w: nat)
      requires Basic(View()) && w < |position| && position[w].Running?
      modifies this
      ensures View() == BodyStep(old(View()), w, false, [])
    {
      assert WorkerOk(View(), w);
      position := position[w := Releasing(position[w].t, 0)];
    }

    /** Lowers the in-counter of the next dependent, or finds that there is none left. */
    method DecrementNext(w: nat)
      requires Basic(View()) && w < |position| && position[w].Releasing?
      modifies this
      ensures View() == ReleaseStep(old(View()), w)
    {
      assert WorkerOk(View(), w);
      var t, k := position[w].t, position[w].k;
      if k == |outputDependencies[t]| {
        position := position[w := Decount(t)];
        return;
      }
      var d := outputDependencies[t][k];
      dependencyCount := dependencyCount[d := dependencyCount[d] - 1];
      if dependencyCount[d] == 0 {
        place := place[d := Woken(w)];
        position := position[w := Pushing(t, k)];
      } else {
        position := position[w := Releasing(t, k + 1)];
      }
    }

    method PushDependent(w: nat)
      requires Inv(View()) && w < |position| && position[w].Pushing?
      modifies this
      ensures View() == PushStep(old(View()), w)
    {
      assert WorkerOk(View(), w);
      var t, k := position[w].t, position[w].k;
      PushReady(outputDependencies[t][k]);
      position := position[w := Releasing(t, k + 1)];
    }

    method DecreaseActive(w: nat)
      requires Basic(View()) && w < |position| && position[w].Decount?
      modifies this
      ensures View() == DecountStep(old(View()), w)
    {
      assert WorkerOk(View(), w);
      activeTaskCount := activeTaskCount - 1;
      place := place[position[w].t := Finished];
      position := position[w := Idle];
    }

    method ForceTermination()
      requires Basic(View())
      modifies this
      ensures View() == old(View()).(force := true)
    {
      forceTerminate := true;
    }

    method SetWorkerAffinity(t: nat, affinity: int)
      requires t < |workerAffinity|
      modifies this
      ensures View() == old(View()).(affinity := old(workerAffinity)[t := affinity])
    {
      workerAffinity := workerAffinity[t := affinity];
    }
  }
}
