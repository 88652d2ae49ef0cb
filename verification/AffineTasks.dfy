/**
Settings in which the contended counter is never starved: some worker is named by no affinity, or every task has an
affinity, or the tasks with an affinity depend on nothing. All three can be checked before the run.
*/
module AffineTasks {
  import opened Scheduler
  import opened SchedulerInvariant
  import opened SchedulerTheorems
  import opened Turns
  import opened TaskMutex
  import opened MutexClient
  import opened MutexStarvation
  import MutexProgress
  import MutexRuns

  /** A task with an affinity depends on nothing. */
  predicate AffineFirst(s: State) {
    forall p, k :: 0 <= p < |s.g.out| && 0 <= k < |s.g.out[p]| && s.g.out[p][k] < |s.affinity| ==> s.affinity[s.g.out[p][k]] < 0
  }

  predicate SomeoneUnnamed(s: State) { exists w :: 0 <= w < |s.pc| && !IsNamed(s, w) }

  /** What can be checked before the run. */
  predicate Setting(s: State) { SomeoneUnnamed(s) || AllOwn(s) || AffineFirst(s) }

  // ---------------------------------------------------------------------------------------------------------
  // Where tasks with an affinity depend on nothing, a worker does its own tasks first
  // ---------------------------------------------------------------------------------------------------------

  /** All tasks of worker w are finished. */
  predicate IsFree(s: State, w: nat) {
    forall t :: 0 <= t < |s.affinity| && t < |s.place| && s.affinity[t] == w ==> s.place[t].Finished?
  }

  /** A worker looks at the common queue only when all its own tasks are finished. */
  predicate Polite(s: State) {
    && (forall w :: 0 <= w < |s.pc| && s.pc[w].PopCommon? ==> IsFree(s, w))
    && (forall t :: 0 <= t < |s.affinity| && t < |s.place| && s.affinity[t] < 0 && s.place[t].OnWorker? ==> IsFree(s, s.place[t].w))
  }

  lemma FinishedStays(s: State, w: nat, c: Choice, t: nat)
    requires Inv(s) && !s.force && Enabled(s, Act(w, c)) && t < |s.place| && s.place[t].Finished?
    ensures t < |WorkerStep(s, w, c).place| && WorkerStep(s, w, c).place[t].Finished?
  {
    StepAges(s, Act(w, c), t);
    StepInv(s, Act(w, c));
  }

  lemma FreeStays(s: State, w: nat, c: Choice, v: nat)
    requires Inv(s) && !s.force && Enabled(s, Act(w, c)) && IsFree(s, v)
    ensures IsFree(WorkerStep(s, w, c), v)
  {
    var s' := WorkerStep(s, w, c);
    AffinityStays(s, w, c);
    forall t | 0 <= t < |s'.affinity| && t < |s'.place| && s'.affinity[t] == v ensures s'.place[t].Finished? { FinishedStays(s, w, c, t); }
  }

  /** A worker that finds its own queue empty, and holds no task, has no task left that is not finished. */
  lemma EmptyMeansFree(s: State, w: nat)
    requires Inv(s) && !s.force && Orderly(s) && AffineFirst(s) && w < |s.pc| && s.ready[w] == [] && !HoldsSome(s.pc[w])
    ensures IsFree(s, w)
  {
    forall t | 0 <= t < |s.affinity| && t < |s.place| && s.affinity[t] == w ensures s.place[t].Finished? {
      assert AtHome(s, t) && AffinityOk(s, t) && TaskOk(s, t) && CounterOk(s, t);
      NoPredecessors(s, t);
    }
  }

  lemma NoPredecessors(s: State, t: nat)
    requires Shape(s) && AffineFirst(s) && t < |s.affinity| && s.affinity[t] >= 0
    ensures Unreleased(s, t) == {} && !(exists w: nat :: w < |s.pc| && PushesTask(s, w, t))
  {}

  lemma PoliteStep(s: State, w: nat, c: Choice)
    requires Inv(s) && !s.force && Orderly(s) && Polite(s) && AffineFirst(s) && Enabled(s, Act(w, c))
    ensures Polite(WorkerStep(s, w, c))
  {
    var s' := WorkerStep(s, w, c);
    AffinityStays(s, w, c);
    forall v | 0 <= v < |s'.pc| && s'.pc[v].PopCommon? ensures IsFree(s', v) {
      if v == w {
        ComesToCommon(s, w, c);
        EmptyMeansFree(s, w);
      }
      FreeStays(s, w, c, v);
    }
    forall t | 0 <= t < |s'.affinity| && t < |s'.place| && s'.affinity[t] < 0 && s'.place[t].OnWorker? ensures IsFree(s', s'.place[t].w) {
      StepComes(s, w, c, t);
      assert AtHome(s, t) && AffinityOk(s, t) && TaskOk(s, t) && !Draining(s.pc[w]);
      FreeStays(s, w, c, s'.place[t].w);
    }
  }

  // ---------------------------------------------------------------------------------------------------------
  // The counter is not starved
  // ---------------------------------------------------------------------------------------------------------

  predicate SomeoneFree(s: State) { exists w :: 0 <= w < |s.pc| && IsFree(s, w) }

  /** A task without an affinity that has begun left a worker free. */
  predicate BegunLeavesFree(x: Client) {
    && |x.point| == |x.s.affinity|
    && ((exists t :: 0 <= t < |x.point| && x.point[t] != Outside && x.s.affinity[t] < 0) ==> SomeoneFree(x.s))
  }

  /** What holds in every state of a run in such a setting. */
  ghost predicate Suits(x: Client) {
    SomeoneUnnamed(x.s) || AllOwn(x.s) || (AffineFirst(x.s) && Polite(x.s) && BegunLeavesFree(x))
  }

  lemma StartSuits(x: Client)
    requires MutexRuns.Start(x) && Setting(x.s)
    ensures Suits(x)
  {
    forall t | 0 <= t < |x.s.place| ensures !x.s.place[t].OnWorker? { assert x.s.place[t].Blocked? || x.s.place[t].Queued?; }
    forall w | 0 <= w < |x.s.pc| ensures x.s.pc[w] == Idle {}
  }

  lemma SuitsNeverStarves(x: Client, rounds: nat)
    requires Good(x, rounds) && Suits(x)
    ensures !Starves(x)
  {
    forall o, guards ensures !Starved(x, o, guards) { NotStarved(x, rounds, o, guards); }
  }

  lemma NotStarved(x: Client, rounds: nat, o: nat, guards: seq<nat>)
    requires Good(x, rounds) && Suits(x)
    ensures !Starved(x, o, guards)
  {
    if |guards| == |x.s.pc| {
      if w :| 0 <= w < |x.s.pc| && !IsNamed(x.s, w) {
        assert !Guarded(x, o, w, guards[w]);
      } else if !AllOwn(x.s) && o < |x.point| && x.s.affinity[o] < 0 {
        assert PointOk(x, o);
        if w :| 0 <= w < |x.s.pc| && IsFree(x.s, w) { assert !Guarded(x, o, w, guards[w]); }
      }
    }
  }

  lemma SomeoneStaysFree(s: State, w: nat, c: Choice)
    requires Inv(s) && !s.force && Enabled(s, Act(w, c)) && SomeoneFree(s)
    ensures SomeoneFree(WorkerStep(s, w, c))
  {
    var v :| 0 <= v < |s.pc| && IsFree(s, v);
    FreeStays(s, w, c, v);
  }

  lemma UnnamedStays(s: State, w: nat, c: Choice)
    requires Basic(s) && Enabled(s, Act(w, c)) && SomeoneUnnamed(s)
    ensures SomeoneUnnamed(WorkerStep(s, w, c))
  {
    AffinityStays(s, w, c);
    var v :| 0 <= v < |s.pc| && !IsNamed(s, v);
    assert !IsNamed(WorkerStep(s, w, c), v);
  }

  lemma ScheduleSuits(x: Client, rounds: nat, l: Label)
    requires Good(x, rounds) && Orderly(x.s) && Suits(x) && l.Act? && CanMove(x, rounds, Schedule(l))
    ensures Suits(DoMove(x, rounds, Schedule(l)))
  {
    var x', w, c := DoMove(x, rounds, Schedule(l)), l.w, l.choice;
    AffinityStays(x.s, w, c);
    if SomeoneUnnamed(x.s) {
      UnnamedStays(x.s, w, c);
    } else if !AllOwn(x.s) {
      PoliteStep(x.s, w, c);
      if SomeoneFree(x.s) { SomeoneStaysFree(x.s, w, c); }
      else { NobodyBegins(x, rounds, l); }
    }
  }

  /** Only a task that has begun suspends. */
  lemma NobodyBegins(x: Client, rounds: nat, l: Label)
    requires Good(x, rounds) && l.Act? && CanMove(x, rounds, Schedule(l))
    ensures var x' := DoMove(x, rounds, Schedule(l));
      |x'.point| == |x.point| && forall t :: 0 <= t < |x.point| && x'.point[t] != Outside ==> x.point[t] != Outside
  {}

  /** A task without an affinity that runs is on a worker that is free. */
  lemma TaskSuits(x: Client, rounds: nat, m: Move)
    requires Good(x, rounds) && Suits(x) && !m.Schedule? && CanMove(x, rounds, m)
    ensures Suits(DoMove(x, rounds, m))
  {
    RunningOk(x, rounds, m.w);
    assert WorkerOk(x.s, m.w);
    var x', t := DoMove(x, rounds, m), x.s.pc[m.w].t;
    if !SomeoneUnnamed(x.s) && !AllOwn(x.s) && x.s.affinity[t] < 0 { assert IsFree(x.s, m.w); }
  }

  lemma MoveSuits(x: Client, x': Client, w: int, rounds: nat, workers: nat, rank: seq<nat>)
    requires MutexProgress.Sound(x, rounds, workers, rank) && Suits(x) && MutexProgress.GoesOn(rounds, x, x', w)
    ensures Suits(x')
  {
    if !(w < 0 && x' == x) {
      var m :| MutexProgress.MovesTo(x, rounds, x', w, m);
      if m.Schedule? { ScheduleSuits(x, rounds, m.l); } else { TaskSuits(x, rounds, m); }
    }
  }
}
