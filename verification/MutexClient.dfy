/**
The contended counter on the scheduler: every task repeats lock, read, write back plus one, unlock. Tasks run on the
workers of the scheduler; each access to the mutex and to the shared value is a step of its own, and a waiting task
comes back only through the scheduler, which polls whether it owns the lock.
*/
module MutexClient {
  import opened Scheduler
  import opened SchedulerInvariant
  import opened SchedulerTheorems
  import opened SchedulerAccounting
  import opened SchedulerPolling
  import opened TaskMutex

  /** Where a task is in its round. */
  datatype Point =
    | Outside            // before the call that locks
    | Enqueued           // put in the queue, its body suspends next
    | Suspended          // suspended with the pending operation "owns the lock"
    | Locked
    | HasRead(v: nat)
    | Written
    | Unlocking          // inside unlock: the owner is cleared, the next one not yet set

  datatype Client = Client(
    s: State,
    m: LockState,
    unlocking: Owner,          // the task inside unlock, which holds the internal mutex
    point: seq<Point>,
    rounds: seq<nat>,          // rounds completed
    value: nat)

  /** The pending operation of a task that waits for the lock. */
  const OWNS_LOCK: nat := 0

  datatype Move =
    | Schedule(l: Label)
    | Acquire(w: nat)
    | Resume(w: nat)
    | ReadValue(w: nat)
    | WriteValue(w: nat)
    | BeginUnlock(w: nat)
    | EndUnlock(w: nat)

  /** Worker w runs a task, which is at the given point. */
  predicate RunsAt(x: Client, w: nat, p: Point) {
    w < |x.s.pc| && x.s.pc[w].Running? && x.s.pc[w].t < |x.point| == |x.rounds| && x.point[x.s.pc[w].t] == p
  }

  ghost predicate CanMove(x: Client, rounds: nat, m: Move) {
    match m
    case Schedule(l) =>
      && Basic(x.s) && Enabled(x.s, l) && !l.ForceTermination?
      && (l.Act? ==> TaskDecides(x, rounds, l.w, l.choice))
    case Acquire(w) => RunsAt(x, w, Outside) && x.rounds[x.s.pc[w].t] < rounds && x.unlocking == Free
    case Resume(w) => RunsAt(x, w, Suspended)
    case ReadValue(w) => RunsAt(x, w, Locked)
    case WriteValue(w) => w < |x.s.pc| && x.s.pc[w].Running? && x.s.pc[w].t < |x.point| && x.point[x.s.pc[w].t].HasRead?
    case BeginUnlock(w) => RunsAt(x, w, Written) && x.unlocking == Free
    case EndUnlock(w) => RunsAt(x, w, Unlocking)
  }

  /** The choices of a scheduler step that the tasks and the mutex determine: a body suspends when its task has just been
      enqueued and ends after all rounds; the pending operation asks whether the task owns the lock. */
  predicate TaskDecides(x: Client, rounds: nat, w: nat, c: Choice)
    requires w < |x.s.pc|
  {
    && (x.s.pc[w].Running? ==>
          && x.s.pc[w].t < |x.point| == |x.rounds|
          && if c.suspends then x.point[x.s.pc[w].t] == Enqueued && c.ops == [OWNS_LOCK]
             else x.point[x.s.pc[w].t] == Outside && x.rounds[x.s.pc[w].t] == rounds)
    && (x.s.pc[w].Polling? && x.s.pc[w].t < |x.s.pending| && x.s.pending[x.s.pc[w].t] != [] ==>
          (c.ok <==> x.m.owner == OwnedBy(x.s.pc[w].t)))
  }

  ghost function DoMove(x: Client, rounds: nat, m: Move): Client
    requires CanMove(x, rounds, m)
  {
    match m
    case Schedule(l) =>
      var suspends := l.Act? && x.s.pc[l.w].Running? && l.choice.suspends;
      x.(s := Apply(x.s, l), point := if suspends then x.point[x.s.pc[l.w].t := Suspended] else x.point)
    case Acquire(w) =>
      var t := x.s.pc[w].t;
      x.(m := AcquireOrWait(x.m, t), point := x.point[t := if x.m.owner == Free then Locked else Enqueued])
    case Resume(w) => At(x, w, Locked)
    case ReadValue(w) => At(x, w, HasRead(x.value))
    case WriteValue(w) => At(x, w, Written).(value := x.point[x.s.pc[w].t].v + 1)
    case BeginUnlock(w) => At(x, w, Unlocking).(m := x.m.(owner := Free), unlocking := OwnedBy(x.s.pc[w].t))
    case EndUnlock(w) =>
      var t := x.s.pc[w].t;
      At(x, w, Outside).(m := PassOn(x.m), unlocking := Free, rounds := x.rounds[t := x.rounds[t] + 1])
  }

  function At(x: Client, w: nat, p: Point): Client
    requires w < |x.s.pc| && x.s.pc[w].Running? && x.s.pc[w].t < |x.point|
  {
    x.(point := x.point[x.s.pc[w].t := p])
  }

  function PassOn(m: LockState): LockState {
    if m.queue == [] then m else LockState(OwnedBy(m.queue[0]), m.queue[1..])
  }

  /** The two steps of unlock together are the release of the mutex. */
  lemma UnlockIsRelease(m: LockState, t: nat)
    requires m.owner == OwnedBy(t)
    ensures PassOn(m.(owner := Free)) == Release(m, t)
  {}

  // ---------------------------------------------------------------------------------------------------------
  // Invariants
  // ---------------------------------------------------------------------------------------------------------

  /** A task holds the lock, waits for it, or has nothing to do with it, as its point in the round says. */
  predicate PointOk(x: Client, t: nat)
    requires t < |x.point|
  {
    var p := x.point[t];
    && (p.Locked? || p.HasRead? || p.Written? ==> x.m.owner == OwnedBy(t))
    && (p.HasRead? ==> p.v == x.value)
    && (p.Enqueued? || p.Suspended? <==> t in x.m.queue || (x.m.owner == OwnedBy(t) && !p.Locked? && !p.HasRead? && !p.Written?))
    && (p.Unlocking? <==> x.unlocking == OwnedBy(t))
  }

  /** A suspended task has its pending operation, or this was seen true and the task owns the lock. */
  predicate PendingOk(x: Client, t: nat)
    requires t < |x.point| && t < |x.s.pending|
  {
    if x.point[t].Suspended? then x.s.pending[t] == [OWNS_LOCK] || (x.s.pending[t] == [] && x.m.owner == OwnedBy(t))
    else x.s.pending[t] == []
  }

  predicate MutexOk(x: Client) {
    && (forall i, j :: 0 <= i < j < |x.m.queue| ==> x.m.queue[i] != x.m.queue[j])
    && (forall i :: 0 <= i < |x.m.queue| ==> x.m.queue[i] < |x.point| && x.m.owner != OwnedBy(x.m.queue[i]))
    && (x.m.owner.OwnedBy? ==> x.m.owner.t < |x.point|)
    && (x.unlocking != Free ==> x.m.owner == Free && x.unlocking.t < |x.point|)
    && (x.unlocking == Free && x.m.queue != [] ==> x.m.owner != Free)
  }

  /** A task inside lock, between lock and unlock, or inside unlock is running; a suspended one is on its way back. */
  predicate RunsOk(x: Client, t: nat)
    requires t < |x.point| == |x.s.place|
  {
    match x.point[t]
    case Outside => true
    case Suspended => x.s.place[t].Queued? || x.s.place[t].OnWorker?
    case _ => x.s.place[t].OnWorker? && x.s.place[t].w < |x.s.pc| && x.s.pc[x.s.place[t].w] == Running(t)
  }

  predicate DoneOk(x: Client, rounds: nat, t: nat)
    requires t < |x.point| == |x.rounds| == |x.s.place|
  {
    && x.rounds[t] <= rounds
    && (x.point[t] != Outside ==> x.rounds[t] < rounds)
    && (BodyDone(x.s, t) ==> x.point[t] == Outside && x.rounds[t] == rounds)
  }

  /** The increments task t has written. */
  function Increments(x: Client, t: nat): nat
    requires t < |x.point| == |x.rounds|
  {
    x.rounds[t] + if x.point[t].Written? || x.point[t].Unlocking? then 1 else 0
  }

  function Total(x: Client, n: nat): nat
    requires n <= |x.point| == |x.rounds|
    decreases n
  {
    if n == 0 then 0 else Total(x, n - 1) + Increments(x, n - 1)
  }

  ghost predicate Good(x: Client, rounds: nat) {
    && Inv(x.s) && !x.s.force
    && |x.point| == |x.rounds| == |x.s.place|
    && MutexOk(x)
    && (forall t :: 0 <= t < |x.point| ==> PointOk(x, t))
    && (forall t :: 0 <= t < |x.point| ==> PendingOk(x, t))
    && (forall t :: 0 <= t < |x.point| ==> DoneOk(x, rounds, t))
    && (forall t :: 0 <= t < |x.point| ==> RunsOk(x, t))
    && (forall w :: 0 <= w < |x.s.pc| ==> PolledOk(x.s, w))
    && x.value == Total(x, |x.point|)
  }

  // ---------------------------------------------------------------------------------------------------------
  // Steps of the scheduler
  // ---------------------------------------------------------------------------------------------------------

  lemma SchedulePending(x: Client, rounds: nat, l: Label, t: nat)
    requires Good(x, rounds) && CanMove(x, rounds, Schedule(l)) && l.Act? && t < |x.point|
    ensures var x' := DoMove(x, rounds, Schedule(l)); t < |x'.s.pending| && t < |x'.point| && PendingOk(x', t)
  {
    assert PendingOk(x, t);
    PendingStep(x.s, l.w, l.choice, t);
    if x.s.pc[l.w] == Running(t) { assert PolledOk(x.s, l.w); }
  }

  lemma ScheduleDone(x: Client, rounds: nat, l: Label, t: nat)
    requires Good(x, rounds) && CanMove(x, rounds, Schedule(l)) && t < |x.point|
    ensures var x' := DoMove(x, rounds, Schedule(l)); t < |x'.s.place| == |x'.point| && DoneOk(x', rounds, t)
  {
    assert DoneOk(x, rounds, t);
    StepAges(x.s, l, t);
    if l.Act? && x.s.pc[l.w] == Running(t) && l.choice.suspends { assert WorkerOk(x.s, l.w); }
  }

  lemma ScheduleRuns(x: Client, rounds: nat, l: Label, t: nat)
    requires Good(x, rounds) && CanMove(x, rounds, Schedule(l)) && t < |x.point|
    ensures var x' := DoMove(x, rounds, Schedule(l)); t < |x'.s.place| == |x'.point| && RunsOk(x', t)
  {
    assert RunsOk(x, t) && DoneOk(x, rounds, t) && TaskOk(x.s, t);
    StepAges(x.s, l, t);
    if l.Act? && x.point[t] != Outside {
      if x.point[t] == Suspended {
        StepInv(x.s, l);
        SuspendedStays(x, rounds, l, t);
      } else if x.s.place[t].w != l.w {
        OthersStay(x.s, l.w, l.choice, t);
      } else {
        assert x.s.pc[l.w] == Running(t);
      }
    }
  }

  lemma SuspendedStays(x: Client, rounds: nat, l: Label, t: nat)
    requires Good(x, rounds) && CanMove(x, rounds, Schedule(l)) && l.Act? && t < |x.point| && x.point[t] == Suspended
    ensures var s' := Apply(x.s, l); t < |s'.place| && (s'.place[t].Queued? || s'.place[t].OnWorker?)
  {
    assert RunsOk(x, t) && DoneOk(x, rounds, t);
    StepAges(x.s, l, t);
    StepInv(x.s, l);
    assert Stage(Apply(x.s, l), t) >= 2;
  }

  lemma SamePoints(x: Client, x': Client, n: nat)
    requires n <= |x.point| == |x.rounds| == |x'.point| && x'.rounds == x.rounds
    requires forall t :: 0 <= t < n ==> Increments(x', t) == Increments(x, t)
    ensures Total(x', n) == Total(x, n)
  {}

  lemma ScheduleGood(x: Client, rounds: nat, l: Label)
    requires Good(x, rounds) && CanMove(x, rounds, Schedule(l))
    ensures Good(DoMove(x, rounds, Schedule(l)), rounds)
  {
    var x' := DoMove(x, rounds, Schedule(l));
    StepInv(x.s, l);
    forall t | 0 <= t < |x'.point|
      ensures PointOk(x', t) && PendingOk(x', t) && |x'.s.place| == |x'.point| && DoneOk(x', rounds, t) && RunsOk(x', t)
    {
      assert PointOk(x, t) && PendingOk(x, t);
      if l.Act? { SchedulePending(x, rounds, l, t); }
      ScheduleDone(x, rounds, l, t);
      ScheduleRuns(x, rounds, l, t);
    }
    forall w | 0 <= w < |x'.s.pc| ensures PolledOk(x'.s, w) {
      assert PolledOk(x.s, w);
      if l.Act? { assert PolledOk(x.s, l.w); SchedulePolled(x.s, l.w, l.choice, w); }
    }
    SamePoints(x, x', |x.point|);
  }

  // ---------------------------------------------------------------------------------------------------------
  // Steps of the tasks
  // ---------------------------------------------------------------------------------------------------------

  /** A running task is not done, has no pending operation, and a task that was suspended owns the lock again. */
  lemma RunningOk(x: Client, rounds: nat, w: nat)
    requires Good(x, rounds) && w < |x.s.pc| && x.s.pc[w].Running?
    ensures var t := x.s.pc[w].t;
      && t < |x.point| && !BodyDone(x.s, t) && x.s.pending[t] == []
      && (x.point[t].Suspended? ==> x.m.owner == OwnedBy(t))
  {
    assert WorkerOk(x.s, w) && PolledOk(x.s, w);
    assert PendingOk(x, x.s.pc[w].t);
  }

  /** A step of the task t that changes no more than its point, the mutex and the value. */
  lemma {:induction false} OneTaskMore(x: Client, x': Client, t: nat, n: nat, more: nat)
    requires t < |x.point| == |x.rounds| == |x'.point| == |x'.rounds| && n <= |x.point|
    requires forall u :: 0 <= u < |x.point| && u != t ==> x'.point[u] == x.point[u] && x'.rounds[u] == x.rounds[u]
    requires Increments(x', t) == Increments(x, t) + more
    ensures Total(x', n) == Total(x, n) + if t < n then more else 0
    decreases n
  {
    if n > 0 { OneTaskMore(x, x', t, n - 1, more); }
  }

  lemma TaskPointOk(x: Client, rounds: nat, m: Move, t: nat)
    requires Good(x, rounds) && CanMove(x, rounds, m) && !m.Schedule? && t < |x.point|
    ensures t < |DoMove(x, rounds, m).point| && PointOk(DoMove(x, rounds, m), t)
  {
    RunningOk(x, rounds, m.w);
    var u := x.s.pc[m.w].t;
    assert PointOk(x, t) && PointOk(x, u);
    if m.EndUnlock? && x.m.queue != [] {
      assert x.m.queue == [x.m.queue[0]] + x.m.queue[1..];
      assert PointOk(x, x.m.queue[0]);
    }
  }

  lemma TaskMutexOk(x: Client, rounds: nat, m: Move)
    requires Good(x, rounds) && CanMove(x, rounds, m) && !m.Schedule?
    ensures MutexOk(DoMove(x, rounds, m))
  {
    RunningOk(x, rounds, m.w);
    assert PointOk(x, x.s.pc[m.w].t);
  }

  lemma TaskPendingOk(x: Client, rounds: nat, m: Move, t: nat)
    requires Good(x, rounds) && CanMove(x, rounds, m) && !m.Schedule? && t < |x.point|
    ensures var x' := DoMove(x, rounds, m); t < |x'.point| && t < |x'.s.pending| && PendingOk(x', t)
  {
    RunningOk(x, rounds, m.w);
    assert PointOk(x, t) && PointOk(x, x.s.pc[m.w].t) && PendingOk(x, t);
  }

  lemma TaskGood(x: Client, rounds: nat, m: Move)
    requires Good(x, rounds) && CanMove(x, rounds, m) && !m.Schedule?
    ensures Good(DoMove(x, rounds, m), rounds)
  {
    var x' := DoMove(x, rounds, m);
    RunningOk(x, rounds, m.w);
    var u := x.s.pc[m.w].t;
    TaskMutexOk(x, rounds, m);
    assert WorkerOk(x.s, m.w);
    forall t | 0 <= t < |x'.point| ensures PointOk(x', t) && PendingOk(x', t) && DoneOk(x', rounds, t) && RunsOk(x', t) {
      assert RunsOk(x, t);
      TaskPointOk(x, rounds, m, t);
      TaskPendingOk(x, rounds, m, t);
      assert DoneOk(x, rounds, t);
    }
    OneTaskMore(x, x', u, |x.point|, if m.WriteValue? then 1 else 0);
    assert PointOk(x, u);
  }

  lemma MoveGood(x: Client, rounds: nat, m: Move)
    requires Good(x, rounds) && CanMove(x, rounds, m)
    ensures Good(DoMove(x, rounds, m), rounds)
  {
    if m.Schedule? { ScheduleGood(x, rounds, m.l); } else { TaskGood(x, rounds, m); }
  }
}
