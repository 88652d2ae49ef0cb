/** Conservation of active tasks, termination, and the wake-up of sleeping workers. */
module SchedulerAccounting {
  import opened Scheduler
  import opened SchedulerInvariant

  function BlockedTasks(s: State): set<nat> {
    set t: nat | t < |s.place| && s.place[t].Blocked?
  }

  function WokenTasks(s: State): set<nat> {
    set t: nat | t < |s.place| && s.place[t].Woken?
  }

  function HeldTasks(s: State): set<nat> {
    set t: nat | t < |s.place| && s.place[t].OnWorker?
  }

  /** The tasks in the first n ready queues. */
  function QueuedTasks(s: State, n: nat): set<nat> {
    set t: nat | t < |s.place| && s.place[t].Queued? && s.place[t].a < n
  }

  function PushingWorkers(s: State): set<nat> {
    set w: nat | w < |s.pc| && s.pc[w].Pushing?
  }

  function HoldingWorkers(s: State): set<nat> {
    set w: nat | w < |s.pc| && HoldsSome(s.pc[w])
  }

  function QueueLengths(s: State, n: nat): nat
    requires n <= |s.ready|
    decreases n
  {
    if n == 0 then 0 else QueueLengths(s, n - 1) + |s.ready[n - 1]|
  }

  lemma {:induction false} BijectionSize(ts: set<nat>, ws: set<nat>, m: map<nat, nat>)
    requires m.Keys == ts && m.Values == ws
    requires forall t, u :: t in ts && u in ts && m[t] == m[u] ==> t == u
    ensures |ts| == |ws|
    decreases ts
  {
    if ts == {} {
      assert ws == {};
    } else {
      var t :| t in ts;
      var m' := m - {t};
      assert m'.Values == ws - {m[t]} by {
        forall w | w in ws - {m[t]} ensures w in m'.Values {
          var u :| u in m && m[u] == w;
          assert u in m' && m'[u] == w;
        }
      }
      BijectionSize(ts - {t}, ws - {m[t]}, m');
    }
  }

  lemma WokenSize(s: State)
    requires Basic(s)
    ensures |WokenTasks(s)| == |PushingWorkers(s)|
  {
    forall t | t in WokenTasks(s) ensures s.place[t].w in PushingWorkers(s) && PushesTask(s, s.place[t].w, t) { assert TaskOk(s, t); }
    var m := map t | t in WokenTasks(s) :: s.place[t].w;
    forall w | w in PushingWorkers(s) ensures w in m.Values {
      assert WorkerOk(s, w);
      var t := s.g.out[s.pc[w].t][s.pc[w].k];
      assert t in m && m[t] == w;
    }
    BijectionSize(WokenTasks(s), PushingWorkers(s), m);
  }

  lemma HeldSize(s: State)
    requires Basic(s)
    ensures |HeldTasks(s)| == |HoldingWorkers(s)|
  {
    forall t | t in HeldTasks(s) ensures s.place[t].w in HoldingWorkers(s) && Holds(s.pc[s.place[t].w], t) { assert TaskOk(s, t); }
    var m := map t | t in HeldTasks(s) :: s.place[t].w;
    forall w | w in HoldingWorkers(s) ensures w in m.Values {
      assert WorkerOk(s, w);
      var t := Held(s.pc[w]);
      assert t in m && m[t] == w;
    }
    BijectionSize(HeldTasks(s), HoldingWorkers(s), m);
  }

  function Elements(q: seq<nat>): set<nat> {
    set t | t in q
  }

  lemma {:induction false} DistinctSize(q: seq<nat>)
    requires NoDuplicates(q)
    ensures |Elements(q)| == |q|
    decreases |q|
  {
    if q != [] {
      var n := |q| - 1;
      DistinctSize(q[..n]);
      assert q == q[..n] + [q[n]];
      assert Elements(q) == Elements(q[..n]) + {q[n]};
    }
  }

  lemma DisjointSum(a: set<nat>, b: set<nat>)
    requires a !! b
    ensures |a + b| == |a| + |b|
  {}

  lemma QueuedSplit(s: State, n: nat)
    requires Basic(s) && n < |s.ready|
    ensures QueuedTasks(s, n + 1) == QueuedTasks(s, n) + Elements(s.ready[n]) && QueuedTasks(s, n) !! Elements(s.ready[n])
  {
    assert QueueOk(s, n);
    forall t: nat | t < |s.place| && s.place[t] == Queued(n) ensures t in s.ready[n] { assert TaskOk(s, t); }
  }

  lemma {:induction false} QueuedSize(s: State, n: nat)
    requires Basic(s) && n <= |s.ready|
    ensures |QueuedTasks(s, n)| == QueueLengths(s, n)
    decreases n
  {
    if n == 0 {
      assert QueuedTasks(s, 0) == {};
    } else {
      QueuedSize(s, n - 1);
      QueuedSplit(s, n - 1);
      assert QueueOk(s, n - 1);
      DistinctSize(s.ready[n - 1]);
      DisjointSum(QueuedTasks(s, n - 1), Elements(s.ready[n - 1]));
    }
  }

  lemma DisjointSizes(a: set<nat>, b: set<nat>, c: set<nat>, d: set<nat>)
    requires a !! b !! c !! d
    ensures |a + b + c + d| == |a| + |b| + |c| + |d|
  {
    assert |a + b| == |a| + |b|;
    assert |a + b + c| == |a + b| + |c|;
  }

  lemma ActiveTasksSplit(s: State)
    requires Basic(s)
    ensures ActiveTasks(s) == BlockedTasks(s) + WokenTasks(s) + QueuedTasks(s, |s.ready|) + HeldTasks(s)
  {
    forall t: nat | t < |s.place| && s.place[t].Queued? ensures s.place[t].a < |s.ready| { assert TaskOk(s, t); }
  }

  /** The active task counter is the number of blocked tasks, plus the tasks about to be pushed by a worker, plus
      the lengths of all ready queues, plus the tasks that workers hold, run, suspend or finish. */
  lemma Conservation(s: State)
    requires Inv(s)
    ensures s.active == |BlockedTasks(s)| + |PushingWorkers(s)| + QueueLengths(s, |s.ready|) + |HoldingWorkers(s)|
  {
    WokenSize(s);
    HeldSize(s);
    QueuedSize(s, |s.ready|);
    var q := QueuedTasks(s, |s.ready|);
    ActiveTasksSplit(s);
    DisjointSizes(BlockedTasks(s), WokenTasks(s), q, HeldTasks(s));
  }

  /** Conservation holds in every state of every run, forced terminations included. */
  lemma RunConservation(tr: seq<State>, i: nat)
    requires IsRun(tr) && i < |tr|
    ensures |tr[i].ready| == |tr[i].pc| + 1
    ensures tr[i].active ==
      |BlockedTasks(tr[i])| + |PushingWorkers(tr[i])| + QueueLengths(tr[i], |tr[i].ready|) + |HoldingWorkers(tr[i])|
  {
    RunInv(tr, i);
    Conservation(tr[i]);
  }

  /** A worker that found the active counter at zero leaves a system without a queued, held, blocked or still
      releasing task; without a forced termination every task is finished. */
  lemma TerminatesWhenDone(tr: seq<State>, i: nat, w: nat)
    requires IsRun(tr) && i < |tr| && w < |tr[i].pc| && Leaving(tr[i].pc[w])
    ensures forall a :: 0 <= a < |tr[i].ready| ==> tr[i].ready[a] == []
    ensures forall v :: 0 <= v < |tr[i].pc| ==> !HoldsSome(tr[i].pc[v])
    ensures forall t :: 0 <= t < |tr[i].place| ==> !IsActive(tr[i].place[t])
    ensures !tr[i].force ==> forall t :: 0 <= t < |tr[i].place| ==> tr[i].place[t].Finished?
  {
    var s := tr[i];
    RunInv(tr, i);
    NothingActive(s);
  }

  lemma QueuedIsActive(s: State, a: nat)
    requires Basic(s) && a < |s.ready| && s.ready[a] != []
    ensures ActiveTasks(s) != {}
  {
    assert QueueOk(s, a);
    assert s.ready[a][0] in ActiveTasks(s);
  }

  lemma NothingActive(s: State)
    requires Inv(s) && s.active == 0
    ensures forall a :: 0 <= a < |s.ready| ==> s.ready[a] == []
    ensures forall v :: 0 <= v < |s.pc| ==> !HoldsSome(s.pc[v])
    ensures forall t :: 0 <= t < |s.place| ==> !IsActive(s.place[t])
    ensures !s.force ==> forall t :: 0 <= t < |s.place| ==> s.place[t].Finished?
  {
    assert ActiveTasks(s) == {};
    forall t | 0 <= t < |s.place| ensures !IsActive(s.place[t]) { assert t !in ActiveTasks(s); }
    forall a | 0 <= a < |s.ready| ensures s.ready[a] == [] {
      if s.ready[a] != [] { QueuedIsActive(s, a); }
    }
    forall v | 0 <= v < |s.pc| ensures !HoldsSome(s.pc[v]) { assert WorkerOk(s, v); }
  }

  /** No ready task is stranded: a sleeping worker's own queue wakes it, and when no worker is in the pull function
      every sleeping worker may wake; so do all of them once no task is active. */
  lemma NoTaskStranded(tr: seq<State>, i: nat, w: nat)
    requires IsRun(tr) && i < |tr| && w < |tr[i].pc| && tr[i].pc[w].Asleep?
    ensures |tr[i].ready| == |tr[i].pc| + 1
    ensures tr[i].ready[w] != [] ==> ResumeCheck(tr[i], w)
    ensures (forall v :: 0 <= v < |tr[i].pc| ==> !Inside(tr[i].pc[v])) ==> ResumeCheck(tr[i], w)
    ensures |InsideWorkers(tr[i])| <= tr[i].minimum ==> ResumeCheck(tr[i], w)
    ensures (forall t :: 0 <= t < |tr[i].place| ==> !IsActive(tr[i].place[t])) ==> ResumeCheck(tr[i], w)
  {
    RunInv(tr, i);
    var s := tr[i];
    if forall v :: 0 <= v < |s.pc| ==> !Inside(s.pc[v]) { assert InsideWorkers(s) == {}; }
    if forall t :: 0 <= t < |s.place| ==> !IsActive(s.place[t]) { assert ActiveTasks(s) == {}; }
  }

  /** A task is queued only in the queue its affinity names at that moment. */
  lemma QueuedWhereNamed(tr: seq<State>, i: nat, t: nat)
    requires IsRun(tr) && i + 1 < |tr| && t < |tr[i].place|
    ensures |tr[i + 1].place| == |tr[i].place| == |tr[i].affinity|
    ensures tr[i + 1].place[t].Queued? && tr[i + 1].place[t] != tr[i].place[t] ==>
              tr[i + 1].place[t].a == if tr[i].affinity[t] >= 0 then tr[i].affinity[t] else |tr[i].pc|
  {
    var l := RunLabel(tr, i);
  }

  /** A body runs only on the worker whose queue the task was pushed to, or on any if that was the common queue. */
  lemma RunsWhereQueued(tr: seq<State>, i: nat, w: nat)
    requires IsRun(tr) && i < |tr| && w < |tr[i].pc| && tr[i].pc[w].Running?
    ensures tr[i].pc[w].t < |tr[i].named|
    ensures var a := tr[i].named[tr[i].pc[w].t]; a == w || a == Common(tr[i])
  {
    RunInv(tr, i);
    assert WorkerOk(tr[i], w);
    assert AffinityOk(tr[i], tr[i].pc[w].t);
  }
}
