/** What a step of the scheduler does to pending operations and to the tasks that workers hold, and what tasks have before them. */
module SchedulerPolling {
  import opened Scheduler
  import opened SchedulerInvariant
  import opened SchedulerTheorems

  lemma PendingStep(s: State, w: nat, c: Choice, t: nat)
    requires Basic(s) && Enabled(s, Act(w, c)) && t < |s.pending|
    ensures |WorkerStep(s, w, c).pending| == |s.pending|
    ensures WorkerStep(s, w, c).pending[t] ==
      if s.pc[w] == Polling(t) && s.pending[t] != [] && c.ok then s.pending[t][1..]
      else if s.pc[w] == Running(t) && c.suspends then s.pending[t] + c.ops
      else s.pending[t]
  {
    assert WorkerOk(s, w);
    if s.pc[w].Polling? {
      assert WorkerStep(s, w, c) == PollStep(s, w, c.ok);
    } else if s.pc[w].Running? {
      assert WorkerStep(s, w, c) == BodyStep(s, w, c.suspends, c.ops);
    }
  }

  /** A task on a worker stays there until that worker takes a step. */
  lemma OthersStay(s: State, w: nat, c: Choice, t: nat)
    requires Inv(s) && Enabled(s, Act(w, c)) && t < |s.place| && s.place[t].OnWorker? && s.place[t].w != w
    ensures t < |WorkerStep(s, w, c).place| && WorkerStep(s, w, c).place[t] == s.place[t]
  {
    StepInv(s, Act(w, c));
    assert TaskOk(s, t) && WorkerOk(WorkerStep(s, w, c), s.place[t].w);
  }

  /** Two workers do not hold the same task. */
  lemma HeldOnce(s: State, v: nat, w: nat)
    requires Basic(s) && v < |s.pc| && w < |s.pc| && HoldsSome(s.pc[v]) && HoldsSome(s.pc[w]) && Held(s.pc[v]) == Held(s.pc[w])
    ensures v == w
  {
    assert WorkerOk(s, v) && WorkerOk(s, w);
  }

  /** A worker that leaves the pull function with a task, or runs it, has seen all its pending operations finished. */
  predicate PolledOk(s: State, w: nat)
    requires w < |s.pc|
  {
    && (s.pc[w].LeaveWith? && s.pc[w].t < |s.pending| ==> s.pending[s.pc[w].t] == [])
    && (s.pc[w].Running? && s.pc[w].t < |s.pending| ==> s.pending[s.pc[w].t] == [])
  }

  lemma PolledStep(s: State, w: nat, c: Choice)
    requires Basic(s) && Enabled(s, Act(w, c))
    ensures var s' := WorkerStep(s, w, c);
      && w < |s'.pc|
      && (s'.pc[w].LeaveWith? ==> s.pc[w] == Polling(s'.pc[w].t) && s'.pc[w].t < |s.pending| && s.pending[s'.pc[w].t] == [])
      && (s'.pc[w].Running? ==> s.pc[w] == LeaveWith(s'.pc[w].t))
  {
    assert WorkerOk(s, w);
    if s.pc[w].Polling? {
      assert WorkerStep(s, w, c) == PollStep(s, w, c.ok);
    } else if s.pc[w].LeaveWith? {
      assert WorkerStep(s, w, c) == LeaveWithStep(s, w);
    }
  }

  lemma SchedulePolled(s: State, w: nat, c: Choice, v: nat)
    requires Basic(s) && Enabled(s, Act(w, c)) && v < |s.pc| && PolledOk(s, v) && PolledOk(s, w)
    ensures v < |WorkerStep(s, w, c).pc| && PolledOk(WorkerStep(s, w, c), v)
  {
    var s' := WorkerStep(s, w, c);
    PolledStep(s, w, c);
    if s'.pc[v].LeaveWith? || s'.pc[v].Running? {
      assert WorkerOk(s, v);
      PendingStep(s, w, c, s'.pc[v].t);
      if v != w && HoldsSome(s.pc[w]) && Held(s.pc[w]) == s'.pc[v].t { HeldOnce(s, v, w); }
    }
  }

  /** What a task still has to go through, its body apart. */
  function TaskWork(s: State, t: nat): nat
    requires t < |s.place|
  {
    match s.place[t]
    case Blocked => 5
    case Woken(_) => 4
    case Queued(_) => 3
    case OnWorker(w) => if w < |s.pc| && s.pc[w].Decount? then 1 else if BodyDone(s, t) then 2 else 3
    case Finished => 0
    case Absent => 0
  }

  lemma TaskWorkFalls(s: State, w: nat, c: Choice, t: nat)
    requires Inv(s) && Enabled(s, Act(w, c)) && t < |s.place|
    ensures t < |WorkerStep(s, w, c).place| && TaskWork(WorkerStep(s, w, c), t) <= TaskWork(s, t)
  {
    StepAges(s, Act(w, c), t);
    assert TaskOk(s, t);
    if s.place[t].OnWorker? && s.pc[s.place[t].w].Decount? {
      assert s.pc[s.place[t].w].t == t;
      if s.place[t].w != w { OthersStay(s, w, c, t); }
    }
  }

  /** The task that a step in a body, in the finish callback, or of a poll advances. */
  function Advanced(s: State, w: nat): nat
    requires Basic(s) && w < |s.pc|
    requires s.pc[w].Running? || s.pc[w].Releasing? || s.pc[w].Pushing? || s.pc[w].Decount? || s.pc[w].Polling?
  {
    assert WorkerOk(s, w);
    match s.pc[w]
    case Pushing(p, k) => s.g.out[p][k]
    case pc => Held(pc)
  }

  lemma EndAdvances(s: State, w: nat, c: Choice)
    requires Inv(s) && !s.force && Enabled(s, Act(w, c)) && Ends(s.pc[w]) && !Decrements(s, w)
    ensures var s', t := WorkerStep(s, w, c), Advanced(s, w);
      t < |s.place| == |s'.place| && TaskWork(s', t) < TaskWork(s, t)
  {
    assert WorkerOk(s, w) && CounterOk(s, Advanced(s, w));
  }
}
