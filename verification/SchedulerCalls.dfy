/** One call of the pull function: in which order it looks for a task, and what becomes of the worker that finds none. */
module SchedulerCalls {
  import opened Scheduler
  import opened SchedulerInvariant
  import opened SchedulerTermination

  // ---------------------------------------------------------------------------------------------------------
  // Looking for a task
  // ---------------------------------------------------------------------------------------------------------

  predicate AtPc(tr: seq<State>, k: nat, w: nat, pc: Pc)
    requires k < |tr|
  {
    w < |tr[k].pc| && tr[k].pc[w] == pc
  }

  predicate InCall(tr: seq<State>, l: nat, w: nat)
    requires l < |tr|
  {
    w < |tr[l].pc| && Inside(tr[l].pc[w])
  }

  lemma PopMove(s: State, w: nat, c: Choice)
    requires Basic(s) && Enabled(s, Act(w, c)) && (s.pc[w].PopOwn? || s.pc[w].PopCommon?)
    ensures var s', a := WorkerStep(s, w, c), if s.pc[w].PopOwn? then w else |s.pc|;
      && |s'.pc| == |s.pc|
      && if s.ready[a] == [] then s'.ready == s.ready && s'.pc[w] == if s.pc[w].PopOwn? then PopCommon else NoTask
         else s'.ready == s.ready[a := s.ready[a][1..]] && s'.pc[w] == Polling(s.ready[a][0])
  {}

  lemma CommonComesSecond(s: State, w: nat, c: Choice)
    requires Basic(s) && Enabled(s, Act(w, c)) && w < |WorkerStep(s, w, c).pc| && WorkerStep(s, w, c).pc[w].PopCommon?
    ensures s.pc[w].PopOwn? && s.ready[w] == []
  {}

  /** A worker looks into the common queue only after it has found its own queue empty in the same call. */
  lemma {:induction false} OwnQueueFirst(tr: seq<State>, k: nat, w: nat) returns (j: nat)
    requires IsRun(tr) && k < |tr| && w < |tr[k].pc| && tr[k].pc[w].PopCommon?
    ensures j < k && AtPc(tr, j, w, PopOwn) && w < |tr[j].ready| && tr[j].ready[w] == []
    ensures forall l :: j < l <= k ==> AtPc(tr, l, w, PopCommon)
    decreases k
  {
    j := 0;
    if k > 0 {
      SettingsStay(tr, k - 1, k);
      var c := WorkerMoves(tr, k - 1, w);
      if tr[k - 1].pc[w].PopCommon? { j := OwnQueueFirst(tr, k - 1, w); } else {
        CommonComesSecond(tr[k - 1], w, c);
        j := k - 1;
      }
    }
  }

  /** How far a call has come: emptying the queues, looking into one queue after the other, polling a task, and then either leaving
      with it or finding none. */
  function CallRank(pc: Pc): nat {
    match pc
    case DrainCommon => 1
    case DrainOwn => 2
    case Discard(_, common) => if common then 1 else 2
    case PopOwn => 3
    case PopCommon => 4
    case Polling(_) => 5
    case LeaveWith(_) => 6
    case Requeue(_) => 6
    case NoTask => 7
    case CheckTermination(_) => 8
    case LeaveEmpty(_, _) => 9
    case _ => 0
  }

  lemma ForwardMove(s: State, w: nat, c: Choice)
    requires Basic(s) && Enabled(s, Act(w, c)) && Inside(s.pc[w])
    ensures w < |WorkerStep(s, w, c).pc|
    ensures var pc, pc' := s.pc[w], WorkerStep(s, w, c).pc[w];
      Inside(pc') ==> CallRank(pc) <= CallRank(pc') && (pc.Polling? && 5 <= CallRank(pc') <= 6 ==> Held(pc') == pc.t)
  {}

  /** A call never goes back, so it takes at most one task that is not dropped: the one that it polls. */
  lemma {:induction false} CallGoesForward(tr: seq<State>, j: nat, k: nat, w: nat)
    requires IsRun(tr) && j <= k < |tr| && forall l :: j <= l <= k ==> InCall(tr, l, w)
    ensures InCall(tr, j, w) && InCall(tr, k, w) && CallRank(tr[j].pc[w]) <= CallRank(tr[k].pc[w])
    ensures 5 <= CallRank(tr[j].pc[w]) && CallRank(tr[k].pc[w]) <= 6 ==> Held(tr[k].pc[w]) == Held(tr[j].pc[w])
    decreases k
  {
    assert InCall(tr, j, w) && InCall(tr, k, w);
    if j < k {
      CallGoesForward(tr, j, k - 1, w);
      var c := WorkerMoves(tr, k - 1, w);
      if tr[k].pc[w] != tr[k - 1].pc[w] { ForwardMove(tr[k - 1], w, c); }
    }
  }

  // ---------------------------------------------------------------------------------------------------------
  // Finding none
  // ---------------------------------------------------------------------------------------------------------

  lemma EmptyMove(s: State, w: nat, c: Choice)
    requires Basic(s) && Enabled(s, Act(w, c)) && (s.pc[w].NoTask? || s.pc[w].CheckTermination? || s.pc[w].LeaveEmpty?)
    ensures var s' := WorkerStep(s, w, c);
      && |s'.pc| == |s.pc|
      && match s.pc[w]
         case NoTask => s'.pc[w] == CheckTermination(c.expired && s.inside > s.minimum)
         case CheckTermination(sleep) => s'.pc[w] == LeaveEmpty(sleep, s.finishOnLast && s.active == 0)
         case LeaveEmpty(sleep, stop) => s'.pc[w] == if stop then Stopped else if sleep then Asleep else Idle
         case _ => true
  {}

  /** The call of worker w that has found no task at j goes on, at k, with what was decided: to sleep or not, at j, and, once it has
      looked at m whether the runtime is to terminate, to stop or not. */
  ghost predicate GoesOnEmpty(tr: seq<State>, j: nat, k: nat, w: nat, sleep: bool, m: nat) {
    && j < k < |tr|
    && (|| AtPc(tr, k, w, CheckTermination(sleep))
        || (j < m < k && w < |tr[m].pc| && tr[m].pc[w].CheckTermination? && AtPc(tr, k, w, LeaveEmpty(sleep, tr[m].finishOnLast && tr[m].active == 0))))
  }

  lemma EmptyStep(tr: seq<State>, j: nat, k: nat, w: nat, sleep: bool, m: nat) returns (m': nat)
    requires IsRun(tr) && k + 1 < |tr| && GoesOnEmpty(tr, j, k, w, sleep, m) && InCall(tr, k + 1, w)
    ensures GoesOnEmpty(tr, j, k + 1, w, sleep, m')
  {
    var d := WorkerMoves(tr, k, w);
    m' := m;
    if tr[k + 1].pc[w] != tr[k].pc[w] {
      EmptyMove(tr[k], w, d);
      m' := k;
    }
  }

  lemma {:induction false} EmptyGoesOn(tr: seq<State>, j: nat, k: nat, w: nat, c: Choice) returns (m: nat)
    requires IsRun(tr) && j < k < |tr| && StepsBy(tr, j, w, c) && tr[j].pc[w].NoTask?
    requires forall l :: j < l <= k ==> InCall(tr, l, w)
    ensures GoesOnEmpty(tr, j, k, w, c.expired && tr[j].inside > tr[j].minimum, m)
    decreases k
  {
    m := 0;
    if k == j + 1 { EmptyMove(tr[j], w, c); } else {
      m := EmptyGoesOn(tr, j, k - 1, w, c);
      m := EmptyStep(tr, j, k - 1, w, c.expired && tr[j].inside > tr[j].minimum, m);
    }
  }

  /** A worker whose call has found no task stops if the runtime is to finish with the last task and none is active; otherwise it
      goes to sleep if it has found none for too long and more workers than the minimum are active, and else it calls again. */
  lemma CallFindsNothing(tr: seq<State>, j: nat, k: nat, w: nat, c: Choice) returns (m: nat)
    requires IsRun(tr) && j < k && k + 1 < |tr| && StepsBy(tr, j, w, c) && tr[j].pc[w].NoTask?
    requires (forall l :: j < l <= k ==> InCall(tr, l, w)) && w < |tr[k + 1].pc| && !Inside(tr[k + 1].pc[w])
    ensures j < m < k && w < |tr[m].pc| && tr[m].pc[w].CheckTermination?
    ensures tr[k + 1].pc[w] == if tr[m].finishOnLast && tr[m].active == 0 then Stopped
                               else if c.expired && tr[j].inside > tr[j].minimum then Asleep else Idle
  {
    m := EmptyGoesOn(tr, j, k, w, c);
    var d := WorkerMoves(tr, k, w);
    EmptyMove(tr[k], w, d);
  }

  // ---------------------------------------------------------------------------------------------------------
  // Stopping, sleeping, waking up
  // ---------------------------------------------------------------------------------------------------------

  lemma StopMove(s: State, w: nat, c: Choice)
    requires Basic(s) && Enabled(s, Act(w, c)) && w < |WorkerStep(s, w, c).pc|
    requires Leaving(WorkerStep(s, w, c).pc[w]) && !Leaving(s.pc[w])
    ensures s.finishOnLast && s.active == 0
  {}

  /** A worker stops only when the runtime is to finish with the last task, and no task is active. */
  lemma {:induction false} StopsOnlyWhenDone(tr: seq<State>, k: nat, w: nat)
    requires IsRun(tr) && k < |tr| && w < |tr[k].pc| && Leaving(tr[k].pc[w])
    ensures tr[k].finishOnLast && tr[k].active == 0
    decreases k
  {
    RunInv(tr, k);
    if k > 0 {
      SettingsStay(tr, k - 1, k);
      var c := WorkerMoves(tr, k - 1, w);
      if Leaving(tr[k - 1].pc[w]) { StopsOnlyWhenDone(tr, k - 1, w); } else { StopMove(tr[k - 1], w, c); }
    }
  }

  predicate ToSleep(pc: Pc) { (pc.CheckTermination? && pc.sleep) || (pc.LeaveEmpty? && pc.sleep) || pc.Asleep? }

  lemma SleepMove(s: State, w: nat, c: Choice)
    requires Basic(s) && Enabled(s, Act(w, c)) && w < |WorkerStep(s, w, c).pc| && ToSleep(WorkerStep(s, w, c).pc[w]) && !ToSleep(s.pc[w])
    ensures s.pc[w].NoTask? && c.expired && s.inside > s.minimum
  {
    if !Searches(s.pc[w]) { TaskAwake(s, w, c); }
    else if s.pc[w].NoTask? || s.pc[w].CheckTermination? || s.pc[w].LeaveEmpty? { EmptyMove(s, w, c); }
    else { SearchAwake(s, w, c); }
  }

  lemma TaskAwake(s: State, w: nat, c: Choice)
    requires Basic(s) && Enabled(s, Act(w, c)) && !Searches(s.pc[w])
    ensures w < |WorkerStep(s, w, c).pc| && !ToSleep(WorkerStep(s, w, c).pc[w])
  {}

  lemma SearchAwake(s: State, w: nat, c: Choice)
    requires Basic(s) && Enabled(s, Act(w, c)) && Searches(s.pc[w]) && !ToSleep(s.pc[w])
    requires !s.pc[w].NoTask? && !s.pc[w].CheckTermination? && !s.pc[w].LeaveEmpty?
    ensures w < |WorkerStep(s, w, c).pc| && !ToSleep(WorkerStep(s, w, c).pc[w])
  {}

  /** A worker sleeps only after its latest call has found no task for too long while more workers than the minimum were active. */
  lemma {:induction false} SleepsOnlyWhenIdle(tr: seq<State>, k: nat, w: nat) returns (j: nat, c: Choice)
    requires IsRun(tr) && k < |tr| && w < |tr[k].pc| && ToSleep(tr[k].pc[w])
    ensures j < k && StepsBy(tr, j, w, c) && tr[j].pc[w].NoTask? && c.expired && tr[j].inside > tr[j].minimum
    ensures forall l :: j < l <= k ==> w < |tr[l].pc| && ToSleep(tr[l].pc[w])
    decreases k
  {
    j, c := 0, NO_CHOICE;
    if k > 0 {
      SettingsStay(tr, k - 1, k);
      var d := WorkerMoves(tr, k - 1, w);
      if ToSleep(tr[k - 1].pc[w]) { j, c := SleepsOnlyWhenIdle(tr, k - 1, w); } else {
        SleepMove(tr[k - 1], w, d);
        j, c := k - 1, d;
      }
    }
  }

  lemma {:induction false} WorkersBelow(n: nat, ws: set<nat>)
    requires forall w :: w in ws ==> w < n
    ensures |ws| <= n
    decreases n
  {
    if n > 0 {
      WorkersBelow(n - 1, ws - {n - 1});
    } else {
      assert ws == {};
    }
  }

  /** With no more workers than the minimum, none ever sleeps. */
  lemma MinimumStaysAwake(tr: seq<State>, k: nat, w: nat)
    requires IsRun(tr) && k < |tr| && w < |tr[k].pc| && |tr[k].pc| <= tr[k].minimum
    ensures !tr[k].pc[w].Asleep?
  {
    if tr[k].pc[w].Asleep? {
      var j, c := SleepsOnlyWhenIdle(tr, k, w);
      RunInv(tr, j);
      SettingsStay(tr, j, k);
      WorkersBelow(|tr[j].pc|, InsideWorkers(tr[j]));
    }
  }

  /** A sleeping worker wakes up, to a new call, only if it was asked to or there is a reason: no more workers than the minimum are
      active, no task is, or its own queue has one. */
  lemma WakesWithReason(tr: seq<State>, k: nat, w: nat) returns (c: Choice)
    requires IsRun(tr) && k + 1 < |tr| && w < |tr[k].pc| && tr[k].pc[w].Asleep? && tr[k + 1].pc != tr[k].pc
    requires w < |tr[k + 1].pc| && tr[k + 1].pc[w] != tr[k].pc[w]
    ensures tr[k + 1].pc[w].Idle? && StepsBy(tr, k, w, c) && w < |tr[k].ready|
    ensures c.asked || tr[k].inside <= tr[k].minimum || tr[k].active == 0 || tr[k].ready[w] != []
  {
    c := WorkerMoves(tr, k, w);
  }

  // ---------------------------------------------------------------------------------------------------------
  // Affinities
  // ---------------------------------------------------------------------------------------------------------

  lemma SearchAffinity(s: State, w: nat, c: Choice)
    requires Basic(s) && Enabled(s, Act(w, c)) && Searches(s.pc[w])
    ensures WorkerStep(s, w, c).affinity == s.affinity
  {}

  lemma TaskAffinity(s: State, w: nat, c: Choice)
    requires Basic(s) && Enabled(s, Act(w, c)) && !Searches(s.pc[w])
    ensures WorkerStep(s, w, c).affinity == s.affinity
  {
    assert WorkerOk(s, w);
  }

  /** In a step of a run, affinities change only by setting one, and then only that one. */
  lemma AffinityStep(tr: seq<State>, k: nat) returns (l: Label)
    requires IsRun(tr) && k + 1 < |tr|
    ensures Basic(tr[k]) && Enabled(tr[k], l) && tr[k + 1] == Apply(tr[k], l)
    ensures |tr[k + 1].affinity| == |tr[k].affinity|
    ensures forall t: nat :: t < |tr[k].affinity| ==>
      tr[k + 1].affinity[t] == if l.SetAffinity? && l.t == t then l.a else tr[k].affinity[t]
  {
    l := RunLabel(tr, k);
    if l.Act? {
      if Searches(tr[k].pc[l.w]) { SearchAffinity(tr[k], l.w, l.choice); } else { TaskAffinity(tr[k], l.w, l.choice); }
    }
  }
}
