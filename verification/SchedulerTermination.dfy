/**
Forced termination and the end of a worker's search: what a call of the pull function does from its entry to its end, in every
run.
*/
module SchedulerTermination {
  import opened Scheduler
  import opened SchedulerInvariant

  // ---------------------------------------------------------------------------------------------------------
  // The steps of one worker in a run
  // ---------------------------------------------------------------------------------------------------------

  /** Step i of the run is one of worker w, with choice c. */
  ghost predicate StepsBy(tr: seq<State>, i: nat, w: nat, c: Choice) {
    && i + 1 < |tr| && Basic(tr[i]) && Enabled(tr[i], Act(w, c)) && tr[i + 1] == WorkerStep(tr[i], w, c)
  }

  const NO_CHOICE := Choice(false, false, false, false, [])

  /** In a step of the run a worker stays where it is, or it is its step. */
  lemma WorkerMoves(tr: seq<State>, i: nat, w: nat) returns (c: Choice)
    requires IsRun(tr) && i + 1 < |tr| && w < |tr[i].pc|
    ensures Inv(tr[i]) && |tr[i + 1].pc| == |tr[i].pc|
    ensures tr[i + 1].pc[w] == tr[i].pc[w] || StepsBy(tr, i, w, c)
  {
    var l := RunLabel(tr, i);
    c := if l.Act? then l.choice else NO_CHOICE;
  }

  /** The worker looks for a task, or sleeps. */
  predicate Searches(pc: Pc) { (Inside(pc) && !pc.Requeue?) || pc.Idle? || pc.Asleep? || pc.Stopped? }

  lemma SearchSettings(s: State, w: nat, c: Choice)
    requires Basic(s) && Enabled(s, Act(w, c)) && Searches(s.pc[w])
    ensures var s' := WorkerStep(s, w, c); s'.minimum == s.minimum && s'.finishOnLast == s.finishOnLast
  {}

  lemma TaskSettings(s: State, w: nat, c: Choice)
    requires Basic(s) && Enabled(s, Act(w, c)) && !Searches(s.pc[w])
    ensures var s' := WorkerStep(s, w, c); s'.minimum == s.minimum && s'.finishOnLast == s.finishOnLast
  {
    assert WorkerOk(s, w);
  }

  lemma SettingsStep(s: State, l: Label)
    requires Basic(s) && Enabled(s, l)
    ensures var s' := Apply(s, l); s'.minimum == s.minimum && s'.finishOnLast == s.finishOnLast
  {
    if l.Act? {
      if Searches(s.pc[l.w]) { SearchSettings(s, l.w, l.choice); } else { TaskSettings(s, l.w, l.choice); }
    }
  }

  lemma SizesStep(s: State, l: Label)
    requires Basic(s) && Enabled(s, l)
    ensures var s' := Apply(s, l); |s'.pc| == |s.pc| && |s'.place| == |s.place| && (s.force ==> s'.force)
  {}

  /** Nothing turns the flag back, and nothing changes how the runtime is set up. */
  lemma {:induction false} SettingsStay(tr: seq<State>, i: nat, k: nat)
    requires IsRun(tr) && i <= k < |tr|
    ensures tr[k].minimum == tr[i].minimum && tr[k].finishOnLast == tr[i].finishOnLast
    ensures |tr[k].pc| == |tr[i].pc| && |tr[k].place| == |tr[i].place|
    ensures tr[i].force ==> tr[k].force
    decreases k
  {
    if i < k {
      SettingsStay(tr, i, k - 1);
      var l := RunLabel(tr, k - 1);
      SettingsStep(tr[k - 1], l);
      SizesStep(tr[k - 1], l);
    }
  }

  // ---------------------------------------------------------------------------------------------------------
  // Forced termination
  // ---------------------------------------------------------------------------------------------------------

  /** Emptying the common queue, or the worker's own. */
  predicate InCommon(pc: Pc) { pc.DrainCommon? || (pc.Discard? && pc.common) }

  predicate InOwn(pc: Pc) { pc.DrainOwn? || (pc.Discard? && !pc.common) }

  /** The moves of a worker that empties the queues: on to the next queue only when this one is empty. */
  lemma DrainMove(s: State, w: nat, c: Choice)
    requires Basic(s) && Enabled(s, Act(w, c)) && Draining(s.pc[w])
    ensures var pc, s' := s.pc[w], WorkerStep(s, w, c);
      && |s'.pc| == |s.pc|
      && (InCommon(pc) ==> InCommon(s'.pc[w]) || (pc.DrainCommon? && s.ready[|s.pc|] == [] && s'.pc[w].DrainOwn?))
      && (InOwn(pc) ==> InOwn(s'.pc[w]) || (pc.DrainOwn? && s.ready[w] == [] && s'.pc[w].PopOwn?))
  {}

  predicate DrainingAt(tr: seq<State>, i: nat, w: nat)
    requires i < |tr|
  {
    w < |tr[i].pc| && Draining(tr[i].pc[w])
  }

  /** At i worker w finds the common queue empty, and at j its own. */
  predicate FoundCommonEmpty(tr: seq<State>, i: nat, w: nat) {
    i < |tr| && w < |tr[i].pc| && |tr[i].pc| < |tr[i].ready| && tr[i].pc[w].DrainCommon? && tr[i].ready[|tr[i].pc|] == []
  }

  predicate FoundOwnEmpty(tr: seq<State>, i: nat, w: nat) {
    i < |tr| && w < |tr[i].pc| && w < |tr[i].ready| && tr[i].pc[w].DrainOwn? && tr[i].ready[w] == []
  }

  lemma EnterMove(s: State, w: nat, c: Choice)
    requires Basic(s) && Enabled(s, Act(w, c)) && s.pc[w].Idle?
    ensures var s' := WorkerStep(s, w, c);
      && |s'.pc| == |s.pc| && s'.inside == s.inside + 1 && s'.pc[w] == if s.force then DrainCommon else PopOwn
  {}

  ghost predicate DrainsUpTo(tr: seq<State>, i: nat, k: nat, w: nat) {
    k < |tr| && forall l :: i < l <= k ==> DrainingAt(tr, l, w)
  }

  // How far worker w, which has entered in step i, has come with the queues at k

  ghost predicate AtCommon(tr: seq<State>, i: nat, k: nat, w: nat) {
    i < k && DrainsUpTo(tr, i, k, w) && w < |tr[k].pc| && InCommon(tr[k].pc[w])
  }

  ghost predicate AtOwn(tr: seq<State>, i: nat, k: nat, w: nat, j1: nat) {
    i < j1 < k && DrainsUpTo(tr, i, k, w) && w < |tr[k].pc| && InOwn(tr[k].pc[w]) && FoundCommonEmpty(tr, j1, w)
  }

  ghost predicate Drained(tr: seq<State>, i: nat, k: nat, w: nat, j1: nat, j2: nat) {
    i < j1 < j2 < k && DrainsUpTo(tr, i, j2, w) && FoundCommonEmpty(tr, j1, w) && FoundOwnEmpty(tr, j2, w)
  }

  lemma CommonGoesOn(tr: seq<State>, i: nat, k: nat, w: nat)
    requires IsRun(tr) && AtCommon(tr, i, k, w) && k + 1 < |tr|
    ensures AtCommon(tr, i, k + 1, w) || AtOwn(tr, i, k + 1, w, k)
  {
    var c := WorkerMoves(tr, k, w);
    if tr[k + 1].pc[w] != tr[k].pc[w] { DrainMove(tr[k], w, c); }
  }

  lemma OwnGoesOn(tr: seq<State>, i: nat, k: nat, w: nat, j1: nat)
    requires IsRun(tr) && AtOwn(tr, i, k, w, j1) && k + 1 < |tr|
    ensures AtOwn(tr, i, k + 1, w, j1) || Drained(tr, i, k + 1, w, j1, k)
  {
    var c := WorkerMoves(tr, k, w);
    if tr[k + 1].pc[w] != tr[k].pc[w] { DrainMove(tr[k], w, c); }
  }

  lemma {:induction false} DrainsOn(tr: seq<State>, i: nat, k: nat, w: nat) returns (j1: nat, j2: nat)
    requires IsRun(tr) && i < k < |tr| && Enters(tr, i, w) && tr[i].force
    ensures AtCommon(tr, i, k, w) || AtOwn(tr, i, k, w, j1) || Drained(tr, i, k, w, j1, j2)
    decreases k
  {
    j1, j2 := 0, 0;
    if k == i + 1 {
      var c := WorkerMoves(tr, i, w);
      EnterMove(tr[i], w, c);
    } else {
      j1, j2 := DrainsOn(tr, i, k - 1, w);
      if AtCommon(tr, i, k - 1, w) {
        CommonGoesOn(tr, i, k - 1, w);
        j1 := k - 1;
      } else if AtOwn(tr, i, k - 1, w, j1) {
        OwnGoesOn(tr, i, k - 1, w, j1);
        j2 := k - 1;
      }
    }
  }

  /** In step i worker w enters the pull function. */
  predicate Enters(tr: seq<State>, i: nat, w: nat) {
    i + 1 < |tr| && w < |tr[i].pc| && w < |tr[i + 1].pc| && tr[i].pc[w].Idle? && !tr[i + 1].pc[w].Idle?
  }

  // ---------------------------------------------------------------------------------------------------------
  // The tasks that are dropped
  // ---------------------------------------------------------------------------------------------------------

  /** A worker that empties a queue takes its oldest task, and drops it in its next step: the task is absent, and the counter of
      active tasks is one lower. */
  lemma DropsTask(s: State, w: nat, c: Choice)
    requires Basic(s) && Enabled(s, Act(w, c)) && Draining(s.pc[w])
    ensures var pc, s' := s.pc[w], WorkerStep(s, w, c);
      && |s'.pc| == |s.pc| && |s'.place| == |s.place|
      && if pc.Discard? then
           && pc.t < |s.place| && s'.active == s.active - 1 && s'.place == s.place[pc.t := Absent] && s'.ready == s.ready
           && s'.pc[w] == if pc.common then DrainCommon else DrainOwn
         else
           var a := if pc.DrainCommon? then |s.pc| else w;
           && s'.active == s.active
           && if s.ready[a] == [] then !s'.pc[w].Discard? && s'.ready == s.ready && s'.place == s.place
              else s'.pc[w] == Discard(s.ready[a][0], pc.DrainCommon?) && s'.ready == s.ready[a := s.ready[a][1..]]
  {
    assert WorkerOk(s, w);
  }

  lemma AbsentInSearch(s: State, w: nat, c: Choice, t: nat)
    requires Basic(s) && Enabled(s, Act(w, c)) && t < |s.place| && s.place[t].Absent? && Searches(s.pc[w])
    ensures t < |WorkerStep(s, w, c).place| && WorkerStep(s, w, c).place[t].Absent?
  {
    assert WorkerOk(s, w) && QueueOk(s, w) && QueueOk(s, |s.pc|);
  }

  lemma AbsentAtEnd(s: State, w: nat, c: Choice, t: nat)
    requires Inv(s) && Enabled(s, Act(w, c)) && t < |s.place| && s.place[t].Absent? && !Searches(s.pc[w])
    ensures t < |WorkerStep(s, w, c).place| && WorkerStep(s, w, c).place[t].Absent?
  {
    assert WorkerOk(s, w);
    if Decrements(s, w) { DecrementedIsBlocked(s, w); }
  }

  /** A task that has been dropped never comes back. */
  lemma {:induction false} AbsentStays(tr: seq<State>, i: nat, k: nat, t: nat)
    requires IsRun(tr) && i <= k < |tr| && t < |tr[i].place| && tr[i].place[t].Absent?
    ensures t < |tr[k].place| && tr[k].place[t].Absent?
    decreases k
  {
    if i < k {
      AbsentStays(tr, i, k - 1, t);
      var l := RunLabel(tr, k - 1);
      if l.Act? {
        if Searches(tr[k - 1].pc[l.w]) { AbsentInSearch(tr[k - 1], l.w, l.choice, t); }
        else { AbsentAtEnd(tr[k - 1], l.w, l.choice, t); }
      }
    }
  }

  lemma {:induction false} DiscardDrops(tr: seq<State>, i: nat, k: nat, w: nat, t: nat)
    requires IsRun(tr) && i <= k < |tr| && w < |tr[i].pc| && w < |tr[k].pc| && tr[i].pc[w].Discard? && tr[i].pc[w].t == t
    ensures tr[k].pc[w] == tr[i].pc[w] || (t < |tr[k].place| && tr[k].place[t].Absent?)
    decreases k
  {
    if i < k {
      SettingsStay(tr, i, k - 1);
      DiscardDrops(tr, i, k - 1, w, t);
      var c := WorkerMoves(tr, k - 1, w);
      if tr[k - 1].pc[w] != tr[i].pc[w] { AbsentStays(tr, k - 1, k, t); }
      else if tr[k].pc[w] != tr[i].pc[w] { DropsTask(tr[k - 1], w, c); }
    }
  }

  /** In step f a forced termination is asked for. */
  ghost predicate Forces(tr: seq<State>, f: nat) {
    f + 1 < |tr| && Basic(tr[f]) && Enabled(tr[f], ForceTermination) && tr[f + 1] == Apply(tr[f], ForceTermination)
  }

  /** A worker that enters the pull function after a forced termination has been asked for is through with emptying the queues only
      after it has found first the common queue, at j1, and then its own, at j2, empty; until then it does nothing else, and every
      task that it takes is dropped for good. */
  lemma ForceTerminationDrains(tr: seq<State>, f: nat, i: nat, k: nat, w: nat) returns (j1: nat, j2: nat)
    requires IsRun(tr) && Forces(tr, f) && f < i < k < |tr| && Enters(tr, i, w) && w < |tr[k].pc| && !Draining(tr[k].pc[w])
    ensures i < j1 < j2 < k && FoundCommonEmpty(tr, j1, w) && FoundOwnEmpty(tr, j2, w)
    ensures forall l :: i < l <= j2 ==> DrainingAt(tr, l, w)
    ensures forall l :: i < l <= j2 && DrainingAt(tr, l, w) && tr[l].pc[w].Discard? ==>
              tr[l].pc[w].t < |tr[k].place| && tr[k].place[tr[l].pc[w].t].Absent?
  {
    SettingsStay(tr, f + 1, i);
    j1, j2 := DrainsOn(tr, i, k, w);
    assert Drained(tr, i, k, w, j1, j2);
    forall l | i < l <= j2 && DrainingAt(tr, l, w) && tr[l].pc[w].Discard?
      ensures tr[l].pc[w].t < |tr[k].place| && tr[k].place[tr[l].pc[w].t].Absent?
    {
      DiscardDrops(tr, l, k, w, tr[l].pc[w].t);
    }
  }
}
