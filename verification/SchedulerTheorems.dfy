/** What the scheduler guarantees in every reachable state and over whole runs. */
module SchedulerTheorems {
  import opened Scheduler
  import opened SchedulerInvariant

  // ---------------------------------------------------------------------------------------------------------
  // Dependencies
  // ---------------------------------------------------------------------------------------------------------

  /** A task that is ready, running or finished has only predecessors whose bodies are done. */
  lemma ReadyAfterPredecessors(s: State, t: nat, p: nat, k: nat)
    requires Inv(s) && t < Tasks(s) && !s.place[t].Blocked?
    requires p < Tasks(s) && k < |s.g.out[p]| && s.g.out[p][k] == t
    ensures BodyDone(s, p)
  {
    assert |s.dep| == |s.place|;
    assert CounterOk(s, t) && TaskOk(s, p);
    assert Unreleased(s, t) == {} by { assert |Unreleased(s, t)| == 0; }
    assert Edge(p, k) in s.g.Into(t);
    assert Edge(p, k) !in Unreleased(s, t);
    assert k < Released(s, p);
  }

  /** In every run a task's body runs only after the bodies of all its predecessors have run to their end. */
  lemma RunsAfterPredecessors(tr: seq<State>, i: nat, w: nat, p: nat, k: nat)
    requires IsRun(tr) && i < |tr| && w < |tr[i].pc| && tr[i].pc[w].Running?
    requires p < Tasks(tr[i]) && k < |tr[i].g.out[p]| && tr[i].g.out[p][k] == tr[i].pc[w].t
    ensures p < |tr[i].place| && BodyDone(tr[i], p)
  {
    RunInv(tr, i);
    assert WorkerOk(tr[i], w);
    ReadyAfterPredecessors(tr[i], tr[i].pc[w].t, p, k);
  }

  // ---------------------------------------------------------------------------------------------------------
  // Life of a task
  // ---------------------------------------------------------------------------------------------------------

  /** How far a task has come; a suspended task goes back to a ready queue within the same stage. */
  function Stage(s: State, t: nat): nat
    requires t < |s.place|
  {
    match s.place[t]
    case Blocked => 0
    case Woken(_) => 1
    case Queued(_) => 2
    case OnWorker(_) => if BodyDone(s, t) then 3 else 2
    case Finished => 4
    case Absent => 4
  }

  /** The body of the held task has run to its end. */
  predicate Ends(pc: Pc) {
    pc.Releasing? || pc.Pushing? || pc.Decount?
  }

  function PcRank(pc: Pc): nat {
    match pc
    case Polling(_) => 5
    case LeaveWith(_) => 4
    case Running(_) => 3
    case Releasing(_, _) => 2
    case Pushing(_, _) => 2
    case Decount(_) => 1
    case _ => 6
  }

  /** The working steps a task still needs, its dependents aside. */
  function Rank(s: State, t: nat): nat
    requires t < |s.place|
  {
    match s.place[t]
    case Blocked => 8
    case Woken(_) => 7
    case Queued(_) => 6
    case OnWorker(w) =>
      if w < |s.pc| then PcRank(s.pc[w]) else 0
    case Finished => 0
    case Absent => 0
  }

  /** A step of worker w: the task does not go back to an earlier stage, its body becomes done only if w runs it, and
      unless it has to wait again it comes closer to its end. */
  predicate Ages(s: State, s': State, w: nat, t: nat, again: bool)
    requires w < |s.pc| && t < |s.place| && |s'.place| == |s.place|
  {
    && Stage(s', t) >= Stage(s, t)
    && (BodyDone(s', t) ==> BodyDone(s, t) || s.pc[w] == Running(t))
    && (!again ==> Rank(s', t) <= Rank(s, t))
  }

  lemma TakeAges(s: State, w: nat, a: nat, pc: Pc, t: nat)
    requires w < |s.pc| && !HoldsSome(s.pc[w]) && t < |s.place| && TaskOk(s, t)
    requires a < |s.ready| && s.ready[a] != [] && s.ready[a][0] < |s.place| && s.place[s.ready[a][0]] == Queued(a)
    requires (pc.Polling? || pc.Discard?) && Held(pc) == s.ready[a][0]
    ensures Ages(s, Take(s, w, a, pc), w, t, false)
  {}

  lemma QueueStepAges(s: State, w: nat, t: nat)
    requires Basic(s) && w < |s.pc| && t < |s.place|
    ensures s.pc[w].PopOwn? || s.pc[w].PopCommon? ==> Ages(s, PopStep(s, w), w, t, false)
    ensures s.pc[w].DrainCommon? || s.pc[w].DrainOwn? ==> Ages(s, DrainStep(s, w), w, t, false)
  {
    var pc := s.pc[w];
    assert TaskOk(s, t) && QueueOk(s, w) && QueueOk(s, Common(s));
    if pc.PopOwn? || pc.PopCommon? {
      var a := if pc.PopOwn? then w else Common(s);
      if s.ready[a] != [] { TakeAges(s, w, a, Polling(s.ready[a][0]), t); }
      else { GotoAges(s, w, if pc.PopOwn? then PopCommon else NoTask, t); }
    } else if pc.DrainCommon? || pc.DrainOwn? {
      var a := if pc.DrainCommon? then Common(s) else w;
      if s.ready[a] != [] { TakeAges(s, w, a, Discard(s.ready[a][0], pc.DrainCommon?), t); }
      else { GotoAges(s, w, if pc.DrainCommon? then DrainOwn else PopOwn, t); }
    }
  }

  lemma GotoAges(s: State, w: nat, pc: Pc, t: nat)
    requires w < |s.pc| && t < |s.place| && TaskOk(s, t) && !HoldsSome(s.pc[w]) && !HoldsSome(pc)
    ensures Ages(s, Goto(s, w, pc), w, t, false)
  {}

  lemma GiveAges(s: State, w: nat, u: nat, pc: Pc, t: nat)
    requires Shape(s) && w < |s.pc| && t < |s.place| && u < |s.place| && TaskOk(s, t) && s.dep[u] <= 0
    requires || ((s.pc[w].Requeue? || s.pc[w].Yielded?) && s.pc[w].t == u && s.place[u] == OnWorker(w) && !HoldsSome(pc))
             || (s.pc[w].Pushing? && s.place[u] == Woken(w) && pc.Releasing? && pc.t == s.pc[w].t)
    ensures Ages(s, Goto(ResumeTask(s, u), w, pc), w, t, false)
  {}

  lemma EndStepAges(s: State, w: nat, t: nat)
    requires Basic(s) && w < |s.pc| && t < |s.place|
    ensures s.pc[w].Discard? ==> Ages(s, DiscardStep(s, w), w, t, false)
    ensures s.pc[w].Decount? ==> Ages(s, DecountStep(s, w), w, t, false)
  {
    assert WorkerOk(s, w) && TaskOk(s, t);
  }

  lemma GiveStepAges(s: State, w: nat, t: nat)
    requires Basic(s) && BlockedMatches(s) && w < |s.pc| && t < |s.place|
    ensures s.pc[w].Requeue? ==> Ages(s, RequeueStep(s, w), w, t, false)
    ensures s.pc[w].Yielded? ==> Ages(s, SuspendCallbackStep(s, w), w, t, false)
    ensures s.pc[w].Pushing? ==> Ages(s, PushStep(s, w), w, t, false)
  {
    assert WorkerOk(s, w) && TaskOk(s, t);
    match s.pc[w]
    case Requeue(u) => GiveAges(s, w, u, NoTask, t);
    case Yielded(u) => GiveAges(s, w, u, Idle, t);
    case Pushing(p, k) => GiveAges(s, w, s.g.out[p][k], Releasing(p, k + 1), t);
    case _ =>
  }

  lemma WakeAges(s: State, w: nat, u: nat, pc: Pc, t: nat)
    requires w < |s.pc| && t < |s.place| && u < |s.place| && TaskOk(s, t)
    requires s.pc[w].Releasing? && (pc.Releasing? || pc.Pushing?) && pc.t == s.pc[w].t && s.place[u].Blocked?
    ensures Ages(s, Goto(s, w, pc), w, t, false)
    ensures Ages(s, Put(Goto(s, w, pc), u, Woken(w)), w, t, false)
  {}

  lemma CountersAge(s: State, s1: State, dep: seq<int>, w: nat, t: nat)
    requires w < |s.pc| && t < |s.place| && |s1.place| == |s.place| && Ages(s, s1, w, t, false)
    ensures Ages(s, s1.(dep := dep), w, t, false)
  {}

  lemma DecountAges(s: State, w: nat, t: nat)
    requires w < |s.pc| && s.pc[w].Releasing? && t < |s.place| && TaskOk(s, t)
    ensures Ages(s, Goto(s, w, Decount(s.pc[w].t)), w, t, false)
  {}

  lemma ReleaseStepAges(s: State, w: nat, t: nat)
    requires Basic(s) && CountersMatch(s) && w < |s.pc| && s.pc[w].Releasing? && t < |s.place|
    ensures Ages(s, ReleaseStep(s, w), w, t, false)
  {
    assert WorkerOk(s, w) && TaskOk(s, t);
    var p, k := s.pc[w].t, s.pc[w].k;
    if Decrements(s, w) {
      DecrementedIsBlocked(s, w);
      var u := s.g.out[p][k];
      var dep := s.dep[u := s.dep[u] - 1];
      var pc := if dep[u] == 0 then Pushing(p, k) else Releasing(p, k + 1);
      WakeAges(s, w, u, pc, t);
      CountersAge(s, if dep[u] == 0 then Put(Goto(s, w, pc), u, Woken(w)) else Goto(s, w, pc), dep, w, t);
    } else {
      DecountAges(s, w, t);
    }
  }

  /** The task fails a poll or its body suspends: it will be queued again. */
  predicate WaitsAgain(s: State, w: nat, c: Choice)
    requires w < |s.pc|
  {
    || (s.pc[w].Polling? && s.pc[w].t < |s.pending| && s.pending[s.pc[w].t] != [])
    || (s.pc[w].Running? && c.suspends)
  }

  lemma MoveAges(s: State, s': State, w: nat, t: nat, again: bool)
    requires w < |s.pc| && t < |s.place| && TaskOk(s, t)
    requires |s'.pc| == |s.pc| && s'.pc == s.pc[w := s'.pc[w]] && s'.place == s.place
    requires !HoldsSome(s.pc[w])
          || (&& !Ends(s.pc[w]) && HoldsSome(s'.pc[w]) && Held(s'.pc[w]) == Held(s.pc[w])
              && (Ends(s'.pc[w]) ==> s.pc[w].Running?) && (!again ==> PcRank(s'.pc[w]) <= PcRank(s.pc[w])))
    ensures Ages(s, s', w, t, again)
  {}

  lemma MoveStepAges(s: State, w: nat, c: Choice, t: nat)
    requires Basic(s) && Enabled(s, Act(w, c)) && t < |s.place| && MovesNoTask(s.pc[w]) && !s.pc[w].Releasing?
    ensures Ages(s, WorkerStep(s, w, c), w, t, WaitsAgain(s, w, c))
  {
    PlainMoves(s, w, c);
    assert TaskOk(s, t);
    MoveStays(s, w, c);
    MoveAges(s, WorkerStep(s, w, c), w, t, WaitsAgain(s, w, c));
  }

  lemma MoveStays(s: State, w: nat, c: Choice)
    requires Basic(s) && Enabled(s, Act(w, c)) && MovesNoTask(s.pc[w]) && !s.pc[w].Releasing?
    ensures var pc := WorkerStep(s, w, c).pc[w];
      HoldsSome(s.pc[w]) ==>
        && HoldsSome(pc) && Held(pc) == Held(s.pc[w]) && !Ends(s.pc[w])
        && (Ends(pc) ==> s.pc[w].Running?) && (!WaitsAgain(s, w, c) ==> PcRank(pc) <= PcRank(s.pc[w]))
  {
    assert WorkerOk(s, w);
  }

  lemma WorkerStepAges(s: State, w: nat, c: Choice, t: nat)
    requires Basic(s) && CountersMatch(s) && Enabled(s, Act(w, c)) && t < |s.place|
    ensures Ages(s, WorkerStep(s, w, c), w, t, WaitsAgain(s, w, c))
  {
    var pc := s.pc[w];
    if pc.Releasing? {
      ReleaseStepAges(s, w, t);
    } else if MovesNoTask(pc) {
      MoveStepAges(s, w, c, t);
    } else if pc.Pushing? || pc.Requeue? || pc.Yielded? {
      CountersBlock(s);
      GiveStepAges(s, w, t);
    } else if pc.Discard? || pc.Decount? {
      EndStepAges(s, w, t);
    } else {
      QueueStepAges(s, w, t);
    }
  }

  lemma StepAges(s: State, l: Label, t: nat)
    requires Inv(s) && Enabled(s, l) && t < |s.place|
    ensures var s' := Apply(s, l); |s'.place| == |s.place| && s'.g == s.g && Stage(s', t) >= Stage(s, t)
    ensures BodyDone(Apply(s, l), t) ==> BodyDone(s, t) || (l.Act? && s.pc[l.w] == Running(t))
  {
    if l.Act? { WorkerStepAges(s, l.w, l.choice, t); }
  }

  lemma RunStepAges(tr: seq<State>, i: nat, t: nat)
    requires IsRun(tr) && i + 1 < |tr| && t < |tr[i].place|
    ensures |tr[i + 1].place| == |tr[i].place| && tr[i + 1].g == tr[i].g
    ensures Stage(tr[i + 1], t) >= Stage(tr[i], t)
  {
    var l := RunLabel(tr, i);
    StepAges(tr[i], l, t);
  }

  lemma {:induction false} StagesGrow(tr: seq<State>, i: nat, j: nat, t: nat)
    requires IsRun(tr) && i <= j < |tr| && t < |tr[i].place|
    ensures |tr[j].place| == |tr[i].place| && tr[j].g == tr[i].g
    ensures Stage(tr[j], t) >= Stage(tr[i], t)
    decreases j
  {
    if i < j {
      StagesGrow(tr, i, j - 1, t);
      RunStepAges(tr, j - 1, t);
    }
  }

  /** Step i of the run brings task t to its stage n. */
  predicate Reaches(tr: seq<State>, i: nat, t: nat, n: nat) {
    && i + 1 < |tr| && t < |tr[i].place| && t < |tr[i + 1].place|
    && Stage(tr[i], t) < n <= Stage(tr[i + 1], t)
  }

  /** In every run a task is made ready by its dependencies at most once (stage 1), its body is completed at most
      once (stage 3) and it leaves the system at most once (stage 4). */
  lemma ReachesOnce(tr: seq<State>, i: nat, j: nat, t: nat, n: nat)
    requires IsRun(tr) && i < j
    ensures !(Reaches(tr, i, t, n) && Reaches(tr, j, t, n))
  {
    if Reaches(tr, i, t, n) && Reaches(tr, j, t, n) { StagesGrow(tr, i + 1, j, t); }
  }

  /** A task that has come to a stage later than at the start, such as a finished one, reached it in some step. */
  lemma {:induction false} ReachesSometime(tr: seq<State>, k: nat, t: nat, n: nat)
    requires IsRun(tr) && k < |tr| && t < |tr[0].place| && t < |tr[k].place| && Stage(tr[0], t) < n <= Stage(tr[k], t)
    ensures exists i: nat :: i < k && Reaches(tr, i, t, n)
    decreases k
  {
    StagesGrow(tr, 0, k - 1, t);
    RunStepAges(tr, k - 1, t);
    if Stage(tr[k - 1], t) < n { assert Reaches(tr, k - 1, t, n); } else { ReachesSometime(tr, k - 1, t, n); }
  }
}
