/** Every fair run of an acyclic graph whose bodies do not suspend finishes every task, and then every worker stops. */
module SchedulerFairness {
  import opened Scheduler
  import opened SchedulerInvariant
  import opened SchedulerAccounting
  import opened SchedulerTheorems
  import opened SchedulerProgress
  import opened Fairness

  /** Worker w takes a step with a body that does not suspend; for a negative w nobody moves, but an affinity may change. */
  ghost predicate GoesOn(s: State, s': State, w: int) {
    && Basic(s)
    && if w >= 0 then exists c: Choice :: WorkerGoesOn(s, s', w, c)
       else s' == s || exists t: nat, a: int :: AffinityChanges(s, s', t, a)
  }

  ghost predicate WorkerGoesOn(s: State, s': State, w: nat, c: Choice)
    requires Basic(s)
  {
    Enabled(s, Act(w, c)) && !c.suspends && s' == WorkerStep(s, w, c)
  }

  ghost predicate AffinityChanges(s: State, s': State, t: nat, a: int)
    requires Basic(s)
  {
    Enabled(s, SetAffinity(t, a)) && s' == Apply(s, SetAffinity(t, a))
  }

  /** Worker w can take a step without being asked to resume. */
  predicate CanGoOn(s: State, w: nat) {
    w < |s.pc| && |s.ready| == |s.pc| + 1 && !s.pc[w].Stopped? && (s.pc[w].Asleep? ==> ResumeCheck(s, w))
  }

  /** A reachable state of a scheduler with so many workers, on an acyclic graph. */
  ghost predicate Sound(s: State, workers: nat, rank: seq<nat>) {
    Inv(s) && Plain(s) && |s.pc| == workers > 0 && s.g.Ordered(rank)
  }

  ghost function System(workers: nat, rank: seq<nat>): Machine<State> {
    Machine(GoesOn, CanGoOn, workers, s => Sound(s, workers, rank), Measure)
  }

  lemma GoesOnSound(s: State, s': State, w: int, workers: nat, rank: seq<nat>)
    requires Sound(s, workers, rank) && GoesOn(s, s', w)
    ensures Sound(s', workers, rank) && Tasks(s') == Tasks(s) && Measure(s') <= Measure(s) && (s.active == 0 ==> s'.active == 0)
  {
    if w >= 0 {
      var c: Choice :| WorkerGoesOn(s, s', w, c);
      PlainInv(s, Act(w, c));
      MeasureDecreases(s, Act(w, c));
      if s.active == 0 { StaysZero(s, w, c); }
    } else if s' != s {
      var t: nat, a: int :| AffinityChanges(s, s', t, a);
      PlainInv(s, SetAffinity(t, a));
      MeasureDecreases(s, SetAffinity(t, a));
    }
  }

  lemma SystemIsLawful(workers: nat, rank: seq<nat>)
    ensures Lawful(System(workers, rank))
  {
    forall s, s', w ensures LawfulStep(System(workers, rank), s, s', w) {
      if Sound(s, workers, rank) && GoesOn(s, s', w) { GoesOnSound(s, s', w, workers, rank); }
    }
  }

  // ---------------------------------------------------------------------------------------------------------
  // A worker that holds a task
  // ---------------------------------------------------------------------------------------------------------

  predicate IsHolder(s: State, v: nat) { v < |s.pc| && HoldsSome(s.pc[v]) }

  ghost function HolderPlan(v: nat): Plan<State> {
    Plan((s: State) => IsHolder(s, v), _ => 0, (_, u) => u == v)
  }

  /** A worker whose step advances no task was not holding one. */
  lemma QuietWorker(s: State, w: nat, c: Choice)
    requires Inv(s) && Plain(s) && Enabled(s, Act(w, c)) && !c.suspends && Measure(WorkerStep(s, w, c)) == Measure(s)
    ensures !Works(s, Act(w, c)) && !HoldsSome(s.pc[w])
  {
    MeasureDecreases(s, Act(w, c));
  }

  lemma HolderStep(s: State, s': State, u: int, v: nat)
    requires Inv(s) && Plain(s) && IsHolder(s, v) && GoesOn(s, s', u) && Measure(s') == Measure(s)
    ensures u != v && IsHolder(s', v) && CanGoOn(s', v)
  {
    if u >= 0 {
      var c: Choice :| WorkerGoesOn(s, s', u, c);
      QuietWorker(s, u, c);
      PlainInv(s, Act(u, c));
    }
  }

  /** It can always go on, and each of its steps advances a task. */
  lemma HolderLeads(workers: nat, rank: seq<nat>, v: nat)
    ensures Leads(System(workers, rank), HolderPlan(v))
  {
    var m, p := System(workers, rank), HolderPlan(v);
    forall s, s', u ensures LeadsStep(m, p, s, s', u) {
      if m.good(s) && p.near(s) && m.follows(s, s', u) && m.work(s') == m.work(s) { HolderStep(s, s', u, v); }
    }
    forall s ensures Calls(m, p, s) {
      if m.good(s) && p.near(s) { assert Called(m, p, s, v); }
    }
  }

  // ---------------------------------------------------------------------------------------------------------
  // Workers that come to pop a task
  // ---------------------------------------------------------------------------------------------------------

  /** The workers in the range hold no task, and there is one in the common queue, or in the queue of the only one of them. */
  predicate Fetching(s: State, lo: nat, hi: nat) {
    && lo < hi <= |s.pc| && |s.ready| == |s.pc| + 1 && s.active > 0
    && (forall v :: lo <= v < hi ==> !HoldsSome(s.pc[v]))
    && if s.ready[Common(s)] != [] then lo == 0 && hi == |s.pc| else hi == lo + 1 && s.ready[lo] != []
  }

  /** How many steps the workers in the range are from popping a task, all together. */
  function Distances(s: State, lo: nat, hi: nat): nat
    decreases hi
  {
    if lo < hi <= |s.pc| && |s.ready| == |s.pc| + 1 then Distances(s, lo, hi - 1) + Distance(s, hi - 1) else 0
  }

  lemma {:induction false} DistancesBounded(s: State, lo: nat, hi: nat)
    requires lo <= hi
    ensures Distances(s, lo, hi) <= 7 * (hi - lo)
    decreases hi
  {
    if lo < hi { DistancesBounded(s, lo, hi - 1); }
  }

  lemma {:induction false} OneCloser(s: State, s': State, lo: nat, hi: nat, w: nat)
    requires lo <= hi <= |s.pc| == |s'.pc| && |s.ready| == |s.pc| + 1 && s'.ready == s.ready
    requires w < |s.pc| && s'.pc == s.pc[w := s'.pc[w]] && (lo <= w < hi ==> Distance(s', w) < Distance(s, w))
    ensures Distances(s', lo, hi) <= Distances(s, lo, hi)
    ensures lo <= w < hi ==> Distances(s', lo, hi) < Distances(s, lo, hi)
    decreases hi
  {
    if lo < hi {
      OneCloser(s, s', lo, hi - 1, w);
      assert hi - 1 != w ==> Distance(s', hi - 1) == Distance(s, hi - 1);
    }
  }

  lemma IdleStep(s: State, w: nat, c: Choice)
    requires Basic(s) && !s.force && s.active > 0 && Enabled(s, Act(w, c)) && !HoldsSome(s.pc[w]) && !Leaving(s.pc[w])
    requires !Draining(s.pc[w]) && !Works(s, Act(w, c))
    ensures var s' := WorkerStep(s, w, c);
      && s'.active == s.active && s'.ready == s.ready && w < |s'.pc| && !HoldsSome(s'.pc[w])
      && (s.ready[w] != [] || s.ready[Common(s)] != [] ==> Distance(s', w) < Distance(s, w))
  {}

  lemma FetchStep(s: State, s': State, u: int, lo: nat, hi: nat)
    requires Inv(s) && Plain(s) && GoesOn(s, s', u) && Measure(s') == Measure(s) && Fetching(s, lo, hi)
    ensures Fetching(s', lo, hi) && Distances(s', lo, hi) <= Distances(s, lo, hi)
    ensures lo <= u < hi ==> Distances(s', lo, hi) < Distances(s, lo, hi)
  {
    if u >= 0 {
      var c: Choice :| WorkerGoesOn(s, s', u, c);
      QuietWorker(s, u, c);
      IdleStep(s, u, c);
      OneCloser(s, s', lo, hi, u);
    } else {
      SameDistances(s, s', lo, hi);
    }
  }

  lemma {:induction false} SameDistances(s: State, s': State, lo: nat, hi: nat)
    requires s'.pc == s.pc && s'.ready == s.ready
    ensures Distances(s', lo, hi) == Distances(s, lo, hi)
    decreases hi
  {
    if lo < hi { SameDistances(s, s', lo, hi - 1); }
  }

  /** While a task is active some worker can go on; one whose own queue is not empty always can. */
  lemma FetcherCanGoOn(s: State, lo: nat, hi: nat) returns (w: nat)
    requires Inv(s) && Fetching(s, lo, hi)
    ensures lo <= w < hi && CanGoOn(s, w)
  {
    if v: nat :| lo <= v < hi && (!s.pc[v].Asleep? || s.ready[v] != []) {
      w := v;
      assert !Leaving(s.pc[v]);
    } else {
      assert InsideWorkers(s) == {};
      w := lo;
    }
  }

  ghost function FetchPlan(lo: nat, hi: nat): Plan<State> {
    Plan((s: State) => Fetching(s, lo, hi), (s: State) => Distances(s, lo, hi), (_, u) => lo <= u < hi)
  }

  lemma FetchersStayAble(s: State, s': State, u: int, lo: nat, hi: nat, w: nat)
    requires Inv(s) && Plain(s) && GoesOn(s, s', u) && Fetching(s, lo, hi) && Fetching(s', lo, hi) && Inv(s')
    requires s.ready[Common(s)] == [] <==> s'.ready[Common(s')] == []
    requires !(lo <= u < hi) && lo <= w < hi && CanGoOn(s, w)
    ensures CanGoOn(s', w)
  {
    if s.ready[Common(s)] == [] { assert !Leaving(s'.pc[lo]); }
  }

  /** Within a bounded number of their own steps one of them pops a task. */
  lemma FetchersLead(workers: nat, rank: seq<nat>, lo: nat, hi: nat)
    ensures Leads(System(workers, rank), FetchPlan(lo, hi))
  {
    var m, p := System(workers, rank), FetchPlan(lo, hi);
    forall s, s', u ensures LeadsStep(m, p, s, s', u) {
      if m.good(s) && p.near(s) && m.follows(s, s', u) && m.work(s') == m.work(s) {
        FetchStep(s, s', u, lo, hi);
        GoesOnSound(s, s', u, workers, rank);
        forall w: nat | Called(m, p, s, w) && !p.moves(s, u) ensures Called(m, p, s', w) { FetchersStayAble(s, s', u, lo, hi, w); }
      }
    }
    forall s ensures Calls(m, p, s) {
      if m.good(s) && p.near(s) {
        var w := FetcherCanGoOn(s, lo, hi);
        assert Called(m, p, s, w);
      }
    }
  }

  // ---------------------------------------------------------------------------------------------------------
  // Fair runs finish every task
  // ---------------------------------------------------------------------------------------------------------

  /** A run of so many workers on an acyclic graph, in rounds in which nobody who stays able to go on is left out. */
  ghost predicate FairRun(r: Run<State>, cuts: seq<nat>, workers: nat, rank: seq<nat>) {
    IsRunOf(System(workers, rank), r) && Sound(r.states[0], workers, rank) && InRounds(System(workers, rank), r, cuts)
  }

  /** Within so many rounds some task is advanced. */
  function Patience(workers: nat): nat { 7 * workers + 1 }

  predicate NoneActive(s: State) { s.active == 0 }

  lemma HolderOrTask(s: State, rank: seq<nat>) returns (v: nat, a: nat)
    requires Inv(s) && Plain(s) && s.g.Ordered(rank) && s.active != 0
    ensures IsHolder(s, v) || (a < |s.ready| && s.ready[a] != [] && forall u :: 0 <= u < |s.pc| ==> !HoldsSome(s.pc[u]))
  {
    v, a := 0, 0;
    assert ActiveTasks(s) != {};
    var t :| t in ActiveTasks(s);
    SomeTaskReady(s, rank, t);
    if u: nat :| u < |s.pc| && HoldsSome(s.pc[u]) { v := u; } else { a :| a < |s.ready| && s.ready[a] != []; }
  }

  /** While a task is active there is a reason why work will be done. */
  lemma SomePlan(s: State, workers: nat, rank: seq<nat>) returns (p: Plan<State>)
    requires Sound(s, workers, rank) && s.active != 0
    ensures IsPlan(System(workers, rank), p, s, Patience(workers))
  {
    var v, a := HolderOrTask(s, rank);
    if IsHolder(s, v) {
      HolderLeads(workers, rank, v);
      p := HolderPlan(v);
    } else {
      var lo, hi := if s.ready[Common(s)] != [] then 0 else a, if s.ready[Common(s)] != [] then workers else a + 1;
      FetchersLead(workers, rank, lo, hi);
      DistancesBounded(s, lo, hi);
      p := FetchPlan(lo, hi);
    }
  }

  lemma SystemProgresses(workers: nat, rank: seq<nat>)
    ensures Progresses(System(workers, rank), NoneActive, Patience(workers))
  {
    var m := System(workers, rank);
    SystemIsLawful(workers, rank);
    forall s ensures GetsDone(m, NoneActive, Patience(workers), s) {
      if m.good(s) && !NoneActive(s) {
        var p := SomePlan(s, workers, rank);
        assert HasPlan(m, s, Patience(workers));
      }
    }
    forall s, s', w ensures StaysDone(m, NoneActive, s, s', w) {
      if m.good(s) && m.follows(s, s', w) { GoesOnSound(s, s', w, workers, rank); }
    }
  }

  /** So many rounds finish every task. */
  function RoundsNeeded(s: State): nat { (Measure(s) + 1) * Patience(|s.pc|) }

  /** Every fair run that has come so far has finished every task, whatever the interleaving, the affinities and the
      sleeping of workers. */
  lemma FairRunsFinish(r: Run<State>, cuts: seq<nat>, workers: nat, rank: seq<nat>)
    requires FairRun(r, cuts, workers, rank) && |cuts| > RoundsNeeded(r.states[0])
    ensures forall t :: 0 <= t < |r.Last().place| ==> r.Last().place[t].Finished?
    ensures r.Last().active == 0
  {
    SystemProgresses(workers, rank);
    FairRunsGetDone(System(workers, rank), NoneActive, Patience(workers), r, cuts, 0);
    NothingActive(r.Last());
  }

  // ---------------------------------------------------------------------------------------------------------
  // The end
  // ---------------------------------------------------------------------------------------------------------

  /** No task is active, and workers terminate when they see that. */
  ghost predicate Over(s: State, workers: nat, rank: seq<nat>) { Sound(s, workers, rank) && s.active == 0 && s.finishOnLast }

  /** The scheduler once no task is active; what is left to do is that worker w terminates. */
  ghost function Ending(workers: nat, rank: seq<nat>, w: nat): Machine<State> {
    Machine(GoesOn, CanGoOn, workers, s => Over(s, workers, rank), (s: State) => if HasStopped(s, w) then 0 else 1)
  }

  predicate HasStopped(s: State, w: nat) { w < |s.pc| && s.pc[w].Stopped? }

  /** How many steps worker w is from terminating. */
  function StepsToStop(s: State, w: nat): nat {
    if w >= |s.pc| then 0 else
    match s.pc[w]
    case Stopped => 0
    case LeaveEmpty(_, stop) => if stop then 1 else 8
    case CheckTermination(_) => 2
    case NoTask => 3
    case PopCommon => 4
    case PopOwn => 5
    case Idle => 6
    case Asleep => 7
    case _ => 8
  }

  lemma StopsSooner(s: State, s': State, u: int, w: nat)
    requires Inv(s) && Plain(s) && s.active == 0 && s.finishOnLast && w < |s.pc| && GoesOn(s, s', u)
    ensures |s'.pc| == |s.pc| && StepsToStop(s', w) <= StepsToStop(s, w) && (s.pc[w].Stopped? ==> s'.pc[w].Stopped?)
    ensures u == w ==> StepsToStop(s', w) < StepsToStop(s, w)
  {
    if u >= 0 {
      var c: Choice :| WorkerGoesOn(s, s', u, c);
      NothingActive(s);
      assert !HoldsSome(s.pc[u]) && !Draining(s.pc[u]);
      assert s.ready[u] == [] && s.ready[Common(s)] == [];
    }
  }

  ghost function StopPlan(w: nat): Plan<State> {
    Plan((s: State) => w < |s.pc| && !s.pc[w].Stopped?, (s: State) => StepsToStop(s, w), (_, u) => u == w)
  }

  lemma StopLeads(workers: nat, rank: seq<nat>, w: nat)
    requires w < workers
    ensures Lawful(Ending(workers, rank, w)) && Leads(Ending(workers, rank, w), StopPlan(w))
  {
    var m, p := Ending(workers, rank, w), StopPlan(w);
    forall s, s', u ensures LeadsStep(m, p, s, s', u) && LawfulStep(m, s, s', u) {
      if m.good(s) && m.follows(s, s', u) {
        GoesOnSound(s, s', u, workers, rank);
        FlagStays(s, s', u);
        StopsSooner(s, s', u, w);
      }
    }
    forall s ensures Calls(m, p, s) {
      if m.good(s) && p.near(s) { assert Called(m, p, s, w); }
    }
  }

  lemma FlagStays(s: State, s': State, u: int)
    requires Inv(s) && GoesOn(s, s', u)
    ensures s'.finishOnLast == s.finishOnLast
  {
    if u >= 0 {
      var c: Choice :| WorkerGoesOn(s, s', u, c);
      SameFlag(s, u, c);
    }
  }

  lemma SameFlag(s: State, w: nat, c: Choice)
    requires Basic(s) && Enabled(s, Act(w, c))
    ensures WorkerStep(s, w, c).finishOnLast == s.finishOnLast
  {
    assert WorkerOk(s, w);
  }

  /** Once no task is active, all that goes on is the workers' search for tasks, whatever bodies might have done. */
  lemma SearchStep(s: State, w: nat, c: Choice)
    requires Inv(s) && s.active == 0 && Enabled(s, Act(w, c)) && !HoldsSome(s.pc[w])
    ensures var s' := WorkerStep(s, w, c); GoesOn(s, s', w) && s'.active == 0 && s'.finishOnLast == s.finishOnLast
  {
    var d := c.(suspends := false);
    assert WorkerStep(s, w, c) == WorkerStep(s, w, d);
    assert WorkerGoesOn(s, WorkerStep(s, w, c), w, d);
    StaysZero(s, w, c);
    SameFlag(s, w, c);
  }

  /** The scheduler whose workers terminate once no task is active. */
  ghost function Terminating(workers: nat, rank: seq<nat>): Machine<State> {
    System(workers, rank).(good := s => Sound(s, workers, rank) && s.finishOnLast)
  }

  lemma FlagUntil(r: Run<State>, cuts: seq<nat>, workers: nat, rank: seq<nat>, q: nat)
    requires FairRun(r, cuts, workers, rank) && q < |cuts| && r.states[0].finishOnLast
    ensures r.states[cuts[q]].finishOnLast
  {
    var m := Terminating(workers, rank);
    forall s, s', w ensures LawfulStep(m, s, s', w) {
      if m.good(s) && m.follows(s, s', w) {
        GoesOnSound(s, s', w, workers, rank);
        FlagStays(s, s', w);
      }
    }
    SameRuns(System(workers, rank), m, r, cuts);
    GoodUntil(m, r, 0, cuts[q]);
  }

  /** Nine rounds later every worker has terminated. */
  lemma FairRunsEnd(r: Run<State>, cuts: seq<nat>, workers: nat, rank: seq<nat>, w: nat)
    requires FairRun(r, cuts, workers, rank) && |cuts| > RoundsNeeded(r.states[0]) + 9 && w < workers
    requires r.states[0].finishOnLast
    ensures HasStopped(r.Last(), w)
  {
    var m, q := Ending(workers, rank, w), RoundsNeeded(r.states[0]);
    SystemProgresses(workers, rank);
    FairRunsGetDone(System(workers, rank), NoneActive, Patience(workers), r, cuts, 0);
    FlagUntil(r, cuts, workers, rank, q);
    SameRuns(System(workers, rank), m, r, cuts);
    StopLeads(workers, rank, w);
    LastPieceOfWork(m, StopPlan(w), 9, r, cuts, q);
  }

  // ---------------------------------------------------------------------------------------------------------
  // Fair runs exist
  // ---------------------------------------------------------------------------------------------------------

  lemma AbleGoes(s: State, w: nat, workers: nat, rank: seq<nat>)
    requires Sound(s, workers, rank) && CanGoOn(s, w)
    ensures Steps(System(workers, rank), s, w)
  {
    var c := Patient(w).choice;
    var s' := WorkerStep(s, w, c);
    assert WorkerGoesOn(s, s', w, c);
    GoesOnSound(s, s', w, workers, rank);
    assert System(workers, rank).follows(s, s', w);
  }

  /** From every reachable state there are fair runs of any length, so that what holds of all of them is not empty. */
  lemma FairRunFrom(s: State, workers: nat, rank: seq<nat>, n: nat) returns (r: Run<State>, cuts: seq<nat>)
    requires Sound(s, workers, rank)
    ensures FairRun(r, cuts, workers, rank) && r.states[0] == s && |cuts| == n + 1 && cuts[n] == |r.who|
  {
    var m := System(workers, rank);
    forall x, w: nat | m.good(x) && w < workers && m.able(x, w) ensures Steps(m, x, w) { AbleGoes(x, w, workers, rank); }
    r, cuts := FairRunExists(m, s, n);
  }

  /** From every reachable state some execution finishes every task and stops every worker that may. */
  lemma EveryTaskCanFinish(s: State, workers: nat, rank: seq<nat>) returns (r: Run<State>)
    requires Sound(s, workers, rank)
    ensures IsRunOf(System(workers, rank), r) && r.states[0] == s
    ensures forall t :: 0 <= t < |r.Last().place| ==> r.Last().place[t].Finished?
    ensures s.finishOnLast ==> forall w: nat :: w < workers ==> HasStopped(r.Last(), w)
  {
    var cuts;
    r, cuts := FairRunFrom(s, workers, rank, RoundsNeeded(s) + 9);
    FairRunsFinish(r, cuts, workers, rank);
    if s.finishOnLast {
      forall w: nat | w < workers ensures HasStopped(r.Last(), w) { FairRunsEnd(r, cuts, workers, rank, w); }
    }
  }
}
