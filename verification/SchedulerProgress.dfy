/** A dependency graph without cycles, whose task bodies do not suspend, is executed completely. */
module SchedulerProgress {
  import opened Scheduler
  import opened SchedulerInvariant
  import opened SchedulerTheorems
  import opened SchedulerAccounting

  /** No task ever waits for a pending operation, and execution is not terminated forcibly. */
  predicate Plain(s: State) {
    && !s.force
    && (forall t :: 0 <= t < |s.pending| ==> s.pending[t] == [])
    && (forall w :: 0 <= w < |s.pc| ==> !s.pc[w].Requeue? && !s.pc[w].Yielded?)
  }

  predicate PlainLabel(l: Label) {
    match l
    case Act(_, c) => !c.suspends
    case ForceTermination => false
    case SetAffinity(_, _) => true
  }

  /** The step advances a task. */
  predicate Works(s: State, l: Label)
    requires Shape(s)
  {
    && l.Act? && l.w < |s.pc|
    && var w := l.w;
      match s.pc[w]
      case PopOwn => s.ready[w] != []
      case PopCommon => s.ready[Common(s)] != []
      case Polling(_) => true
      case LeaveWith(_) => true
      case Running(_) => true
      case Releasing(_, _) => true
      case Pushing(_, _) => true
      case Decount(_) => true
      case _ => false
  }

  function RankSum(s: State, n: nat): nat
    requires n <= |s.place|
    decreases n
  {
    if n == 0 then 0 else RankSum(s, n - 1) + Rank(s, n - 1)
  }

  function UnreleasedEdges(s: State): set<Edge> {
    set e | e in s.g.Edges() && e.slot >= Released(s, e.from)
  }

  /** Counts the working steps still to come. */
  function Measure(s: State): nat {
    RankSum(s, |s.place|) + |UnreleasedEdges(s)|
  }

  lemma {:induction false} RankSumDecreases(s: State, s': State, n: nat, u: nat)
    requires n <= |s.place| == |s'.place|
    requires forall t :: 0 <= t < n ==> Rank(s', t) <= Rank(s, t)
    ensures RankSum(s', n) <= RankSum(s, n)
    ensures u < n && Rank(s', u) < Rank(s, u) ==> RankSum(s', n) < RankSum(s, n)
    decreases n
  {
    if n > 0 { RankSumDecreases(s, s', n - 1, u); }
  }

  lemma PlainNeverWaits(s: State, w: nat, c: Choice)
    requires Inv(s) && Plain(s) && w < |s.pc| && !c.suspends
    ensures !WaitsAgain(s, w, c)
  {}

  lemma PlainStep(s: State, l: Label)
    requires Inv(s) && Plain(s) && Enabled(s, l) && PlainLabel(l)
    ensures Plain(Apply(s, l))
  {
    if l.Act? { PlainWorkerStep(s, l.w, l.choice); }
  }

  lemma PlainWorkerStep(s: State, w: nat, c: Choice)
    requires Inv(s) && Plain(s) && Enabled(s, Act(w, c)) && !c.suspends
    ensures Plain(WorkerStep(s, w, c))
  {
    PlainPc(s, w, c);
    PlainPending(s, w, c);
  }

  lemma PlainPc(s: State, w: nat, c: Choice)
    requires Basic(s) && Plain(s) && Enabled(s, Act(w, c)) && !c.suspends
    ensures var s' := WorkerStep(s, w, c); forall v :: 0 <= v < |s'.pc| ==> !s'.pc[v].Requeue? && !s'.pc[v].Yielded?
  {
    assert WorkerOk(s, w);
    var s' := WorkerStep(s, w, c);
    assert !s'.pc[w].Requeue? && !s'.pc[w].Yielded?;
  }

  lemma PlainPending(s: State, w: nat, c: Choice)
    requires Basic(s) && Plain(s) && Enabled(s, Act(w, c)) && !c.suspends
    ensures WorkerStep(s, w, c).pending == s.pending
  {
    assert WorkerOk(s, w);
  }

  /** The unreleased edges shrink by the one a decrement releases, and by nothing else. */
  lemma StepEdges(s: State, w: nat, c: Choice)
    requires Inv(s) && Enabled(s, Act(w, c))
    ensures UnreleasedEdges(WorkerStep(s, w, c)) <= UnreleasedEdges(s)
    ensures Decrements(s, w) ==> UnreleasedEdges(WorkerStep(s, w, c)) < UnreleasedEdges(s)
  {
    var s' := WorkerStep(s, w, c);
    if Decrements(s, w) {
      DecrementedIsBlocked(s, w);
      forall e | e in s.g.Edges() ensures Released(s', e.from) >= Released(s, e.from) { DecrementReleases(s, w, e.from); }
      DecrementReleases(s, w, s.pc[w].t);
      assert WorkerOk(s, w);
      assert Edge(s.pc[w].t, s.pc[w].k) in UnreleasedEdges(s);
      assert Edge(s.pc[w].t, s.pc[w].k) !in UnreleasedEdges(s');
    } else {
      CountersBlock(s);
      StepKeeps(s, w, c);
    }
  }

  lemma StrictSubsetSize(a: set<Edge>, b: set<Edge>)
    requires a <= b
    ensures |a| <= |b| && (a != b ==> |a| < |b|)
  {
    assert b == a + (b - a);
    assert |b| == |a| + |b - a|;
  }

  /** The task that a working step advances. */
  function Advanced(s: State, w: nat): nat
    requires Basic(s) && w < |s.pc| && Works(s, Act(w, Choice(true, true, true, false, [])))
  {
    assert WorkerOk(s, w);
    match s.pc[w]
    case PopOwn => s.ready[w][0]
    case PopCommon => s.ready[Common(s)][0]
    case Pushing(p, k) => s.g.out[p][k]
    case Polling(t) => t
    case LeaveWith(t) => t
    case Running(t) => t
    case Releasing(t, _) => t
    case Decount(t) => t
  }

  lemma TakeAdvances(s: State, w: nat, a: nat)
    requires w < |s.pc| && a < |s.ready| && s.ready[a] != []
    requires s.ready[a][0] < |s.place| && s.place[s.ready[a][0]].Queued?
    ensures Rank(Take(s, w, a, Polling(s.ready[a][0])), s.ready[a][0]) < Rank(s, s.ready[a][0])
  {}

  lemma WorkAdvances(s: State, w: nat, c: Choice)
    requires Basic(s) && CountersMatch(s) && Plain(s) && Enabled(s, Act(w, c)) && !c.suspends
    requires Works(s, Act(w, c)) && !Decrements(s, w)
    ensures var u := Advanced(s, w); u < |s.place| && Rank(WorkerStep(s, w, c), u) < Rank(s, u)
  {
    assert WorkerOk(s, w) && QueueOk(s, w) && QueueOk(s, Common(s));
    if s.pc[w].PopOwn? { TakeAdvances(s, w, w); }
    else if s.pc[w].PopCommon? { TakeAdvances(s, w, Common(s)); }
    else { CountersBlock(s); }
  }

  /** Every working step brings the run closer to its end, and no other step takes it further away. */
  lemma MeasureDecreases(s: State, l: Label)
    requires Inv(s) && Plain(s) && Enabled(s, l) && PlainLabel(l)
    ensures Measure(Apply(s, l)) <= Measure(s)
    ensures Works(s, l) ==> Measure(Apply(s, l)) < Measure(s)
  {
    if l.Act? {
      WorkerMeasure(s, l.w, l.choice);
    } else {
      var s' := Apply(s, l);
      RankSumDecreases(s, s', |s.place|, 0);
      assert UnreleasedEdges(s') == UnreleasedEdges(s);
    }
  }

  lemma WorkerMeasure(s: State, w: nat, c: Choice)
    requires Inv(s) && Plain(s) && Enabled(s, Act(w, c)) && !c.suspends
    ensures Measure(WorkerStep(s, w, c)) <= Measure(s)
    ensures Works(s, Act(w, c)) ==> Measure(WorkerStep(s, w, c)) < Measure(s)
  {
    var s' := WorkerStep(s, w, c);
    PlainNeverWaits(s, w, c);
    forall t | 0 <= t < |s.place| ensures Rank(s', t) <= Rank(s, t) { WorkerStepAges(s, w, c, t); }
    StepEdges(s, w, c);
    StrictSubsetSize(UnreleasedEdges(s'), UnreleasedEdges(s));
    RankSumDecreases(s, s', |s.place|, 0);
    if Works(s, Act(w, c)) && !Decrements(s, w) {
      WorkAdvances(s, w, c);
      RankSumDecreases(s, s', |s.place|, Advanced(s, w));
    }
  }

  // ---------------------------------------------------------------------------------------------------------
  // Executions
  // ---------------------------------------------------------------------------------------------------------

  /** The labels ls can be executed one after the other. */
  predicate Executable(s: State, ls: seq<Label>)
    decreases |ls|
  {
    ls == [] || (Basic(s) && Enabled(s, ls[0]) && PlainLabel(ls[0]) && Executable(Apply(s, ls[0]), ls[1..]))
  }

  function End(s: State, ls: seq<Label>): State
    requires Executable(s, ls)
    decreases |ls|
  {
    if ls == [] then s else End(Apply(s, ls[0]), ls[1..])
  }

  function WorkingSteps(s: State, ls: seq<Label>): nat
    requires Executable(s, ls)
    decreases |ls|
  {
    if ls == [] then 0
    else (if Works(s, ls[0]) then 1 else 0) + WorkingSteps(Apply(s, ls[0]), ls[1..])
  }

  /** A step of which nobody asks a sleeping worker to resume: it wakes up by its own check. */
  predicate Unprompted(l: Label) {
    PlainLabel(l) && l.Act? && !l.choice.asked
  }

  predicate AllUnprompted(ls: seq<Label>) {
    forall i :: 0 <= i < |ls| ==> Unprompted(ls[i])
  }

  lemma Prepend(s: State, l: Label, rest: seq<Label>)
    requires Basic(s) && Enabled(s, l) && PlainLabel(l) && Executable(Apply(s, l), rest)
    ensures Executable(s, [l] + rest)
    ensures Unprompted(l) && AllUnprompted(rest) ==> AllUnprompted([l] + rest)
    ensures WorkingSteps(s, [l] + rest) == (if Works(s, l) then 1 else 0) + WorkingSteps(Apply(s, l), rest)
  {
    assert ([l] + rest)[1..] == rest;
  }

  // ---------------------------------------------------------------------------------------------------------
  // Progress
  // ---------------------------------------------------------------------------------------------------------

  /** With no task queued or held, the active tasks are blocked on one another. */
  lemma {:induction false} SomeTaskReady(s: State, rank: seq<nat>, t: nat)
    requires Inv(s) && !s.force && s.g.Ordered(rank)
    requires t < |s.place| && IsActive(s.place[t])
    ensures (exists a :: 0 <= a < |s.ready| && s.ready[a] != []) || (exists w :: 0 <= w < |s.pc| && HoldsSome(s.pc[w]))
    decreases rank[t]
  {
    assert TaskOk(s, t) && CounterOk(s, t);
    match s.place[t]
    case Queued(a) =>
    case OnWorker(w) => assert HoldsSome(s.pc[w]);
    case Woken(w) => assert HoldsSome(s.pc[w]);
    case Blocked =>
      assert Unreleased(s, t) != {} by { assert |Unreleased(s, t)| > 0; }
      var e :| e in Unreleased(s, t);
      assert e.slot >= Released(s, e.from);
      assert !s.place[e.from].Finished?;
      SomeTaskReady(s, rank, e.from);
  }

  /** How far worker w is from popping a task, when one is in its own or in the common queue. */
  function Distance(s: State, w: nat): nat
    requires w < |s.pc| && |s.ready| == |s.pc| + 1
  {
    match s.pc[w]
    case PopCommon => if s.ready[Common(s)] != [] then 0 else 7
    case PopOwn => 1
    case Idle => 2
    case Asleep => 3
    case LeaveEmpty(_, _) => 4
    case CheckTermination(_) => 5
    case NoTask => 6
    case _ => 0
  }

  /** Going to sleep counts as being inside, so that the count falls when another worker has to be chosen. */
  function Weight(s: State, w: nat): nat
    requires w < |s.pc|
  {
    |InsideWorkers(s)| + if Inside(s.pc[w]) then 0 else 1
  }

  function Patient(w: nat): Label {
    Act(w, Choice(true, false, false, false, []))
  }

  lemma IdleStepMoves(s: State, w: nat)
    requires Basic(s) && !s.force && s.active > 0 && Enabled(s, Patient(w)) && !HoldsSome(s.pc[w]) && !Leaving(s.pc[w])
    requires !Draining(s.pc[w]) && !Works(s, Patient(w)) && (s.ready[w] != [] || s.ready[Common(s)] != [])
    ensures var s' := Apply(s, Patient(w));
      && s'.active == s.active && s'.ready == s.ready && w < |s'.pc| && !HoldsSome(s'.pc[w]) && Distance(s', w) < Distance(s, w)
  {}

  lemma SameWeight(s: State, w: nat)
    requires Basic(s) && Enabled(s, Patient(w))
    ensures var s' := Apply(s, Patient(w)); w < |s'.pc| && Weight(s', w) == Weight(s, w)
  {
    InsideChanges(s, Apply(s, Patient(w)), w);
  }

  /** A worker, or another that is awake when it may not wake up, comes to pop a queued task. */
  lemma {:induction false} WorkerReachesQueue(s: State, w: nat) returns (ls: seq<Label>)
    requires Inv(s) && Plain(s) && s.active > 0 && w < |s.pc| && !HoldsSome(s.pc[w])
    requires s.ready[w] != [] || s.ready[Common(s)] != []
    ensures Executable(s, ls) && AllUnprompted(ls) && WorkingSteps(s, ls) > 0
    decreases Weight(s, w), Distance(s, w)
  {
    if s.pc[w].Asleep? && !ResumeCheck(s, w) {
      assert InsideWorkers(s) != {};
      var v :| v in InsideWorkers(s);
      if HoldsSome(s.pc[v]) {
        ls := HolderWorks(s, v);
      } else {
        ls := WorkerReachesQueue(s, v);
      }
    } else {
      var l := Patient(w);
      var rest := [];
      if !Works(s, l) {
        IdleStepMoves(s, w);
        SameWeight(s, w);
        PlainInv(s, l);
        rest := WorkerReachesQueue(Apply(s, l), w);
      }
      Prepend(s, l, rest);
      ls := [l] + rest;
    }
  }

  lemma PlainInv(s: State, l: Label)
    requires Inv(s) && Plain(s) && Enabled(s, l) && PlainLabel(l)
    ensures Inv(Apply(s, l)) && Plain(Apply(s, l))
  {
    StepInv(s, l);
    PlainStep(s, l);
  }

  lemma HolderWorks(s: State, v: nat) returns (ls: seq<Label>)
    requires Inv(s) && Plain(s) && v < |s.pc| && HoldsSome(s.pc[v])
    ensures Executable(s, ls) && AllUnprompted(ls) && WorkingSteps(s, ls) > 0
  {
    Prepend(s, Patient(v), []);
    ls := [Patient(v)] + [];
  }

  /** While a task is active, some execution advances a task without any worker being asked to resume. */
  lemma AlwaysProgress(s: State, rank: seq<nat>) returns (ls: seq<Label>)
    requires Inv(s) && Plain(s) && s.g.Ordered(rank) && |s.pc| > 0 && s.active > 0
    ensures Executable(s, ls) && AllUnprompted(ls) && WorkingSteps(s, ls) > 0
  {
    assert ActiveTasks(s) != {};
    var t :| t in ActiveTasks(s);
    SomeTaskReady(s, rank, t);
    if w: nat :| w < |s.pc| && HoldsSome(s.pc[w]) {
      ls := HolderWorks(s, w);
    } else {
      var a: nat :| a < |s.ready| && s.ready[a] != [];
      ls := WorkerReachesQueue(s, if a < |s.pc| then a else 0);
    }
  }

  // ---------------------------------------------------------------------------------------------------------
  // Whole executions
  // ---------------------------------------------------------------------------------------------------------

  /** An execution has no more working steps than the measure of its first state. */
  lemma {:induction false} WorkIsBounded(s: State, ls: seq<Label>)
    requires Inv(s) && Plain(s) && Executable(s, ls)
    ensures Inv(End(s, ls)) && Plain(End(s, ls))
    ensures Measure(End(s, ls)) + WorkingSteps(s, ls) <= Measure(s)
    decreases |ls|
  {
    if ls != [] {
      StepInv(s, ls[0]);
      PlainStep(s, ls[0]);
      MeasureDecreases(s, ls[0]);
      WorkIsBounded(Apply(s, ls[0]), ls[1..]);
    }
  }
}
