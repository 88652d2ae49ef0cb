/** Every step of the scheduler keeps its invariants. */
module SchedulerInvariant {
  import opened Scheduler

  // ---------------------------------------------------------------------------------------------------------
  // The moves of which steps are made, and Basic
  // ---------------------------------------------------------------------------------------------------------

  /** Two states that agree on everything Basic reads. */
  predicate SameSkeleton(s: State, s': State) {
    && s'.g == s.g && s'.ready == s.ready && s'.place == s.place && s'.pc == s.pc
    && |s'.dep| == |s.dep| && |s'.pending| == |s.pending| && |s'.named| == |s.named|
    && |s'.affinity| == |s.affinity| && (forall t :: 0 <= t < |s'.affinity| ==> s'.affinity[t] < |s.pc|)
  }

  lemma SkeletonBasic(s: State, s': State)
    requires Basic(s) && SameSkeleton(s, s')
    ensures Basic(s')
  {
    forall a | 0 <= a < |s'.ready| ensures QueueOk(s', a) { assert QueueOk(s, a); }
    forall t | 0 <= t < |s'.place| ensures TaskOk(s', t) { assert TaskOk(s, t); }
    forall v | 0 <= v < |s'.pc| ensures WorkerOk(s', v) { assert WorkerOk(s, v); }
  }

  /** Of the in-counters, the steps read only whether they are positive. */
  predicate BlockedMatches(s: State)
    requires |s.dep| == |s.place|
  {
    forall t :: 0 <= t < |s.place| ==> (s.place[t].Blocked? <==> s.dep[t] > 0)
  }

  lemma CountersBlock(s: State)
    requires Shape(s) && CountersMatch(s)
    ensures BlockedMatches(s)
  {
    forall t | 0 <= t < |s.place| ensures s.place[t].Blocked? <==> s.dep[t] > 0 { assert CounterOk(s, t); }
  }

  /** A worker goes on with the task it holds, or with none. */
  lemma GotoBasic(s: State, w: nat, pc: Pc)
    requires Basic(s) && w < |s.pc| && !s.pc[w].Pushing? && !pc.Pushing?
    requires HoldsSome(pc) == HoldsSome(s.pc[w]) && (HoldsSome(pc) ==> Held(pc) == Held(s.pc[w]))
    requires pc.Releasing? ==> pc.t < |s.g.out| && pc.k <= |s.g.out[pc.t]|
    ensures Basic(Goto(s, w, pc))
  {
    var s' := Goto(s, w, pc);
    forall a | 0 <= a < |s'.ready| ensures QueueOk(s', a) { assert QueueOk(s, a); }
    forall t | 0 <= t < |s'.place| ensures TaskOk(s', t) { assert TaskOk(s, t); }
    forall v | 0 <= v < |s'.pc| ensures WorkerOk(s', v) { assert WorkerOk(s, v); }
  }

  lemma TakeBasic(s: State, w: nat, a: nat, pc: Pc)
    requires Basic(s) && w < |s.pc| && !HoldsSome(s.pc[w])
    requires a < |s.ready| && s.ready[a] != [] && s.ready[a][0] < |s.place|
    requires (pc.Polling? || pc.Discard?) && Held(pc) == s.ready[a][0]
    ensures Basic(Take(s, w, a, pc))
  {
    var s' := Take(s, w, a, pc);
    var u := s.ready[a][0];
    assert QueueOk(s, a);
    forall b | 0 <= b < |s'.ready| ensures QueueOk(s', b) { assert QueueOk(s, b); }
    forall t | 0 <= t < |s'.place| ensures TaskOk(s', t) {
      assert TaskOk(s, t);
      if t != u && s.place[t] == Queued(a) {
        assert s.ready[a] == [u] + s.ready[a][1..];
      }
    }
    forall v | 0 <= v < |s'.pc| ensures WorkerOk(s', v) { assert WorkerOk(s, v); }
  }

  /** The held task is pushed to a ready queue and the worker lets go of it. */
  lemma GiveBasic(s: State, w: nat, pc: Pc)
    requires Basic(s) && w < |s.pc| && (s.pc[w].Requeue? || s.pc[w].Yielded?) && !HoldsSome(pc)
    requires s.pc[w].t < |s.dep| && s.dep[s.pc[w].t] <= 0
    ensures Basic(Goto(ResumeTask(s, s.pc[w].t), w, pc))
  {
    var u := s.pc[w].t;
    var s' := Goto(ResumeTask(s, u), w, pc);
    var a := QueueOf(s, u);
    assert WorkerOk(s, w);
    forall b | 0 <= b < |s'.ready| ensures QueueOk(s', b) { assert QueueOk(s, b); }
    forall t | 0 <= t < |s'.place| ensures TaskOk(s', t) {
      assert TaskOk(s, t);
      assert s'.ready[a][|s.ready[a]|] == u;
    }
    forall v | 0 <= v < |s'.pc| ensures WorkerOk(s', v) { assert WorkerOk(s, v); }
  }

  /** The woken dependent is pushed to a ready queue and the worker turns to the next dependent. */
  lemma PushBasic(s: State, w: nat)
    requires Basic(s) && w < |s.pc| && s.pc[w].Pushing?
    requires BlockedMatches(s)
    ensures Basic(PushStep(s, w))
  {
    assert WorkerOk(s, w);
    var p, k := s.pc[w].t, s.pc[w].k;
    var u := s.g.out[p][k];
    var s' := PushStep(s, w);
    var a := QueueOf(s, u);
    forall b | 0 <= b < |s'.ready| ensures QueueOk(s', b) { assert QueueOk(s, b); }
    forall t | 0 <= t < |s'.place| ensures TaskOk(s', t) {
      assert TaskOk(s, t);
      assert s'.ready[a][|s.ready[a]|] == u;
    }
    forall v | 0 <= v < |s'.pc| ensures WorkerOk(s', v) { assert WorkerOk(s, v); }
  }

  /** The held task leaves the system. */
  lemma DropBasic(s: State, w: nat, pc: Pc, p: Place)
    requires Basic(s) && w < |s.pc| && (s.pc[w].Discard? || s.pc[w].Decount?) && !HoldsSome(pc)
    requires s.pc[w].t < |s.place| && (if s.pc[w].Decount? then p.Finished? else p.Absent?)
    ensures Basic(Put(Goto(s, w, pc), s.pc[w].t, p))
  {
    var s' := Put(Goto(s, w, pc), s.pc[w].t, p);
    assert WorkerOk(s, w);
    forall b | 0 <= b < |s'.ready| ensures QueueOk(s', b) { assert QueueOk(s, b); }
    forall t | 0 <= t < |s'.place| ensures TaskOk(s', t) { assert TaskOk(s, t); }
    forall v | 0 <= v < |s'.pc| ensures WorkerOk(s', v) { assert WorkerOk(s, v); }
  }

  /** The worker saw the in-counter of a blocked dependent at zero. */
  lemma WakeBasic(s: State, w: nat)
    requires Basic(s) && w < |s.pc| && s.pc[w].Releasing?
    requires s.pc[w].t < |s.g.out| && s.pc[w].k < |s.g.out[s.pc[w].t]|
    requires s.g.out[s.pc[w].t][s.pc[w].k] < |s.place| && s.place[s.g.out[s.pc[w].t][s.pc[w].k]].Blocked?
    ensures Basic(Put(Goto(s, w, Pushing(s.pc[w].t, s.pc[w].k)), s.g.out[s.pc[w].t][s.pc[w].k], Woken(w)))
  {
    var p, k := s.pc[w].t, s.pc[w].k;
    var s' := Put(Goto(s, w, Pushing(p, k)), s.g.out[p][k], Woken(w));
    assert WorkerOk(s, w);
    forall b | 0 <= b < |s'.ready| ensures QueueOk(s', b) { assert QueueOk(s, b); }
    forall t | 0 <= t < |s'.place| ensures TaskOk(s', t) { assert TaskOk(s, t); }
    forall v | 0 <= v < |s'.pc| ensures WorkerOk(s', v) { assert WorkerOk(s, v); }
  }

  lemma ReleaseBasic(s: State, w: nat)
    requires Basic(s) && w < |s.pc| && s.pc[w].Releasing?
    requires BlockedMatches(s)
    ensures Basic(ReleaseStep(s, w))
  {
    assert WorkerOk(s, w);
    var p, k := s.pc[w].t, s.pc[w].k;
    if k == |s.g.out[p]| {
      GotoBasic(s, w, Decount(p));
    } else {
      var d := s.g.out[p][k];
      var s1 := s.(dep := s.dep[d := s.dep[d] - 1]);
      SkeletonBasic(s, s1);
      if s1.dep[d] == 0 {
        WakeBasic(s1, w);
      } else {
        GotoBasic(s1, w, Releasing(p, k + 1));
      }
    }
  }

  lemma QueueStepBasic(s: State, w: nat)
    requires Basic(s) && w < |s.pc|
    ensures s.pc[w].PopOwn? || s.pc[w].PopCommon? ==> Basic(PopStep(s, w))
    ensures s.pc[w].DrainCommon? || s.pc[w].DrainOwn? ==> Basic(DrainStep(s, w))
  {
    var pc := s.pc[w];
    assert QueueOk(s, w) && QueueOk(s, Common(s));
    if pc.PopOwn? || pc.PopCommon? {
      var a := if pc.PopOwn? then w else Common(s);
      if s.ready[a] != [] { TakeBasic(s, w, a, Polling(s.ready[a][0])); }
      else { GotoBasic(s, w, if pc.PopOwn? then PopCommon else NoTask); }
    } else if pc.DrainCommon? || pc.DrainOwn? {
      var a := if pc.DrainCommon? then Common(s) else w;
      if s.ready[a] != [] { TakeBasic(s, w, a, Discard(s.ready[a][0], pc.DrainCommon?)); }
      else { GotoBasic(s, w, if pc.DrainCommon? then DrainOwn else PopOwn); }
    }
  }

  lemma EndStepBasic(s: State, w: nat)
    requires Basic(s) && w < |s.pc|
    ensures s.pc[w].Discard? ==> Basic(DiscardStep(s, w))
    ensures s.pc[w].Decount? ==> Basic(DecountStep(s, w))
  {
    assert WorkerOk(s, w);
    var pc := s.pc[w];
    if pc.Discard? {
      var next := if pc.common then DrainCommon else DrainOwn;
      DropBasic(s, w, next, Absent);
      SkeletonBasic(Put(Goto(s, w, next), pc.t, Absent), DiscardStep(s, w));
    } else if pc.Decount? {
      DropBasic(s, w, Idle, Finished);
      SkeletonBasic(Put(Goto(s, w, Idle), pc.t, Finished), DecountStep(s, w));
    }
  }

  lemma BodyStepBasic(s: State, w: nat, c: Choice)
    requires Basic(s) && w < |s.pc|
    ensures s.pc[w].Polling? ==> Basic(PollStep(s, w, c.ok))
    ensures s.pc[w].Running? ==> Basic(BodyStep(s, w, c.suspends, c.ops))
  {
    assert WorkerOk(s, w);
    var pc := s.pc[w];
    if pc.Polling? {
      GotoBasic(s, w, LeaveWith(pc.t));
      GotoBasic(s, w, Requeue(pc.t));
      if s.pending[pc.t] != [] { SkeletonBasic(s, s.(pending := s.pending[pc.t := s.pending[pc.t][1..]])); }
    } else if pc.Running? {
      GotoBasic(s, w, Releasing(pc.t, 0));
      GotoBasic(s, w, Yielded(pc.t));
      SkeletonBasic(Goto(s, w, Yielded(pc.t)), BodyStep(s, w, true, c.ops));
    }
  }

  /** The worker moves on without touching a queue or a task's place. */
  lemma IdleStepBasic(s: State, w: nat, c: Choice)
    requires Basic(s) && Enabled(s, Act(w, c))
    requires var pc := s.pc[w];
      pc.Idle? || pc.LeaveWith? || pc.NoTask? || pc.CheckTermination? || pc.LeaveEmpty? || pc.Asleep?
    ensures Basic(WorkerStep(s, w, c))
  {
    assert WorkerOk(s, w);
    var s' := WorkerStep(s, w, c);
    GotoBasic(s, w, s'.pc[w]);
    SkeletonBasic(Goto(s, w, s'.pc[w]), s');
  }

  lemma HandoverBasic(s: State, w: nat)
    requires Basic(s) && w < |s.pc|
    requires BlockedMatches(s)
    ensures s.pc[w].Requeue? ==> Basic(RequeueStep(s, w))
    ensures s.pc[w].Yielded? ==> Basic(SuspendCallbackStep(s, w))
  {
    assert WorkerOk(s, w);
    match s.pc[w]
    case Requeue(t) => GiveBasic(s, w, NoTask);
    case Yielded(t) => GiveBasic(s, w, Idle);
    case _ =>
  }

  lemma WorkerStepBasic(s: State, w: nat, c: Choice)
    requires Basic(s) && Enabled(s, Act(w, c)) && BlockedMatches(s)
    ensures Basic(WorkerStep(s, w, c))
  {
    match s.pc[w]
    case Releasing(_, _) => ReleaseBasic(s, w);
    case Pushing(_, _) => PushBasic(s, w);
    case Requeue(_) => HandoverBasic(s, w);
    case Yielded(_) => HandoverBasic(s, w);
    case PopOwn => QueueStepBasic(s, w);
    case PopCommon => QueueStepBasic(s, w);
    case DrainOwn => QueueStepBasic(s, w);
    case DrainCommon => QueueStepBasic(s, w);
    case Discard(_, _) => EndStepBasic(s, w);
    case Decount(_) => EndStepBasic(s, w);
    case Polling(_) => BodyStepBasic(s, w, c);
    case Running(_) => BodyStepBasic(s, w, c);
    case Idle => IdleStepBasic(s, w, c);
    case LeaveWith(_) => IdleStepBasic(s, w, c);
    case NoTask => IdleStepBasic(s, w, c);
    case CheckTermination(_) => IdleStepBasic(s, w, c);
    case LeaveEmpty(_, _) => IdleStepBasic(s, w, c);
    case Asleep => IdleStepBasic(s, w, c);
  }

  lemma StepBasic(s: State, l: Label)
    requires Basic(s) && CountersMatch(s) && Enabled(s, l)
    ensures Basic(Apply(s, l))
  {
    CountersBlock(s);
    if l.Act? {
      WorkerStepBasic(s, l.w, l.choice);
    } else {
      SkeletonBasic(s, Apply(s, l));
    }
  }

  // ---------------------------------------------------------------------------------------------------------
  // In-counters
  // ---------------------------------------------------------------------------------------------------------

  /** No in-counter changes, no task is released further, none becomes or ceases to be blocked or moves to a worker
      that its affinity excludes. */
  predicate Keeps(s: State, s': State) {
    && s'.g == s.g && s'.dep == s.dep && |s'.place| == |s.place| == |s.named| == |s'.named|
    && forall p :: 0 <= p < |s.place| ==>
         && Released(s', p) == Released(s, p)
         && (s'.place[p].Blocked? <==> s.place[p].Blocked?)
         && (AffinityOk(s, p) ==> AffinityOk(s', p))
  }

  /** The same tasks are active, and so says the counter. */
  predicate SameActive(s: State, s': State) {
    && s'.active == s.active && |s'.place| == |s.place|
    && forall p :: 0 <= p < |s.place| ==> (IsActive(s'.place[p]) <==> IsActive(s.place[p]))
  }

  lemma TakeKeeps(s: State, w: nat, a: nat, pc: Pc)
    requires Basic(s) && w < |s.pc| && !HoldsSome(s.pc[w]) && (pc.Polling? || pc.Discard?)
    requires (a == w || a == Common(s)) && s.ready[a] != [] && s.ready[a][0] < |s.place|
    ensures Keeps(s, Take(s, w, a, pc)) && SameActive(s, Take(s, w, a, pc))
  {
    assert QueueOk(s, a);
    var s' := Take(s, w, a, pc);
    forall p | 0 <= p < |s.place| ensures Released(s', p) == Released(s, p) { assert TaskOk(s, p); }
  }

  /** The task pushed to a queue was on worker w, or woken by it, and any other task p is left alone. */
  lemma GiveKeepsTask(s: State, w: nat, u: nat, pc: Pc, p: nat)
    requires Shape(s) && w < |s.pc| && p < |s.place| && u < |s.place| && TaskOk(s, p) && s.dep[u] <= 0
    requires || ((s.pc[w].Requeue? || s.pc[w].Yielded?) && s.pc[w].t == u && s.place[u] == OnWorker(w) && !HoldsSome(pc))
             || (s.pc[w].Pushing? && s.place[u] == Woken(w) && pc == Releasing(s.pc[w].t, s.pc[w].k + 1))
    ensures var s' := Goto(ResumeTask(s, u), w, pc);
      && Released(s', p) == Released(s, p)
      && (s'.place[p].Blocked? <==> s.place[p].Blocked?)
      && (IsActive(s'.place[p]) <==> IsActive(s.place[p]))
      && (AffinityOk(s, p) ==> AffinityOk(s', p))
  {}

  lemma GiveKeeps(s: State, w: nat, u: nat, pc: Pc)
    requires Shape(s) && (forall p :: 0 <= p < |s.place| ==> TaskOk(s, p))
    requires w < |s.pc| && u < |s.place| && s.dep[u] <= 0
    requires || ((s.pc[w].Requeue? || s.pc[w].Yielded?) && s.pc[w].t == u && s.place[u] == OnWorker(w) && !HoldsSome(pc))
             || (s.pc[w].Pushing? && s.place[u] == Woken(w) && pc == Releasing(s.pc[w].t, s.pc[w].k + 1))
    ensures Keeps(s, Goto(ResumeTask(s, u), w, pc))
    ensures SameActive(s, Goto(ResumeTask(s, u), w, pc))
  {
    var s' := Goto(ResumeTask(s, u), w, pc);
    forall p | 0 <= p < |s.place|
      ensures Released(s', p) == Released(s, p) && (s'.place[p].Blocked? <==> s.place[p].Blocked?)
      ensures (IsActive(s'.place[p]) <==> IsActive(s.place[p])) && (AffinityOk(s, p) ==> AffinityOk(s', p))
    {
      GiveKeepsTask(s, w, u, pc, p);
    }
  }

  lemma HandoverKeeps(s: State, w: nat)
    requires Basic(s) && BlockedMatches(s) && w < |s.pc|
    ensures s.pc[w].Requeue? ==> Keeps(s, RequeueStep(s, w)) && SameActive(s, RequeueStep(s, w))
    ensures s.pc[w].Yielded? ==> Keeps(s, SuspendCallbackStep(s, w)) && SameActive(s, SuspendCallbackStep(s, w))
    ensures s.pc[w].Pushing? ==> Keeps(s, PushStep(s, w)) && SameActive(s, PushStep(s, w))
  {
    assert WorkerOk(s, w);
    match s.pc[w]
    case Requeue(u) => GiveKeeps(s, w, u, NoTask);
    case Yielded(u) => GiveKeeps(s, w, u, Idle);
    case Pushing(p, k) => GiveKeeps(s, w, s.g.out[p][k], Releasing(p, k + 1));
    case _ =>
  }

  lemma DropKeeps(s: State, w: nat, pc: Pc, p: Place)
    requires Shape(s) && (forall t :: 0 <= t < |s.place| ==> TaskOk(s, t))
    requires w < |s.pc| && (s.pc[w].Discard? || s.pc[w].Decount?) && !HoldsSome(pc)
    requires s.pc[w].t < |s.place| && s.place[s.pc[w].t] == OnWorker(w)
    requires if s.pc[w].Decount? then p.Finished? else p.Absent?
    ensures Keeps(s, Put(Goto(s, w, pc), s.pc[w].t, p))
  {
    var s' := Put(Goto(s, w, pc), s.pc[w].t, p);
    forall t | 0 <= t < |s.place| ensures Released(s', t) == Released(s, t) { assert TaskOk(s, t); }
  }

  lemma EndKeeps(s: State, w: nat)
    requires Basic(s) && w < |s.pc|
    ensures s.pc[w].Discard? ==> Keeps(s, DiscardStep(s, w))
    ensures s.pc[w].Decount? ==> Keeps(s, DecountStep(s, w))
  {
    assert WorkerOk(s, w);
    match s.pc[w]
    case Discard(t, common) =>
      DropKeeps(s, w, if common then DrainCommon else DrainOwn, Absent);
      CounterKeeps(s, Put(Goto(s, w, if common then DrainCommon else DrainOwn), t, Absent), s.active - 1);
    case Decount(t) =>
      DropKeeps(s, w, Idle, Finished);
      CounterKeeps(s, Put(Goto(s, w, Idle), t, Finished), s.active - 1);
    case _ =>
  }

  lemma CounterKeeps(s: State, s1: State, active: int)
    requires Keeps(s, s1)
    ensures Keeps(s, s1.(active := active))
  {
    forall t | 0 <= t < |s.place|
      ensures Released(s1.(active := active), t) == Released(s, t)
      ensures AffinityOk(s, t) ==> AffinityOk(s1.(active := active), t)
    {
      assert Released(s1, t) == Released(s, t);
      assert AffinityOk(s, t) ==> AffinityOk(s1, t);
    }
  }

  lemma QueueKeeps(s: State, w: nat)
    requires Basic(s) && w < |s.pc|
    ensures s.pc[w].PopOwn? || s.pc[w].PopCommon? ==> Keeps(s, PopStep(s, w)) && SameActive(s, PopStep(s, w))
    ensures s.pc[w].DrainCommon? || s.pc[w].DrainOwn? ==> Keeps(s, DrainStep(s, w)) && SameActive(s, DrainStep(s, w))
  {
    var pc := s.pc[w];
    assert QueueOk(s, w) && QueueOk(s, Common(s));
    if pc.PopOwn? || pc.PopCommon? {
      var a := if pc.PopOwn? then w else Common(s);
      if s.ready[a] != [] { TakeKeeps(s, w, a, Polling(s.ready[a][0])); }
    } else if pc.DrainCommon? || pc.DrainOwn? {
      var a := if pc.DrainCommon? then Common(s) else w;
      if s.ready[a] != [] { TakeKeeps(s, w, a, Discard(s.ready[a][0], pc.DrainCommon?)); }
    }
  }

  predicate Decrements(s: State, w: nat)
    requires w < |s.pc|
  {
    s.pc[w].Releasing? && s.pc[w].t < |s.g.out| && s.pc[w].k < |s.g.out[s.pc[w].t]|
  }

  predicate MovesNoTask(pc: Pc) {
    pc.Idle? || pc.Polling? || pc.LeaveWith? || pc.NoTask? || pc.CheckTermination? || pc.LeaveEmpty? || pc.Running?
    || pc.Releasing? || pc.Asleep?
  }

  /** Worker w moves on, releases nothing, and no task moves. */
  predicate MovesOn(s: State, s': State, w: nat) {
    && w < |s.pc| == |s'.pc| && s'.pc == s.pc[w := s'.pc[w]]
    && s'.place == s.place && s'.g == s.g && s'.dep == s.dep && s'.named == s.named && s'.active == s.active
    && (HoldsSome(s.pc[w]) && Held(s.pc[w]) < Tasks(s) ==>
          var n := |s.g.out[Held(s.pc[w])]|; Progress(s'.pc[w], n) == Progress(s.pc[w], n))
  }

  lemma PlainMoves(s: State, w: nat, c: Choice)
    requires Basic(s) && Enabled(s, Act(w, c)) && !Decrements(s, w) && MovesNoTask(s.pc[w])
    ensures MovesOn(s, WorkerStep(s, w, c), w)
  {
    assert WorkerOk(s, w);
  }

  lemma MovesOnKeeps(s: State, s': State, w: nat)
    requires Shape(s) && (forall p :: 0 <= p < |s.place| ==> TaskOk(s, p)) && MovesOn(s, s', w)
    ensures Keeps(s, s') && SameActive(s, s')
  {
    forall p | 0 <= p < |s.place| ensures Released(s', p) == Released(s, p) { assert TaskOk(s, p); }
  }

  lemma PlainKeeps(s: State, w: nat, c: Choice)
    requires Basic(s) && Enabled(s, Act(w, c)) && !Decrements(s, w) && MovesNoTask(s.pc[w])
    ensures Keeps(s, WorkerStep(s, w, c)) && SameActive(s, WorkerStep(s, w, c))
  {
    PlainMoves(s, w, c);
    MovesOnKeeps(s, WorkerStep(s, w, c), w);
  }

  lemma StepKeeps(s: State, w: nat, c: Choice)
    requires Basic(s) && Enabled(s, Act(w, c)) && !Decrements(s, w) && BlockedMatches(s)
    ensures Keeps(s, WorkerStep(s, w, c))
    ensures !s.pc[w].Discard? && !s.pc[w].Decount? ==> SameActive(s, WorkerStep(s, w, c))
  {
    assert WorkerOk(s, w);
    match s.pc[w]
    case Pushing(_, _) => HandoverKeeps(s, w);
    case Requeue(_) => HandoverKeeps(s, w);
    case Yielded(_) => HandoverKeeps(s, w);
    case PopOwn => QueueKeeps(s, w);
    case PopCommon => QueueKeeps(s, w);
    case DrainOwn => QueueKeeps(s, w);
    case DrainCommon => QueueKeeps(s, w);
    case Discard(_, _) => EndKeeps(s, w);
    case Decount(_) => EndKeeps(s, w);
    case Idle => PlainKeeps(s, w, c);
    case Polling(_) => PlainKeeps(s, w, c);
    case LeaveWith(_) => PlainKeeps(s, w, c);
    case NoTask => PlainKeeps(s, w, c);
    case CheckTermination(_) => PlainKeeps(s, w, c);
    case LeaveEmpty(_, _) => PlainKeeps(s, w, c);
    case Running(_) => PlainKeeps(s, w, c);
    case Releasing(_, _) => PlainKeeps(s, w, c);
    case Asleep => PlainKeeps(s, w, c);
  }

  lemma KeepsCounters(s: State, s': State)
    requires CountersMatch(s) && Basic(s) && Basic(s') && Keeps(s, s')
    ensures CountersMatch(s')
  {
    forall t | 0 <= t < |s'.place| ensures CounterOk(s', t) {
      forall e | e in s.g.Into(t) ensures Released(s', e.from) == Released(s, e.from) { assert e.from < |s.place|; }
      assert Unreleased(s', t) == Unreleased(s, t);
      assert CounterOk(s, t);
    }
  }

  lemma DecrementReleases(s: State, w: nat, q: nat)
    requires Basic(s) && w < |s.pc| && Decrements(s, w) && q < |s.place|
    requires var d := s.g.out[s.pc[w].t][s.pc[w].k]; s.place[d].Blocked?
    ensures var s' := ReleaseStep(s, w);
      Released(s', q) == Released(s, q) + if q == s.pc[w].t then 1 else 0
  {
    assert WorkerOk(s, w) && TaskOk(s, q);
  }

  /** The edge about to be released is unreleased, so the dependent's counter is positive. */
  lemma DecrementedIsBlocked(s: State, w: nat)
    requires Basic(s) && CountersMatch(s) && w < |s.pc| && Decrements(s, w)
    ensures s.place[s.g.out[s.pc[w].t][s.pc[w].k]].Blocked?
  {
    assert WorkerOk(s, w);
    var p, k := s.pc[w].t, s.pc[w].k;
    assert Released(s, p) == k;
    assert Edge(p, k) in Unreleased(s, s.g.out[p][k]);
    assert CounterOk(s, s.g.out[p][k]);
  }

  /** The decrement takes exactly its own edge out of the unreleased ones. */
  lemma DecrementUnreleased(s: State, w: nat, t: nat)
    requires Basic(s) && w < |s.pc| && Decrements(s, w) && t < |s.place|
    requires s.place[s.g.out[s.pc[w].t][s.pc[w].k]].Blocked?
    ensures var p, k := s.pc[w].t, s.pc[w].k;
      && Edge(p, k) in Unreleased(s, s.g.out[p][k])
      && Unreleased(ReleaseStep(s, w), t) == Unreleased(s, t) - if t == s.g.out[p][k] then {Edge(p, k)} else {}
  {
    assert WorkerOk(s, w);
    var p, k := s.pc[w].t, s.pc[w].k;
    var s' := ReleaseStep(s, w);
    assert Released(s, p) == k;
    assert s'.g == s.g;
    forall e | e in s.g.Into(t)
      ensures e in Unreleased(s', t) <==> e in Unreleased(s, t) && e != Edge(p, k)
    {
      DecrementReleases(s, w, e.from);
    }
  }

  lemma DecrementCounters(s: State, w: nat)
    requires Basic(s) && CountersMatch(s) && w < |s.pc| && Decrements(s, w)
    ensures CountersMatch(ReleaseStep(s, w))
  {
    assert WorkerOk(s, w);
    DecrementedIsBlocked(s, w);
    var d := s.g.out[s.pc[w].t][s.pc[w].k];
    var s' := ReleaseStep(s, w);
    forall t | 0 <= t < |s'.place|
      ensures CounterOk(s', t)
    {
      DecrementUnreleased(s, w, t);
      assert CounterOk(s, t);
      assert s'.dep[t] == s.dep[t] - if t == d then 1 else 0;
      assert s'.place[t].Blocked? <==> s.place[t].Blocked? && s'.dep[t] > 0;
    }
  }

  lemma WorkerStepCounters(s: State, w: nat, c: Choice)
    requires Basic(s) && CountersMatch(s) && Enabled(s, Act(w, c)) && !Decrements(s, w)
    ensures CountersMatch(WorkerStep(s, w, c))
  {
    CountersBlock(s);
    WorkerStepBasic(s, w, c);
    StepKeeps(s, w, c);
    KeepsCounters(s, WorkerStep(s, w, c));
  }

  lemma StepCounters(s: State, l: Label)
    requires Basic(s) && CountersMatch(s) && Enabled(s, l)
    ensures CountersMatch(Apply(s, l))
  {
    if l.Act? {
      if Decrements(s, l.w) { DecrementCounters(s, l.w); } else { WorkerStepCounters(s, l.w, l.choice); }
    } else {
      SkeletonBasic(s, Apply(s, l));
      KeepsCounters(s, Apply(s, l));
    }
  }

  // ---------------------------------------------------------------------------------------------------------
  // The two counters of the runtime, affinity and termination
  // ---------------------------------------------------------------------------------------------------------

  lemma EndActive(s: State, w: nat)
    requires Basic(s) && ActiveMatches(s) && w < |s.pc|
    ensures s.pc[w].Discard? ==> ActiveMatches(DiscardStep(s, w))
    ensures s.pc[w].Decount? ==> ActiveMatches(DecountStep(s, w))
  {
    assert WorkerOk(s, w);
    if s.pc[w].Discard? || s.pc[w].Decount? {
      var s' := if s.pc[w].Discard? then DiscardStep(s, w) else DecountStep(s, w);
      assert s.pc[w].t in ActiveTasks(s);
      assert ActiveTasks(s') == ActiveTasks(s) - {s.pc[w].t};
    }
  }

  lemma WorkerStepActive(s: State, w: nat, c: Choice)
    requires Basic(s) && CountersMatch(s) && Enabled(s, Act(w, c)) && !s.pc[w].Discard? && !s.pc[w].Decount?
    ensures SameActive(s, WorkerStep(s, w, c))
  {
    if Decrements(s, w) {
      DecrementedIsBlocked(s, w);
      DecrementSameActive(s, w);
    } else {
      CountersBlock(s);
      StepKeeps(s, w, c);
    }
  }

  lemma SameActiveMatches(s: State, s': State)
    requires ActiveMatches(s) && SameActive(s, s')
    ensures ActiveMatches(s')
  {
    assert ActiveTasks(s') == ActiveTasks(s);
  }

  lemma StepActive(s: State, l: Label)
    requires Basic(s) && CountersMatch(s) && ActiveMatches(s) && Enabled(s, l)
    ensures ActiveMatches(Apply(s, l))
  {
    if l.Act? {
      if s.pc[l.w].Discard? || s.pc[l.w].Decount? {
        EndActive(s, l.w);
      } else {
        WorkerStepActive(s, l.w, l.choice);
        SameActiveMatches(s, Apply(s, l));
      }
    }
  }

  lemma DecrementSameActive(s: State, w: nat)
    requires Basic(s) && w < |s.pc| && Decrements(s, w)
    requires s.place[s.g.out[s.pc[w].t][s.pc[w].k]].Blocked?
    ensures SameActive(s, ReleaseStep(s, w))
  {}

  /** When only worker w moves, the set of workers inside the pull function changes with it. */
  lemma InsideChanges(s: State, s': State, w: nat)
    requires w < |s.pc| == |s'.pc| && s'.pc == s.pc[w := s'.pc[w]]
    ensures |InsideWorkers(s')| + (if Inside(s.pc[w]) then 1 else 0) == |InsideWorkers(s)| + (if Inside(s'.pc[w]) then 1 else 0)
  {
    assert InsideWorkers(s') == InsideWorkers(s) - {w} + if Inside(s'.pc[w]) then {w} else {};
    assert w in InsideWorkers(s) <==> Inside(s.pc[w]);
  }

  lemma StepInside(s: State, l: Label)
    requires Basic(s) && InsideMatches(s) && Enabled(s, l)
    ensures InsideMatches(Apply(s, l))
  {
    var s' := Apply(s, l);
    if l.Act? {
      InsideChanges(s, s', l.w);
    }
  }

  lemma DecrementAffinity(s: State, w: nat)
    requires Basic(s) && AffinityMatches(s) && w < |s.pc| && Decrements(s, w)
    requires s.place[s.g.out[s.pc[w].t][s.pc[w].k]].Blocked?
    ensures AffinityMatches(ReleaseStep(s, w))
  {
    var s' := ReleaseStep(s, w);
    forall t | 0 <= t < |s'.place| && t < |s'.named| ensures AffinityOk(s', t) { assert AffinityOk(s, t); }
  }

  /** A task on a worker was popped from that worker's queue or from the common one. */
  lemma StepAffinity(s: State, l: Label)
    requires Basic(s) && CountersMatch(s) && AffinityMatches(s) && Enabled(s, l)
    ensures AffinityMatches(Apply(s, l))
  {
    if l.Act? && Decrements(s, l.w) {
      DecrementedIsBlocked(s, l.w);
      DecrementAffinity(s, l.w);
    } else {
      if l.Act? {
        CountersBlock(s);
        StepKeeps(s, l.w, l.choice);
      }
      var s' := Apply(s, l);
      forall t | 0 <= t < |s'.place| && t < |s'.named| ensures AffinityOk(s', t) { assert AffinityOk(s, t); }
    }
  }

  /** A worker that ends a task holds an active one, so the counter was not zero. */
  lemma EndingIsActive(s: State, w: nat)
    requires Basic(s) && ActiveMatches(s) && w < |s.pc| && HoldsSome(s.pc[w])
    ensures s.active > 0
  {
    assert WorkerOk(s, w);
    assert Held(s.pc[w]) in ActiveTasks(s);
  }

  /** Once zero, the active counter stays zero. */
  lemma StaysZero(s: State, w: nat, c: Choice)
    requires Basic(s) && CountersMatch(s) && ActiveMatches(s) && Enabled(s, Act(w, c)) && s.active == 0
    ensures WorkerStep(s, w, c).active == 0
  {
    if s.pc[w].Discard? || s.pc[w].Decount? {
      EndingIsActive(s, w);
    } else {
      WorkerStepActive(s, w, c);
    }
  }

  lemma StepStops(s: State, l: Label)
    requires Basic(s) && CountersMatch(s) && ActiveMatches(s) && StopsMatch(s) && Enabled(s, l)
    ensures StopsMatch(Apply(s, l))
  {
    if l.Act? {
      if s.active == 0 { StaysZero(s, l.w, l.choice); }
      var s' := WorkerStep(s, l.w, l.choice);
      forall v | 0 <= v < |s'.pc| && Leaving(s'.pc[v]) ensures s'.active == 0 {}
    }
  }

  lemma StepDrains(s: State, l: Label)
    requires Basic(s) && DrainsMatch(s) && Enabled(s, l)
    ensures DrainsMatch(Apply(s, l))
  {
    if l.Act? && !s.force { WorkerStepDrains(s, l.w, l.choice); }
  }

  lemma WorkerStepDrains(s: State, w: nat, c: Choice)
    requires Basic(s) && !s.force && DrainsMatch(s) && Enabled(s, Act(w, c))
    ensures DrainsMatch(WorkerStep(s, w, c))
  {
    var s' := WorkerStep(s, w, c);
    assert !Draining(s.pc[w]) && !Draining(s'.pc[w]);
    forall t | 0 <= t < |s'.place| ensures !s'.place[t].Absent? { assert !s.place[t].Absent?; }
  }

  // ---------------------------------------------------------------------------------------------------------
  // All runs
  // ---------------------------------------------------------------------------------------------------------

  lemma StepInv(s: State, l: Label)
    requires Inv(s) && Enabled(s, l)
    ensures Inv(Apply(s, l))
  {
    StepBasic(s, l);
    StepCounters(s, l);
    StepAffinity(s, l);
    StepActive(s, l);
    StepInside(s, l);
    StepStops(s, l);
    StepDrains(s, l);
  }

  lemma InitInv(s: State)
    requires Init(s)
    ensures Inv(s)
  {
    forall t | 0 <= t < |s.place| ensures CounterOk(s, t) && AffinityOk(s, t) {
      forall e | e in s.g.Into(t) ensures Released(s, e.from) == 0 { assert e.from < |s.place|; }
      assert Unreleased(s, t) == s.g.Into(t);
    }
    assert InsideWorkers(s) == {};
    AllTasks(s, Tasks(s));
  }

  lemma {:induction false} AllTasks(s: State, n: nat)
    requires Init(s) && n <= Tasks(s)
    ensures |set t: nat | t < n && IsActive(s.place[t])| == n
    ensures n == Tasks(s) ==> |ActiveTasks(s)| == n
    decreases n
  {
    if n > 0 {
      AllTasks(s, n - 1);
      assert (set t: nat | t < n && IsActive(s.place[t])) == (set t: nat | t < n - 1 && IsActive(s.place[t])) + {n - 1};
    }
    assert n == Tasks(s) ==> ActiveTasks(s) == (set t: nat | t < n && IsActive(s.place[t]));
  }

  lemma {:induction false} RunInv(tr: seq<State>, i: nat)
    requires IsRun(tr) && i < |tr|
    ensures Inv(tr[i])
    decreases i
  {
    if i == 0 {
      InitInv(tr[0]);
    } else {
      RunInv(tr, i - 1);
      assert StepAt(tr, i - 1);
      var l :| Enabled(tr[i - 1], l) && tr[i] == Apply(tr[i - 1], l);
      StepInv(tr[i - 1], l);
    }
  }

  lemma RunLabel(tr: seq<State>, i: nat) returns (l: Label)
    requires IsRun(tr) && i + 1 < |tr|
    ensures Inv(tr[i]) && Enabled(tr[i], l) && tr[i + 1] == Apply(tr[i], l)
  {
    RunInv(tr, i);
    assert StepAt(tr, i);
    l :| Enabled(tr[i], l) && tr[i + 1] == Apply(tr[i], l);
  }
}
