/**
How the contended counter can get stuck. A worker looks at its own queue first, so that a task waiting there keeps it from
the common queue; when every worker is so occupied and the owner of the mutex is in the common queue, it stays there.
*/
module MutexStarvation {
  import opened Scheduler
  import opened SchedulerInvariant
  import opened SchedulerPolling
  import opened SchedulerTheorems
  import opened TaskMutex
  import opened MutexClient
  import Turns

  /** Task g belongs to worker w and waits for the mutex, which task o owns; the worker comes from polling it, or will come to
      its own queue before the common one. */
  predicate Guarded(x: Client, o: nat, w: nat, g: nat) {
    && g < |x.point| == |x.s.place| == |x.s.pending| == |x.s.affinity| && w < |x.s.pc| && g != o
    && x.s.affinity[g] == w && x.point[g] == Suspended && x.s.pending[g] == [OWNS_LOCK]
    && !x.s.pc[w].PopCommon?
    && (x.s.place[g] == Queued(w)
        || (x.s.place[g] == OnWorker(w) && (x.s.pc[w] == Polling(g) || x.s.pc[w] == Requeue(g) || x.s.pc[w] == Yielded(g))))
  }

  /** Task o is in the common queue, or comes to it next. */
  predicate InCommon(s: State, o: nat) {
    && o < |s.place| == |s.affinity| && s.affinity[o] < 0
    && match s.place[o]
       case Queued(a) => a == Common(s)
       case OnWorker(v) => v < |s.pc| && (s.pc[v] == Requeue(o) || s.pc[v] == Yielded(o))
       case _ => false
  }

  /** Every worker is occupied with a waiting task of its own, and the owner of the mutex is in the common queue. */
  predicate Starved(x: Client, o: nat, guards: seq<nat>) {
    && o < |x.point| && x.m.owner == OwnedBy(o) && x.unlocking == Free && InCommon(x.s, o) && |guards| == |x.s.pc|
    && forall w :: 0 <= w < |guards| ==> Guarded(x, o, w, guards[w])
  }

  ghost predicate Starves(x: Client) { exists o, guards :: Starved(x, o, guards) }

  // ---------------------------------------------------------------------------------------------------------
  // Steps of the scheduler
  // ---------------------------------------------------------------------------------------------------------

  predicate Pops(pc: Pc) { pc.PopOwn? || pc.PopCommon? || Draining(pc) }

  lemma DecrementStays(s: State, v: nat, t: nat)
    requires Basic(s) && CountersMatch(s) && v < |s.pc| && Decrements(s, v) && t < |s.place| && s.place[t].Queued?
    ensures t < |ReleaseStep(s, v).place| && ReleaseStep(s, v).place[t] == s.place[t]
  {
    DecrementedIsBlocked(s, v);
  }

  lemma HandoverStays(s: State, v: nat, c: Choice, t: nat)
    requires Basic(s) && Enabled(s, Act(v, c)) && t < |s.place| && s.place[t].Queued?
    requires s.pc[v].Requeue? || s.pc[v].Yielded? || s.pc[v].Pushing? || s.pc[v].Decount?
    ensures t < |WorkerStep(s, v, c).place| && WorkerStep(s, v, c).place[t] == s.place[t]
  {
    assert WorkerOk(s, v);
  }

  /** A task in a queue stays there in a step that pops none. */
  lemma StaysQueued(s: State, v: nat, c: Choice, t: nat)
    requires Inv(s) && Enabled(s, Act(v, c)) && t < |s.place| && s.place[t].Queued? && !Pops(s.pc[v])
    ensures t < |WorkerStep(s, v, c).place| && WorkerStep(s, v, c).place[t] == s.place[t]
  {
    if Decrements(s, v) { DecrementStays(s, v, t); }
    else if MovesNoTask(s.pc[v]) { PlainMoves(s, v, c); }
    else { HandoverStays(s, v, c, t); }
  }

  /** A worker that looks at its own queue leaves the tasks of others where they are, and pops its oldest one. */
  lemma PopOwnStep(s: State, v: nat, t: nat)
    requires Basic(s) && v < |s.pc| && s.pc[v].PopOwn? && t < |s.place| && s.place[t].Queued?
    ensures var s' := PopStep(s, v);
      && t < |s'.place|
      && (s'.place[t] == s.place[t] || (s.place[t] == Queued(v) && s'.place[t] == OnWorker(v) && s'.pc[v] == Polling(t)))
      && (s.place[t] == Queued(v) ==> !s'.pc[v].PopCommon?)
  {
    assert QueueOk(s, v) && TaskOk(s, t);
  }

  lemma QueuedStep(s: State, v: nat, c: Choice, t: nat)
    requires Inv(s) && !s.force && Enabled(s, Act(v, c)) && t < |s.place| && s.place[t].Queued? && !s.pc[v].PopCommon?
    ensures var s' := WorkerStep(s, v, c);
      && t < |s'.place| && v < |s'.pc|
      && (s'.place[t] == s.place[t] || (s.place[t] == Queued(v) && s'.place[t] == OnWorker(v) && s'.pc[v] == Polling(t)))
      && (s.place[t] == Queued(v) ==> !s'.pc[v].PopCommon?)
  {
    assert !Draining(s.pc[v]);
    if s.pc[v].PopOwn? {
      PopOwnStep(s, v, t);
    } else {
      StaysQueued(s, v, c, t);
      NoCommon(s, v, c);
    }
  }

  lemma NoCommon(s: State, v: nat, c: Choice)
    requires Basic(s) && Enabled(s, Act(v, c)) && !Pops(s.pc[v])
    ensures v < |WorkerStep(s, v, c).pc| && !WorkerStep(s, v, c).pc[v].PopCommon?
  {
    assert WorkerOk(s, v);
  }

  /** The worker polls its task, which fails, and puts it back into its own queue. */
  lemma PollsInVain(x: Client, o: nat, w: nat, g: nat, c: Choice, rounds: nat)
    requires Good(x, rounds) && CanMove(x, rounds, Schedule(Act(w, c))) && Guarded(x, o, w, g) && x.m.owner == OwnedBy(o)
    requires x.s.place[g] == OnWorker(w)
    ensures var s' := Apply(x.s, Act(w, c));
      && g < |s'.place| && w < |s'.pc| && !s'.pc[w].PopCommon?
      && (s'.place[g] == Queued(w) || (s'.place[g] == OnWorker(w) && s'.pc[w] == Requeue(g)))
  {
    assert WorkerOk(x.s, w) && CounterOk(x.s, g);
  }

  lemma GuardStep(x: Client, o: nat, v: nat, w: nat, g: nat, c: Choice, rounds: nat)
    requires Good(x, rounds) && CanMove(x, rounds, Schedule(Act(v, c))) && Guarded(x, o, w, g) && x.m.owner == OwnedBy(o)
    requires !x.s.pc[v].PopCommon?
    ensures Guarded(DoMove(x, rounds, Schedule(Act(v, c))), o, w, g)
  {
    StepInv(x.s, Act(v, c));
    PendingStep(x.s, v, c, g);
    Turns.AffinityStays(x.s, v, c);
    if x.s.place[g] == Queued(w) { QueuedStep(x.s, v, c, g); }
    else if v == w { PollsInVain(x, o, w, g, c, rounds); }
    else { OthersStay(x.s, v, c, g); }
  }

  lemma CommonStays(s: State, v: nat, c: Choice, o: nat)
    requires Inv(s) && !s.force && Enabled(s, Act(v, c)) && InCommon(s, o) && !s.pc[v].PopCommon?
    ensures InCommon(WorkerStep(s, v, c), o)
  {
    Turns.AffinityStays(s, v, c);
    if s.place[o].Queued? { QueuedStep(s, v, c, o); }
    else if s.place[o].w != v { OthersStay(s, v, c, o); }
    else { assert WorkerOk(s, v) && CounterOk(s, o); }
  }

  /** A starved state is left only when a task is given another affinity: nothing that workers and tasks do helps. */
  lemma StarvedStays(x: Client, o: nat, guards: seq<nat>, m: Move, rounds: nat)
    requires Good(x, rounds) && Starved(x, o, guards) && CanMove(x, rounds, m) && !(m.Schedule? && m.l.SetAffinity?)
    ensures Starved(DoMove(x, rounds, m), o, guards)
  {
    var x' := DoMove(x, rounds, m);
    if m.Schedule? {
      assert Guarded(x, o, m.l.w, guards[m.l.w]);
      StepInv(x.s, m.l);
      CommonStays(x.s, m.l.w, m.l.choice, o);
      forall w | 0 <= w < |guards| ensures Guarded(x', o, w, guards[w]) {
        assert Guarded(x, o, w, guards[w]);
        GuardStep(x, o, m.l.w, w, guards[w], m.l.choice, rounds);
      }
    } else {
      StarvedTask(x, o, guards, m, rounds);
    }
  }

  /** The tasks that still run can only queue up behind the others. */
  lemma StarvedTask(x: Client, o: nat, guards: seq<nat>, m: Move, rounds: nat)
    requires Good(x, rounds) && Starved(x, o, guards) && CanMove(x, rounds, m) && !m.Schedule?
    ensures Starved(DoMove(x, rounds, m), o, guards)
  {
    RunningOk(x, rounds, m.w);
    var x', u := DoMove(x, rounds, m), x.s.pc[m.w].t;
    assert WorkerOk(x.s, m.w) && PointOk(x, u) && u != o;
    forall w | 0 <= w < |guards| ensures Guarded(x', o, w, guards[w]) { assert Guarded(x, o, w, guards[w]); }
  }

  /** A move of the run other than a change of an affinity. */
  ghost predicate MovesAt(rounds: nat, tr: seq<Client>, i: nat)
    requires i + 1 < |tr|
  {
    exists m :: CanMove(tr[i], rounds, m) && !(m.Schedule? && m.l.SetAffinity?) && tr[i + 1] == DoMove(tr[i], rounds, m)
  }

  /** The owner of the mutex never comes to its next step, so that the counter never ends. */
  lemma {:induction false} StarvedForever(rounds: nat, tr: seq<Client>, i: nat, o: nat, guards: seq<nat>)
    requires i < |tr| && Good(tr[0], rounds) && Starved(tr[0], o, guards)
    requires forall j :: 0 <= j < |tr| - 1 ==> MovesAt(rounds, tr, j)
    ensures Good(tr[i], rounds) && Starved(tr[i], o, guards) && tr[i].s.active > 0
    decreases i
  {
    if i == 0 {
      OwnerIsActive(tr[0], rounds, o, guards);
    } else {
      StarvedForever(rounds, tr, i - 1, o, guards);
      assert MovesAt(rounds, tr, i - 1);
      StarvedMove(rounds, tr[i - 1], tr[i], o, guards);
    }
  }

  lemma StarvedMove(rounds: nat, x: Client, x': Client, o: nat, guards: seq<nat>)
    requires Good(x, rounds) && Starved(x, o, guards)
    requires exists m :: CanMove(x, rounds, m) && !(m.Schedule? && m.l.SetAffinity?) && x' == DoMove(x, rounds, m)
    ensures Good(x', rounds) && Starved(x', o, guards) && x'.s.active > 0
  {
    var m :| CanMove(x, rounds, m) && !(m.Schedule? && m.l.SetAffinity?) && x' == DoMove(x, rounds, m);
    MoveGood(x, rounds, m);
    StarvedStays(x, o, guards, m, rounds);
    OwnerIsActive(x', rounds, o, guards);
  }

  lemma OwnerIsActive(x: Client, rounds: nat, o: nat, guards: seq<nat>)
    requires Good(x, rounds) && Starved(x, o, guards)
    ensures x.s.active > 0
  {
    assert o in ActiveTasks(x.s);
  }
}
