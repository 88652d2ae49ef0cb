/** Pieces of runs of the contended counter, by which a given state is shown to be reachable. */
module MutexTrails {
  import opened Scheduler
  import opened SchedulerInvariant
  import opened TaskMutex
  import opened MutexClient
  import opened Fairness
  import opened MutexProgress
  import MutexRuns

  /** The move leads from x to x'. */
  ghost predicate Fits(x: Client, rounds: nat, m: Move, x': Client) {
    Basic(x.s) ==> CanMove(x, rounds, m) && DoMove(x, rounds, m) == x'
  }

  /** What stands for Fits while a trail is put together. */
  type Fitting = (Client, Move, Client) -> bool

  ghost predicate Stands(f: Fitting, rounds: nat) {
    forall x, m, x' {:trigger Fits(x, rounds, m, x')} :: Fits(x, rounds, m, x') ==> f(x, m, x')
  }

  /** States that moves lead through. */
  datatype Trail = Trail(states: seq<Client>, moves: seq<Move>) {
    predicate Shaped() { |states| == |moves| + 1 }

    function End(): Client
      requires Shaped()
    {
      states[|moves|]
    }
  }

  predicate FitsAt(f: Fitting, r: Trail, i: nat)
    requires r.Shaped() && i < |r.moves|
  {
    f(r.states[i], r.moves[i], r.states[i + 1])
  }

  predicate IsTrail(f: Fitting, r: Trail) {
    r.Shaped() && forall i :: 0 <= i < |r.moves| ==> FitsAt(f, r, i)
  }

  lemma Go(f: Fitting, r: Trail, m: Move, x: Client) returns (r': Trail)
    requires IsTrail(f, r) && f(r.End(), m, x)
    ensures IsTrail(f, r') && r' == Trail(r.states + [x], r.moves + [m]) && r'.End() == x
  {
    r' := Trail(r.states + [x], r.moves + [m]);
    forall i | 0 <= i < |r'.moves| ensures FitsAt(f, r', i) { if i < |r.moves| { assert FitsAt(f, r, i); } }
  }

  // ---------------------------------------------------------------------------------------------------------
  // A trail from a good state is a run
  // ---------------------------------------------------------------------------------------------------------

  function Movers(moves: seq<Move>): seq<int> { seq(|moves|, i requires 0 <= i < |moves| => Mover(moves[i])) }

  predicate ByWorkers(r: Trail) { forall i :: 0 <= i < |r.moves| ==> Mover(r.moves[i]) >= 0 }

  lemma {:induction false} TrailIsGood(f: Fitting, r: Trail, rounds: nat, i: nat)
    requires IsTrail(f, r) && (forall x, m, x' :: f(x, m, x') ==> Fits(x, rounds, m, x'))
    requires Good(r.states[0], rounds) && i < |r.states|
    ensures Good(r.states[i], rounds)
    ensures i > 0 ==> CanMove(r.states[i - 1], rounds, r.moves[i - 1]) && r.states[i] == DoMove(r.states[i - 1], rounds, r.moves[i - 1])
    decreases i
  {
    if i > 0 {
      TrailIsGood(f, r, rounds, i - 1);
      assert FitsAt(f, r, i - 1);
      assert Fits(r.states[i - 1], rounds, r.moves[i - 1], r.states[i]);
      MoveGood(r.states[i - 1], rounds, r.moves[i - 1]);
    }
  }

  lemma TrailIsRun(f: Fitting, r: Trail, rounds: nat, workers: nat, rank: seq<nat>)
    requires IsTrail(f, r) && (forall x, m, x' :: f(x, m, x') ==> Fits(x, rounds, m, x'))
    requires Good(r.states[0], rounds) && ByWorkers(r)
    ensures IsRunOf(Contention(rounds, workers, rank), Run(r.states, Movers(r.moves)))
    ensures MutexRuns.Start(r.states[0]) ==> MutexRuns.IsRunOf(rounds, r.states)
  {
    var c, run := Contention(rounds, workers, rank), Run(r.states, Movers(r.moves));
    forall i | 0 <= i < |run.who| ensures StepOk(c, run, i) && MutexRuns.StepsAt(rounds, r.states, i) {
      TrailIsGood(f, r, rounds, i + 1);
      assert MovesTo(r.states[i], rounds, r.states[i + 1], run.who[i], r.moves[i]);
    }
  }

  /** A trail from the start is a run. */
  lemma FromStart(f: Fitting, r: Trail, rounds: nat)
    requires IsTrail(f, r) && (forall x, m, x' :: f(x, m, x') ==> Fits(x, rounds, m, x'))
    requires MutexRuns.Start(r.states[0]) && ByWorkers(r)
    ensures MutexRuns.IsRunOf(rounds, r.states) && Good(r.End(), rounds)
  {
    MutexRuns.StartGood(r.states[0], rounds);
    TrailIsRun(f, r, rounds, 0, []);
    TrailIsGood(f, r, rounds, |r.moves|);
  }

  /** A trail in which every worker moves is a round. */
  lemma TrailIsRound(r: Trail, rounds: nat, workers: nat, rank: seq<nat>)
    requires r.Shaped() && forall w: nat :: w < workers ==> Onward(w) in r.moves
    ensures IsRound(Contention(rounds, workers, rank), Run(r.states, Movers(r.moves)), 0, |r.moves|)
  {
    var run := Run(r.states, Movers(r.moves));
    forall w: nat | w < workers ensures Served(Contention(rounds, workers, rank), run, 0, |r.moves|, w) {
      assert Onward(w) in r.moves;
      var k :| 0 <= k < |r.moves| && r.moves[k] == Onward(w);
      assert run.who[k] == w;
    }
  }

  // ---------------------------------------------------------------------------------------------------------
  // Single moves
  // ---------------------------------------------------------------------------------------------------------

  /** A step of a worker whose choices are all negative. */
  function Onward(w: nat): Move { Schedule(Act(w, Choice(false, false, false, false, []))) }

  /** The worker alone moves on. */
  function To(x: Client, w: nat, pc: Pc, more: int): Client
    requires w < |x.s.pc|
  {
    x.(s := x.s.(pc := x.s.pc[w := pc], inside := x.s.inside + more))
  }

  predicate IsAt(x: Client, w: nat, pc: Pc) { w < |x.s.pc| && x.s.pc[w] == pc && |x.s.ready| == |x.s.pc| + 1 && !x.s.force }

  predicate Known(x: Client, t: nat) {
    t < |x.s.place| == |x.s.pending| == |x.s.affinity| == |x.s.named| == |x.s.dep| == |x.point| == |x.rounds|
    && x.s.affinity[t] < |x.s.pc| && |x.s.ready| == |x.s.pc| + 1
  }

  function Popped(x: Client, w: nat, a: nat, t: nat): Client
    requires w < |x.s.pc| && a < |x.s.ready| && x.s.ready[a] != [] && t < |x.s.place|
  {
    To(x, w, Polling(t), 0).(s := To(x, w, Polling(t), 0).s.(place := x.s.place[t := OnWorker(w)], ready := x.s.ready[a := x.s.ready[a][1..]]))
  }

  /** Task t is pushed to its queue, and the worker moves on. */
  function Pushed(x: Client, w: nat, pc: Pc, t: nat): Client
    requires w < |x.s.pc| && Known(x, t)
  {
    var a := QueueOf(x.s, t);
    x.(s := x.s.(pc := x.s.pc[w := pc], place := x.s.place[t := Queued(a)], ready := x.s.ready[a := x.s.ready[a] + [t]],
                 named := x.s.named[t := a]))
  }

  lemma Enters(f: Fitting, rounds: nat, x: Client, w: nat)
    requires Stands(f, rounds) && IsAt(x, w, Idle)
    ensures f(x, Onward(w), To(x, w, PopOwn, 1))
  {
    assert Fits(x, rounds, Onward(w), To(x, w, PopOwn, 1));
  }

  lemma FindsNone(f: Fitting, rounds: nat, x: Client, w: nat)
    requires Stands(f, rounds) && IsAt(x, w, PopOwn) && x.s.ready[w] == []
    ensures f(x, Onward(w), To(x, w, PopCommon, 0))
  {
    assert Fits(x, rounds, Onward(w), To(x, w, PopCommon, 0));
  }

  lemma Pops(f: Fitting, rounds: nat, x: Client, w: nat, a: nat, t: nat)
    requires Stands(f, rounds) && (if a == w then IsAt(x, w, PopOwn) else IsAt(x, w, PopCommon) && a == |x.s.pc|)
          && x.s.ready[a] != [] && x.s.ready[a][0] == t && t < |x.s.place|
    ensures f(x, Onward(w), Popped(x, w, a, t))
  {
    assert Fits(x, rounds, Onward(w), Popped(x, w, a, t));
  }

  lemma PollsWell(f: Fitting, rounds: nat, x: Client, w: nat, t: nat)
    requires Stands(f, rounds) && IsAt(x, w, Polling(t)) && t < |x.s.pending| && x.s.pending[t] == []
    ensures f(x, Onward(w), To(x, w, LeaveWith(t), 0))
  {
    assert Fits(x, rounds, Onward(w), To(x, w, LeaveWith(t), 0));
  }

  lemma PollsInVain(f: Fitting, rounds: nat, x: Client, w: nat, t: nat)
    requires Stands(f, rounds) && IsAt(x, w, Polling(t)) && t < |x.s.pending| && x.s.pending[t] != [] && x.m.owner != OwnedBy(t)
    ensures f(x, Onward(w), To(x, w, Requeue(t), 0))
  {
    assert Fits(x, rounds, Onward(w), To(x, w, Requeue(t), 0));
  }

  lemma Leaves(f: Fitting, rounds: nat, x: Client, w: nat, t: nat)
    requires Stands(f, rounds) && IsAt(x, w, LeaveWith(t))
    ensures f(x, Onward(w), To(x, w, Running(t), -1))
  {
    assert Fits(x, rounds, Onward(w), To(x, w, Running(t), -1));
  }

  lemma Requeues(f: Fitting, rounds: nat, x: Client, w: nat, t: nat)
    requires Stands(f, rounds) && IsAt(x, w, Requeue(t)) && Known(x, t) && x.s.dep[t] <= 0
    ensures f(x, Onward(w), Pushed(x, w, NoTask, t))
  {
    assert Fits(x, rounds, Onward(w), Pushed(x, w, NoTask, t));
  }

  lemma Yields(f: Fitting, rounds: nat, x: Client, w: nat, t: nat)
    requires Stands(f, rounds) && IsAt(x, w, Yielded(t)) && Known(x, t) && x.s.dep[t] <= 0
    ensures f(x, Onward(w), Pushed(x, w, Idle, t))
  {
    assert Fits(x, rounds, Onward(w), Pushed(x, w, Idle, t));
  }

  lemma Decides(f: Fitting, rounds: nat, x: Client, w: nat, sleep: bool)
    requires Stands(f, rounds) && IsAt(x, w, NoTask) && (sleep ==> x.s.inside > x.s.minimum)
    ensures f(x, Schedule(Act(w, Choice(false, sleep, false, false, []))), To(x, w, CheckTermination(sleep), 0))
  {
    assert Fits(x, rounds, Schedule(Act(w, Choice(false, sleep, false, false, []))), To(x, w, CheckTermination(sleep), 0));
  }

  lemma Checks(f: Fitting, rounds: nat, x: Client, w: nat, sleep: bool)
    requires Stands(f, rounds) && IsAt(x, w, CheckTermination(sleep)) && x.s.active != 0
    ensures f(x, Onward(w), To(x, w, LeaveEmpty(sleep, false), 0))
  {
    assert Fits(x, rounds, Onward(w), To(x, w, LeaveEmpty(sleep, false), 0));
  }

  lemma GoesOut(f: Fitting, rounds: nat, x: Client, w: nat, sleep: bool)
    requires Stands(f, rounds) && IsAt(x, w, LeaveEmpty(sleep, false))
    ensures f(x, Onward(w), To(x, w, if sleep then Asleep else Idle, -1))
  {
    assert Fits(x, rounds, Onward(w), To(x, w, if sleep then Asleep else Idle, -1));
  }

  lemma Locks(f: Fitting, rounds: nat, x: Client, w: nat, t: nat)
    requires Stands(f, rounds) && IsAt(x, w, Running(t)) && Known(x, t) && x.point[t] == Outside && x.rounds[t] < rounds && x.unlocking == Free && x.m.owner == Free
    ensures f(x, Acquire(w), x.(m := LockState(OwnedBy(t), x.m.queue), point := x.point[t := Locked]))
  {
    assert Fits(x, rounds, Acquire(w), x.(m := LockState(OwnedBy(t), x.m.queue), point := x.point[t := Locked]));
  }

  lemma QueuesUp(f: Fitting, rounds: nat, x: Client, w: nat, t: nat)
    requires Stands(f, rounds) && IsAt(x, w, Running(t)) && Known(x, t) && x.point[t] == Outside && x.rounds[t] < rounds && x.unlocking == Free && x.m.owner != Free
    ensures f(x, Acquire(w), x.(m := LockState(x.m.owner, x.m.queue + [t]), point := x.point[t := Enqueued]))
  {
    assert Fits(x, rounds, Acquire(w), x.(m := LockState(x.m.owner, x.m.queue + [t]), point := x.point[t := Enqueued]));
  }

  function SuspendedAt(x: Client, w: nat, t: nat): Client
    requires w < |x.s.pc| && Known(x, t)
  {
    x.(s := x.s.(pc := x.s.pc[w := Yielded(t)], pending := x.s.pending[t := [OWNS_LOCK]]), point := x.point[t := Suspended])
  }

  lemma Suspends(f: Fitting, rounds: nat, x: Client, w: nat, t: nat)
    requires Stands(f, rounds) && IsAt(x, w, Running(t)) && Known(x, t) && x.point[t] == Enqueued && x.s.pending[t] == []
    ensures f(x, Schedule(Act(w, Choice(false, false, false, true, [OWNS_LOCK]))), SuspendedAt(x, w, t))
  {
    assert [] + [OWNS_LOCK] == [OWNS_LOCK];
    assert Fits(x, rounds, Schedule(Act(w, Choice(false, false, false, true, [OWNS_LOCK]))), SuspendedAt(x, w, t));
  }

  lemma Reads(f: Fitting, rounds: nat, x: Client, w: nat, t: nat)
    requires Stands(f, rounds) && IsAt(x, w, Running(t)) && Known(x, t) && x.point[t] == Locked
    ensures f(x, ReadValue(w), x.(point := x.point[t := HasRead(x.value)]))
  {
    assert Fits(x, rounds, ReadValue(w), x.(point := x.point[t := HasRead(x.value)]));
  }

  lemma Writes(f: Fitting, rounds: nat, x: Client, w: nat, t: nat, v: nat)
    requires Stands(f, rounds) && IsAt(x, w, Running(t)) && Known(x, t) && x.point[t] == HasRead(v)
    ensures f(x, WriteValue(w), x.(point := x.point[t := Written], value := v + 1))
  {
    assert Fits(x, rounds, WriteValue(w), x.(point := x.point[t := Written], value := v + 1));
  }

  lemma BeginsUnlock(f: Fitting, rounds: nat, x: Client, w: nat, t: nat)
    requires Stands(f, rounds) && IsAt(x, w, Running(t)) && Known(x, t) && x.point[t] == Written && x.unlocking == Free
    ensures f(x, BeginUnlock(w), x.(m := x.m.(owner := Free), unlocking := OwnedBy(t), point := x.point[t := Unlocking]))
  {
    assert Fits(x, rounds, BeginUnlock(w), x.(m := x.m.(owner := Free), unlocking := OwnedBy(t), point := x.point[t := Unlocking]));
  }

  lemma EndsUnlock(f: Fitting, rounds: nat, x: Client, w: nat, t: nat)
    requires Stands(f, rounds) && IsAt(x, w, Running(t)) && Known(x, t) && x.point[t] == Unlocking
    ensures f(x, EndUnlock(w), x.(m := PassOn(x.m), unlocking := Free, point := x.point[t := Outside], rounds := x.rounds[t := x.rounds[t] + 1]))
  {
    assert Fits(x, rounds, EndUnlock(w), x.(m := PassOn(x.m), unlocking := Free, point := x.point[t := Outside], rounds := x.rounds[t := x.rounds[t] + 1]));
  }

  lemma EndsBody(f: Fitting, rounds: nat, x: Client, w: nat, t: nat)
    requires Stands(f, rounds) && IsAt(x, w, Running(t)) && Known(x, t) && x.point[t] == Outside && x.rounds[t] == rounds
    ensures f(x, Onward(w), To(x, w, Releasing(t, 0), 0))
  {
    assert Fits(x, rounds, Onward(w), To(x, w, Releasing(t, 0), 0));
  }

  function Awoken(x: Client, w: nat, t: nat, k: nat, d: nat): Client
    requires w < |x.s.pc| && Known(x, d)
  {
    x.(s := x.s.(pc := x.s.pc[w := Pushing(t, k)], dep := x.s.dep[d := 0], place := x.s.place[d := Woken(w)]))
  }

  lemma Wakes(f: Fitting, rounds: nat, x: Client, w: nat, t: nat, k: nat, d: nat)
    requires Stands(f, rounds) && IsAt(x, w, Releasing(t, k)) && Known(x, d) && t < |x.s.g.out| && k < |x.s.g.out[t]| && x.s.g.out[t][k] == d && x.s.dep[d] == 1
    ensures f(x, Onward(w), Awoken(x, w, t, k, d))
  {
    assert Fits(x, rounds, Onward(w), Awoken(x, w, t, k, d));
  }

  lemma Pushes(f: Fitting, rounds: nat, x: Client, w: nat, t: nat, k: nat, d: nat)
    requires Stands(f, rounds) && IsAt(x, w, Pushing(t, k)) && Known(x, d) && t < |x.s.g.out| && k < |x.s.g.out[t]| && x.s.g.out[t][k] == d && x.s.dep[d] <= 0
    ensures f(x, Onward(w), Pushed(x, w, Releasing(t, k + 1), d))
  {
    assert Fits(x, rounds, Onward(w), Pushed(x, w, Releasing(t, k + 1), d));
  }

  lemma HasReleased(f: Fitting, rounds: nat, x: Client, w: nat, t: nat, k: nat)
    requires Stands(f, rounds) && IsAt(x, w, Releasing(t, k)) && t < |x.s.g.out| && k == |x.s.g.out[t]|
    ensures f(x, Onward(w), To(x, w, Decount(t), 0))
  {
    assert Fits(x, rounds, Onward(w), To(x, w, Decount(t), 0));
  }

  function FinishedAt(x: Client, w: nat, t: nat): Client
    requires w < |x.s.pc| && Known(x, t)
  {
    x.(s := x.s.(pc := x.s.pc[w := Idle], place := x.s.place[t := Finished], active := x.s.active - 1))
  }

  lemma Finishes(f: Fitting, rounds: nat, x: Client, w: nat, t: nat)
    requires Stands(f, rounds) && IsAt(x, w, Decount(t)) && Known(x, t)
    ensures f(x, Onward(w), FinishedAt(x, w, t))
  {
    assert Fits(x, rounds, Onward(w), FinishedAt(x, w, t));
  }

  // ---------------------------------------------------------------------------------------------------------
  // Pieces of several moves
  // ---------------------------------------------------------------------------------------------------------

  ghost predicate Extends(f: Fitting, rounds: nat, r: Trail, r': Trail) {
    && Stands(f, rounds) && IsTrail(f, r) && IsTrail(f, r') && r.states <= r'.states && r.moves < r'.moves
    && (ByWorkers(r) ==> ByWorkers(r'))
  }

  lemma More(f: Fitting, rounds: nat, r: Trail, m: Move, x: Client) returns (r': Trail)
    requires Stands(f, rounds) && IsTrail(f, r) && f(r.End(), m, x) && Mover(m) >= 0
    ensures Extends(f, rounds, r, r') && r' == Trail(r.states + [x], r.moves + [m]) && r'.End() == x
  {
    r' := Go(f, r, m, x);
  }

  /** Worker w is between two calls of the pull function, and will find task t in queue a. */
  predicate Finds(x: Client, w: nat, a: nat, t: nat) {
    && IsAt(x, w, Idle) && (a == w || (a == |x.s.pc| && x.s.ready[w] == [])) && x.s.ready[a] != [] && x.s.ready[a][0] == t
    && Known(x, t)
  }

  lemma ComesToPoll(f: Fitting, rounds: nat, r: Trail, w: nat, a: nat, t: nat) returns (r': Trail)
    requires Stands(f, rounds) && IsTrail(f, r) && Finds(r.End(), w, a, t)
    ensures Extends(f, rounds, r, r') && r'.End() == To(Popped(r.End(), w, a, t), w, Polling(t), 1)
    ensures r'.moves[|r.moves|] == Onward(w) && r'.states[|r.states|] == To(r.End(), w, PopOwn, 1)
  {
    var x := r.End();
    Enters(f, rounds, x, w);
    r' := More(f, rounds, r, Onward(w), To(x, w, PopOwn, 1));
    if a != w {
      FindsNone(f, rounds, r'.End(), w);
      r' := More(f, rounds, r', Onward(w), To(r'.End(), w, PopCommon, 0));
    }
    Pops(f, rounds, r'.End(), w, a, t);
    r' := More(f, rounds, r', Onward(w), Popped(r'.End(), w, a, t));
  }

  /** The worker gets the task from the queue, and runs it. */
  lemma Fetch(f: Fitting, rounds: nat, r: Trail, w: nat, a: nat, t: nat) returns (r': Trail)
    requires Stands(f, rounds) && IsTrail(f, r) && Finds(r.End(), w, a, t) && r.End().s.pending[t] == []
    ensures Extends(f, rounds, r, r') && r'.End() == To(Popped(r.End(), w, a, t), w, Running(t), 0)
    ensures r'.moves[|r.moves|] == Onward(w)
  {
    var x := r.End();
    r' := ComesToPoll(f, rounds, r, w, a, t);
    PollsWell(f, rounds, r'.End(), w, t);
    r' := More(f, rounds, r', Onward(w), To(r'.End(), w, LeaveWith(t), 0));
    Leaves(f, rounds, r'.End(), w, t);
    r' := More(f, rounds, r', Onward(w), To(r'.End(), w, Running(t), -1));
  }

  /** The worker polls the task in vain and puts it back. */
  lemma PutsBack(f: Fitting, rounds: nat, r: Trail, w: nat, a: nat, t: nat) returns (r': Trail)
    requires Stands(f, rounds) && IsTrail(f, r) && Finds(r.End(), w, a, t) && r.End().s.pending[t] != []
    requires r.End().m.owner != OwnedBy(t) && r.End().s.dep[t] <= 0
    ensures Extends(f, rounds, r, r')
    ensures var y := Popped(r.End(), w, a, t); r'.End() == Pushed(y.(s := y.s.(inside := y.s.inside + 1)), w, NoTask, t)
    ensures r'.moves[|r.moves|] == Onward(w) && r'.states[|r.states|] == To(r.End(), w, PopOwn, 1)
  {
    r' := ComesToPoll(f, rounds, r, w, a, t);
    PollsInVain(f, rounds, r'.End(), w, t);
    r' := More(f, rounds, r', Onward(w), To(r'.End(), w, Requeue(t), 0));
    Requeues(f, rounds, r'.End(), w, t);
    r' := More(f, rounds, r', Onward(w), Pushed(r'.End(), w, NoTask, t));
  }

  /** The worker has found no task, and goes to sleep or on. */
  lemma GoesOn(f: Fitting, rounds: nat, r: Trail, w: nat, sleep: bool) returns (r': Trail)
    requires Stands(f, rounds) && IsTrail(f, r) && IsAt(r.End(), w, NoTask) && r.End().s.active != 0
    requires sleep ==> r.End().s.inside > r.End().s.minimum
    ensures Extends(f, rounds, r, r') && r'.End() == To(r.End(), w, if sleep then Asleep else Idle, -1)
  {
    Decides(f, rounds, r.End(), w, sleep);
    r' := More(f, rounds, r, Schedule(Act(w, Choice(false, sleep, false, false, []))), To(r.End(), w, CheckTermination(sleep), 0));
    Checks(f, rounds, r'.End(), w, sleep);
    r' := More(f, rounds, r', Onward(w), To(r'.End(), w, LeaveEmpty(sleep, false), 0));
    GoesOut(f, rounds, r'.End(), w, sleep);
    r' := More(f, rounds, r', Onward(w), To(r'.End(), w, if sleep then Asleep else Idle, -1));
  }

  /** The worker polls the task in vain, puts it back, and goes to sleep or on. */
  lemma GoRound(f: Fitting, rounds: nat, r: Trail, w: nat, a: nat, t: nat, sleep: bool) returns (r': Trail)
    requires Stands(f, rounds) && IsTrail(f, r) && Finds(r.End(), w, a, t) && r.End().s.pending[t] != []
    requires r.End().m.owner != OwnedBy(t) && r.End().s.dep[t] <= 0 && r.End().s.active != 0
    requires sleep ==> r.End().s.inside + 1 > r.End().s.minimum
    ensures Extends(f, rounds, r, r')
    ensures r'.End() == Pushed(Popped(r.End(), w, a, t), w, if sleep then Asleep else Idle, t)
    ensures r'.moves[|r.moves|] == Onward(w) && r'.states[|r.states|] == To(r.End(), w, PopOwn, 1)
  {
    var back := PutsBack(f, rounds, r, w, a, t);
    r' := GoesOn(f, rounds, back, w, sleep);
  }

  predicate IsOutside(x: Client, rounds: nat, w: nat, t: nat) {
    IsAt(x, w, Running(t)) && Known(x, t) && x.point[t] == Outside && x.rounds[t] < rounds && x.unlocking == Free
  }

  function Enqueue(x: Client, t: nat): Client
    requires Known(x, t)
  {
    x.(m := LockState(x.m.owner, x.m.queue + [t]), point := x.point[t := Suspended],
       s := x.s.(pending := x.s.pending[t := [OWNS_LOCK]]))
  }

  lemma TakeLock(f: Fitting, rounds: nat, r: Trail, w: nat, t: nat) returns (r': Trail)
    requires Stands(f, rounds) && IsTrail(f, r) && IsOutside(r.End(), rounds, w, t) && r.End().m.owner == Free
    ensures Extends(f, rounds, r, r')
    ensures r'.End() == r.End().(m := LockState(OwnedBy(t), r.End().m.queue), point := r.End().point[t := Locked])
  {
    Locks(f, rounds, r.End(), w, t);
    r' := More(f, rounds, r, Acquire(w), r.End().(m := LockState(OwnedBy(t), r.End().m.queue), point := r.End().point[t := Locked]));
  }

  /** The task queues up for the mutex and suspends, so that it goes back to its ready queue. */
  lemma Wait(f: Fitting, rounds: nat, r: Trail, w: nat, t: nat) returns (r': Trail)
    requires Stands(f, rounds) && IsTrail(f, r) && IsOutside(r.End(), rounds, w, t) && r.End().m.owner != Free
    requires r.End().s.pending[t] == [] && r.End().s.dep[t] <= 0
    ensures Extends(f, rounds, r, r') && r'.End() == Pushed(Enqueue(r.End(), t), w, Idle, t)
  {
    var x := r.End();
    QueuesUp(f, rounds, x, w, t);
    r' := More(f, rounds, r, Acquire(w), x.(m := LockState(x.m.owner, x.m.queue + [t]), point := x.point[t := Enqueued]));
    Suspends(f, rounds, r'.End(), w, t);
    r' := More(f, rounds, r', Schedule(Act(w, Choice(false, false, false, true, [OWNS_LOCK]))), SuspendedAt(r'.End(), w, t));
    Yields(f, rounds, r'.End(), w, t);
    r' := More(f, rounds, r', Onward(w), Pushed(r'.End(), w, Idle, t));
  }

  /** The task that owns the mutex increments the value and passes the mutex on. */
  lemma Increment(f: Fitting, rounds: nat, r: Trail, w: nat, t: nat) returns (r': Trail)
    requires Stands(f, rounds) && IsTrail(f, r) && IsAt(r.End(), w, Running(t)) && Known(r.End(), t)
    requires r.End().point[t] == Locked && r.End().unlocking == Free
    ensures Extends(f, rounds, r, r')
    ensures var x := r.End();
      r'.End() == x.(m := PassOn(LockState(Free, x.m.queue)), point := x.point[t := Outside], rounds := x.rounds[t := x.rounds[t] + 1],
                     value := x.value + 1)
  {
    var x := r.End();
    Reads(f, rounds, x, w, t);
    r' := More(f, rounds, r, ReadValue(w), x.(point := x.point[t := HasRead(x.value)]));
    Writes(f, rounds, r'.End(), w, t, x.value);
    r' := More(f, rounds, r', WriteValue(w), r'.End().(point := r'.End().point[t := Written], value := x.value + 1));
    BeginsUnlock(f, rounds, r'.End(), w, t);
    var y := r'.End().(m := LockState(Free, x.m.queue), unlocking := OwnedBy(t), point := r'.End().point[t := Unlocking]);
    r' := More(f, rounds, r', BeginUnlock(w), y);
    EndsUnlock(f, rounds, y, w, t);
    r' := More(f, rounds, r', EndUnlock(w),
               y.(m := PassOn(y.m), unlocking := Free, point := y.point[t := Outside], rounds := y.rounds[t := y.rounds[t] + 1]));
    assert r'.End().point == x.point[t := Outside];
  }

  lemma EndBody(f: Fitting, rounds: nat, r: Trail, w: nat, t: nat) returns (r': Trail)
    requires Stands(f, rounds) && IsTrail(f, r) && IsAt(r.End(), w, Running(t)) && Known(r.End(), t)
    requires r.End().point[t] == Outside && r.End().rounds[t] == rounds
    ensures Extends(f, rounds, r, r') && r'.End() == To(r.End(), w, Releasing(t, 0), 0)
  {
    EndsBody(f, rounds, r.End(), w, t);
    r' := More(f, rounds, r, Onward(w), To(r.End(), w, Releasing(t, 0), 0));
  }

  /** The finish callback brings the in-counter of dependent k to zero and queues it. */
  lemma ReleaseNext(f: Fitting, rounds: nat, r: Trail, w: nat, t: nat, k: nat, d: nat) returns (r': Trail)
    requires Stands(f, rounds) && IsTrail(f, r) && IsAt(r.End(), w, Releasing(t, k)) && Known(r.End(), d)
    requires t < |r.End().s.g.out| && k < |r.End().s.g.out[t]| && r.End().s.g.out[t][k] == d && r.End().s.dep[d] == 1
    ensures Extends(f, rounds, r, r') && r'.End() == Pushed(Awoken(r.End(), w, t, k, d), w, Releasing(t, k + 1), d)
  {
    Wakes(f, rounds, r.End(), w, t, k, d);
    r' := More(f, rounds, r, Onward(w), Awoken(r.End(), w, t, k, d));
    Pushes(f, rounds, r'.End(), w, t, k, d);
    r' := More(f, rounds, r', Onward(w), Pushed(r'.End(), w, Releasing(t, k + 1), d));
  }

  lemma Finish(f: Fitting, rounds: nat, r: Trail, w: nat, t: nat, k: nat) returns (r': Trail)
    requires Stands(f, rounds) && IsTrail(f, r) && IsAt(r.End(), w, Releasing(t, k)) && Known(r.End(), t)
    requires t < |r.End().s.g.out| && k == |r.End().s.g.out[t]|
    ensures Extends(f, rounds, r, r') && r'.End() == FinishedAt(r.End(), w, t)
  {
    HasReleased(f, rounds, r.End(), w, t, k);
    r' := More(f, rounds, r, Onward(w), To(r.End(), w, Decount(t), 0));
    Finishes(f, rounds, r'.End(), w, t);
    r' := More(f, rounds, r', Onward(w), FinishedAt(r'.End(), w, t));
  }

  /** Two states with the same parts. */
  lemma SameClient(x: Client, y: Client)
    requires x.s.g == y.s.g && x.s.ready == y.s.ready && x.s.dep == y.s.dep && x.s.pending == y.s.pending
    requires x.s.affinity == y.s.affinity && x.s.named == y.s.named && x.s.place == y.s.place && x.s.pc == y.s.pc
    requires x.s.active == y.s.active && x.s.inside == y.s.inside && x.s.minimum == y.s.minimum
    requires x.s.finishOnLast == y.s.finishOnLast && x.s.force == y.s.force
    requires x.m.owner == y.m.owner && x.m.queue == y.m.queue && x.unlocking == y.unlocking && x.value == y.value
    requires x.point == y.point && x.rounds == y.rounds
    ensures x == y
  {}
}
