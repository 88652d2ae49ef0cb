/** Settings of the contended counter that do not come to their end, shown by runs from the start. */
module MutexExamples {
  import opened Scheduler
  import opened SchedulerInvariant
  import opened SchedulerTheorems
  import opened TaskMutex
  import opened MutexClient
  import opened Fairness
  import opened MutexProgress
  import opened MutexTrails
  import MutexStarvation
  import MutexRuns
  import MutexFairness
  import Turns
  import AffineTasks

  // ---------------------------------------------------------------------------------------------------------
  // Tasks with an affinity that depend on another
  // ---------------------------------------------------------------------------------------------------------

  /** Tasks 2 and 3 depend on task 0 and belong to the two workers; tasks 0 and 1 are in the common queue. */
  function Scene(ready: seq<seq<nat>>, dep: seq<int>, pending: seq<seq<nat>>, place: seq<Place>, pc: seq<Pc>, active: int, m: LockState,
                 point: seq<Point>, rounds: seq<nat>, value: nat): Client {
    Client(State(Graph([[2, 3], [], [], []]), ready, dep, pending, [-1, -1, 0, 1], [2, 2, 0, 1], place, pc, active, 0, 1, true, false),
           m, Free, point, rounds, value)
  }

  function Begin(): Client {
    Scene([[], [], [0, 1]], [0, 0, 1, 1], [[], [], [], []], [Queued(2), Queued(2), Blocked, Blocked], [Idle, Idle], 4, UNLOCKED,
          [Outside, Outside, Outside, Outside], [0, 0, 0, 0], 0)
  }

  /** Task 0 owns the mutex; task 1 has queued up for it and suspended, so that it is in the common queue again. */
  function Contended(): Client {
    Scene([[], [], [1]], [0, 0, 1, 1], [[], [OWNS_LOCK], [], []], [OnWorker(0), Queued(2), Blocked, Blocked], [Running(0), Idle], 4,
          LockState(OwnedBy(0), [1]), [Locked, Suspended, Outside, Outside], [0, 0, 0, 0], 0)
  }

  /** Task 0 has passed the mutex on to task 1, and finished; tasks 2 and 3 are in the queues of the workers. */
  function FollowersReady(): Client {
    Scene([[2], [3], [1]], [0, 0, 0, 0], [[], [OWNS_LOCK], [], []], [Finished, Queued(2), Queued(0), Queued(1)], [Idle, Idle], 3,
          LockState(OwnedBy(1), []), [Outside, Suspended, Outside, Outside], [1, 0, 0, 0], 1)
  }

  function OneWaits(): Client {
    Scene([[2], [3], [1]], [0, 0, 0, 0], [[], [OWNS_LOCK], [OWNS_LOCK], []], [Finished, Queued(2), Queued(0), Queued(1)], [Idle, Idle], 3,
          LockState(OwnedBy(1), [2]), [Outside, Suspended, Suspended, Outside], [1, 0, 0, 0], 1)
  }

  /** They have queued up for the mutex. */
  function Stuck(): Client {
    Scene([[2], [3], [1]], [0, 0, 0, 0], [[], [OWNS_LOCK], [OWNS_LOCK], [OWNS_LOCK]], [Finished, Queued(2), Queued(0), Queued(1)],
          [Idle, Idle], 3, LockState(OwnedBy(1), [2, 3]), [Outside, Suspended, Suspended, Suspended], [1, 0, 0, 0], 1)
  }

  lemma ToContended(f: Fitting, r: Trail) returns (r': Trail)
    requires Stands(f, 1) && IsTrail(f, r) && r.End() == Begin()
    ensures Extends(f, 1, r, r') && r'.End() == Contended() && Onward(0) in r'.moves && Onward(1) in r'.moves
  {
    r' := Fetch(f, 1, r, 0, 2, 0);
    assert Onward(0) in r'.moves;
    r' := TakeLock(f, 1, r', 0, 0);
    r' := Fetch(f, 1, r', 1, 2, 1);
    assert Onward(1) in r'.moves;
    r' := Wait(f, 1, r', 1, 1);
    assert [0, 1][1..] == [1] && [1][1..] == [] && [] + [1] == [1];
    SameClient(r'.End(), Contended());
  }

  lemma ToFollowers(f: Fitting, r: Trail) returns (r': Trail)
    requires Stands(f, 1) && IsTrail(f, r) && r.End() == Contended()
    ensures Extends(f, 1, r, r') && r'.End() == FollowersReady()
  {
    r' := Increment(f, 1, r, 0, 0);
    r' := EndBody(f, 1, r', 0, 0);
    r' := ReleaseNext(f, 1, r', 0, 0, 0, 2);
    r' := ReleaseNext(f, 1, r', 0, 0, 1, 3);
    r' := Finish(f, 1, r', 0, 0, 2);
    assert [1][1..] == [] && [] + [2] == [2] && [] + [3] == [3];
    SameClient(r'.End(), FollowersReady());
  }

  lemma ToOneWaits(f: Fitting, r: Trail) returns (r': Trail)
    requires Stands(f, 1) && IsTrail(f, r) && r.End() == FollowersReady()
    ensures Extends(f, 1, r, r') && r'.End() == OneWaits()
  {
    r' := Fetch(f, 1, r, 0, 0, 2);
    r' := Wait(f, 1, r', 0, 2);
    assert [2][1..] == [] && [] + [2] == [2];
    SameClient(r'.End(), OneWaits());
  }

  lemma ToStuck(f: Fitting, r: Trail) returns (r': Trail)
    requires Stands(f, 1) && IsTrail(f, r) && r.End() == OneWaits()
    ensures Extends(f, 1, r, r') && r'.End() == Stuck()
  {
    r' := Fetch(f, 1, r, 1, 1, 3);
    r' := Wait(f, 1, r', 1, 3);
    assert [3][1..] == [] && [] + [3] == [3] && [2] + [3] == [2, 3];
    SameClient(r'.End(), Stuck());
  }

  lemma BeginGraph()
    ensures var g := Begin().s.g; g.Closed() && g.Into(0) == {} && g.Into(1) == {} && |g.Into(2)| == 1 && |g.Into(3)| == 1
  {
    var g := Begin().s.g;
    assert g.Edges() == {Edge(0, 0), Edge(0, 1)};
    assert g.Into(2) == {Edge(0, 0)} && g.Into(3) == {Edge(0, 1)};
  }

  lemma BeginBasic()
    ensures Basic(Begin().s)
  {
    var s := Begin().s;
    assert s.ready[2][0] == 0 && s.ready[2][1] == 1;
  }

  lemma Begins()
    ensures MutexRuns.Start(Begin())
  {
    BeginGraph();
    BeginBasic();
  }

  /** All conditions are met under which the counter ends, or is starved: only the setting is not one that prevents this. */
  lemma BeginsRight()
    ensures Sound(Begin(), 1, 2, [0, 0, 1, 1])
  {
    Begins();
    BeginsAwake();
    MutexFairness.StartSound(Begin(), 1, 2, [0, 0, 1, 1]);
  }

  lemma BeginsAwake()
    ensures Turns.Awake(Begin().s) && Begin().s.g.Ordered([0, 0, 1, 1])
    ensures forall t :: 0 <= t < 4 && Begin().s.place[t].Queued? ==> Begin().s.named[t] == QueueOf(Begin().s, t)
  {}

  lemma StuckIsStarved()
    ensures MutexStarvation.Starved(Stuck(), 1, [2, 3])
  {
    assert MutexStarvation.Guarded(Stuck(), 1, 0, 2) && MutexStarvation.Guarded(Stuck(), 1, 1, 3);
  }

  lemma ToTheEnd(f: Fitting) returns (r: Trail)
    requires Stands(f, 1)
    ensures IsTrail(f, r) && ByWorkers(r) && r.states[0] == Begin() && r.End() == Stuck() && Onward(0) in r.moves && Onward(1) in r.moves
  {
    r := Trail([Begin()], []);
    r := ToContended(f, r);
    r := ToFollowers(f, r);
    r := ToOneWaits(f, r);
    r := ToStuck(f, r);
  }

  /** With tasks that have an affinity and depend on another, a run can come to a state in which the counter is starved. */
  lemma CanStarve() returns (tr: seq<Client>)
    ensures MutexRuns.IsRunOf(1, tr) && tr[0] == Begin() && MutexStarvation.Starved(tr[|tr| - 1], 1, [2, 3])
  {
    var f: Fitting := (x, m, x') => Fits(x, 1, m, x');
    var r := ToTheEnd(f);
    Begins();
    FromStart(f, r, 1);
    StuckIsStarved();
    tr := r.states;
  }

  /** A trail in which every worker moves, and that leads to a starved state, is the beginning of fair runs of any length. */
  lemma StarvesFairly(f: Fitting, t: Trail, rounds: nat, workers: nat, rank: seq<nat>, n: nat) returns (r: Run<Client>, cuts: seq<nat>)
    requires IsTrail(f, t) && (forall x, m, x' :: f(x, m, x') ==> Fits(x, rounds, m, x')) && ByWorkers(t)
    requires (forall w: nat :: w < workers ==> Onward(w) in t.moves)
    requires Sound(t.states[0], rounds, workers, rank) && MutexStarvation.Starves(t.End())
    ensures MutexFairness.FairRun(r, cuts, rounds, workers, rank) && r.states[0] == t.states[0] && |cuts| > n && r.Last().s.active > 0
  {
    var c, first := Contention(rounds, workers, rank), Run(t.states, Movers(t.moves));
    TrailIsRun(f, t, rounds, workers, rank);
    TrailIsRound(t, rounds, workers, rank);
    IsLawful(rounds, workers, rank);
    GoodUntil(c, first, 0, |first.who|);
    var l, ls := MutexFairness.FairRunFrom(t.End(), rounds, workers, rank, n);
    JoinedRun(c, first, l);
    JoinedRounds(c, first, l, ls);
    r, cuts := Join(first, l), [0] + Shift(ls, |first.who|);
    MutexFairness.StarvesUntil(r, rounds, workers, rank, |first.who|);
  }

  /** So this is how fair runs of any length can go: none of them finishes all tasks. */
  lemma StarvesOn(n: nat) returns (r: Run<Client>, cuts: seq<nat>)
    ensures MutexFairness.FairRun(r, cuts, 1, 2, [0, 0, 1, 1]) && r.states[0] == Begin() && |cuts| > n && r.Last().s.active > 0
  {
    var f: Fitting := (x, m, x') => Fits(x, 1, m, x');
    var t := ToTheEnd(f);
    BeginsRight();
    StuckIsStarved();
    r, cuts := StarvesFairly(f, t, 1, 2, [0, 0, 1, 1], n);
  }

  // ---------------------------------------------------------------------------------------------------------
  // A worker that may sleep although another looks for tasks
  // ---------------------------------------------------------------------------------------------------------

  /** Task 0 belongs to worker 0, task 1 is in the common queue; they depend on nothing, and the minimum of workers is zero. */
  function Room(ready: seq<seq<nat>>, pending: seq<seq<nat>>, place: seq<Place>, pc: seq<Pc>, m: LockState,
                point: seq<Point>, rounds: seq<nat>, value: nat): Client {
    Client(State(Graph([[], []]), ready, [0, 0], pending, [0, -1], [0, 2], place, pc, 2, 0, 0, true, false),
           m, Free, point, rounds, value)
  }

  function Morning(): Client {
    Room([[0], [], [1]], [[], []], [Queued(0), Queued(2)], [Idle, Idle], UNLOCKED, [Outside, Outside], [0, 0], 0)
  }

  /** Task 0 owns the mutex, task 1 has queued up for it and suspended. */
  function Evening(): Client {
    Room([[], [], [1]], [[], [OWNS_LOCK]], [OnWorker(0), Queued(2)], [Running(0), Idle], LockState(OwnedBy(0), [1]),
         [Locked, Suspended], [0, 0], 0)
  }

  function Bedtime(): Client {
    Room([[], [], [1]], [[], [OWNS_LOCK]], [OnWorker(0), Queued(2)], [Running(0), Asleep], LockState(OwnedBy(0), [1]),
         [Locked, Suspended], [0, 0], 0)
  }

  /** Worker 1 sleeps; task 0 has passed the mutex on to task 1, and queued up for it again. */
  function Night(): Client {
    Room([[0], [], [1]], [[OWNS_LOCK], [OWNS_LOCK]], [Queued(0), Queued(2)], [Idle, Asleep], LockState(OwnedBy(1), [0]),
         [Suspended, Suspended], [1, 0], 1)
  }

  lemma ToEvening(f: Fitting, r: Trail) returns (r': Trail)
    requires Stands(f, 2) && IsTrail(f, r) && r.End() == Morning()
    ensures Extends(f, 2, r, r') && r'.End() == Evening() && Onward(0) in r'.moves && Onward(1) in r'.moves
  {
    r' := Fetch(f, 2, r, 0, 0, 0);
    assert Onward(0) in r'.moves;
    r' := TakeLock(f, 2, r', 0, 0);
    r' := Fetch(f, 2, r', 1, 2, 1);
    assert Onward(1) in r'.moves;
    r' := Wait(f, 2, r', 1, 1);
    assert [0][1..] == [] && [1][1..] == [] && [] + [1] == [1];
    SameClient(r'.End(), Evening());
  }

  lemma ToBedtime(f: Fitting, r: Trail) returns (r': Trail)
    requires Stands(f, 2) && IsTrail(f, r) && r.End() == Evening()
    ensures Extends(f, 2, r, r') && r'.End() == Bedtime()
  {
    r' := GoRound(f, 2, r, 1, 2, 1, true);
    assert [1][1..] == [] && [] + [1] == [1];
    SameClient(r'.End(), Bedtime());
  }

  lemma ToNight(f: Fitting, r: Trail) returns (r': Trail)
    requires Stands(f, 2) && IsTrail(f, r) && r.End() == Bedtime()
    ensures Extends(f, 2, r, r') && r'.End() == Night()
  {
    r' := Increment(f, 2, r, 0, 0);
    r' := Wait(f, 2, r', 0, 0);
    assert [1][1..] == [] && [] + [0] == [0];
    SameClient(r'.End(), Night());
  }

  /** Worker 0 polls its task in vain. When it enters the pull function, worker 1 may not wake up. */
  lemma TurnsOver(f: Fitting) returns (r: Trail)
    requires Stands(f, 2)
    ensures IsTrail(f, r) && ByWorkers(r) && r.states[0] == Night() && r.End() == Night()
    ensures |r.moves| > 0 && r.moves[0] == Onward(0) && r.states[1] == To(Night(), 0, PopOwn, 1)
  {
    r := Trail([Night()], []);
    r := GoRound(f, 2, r, 0, 0, 0, false);
    assert [0][1..] == [] && [] + [0] == [0];
    SameClient(r.End(), Night());
  }

  lemma MorningBasic()
    ensures Basic(Morning().s)
  {
    var s := Morning().s;
    assert s.ready[0][0] == 0 && s.ready[2][0] == 1;
  }

  lemma Wakes()
    ensures MutexRuns.Start(Morning()) && AffineTasks.AffineFirst(Morning().s) && Turns.Orderly(Morning().s) && Morning().s.g.Ordered([0, 0])
  {
    var s := Morning().s;
    assert s.g.Into(0) == {} && s.g.Into(1) == {};
    MorningBasic();
  }

  lemma NightIsRound(r: Trail)
    requires r.Shaped() && |r.moves| > 0 && r.moves[0] == Onward(0) && r.states[1] == To(Night(), 0, PopOwn, 1)
    ensures IsRound(Contention(2, 2, [0, 0]), Run(r.states, Movers(r.moves)), 0, |r.moves|)
  {
    var c, run := Contention(2, 2, [0, 0]), Run(r.states, Movers(r.moves));
    assert run.who[0] == 0;
    assert !c.able(run.states[1], 1);
    forall w: nat | w < 2 ensures Served(c, run, 0, |r.moves|, w) {}
  }

  lemma Day(f: Fitting) returns (r: Trail)
    requires Stands(f, 2)
    ensures IsTrail(f, r) && ByWorkers(r) && r.states[0] == Morning() && r.End() == Night() && Onward(0) in r.moves && Onward(1) in r.moves
  {
    r := Trail([Morning()], []);
    r := ToEvening(f, r);
    r := ToBedtime(f, r);
    r := ToNight(f, r);
  }

  /** A trail in which every worker moves, and then one that leads back to where it began. */
  lemma GoesInCircles(f: Fitting, day: Trail, night: Trail, rounds: nat, workers: nat, rank: seq<nat>, n: nat)
    returns (r: Run<Client>, cuts: seq<nat>)
    requires IsTrail(f, day) && IsTrail(f, night) && (forall x, m, x' :: f(x, m, x') ==> Fits(x, rounds, m, x'))
    requires ByWorkers(day) && ByWorkers(night) && (forall w: nat :: w < workers ==> Onward(w) in day.moves)
    requires MutexRuns.Start(day.states[0]) && night.states[0] == night.End() == day.End()
    requires IsRound(Contention(rounds, workers, rank), Run(night.states, Movers(night.moves)), 0, |night.moves|)
    ensures IsRunOf(Contention(rounds, workers, rank), r) && InRounds(Contention(rounds, workers, rank), r, cuts) && |cuts| == n + 2
    ensures r.states[0] == day.states[0] && r.Last() == day.End()
  {
    var c, first, again := Contention(rounds, workers, rank), Run(day.states, Movers(day.moves)), Run(night.states, Movers(night.moves));
    FromStart(f, day, rounds);
    MutexRuns.StartGood(day.states[0], rounds);
    TrailIsRun(f, day, rounds, workers, rank);
    TrailIsRound(day, rounds, workers, rank);
    TrailIsRun(f, night, rounds, workers, rank);
    var l, ls := Again(c, again, n);
    JoinedRun(c, first, l);
    JoinedRounds(c, first, l, ls);
    r, cuts := Join(first, l), [0] + Shift(ls, |first.who|);
  }

  /** Where a worker may sleep although another looks for tasks, a fair run of any length may leave the owner of the mutex in
      the common queue, even if tasks with an affinity depend on nothing. */
  lemma SleepsOn(n: nat) returns (r: Run<Client>, cuts: seq<nat>)
    ensures IsRunOf(Contention(2, 2, [0, 0]), r) && InRounds(Contention(2, 2, [0, 0]), r, cuts) && |cuts| == n + 2
    ensures r.states[0] == Morning() && r.Last().s.active > 0
  {
    var f: Fitting := (x, m, x') => Fits(x, 2, m, x');
    var day := Day(f);
    var night := TurnsOver(f);
    Wakes();
    NightIsRound(night);
    r, cuts := GoesInCircles(f, day, night, 2, 2, [0, 0], n);
  }
}
