/**
Progress of the contended counter, for affinities that do not change. A waiting task that fails its poll goes round the
queues and makes no progress, but unless the counter is starved there is always a task that can go on, and it is popped in
its turn.
*/
module MutexProgress {
  import opened Arithmetic
  import opened Scheduler
  import opened SchedulerInvariant
  import opened SchedulerTheorems
  import opened SchedulerAccounting
  import opened SchedulerPolling
  import SchedulerProgress
  import SchedulerFairness
  import Turns
  import opened Fairness
  import opened TaskMutex
  import opened MutexClient
  import opened MutexStarvation

  // ---------------------------------------------------------------------------------------------------------
  // The machine
  // ---------------------------------------------------------------------------------------------------------

  /** The worker that a move is one of. */
  function Mover(m: Move): int {
    match m
    case Schedule(l) => if l.Act? then l.w else -1
    case _ => m.w
  }

  ghost predicate MovesTo(x: Client, rounds: nat, x': Client, w: int, m: Move) {
    CanMove(x, rounds, m) && w == Mover(m) && w >= 0 && x' == DoMove(x, rounds, m)
  }

  ghost predicate GoesOn(rounds: nat, x: Client, x': Client, w: int) {
    (w < 0 && x' == x) || exists m :: MovesTo(x, rounds, x', w, m)
  }

  /** The worker's task calls lock or unlock while another is inside unlock, which holds the internal mutex. */
  predicate KeptOut(x: Client, rounds: nat, w: nat) {
    && x.unlocking != Free
    && (RunsAt(x, w, Written) || (RunsAt(x, w, Outside) && x.rounds[x.s.pc[w].t] < rounds))
  }

  predicate Able(x: Client, rounds: nat, w: nat) {
    SchedulerFairness.CanGoOn(x.s, w) && !KeptOut(x, rounds, w)
  }

  /** A reachable state of the counter, where a worker that looks for tasks in the common queue does not sleep for ever. */
  ghost predicate Sound(x: Client, rounds: nat, workers: nat, rank: seq<nat>) {
    && Good(x, rounds) && Turns.Orderly(x.s) && (Turns.AllOwn(x.s) || Turns.Awake(x.s))
    && |x.s.pc| == workers > 0 && x.s.g.Ordered(rank)
  }

  // ---------------------------------------------------------------------------------------------------------
  // How much is left to do
  // ---------------------------------------------------------------------------------------------------------

  /** The steps left of a round. */
  function PointWork(x: Client, t: nat): nat
    requires t < |x.point| && t < |x.s.pending|
  {
    match x.point[t]
    case Outside => 9
    case Enqueued => 8
    case Suspended => if x.s.pending[t] != [] then 7 else 6
    case Locked => 5
    case HasRead(_) => 4
    case Written => 3
    case Unlocking => 2
  }

  function Left(x: Client, rounds: nat, t: nat): nat
    requires t < |x.point| == |x.rounds| == |x.s.place| == |x.s.pending|
  {
    var togo := TaskWork(x.s, t);
    if togo >= 3 && x.rounds[t] <= rounds then togo + PointWork(x, t) + 10 * (rounds - x.rounds[t]) else togo
  }

  function LeftOf(x: Client, rounds: nat, n: nat): nat
    requires n <= |x.point| == |x.rounds| == |x.s.place| == |x.s.pending|
    decreases n
  {
    if n == 0 then 0 else LeftOf(x, rounds, n - 1) + Left(x, rounds, n - 1)
  }

  function Work(x: Client, rounds: nat): nat {
    if |x.point| == |x.rounds| == |x.s.place| == |x.s.pending|
    then LeftOf(x, rounds, |x.point|) + |SchedulerProgress.UnreleasedEdges(x.s)|
    else 0
  }

  /** The steps left to do, and with them the workers that are about to pop the common queue although they are occupied. */
  function Weight(x: Client, rounds: nat): nat { Work(x, rounds) * (|x.s.pc| + 1) + |Turns.Late(x.s)| }

  lemma LateBounded(s: State)
    ensures |Turns.Late(s)| <= |s.pc|
  {
    Turns.NumbersBelow(Turns.Late(s), |s.pc|);
  }

  lemma LessWork(x: Client, x': Client, rounds: nat)
    requires |x'.s.pc| == |x.s.pc| && Work(x', rounds) < Work(x, rounds)
    ensures Weight(x', rounds) < Weight(x, rounds)
  {
    LateBounded(x'.s);
    TimesGrowsBy(Work(x', rounds), Work(x, rounds), |x.s.pc| + 1);
  }

  lemma NotMoreWork(x: Client, x': Client, rounds: nat)
    requires |x'.s.pc| == |x.s.pc| && Work(x', rounds) <= Work(x, rounds) && Turns.Late(x'.s) <= Turns.Late(x.s)
    ensures Weight(x', rounds) <= Weight(x, rounds)
    ensures Weight(x', rounds) == Weight(x, rounds) ==> Turns.Late(x'.s) == Turns.Late(x.s)
  {
    Turns.SubsetSize(Turns.Late(x'.s), Turns.Late(x.s));
    assert Turns.Late(x.s) == Turns.Late(x'.s) + (Turns.Late(x.s) - Turns.Late(x'.s));
    if Work(x', rounds) < Work(x, rounds) { LessWork(x, x', rounds); }
  }

  lemma {:induction false} LeftDecreases(x: Client, x': Client, rounds: nat, n: nat, u: nat)
    requires n <= |x.point| == |x.rounds| == |x.s.place| == |x.s.pending| == |x'.point| == |x'.rounds| == |x'.s.place| == |x'.s.pending|
    requires forall t :: 0 <= t < n ==> Left(x', rounds, t) <= Left(x, rounds, t)
    ensures LeftOf(x', rounds, n) <= LeftOf(x, rounds, n)
    ensures u < n && Left(x', rounds, u) < Left(x, rounds, u) ==> LeftOf(x', rounds, n) < LeftOf(x, rounds, n)
    decreases n
  {
    if n > 0 { LeftDecreases(x, x', rounds, n - 1, u); }
  }

  // ---------------------------------------------------------------------------------------------------------
  // Moves of tasks: each is work
  // ---------------------------------------------------------------------------------------------------------

  lemma TaskMoveLeft(x: Client, rounds: nat, m: Move, t: nat)
    requires Good(x, rounds) && CanMove(x, rounds, m) && !m.Schedule? && t < |x.point|
    ensures var x' := DoMove(x, rounds, m);
      && |x'.point| == |x'.rounds| == |x'.s.place| == |x'.s.pending| == |x.point| && m.w < |x.s.pc| && x.s.pc[m.w].Running?
      && Left(x', rounds, t) <= Left(x, rounds, t)
      && (t == x.s.pc[m.w].t ==> Left(x', rounds, t) < Left(x, rounds, t))
  {
    RunningOk(x, rounds, m.w);
    assert WorkerOk(x.s, m.w) && DoneOk(x, rounds, t);
  }

  lemma TaskMoveWorks(x: Client, rounds: nat, m: Move)
    requires Good(x, rounds) && CanMove(x, rounds, m) && !m.Schedule?
    ensures Work(DoMove(x, rounds, m), rounds) < Work(x, rounds) && DoMove(x, rounds, m).s == x.s
  {
    var x' := DoMove(x, rounds, m);
    RunningOk(x, rounds, m.w);
    forall t | 0 <= t < |x.point|
      ensures |x'.point| == |x'.rounds| == |x'.s.place| == |x'.s.pending| == |x.point| && Left(x', rounds, t) <= Left(x, rounds, t)
    {
      TaskMoveLeft(x, rounds, m, t);
    }
    TaskMoveLeft(x, rounds, m, x.s.pc[m.w].t);
    LeftDecreases(x, x', rounds, |x.point|, x.s.pc[m.w].t);
  }

  // ---------------------------------------------------------------------------------------------------------
  // Steps of the scheduler
  // ---------------------------------------------------------------------------------------------------------

  lemma ScheduleLeft(x: Client, rounds: nat, l: Label, t: nat)
    requires Good(x, rounds) && CanMove(x, rounds, Schedule(l)) && l.Act? && t < |x.point|
    ensures var x' := DoMove(x, rounds, Schedule(l));
      && |x'.point| == |x'.rounds| == |x'.s.place| == |x'.s.pending| == |x.point|
      && Left(x', rounds, t) <= Left(x, rounds, t)
      && (TaskWork(x'.s, t) < TaskWork(x.s, t) || PointWork(x', t) < PointWork(x, t) ==>
            Left(x', rounds, t) < Left(x, rounds, t) || TaskWork(x.s, t) < 3)
  {
    TaskWorkFalls(x.s, l.w, l.choice, t);
    PendingStep(x.s, l.w, l.choice, t);
    StepInv(x.s, l);
    assert DoneOk(x, rounds, t) && PendingOk(x, t);
  }

  lemma BodyAdvances(x: Client, rounds: nat, l: Label)
    requires Good(x, rounds) && CanMove(x, rounds, Schedule(l)) && l.Act? && Turns.Advances(x.s, l.w, l.choice)
    requires x.s.pc[l.w].Running? || x.s.pc[l.w].Polling?
    ensures var x', t := DoMove(x, rounds, Schedule(l)), Held(x.s.pc[l.w]);
      && t < |x.s.place| == |x'.s.place| == |x'.point| == |x'.s.pending| && TaskWork(x.s, t) >= 3
      && (TaskWork(x'.s, t) < TaskWork(x.s, t) || PointWork(x', t) < PointWork(x, t))
  {
    var t := Held(x.s.pc[l.w]);
    assert WorkerOk(x.s, l.w) && PendingOk(x, t) && PolledOk(x.s, l.w);
    PendingStep(x.s, l.w, l.choice, t);
  }

  lemma SchedulerAdvances(x: Client, rounds: nat, l: Label)
    requires Good(x, rounds) && CanMove(x, rounds, Schedule(l)) && l.Act? && Turns.Advances(x.s, l.w, l.choice) && !Decrements(x.s, l.w)
    ensures var x', t := DoMove(x, rounds, Schedule(l)), Advanced(x.s, l.w);
      && t < |x.point| == |x'.point| == |x'.rounds| == |x'.s.place| == |x'.s.pending|
      && Left(x', rounds, t) < Left(x, rounds, t)
  {
    var t := Advanced(x.s, l.w);
    assert WorkerOk(x.s, l.w);
    ScheduleLeft(x, rounds, l, t);
    if x.s.pc[l.w].Running? || x.s.pc[l.w].Polling? { BodyAdvances(x, rounds, l); } else { EndAdvances(x.s, l.w, l.choice); }
  }

  lemma ScheduleWork(x: Client, rounds: nat, l: Label)
    requires Good(x, rounds) && CanMove(x, rounds, Schedule(l)) && l.Act?
    ensures Work(DoMove(x, rounds, Schedule(l)), rounds) <= Work(x, rounds)
    ensures Turns.Advances(x.s, l.w, l.choice) ==> Work(DoMove(x, rounds, Schedule(l)), rounds) < Work(x, rounds)
  {
    var x' := DoMove(x, rounds, Schedule(l));
    StepInv(x.s, l);
    forall t | 0 <= t < |x.point|
      ensures |x'.point| == |x'.rounds| == |x'.s.place| == |x'.s.pending| == |x.point| && Left(x', rounds, t) <= Left(x, rounds, t)
    {
      ScheduleLeft(x, rounds, l, t);
    }
    LeftDecreases(x, x', rounds, |x.point|, 0);
    SchedulerProgress.StepEdges(x.s, l.w, l.choice);
    SchedulerProgress.StrictSubsetSize(SchedulerProgress.UnreleasedEdges(x'.s), SchedulerProgress.UnreleasedEdges(x.s));
    if Turns.Advances(x.s, l.w, l.choice) && !Decrements(x.s, l.w) {
      SchedulerAdvances(x, rounds, l);
      LeftDecreases(x, x', rounds, |x.point|, Advanced(x.s, l.w));
    }
  }

  lemma MoveSound(x: Client, x': Client, w: int, m: Move, rounds: nat, workers: nat, rank: seq<nat>)
    requires Sound(x, rounds, workers, rank) && MovesTo(x, rounds, x', w, m)
    ensures Sound(x', rounds, workers, rank) && Weight(x', rounds) <= Weight(x, rounds)
    ensures Weight(x', rounds) == Weight(x, rounds) ==>
      m.Schedule? && m.l.Act? && !Turns.Advances(x.s, m.l.w, m.l.choice) && Turns.Late(x'.s) == Turns.Late(x.s)
  {
    MoveGood(x, rounds, m);
    if m.Schedule? {
      ScheduleSound(x, x', m.l, rounds, workers, rank);
    } else {
      TaskMoveWorks(x, rounds, m);
      LessWork(x, x', rounds);
    }
  }

  lemma ScheduleSound(x: Client, x': Client, l: Label, rounds: nat, workers: nat, rank: seq<nat>)
    requires Sound(x, rounds, workers, rank) && l.Act? && CanMove(x, rounds, Schedule(l)) && x' == DoMove(x, rounds, Schedule(l))
    requires Good(x', rounds)
    ensures Sound(x', rounds, workers, rank) && Weight(x', rounds) <= Weight(x, rounds)
    ensures Weight(x', rounds) == Weight(x, rounds) ==> !Turns.Advances(x.s, l.w, l.choice) && Turns.Late(x'.s) == Turns.Late(x.s)
  {
    ScheduleWork(x, rounds, l);
    Turns.OrderlyStep(x.s, l.w, l.choice);
    Turns.SettingStays(x.s, l.w, l.choice);
    if Turns.Advances(x.s, l.w, l.choice) {
      LessWork(x, x', rounds);
    } else {
      Turns.FewerLate(x.s, x'.s, l.w, l.choice);
      NotMoreWork(x, x', rounds);
    }
  }

  ghost function Contention(rounds: nat, workers: nat, rank: seq<nat>): Machine<Client> {
    Machine((x, x', w) => GoesOn(rounds, x, x', w), (x, w) => Able(x, rounds, w), workers,
            x => Sound(x, rounds, workers, rank), x => Weight(x, rounds))
  }

  lemma IsLawful(rounds: nat, workers: nat, rank: seq<nat>)
    ensures Lawful(Contention(rounds, workers, rank))
  {
    var f := Contention(rounds, workers, rank);
    forall x, x', w ensures LawfulStep(f, x, x', w) {
      if f.good(x) && f.follows(x, x', w) && !(w < 0 && x' == x) {
        var m :| MovesTo(x, rounds, x', w, m);
        MoveSound(x, x', w, m, rounds, workers, rank);
      }
    }
  }

  /** A step that does no work: nobody moves, or a worker takes a step of the scheduler that advances no task. */
  ghost predicate QuietStep(x: Client, rounds: nat, x': Client, w: int, c: Choice) {
    || (w < 0 && x' == x)
    || (w >= 0 && CanMove(x, rounds, Schedule(Act(w, c))) && x' == DoMove(x, rounds, Schedule(Act(w, c)))
        && Turns.Quiet(x.s, x'.s, w, c) && w !in Turns.Late(x.s))
  }

  lemma QuietMove(x: Client, x': Client, w: int, rounds: nat, workers: nat, rank: seq<nat>) returns (c: Choice)
    requires Sound(x, rounds, workers, rank) && GoesOn(rounds, x, x', w) && Weight(x', rounds) == Weight(x, rounds)
    ensures QuietStep(x, rounds, x', w, c) && Sound(x', rounds, workers, rank)
  {
    if w < 0 && x' == x {
      c := Choice(true, true, true, false, []);
    } else {
      var m :| MovesTo(x, rounds, x', w, m);
      MoveSound(x, x', w, m, rounds, workers, rank);
      c := m.l.choice;
      Turns.FewerLate(x.s, x'.s, w, c);
    }
  }

  // ---------------------------------------------------------------------------------------------------------
  // A worker that has run a body to its end: it can go on, and each of its steps is work
  // ---------------------------------------------------------------------------------------------------------

  predicate IsEnding(x: Client, v: nat) { v < |x.s.pc| && Ends(x.s.pc[v]) }

  ghost function EndPlan(v: nat): Plan<Client> {
    Plan((x: Client) => IsEnding(x, v), _ => 0, (_, u) => u == v)
  }

  lemma EndingStep(x: Client, x': Client, u: int, v: nat, rounds: nat, workers: nat, rank: seq<nat>)
    requires Sound(x, rounds, workers, rank) && IsEnding(x, v)
    requires GoesOn(rounds, x, x', u) && Weight(x', rounds) == Weight(x, rounds)
    ensures u != v && IsEnding(x', v) && |x'.s.ready| == |x'.s.pc| + 1
  {
    var c := QuietMove(x, x', u, rounds, workers, rank);
    assert Shape(x'.s);
  }

  lemma EndingLeads(rounds: nat, workers: nat, rank: seq<nat>, v: nat)
    ensures Leads(Contention(rounds, workers, rank), EndPlan(v))
  {
    var f, p := Contention(rounds, workers, rank), EndPlan(v);
    forall x, x', u ensures LeadsStep(f, p, x, x', u) {
      if f.good(x) && p.near(x) && f.follows(x, x', u) && f.work(x') == f.work(x) {
        EndingStep(x, x', u, v, rounds, workers, rank);
      }
    }
    forall x ensures Calls(f, p, x) {
      if f.good(x) && p.near(x) { assert Called(f, p, x, v); }
    }
  }

  // ---------------------------------------------------------------------------------------------------------
  // An occupied worker that is about to pop the common queue: its step is work of its own kind
  // ---------------------------------------------------------------------------------------------------------

  predicate IsLate(x: Client, v: nat) { x.s.active > 0 && |x.s.ready| == |x.s.pc| + 1 && v in Turns.Late(x.s) }

  ghost function LatePlan(v: nat): Plan<Client> {
    Plan((x: Client) => IsLate(x, v), _ => 0, (_, u) => u == v)
  }

  lemma LateStep(x: Client, x': Client, u: int, v: nat, rounds: nat, workers: nat, rank: seq<nat>)
    requires Sound(x, rounds, workers, rank) && IsLate(x, v)
    requires GoesOn(rounds, x, x', u) && Weight(x', rounds) == Weight(x, rounds)
    ensures u != v && IsLate(x', v)
  {
    var c := QuietMove(x, x', u, rounds, workers, rank);
    if u >= 0 {
      Turns.QuietFrame(x.s, x'.s, u, c);
      Turns.SameOpen(x.s, x'.s, u, c, v);
    }
  }

  lemma LateLeads(rounds: nat, workers: nat, rank: seq<nat>, v: nat)
    ensures Leads(Contention(rounds, workers, rank), LatePlan(v))
  {
    var f, p := Contention(rounds, workers, rank), LatePlan(v);
    forall x, x', u ensures LeadsStep(f, p, x, x', u) {
      if f.good(x) && p.near(x) && f.follows(x, x', u) && f.work(x') == f.work(x) {
        LateStep(x, x', u, v, rounds, workers, rank);
      }
    }
    forall x ensures Calls(f, p, x) {
      if f.good(x) && p.near(x) { assert Called(f, p, x, v); }
    }
  }

  // ---------------------------------------------------------------------------------------------------------
  // A task that can go on once it is popped
  // ---------------------------------------------------------------------------------------------------------

  /** The polls of task t will succeed, and nobody keeps it out of the mutex. */
  predicate Unhindered(x: Client, t: nat) {
    && t < |x.s.place| == |x.s.pending| == |x.point|
    && (x.s.pending[t] == [] || x.m.owner == OwnedBy(t))
    && (x.unlocking == Free || (x.unlocking == OwnedBy(t) && x.point[t] == Unlocking && !x.s.place[t].Queued?))
  }

  ghost function TaskPlan(t: nat): Plan<Client> {
    Plan((x: Client) => Turns.OnItsWay(x.s, t) && Unhindered(x, t), (x: Client) => Turns.Far(x.s, t),
         (x: Client, u: int) => Turns.Carries(x.s, t, u))
  }

  lemma QuietClient(x: Client, x': Client, u: nat, c: Choice, rounds: nat)
    requires QuietStep(x, rounds, x', u, c)
    ensures x'.m == x.m && x'.unlocking == x.unlocking && x'.point == x.point && x'.rounds == x.rounds
  {}

  lemma TaskStep(x: Client, x': Client, t: nat, u: nat, c: Choice, rounds: nat, workers: nat, rank: seq<nat>)
    requires Sound(x, rounds, workers, rank) && QuietStep(x, rounds, x', u, c) && Turns.OnItsWay(x.s, t) && Unhindered(x, t)
    ensures Turns.OnItsWay(x'.s, t) && Unhindered(x', t) && Turns.Far(x'.s, t) <= Turns.Far(x.s, t)
    ensures if Turns.Carries(x.s, t, u) then Turns.Far(x'.s, t) < Turns.Far(x.s, t) else x'.s.place[t] == x.s.place[t]
  {
    QuietClient(x, x', u, c, rounds);
    Turns.QuietFrame(x.s, x'.s, u, c);
    Turns.TurnStep(x.s, x'.s, t, u, c);
    if x.unlocking != Free { assert RunsOk(x, t); }
  }

  lemma CarrierNotKeptOut(x: Client, t: nat, w: nat, rounds: nat)
    requires Good(x, rounds) && Turns.OnItsWay(x.s, t) && Unhindered(x, t) && Turns.Carries(x.s, t, w)
    ensures !KeptOut(x, rounds, w)
  {
    if x.unlocking != Free { assert RunsOk(x, t); }
  }

  lemma CarrierAble(x: Client, t: nat, rounds: nat, workers: nat, rank: seq<nat>) returns (w: nat)
    requires Sound(x, rounds, workers, rank) && Turns.OnItsWay(x.s, t) && Unhindered(x, t)
    ensures w < workers && Turns.Carries(x.s, t, w) && Able(x, rounds, w)
  {
    w := Turns.CarrierCanGoOn(x.s, t);
    CarrierNotKeptOut(x, t, w, rounds);
  }

  lemma CarriersStayAble(x: Client, x': Client, t: nat, u: nat, c: Choice, w: nat, rounds: nat, workers: nat, rank: seq<nat>)
    requires Sound(x, rounds, workers, rank) && QuietStep(x, rounds, x', u, c) && Good(x', rounds)
    requires Turns.OnItsWay(x.s, t) && !Turns.Carries(x.s, t, u) && x'.s.place[t] == x.s.place[t]
    requires Turns.OnItsWay(x'.s, t) && Unhindered(x', t) && Turns.Carries(x.s, t, w) && Able(x, rounds, w)
    ensures Turns.Carries(x'.s, t, w) && Able(x', rounds, w)
  {
    Turns.CarriersStay(x.s, x'.s, t, u, c, w);
    CarrierNotKeptOut(x', t, w, rounds);
  }

  /** Within a bounded number of steps of those who carry it, the task takes a step of its own. */
  lemma TaskLeads(rounds: nat, workers: nat, rank: seq<nat>, t: nat)
    ensures Leads(Contention(rounds, workers, rank), TaskPlan(t))
  {
    var f, p := Contention(rounds, workers, rank), TaskPlan(t);
    forall x, x', u ensures LeadsStep(f, p, x, x', u) {
      if f.good(x) && p.near(x) && f.follows(x, x', u) && f.work(x') == f.work(x) {
        var c := QuietMove(x, x', u, rounds, workers, rank);
        if u >= 0 {
          TaskStep(x, x', t, u, c, rounds, workers, rank);
          forall w: nat | Called(f, p, x, w) && !p.moves(x, u) ensures Called(f, p, x', w) {
            CarriersStayAble(x, x', t, u, c, w, rounds, workers, rank);
          }
        }
      }
    }
    forall x ensures Calls(f, p, x) {
      if f.good(x) && p.near(x) {
        var w := CarrierAble(x, t, rounds, workers, rank);
        assert Called(f, p, x, w);
      }
    }
  }

  // ---------------------------------------------------------------------------------------------------------
  // Unless the counter is starved there is a task that can go on
  // ---------------------------------------------------------------------------------------------------------

  ghost predicate IsTarget(x: Client, t: nat) { Turns.OnItsWay(x.s, t) && Unhindered(x, t) }

  /** A task of stage 2 is queued, or held before the end of its body. */
  lemma ReadyIsOnItsWay(x: Client, rounds: nat, workers: nat, rank: seq<nat>, t: nat)
    requires Sound(x, rounds, workers, rank) && x.s.active > 0 && t < |x.point| && Stage(x.s, t) == 2
    ensures x.s.affinity[t] >= 0 || Turns.SomeoneOpen(x.s) || (x.s.place[t].OnWorker? && !InCommon(x.s, t)) ==> Turns.OnItsWay(x.s, t)
    ensures x.s.place[t].Queued? && x.s.affinity[t] < 0 ==> x.s.place[t] == Queued(Common(x.s))
  {
    assert TaskOk(x.s, t) && Turns.AtHome(x.s, t) && AffinityOk(x.s, t);
    if x.s.place[t].OnWorker? { assert !Draining(x.s.pc[x.s.place[t].w]); }
  }

  /** A task in the middle of a round is ready. */
  lemma InRoundIsReady(x: Client, rounds: nat, t: nat)
    requires Good(x, rounds) && t < |x.point| && x.point[t] != Outside
    ensures Stage(x.s, t) == 2
  {
    assert RunsOk(x, t) && DoneOk(x, rounds, t) && TaskOk(x.s, t);
  }

  lemma WaitsForOwner(x: Client, rounds: nat, t: nat)
    requires Good(x, rounds) && t < |x.point| && x.s.pending[t] != []
    ensures x.point[t] == Suspended && x.s.pending[t] == [OWNS_LOCK] && (x.m.owner == OwnedBy(t) || t in x.m.queue)
  {
    assert PendingOk(x, t) && PointOk(x, t);
  }

  /** With the mutex free, nobody waits. */
  lemma FreeMutexTarget(x: Client, rounds: nat, workers: nat, rank: seq<nat>) returns (t: nat)
    requires Sound(x, rounds, workers, rank) && x.s.active > 0 && (forall v: nat :: !IsEnding(x, v))
    requires x.unlocking == Free && x.m.owner == Free
    ensures IsTarget(x, t)
  {
    t := ReadyTask(x, rounds, workers, rank);
    if w, g :| 0 <= w < |x.s.pc| && 0 <= g < |x.s.place| && Turns.Occupies(x.s, w, g) { t := g; }
    else { assert Turns.Open(x.s, 0); }
    ReadyIsOnItsWay(x, rounds, workers, rank, t);
    if x.s.pending[t] != [] { WaitsForOwner(x, rounds, t); }
  }

  /** A task of an occupied worker that cannot go on waits for the mutex. */
  lemma OccupiedWaits(x: Client, rounds: nat, workers: nat, rank: seq<nat>, o: nat, w: nat) returns (g: nat)
    requires Sound(x, rounds, workers, rank) && x.s.active > 0 && x.unlocking == Free && x.m.owner == OwnedBy(o)
    requires o < |x.s.affinity| && x.s.affinity[o] < 0 && w < |x.s.pc| && !Turns.Open(x.s, w) && w !in Turns.Late(x.s)
    ensures IsTarget(x, g) || Guarded(x, o, w, g)
  {
    g :| 0 <= g < |x.s.place| && Turns.Occupies(x.s, w, g);
    ReadyIsOnItsWay(x, rounds, workers, rank, g);
    if x.s.pending[g] != [] {
      WaitsForOwner(x, rounds, g);
      assert TaskOk(x.s, g) && Turns.AtHome(x.s, g) && AffinityOk(x.s, g);
      if x.s.place[g].OnWorker? { assert PolledOk(x.s, w) && !Draining(x.s.pc[w]); }
    }
  }

  lemma {:induction false} AllOccupied(x: Client, rounds: nat, workers: nat, rank: seq<nat>, o: nat, n: nat) returns (t: nat, guards: seq<nat>)
    requires Sound(x, rounds, workers, rank) && x.s.active > 0 && x.unlocking == Free && x.m.owner == OwnedBy(o)
    requires o < |x.s.affinity| && x.s.affinity[o] < 0 && !Turns.SomeoneOpen(x.s) && Turns.Late(x.s) == {} && n <= |x.s.pc|
    ensures IsTarget(x, t) || (|guards| == n && forall w :: 0 <= w < n ==> Guarded(x, o, w, guards[w]))
    decreases n
  {
    t, guards := 0, [];
    if n > 0 {
      t, guards := AllOccupied(x, rounds, workers, rank, o, n - 1);
      if !IsTarget(x, t) {
        var g := OccupiedWaits(x, rounds, workers, rank, o, n - 1);
        t, guards := g, guards + [g];
      }
    }
  }

  /** The owner of the mutex goes on, or an occupied worker pops once more, or one of those who occupy the workers goes on. */
  lemma OwnerTarget(x: Client, rounds: nat, workers: nat, rank: seq<nat>) returns (t: nat)
    requires Sound(x, rounds, workers, rank) && x.s.active > 0 && x.unlocking == Free && x.m.owner.OwnedBy?
    ensures IsTarget(x, t) || Turns.Late(x.s) != {} || Starves(x)
  {
    var o := x.m.owner.t;
    assert PointOk(x, o);
    InRoundIsReady(x, rounds, o);
    ReadyIsOnItsWay(x, rounds, workers, rank, o);
    t := o;
    if !IsTarget(x, t) && Turns.Late(x.s) == {} {
      var guards;
      t, guards := AllOccupied(x, rounds, workers, rank, o, |x.s.pc|);
      if !IsTarget(x, t) { assert Starved(x, o, guards); }
    }
  }

  lemma SomeTarget(x: Client, rounds: nat, workers: nat, rank: seq<nat>) returns (t: nat)
    requires Sound(x, rounds, workers, rank) && x.s.active > 0 && forall v: nat :: !IsEnding(x, v)
    ensures IsTarget(x, t) || Turns.Late(x.s) != {} || Starves(x)
  {
    if x.unlocking.OwnedBy? {
      t := x.unlocking.t;
      assert t < |x.point| && PointOk(x, t) && PendingOk(x, t) && RunsOk(x, t);
      InRoundIsReady(x, rounds, t);
      ReadyIsOnItsWay(x, rounds, workers, rank, t);
    } else if x.m.owner.OwnedBy? {
      t := OwnerTarget(x, rounds, workers, rank);
    } else {
      t := FreeMutexTarget(x, rounds, workers, rank);
    }
  }

  lemma ReadyTask(x: Client, rounds: nat, workers: nat, rank: seq<nat>) returns (t: nat)
    requires Sound(x, rounds, workers, rank) && x.s.active > 0 && forall v: nat :: !IsEnding(x, v)
    ensures t < |x.point| && Stage(x.s, t) == 2
  {
    assert ActiveTasks(x.s) != {};
    var u :| u in ActiveTasks(x.s);
    SchedulerProgress.SomeTaskReady(x.s, rank, u);
    if a: nat :| a < |x.s.ready| && x.s.ready[a] != [] {
      assert QueueOk(x.s, a);
      t := x.s.ready[a][0];
    } else {
      var v: nat :| v < |x.s.pc| && HoldsSome(x.s.pc[v]);
      assert WorkerOk(x.s, v) && !IsEnding(x, v);
      t := Held(x.s.pc[v]);
    }
  }
}
