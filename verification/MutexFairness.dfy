/**
The contended counter comes to its end: every fair run does all rounds of all tasks, unless it comes to a state in which
the counter is starved, and then every worker stops.
*/
module MutexFairness {
  import opened Scheduler
  import opened SchedulerInvariant
  import opened SchedulerAccounting
  import SchedulerProgress
  import SchedulerFairness
  import Turns
  import opened Fairness
  import opened TaskMutex
  import opened MutexClient
  import MutexRuns
  import opened MutexStarvation
  import opened MutexProgress
  import AffineTasks

  /** A run of so many workers, with affinities that do not change, in rounds in which nobody who stays able to go on is left
      out. */
  ghost predicate FairRun(r: Run<Client>, cuts: seq<nat>, rounds: nat, workers: nat, rank: seq<nat>) {
    && IsRunOf(Contention(rounds, workers, rank), r) && Sound(r.states[0], rounds, workers, rank)
    && InRounds(Contention(rounds, workers, rank), r, cuts)
  }

  /** All tasks are finished, or the owner of the mutex stays in the common queue for ever. */
  ghost predicate Settled(x: Client) { x.s.active == 0 || Starves(x) }

  /** Within so many scheduling rounds some task takes a step of its own, or an occupied worker pops the common queue. */
  function Patience(workers: nat, rank: seq<nat>): nat { 14 + 9 * (|rank| + 1) + 8 * workers }

  lemma SomePlan(x: Client, rounds: nat, workers: nat, rank: seq<nat>)
    requires Sound(x, rounds, workers, rank) && !Settled(x)
    ensures HasPlan(Contention(rounds, workers, rank), x, Patience(workers, rank))
  {
    assert x.s.active > 0;
    var f, n := Contention(rounds, workers, rank), Patience(workers, rank);
    if v: nat :| IsEnding(x, v) {
      EndingLeads(rounds, workers, rank, v);
      assert IsPlan(f, EndPlan(v), x, n);
    } else {
      var t := SomeTarget(x, rounds, workers, rank);
      if IsTarget(x, t) {
        TaskLeads(rounds, workers, rank, t);
        Turns.FarBounded(x.s, t);
        assert IsPlan(f, TaskPlan(t), x, n);
      } else {
        var v :| v in Turns.Late(x.s);
        LateLeads(rounds, workers, rank, v);
        assert IsPlan(f, LatePlan(v), x, n);
      }
    }
  }

  lemma SettledStays(x: Client, x': Client, w: int, rounds: nat, workers: nat, rank: seq<nat>)
    requires Sound(x, rounds, workers, rank) && Settled(x) && GoesOn(rounds, x, x', w)
    ensures Settled(x')
  {
    if x.s.active == 0 {
      OverStep(x, x', w, rounds, workers, rank);
    } else {
      StarvesStep(x, x', w, rounds);
    }
  }

  lemma ContentionProgresses(rounds: nat, workers: nat, rank: seq<nat>)
    ensures Progresses(Contention(rounds, workers, rank), Settled, Patience(workers, rank))
  {
    var f := Contention(rounds, workers, rank);
    IsLawful(rounds, workers, rank);
    forall x ensures GetsDone(f, Settled, Patience(workers, rank), x) {
      if f.good(x) && !Settled(x) { SomePlan(x, rounds, workers, rank); }
    }
    forall x, x', w ensures StaysDone(f, Settled, x, x', w) {
      if f.good(x) && Settled(x) && f.follows(x, x', w) { SettledStays(x, x', w, rounds, workers, rank); }
    }
  }

  /** So many scheduling rounds settle the counter. */
  function RoundsNeeded(x: Client, rounds: nat, workers: nat, rank: seq<nat>): nat {
    (Weight(x, rounds) + 1) * Patience(workers, rank)
  }

  // ---------------------------------------------------------------------------------------------------------
  // Every fair run
  // ---------------------------------------------------------------------------------------------------------

  lemma CountsUnlessStarved(x: Client, rounds: nat)
    requires Good(x, rounds)
    ensures x.s.active == 0 ==> x.value == Tasks(x.s) * rounds && !Starves(x)
  {
    if x.s.active == 0 { MutexRuns.FinishedTotal(x, rounds); }
    forall o, guards ensures Starved(x, o, guards) ==> x.s.active > 0 {
      if Starved(x, o, guards) { OwnerIsActive(x, rounds, o, guards); }
    }
  }

  lemma StarvesUntil(r: Run<Client>, rounds: nat, workers: nat, rank: seq<nat>, i: nat)
    requires IsRunOf(Contention(rounds, workers, rank), r) && Sound(r.states[0], rounds, workers, rank)
    requires i < |r.states| && Starves(r.states[i])
    ensures Starves(r.Last()) && r.Last().s.active > 0
  {
    var f := Contention(rounds, workers, rank);
    ContentionProgresses(rounds, workers, rank);
    GoodUntil(f, r, 0, i);
    StarvesOn(r, rounds, workers, rank, i, |r.who|);
    GoodUntil(f, r, i, |r.who|);
    CountsUnlessStarved(r.Last(), rounds);
  }

  lemma {:induction false} StarvesOn(r: Run<Client>, rounds: nat, workers: nat, rank: seq<nat>, i: nat, j: nat)
    requires IsRunOf(Contention(rounds, workers, rank), r) && i <= j < |r.states|
    requires Sound(r.states[i], rounds, workers, rank) && Starves(r.states[i])
    ensures Starves(r.states[j])
    decreases j
  {
    if i < j {
      StarvesOn(r, rounds, workers, rank, i, j - 1);
      var f := Contention(rounds, workers, rank);
      IsLawful(rounds, workers, rank);
      GoodUntil(f, r, i, j - 1);
      assert StepOk(f, r, j - 1);
      StarvesStep(r.states[j - 1], r.states[j], r.who[j - 1], rounds);
    }
  }

  lemma StarvesStep(x: Client, x': Client, w: int, rounds: nat)
    requires Good(x, rounds) && Starves(x) && GoesOn(rounds, x, x', w)
    ensures Starves(x')
  {
    if !(w < 0 && x' == x) {
      var m :| MovesTo(x, rounds, x', w, m);
      var o, guards :| Starved(x, o, guards);
      StarvedStays(x, o, guards, m, rounds);
    }
  }

  /** Every fair run that has come so far has done all rounds of all tasks, and the shared value is their number, exactly if
      it has come to no state in which the counter is starved. */
  lemma FairRunsCountUnlessStarved(r: Run<Client>, cuts: seq<nat>, rounds: nat, workers: nat, rank: seq<nat>)
    requires FairRun(r, cuts, rounds, workers, rank) && |cuts| > RoundsNeeded(r.states[0], rounds, workers, rank)
    ensures r.Last().s.active == 0 <==> forall i :: 0 <= i < |r.states| ==> !Starves(r.states[i])
    ensures r.Last().s.active == 0 ==> r.Last().value == Tasks(r.states[0].s) * rounds
  {
    var f := Contention(rounds, workers, rank);
    ContentionProgresses(rounds, workers, rank);
    FairRunsGetDone(f, Settled, Patience(workers, rank), r, cuts, 0);
    CountsUnlessStarved(r.Last(), rounds);
    forall i | 0 <= i < |r.states| ensures Starves(r.states[i]) ==> r.Last().s.active != 0 {
      if Starves(r.states[i]) { StarvesUntil(r, rounds, workers, rank, i); }
    }
  }

  /** The counter, in a setting in which it is not starved. */
  ghost function Suited(rounds: nat, workers: nat, rank: seq<nat>): Machine<Client> {
    Contention(rounds, workers, rank).(good := x => Sound(x, rounds, workers, rank) && AffineTasks.Suits(x))
  }

  lemma SuitedUntil(r: Run<Client>, cuts: seq<nat>, rounds: nat, workers: nat, rank: seq<nat>, i: nat)
    requires FairRun(r, cuts, rounds, workers, rank) && AffineTasks.Suits(r.states[0]) && i < |r.states|
    ensures !Starves(r.states[i])
  {
    var f, m := Contention(rounds, workers, rank), Suited(rounds, workers, rank);
    IsLawful(rounds, workers, rank);
    forall x, x', w ensures LawfulStep(m, x, x', w) {
      if m.good(x) && m.follows(x, x', w) {
        assert LawfulStep(f, x, x', w);
        AffineTasks.MoveSuits(x, x', w, rounds, workers, rank);
      }
    }
    SameRuns(f, m, r, cuts);
    GoodUntil(m, r, 0, i);
    AffineTasks.SuitsNeverStarves(r.states[i], rounds);
  }

  /** In such a setting every fair run that has come so far has done all rounds of all tasks. */
  lemma FairRunsCount(r: Run<Client>, cuts: seq<nat>, rounds: nat, workers: nat, rank: seq<nat>)
    requires FairRun(r, cuts, rounds, workers, rank) && |cuts| > RoundsNeeded(r.states[0], rounds, workers, rank)
    requires AffineTasks.Suits(r.states[0])
    ensures r.Last().s.active == 0 && r.Last().value == Tasks(r.states[0].s) * rounds
  {
    forall i | 0 <= i < |r.states| ensures !Starves(r.states[i]) { SuitedUntil(r, cuts, rounds, workers, rank, i); }
    FairRunsCountUnlessStarved(r, cuts, rounds, workers, rank);
  }

  // ---------------------------------------------------------------------------------------------------------
  // Once no task is active
  // ---------------------------------------------------------------------------------------------------------

  ghost predicate Over(x: Client, rounds: nat, workers: nat, rank: seq<nat>) {
    Sound(x, rounds, workers, rank) && x.s.active == 0
  }

  /** The counter once no task is active, with workers that terminate when they see that; what is left to do is that worker w
      terminates. */
  ghost function Ending(rounds: nat, workers: nat, rank: seq<nat>, w: nat): Machine<Client> {
    Machine((x, x', w) => GoesOn(rounds, x, x', w), (x, w) => Able(x, rounds, w), workers,
            x => Over(x, rounds, workers, rank) && x.s.finishOnLast, (x: Client) => if SchedulerFairness.HasStopped(x.s, w) then 0 else 1)
  }

  ghost function StopPlan(w: nat): Plan<Client> {
    Plan((x: Client) => w < |x.s.pc| && !x.s.pc[w].Stopped?, (x: Client) => SchedulerFairness.StepsToStop(x.s, w), (_, u) => u == w)
  }

  lemma NobodyWaits(x: Client, rounds: nat)
    requires Good(x, rounds) && x.s.active == 0
    ensures SchedulerProgress.Plain(x.s) && forall w :: 0 <= w < |x.s.pc| ==> !HoldsSome(x.s.pc[w])
  {
    NothingActive(x.s);
    forall t | 0 <= t < |x.s.pending| ensures x.s.pending[t] == [] { assert DoneOk(x, rounds, t) && PendingOk(x, t); }
  }

  /** All that goes on is the workers' search for tasks. */
  lemma OverStep(x: Client, x': Client, u: int, rounds: nat, workers: nat, rank: seq<nat>)
    requires Over(x, rounds, workers, rank) && GoesOn(rounds, x, x', u)
    ensures Over(x', rounds, workers, rank) && x'.s.finishOnLast == x.s.finishOnLast
    ensures SchedulerFairness.GoesOn(x.s, x'.s, u) && SchedulerProgress.Plain(x.s)
  {
    NobodyWaits(x, rounds);
    if u >= 0 {
      var m :| MovesTo(x, rounds, x', u, m);
      MoveSound(x, x', u, m, rounds, workers, rank);
      assert m.Schedule?;
      SchedulerFairness.SearchStep(x.s, u, m.l.choice);
    }
  }

  lemma StopLeads(rounds: nat, workers: nat, rank: seq<nat>, w: nat)
    requires w < workers
    ensures Lawful(Ending(rounds, workers, rank, w)) && Leads(Ending(rounds, workers, rank, w), StopPlan(w))
  {
    var f, p := Ending(rounds, workers, rank, w), StopPlan(w);
    forall x, x', u ensures LeadsStep(f, p, x, x', u) && LawfulStep(f, x, x', u) {
      if f.good(x) && f.follows(x, x', u) {
        OverStep(x, x', u, rounds, workers, rank);
        SchedulerFairness.StopsSooner(x.s, x'.s, u, w);
        StillAble(x', rounds, w);
      }
    }
    forall x ensures Calls(f, p, x) {
      if f.good(x) && p.near(x) {
        StillAble(x, rounds, w);
        assert Called(f, p, x, w);
      }
    }
  }

  lemma StillAble(x: Client, rounds: nat, w: nat)
    requires Good(x, rounds) && x.s.active == 0 && w < |x.s.pc|
    ensures !x.s.pc[w].Stopped? ==> Able(x, rounds, w)
  {
    NobodyWaits(x, rounds);
  }

  lemma FlagUntil(r: Run<Client>, cuts: seq<nat>, rounds: nat, workers: nat, rank: seq<nat>, q: nat)
    requires FairRun(r, cuts, rounds, workers, rank) && q < |cuts| && r.states[0].s.finishOnLast
    ensures r.states[cuts[q]].s.finishOnLast
  {
    var f := Contention(rounds, workers, rank);
    var m := f.(good := x => Sound(x, rounds, workers, rank) && x.s.finishOnLast);
    IsLawful(rounds, workers, rank);
    forall x, x', w ensures LawfulStep(m, x, x', w) {
      if m.good(x) && m.follows(x, x', w) {
        assert LawfulStep(f, x, x', w);
        FlagStays(x, x', w, rounds);
      }
    }
    SameRuns(f, m, r, cuts);
    GoodUntil(m, r, 0, cuts[q]);
  }

  lemma FlagStays(x: Client, x': Client, w: int, rounds: nat)
    requires Good(x, rounds) && GoesOn(rounds, x, x', w)
    ensures x'.s.finishOnLast == x.s.finishOnLast
  {
    if !(w < 0 && x' == x) {
      var m :| MovesTo(x, rounds, x', w, m);
      if m.Schedule? { Turns.AffinityStays(x.s, m.l.w, m.l.choice); }
    }
  }

  lemma OverAfter(r: Run<Client>, cuts: seq<nat>, rounds: nat, workers: nat, rank: seq<nat>, q: nat)
    requires FairRun(r, cuts, rounds, workers, rank) && r.Last().s.active == 0
    requires q == RoundsNeeded(r.states[0], rounds, workers, rank) < |cuts|
    ensures Over(r.states[cuts[q]], rounds, workers, rank)
  {
    ContentionProgresses(rounds, workers, rank);
    FairRunsGetDone(Contention(rounds, workers, rank), Settled, Patience(workers, rank), r, cuts, 0);
    if Starves(r.states[cuts[q]]) { StarvesUntil(r, rounds, workers, rank, cuts[q]); }
  }

  /** Nine scheduling rounds after the tasks every worker has terminated. */
  lemma FairRunsEnd(r: Run<Client>, cuts: seq<nat>, rounds: nat, workers: nat, rank: seq<nat>, w: nat)
    requires FairRun(r, cuts, rounds, workers, rank) && w < workers && r.states[0].s.finishOnLast && r.Last().s.active == 0
    requires |cuts| > RoundsNeeded(r.states[0], rounds, workers, rank) + 9
    ensures SchedulerFairness.HasStopped(r.Last().s, w)
  {
    var f, q := Ending(rounds, workers, rank, w), RoundsNeeded(r.states[0], rounds, workers, rank);
    OverAfter(r, cuts, rounds, workers, rank, q);
    FlagUntil(r, cuts, rounds, workers, rank, q);
    SameRuns(Contention(rounds, workers, rank), f, r, cuts);
    StopLeads(rounds, workers, rank, w);
    LastPieceOfWork(f, StopPlan(w), 9, r, cuts, q);
  }

  // ---------------------------------------------------------------------------------------------------------
  // Fair runs exist
  // ---------------------------------------------------------------------------------------------------------

  /** The next move of a worker that can go on. */
  lemma NextMove(x: Client, w: nat, rounds: nat, workers: nat, rank: seq<nat>) returns (m: Move)
    requires Sound(x, rounds, workers, rank) && Able(x, rounds, w)
    ensures CanMove(x, rounds, m) && Mover(m) == w
  {
    if x.s.pc[w].Running? {
      RunningOk(x, rounds, w);
      var t := x.s.pc[w].t;
      assert DoneOk(x, rounds, t);
      match x.point[t]
      case Outside => m := if x.rounds[t] < rounds then Acquire(w) else Schedule(Act(w, Choice(true, true, true, false, [])));
      case Enqueued => m := Schedule(Act(w, Choice(true, true, true, true, [OWNS_LOCK])));
      case Suspended => m := Resume(w);
      case Locked => m := ReadValue(w);
      case HasRead(_) => m := WriteValue(w);
      case Written => m := BeginUnlock(w);
      case Unlocking => m := EndUnlock(w);
    } else {
      var owns := x.s.pc[w].Polling? && x.m.owner == OwnedBy(x.s.pc[w].t);
      m := Schedule(Act(w, Choice(owns, true, true, false, [])));
    }
  }

  lemma AbleGoes(x: Client, w: nat, rounds: nat, workers: nat, rank: seq<nat>)
    requires Sound(x, rounds, workers, rank) && Able(x, rounds, w)
    ensures Steps(Contention(rounds, workers, rank), x, w)
  {
    var m := NextMove(x, w, rounds, workers, rank);
    var x' := DoMove(x, rounds, m);
    assert MovesTo(x, rounds, x', w, m);
    MoveSound(x, x', w, m, rounds, workers, rank);
    assert Contention(rounds, workers, rank).follows(x, x', w) && Contention(rounds, workers, rank).good(x');
  }

  /** From every reachable state there are fair runs of any length, so that what holds of all of them is not empty. */
  lemma FairRunFrom(x: Client, rounds: nat, workers: nat, rank: seq<nat>, n: nat) returns (r: Run<Client>, cuts: seq<nat>)
    requires Sound(x, rounds, workers, rank)
    ensures FairRun(r, cuts, rounds, workers, rank) && r.states[0] == x && |cuts| == n + 1
  {
    var f := Contention(rounds, workers, rank);
    forall y, w: nat | f.good(y) && w < f.workers && f.able(y, w) ensures Steps(f, y, w) { AbleGoes(y, w, rounds, workers, rank); }
    r, cuts := FairRunExists(f, x, n);
  }

  /** From every reachable state of such a setting some run ends with all rounds of all tasks done and every worker stopped
      that may. */
  lemma CounterCanFinish(x: Client, rounds: nat, workers: nat, rank: seq<nat>) returns (r: Run<Client>)
    requires Sound(x, rounds, workers, rank) && AffineTasks.Suits(x)
    ensures IsRunOf(Contention(rounds, workers, rank), r) && r.states[0] == x && r.Last().value == Tasks(x.s) * rounds
    ensures x.s.finishOnLast ==> forall w: nat :: w < workers ==> SchedulerFairness.HasStopped(r.Last().s, w)
  {
    var cuts;
    r, cuts := FairRunFrom(x, rounds, workers, rank, RoundsNeeded(x, rounds, workers, rank) + 9);
    FairRunsCount(r, cuts, rounds, workers, rank);
    if x.s.finishOnLast {
      forall w: nat | w < workers ensures SchedulerFairness.HasStopped(r.Last().s, w) { FairRunsEnd(r, cuts, rounds, workers, rank, w); }
    }
  }

  /** The runs that start with all tasks added, in the queues that their affinities name, are of this kind. */
  lemma StartSound(x: Client, rounds: nat, workers: nat, rank: seq<nat>)
    requires MutexRuns.Start(x) && |x.s.pc| == workers > 0 && x.s.g.Ordered(rank)
    requires Turns.AllOwn(x.s) || Turns.Awake(x.s)
    requires forall t :: 0 <= t < |x.s.place| && x.s.place[t].Queued? ==> x.s.named[t] == QueueOf(x.s, t)
    ensures Sound(x, rounds, workers, rank)
    ensures AffineTasks.Setting(x.s) ==> AffineTasks.Suits(x)
  {
    MutexRuns.StartGood(x, rounds);
    Turns.InitOrderly(x.s);
    if AffineTasks.Setting(x.s) { AffineTasks.StartSuits(x); }
  }
}
