/** Whole runs of the contended counter. */
module MutexRuns {
  import opened Scheduler
  import opened SchedulerInvariant
  import opened SchedulerPolling
  import opened SchedulerAccounting
  import opened TaskMutex
  import opened MutexClient

  /** All tasks are added, the mutex is unlocked and the shared value is zero. */
  ghost predicate Start(x: Client) {
    && Init(x.s) && (forall t :: 0 <= t < |x.s.pending| ==> x.s.pending[t] == [])
    && x.m == UNLOCKED && x.unlocking == Free && x.value == 0
    && x.point == seq(Tasks(x.s), _ => Outside) && x.rounds == seq(Tasks(x.s), _ => 0)
  }

  ghost predicate Steps(x: Client, rounds: nat, x': Client) {
    exists m :: CanMove(x, rounds, m) && x' == DoMove(x, rounds, m)
  }

  ghost predicate StepsAt(rounds: nat, tr: seq<Client>, i: nat)
    requires i + 1 < |tr|
  {
    Steps(tr[i], rounds, tr[i + 1])
  }

  ghost predicate IsRunOf(rounds: nat, tr: seq<Client>) {
    && |tr| > 0
    && Start(tr[0])
    && forall i :: 0 <= i < |tr| - 1 ==> StepsAt(rounds, tr, i)
  }

  lemma StartGood(x: Client, rounds: nat)
    requires Start(x)
    ensures Good(x, rounds)
  {
    InitInv(x.s);
    forall t | 0 <= t < |x.point| ensures PointOk(x, t) && PendingOk(x, t) && DoneOk(x, rounds, t) && RunsOk(x, t) {
      assert x.s.place[t].Blocked? || x.s.place[t].Queued?;
    }
    forall w | 0 <= w < |x.s.pc| ensures PolledOk(x.s, w) { assert x.s.pc[w] == Idle; }
    TotalOf(x, |x.point|, 0);
  }

  lemma {:induction false} TotalOf(x: Client, n: nat, k: nat)
    requires n <= |x.point| == |x.rounds| && forall t :: 0 <= t < n ==> x.point[t] == Outside && x.rounds[t] == k
    ensures Total(x, n) == n * k
    decreases n
  {
    if n > 0 {
      TotalOf(x, n - 1, k);
      assert n * k == (n - 1) * k + k;
    }
  }

  lemma StepGood(x: Client, rounds: nat, x': Client)
    requires Good(x, rounds) && Steps(x, rounds, x')
    ensures Good(x', rounds)
  {
    var m :| CanMove(x, rounds, m) && x' == DoMove(x, rounds, m);
    MoveGood(x, rounds, m);
  }

  lemma {:induction false} AlwaysGood(rounds: nat, tr: seq<Client>, i: nat)
    requires IsRunOf(rounds, tr) && i < |tr|
    ensures Good(tr[i], rounds)
    decreases i
  {
    if i == 0 {
      StartGood(tr[0], rounds);
    } else {
      AlwaysGood(rounds, tr, i - 1);
      assert StepsAt(rounds, tr, i - 1);
      StepGood(tr[i - 1], rounds, tr[i]);
    }
  }

  /** No two tasks are between lock and unlock at the same time, and the one that is owns the mutex. */
  lemma MutualExclusion(rounds: nat, tr: seq<Client>, i: nat, t: nat, u: nat)
    requires IsRunOf(rounds, tr) && i < |tr| && t < |tr[i].point| && u < |tr[i].point|
    requires tr[i].point[t].Locked? || tr[i].point[t].HasRead? || tr[i].point[t].Written?
    requires tr[i].point[u].Locked? || tr[i].point[u].HasRead? || tr[i].point[u].Written?
    ensures t == u && tr[i].m.owner == OwnedBy(t)
  {
    AlwaysGood(rounds, tr, i);
    assert PointOk(tr[i], t) && PointOk(tr[i], u);
  }

  /** A call to lock that suspended its task returns only when the task owns the mutex. */
  lemma ReturnsAsOwner(rounds: nat, tr: seq<Client>, i: nat, w: nat)
    requires IsRunOf(rounds, tr) && i < |tr| && CanMove(tr[i], rounds, Resume(w))
    ensures tr[i].m.owner == OwnedBy(tr[i].s.pc[w].t)
  {
    AlwaysGood(rounds, tr, i);
    RunningOk(tr[i], rounds, w);
  }

  lemma FinishedTotal(x: Client, rounds: nat)
    requires Good(x, rounds) && x.s.active == 0
    ensures x.value == Tasks(x.s) * rounds
  {
    NothingActive(x.s);
    forall t | 0 <= t < |x.point| ensures x.point[t] == Outside && x.rounds[t] == rounds {
      assert DoneOk(x, rounds, t);
    }
    TotalOf(x, |x.point|, rounds);
  }

  /** When a worker has found all tasks finished, the shared value is the number of tasks times the rounds of each: no
      increment is lost, for every number of tasks, rounds and workers and every interleaving. */
  lemma EveryIncrementCounts(rounds: nat, tr: seq<Client>, i: nat, w: nat)
    requires IsRunOf(rounds, tr) && i < |tr| && w < |tr[i].s.pc| && Leaving(tr[i].s.pc[w])
    ensures tr[i].value == Tasks(tr[i].s) * rounds
  {
    AlwaysGood(rounds, tr, i);
    FinishedTotal(tr[i], rounds);
  }
}
