/** Which graphs are executed to their end: those without a cycle of dependencies, and no others. */
module SchedulerCycles {
  import opened Scheduler
  import opened SchedulerInvariant
  import opened SchedulerTheorems
  import opened SchedulerProgress
  import opened SchedulerFairness
  import opened Fairness

  predicate DependsOnNext(g: Graph, c: seq<nat>, k: nat)
    requires k < |c|
  {
    var p := c[if k == 0 then |c| - 1 else k - 1];
    c[k] < |g.out| && p < |g.out| && c[k] in g.out[p]
  }

  /** Every task of c depends on the one before it, and the first on the last. */
  predicate IsCycle(g: Graph, c: seq<nat>) {
    |c| > 0 && forall k :: 0 <= k < |c| ==> DependsOnNext(g, c, k)
  }

  // ---------------------------------------------------------------------------------------------------------
  // A graph has an order or a cycle
  // ---------------------------------------------------------------------------------------------------------

  predicate Distinct(q: seq<nat>, n: nat) {
    NoDuplicates(q) && forall i :: 0 <= i < |q| ==> q[i] < n
  }

  /** The predecessors of the tasks of q are in q, and come earlier. */
  predicate Sorted(g: Graph, q: seq<nat>) {
    && Distinct(q, |g.out|)
    && forall p, i :: 0 <= p < |g.out| && 0 <= i < |q| && q[i] in g.out[p] ==> p in q[..i]
  }

  /** A path against the direction of the dependencies, beside the tasks of q. */
  predicate IsPathBack(g: Graph, q: seq<nat>, path: seq<nat>) {
    && Distinct(path, |g.out|) && |path| > 0
    && (forall i :: 0 <= i < |path| ==> path[i] !in q)
    && (forall i :: 0 < i < |path| ==> path[i] in g.out[path[i - 1]])
  }

  predicate IsSource(g: Graph, q: seq<nat>, t: nat) {
    t < |g.out| && t !in q && forall p :: 0 <= p < |g.out| && t in g.out[p] ==> p in q
  }

  lemma DistinctBounded(q: seq<nat>, n: nat)
    requires Distinct(q, n)
    ensures |q| <= n
  {
    SchedulerAccounting.DistinctSize(q);
    Below(SchedulerAccounting.Elements(q), n);
  }

  lemma {:induction false} Below(a: set<nat>, n: nat)
    requires forall t :: t in a ==> t < n
    ensures |a| <= n
    decreases n
  {
    if n == 0 {
      assert a == {};
    } else {
      Below(a - {n - 1}, n - 1);
      assert a <= (a - {n - 1}) + {n - 1};
      assert |a| <= |a - {n - 1}| + 1;
    }
  }

  /** Going back from task to predecessor, one comes to a task whose predecessors are all in q, or round a cycle. */
  lemma {:induction false} GoBack(g: Graph, q: seq<nat>, path: seq<nat>) returns (t: nat, c: seq<nat>)
    requires IsPathBack(g, q, path)
    ensures IsSource(g, q, t) || IsCycle(g, c)
    decreases |g.out| - |path|
  {
    DistinctBounded(path, |g.out|);
    t, c := path[0], [];
    if !IsSource(g, q, t) {
      var p :| 0 <= p < |g.out| && t in g.out[p] && p !in q;
      if p in path {
        c := Close(g, q, path, p);
      } else {
        DistinctBounded([p] + path, |g.out|);
        t, c := GoBack(g, q, [p] + path);
      }
    }
  }

  lemma Close(g: Graph, q: seq<nat>, path: seq<nat>, p: nat) returns (c: seq<nat>)
    requires IsPathBack(g, q, path) && p in path && path[0] in g.out[p]
    ensures IsCycle(g, c)
  {
    var k :| 0 <= k < |path| && path[k] == p;
    c := [p] + path[..k];
    forall i | 0 <= i < |c| ensures DependsOnNext(g, c, i) {
      if i == 0 { assert c[|c| - 1] == if k == 0 then p else path[k - 1]; }
      else if i == 1 { assert c[1] == path[0]; }
      else { assert c[i] == path[i - 1] && c[i - 1] == path[i - 2]; }
    }
  }

  /** Takes one task after another whose predecessors have been taken. */
  lemma {:induction false} Sort(g: Graph, q: seq<nat>) returns (q': seq<nat>, c: seq<nat>)
    requires Sorted(g, q)
    ensures (Sorted(g, q') && |q'| == |g.out|) || IsCycle(g, c)
    decreases |g.out| - |q|
  {
    DistinctBounded(q, |g.out|);
    if |q| == |g.out| {
      q', c := q, [];
    } else {
      var u := Missing(q, |g.out|);
      assert IsPathBack(g, q, [u]);
      var t;
      t, c := GoBack(g, q, [u]);
      q' := q;
      if IsSource(g, q, t) {
        SortedOneMore(g, q, t);
        DistinctBounded(q + [t], |g.out|);
        q', c := Sort(g, q + [t]);
      }
    }
  }

  lemma SortedOneMore(g: Graph, q: seq<nat>, t: nat)
    requires Sorted(g, q) && IsSource(g, q, t)
    ensures Sorted(g, q + [t])
  {
    forall p, i | 0 <= p < |g.out| && 0 <= i < |q + [t]| && (q + [t])[i] in g.out[p] ensures p in (q + [t])[..i] {
      assert (q + [t])[..i] == q[..i];
    }
  }

  lemma Missing(q: seq<nat>, n: nat) returns (u: nat)
    requires |q| < n
    ensures u < n && u !in q
  {
    if forall t: nat :: t < n ==> t in q { AllIn(q, n); }
    u :| u < n && u !in q;
  }

  lemma {:induction false} AllIn(q: seq<nat>, n: nat)
    requires forall t: nat :: t < n ==> t in q
    ensures n <= |q|
    decreases n
  {
    if n > 0 {
      assert n - 1 in q;
      var k :| 0 <= k < |q| && q[k] == n - 1;
      var rest := q[..k] + q[k + 1..];
      forall t: nat | t < n - 1 ensures t in rest {
        assert t in q;
        var j :| 0 <= j < |q| && q[j] == t;
        assert rest[if j < k then j else j - 1] == t;
      }
      AllIn(rest, n - 1);
    }
  }

  function IndexOf(q: seq<nat>, t: nat): (i: nat)
    requires t in q
    ensures i < |q| && q[i] == t
    decreases |q|
  {
    if q[0] == t then 0 else 1 + IndexOf(q[1..], t)
  }

  /** The tasks in such a sequence are all tasks. */
  lemma AllSorted(q: seq<nat>, n: nat, t: nat)
    requires Distinct(q, n) && |q| == n && t < n
    ensures t in q
  {
    if t !in q { DistinctBounded(q + [t], n); }
  }

  /** Every graph has an order that rises along its edges, or a cycle. */
  lemma OrderOrCycle(g: Graph) returns (rank: seq<nat>, c: seq<nat>)
    ensures g.Ordered(rank) || IsCycle(g, c)
  {
    var q;
    q, c := Sort(g, []);
    rank := [];
    if !IsCycle(g, c) {
      forall t: nat | t < |g.out| ensures t in q { AllSorted(q, |g.out|, t); }
      rank := seq(|g.out|, t requires 0 <= t < |g.out| => IndexOf(q, t));
      forall p, k | 0 <= p < |g.out| && 0 <= k < |g.out[p]| && g.out[p][k] < |g.out| ensures rank[p] < rank[g.out[p][k]] {
        Earlier(g, q, p, g.out[p][k]);
      }
    }
  }

  lemma Earlier(g: Graph, q: seq<nat>, p: nat, t: nat)
    requires Sorted(g, q) && p < |g.out| && t in q && t in g.out[p] && p in q
    ensures IndexOf(q, p) < IndexOf(q, t)
  {
    var i := IndexOf(q, t);
    assert q[i] in g.out[p];
    var j :| 0 <= j < i && q[..i][j] == p;
    assert q[j] == q[IndexOf(q, p)];
  }

  /** Along a cycle the rank would rise for ever. */
  lemma {:induction false} NotBoth(g: Graph, rank: seq<nat>, c: seq<nat>, k: nat)
    requires g.Ordered(rank) && IsCycle(g, c) && k < |c|
    ensures c[0] < |rank| && c[k] < |rank| && rank[c[0]] + k <= rank[c[k]]
    ensures k == |c| - 1 ==> rank[c[k]] < rank[c[0]]
    decreases k
  {
    if k > 0 {
      NotBoth(g, rank, c, k - 1);
      assert DependsOnNext(g, c, k);
    }
    assert DependsOnNext(g, c, 0);
  }

  lemma OrderedIffAcyclic(g: Graph)
    ensures (exists rank :: g.Ordered(rank)) <==> forall c :: !IsCycle(g, c)
  {
    var rank, c := OrderOrCycle(g);
    forall r, d | g.Ordered(r) ensures !IsCycle(g, d) {
      if IsCycle(g, d) { NotBoth(g, r, d, |d| - 1); }
    }
  }

  // ---------------------------------------------------------------------------------------------------------
  // Tasks on a cycle never run
  // ---------------------------------------------------------------------------------------------------------

  predicate AllBlocked(s: State, c: seq<nat>) {
    forall k :: 0 <= k < |c| ==> c[k] < |s.place| && s.place[c[k]].Blocked?
  }

  lemma CycleStays(s: State, l: Label, c: seq<nat>)
    requires Inv(s) && Enabled(s, l) && IsCycle(s.g, c) && AllBlocked(s, c)
    ensures Inv(Apply(s, l)) && Apply(s, l).g == s.g && AllBlocked(Apply(s, l), c)
  {
    var s' := Apply(s, l);
    StepInv(s, l);
    forall k | 0 <= k < |c| ensures s'.g == s.g && c[k] < |s'.place| && s'.place[c[k]].Blocked? {
      var p := c[if k == 0 then |c| - 1 else k - 1];
      assert DependsOnNext(s.g, c, k);
      StepAges(s, l, p);
      var j :| 0 <= j < |s.g.out[p]| && s.g.out[p][j] == c[k];
      if !s'.place[c[k]].Blocked? { ReadyAfterPredecessors(s', c[k], p, j); }
    }
  }

  lemma CycleStarts(s: State, c: seq<nat>)
    requires Init(s) && IsCycle(s.g, c)
    ensures AllBlocked(s, c)
  {
    forall k | 0 <= k < |c| ensures c[k] < |s.place| && s.place[c[k]].Blocked? {
      var p := c[if k == 0 then |c| - 1 else k - 1];
      assert DependsOnNext(s.g, c, k);
      var j :| 0 <= j < |s.g.out[p]| && s.g.out[p][j] == c[k];
      assert Edge(p, j) in s.g.Into(c[k]);
    }
  }

  /** A task on a cycle of dependencies stays blocked for ever, in every run, whatever the bodies do. */
  lemma {:induction false} CycleNeverRuns(tr: seq<State>, i: nat, c: seq<nat>)
    requires IsRun(tr) && i < |tr| && IsCycle(tr[0].g, c)
    ensures Inv(tr[i]) && tr[i].g == tr[0].g && AllBlocked(tr[i], c)
    decreases i
  {
    if i == 0 {
      InitInv(tr[0]);
      CycleStarts(tr[0], c);
    } else {
      CycleNeverRuns(tr, i - 1, c);
      var l := RunLabel(tr, i - 1);
      CycleStays(tr[i - 1], l, c);
    }
  }

  // ---------------------------------------------------------------------------------------------------------
  // Exactly the acyclic graphs are executed to their end
  // ---------------------------------------------------------------------------------------------------------

  /** A reachable state of a scheduler with so many workers, on any graph. */
  predicate Alive(s: State, workers: nat) { Inv(s) && Plain(s) && |s.pc| == workers > 0 }

  ghost function Whole(workers: nat): Machine<State> {
    Machine(GoesOn, CanGoOn, workers, s => Alive(s, workers), Measure)
  }

  ghost predicate FairFrom(s: State, workers: nat, r: Run<State>, cuts: seq<nat>) {
    IsRunOf(Whole(workers), r) && r.states[0] == s && InRounds(Whole(workers), r, cuts)
  }

  lemma GoesOnAlive(s: State, s': State, w: int, workers: nat, c: seq<nat>)
    requires Alive(s, workers) && GoesOn(s, s', w)
    ensures Alive(s', workers)
    ensures IsCycle(s.g, c) && AllBlocked(s, c) ==> s'.g == s.g && AllBlocked(s', c)
  {
    if w >= 0 {
      var d: Choice :| WorkerGoesOn(s, s', w, d);
      PlainInv(s, Act(w, d));
      if IsCycle(s.g, c) && AllBlocked(s, c) { CycleStays(s, Act(w, d), c); }
    } else if s' != s {
      var t: nat, a: int :| AffinityChanges(s, s', t, a);
      PlainInv(s, SetAffinity(t, a));
    }
  }

  lemma AliveGoes(s: State, w: nat, workers: nat)
    requires Alive(s, workers) && CanGoOn(s, w)
    ensures Steps(Whole(workers), s, w)
  {
    var c := Patient(w).choice;
    var s' := WorkerStep(s, w, c);
    assert WorkerGoesOn(s, s', w, c);
    GoesOnAlive(s, s', w, workers, []);
    assert Whole(workers).follows(s, s', w);
  }

  lemma {:induction false} StaysBlocked(r: Run<State>, workers: nat, c: seq<nat>, i: nat)
    requires IsRunOf(Whole(workers), r) && Alive(r.states[0], workers) && IsCycle(r.states[0].g, c) && AllBlocked(r.states[0], c)
    requires i < |r.states|
    ensures Alive(r.states[i], workers) && r.states[i].g == r.states[0].g && AllBlocked(r.states[i], c)
    decreases i
  {
    if i > 0 {
      StaysBlocked(r, workers, c, i - 1);
      assert StepOk(Whole(workers), r, i - 1);
      GoesOnAlive(r.states[i - 1], r.states[i], r.who[i - 1], workers, c);
    }
  }

  lemma CycleIsActive(s: State, c: seq<nat>)
    requires Inv(s) && IsCycle(s.g, c) && AllBlocked(s, c)
    ensures s.active != 0
  {
    assert c[0] in ActiveTasks(s);
  }

  /** Some fair run of any length, on a graph with a cycle, has active tasks at its end. */
  lemma CycleRunsOn(s: State, workers: nat, c: seq<nat>, n: nat) returns (r: Run<State>, cuts: seq<nat>)
    requires Init(s) && Alive(s, workers) && IsCycle(s.g, c)
    ensures FairFrom(s, workers, r, cuts) && |cuts| == n + 1 && r.Last().active != 0
  {
    var m := Whole(workers);
    forall x, w: nat | m.good(x) && w < workers && m.able(x, w) ensures Steps(m, x, w) { AliveGoes(x, w, workers); }
    r, cuts := FairRunExists(m, s, n);
    CycleStarts(s, c);
    StaysBlocked(r, workers, c, |r.who|);
    CycleIsActive(r.Last(), c);
  }

  ghost predicate Finishes(s: State, workers: nat, r: Run<State>, cuts: seq<nat>) {
    FairFrom(s, workers, r, cuts) && |cuts| > RoundsNeeded(s) ==> r.Last().active == 0
  }

  /** The fair runs finish all tasks exactly if no tasks depend on one another in a circle. */
  lemma FinishesIffAcyclic(s: State, workers: nat)
    requires Init(s) && Plain(s) && |s.pc| == workers > 0
    ensures (forall r, cuts :: Finishes(s, workers, r, cuts)) <==> forall c :: !IsCycle(s.g, c)
  {
    InitInv(s);
    if c :| IsCycle(s.g, c) {
      var r, cuts := CycleRunsOn(s, workers, c, RoundsNeeded(s) + 1);
      assert !Finishes(s, workers, r, cuts);
    } else {
      var rank, c := OrderOrCycle(s.g);
      forall r, cuts ensures Finishes(s, workers, r, cuts) {
        if FairFrom(s, workers, r, cuts) && |cuts| > RoundsNeeded(s) {
          SameRuns(Whole(workers), System(workers, rank), r, cuts);
          FairRunsFinish(r, cuts, workers, rank);
        }
      }
    }
  }

  /** A task that depends on itself can be added. */
  function Ouroboros(): State {
    State(Graph([[0]]), [[], []], [1], [[]], [-1], [0], [Blocked], [Idle], 1, 0, 1, true, false)
  }

  lemma OuroborosIsInitial()
    ensures Init(Ouroboros()) && Plain(Ouroboros()) && IsCycle(Ouroboros().g, [0])
  {
    var s := Ouroboros();
    assert s.g.Into(0) == {Edge(0, 0)} by { assert Edge(0, 0) in s.g.Edges(); }
    assert DependsOnNext(s.g, [0], 0) by { assert s.g.out[0][0] == 0; }
  }
}
