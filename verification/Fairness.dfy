/**
Fair runs, for any machine whose steps are taken by workers. A run falls into rounds; in a round every worker takes a
step, or at some point of the round it cannot go on by itself. So a worker that stays able to go on is never left out for
longer than a round, and nothing else is asked of the order of steps.
*/
module Fairness {

  /** A machine: its steps and the worker that takes each (a negative number stands for the environment), when a worker can
      go on by itself, the states that occur, and how much work is left. */
  datatype Machine<!S> = Machine(follows: (S, S, int) -> bool, able: (S, nat) -> bool, workers: nat, good: S -> bool, work: S -> nat)

  /** States, and the worker of every step. */
  datatype Run<!S> = Run(states: seq<S>, who: seq<int>) {
    predicate Shaped() { |states| == |who| + 1 }

    function Last(): S
      requires Shaped()
    {
      states[|who|]
    }
  }

  ghost predicate StepOk<S>(m: Machine<S>, r: Run<S>, i: nat)
    requires r.Shaped() && i < |r.who|
  {
    m.follows(r.states[i], r.states[i + 1], r.who[i])
  }

  ghost predicate IsRunOf<S>(m: Machine<S>, r: Run<S>) {
    && r.Shaped()
    && forall i :: 0 <= i < |r.who| ==> StepOk(m, r, i)
  }

  /** Between states i and j worker w takes a step, or it cannot go on at one of them. */
  ghost predicate Served<S>(m: Machine<S>, r: Run<S>, i: nat, j: nat, w: nat)
    requires r.Shaped() && i <= j <= |r.who|
  {
    || (exists k :: i <= k < j && r.who[k] == w)
    || (exists k :: i <= k <= j && !m.able(r.states[k], w))
  }

  ghost predicate IsRound<S>(m: Machine<S>, r: Run<S>, i: nat, j: nat) {
    r.Shaped() && i <= j <= |r.who| && forall w: nat :: w < m.workers ==> Served(m, r, i, j, w)
  }

  ghost predicate RoundAt<S>(m: Machine<S>, r: Run<S>, cuts: seq<nat>, q: nat)
    requires q + 1 < |cuts|
  {
    IsRound(m, r, cuts[q], cuts[q + 1])
  }

  /** The cuts divide the run, or a part of it, into rounds. */
  ghost predicate InRounds<S>(m: Machine<S>, r: Run<S>, cuts: seq<nat>) {
    && r.Shaped() && |cuts| > 0 && cuts[0] == 0
    && (forall q :: 0 <= q < |cuts| ==> cuts[q] <= |r.who|)
    && (forall q :: 0 <= q < |cuts| - 1 ==> RoundAt(m, r, cuts, q))
  }

  // ---------------------------------------------------------------------------------------------------------
  // Along a run
  // ---------------------------------------------------------------------------------------------------------

  ghost predicate LawfulStep<S>(m: Machine<S>, s: S, s': S, w: int) {
    m.good(s) && m.follows(s, s', w) ==> m.good(s') && m.work(s') <= m.work(s)
  }

  /** Good states lead to good states, and no step adds work. */
  ghost predicate Lawful<S(!new)>(m: Machine<S>) {
    forall s, s', w :: LawfulStep(m, s, s', w)
  }

  lemma {:induction false} GoodUntil<S(!new)>(m: Machine<S>, r: Run<S>, i: nat, j: nat)
    requires Lawful(m) && IsRunOf(m, r) && i <= j <= |r.who| && m.good(r.states[i])
    ensures m.good(r.states[j]) && m.work(r.states[j]) <= m.work(r.states[i])
    decreases j
  {
    if i < j {
      GoodUntil(m, r, i, j - 1);
      assert StepOk(m, r, j - 1);
      assert LawfulStep(m, r.states[j - 1], r.states[j], r.who[j - 1]);
    }
  }

  lemma {:induction false} CutsGrow<S>(m: Machine<S>, r: Run<S>, cuts: seq<nat>, p: nat, q: nat)
    requires InRounds(m, r, cuts) && p <= q < |cuts|
    ensures cuts[p] <= cuts[q]
    decreases q
  {
    if p < q {
      CutsGrow(m, r, cuts, p, q - 1);
      assert RoundAt(m, r, cuts, q - 1);
    }
  }

  // ---------------------------------------------------------------------------------------------------------
  // Progress
  // ---------------------------------------------------------------------------------------------------------

  /** Why work will be done: while the machine is near, `far` says how many more moves it can take of those who move. */
  datatype Plan<!S> = Plan(near: S -> bool, far: S -> nat, moves: (S, int) -> bool)

  /** A step that does no work leaves the machine near, and the step of a mover brings it nearer; the step of another leaves
      the movers able to go on. */
  ghost predicate LeadsStep<S>(m: Machine<S>, p: Plan<S>, s: S, s': S, u: int) {
    m.good(s) && p.near(s) && m.follows(s, s', u) && m.work(s') == m.work(s) ==>
      && p.near(s') && p.far(s') <= p.far(s)
      && if p.moves(s, u) then p.far(s') < p.far(s) else forall w: nat :: Called(m, p, s, w) ==> Called(m, p, s', w)
  }

  ghost predicate Called<S>(m: Machine<S>, p: Plan<S>, s: S, w: nat) {
    w < m.workers && p.moves(s, w) && m.able(s, w)
  }

  /** While the machine is near some mover can go on. */
  ghost predicate Calls<S>(m: Machine<S>, p: Plan<S>, s: S) {
    m.good(s) && p.near(s) ==> exists w: nat :: Called(m, p, s, w)
  }

  ghost predicate Leads<S(!new)>(m: Machine<S>, p: Plan<S>) {
    (forall s, s', u :: LeadsStep(m, p, s, s', u)) && forall s :: Calls(m, p, s)
  }

  lemma {:induction false} NearUntil<S(!new)>(m: Machine<S>, p: Plan<S>, r: Run<S>, i: nat, k: nat, w: nat)
    requires Lawful(m) && Leads(m, p) && IsRunOf(m, r) && i <= k <= |r.who|
    requires m.good(r.states[i]) && p.near(r.states[i]) && m.work(r.states[k]) == m.work(r.states[i]) && Called(m, p, r.states[i], w)
    ensures p.near(r.states[k]) && p.far(r.states[k]) <= p.far(r.states[i])
    ensures || p.far(r.states[k]) < p.far(r.states[i])
            || (forall y :: i <= y <= k ==> Called(m, p, r.states[y], w) && (y < k ==> r.who[y] != w))
    decreases k
  {
    if i < k {
      GoodUntil(m, r, i, k - 1);
      GoodUntil(m, r, k - 1, k);
      NearUntil(m, p, r, i, k - 1, w);
      assert StepOk(m, r, k - 1);
      assert LeadsStep(m, p, r.states[k - 1], r.states[k], r.who[k - 1]);
    }
  }

  /** A round does some work, or brings the machine nearer. */
  lemma RoundAdvances<S(!new)>(m: Machine<S>, p: Plan<S>, r: Run<S>, i: nat, j: nat)
    requires Lawful(m) && Leads(m, p) && IsRunOf(m, r) && IsRound(m, r, i, j)
    requires m.good(r.states[i]) && p.near(r.states[i])
    ensures m.work(r.states[j]) < m.work(r.states[i]) || (p.near(r.states[j]) && p.far(r.states[j]) < p.far(r.states[i]))
  {
    GoodUntil(m, r, i, j);
    if m.work(r.states[j]) == m.work(r.states[i]) {
      assert Calls(m, p, r.states[i]);
      var w: nat :| Called(m, p, r.states[i], w);
      NearUntil(m, p, r, i, j, w);
      assert Served(m, r, i, j, w);
    }
  }

  lemma {:induction false} RoundsAdvance<S(!new)>(m: Machine<S>, p: Plan<S>, r: Run<S>, cuts: seq<nat>, q: nat, n: nat)
    requires Lawful(m) && Leads(m, p) && IsRunOf(m, r) && InRounds(m, r, cuts)
    requires q + n < |cuts| && m.good(r.states[cuts[q]]) && p.near(r.states[cuts[q]])
    ensures var s, s' := r.states[cuts[q]], r.states[cuts[q + n]];
      m.work(s') < m.work(s) || (p.near(s') && p.far(s') + n <= p.far(s))
    decreases n
  {
    if n > 0 {
      RoundsAdvance(m, p, r, cuts, q, n - 1);
      assert RoundAt(m, r, cuts, q + n - 1);
      CutsGrow(m, r, cuts, q, q + n - 1);
      GoodUntil(m, r, cuts[q], cuts[q + n - 1]);
      GoodUntil(m, r, cuts[q + n - 1], cuts[q + n]);
      if p.near(r.states[cuts[q + n - 1]]) { RoundAdvances(m, p, r, cuts[q + n - 1], cuts[q + n]); }
    }
  }

  /** With a plan, some work is done within as many rounds as the machine is far, and one. */
  lemma PlanWorks<S(!new)>(m: Machine<S>, p: Plan<S>, r: Run<S>, cuts: seq<nat>, q: nat, n: nat)
    requires Lawful(m) && Leads(m, p) && IsRunOf(m, r) && InRounds(m, r, cuts)
    requires q + n < |cuts| && m.good(r.states[cuts[q]]) && p.near(r.states[cuts[q]]) && p.far(r.states[cuts[q]]) < n
    ensures m.work(r.states[cuts[q + n]]) < m.work(r.states[cuts[q]])
  {
    RoundsAdvance(m, p, r, cuts, q, n);
  }

  ghost predicate IsPlan<S(!new)>(m: Machine<S>, p: Plan<S>, x: S, n: nat) {
    Leads(m, p) && p.near(x) && p.far(x) < n
  }

  ghost predicate HasPlan<S(!new)>(m: Machine<S>, x: S, n: nat) {
    exists p :: IsPlan(m, p, x, n)
  }

  ghost predicate StaysDone<S>(m: Machine<S>, done: S -> bool, s: S, s': S, w: int) {
    m.good(s) && done(s) && m.follows(s, s', w) ==> done(s')
  }

  ghost predicate GetsDone<S(!new)>(m: Machine<S>, done: S -> bool, n: nat, s: S) {
    m.good(s) && !done(s) ==> HasPlan(m, s, n)
  }

  /** Unless the machine is done there is a plan that takes fewer than n moves; what is done stays done. */
  ghost predicate Progresses<S(!new)>(m: Machine<S>, done: S -> bool, n: nat) {
    Lawful(m) && (forall s :: GetsDone(m, done, n, s)) && (forall s, s', w :: StaysDone(m, done, s, s', w))
  }

  lemma {:induction false} DoneUntil<S(!new)>(m: Machine<S>, done: S -> bool, n: nat, r: Run<S>, i: nat, j: nat)
    requires Progresses(m, done, n) && IsRunOf(m, r) && i <= j <= |r.who| && m.good(r.states[i]) && done(r.states[i])
    ensures m.good(r.states[j]) && done(r.states[j])
    decreases j
  {
    if i < j {
      DoneUntil(m, done, n, r, i, j - 1);
      assert StepOk(m, r, j - 1);
      assert LawfulStep(m, r.states[j - 1], r.states[j], r.who[j - 1]) && StaysDone(m, done, r.states[j - 1], r.states[j], r.who[j - 1]);
    }
  }

  /** From the cut at q on, n rounds do some work, unless the machine is done. */
  lemma RoundsWork<S(!new)>(m: Machine<S>, done: S -> bool, n: nat, r: Run<S>, cuts: seq<nat>, q: nat)
    requires Progresses(m, done, n) && IsRunOf(m, r) && InRounds(m, r, cuts) && q + n < |cuts| && m.good(r.states[cuts[q]])
    ensures m.good(r.states[cuts[q + n]])
    ensures done(r.states[cuts[q + n]]) || m.work(r.states[cuts[q + n]]) < m.work(r.states[cuts[q]])
  {
    CutsGrow(m, r, cuts, q, q + n);
    GoodUntil(m, r, cuts[q], cuts[q + n]);
    if done(r.states[cuts[q]]) {
      DoneUntil(m, done, n, r, cuts[q], cuts[q + n]);
    } else {
      assert GetsDone(m, done, n, r.states[cuts[q]]);
      var p :| IsPlan(m, p, r.states[cuts[q]], n);
      PlanWorks(m, p, r, cuts, q, n);
    }
  }

  lemma {:induction false} WorkRunsOut<S(!new)>(m: Machine<S>, done: S -> bool, n: nat, r: Run<S>, cuts: seq<nat>, q: nat, k: nat)
    requires Progresses(m, done, n) && IsRunOf(m, r) && InRounds(m, r, cuts) && q + k * n < |cuts| && m.good(r.states[cuts[q]])
    ensures m.good(r.states[cuts[q + k * n]])
    ensures done(r.states[cuts[q + k * n]]) || m.work(r.states[cuts[q + k * n]]) + k <= m.work(r.states[cuts[q]])
    decreases k
  {
    if k > 0 {
      assert k * n == (k - 1) * n + n;
      WorkRunsOut(m, done, n, r, cuts, q, k - 1);
      RoundsWork(m, done, n, r, cuts, q + (k - 1) * n);
      if done(r.states[cuts[q + (k - 1) * n]]) {
        CutsGrow(m, r, cuts, q + (k - 1) * n, q + k * n);
        DoneUntil(m, done, n, r, cuts[q + (k - 1) * n], cuts[q + k * n]);
      }
    }
  }

  /** How many rounds get a machine done from state x, when it progresses within n rounds. */
  function Enough<S>(m: Machine<S>, x: S, n: nat): nat { (m.work(x) + 1) * n }

  /** A machine that progresses is done after enough rounds, in every fair run. */
  lemma FairRunsGetDone<S(!new)>(m: Machine<S>, done: S -> bool, n: nat, r: Run<S>, cuts: seq<nat>, q: nat)
    requires Progresses(m, done, n) && IsRunOf(m, r) && InRounds(m, r, cuts)
    requires q < |cuts| && m.good(r.states[cuts[q]]) && q + Enough(m, r.states[cuts[q]], n) < |cuts|
    ensures var e := cuts[q + Enough(m, r.states[cuts[q]], n)]; m.good(r.states[e]) && done(r.states[e])
    ensures m.good(r.Last()) && done(r.Last())
  {
    var k := m.work(r.states[cuts[q]]) + 1;
    WorkRunsOut(m, done, n, r, cuts, q, k);
    DoneUntil(m, done, n, r, cuts[q + k * n], |r.who|);
  }

  /** Where one piece of work is left at most, a plan for it is enough. */
  lemma LastPieceOfWork<S(!new)>(m: Machine<S>, p: Plan<S>, n: nat, r: Run<S>, cuts: seq<nat>, q: nat)
    requires Lawful(m) && IsRunOf(m, r) && InRounds(m, r, cuts) && q + n < |cuts| && m.good(r.states[cuts[q]])
    requires m.work(r.states[cuts[q]]) <= 1 && (m.work(r.states[cuts[q]]) > 0 ==> IsPlan(m, p, r.states[cuts[q]], n))
    ensures m.work(r.Last()) == 0
  {
    if m.work(r.states[cuts[q]]) > 0 { PlanWorks(m, p, r, cuts, q, n); }
    CutsGrow(m, r, cuts, q, q + n);
    GoodUntil(m, r, cuts[q], cuts[q + n]);
    GoodUntil(m, r, cuts[q + n], |r.who|);
  }

  /** Rounds do not depend on what is counted as work. */
  lemma SameRuns<S>(m: Machine<S>, m': Machine<S>, r: Run<S>, cuts: seq<nat>)
    requires IsRunOf(m, r) && InRounds(m, r, cuts)
    requires m'.follows == m.follows && m'.able == m.able && m'.workers == m.workers
    ensures IsRunOf(m', r) && InRounds(m', r, cuts)
  {
    forall i | 0 <= i < |r.who| ensures StepOk(m', r, i) { assert StepOk(m, r, i); }
    forall q | 0 <= q < |cuts| - 1 ensures RoundAt(m', r, cuts, q) {
      assert RoundAt(m, r, cuts, q);
      SameRound(m, m', r, cuts[q], cuts[q + 1]);
    }
  }

  lemma SameRound<S>(m: Machine<S>, m': Machine<S>, r: Run<S>, i: nat, j: nat)
    requires IsRound(m, r, i, j) && m'.able == m.able && m'.workers == m.workers
    ensures IsRound(m', r, i, j)
  {
    forall w: nat | w < m'.workers ensures Served(m', r, i, j, w) { assert Served(m, r, i, j, w); }
  }

  // ---------------------------------------------------------------------------------------------------------
  // Fair runs exist
  // ---------------------------------------------------------------------------------------------------------

  ghost predicate Steps<S(!new)>(m: Machine<S>, x: S, w: nat) {
    exists x' :: m.follows(x, x', w) && m.good(x')
  }

  /** Whoever is able to go on in a good state can take a step that leads to a good one. */
  ghost predicate Goes<S(!new)>(m: Machine<S>) {
    forall x, w: nat :: m.good(x) && w < m.workers && m.able(x, w) ==> Steps(m, x, w)
  }

  lemma ServedLonger<S>(m: Machine<S>, r: Run<S>, r': Run<S>, i: nat, j: nat, j': nat, w: nat)
    requires r.Shaped() && r'.Shaped() && r.states <= r'.states && r.who <= r'.who && i <= j <= |r.who| && j <= j' <= |r'.who|
    requires Served(m, r, i, j, w)
    ensures Served(m, r', i, j', w)
  {
    if k :| i <= k < j && r.who[k] == w {
      assert r'.who[k] == w;
    } else {
      var k :| i <= k <= j && !m.able(r.states[k], w);
      assert !m.able(r'.states[k], w);
    }
  }

  lemma RoundStays<S>(m: Machine<S>, r: Run<S>, r': Run<S>, i: nat, j: nat)
    requires IsRound(m, r, i, j) && r'.Shaped() && r.states <= r'.states && r.who <= r'.who
    ensures IsRound(m, r', i, j)
  {
    forall w: nat | w < m.workers ensures Served(m, r', i, j, w) {
      assert Served(m, r, i, j, w);
      ServedLonger(m, r, r', i, j, j, w);
    }
  }

  /** The run goes on, one after the other, with those of the first w workers that can. */
  lemma {:induction false} RoundExists<S(!new)>(m: Machine<S>, r: Run<S>, w: nat) returns (r': Run<S>)
    requires Goes(m) && w <= m.workers && IsRunOf(m, r) && m.good(r.Last())
    ensures IsRunOf(m, r') && m.good(r'.Last()) && r.states <= r'.states && r.who <= r'.who
    ensures forall v: nat :: v < w ==> Served(m, r', |r.who|, |r'.who|, v)
    decreases w
  {
    if w == 0 {
      r' := r;
    } else {
      var s := RoundExists(m, r, w - 1);
      var x := s.Last();
      if m.able(x, w - 1) {
        assert Steps(m, x, w - 1);
        var x' :| m.follows(x, x', w - 1) && m.good(x');
        r' := Run(s.states + [x'], s.who + [w - 1]);
        forall i | 0 <= i < |r'.who| ensures StepOk(m, r', i) { if i < |s.who| { assert StepOk(m, s, i); } }
        forall v: nat | v < w ensures Served(m, r', |r.who|, |r'.who|, v) {
          if v == w - 1 { assert r'.who[|s.who|] == v; } else { ServedLonger(m, s, r', |r.who|, |s.who|, |r'.who|, v); }
        }
      } else {
        r' := s;
      }
    }
  }

  /** From every good state there are runs of any number of rounds. */
  lemma {:induction false} FairRunExists<S(!new)>(m: Machine<S>, x: S, n: nat) returns (r: Run<S>, cuts: seq<nat>)
    requires Goes(m) && m.good(x)
    ensures IsRunOf(m, r) && r.states[0] == x && m.good(r.Last())
    ensures InRounds(m, r, cuts) && |cuts| == n + 1 && cuts[n] == |r.who|
    decreases n
  {
    if n == 0 {
      r, cuts := Run([x], []), [0];
    } else {
      var s, cs := FairRunExists(m, x, n - 1);
      r := RoundExists(m, s, m.workers);
      cuts := cs + [|r.who|];
      forall q | 0 <= q < |cuts| - 1 ensures RoundAt(m, r, cuts, q) {
        if q < n - 1 {
          assert RoundAt(m, s, cs, q);
          RoundStays(m, s, r, cs[q], cs[q + 1]);
        }
      }
    }
  }

  // ---------------------------------------------------------------------------------------------------------
  // Putting runs together
  // ---------------------------------------------------------------------------------------------------------

  /** The run l after the run r, which ends where l begins. */
  function Join<S>(r: Run<S>, l: Run<S>): Run<S>
    requires r.Shaped() && l.Shaped()
  {
    Run(r.states + l.states[1..], r.who + l.who)
  }

  function Shift(cuts: seq<nat>, n: nat): seq<nat> { seq(|cuts|, q requires 0 <= q < |cuts| => cuts[q] + n) }

  lemma JoinedRun<S>(m: Machine<S>, r: Run<S>, l: Run<S>)
    requires IsRunOf(m, r) && IsRunOf(m, l) && l.states[0] == r.Last()
    ensures IsRunOf(m, Join(r, l)) && Join(r, l).Last() == l.Last() && r.states <= Join(r, l).states && r.who <= Join(r, l).who
    ensures forall i :: |r.who| <= i < |Join(r, l).states| ==> Join(r, l).states[i] == l.states[i - |r.who|]
  {
    var j := Join(r, l);
    forall i | 0 <= i < |j.who| ensures StepOk(m, j, i) {
      if i < |r.who| { assert StepOk(m, r, i); } else { assert StepOk(m, l, i - |r.who|); }
    }
  }

  lemma JoinedRound<S>(m: Machine<S>, r: Run<S>, l: Run<S>, i: nat, j: nat)
    requires IsRunOf(m, r) && IsRunOf(m, l) && l.states[0] == r.Last() && IsRound(m, l, i, j)
    ensures IsRound(m, Join(r, l), i + |r.who|, j + |r.who|)
  {
    var n, t := |r.who|, Join(r, l);
    var i', j' := i + n, j + n;
    JoinedRun(m, r, l);
    forall w: nat | w < m.workers ensures Served(m, t, i', j', w) {
      assert Served(m, l, i, j, w);
      if k :| i <= k < j && l.who[k] == w {
        assert t.who[k + n] == w;
      } else {
        var k :| i <= k <= j && !m.able(l.states[k], w);
        assert !m.able(t.states[k + n], w);
      }
    }
  }

  /** A round and then the rounds of l. */
  lemma JoinedRounds<S>(m: Machine<S>, r: Run<S>, l: Run<S>, cuts: seq<nat>)
    requires IsRunOf(m, r) && IsRunOf(m, l) && l.states[0] == r.Last() && IsRound(m, r, 0, |r.who|) && InRounds(m, l, cuts)
    ensures IsRunOf(m, Join(r, l)) && InRounds(m, Join(r, l), [0] + Shift(cuts, |r.who|))
  {
    var t, cs := Join(r, l), [0] + Shift(cuts, |r.who|);
    JoinedRun(m, r, l);
    forall q | 0 <= q < |cs| - 1 ensures RoundAt(m, t, cs, q) {
      if q == 0 {
        RoundStays(m, r, t, 0, |r.who|);
      } else {
        assert RoundAt(m, l, cuts, q - 1);
        JoinedRound(m, r, l, cuts[q - 1], cuts[q]);
      }
    }
  }

  /** A round that comes back to where it began can be gone through any number of times. */
  lemma {:induction false} Again<S>(m: Machine<S>, l: Run<S>, n: nat) returns (r: Run<S>, cuts: seq<nat>)
    requires IsRunOf(m, l) && l.states[0] == l.Last() && IsRound(m, l, 0, |l.who|)
    ensures IsRunOf(m, r) && InRounds(m, r, cuts) && |cuts| == n + 1 && r.states[0] == l.Last() && r.Last() == l.Last()
    decreases n
  {
    if n == 0 {
      r, cuts := Run([l.Last()], []), [0];
    } else {
      r, cuts := Again(m, l, n - 1);
      JoinedRun(m, l, r);
      JoinedRounds(m, l, r, cuts);
      r, cuts := Join(l, r), [0] + Shift(cuts, |l.who|);
    }
  }
}
