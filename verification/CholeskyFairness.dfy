/** Every fair execution of the Cholesky graph finishes, with the blocks of the sequential factorization. */
module CholeskyFairness {
  import opened Scheduler
  import opened SchedulerInvariant
  import opened SchedulerProgress
  import opened Fairness
  import SchedulerFairness
  import opened CholeskyProgram
  import opened CholeskyGraph
  import opened CholeskyExecution
  import CholeskyFactor

  /** The worker that a move takes further; overwriting a block under work and reading a block again take nobody further. */
  function Mover<B>(x: Execution<B>, n: nat, m: Move<B>): int {
    match m
    case Schedule(l) => if l.Act? then l.w else -1
    case Load(w, b) => if Runs(x.s, Program(n), w) && x.s.pc[w].t < |x.loaded| && b in x.loaded[x.s.pc[w].t] then -1 else w
    case Scribble(_, _) => -1
    case Store(w) => w
  }

  ghost predicate MovesTo<B>(K: Kernels<B>, n: nat, x: Execution<B>, x': Execution<B>, w: int, m: Move<B>) {
    && CanMove(x, Program(n), m) && (m.Schedule? ==> PlainLabel(m.l))
    && w == Mover(x, n, m) && x' == DoMove(K, x, Program(n), m)
  }

  ghost predicate GoesOn<B(!new)>(K: Kernels<B>, n: nat, x: Execution<B>, x': Execution<B>, w: int) {
    exists m :: MovesTo(K, n, x, x', w, m)
  }

  function Rank(n: nat): seq<nat> { seq(|Program(n)|, i requires 0 <= i => i) }

  /** A reachable state of an execution by so many workers. */
  ghost predicate Sound<B>(K: Kernels<B>, m0: Matrix<B>, n: nat, workers: nat, x: Execution<B>) {
    Good(K, m0, n, x) && SchedulerFairness.Sound(x.s, workers, Rank(n))
  }

  /** The blocks that tasks have not read yet, and the tasks that have not stored their result. */
  function ToLoad<B>(n: nat, x: Execution<B>): set<(nat, Block)> {
    set t: nat, b | t < |Program(n)| && t < |x.loaded| && b in Accesses(Program(n)[t]) && b !in x.loaded[t] :: (t, b)
  }

  function ToStore<B>(n: nat, x: Execution<B>): set<nat> {
    set t: nat | t < |Program(n)| && t !in x.written
  }

  function Work<B>(n: nat, x: Execution<B>): nat {
    Measure(x.s) + |ToLoad(n, x)| + |ToStore(n, x)|
  }

  ghost function Factorization<B(!new)>(K: Kernels<B>, m0: Matrix<B>, n: nat, workers: nat): Machine<Execution<B>> {
    Machine((x, x', w) => GoesOn(K, n, x, x', w), (x: Execution<B>, w) => SchedulerFairness.CanGoOn(x.s, w), workers,
            x => Sound(K, m0, n, workers, x), x => Work(n, x))
  }

  // ---------------------------------------------------------------------------------------------------------
  // Steps
  // ---------------------------------------------------------------------------------------------------------

  lemma Smaller<E>(a: set<E>, b: set<E>, e: E)
    requires a <= b && e in b && e !in a
    ensures |a| < |b|
  {
    assert b == a + (b - a);
    assert |b| == |a| + |b - a|;
  }

  lemma LoadWork<B>(K: Kernels<B>, n: nat, x: Execution<B>, w: nat, b: Block)
    requires CanMove(x, Program(n), Load(w, b))
    ensures var x' := DoMove(K, x, Program(n), Load(w, b));
      Work(n, x') <= Work(n, x) && (Mover(x, n, Move<B>.Load(w, b)) == w ==> Work(n, x') < Work(n, x))
  {
    var x' := DoMove(K, x, Program(n), Load(w, b));
    var t := x.s.pc[w].t;
    assert ToStore(n, x') == ToStore(n, x);
    if b in x.loaded[t] {
      assert ToLoad(n, x') == ToLoad(n, x);
    } else {
      assert (t, b) in ToLoad(n, x);
      Smaller(ToLoad(n, x'), ToLoad(n, x), (t, b));
    }
  }

  lemma StoreWork<B>(K: Kernels<B>, n: nat, x: Execution<B>, w: nat)
    requires CanMove(x, Program(n), Store(w))
    ensures Work(n, DoMove(K, x, Program(n), Store(w))) < Work(n, x)
  {
    var x' := DoMove(K, x, Program(n), Store(w));
    assert ToLoad(n, x') == ToLoad(n, x);
    Smaller(ToStore(n, x'), ToStore(n, x), x.s.pc[w].t);
  }

  lemma OtherWork<B>(n: nat, x: Execution<B>, x': Execution<B>)
    requires x'.loaded == x.loaded && x'.written == x.written
    ensures Work(n, x') - Work(n, x) == Measure(x'.s) - Measure(x.s)
  {
    assert ToLoad(n, x') == ToLoad(n, x) && ToStore(n, x') == ToStore(n, x);
  }

  /** A move leads to a reachable state and adds no work; one that leaves as much work is a step of the scheduler that
      advances no task, or none of it. */
  lemma MoveSound<B>(K: Kernels<B>, m0: Matrix<B>, n: nat, workers: nat, x: Execution<B>, x': Execution<B>, w: int, m: Move<B>)
    requires Sound(K, m0, n, workers, x) && MovesTo(K, n, x, x', w, m)
    ensures Sound(K, m0, n, workers, x') && Work(n, x') <= Work(n, x)
    ensures Work(n, x') == Work(n, x) ==> SchedulerFairness.GoesOn(x.s, x'.s, w) && Measure(x'.s) == Measure(x.s)
    ensures x.s.active == 0 ==> x'.s.active == 0
  {
    MoveGood(K, m0, n, x, m);
    match m
    case Schedule(l) =>
      LabelGoesOn(x.s, l);
      SchedulerFairness.GoesOnSound(x.s, x'.s, w, workers, Rank(n));
      OtherWork(n, x, x');
    case Load(v, b) => LoadWork(K, n, x, v, b);
    case Scribble(_, _) => OtherWork(n, x, x');
    case Store(v) => StoreWork(K, n, x, v);
  }

  lemma LabelGoesOn(s: State, l: Label)
    requires Basic(s) && Enabled(s, l) && PlainLabel(l)
    ensures SchedulerFairness.GoesOn(s, Apply(s, l), if l.Act? then l.w else -1)
  {
    match l
    case Act(w, c) => assert SchedulerFairness.WorkerGoesOn(s, Apply(s, l), w, c);
    case SetAffinity(t, a) => assert SchedulerFairness.AffinityChanges(s, Apply(s, l), t, a);
  }

  lemma IsLawful<B(!new)>(K: Kernels<B>, m0: Matrix<B>, n: nat, workers: nat)
    ensures Lawful(Factorization(K, m0, n, workers))
  {
    var f := Factorization(K, m0, n, workers);
    forall x, x', w ensures LawfulStep(f, x, x', w) {
      if f.good(x) && f.follows(x, x', w) {
        var m :| MovesTo(K, n, x, x', w, m);
        MoveSound(K, m0, n, workers, x, x', w, m);
      }
    }
  }

  /** A reason why the scheduler makes progress is one why the execution does. */
  ghost function Lifted<B>(p: Plan<State>): Plan<Execution<B>> {
    Plan((x: Execution<B>) => p.near(x.s), (x: Execution<B>) => p.far(x.s), (x: Execution<B>, u) => p.moves(x.s, u))
  }

  lemma LiftedLeads<B(!new)>(K: Kernels<B>, m0: Matrix<B>, n: nat, workers: nat, p: Plan<State>)
    requires Leads(SchedulerFairness.System(workers, Rank(n)), p)
    ensures Leads(Factorization(K, m0, n, workers), Lifted<B>(p))
  {
    var f, g, q := Factorization(K, m0, n, workers), SchedulerFairness.System(workers, Rank(n)), Lifted<B>(p);
    forall x, x', u ensures LeadsStep(f, q, x, x', u) {
      if f.good(x) && q.near(x) && f.follows(x, x', u) && f.work(x') == f.work(x) {
        var m :| MovesTo(K, n, x, x', u, m);
        MoveSound(K, m0, n, workers, x, x', u, m);
        assert LeadsStep(g, p, x.s, x'.s, u);
        forall w: nat | Called(f, q, x, w) && !q.moves(x, u) ensures Called(f, q, x', w) {
          assert Called(g, p, x.s, w) && Called(g, p, x'.s, w);
        }
      }
    }
    forall x ensures Calls(f, q, x) {
      if f.good(x) && q.near(x) {
        assert Calls(g, p, x.s);
        var w: nat :| Called(g, p, x.s, w);
        assert Called(f, q, x, w);
      }
    }
  }

  // ---------------------------------------------------------------------------------------------------------
  // Fair executions
  // ---------------------------------------------------------------------------------------------------------

  /** An execution in rounds: a worker that stays able to go on takes a step of the scheduler, or its kernel reads another
      block or stores its result. */
  ghost predicate FairExecution<B(!new)>(K: Kernels<B>, m0: Matrix<B>, n: nat, workers: nat, r: Run<Execution<B>>, cuts: seq<nat>) {
    var f := Factorization(K, m0, n, workers);
    IsRunOf(f, r) && Sound(K, m0, n, workers, r.states[0]) && InRounds(f, r, cuts)
  }

  predicate NoneActive<B>(x: Execution<B>) { x.s.active == 0 }

  lemma SomePlan<B(!new)>(K: Kernels<B>, m0: Matrix<B>, n: nat, workers: nat, x: Execution<B>)
    requires Sound(K, m0, n, workers, x) && x.s.active != 0
    ensures HasPlan(Factorization(K, m0, n, workers), x, SchedulerFairness.Patience(workers))
  {
    var p := SchedulerFairness.SomePlan(x.s, workers, Rank(n));
    LiftedLeads(K, m0, n, workers, p);
    assert IsPlan(Factorization(K, m0, n, workers), Lifted<B>(p), x, SchedulerFairness.Patience(workers));
  }

  lemma ExecutionProgresses<B(!new)>(K: Kernels<B>, m0: Matrix<B>, n: nat, workers: nat)
    ensures Progresses(Factorization(K, m0, n, workers), NoneActive, SchedulerFairness.Patience(workers))
  {
    var f := Factorization(K, m0, n, workers);
    IsLawful(K, m0, n, workers);
    forall x ensures GetsDone(f, NoneActive, SchedulerFairness.Patience(workers), x) {
      if f.good(x) && !NoneActive(x) { SomePlan(K, m0, n, workers, x); }
    }
    forall x, x', w ensures StaysDone(f, NoneActive, x, x', w) {
      if f.good(x) && f.follows(x, x', w) {
        var m :| MovesTo(K, n, x, x', w, m);
        MoveSound(K, m0, n, workers, x, x', w, m);
      }
    }
  }

  /** So many rounds finish the factorization. */
  function RoundsNeeded<B>(n: nat, workers: nat, x: Execution<B>): nat { (Work(n, x) + 1) * SchedulerFairness.Patience(workers) }

  /** Every fair execution that has come so far has finished all tasks, and the blocks are those of the sequential
      factorization. */
  lemma FairExecutionsFactorize<B(!new)>(K: Kernels<B>, m0: Matrix<B>, n: nat, workers: nat, r: Run<Execution<B>>, cuts: seq<nat>)
    requires FairExecution(K, m0, n, workers, r, cuts) && |cuts| > RoundsNeeded(n, workers, r.states[0])
    ensures r.Last().s.active == 0 && r.Last().mem == ExecAll(K, m0, Program(n))
    ensures CholeskyFactor.IsFactorization(K, m0, n, r.Last().mem)
  {
    ExecutionProgresses(K, m0, n, workers);
    FairRunsGetDone(Factorization(K, m0, n, workers), NoneActive, SchedulerFairness.Patience(workers), r, cuts, 0);
    FinishedIsFactor(K, m0, n, r.Last());
  }

  // ---------------------------------------------------------------------------------------------------------
  // Fair executions exist
  // ---------------------------------------------------------------------------------------------------------

  lemma AccessesExist<B>(m0: Matrix<B>, n: nat, t: nat, b: Block)
    requires Square(m0, n) && t < |Program(n)| && b in Accesses(Program(n)[t])
    ensures b in m0
  {
    IterationsShape(n, n);
    assert ValidOp(Program(n)[t], n);
  }

  /** The next move of a worker that can go on. */
  lemma NextMove<B>(K: Kernels<B>, m0: Matrix<B>, n: nat, workers: nat, x: Execution<B>, w: nat) returns (m: Move<B>)
    requires Sound(K, m0, n, workers, x) && SchedulerFairness.CanGoOn(x.s, w)
    ensures CanMove(x, Program(n), m) && (m.Schedule? ==> PlainLabel(m.l)) && Mover(x, n, m) == w
  {
    var ops := Program(n);
    if Runs(x.s, ops, w) && x.s.pc[w].t !in x.written {
      var t := x.s.pc[w].t;
      assert LoadedOk(K, m0, x, ops, t);
      if b :| b in Accesses(ops[t]) && b !in x.loaded[t] {
        AccessesExist(m0, n, t, b);
        m := Load(w, b);
      } else {
        m := Store(w);
      }
    } else {
      m := Schedule(Patient(w));
    }
  }

  lemma AbleGoes<B(!new)>(K: Kernels<B>, m0: Matrix<B>, n: nat, workers: nat, x: Execution<B>, w: nat)
    requires Sound(K, m0, n, workers, x) && SchedulerFairness.CanGoOn(x.s, w)
    ensures Steps(Factorization(K, m0, n, workers), x, w)
  {
    var m := NextMove(K, m0, n, workers, x, w);
    var x' := DoMove(K, x, Program(n), m);
    assert MovesTo(K, n, x, x', w, m);
    MoveSound(K, m0, n, workers, x, x', w, m);
    assert Factorization(K, m0, n, workers).follows(x, x', w) && Factorization(K, m0, n, workers).good(x');
  }

  /** From every reachable state there are fair executions of any length, so that what holds of all of them is not empty. */
  lemma FairExecutionFrom<B(!new)>(K: Kernels<B>, m0: Matrix<B>, n: nat, workers: nat, x: Execution<B>, k: nat)
    returns (r: Run<Execution<B>>, cuts: seq<nat>)
    requires Sound(K, m0, n, workers, x)
    ensures FairExecution(K, m0, n, workers, r, cuts) && r.states[0] == x && |cuts| == k + 1
  {
    var f := Factorization(K, m0, n, workers);
    forall y, w: nat | f.good(y) && w < f.workers && f.able(y, w) ensures Steps(f, y, w) { AbleGoes(K, m0, n, workers, y, w); }
    r, cuts := FairRunExists(f, x, k);
  }

  /** From every reachable state, the factorization can be finished, with the blocks of the sequential one. */
  lemma FactorizationCanFinish<B(!new)>(K: Kernels<B>, m0: Matrix<B>, n: nat, workers: nat, x: Execution<B>) returns (r: Run<Execution<B>>)
    requires Sound(K, m0, n, workers, x)
    ensures IsRunOf(Factorization(K, m0, n, workers), r) && r.states[0] == x
    ensures r.Last().s.active == 0 && r.Last().mem == ExecAll(K, m0, Program(n))
    ensures CholeskyFactor.IsFactorization(K, m0, n, r.Last().mem)
  {
    var cuts;
    r, cuts := FairExecutionFrom(K, m0, n, workers, x, RoundsNeeded(n, workers, x));
    FairExecutionsFactorize(K, m0, n, workers, r, cuts);
  }

  /** The executions that start with all tasks added and no pending operation are of this kind. */
  lemma StartSound<B>(K: Kernels<B>, m0: Matrix<B>, n: nat, workers: nat, x: Execution<B>)
    requires Start(m0, n, x) && |x.s.pc| == workers > 0
    requires forall t :: 0 <= t < |x.s.pending| ==> x.s.pending[t] == []
    ensures Sound(K, m0, n, workers, x)
  {
    StartGood(K, m0, n, x);
    GraphOrdered(x.s.g, Program(n));
  }
}
