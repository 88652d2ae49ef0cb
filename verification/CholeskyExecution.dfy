/**
The scheduler executing the Cholesky graph. A running kernel reads its blocks one at a time, may leave arbitrary
values in the block it writes while it is at work, and finally stores its result; all running kernels interleave.
*/
module CholeskyExecution {
  import opened Scheduler
  import opened SchedulerInvariant
  import opened SchedulerTheorems
  import opened SchedulerAccounting
  import opened CholeskyProgram
  import opened CholeskyGraph
  import CholeskyFactor

  datatype Execution<!B> = Execution(
    s: State,
    mem: Matrix<B>,              // the blocks
    loaded: seq<Matrix<B>>,      // what every task has read so far
    dirty: set<nat>,             // tasks that have overwritten part of their block
    written: set<nat>)           // tasks that have stored their result

  datatype Move<B> =
    | Schedule(l: Label)
    | Load(w: nat, b: Block)
    | Scribble(w: nat, v: B)
    | Store(w: nat)

  /** Worker w runs task t of the program. */
  predicate Runs(s: State, ops: seq<Op>, w: nat) {
    w < |s.pc| && s.pc[w].Running? && s.pc[w].t < |ops|
  }

  ghost predicate CanMove<B>(x: Execution<B>, ops: seq<Op>, m: Move<B>) {
    && |x.loaded| == |ops|
    && match m
       case Schedule(l) =>
         && Basic(x.s) && Enabled(x.s, l) && !l.ForceTermination?
         && (l.Act? && Runs(x.s, ops, l.w) ==> !l.choice.suspends && x.s.pc[l.w].t in x.written)
       case Load(w, b) =>
         && Runs(x.s, ops, w)
         && var t := x.s.pc[w].t;
         && b in Accesses(ops[t]) && b in x.mem && t !in x.written
         && (b == CholeskyProgram.Target(ops[t]) ==> t !in x.dirty)
       case Scribble(w, _) =>
         && Runs(x.s, ops, w)
         && var t := x.s.pc[w].t;
         && CholeskyProgram.Target(ops[t]) in x.loaded[t] && t !in x.written
       case Store(w) =>
         && Runs(x.s, ops, w)
         && var t := x.s.pc[w].t;
         && (forall b :: b in Accesses(ops[t]) ==> b in x.loaded[t]) && Present(x.loaded[t], ops[t]) && t !in x.written
  }

  ghost function DoMove<B>(K: Kernels<B>, x: Execution<B>, ops: seq<Op>, m: Move<B>): Execution<B>
    requires CanMove(x, ops, m)
  {
    match m
    case Schedule(l) => x.(s := Apply(x.s, l))
    case Load(w, b) =>
      var t := x.s.pc[w].t;
      x.(loaded := x.loaded[t := x.loaded[t][b := x.mem[b]]])
    case Scribble(w, v) =>
      var t := x.s.pc[w].t;
      x.(mem := x.mem[CholeskyProgram.Target(ops[t]) := v], dirty := x.dirty + {t})
    case Store(w) =>
      var t := x.s.pc[w].t;
      x.(mem := x.mem[CholeskyProgram.Target(ops[t]) := Result(K, x.loaded[t], ops[t])], written := x.written + {t})
  }

  /** The blocks after the first j operations of the sequential loop nest. */
  function Sequential<B>(K: Kernels<B>, m0: Matrix<B>, ops: seq<Op>, j: nat): Matrix<B>
    requires j <= |ops|
  {
    ExecAll(K, m0, ops[..j])
  }

  predicate Writes(ops: seq<Op>, q: nat, b: Block) {
    q < |ops| && CholeskyProgram.Target(ops[q]) == b
  }

  /** Exactly the first writers of block b, those before operation j, have stored, and no other is at work on it. */
  ghost predicate Cut<B>(x: Execution<B>, ops: seq<Op>, b: Block, j: nat) {
    && j <= |ops|
    && (forall q: nat :: q < j && Writes(ops, q, b) ==> q in x.written)
    && (forall q: nat :: j <= q && Writes(ops, q, b) ==> q !in x.written && q !in x.dirty)
  }

  /** A task that has touched memory is no longer blocked; a task whose body is done has stored its result. */
  predicate ProgressOk<B>(x: Execution<B>, t: nat)
    requires t < |x.s.place| == |x.loaded|
  {
    && (t in x.written || t in x.dirty || x.loaded[t] != map[] ==> !x.s.place[t].Blocked?)
    && (BodyDone(x.s, t) ==> t in x.written)
  }

  ghost predicate LoadedOk<B>(K: Kernels<B>, m0: Matrix<B>, x: Execution<B>, ops: seq<Op>, t: nat)
    requires t < |ops| == |x.loaded|
  {
    && (forall b :: b in x.loaded[t] ==>
          b in m0 && b in Sequential(K, m0, ops, t) && x.loaded[t][b] == Sequential(K, m0, ops, t)[b])
    && (t in x.dirty ==> CholeskyProgram.Target(ops[t]) in x.loaded[t])
  }

  ghost predicate BlockOk<B>(K: Kernels<B>, m0: Matrix<B>, x: Execution<B>, ops: seq<Op>, b: Block) {
    forall j :: Cut(x, ops, b, j) ==> b in x.mem && b in Sequential(K, m0, ops, j) && x.mem[b] == Sequential(K, m0, ops, j)[b]
  }

  ghost predicate Good<B>(K: Kernels<B>, m0: Matrix<B>, n: nat, x: Execution<B>) {
    var ops := Program(n);
    && Inv(x.s) && !x.s.force && GraphMatches(x.s.g, ops)
    && Square(m0, n) && x.mem.Keys == m0.Keys
    && |x.loaded| == |ops|
    && (forall t :: 0 <= t < |ops| ==> ProgressOk(x, t))
    && (forall t :: 0 <= t < |ops| ==> LoadedOk(K, m0, x, ops, t))
    && (forall b :: b in m0 ==> BlockOk(K, m0, x, ops, b))
  }

  // ---------------------------------------------------------------------------------------------------------
  // The sequential values
  // ---------------------------------------------------------------------------------------------------------

  lemma {:induction false} ExecKeys<B>(K: Kernels<B>, m0: Matrix<B>, ops: seq<Op>)
    ensures ExecAll(K, m0, ops).Keys == m0.Keys
    decreases |ops|
  {
    if ops != [] {
      var init := ops[..|ops| - 1];
      ExecKeys(K, m0, init);
      assert Present(ExecAll(K, m0, init), ops[|ops| - 1]) ==> CholeskyProgram.Target(ops[|ops| - 1]) in m0;
    }
  }

  /** A block keeps its value over operations that do not write it. */
  lemma {:induction false} Unwritten<B>(K: Kernels<B>, m0: Matrix<B>, ops: seq<Op>, b: Block, i: nat, j: nat)
    requires i <= j <= |ops| && b in m0
    requires forall q: nat :: i <= q < j ==> !Writes(ops, q, b)
    ensures b in Sequential(K, m0, ops, i) && b in Sequential(K, m0, ops, j)
    ensures Sequential(K, m0, ops, j)[b] == Sequential(K, m0, ops, i)[b]
    decreases j
  {
    ExecKeys(K, m0, ops[..i]);
    ExecKeys(K, m0, ops[..j]);
    if i < j {
      Unwritten(K, m0, ops, b, i, j - 1);
      assert ops[..j][..j - 1] == ops[..j - 1];
      assert !Writes(ops, j - 1, b);
    }
  }

  // ---------------------------------------------------------------------------------------------------------
  // What the scheduler's guarantee means for a running kernel
  // ---------------------------------------------------------------------------------------------------------

  /** The predecessors of a task that is no longer blocked have stored their results. */
  lemma PredecessorStored<B>(K: Kernels<B>, m0: Matrix<B>, n: nat, x: Execution<B>, t: nat, p: nat)
    requires Good(K, m0, n, x) && DependsOn(Program(n), t, p) && !x.s.place[t].Blocked?
    ensures p in x.written && BodyDone(x.s, p)
  {
    assert t in x.s.g.out[p];
    var k :| 0 <= k < |x.s.g.out[p]| && x.s.g.out[p][k] == t;
    ReadyAfterPredecessors(x.s, t, p, k);
    assert ProgressOk(x, p);
  }

  lemma RunningIsReady(s: State, ops: seq<Op>, w: nat)
    requires Inv(s) && Runs(s, ops, w)
    ensures s.pc[w].t < |s.place| && !s.place[s.pc[w].t].Blocked? && !BodyDone(s, s.pc[w].t)
  {
    assert WorkerOk(s, w);
  }

  /** While t runs, the stores to any block it reads are exactly those of the operations before it. */
  lemma ReadsAtCut<B>(K: Kernels<B>, m0: Matrix<B>, n: nat, x: Execution<B>, w: nat, b: Block)
    requires Good(K, m0, n, x) && Runs(x.s, Program(n), w)
    requires var t := x.s.pc[w].t;
      b in Accesses(Program(n)[t]) && t !in x.written && (b == CholeskyProgram.Target(Program(n)[t]) ==> t !in x.dirty)
    ensures Cut(x, Program(n), b, x.s.pc[w].t)
  {
    var ops, t := Program(n), x.s.pc[w].t;
    RunningIsReady(x.s, ops, w);
    forall q: nat | q < t && Writes(ops, q, b) ensures q in x.written {
      assert DependsOn(ops, t, q);
      PredecessorStored(K, m0, n, x, t, q);
    }
    forall q: nat | t <= q && Writes(ops, q, b) ensures q !in x.written && q !in x.dirty {
      if q > t { LaterWriterWaits(K, m0, n, x, w, q, b); }
    }
  }

  /** A later writer of a block that t accesses has not begun while t runs. */
  lemma LaterWriterWaits<B>(K: Kernels<B>, m0: Matrix<B>, n: nat, x: Execution<B>, w: nat, q: nat, b: Block)
    requires Good(K, m0, n, x) && Runs(x.s, Program(n), w) && x.s.pc[w].t < q
    requires b in Accesses(Program(n)[x.s.pc[w].t]) && Writes(Program(n), q, b)
    ensures q !in x.written && q !in x.dirty
  {
    var ops, t := Program(n), x.s.pc[w].t;
    RunningIsReady(x.s, ops, w);
    assert b in Accesses(ops[q]);
    ConflictIsDependency(n, t, q, b);
    assert ProgressOk(x, q);
    if !x.s.place[q].Blocked? { PredecessorStored(K, m0, n, x, q, t); }
  }

  // ---------------------------------------------------------------------------------------------------------
  // Moves
  // ---------------------------------------------------------------------------------------------------------

  lemma LoadGood<B>(K: Kernels<B>, m0: Matrix<B>, n: nat, x: Execution<B>, w: nat, b: Block)
    requires Good(K, m0, n, x) && CanMove(x, Program(n), Load(w, b))
    ensures Good(K, m0, n, DoMove(K, x, Program(n), Load(w, b)))
  {
    var ops, t := Program(n), x.s.pc[w].t;
    var x' := DoMove(K, x, ops, Load(w, b));
    RunningIsReady(x.s, ops, w);
    ReadsAtCut(K, m0, n, x, w, b);
    assert BlockOk(K, m0, x, ops, b);
    forall u | 0 <= u < |ops| ensures ProgressOk(x', u) && LoadedOk(K, m0, x', ops, u) {
      assert ProgressOk(x, u) && LoadedOk(K, m0, x, ops, u);
    }
    forall c | c in m0 ensures BlockOk(K, m0, x', ops, c) {
      assert BlockOk(K, m0, x, ops, c);
      forall j | Cut(x', ops, c, j) ensures Cut(x, ops, c, j) {}
    }
  }

  lemma ScribbleGood<B>(K: Kernels<B>, m0: Matrix<B>, n: nat, x: Execution<B>, w: nat, v: B)
    requires Good(K, m0, n, x) && CanMove(x, Program(n), Scribble(w, v))
    ensures Good(K, m0, n, DoMove(K, x, Program(n), Scribble(w, v)))
  {
    var ops, t := Program(n), x.s.pc[w].t;
    var x' := DoMove(K, x, ops, Scribble(w, v));
    RunningIsReady(x.s, ops, w);
    var target := CholeskyProgram.Target(ops[t]);
    assert LoadedOk(K, m0, x, ops, t);
    forall u | 0 <= u < |ops| ensures ProgressOk(x', u) && LoadedOk(K, m0, x', ops, u) {
      assert ProgressOk(x, u) && LoadedOk(K, m0, x, ops, u);
    }
    forall c | c in m0 ensures BlockOk(K, m0, x', ops, c) {
      assert BlockOk(K, m0, x, ops, c);
      forall j | Cut(x', ops, c, j) ensures c != target && Cut(x, ops, c, j) {
        assert Writes(ops, t, target);
      }
    }
    assert x'.mem.Keys == m0.Keys;
  }

  /** The result stored is the one of the sequential loop nest. */
  lemma StoresSequential<B>(K: Kernels<B>, m0: Matrix<B>, n: nat, x: Execution<B>, w: nat)
    requires Good(K, m0, n, x) && CanMove(x, Program(n), Store(w))
    ensures var ops, t := Program(n), x.s.pc[w].t;
      var target := CholeskyProgram.Target(ops[t]);
      target in Sequential(K, m0, ops, t + 1) && Result(K, x.loaded[t], ops[t]) == Sequential(K, m0, ops, t + 1)[target]
  {
    var ops, t := Program(n), x.s.pc[w].t;
    assert LoadedOk(K, m0, x, ops, t);
    assert ops[..t + 1][..t] == ops[..t];
    assert Present(Sequential(K, m0, ops, t), ops[t]);
  }

  /** A cut that counts t among the writers of its target counts no later one before t has stored. */
  lemma NoWriterSince<B>(K: Kernels<B>, m0: Matrix<B>, n: nat, x: Execution<B>, w: nat, j: nat)
    requires Good(K, m0, n, x) && CanMove(x, Program(n), Store(w))
    requires Cut(DoMove(K, x, Program(n), Store(w)), Program(n), CholeskyProgram.Target(Program(n)[x.s.pc[w].t]), j)
    ensures x.s.pc[w].t < j
    ensures forall q: nat :: x.s.pc[w].t < q < j ==> !Writes(Program(n), q, CholeskyProgram.Target(Program(n)[x.s.pc[w].t]))
  {
    var ops, t := Program(n), x.s.pc[w].t;
    var target := CholeskyProgram.Target(ops[t]);
    assert Writes(ops, t, target);
    assert t < j;
    forall q: nat | t < q < j ensures !Writes(ops, q, target) {
      if Writes(ops, q, target) { LaterWriterWaits(K, m0, n, x, w, q, target); }
    }
  }

  /** After the store, the target block holds the sequential value for every cut that counts t among the writers. */
  lemma StoredBlock<B>(K: Kernels<B>, m0: Matrix<B>, n: nat, x: Execution<B>, w: nat, j: nat)
    requires Good(K, m0, n, x) && CanMove(x, Program(n), Store(w)) && CholeskyProgram.Target(Program(n)[x.s.pc[w].t]) in m0
    requires Cut(DoMove(K, x, Program(n), Store(w)), Program(n), CholeskyProgram.Target(Program(n)[x.s.pc[w].t]), j)
    ensures var target := CholeskyProgram.Target(Program(n)[x.s.pc[w].t]);
      && target in Sequential(K, m0, Program(n), j)
      && Result(K, x.loaded[x.s.pc[w].t], Program(n)[x.s.pc[w].t]) == Sequential(K, m0, Program(n), j)[target]
  {
    var ops, t := Program(n), x.s.pc[w].t;
    var target := CholeskyProgram.Target(ops[t]);
    StoresSequential(K, m0, n, x, w);
    NoWriterSince(K, m0, n, x, w, j);
    Unwritten(K, m0, ops, target, t + 1, j);
  }

  lemma StoreGood<B>(K: Kernels<B>, m0: Matrix<B>, n: nat, x: Execution<B>, w: nat)
    requires Good(K, m0, n, x) && CanMove(x, Program(n), Store(w))
    ensures Good(K, m0, n, DoMove(K, x, Program(n), Store(w)))
  {
    var ops, t := Program(n), x.s.pc[w].t;
    var x' := DoMove(K, x, ops, Store(w));
    RunningIsReady(x.s, ops, w);
    var target := CholeskyProgram.Target(ops[t]);
    assert LoadedOk(K, m0, x, ops, t) && target in x.loaded[t] && target in m0;
    forall u | 0 <= u < |ops| ensures ProgressOk(x', u) && LoadedOk(K, m0, x', ops, u) {
      assert ProgressOk(x, u) && LoadedOk(K, m0, x, ops, u);
    }
    forall c | c in m0 ensures BlockOk(K, m0, x', ops, c) {
      assert BlockOk(K, m0, x, ops, c);
      forall j | Cut(x', ops, c, j)
        ensures c in x'.mem && c in Sequential(K, m0, ops, j) && x'.mem[c] == Sequential(K, m0, ops, j)[c]
      {
        if c == target { StoredBlock(K, m0, n, x, w, j); } else { assert Cut(x, ops, c, j); }
      }
    }
    assert x'.mem.Keys == m0.Keys;
  }

  lemma ScheduleGood<B>(K: Kernels<B>, m0: Matrix<B>, n: nat, x: Execution<B>, l: Label)
    requires Good(K, m0, n, x) && CanMove(x, Program(n), Schedule(l))
    ensures Good(K, m0, n, DoMove(K, x, Program(n), Schedule(l)))
  {
    var ops := Program(n);
    var x' := DoMove(K, x, ops, Schedule(l));
    StepInv(x.s, l);
    forall u | 0 <= u < |ops| ensures u < |x'.s.place| && ProgressOk(x', u) && LoadedOk(K, m0, x', ops, u) {
      assert ProgressOk(x, u) && LoadedOk(K, m0, x, ops, u);
      StepAges(x.s, l, u);
    }
    forall c | c in m0 ensures BlockOk(K, m0, x', ops, c) {
      assert BlockOk(K, m0, x, ops, c);
      forall j | Cut(x', ops, c, j) ensures Cut(x, ops, c, j) {}
    }
  }

  lemma MoveGood<B>(K: Kernels<B>, m0: Matrix<B>, n: nat, x: Execution<B>, m: Move<B>)
    requires Good(K, m0, n, x) && CanMove(x, Program(n), m)
    ensures Good(K, m0, n, DoMove(K, x, Program(n), m))
  {
    match m
    case Schedule(l) => ScheduleGood(K, m0, n, x, l);
    case Load(w, b) => LoadGood(K, m0, n, x, w, b);
    case Scribble(w, v) => ScribbleGood(K, m0, n, x, w, v);
    case Store(w) => StoreGood(K, m0, n, x, w);
  }

  // ---------------------------------------------------------------------------------------------------------
  // Runs
  // ---------------------------------------------------------------------------------------------------------

  /** The graph has been built and added, and nothing has run. */
  ghost predicate Start<B>(m0: Matrix<B>, n: nat, x: Execution<B>) {
    && Init(x.s) && GraphMatches(x.s.g, Program(n))
    && Square(m0, n) && x.mem == m0
    && x.loaded == seq(|Program(n)|, _ => map[])
    && x.dirty == {} && x.written == {}
  }

  ghost predicate CanStepAt<B(!new)>(K: Kernels<B>, n: nat, tr: seq<Execution<B>>, i: nat)
    requires i + 1 < |tr|
  {
    CanStep(K, n, tr[i], tr[i + 1])
  }

  ghost predicate IsExecution<B(!new)>(K: Kernels<B>, m0: Matrix<B>, n: nat, tr: seq<Execution<B>>) {
    && |tr| > 0
    && Start(m0, n, tr[0])
    && forall i :: 0 <= i < |tr| - 1 ==> CanStepAt(K, n, tr, i)
  }

  ghost predicate CanStep<B(!new)>(K: Kernels<B>, n: nat, x: Execution<B>, x': Execution<B>) {
    exists m :: CanMove(x, Program(n), m) && x' == DoMove(K, x, Program(n), m)
  }

  lemma StartGood<B>(K: Kernels<B>, m0: Matrix<B>, n: nat, x: Execution<B>)
    requires Start(m0, n, x)
    ensures Good(K, m0, n, x)
  {
    var ops := Program(n);
    InitInv(x.s);
    forall t | 0 <= t < |ops| ensures ProgressOk(x, t) && LoadedOk(K, m0, x, ops, t) {
      assert x.s.place[t].Blocked? || x.s.place[t].Queued?;
    }
    forall b | b in m0 ensures BlockOk(K, m0, x, ops, b) {
      forall j | Cut(x, ops, b, j)
        ensures b in Sequential(K, m0, ops, j) && x.mem[b] == Sequential(K, m0, ops, j)[b]
      {
        Unwritten(K, m0, ops, b, 0, j);
        assert Sequential(K, m0, ops, 0) == m0;
      }
    }
  }

  lemma StepGood<B(!new)>(K: Kernels<B>, m0: Matrix<B>, n: nat, x: Execution<B>, x': Execution<B>)
    requires Good(K, m0, n, x) && CanStep(K, n, x, x')
    ensures Good(K, m0, n, x')
  {
    var m :| CanMove(x, Program(n), m) && x' == DoMove(K, x, Program(n), m);
    MoveGood(K, m0, n, x, m);
  }

  lemma {:induction false} AlwaysGood<B(!new)>(K: Kernels<B>, m0: Matrix<B>, n: nat, tr: seq<Execution<B>>, i: nat)
    requires IsExecution(K, m0, n, tr) && i < |tr|
    ensures Good(K, m0, n, tr[i])
    decreases i
  {
    if i == 0 {
      StartGood(K, m0, n, tr[0]);
    } else {
      AlwaysGood(K, m0, n, tr, i - 1);
      assert CanStepAt(K, n, tr, i - 1);
      StepGood(K, m0, n, tr[i - 1], tr[i]);
    }
  }

  /** When a worker has found all tasks finished, the blocks are those of the sequential factorization, and so those of the
      factor: for every number of blocks and of workers and every interleaving. */
  lemma ScheduleComputesSequential<B(!new)>(K: Kernels<B>, m0: Matrix<B>, n: nat, tr: seq<Execution<B>>, i: nat, w: nat)
    requires IsExecution(K, m0, n, tr) && i < |tr| && w < |tr[i].s.pc| && Leaving(tr[i].s.pc[w])
    ensures tr[i].mem == ExecAll(K, m0, Program(n)) && CholeskyFactor.IsFactorization(K, m0, n, tr[i].mem)
  {
    AlwaysGood(K, m0, n, tr, i);
    FinishedIsFactor(K, m0, n, tr[i]);
  }

  lemma FinishedIsSequential<B>(K: Kernels<B>, m0: Matrix<B>, n: nat, x: Execution<B>)
    requires Good(K, m0, n, x) && x.s.active == 0
    ensures x.mem == ExecAll(K, m0, Program(n))
  {
    var ops := Program(n);
    NothingActive(x.s);
    ExecKeys(K, m0, ops);
    assert ops[..|ops|] == ops;
    forall b | b in m0 ensures x.mem[b] == ExecAll(K, m0, ops)[b] {
      forall q: nat | q < |ops| ensures q in x.written { assert ProgressOk(x, q); }
      assert BlockOk(K, m0, x, ops, b);
      assert Cut(x, ops, b, |ops|);
    }
  }

  lemma FinishedIsFactor<B>(K: Kernels<B>, m0: Matrix<B>, n: nat, x: Execution<B>)
    requires Good(K, m0, n, x) && x.s.active == 0
    ensures x.mem == ExecAll(K, m0, Program(n)) && CholeskyFactor.IsFactorization(K, m0, n, x.mem)
  {
    FinishedIsSequential(K, m0, n, x);
    CholeskyFactor.ProgramComputesFactor(K, m0, n);
  }

  /** Every read of a running kernel sees the sequential value of its position in the program, never a stale, partial
      or later one. */
  lemma ReadsSequentialValue<B(!new)>(K: Kernels<B>, m0: Matrix<B>, n: nat, tr: seq<Execution<B>>, i: nat, w: nat, b: Block)
    requires IsExecution(K, m0, n, tr) && i < |tr| && CanMove(tr[i], Program(n), Load(w, b))
    ensures b in Sequential(K, m0, Program(n), tr[i].s.pc[w].t)
    ensures tr[i].mem[b] == Sequential(K, m0, Program(n), tr[i].s.pc[w].t)[b]
  {
    AlwaysGood(K, m0, n, tr, i);
    ReadsAtCut(K, m0, n, tr[i], w, b);
    assert BlockOk(K, m0, tr[i], Program(n), b);
  }
}
