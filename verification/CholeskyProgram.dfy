/** The operations of the blocked Cholesky factorization, in the order of its loop nest, and what they do. */
module CholeskyProgram {

  /** A block: row and column. */
  datatype Block = At(row: nat, column: nat)

  datatype Op = Potrf(i: nat) | Trsm(i: nat, j: nat) | Gemm(i: nat, k: nat, j: nat) | Syrk(i: nat, j: nat)

  /** The four kernels, each giving the new contents of the block it writes. */
  datatype Kernels<!B> = Kernels(potrf: B -> B, trsm: (B, B) -> B, gemm: (B, B, B) -> B, syrk: (B, B) -> B)

  type Matrix<B> = map<Block, B>

  function Target(o: Op): Block {
    match o
    case Potrf(i) => At(i, i)
    case Trsm(i, j) => At(i, j)
    case Gemm(i, k, j) => At(k, j)
    case Syrk(i, j) => At(j, j)
  }

  /** The blocks an operation depends on, in the order in which its dependencies are added; it writes the last one. */
  function Accesses(o: Op): seq<Block> {
    match o
    case Potrf(i) => [At(i, i)]
    case Trsm(i, j) => [At(i, i), At(i, j)]
    case Gemm(i, k, j) => [At(i, j), At(i, k), At(k, j)]
    case Syrk(i, j) => [At(i, j), At(j, j)]
  }

  predicate ValidOp(o: Op, n: nat) {
    match o
    case Potrf(i) => i < n
    case Trsm(i, j) => i < j < n
    case Gemm(i, k, j) => i < k < j < n
    case Syrk(i, j) => i < j < n
  }

  predicate Square<B>(m: Matrix<B>, n: nat) {
    forall r: nat, c: nat :: r < n && c < n ==> At(r, c) in m
  }

  /** All blocks the operation touches exist. */
  predicate Present<B>(m: Matrix<B>, o: Op) {
    match o
    case Potrf(i) => At(i, i) in m
    case Trsm(i, j) => At(i, i) in m && At(i, j) in m
    case Gemm(i, k, j) => At(i, k) in m && At(i, j) in m && At(k, j) in m
    case Syrk(i, j) => At(i, j) in m && At(j, j) in m
  }

  /** The contents of the target block after an operation on the blocks of m. */
  function Result<B>(K: Kernels<B>, m: Matrix<B>, o: Op): B
    requires Present(m, o)
  {
    match o
    case Potrf(i) => K.potrf(m[At(i, i)])
    case Trsm(i, j) => K.trsm(m[At(i, i)], m[At(i, j)])
    case Gemm(i, k, j) => K.gemm(m[At(i, k)], m[At(i, j)], m[At(k, j)])
    case Syrk(i, j) => K.syrk(m[At(i, j)], m[At(j, j)])
  }

  function Exec<B>(K: Kernels<B>, m: Matrix<B>, o: Op): Matrix<B> {
    if Present(m, o) then m[Target(o) := Result(K, m, o)] else m
  }

  predicate ValidOps(ops: seq<Op>, n: nat) {
    forall p :: 0 <= p < |ops| ==> ValidOp(ops[p], n)
  }

  /** Executing operations one after the other. */
  function ExecAll<B>(K: Kernels<B>, m: Matrix<B>, ops: seq<Op>): Matrix<B>
    decreases |ops|
  {
    if ops == [] then m
    else
      var last := |ops| - 1;
      Exec(K, ExecAll(K, m, ops[..last]), ops[last])
  }

  // The loop nest, loop by loop: the operations `done` before a loop and those of its iterations below a bound

  function Trsms(done: seq<Op>, i: nat, j: nat): seq<Op>
    decreases j
  {
    if j <= i + 1 then done else Trsms(done, i, j - 1) + [Trsm(i, j - 1)]
  }

  function Gemms(done: seq<Op>, i: nat, k: nat, j: nat): seq<Op>
    decreases k
  {
    if k <= i + 1 then done else Gemms(done, i, k - 1, j) + [Gemm(i, k - 1, j)]
  }

  function Updates(done: seq<Op>, i: nat, j: nat): seq<Op>
    decreases j
  {
    if j <= i + 1 then done else Gemms(Updates(done, i, j - 1), i, j - 1, j - 1) + [Syrk(i, j - 1)]
  }

  function Iterations(i: nat, n: nat): seq<Op> {
    if i == 0 then [] else Updates(Trsms(Iterations(i - 1, n) + [Potrf(i - 1)], i - 1, n), i - 1, n)
  }

  function Program(n: nat): seq<Op> {
    Iterations(n, n)
  }

  // ---------------------------------------------------------------------------------------------------------
  // The shape of the algorithm
  // ---------------------------------------------------------------------------------------------------------

  /** The outer iteration and the phase of an operation. */
  function Phase(o: Op): nat {
    match o
    case Potrf(i) => 3 * i
    case Trsm(i, _) => 3 * i + 1
    case Gemm(i, _, _) => 3 * i + 2
    case Syrk(i, _) => 3 * i + 2
  }

  predicate Sorted(ops: seq<Op>) {
    forall p, q :: 0 <= p < q < |ops| ==> Phase(ops[p]) <= Phase(ops[q])
  }

  /** A prefix of the program: valid operations in the order of their phases, none beyond phase `high`. */
  predicate Prefix(ops: seq<Op>, n: nat, high: nat) {
    ValidOps(ops, n) && Sorted(ops) && forall p :: 0 <= p < |ops| ==> Phase(ops[p]) <= high
  }

  lemma AppendShape(ops: seq<Op>, o: Op, n: nat, low: nat, high: nat)
    requires Prefix(ops, n, low) && ValidOp(o, n) && low <= Phase(o) == high
    ensures Prefix(ops + [o], n, high)
  {}

  lemma {:induction false} TrsmsShape(done: seq<Op>, i: nat, j: nat, n: nat)
    requires i < n && j <= n && Prefix(done, n, 3 * i + 1)
    ensures Prefix(Trsms(done, i, j), n, 3 * i + 1)
    decreases j
  {
    if j > i + 1 {
      TrsmsShape(done, i, j - 1, n);
      AppendShape(Trsms(done, i, j - 1), Trsm(i, j - 1), n, 3 * i + 1, 3 * i + 1);
    }
  }

  lemma {:induction false} GemmsShape(done: seq<Op>, i: nat, k: nat, j: nat, n: nat)
    requires i < k <= j < n && Prefix(done, n, 3 * i + 2)
    ensures Prefix(Gemms(done, i, k, j), n, 3 * i + 2)
    decreases k
  {
    if k > i + 1 {
      GemmsShape(done, i, k - 1, j, n);
      AppendShape(Gemms(done, i, k - 1, j), Gemm(i, k - 1, j), n, 3 * i + 2, 3 * i + 2);
    }
  }

  lemma {:induction false} UpdatesShape(done: seq<Op>, i: nat, j: nat, n: nat)
    requires i < n && j <= n && Prefix(done, n, 3 * i + 2)
    ensures Prefix(Updates(done, i, j), n, 3 * i + 2)
    decreases j
  {
    if j > i + 1 {
      UpdatesShape(done, i, j - 1, n);
      var column := Updates(done, i, j - 1);
      GemmsShape(column, i, j - 1, j - 1, n);
      AppendShape(Gemms(column, i, j - 1, j - 1), Syrk(i, j - 1), n, 3 * i + 2, 3 * i + 2);
    }
  }

  lemma {:induction false} IterationsShape(i: nat, n: nat)
    requires i <= n
    ensures Prefix(Iterations(i, n), n, 3 * i)
    decreases i
  {
    if i > 0 {
      IterationsShape(i - 1, n);
      var start := Iterations(i - 1, n);
      AppendShape(start, Potrf(i - 1), n, 3 * (i - 1), 3 * (i - 1));
      var diagonal := start + [Potrf(i - 1)];
      Loosen(diagonal, n, 3 * (i - 1), 3 * (i - 1) + 1);
      TrsmsShape(diagonal, i - 1, n, n);
      Loosen(Trsms(diagonal, i - 1, n), n, 3 * (i - 1) + 1, 3 * (i - 1) + 2);
      UpdatesShape(Trsms(diagonal, i - 1, n), i - 1, n, n);
      Loosen(Updates(Trsms(diagonal, i - 1, n), i - 1, n), n, 3 * (i - 1) + 2, 3 * i);
    }
  }

  lemma Loosen(ops: seq<Op>, n: nat, low: nat, high: nat)
    requires Prefix(ops, n, low) && low <= high
    ensures Prefix(ops, n, high)
  {}

  /** Once an operation has read a block that it does not write, no later operation writes that block: there is no
      write-after-read pair for a dependency to be missing. */
  lemma ReadAfterLastWrite(n: nat, p: nat, q: nat, b: Block)
    requires p < q < |Program(n)| && b in Accesses(Program(n)[p]) && b != Target(Program(n)[p])
    ensures Target(Program(n)[q]) != b
  {
    IterationsShape(n, n);
  }

  /** Operation q depends on the earlier operation p: p writes a block that q reads or writes. */
  predicate DependsOn(ops: seq<Op>, q: nat, p: nat) {
    p < q < |ops| && Target(ops[p]) in Accesses(ops[q])
  }

  /** Two operations conflict when they touch a common block and one of them writes it; the later one then depends
      directly on the earlier one. */
  lemma ConflictIsDependency(n: nat, p: nat, q: nat, b: Block)
    requires p < q < |Program(n)| && b in Accesses(Program(n)[p]) && b in Accesses(Program(n)[q])
    requires b == Target(Program(n)[p]) || b == Target(Program(n)[q])
    ensures DependsOn(Program(n), q, p)
  {
    if b != Target(Program(n)[p]) { ReadAfterLastWrite(n, p, q, b); }
  }
}
