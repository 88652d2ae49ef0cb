/** The sequential factorization: the loop nest that updates the blocks in place. */
module CholeskySequential {
  import opened CholeskyProgram
  import CholeskyFactor

  ghost function View<B>(a: array2<B>): Matrix<B>
    requires a.Length0 == a.Length1
    reads a
  {
    map r: nat, c: nat | r < a.Length0 && c < a.Length1 :: At(r, c) := a[r, c]
  }

  /** The blocks hold what the operations in `done` make of m0. */
  ghost predicate Holds<B>(a: array2<B>, K: Kernels<B>, m0: Matrix<B>, done: seq<Op>)
    requires a.Length0 == a.Length1
    reads a
  {
    View(a) == ExecAll(K, m0, done)
  }

  /** One more operation at the end. */
  lemma ExecOneMore<B>(K: Kernels<B>, m0: Matrix<B>, done: seq<Op>, o: Op)
    ensures ExecAll(K, m0, done + [o]) == Exec(K, ExecAll(K, m0, done), o)
  {
    assert (done + [o])[..|done|] == done;
  }

  // The kernels on the blocks of the matrix, in place

  method PotrfBlock<B>(a: array2<B>, K: Kernels<B>, i: nat, ghost m0: Matrix<B>, ghost done: seq<Op>)
    requires i < a.Length0 == a.Length1 && Holds(a, K, m0, done)
    modifies a
    ensures Holds(a, K, m0, done + [Potrf(i)])
  {
    a[i, i] := K.potrf(a[i, i]);
    ExecOneMore(K, m0, done, Potrf(i));
  }

  method TrsmBlock<B>(a: array2<B>, K: Kernels<B>, i: nat, j: nat, ghost m0: Matrix<B>, ghost done: seq<Op>)
    requires i < j < a.Length0 == a.Length1 && Holds(a, K, m0, done)
    modifies a
    ensures Holds(a, K, m0, done + [Trsm(i, j)])
  {
    a[i, j] := K.trsm(a[i, i], a[i, j]);
    ExecOneMore(K, m0, done, Trsm(i, j));
  }

  method GemmBlock<B>(a: array2<B>, K: Kernels<B>, i: nat, k: nat, j: nat, ghost m0: Matrix<B>, ghost done: seq<Op>)
    requires i < k < j < a.Length0 == a.Length1 && Holds(a, K, m0, done)
    modifies a
    ensures Holds(a, K, m0, done + [Gemm(i, k, j)])
  {
    a[k, j] := K.gemm(a[i, k], a[i, j], a[k, j]);
    ExecOneMore(K, m0, done, Gemm(i, k, j));
  }

  method SyrkBlock<B>(a: array2<B>, K: Kernels<B>, i: nat, j: nat, ghost m0: Matrix<B>, ghost done: seq<Op>)
    requires i < j < a.Length0 == a.Length1 && Holds(a, K, m0, done)
    modifies a
    ensures Holds(a, K, m0, done + [Syrk(i, j)])
  {
    a[j, j] := K.syrk(a[i, j], a[j, j]);
    ExecOneMore(K, m0, done, Syrk(i, j));
  }

  /** The triangular systems of iteration i. */
  method TriangularSystems<B>(a: array2<B>, K: Kernels<B>, i: nat, ghost m0: Matrix<B>, ghost start: seq<Op>)
    requires i < a.Length0 == a.Length1 && Holds(a, K, m0, start)
    modifies a
    ensures Holds(a, K, m0, Trsms(start, i, a.Length0))
  {
    ghost var done := start;
    for j := i + 1 to a.Length0
      invariant done == Trsms(start, i, j) && Holds(a, K, m0, done)
    {
      TrsmBlock(a, K, i, j, m0, done);
      done := done + [Trsm(i, j)];
    }
  }

  /** Column j of the trailing matrix in iteration i. */
  method UpdateColumn<B>(a: array2<B>, K: Kernels<B>, i: nat, j: nat, ghost m0: Matrix<B>, ghost start: seq<Op>)
    requires i < j < a.Length0 == a.Length1 && Holds(a, K, m0, start)
    modifies a
    ensures Holds(a, K, m0, Gemms(start, i, j, j) + [Syrk(i, j)])
  {
    ghost var done := start;
    for k := i + 1 to j
      invariant done == Gemms(start, i, k, j) && Holds(a, K, m0, done)
    {
      GemmBlock(a, K, i, k, j, m0, done);
      done := done + [Gemm(i, k, j)];
    }
    SyrkBlock(a, K, i, j, m0, done);
  }

  /** The update of the trailing matrix in iteration i. */
  method UpdateTrailingMatrix<B>(a: array2<B>, K: Kernels<B>, i: nat, ghost m0: Matrix<B>, ghost start: seq<Op>)
    requires i < a.Length0 == a.Length1 && Holds(a, K, m0, start)
    modifies a
    ensures Holds(a, K, m0, Updates(start, i, a.Length0))
  {
    ghost var done := start;
    for j := i + 1 to a.Length0
      invariant done == Updates(start, i, j) && Holds(a, K, m0, done)
    {
      UpdateColumn(a, K, i, j, m0, done);
      done := Gemms(done, i, j, j) + [Syrk(i, j)];
    }
  }

  method Cholesky<B>(a: array2<B>, K: Kernels<B>, blocks: nat)
    requires a.Length0 == a.Length1 == blocks
    modifies a
    ensures View(a) == ExecAll(K, old(View(a)), Program(blocks))
    ensures forall r: nat, c: nat :: r < blocks && c < blocks ==>
              a[r, c] == if r <= c then CholeskyFactor.Factor(K, old(View(a)), blocks, r, c) else old(a[r, c])
  {
    ghost var m0 := View(a);
    ghost var done: seq<Op> := [];
    for i := 0 to blocks
      invariant done == Iterations(i, blocks) && Holds(a, K, m0, done)
    {
      Iteration(a, K, i, m0, done);
      done := Updates(Trsms(done + [Potrf(i)], i, blocks), i, blocks);
    }
    CholeskyFactor.ProgramComputesFactor(K, m0, blocks);
    FactorInArray(a, K, m0);
  }

  lemma FactorInArray<B>(a: array2<B>, K: Kernels<B>, m0: Matrix<B>)
    requires a.Length0 == a.Length1 && Square(m0, a.Length0) && CholeskyFactor.IsFactorization(K, m0, a.Length0, View(a))
    ensures forall r: nat, c: nat :: r < a.Length0 && c < a.Length0 ==>
              a[r, c] == if r <= c then CholeskyFactor.Factor(K, m0, a.Length0, r, c) else m0[At(r, c)]
  {
    forall r: nat, c: nat | r < a.Length0 && c < a.Length0
      ensures a[r, c] == if r <= c then CholeskyFactor.Factor(K, m0, a.Length0, r, c) else m0[At(r, c)]
    {
      assert View(a)[At(r, c)] == a[r, c];
    }
  }

  /** The diagonal block, the triangular systems and the trailing matrix of iteration i. */
  method Iteration<B>(a: array2<B>, K: Kernels<B>, i: nat, ghost m0: Matrix<B>, ghost done: seq<Op>)
    requires i < a.Length0 == a.Length1 && Holds(a, K, m0, done)
    modifies a
    ensures Holds(a, K, m0, Updates(Trsms(done + [Potrf(i)], i, a.Length0), i, a.Length0))
  {
    PotrfBlock(a, K, i, m0, done);
    TriangularSystems(a, K, i, m0, done + [Potrf(i)]);
    UpdateTrailingMatrix(a, K, i, m0, Trsms(done + [Potrf(i)], i, a.Length0));
  }
}
