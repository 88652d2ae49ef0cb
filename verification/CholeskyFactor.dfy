/**
The factor that the operations of the loop nest compute, block by block and without reference to their order: every block on
or above the diagonal is solved for after the products of the blocks above it have been subtracted from it. With the laws of
the kernels, the factor times its transpose is the matrix.
*/
module CholeskyFactor {
  import opened CholeskyProgram

  // ---------------------------------------------------------------------------------------------------------
  // The blocks of the factor
  // ---------------------------------------------------------------------------------------------------------

  /** Block (k, j) of the factor, for k up to j. */
  function Factor<B>(K: Kernels<B>, m0: Matrix<B>, n: nat, k: nat, j: nat): B
    requires Square(m0, n) && k <= j < n
    decreases k, j - k, k + 1
  {
    if k == j then K.potrf(Remainder(K, m0, n, j, j, j)) else K.trsm(Factor(K, m0, n, k, k), Remainder(K, m0, n, k, j, k))
  }

  /** What is left of block (k, j) after the first i rows of the factor have been accounted for. */
  function Remainder<B>(K: Kernels<B>, m0: Matrix<B>, n: nat, k: nat, j: nat, i: nat): B
    requires Square(m0, n) && i <= k <= j < n
    decreases k, j - k, i
  {
    if i == 0 then m0[At(k, j)]
    else if k == j then K.syrk(Factor(K, m0, n, i - 1, j), Remainder(K, m0, n, j, j, i - 1))
    else K.gemm(Factor(K, m0, n, i - 1, k), Factor(K, m0, n, i - 1, j), Remainder(K, m0, n, k, j, i - 1))
  }

  /** Block (r, c) after s operations on it: what is left after s rows, and finally the block of the factor. Below the diagonal
      nothing happens. */
  function BlockAfter<B>(K: Kernels<B>, m0: Matrix<B>, n: nat, r: nat, c: nat, s: nat): B
    requires Square(m0, n) && r < n && c < n
  {
    if r > c then m0[At(r, c)] else if s <= r then Remainder(K, m0, n, r, c, s) else Factor(K, m0, n, r, c)
  }

  // ---------------------------------------------------------------------------------------------------------
  // The loop nest computes them
  // ---------------------------------------------------------------------------------------------------------

  /** How many operations there have been on every block. */
  type Steps = (nat, nat) -> nat

  ghost predicate Holds<B>(K: Kernels<B>, m0: Matrix<B>, n: nat, m: Matrix<B>, s: Steps)
    requires Square(m0, n)
  {
    Square(m, n) && forall r: nat, c: nat :: r < n && c < n ==> m[At(r, c)] == BlockAfter(K, m0, n, r, c, s(r, c))
  }

  /** The operation is the next one on its target, and the blocks it reads are final. */
  predicate IsNext(o: Op, s: Steps) {
    match o
    case Potrf(i) => s(i, i) == i
    case Trsm(i, j) => s(i, j) == i && s(i, i) > i
    case Gemm(i, k, j) => s(k, j) == i && s(i, k) > i && s(i, j) > i
    case Syrk(i, j) => s(j, j) == i && s(i, j) > i
  }

  /** One more step on the target, and no other change on or above the diagonal. */
  predicate Counts(o: Op, n: nat, s: Steps, s': Steps) {
    forall r: nat, c: nat :: r <= c < n ==> s'(r, c) == if At(r, c) == Target(o) then s(r, c) + 1 else s(r, c)
  }

  lemma OpHolds<B>(K: Kernels<B>, m0: Matrix<B>, n: nat, m: Matrix<B>, o: Op, s: Steps, s': Steps)
    requires Square(m0, n) && Holds(K, m0, n, m, s) && ValidOp(o, n) && IsNext(o, s) && Counts(o, n, s, s')
    ensures Holds(K, m0, n, Exec(K, m, o), s')
  {}

  // Walking through the loop nest, for any property of the operations done and the steps made

  /** The property of operations and steps holds after one more operation. */
  ghost predicate Carries(good: (seq<Op>, Steps) -> bool, n: nat) {
    forall ops, o, s, s' | good(ops, s) && ValidOp(o, n) && IsNext(o, s) && Counts(o, n, s, s') :: good(ops + [o], s')
  }

  lemma OneMore(good: (seq<Op>, Steps) -> bool, n: nat, ops: seq<Op>, o: Op, s: Steps, s': Steps)
    requires Carries(good, n) && good(ops, s) && ValidOp(o, n) && IsNext(o, s) && Counts(o, n, s, s')
    ensures good(ops + [o], s')
  {}

  /** Steps below the diagonal do not matter to it. */
  ghost predicate Ignores(good: (seq<Op>, Steps) -> bool, n: nat) {
    forall ops, s, s' | good(ops, s) && Agree(n, s, s') :: good(ops, s')
  }

  predicate Agree(n: nat, s: Steps, s': Steps) {
    forall r: nat, c: nat :: r <= c < n ==> s'(r, c) == s(r, c)
  }

  /** Before iteration i. */
  function Before(i: nat): Steps { (r, c) => if r < i then r + 1 else i }

  /** In iteration i, after the triangular systems of the columns below j. */
  function Solved(i: nat, j: nat): Steps { (r, c) => if r < i || (r == i && c < j) then r + 1 else i }

  /** After the update of the columns below j, and in column j of the rows below k. */
  function Updated(i: nat, j: nat, k: nat): Steps {
    (r, c) => if r <= i then r + 1 else if c < j || (c == j && r < k) then i + 1 else i
  }

  lemma {:induction false} TrsmsHold(good: (seq<Op>, Steps) -> bool, n: nat, ops: seq<Op>, i: nat, j: nat)
    requires Carries(good, n) && i < j <= n && good(ops, Solved(i, i + 1))
    ensures good(Trsms(ops, i, j), Solved(i, j))
    decreases j
  {
    if j > i + 1 {
      TrsmsHold(good, n, ops, i, j - 1);
      OneMore(good, n, Trsms(ops, i, j - 1), Trsm(i, j - 1), Solved(i, j - 1), Solved(i, j));
    }
  }

  lemma {:induction false} GemmsHold(good: (seq<Op>, Steps) -> bool, n: nat, ops: seq<Op>, i: nat, k: nat, j: nat)
    requires Carries(good, n) && i < k <= j < n && good(ops, Updated(i, j, i + 1))
    ensures good(Gemms(ops, i, k, j), Updated(i, j, k))
    decreases k
  {
    if k > i + 1 {
      GemmsHold(good, n, ops, i, k - 1, j);
      OneMore(good, n, Gemms(ops, i, k - 1, j), Gemm(i, k - 1, j), Updated(i, j, k - 1), Updated(i, j, k));
    }
  }

  lemma ColumnHolds(good: (seq<Op>, Steps) -> bool, n: nat, ops: seq<Op>, i: nat, j: nat)
    requires Carries(good, n) && i < j < n && good(ops, Updated(i, j, i + 1))
    ensures good(Gemms(ops, i, j, j) + [Syrk(i, j)], Updated(i, j + 1, i + 1))
  {
    GemmsHold(good, n, ops, i, j, j);
    OneMore(good, n, Gemms(ops, i, j, j), Syrk(i, j), Updated(i, j, j), Updated(i, j + 1, i + 1));
  }

  lemma {:induction false} UpdatesHold(good: (seq<Op>, Steps) -> bool, n: nat, ops: seq<Op>, i: nat, j: nat)
    requires Carries(good, n) && i < j <= n && good(ops, Updated(i, i + 1, i + 1))
    ensures good(Updates(ops, i, j), Updated(i, j, i + 1))
    decreases j
  {
    if j > i + 1 {
      UpdatesHold(good, n, ops, i, j - 1);
      ColumnHolds(good, n, Updates(ops, i, j - 1), i, j - 1);
    }
  }

  lemma IterationHolds(good: (seq<Op>, Steps) -> bool, n: nat, ops: seq<Op>, i: nat)
    requires Carries(good, n) && Ignores(good, n) && i < n && good(ops, Before(i))
    ensures good(Updates(Trsms(ops + [Potrf(i)], i, n), i, n), Before(i + 1))
  {
    OneMore(good, n, ops, Potrf(i), Before(i), Solved(i, i + 1));
    TrsmsHold(good, n, ops + [Potrf(i)], i, n);
    assert Agree(n, Solved(i, n), Updated(i, i + 1, i + 1));
    UpdatesHold(good, n, Trsms(ops + [Potrf(i)], i, n), i, n);
    assert Agree(n, Updated(i, n, i + 1), Before(i + 1));
  }

  lemma {:induction false} IterationsHold(good: (seq<Op>, Steps) -> bool, n: nat, i: nat)
    requires Carries(good, n) && Ignores(good, n) && i <= n && good([], Before(0))
    ensures good(Iterations(i, n), Before(i))
    decreases i
  {
    if i > 0 {
      IterationsHold(good, n, i - 1);
      IterationHolds(good, n, Iterations(i - 1, n), i - 1);
    }
  }

  lemma OneMoreHolds<B>(K: Kernels<B>, m0: Matrix<B>, n: nat, ops: seq<Op>, o: Op, s: Steps, s': Steps)
    requires Square(m0, n) && Holds(K, m0, n, ExecAll(K, m0, ops), s) && ValidOp(o, n) && IsNext(o, s) && Counts(o, n, s, s')
    ensures Holds(K, m0, n, ExecAll(K, m0, ops + [o]), s')
  {
    assert (ops + [o])[..|ops|] == ops;
    OpHolds(K, m0, n, ExecAll(K, m0, ops), o, s, s');
  }

  /** The blocks are as the steps say, for the operations done on m0. */
  ghost function HoldsAfter<B>(K: Kernels<B>, m0: Matrix<B>, n: nat): (seq<Op>, Steps) -> bool
    requires Square(m0, n)
  {
    (ops, s) => Holds(K, m0, n, ExecAll(K, m0, ops), s)
  }

  lemma HoldsCarries<B>(K: Kernels<B>, m0: Matrix<B>, n: nat)
    requires Square(m0, n)
    ensures Carries(HoldsAfter(K, m0, n), n) && Ignores(HoldsAfter(K, m0, n), n)
  {
    var good := HoldsAfter(K, m0, n);
    forall ops, o, s, s' | good(ops, s) && ValidOp(o, n) && IsNext(o, s) && Counts(o, n, s, s') ensures good(ops + [o], s') {
      OneMoreHolds(K, m0, n, ops, o, s, s');
    }
  }

  lemma NoneDone<B>(K: Kernels<B>, m0: Matrix<B>, n: nat)
    requires Square(m0, n)
    ensures HoldsAfter(K, m0, n)([], Before(0))
  {
    forall r: nat, c: nat | r < n && c < n ensures m0[At(r, c)] == BlockAfter(K, m0, n, r, c, 0) {}
    forall r: nat, c: nat ensures Before(0)(r, c) == 0 {}
    assert ExecAll(K, m0, []) == m0;
    assert Holds(K, m0, n, m0, Before(0));
  }

  /** The blocks of the factor are on and above the diagonal, and those of m0 below it. */
  ghost predicate IsFactorization<B>(K: Kernels<B>, m0: Matrix<B>, n: nat, m: Matrix<B>)
    requires Square(m0, n)
  {
    Square(m, n) && forall r: nat, c: nat :: r < n && c < n ==> m[At(r, c)] == if r <= c then Factor(K, m0, n, r, c) else m0[At(r, c)]
  }

  /** The loop nest computes the factor. */
  lemma ProgramComputesFactor<B>(K: Kernels<B>, m0: Matrix<B>, n: nat)
    requires Square(m0, n)
    ensures IsFactorization(K, m0, n, ExecAll(K, m0, Program(n)))
  {
    HoldsCarries(K, m0, n);
    NoneDone(K, m0, n);
    IterationsHold(HoldsAfter(K, m0, n), n, n);
  }

  // ---------------------------------------------------------------------------------------------------------
  // The factor times its transpose is the matrix
  // ---------------------------------------------------------------------------------------------------------

  /** Sums of blocks, and products of a transposed block and another. */
  datatype Blocks<!B> = Blocks(plus: (B, B) -> B, minus: (B, B) -> B, times: (B, B) -> B)

  /** What the kernels for updates do: gemm subtracts the product of its first block, transposed, and its second. */
  ghost predicate Subtracts<B(!new)>(K: Kernels<B>, R: Blocks<B>) {
    && (forall x, y :: R.plus(R.minus(x, y), y) == x)
    && (forall x, y, z :: K.gemm(x, y, z) == R.minus(z, R.times(x, y)))
    && (forall x, z :: K.syrk(x, z) == R.minus(z, R.times(x, x)))
  }

  /** The other two solve their equations, for the blocks that they are given. */
  ghost predicate Solves<B>(K: Kernels<B>, R: Blocks<B>, m0: Matrix<B>, n: nat)
    requires Square(m0, n)
  {
    && (forall k: nat :: k < n ==> R.times(Factor(K, m0, n, k, k), K.potrf(Remainder(K, m0, n, k, k, k))) == Remainder(K, m0, n, k, k, k))
    && (forall k: nat, j: nat :: k < j < n ==>
          R.times(Factor(K, m0, n, k, k), K.trsm(Factor(K, m0, n, k, k), Remainder(K, m0, n, k, j, k))) == Remainder(K, m0, n, k, j, k))
  }

  /** The sum of v and the products of the first i blocks of columns k and j. */
  function PlusProducts<B>(R: Blocks<B>, m: Matrix<B>, n: nat, k: nat, j: nat, i: nat, v: B): B
    requires Square(m, n) && i <= k <= j < n
    decreases i
  {
    if i == 0 then v else PlusProducts(R, m, n, k, j, i - 1, R.plus(v, R.times(m[At(i - 1, k)], m[At(i - 1, j)])))
  }

  /** Block (k, j) of the product of the upper triangle of m, transposed, and the upper triangle: the products of the blocks of
      columns k and j, from row k up. */
  function Product<B>(R: Blocks<B>, m: Matrix<B>, n: nat, k: nat, j: nat): B
    requires Square(m, n) && k <= j < n
  {
    PlusProducts(R, m, n, k, j, k, R.times(m[At(k, k)], m[At(k, j)]))
  }

  lemma {:induction false} Restores<B(!new)>(K: Kernels<B>, R: Blocks<B>, m0: Matrix<B>, n: nat, m: Matrix<B>, k: nat, j: nat, i: nat)
    requires Square(m0, n) && IsFactorization(K, m0, n, m) && i <= k <= j < n && Subtracts(K, R)
    ensures PlusProducts(R, m, n, k, j, i, Remainder(K, m0, n, k, j, i)) == m0[At(k, j)]
    decreases i
  {
    if i > 0 { Restores(K, R, m0, n, m, k, j, i - 1); }
  }

  /** The factor, transposed, times the factor is the matrix. */
  lemma FactorTimesFactor<B(!new)>(K: Kernels<B>, R: Blocks<B>, m0: Matrix<B>, n: nat, m: Matrix<B>, k: nat, j: nat)
    requires Square(m0, n) && IsFactorization(K, m0, n, m) && k <= j < n && Subtracts(K, R) && Solves(K, R, m0, n)
    ensures Product(R, m, n, k, j) == m0[At(k, j)]
  {
    Restores(K, R, m0, n, m, k, j, k);
  }
}
