/** Converting a matrix between one flat array, row after row, and square blocks that are flat arrays themselves. */
module CholeskyLayout {
  import opened Arithmetic

  /** How many blocks fit in a row; rows and columns beyond the last full block are left out. */
  function BlocksPerRow(dim: nat, bs: nat): nat
    requires bs > 0
  {
    dim / bs
  }

  function Covered(dim: nat, bs: nat): nat
    requires bs > 0
  {
    dim / bs * bs
  }

  lemma CoveredFits(dim: nat, bs: nat)
    requires bs > 0
    ensures Covered(dim, bs) <= dim && (Covered(dim, bs) == dim <==> dim % bs == 0)
  {
    Divide(dim, bs);
  }

  ghost predicate IsPlain<T>(m: array<T>, dim: nat) { m.Length == dim * dim }

  /** Entry of a flat square array with rows of length n. */
  function Entry<T>(m: array<T>, n: nat, row: nat, column: nat): T
    requires m.Length == n * n && row < n && column < n
    reads m
  {
    DigitInRange(row, column, n, n);
    m[row * n + column]
  }

  method SetEntry<T>(m: array<T>, n: nat, row: nat, column: nat, v: T)
    requires m.Length == n * n && row < n && column < n
    modifies m
    ensures forall r: nat, c: nat :: r < n && c < n ==> Entry(m, n, r, c) == if r == row && c == column then v else old(Entry(m, n, r, c))
  {
    DigitInRange(row, column, n, n);
    m[row * n + column] := v;
    forall r: nat, c: nat | r < n && c < n
      ensures Entry(m, n, r, c) == if r == row && c == column then v else old(Entry(m, n, r, c))
    {
      DigitInRange(r, c, n, n);
      if r * n + c == row * n + column { SameDigits(n, r, c, row, column); }
    }
  }

  /** The blocks are separate square arrays, as many per row as fit. */
  ghost predicate IsBlocked<T>(b: array2<array<T>>, dim: nat, bs: nat)
    requires bs > 0
    reads b
  {
    && b.Length0 == b.Length1 == BlocksPerRow(dim, bs)
    && (forall i, j :: 0 <= i < b.Length0 && 0 <= j < b.Length1 ==> b[i, j].Length == bs * bs)
    && (forall i, j, k, l :: 0 <= i < b.Length0 && 0 <= j < b.Length1 && 0 <= k < b.Length0 && 0 <= l < b.Length1 && b[i, j] == b[k, l]
          ==> i == k && j == l)
  }

  ghost function AllBlocks<T>(b: array2<array<T>>): set<array<T>>
    reads b
  {
    set i, j | 0 <= i < b.Length0 && 0 <= j < b.Length1 :: b[i, j]
  }

  lemma GlobalIndex(dim: nat, bs: nat, i: nat, ii: nat)
    requires bs > 0 && i < BlocksPerRow(dim, bs) && ii < bs
    ensures i * bs + ii < Covered(dim, bs) <= dim
  {
    DigitInRange(i, ii, bs, dim / bs);
    CoveredFits(dim, bs);
  }

  /** Block (i, j) holds its part of the plain matrix. */
  ghost predicate BlockMatches<T>(block: array<T>, plain: array<T>, dim: nat, bs: nat, i: nat, j: nat)
    requires bs > 0 && IsPlain(plain, dim) && block.Length == bs * bs && i < BlocksPerRow(dim, bs) && j < BlocksPerRow(dim, bs)
    reads block, plain
  {
    forall ii: nat, jj: nat :: ii < bs && jj < bs ==> CellMatches(block, plain, dim, bs, i, j, ii, jj)
  }

  /** The entry of the plain matrix at row ii and column jj of block (i, j). */
  function PlainEntry<T>(plain: array<T>, dim: nat, bs: nat, i: nat, j: nat, ii: nat, jj: nat): T
    requires bs > 0 && plain.Length == dim * dim
    requires i < BlocksPerRow(dim, bs) && j < BlocksPerRow(dim, bs) && ii < bs && jj < bs
    reads plain
  {
    GlobalIndex(dim, bs, i, ii);
    GlobalIndex(dim, bs, j, jj);
    Entry(plain, dim, i * bs + ii, j * bs + jj)
  }

  ghost predicate CellMatches<T>(block: array<T>, plain: array<T>, dim: nat, bs: nat, i: nat, j: nat, ii: nat, jj: nat)
    requires bs > 0 && IsPlain(plain, dim) && block.Length == bs * bs
    requires i < BlocksPerRow(dim, bs) && j < BlocksPerRow(dim, bs) && ii < bs && jj < bs
    reads block, plain
  {
    Entry(block, bs, ii, jj) == PlainEntry(plain, dim, bs, i, j, ii, jj)
  }

  method FillCell<T>(src: array<T>, dim: nat, bs: nat, block: array<T>, i: nat, j: nat, ii: nat, jj: nat)
    requires bs > 0 && IsPlain(src, dim) && block.Length == bs * bs && block != src
    requires i < BlocksPerRow(dim, bs) && j < BlocksPerRow(dim, bs) && ii < bs && jj < bs
    modifies block
    ensures forall r: nat, c: nat :: r < bs && c < bs ==>
      Entry(block, bs, r, c) == if r == ii && c == jj then PlainEntry(src, dim, bs, i, j, ii, jj) else old(Entry(block, bs, r, c))
  {
    var v := PlainEntry(src, dim, bs, i, j, ii, jj);
    SetEntry(block, bs, ii, jj, v);
  }

  method FillBlockRow<T>(src: array<T>, dim: nat, bs: nat, block: array<T>, i: nat, j: nat, ii: nat)
    requires bs > 0 && IsPlain(src, dim) && block.Length == bs * bs && block != src
    requires i < BlocksPerRow(dim, bs) && j < BlocksPerRow(dim, bs) && ii < bs
    requires forall r: nat, c: nat :: r < ii && c < bs ==> CellMatches(block, src, dim, bs, i, j, r, c)
    modifies block
    ensures forall r: nat, c: nat :: r <= ii && c < bs ==> CellMatches(block, src, dim, bs, i, j, r, c)
  {
    for jj := 0 to bs
      invariant forall r: nat, c: nat :: r <= ii && c < bs && (r < ii || c < jj) ==> CellMatches(block, src, dim, bs, i, j, r, c)
    {
      FillCell(src, dim, bs, block, i, j, ii, jj);
    }
  }

  method FillBlock<T>(src: array<T>, dim: nat, bs: nat, block: array<T>, i: nat, j: nat)
    requires bs > 0 && IsPlain(src, dim) && block.Length == bs * bs && block != src
    requires i < BlocksPerRow(dim, bs) && j < BlocksPerRow(dim, bs)
    modifies block
    ensures BlockMatches(block, src, dim, bs, i, j)
  {
    for ii := 0 to bs
      invariant forall r: nat, c: nat :: r < ii && c < bs ==> CellMatches(block, src, dim, bs, i, j, r, c)
    {
      FillBlockRow(src, dim, bs, block, i, j, ii);
    }
  }

  method ConvertToBlockMatrix<T>(src: array<T>, dim: nat, bs: nat, dst: array2<array<T>>)
    requires bs > 0 && IsPlain(src, dim) && IsBlocked(dst, dim, bs) && src !in AllBlocks(dst)
    modifies AllBlocks(dst)
    ensures forall i, j :: 0 <= i < dst.Length0 && 0 <= j < dst.Length1 ==> BlockMatches(dst[i, j], src, dim, bs, i, j)
  {
    for i := 0 to dst.Length0
      invariant forall k, l :: 0 <= k < i && 0 <= l < dst.Length1 ==> BlockMatches(dst[k, l], src, dim, bs, k, l)
    {
      for j := 0 to dst.Length1
        invariant forall k, l :: 0 <= k <= i && 0 <= l < dst.Length1 && (k < i || l < j) ==> BlockMatches(dst[k, l], src, dim, bs, k, l)
      {
        assert dst[i, j] in AllBlocks(dst);
        FillBlock(src, dim, bs, dst[i, j], i, j);
      }
    }
  }

  /** Where entry (row, column) of the plain matrix is in the blocks. */
  ghost function BlockEntry<T>(b: array2<array<T>>, dim: nat, bs: nat, row: nat, column: nat): T
    requires bs > 0 && IsBlocked(b, dim, bs) && row < Covered(dim, bs) && column < Covered(dim, bs)
    reads b, AllBlocks(b)
  {
    BlockIndex(dim, bs, row);
    BlockIndex(dim, bs, column);
    assert b[row / bs, column / bs] in AllBlocks(b);
    Entry(b[row / bs, column / bs], bs, row % bs, column % bs)
  }

  lemma BlockIndex(dim: nat, bs: nat, row: nat)
    requires bs > 0 && row < Covered(dim, bs)
    ensures 0 <= row / bs < BlocksPerRow(dim, bs) && 0 <= row % bs < bs && row / bs * bs + row % bs == row
  {
    Divide(row, bs);
    DigitInRange(row / bs, row % bs, bs, dim / bs);
  }

  lemma BlockOfIndex(bs: nat, i: nat, ii: nat)
    requires ii < bs
    ensures (i * bs + ii) / bs == i && (i * bs + ii) % bs == ii
  {
    UniqueDigits(bs, i, ii);
  }

  /** The plain matrix holds the blocks before position (i, j), in the order of the loops, and row k of that one up to
      column z; the rest is as `before`. */
  predicate Reached(bs: nat, row: nat, column: nat, i: nat, j: nat, k: nat, z: nat)
    requires bs > 0
  {
    || row / bs < i
    || (row / bs == i && column / bs < j)
    || (row / bs == i && column / bs == j && (row % bs < k || (row % bs == k && column % bs < z)))
  }

  ghost predicate PlainSoFar<T>(dst: array<T>, before: seq<T>, b: array2<array<T>>, dim: nat, bs: nat, i: nat, j: nat, k: nat, z: nat)
    requires bs > 0 && IsPlain(dst, dim) && |before| == dim * dim && IsBlocked(b, dim, bs)
    reads dst, b, AllBlocks(b)
  {
    forall row: nat, column: nat :: row < dim && column < dim ==>
      Entry(dst, dim, row, column) ==
        if row < Covered(dim, bs) && column < Covered(dim, bs) && Reached(bs, row, column, i, j, k, z)
        then BlockEntry(b, dim, bs, row, column) else Before(before, dim, row, column)
  }

  function Before<T>(before: seq<T>, dim: nat, row: nat, column: nat): T
    requires |before| == dim * dim && row < dim && column < dim
  {
    DigitInRange(row, column, dim, dim);
    before[row * dim + column]
  }

  method CopyEntry<T>(dst: array<T>, dim: nat, bs: nat, src: array2<array<T>>, i: nat, j: nat, k: nat, z: nat, ghost before: seq<T>)
    requires bs > 0 && IsPlain(dst, dim) && |before| == dim * dim && IsBlocked(src, dim, bs) && dst !in AllBlocks(src)
    requires i < src.Length0 && j < src.Length1 && k < bs && z < bs
    requires PlainSoFar(dst, before, src, dim, bs, i, j, k, z)
    modifies dst
    ensures PlainSoFar(dst, before, src, dim, bs, i, j, k, z + 1)
  {
    GlobalIndex(dim, bs, i, k);
    GlobalIndex(dim, bs, j, z);
    BlockOfIndex(bs, i, k);
    BlockOfIndex(bs, j, z);
    assert src[i, j] in AllBlocks(src);
    SetEntry(dst, dim, i * bs + k, j * bs + z, Entry(src[i, j], bs, k, z));
    forall row: nat, column: nat | row < dim && column < dim
      ensures Entry(dst, dim, row, column) ==
        if row < Covered(dim, bs) && column < Covered(dim, bs) && Reached(bs, row, column, i, j, k, z + 1)
        then BlockEntry(src, dim, bs, row, column) else Before(before, dim, row, column)
    {
      if row < Covered(dim, bs) && column < Covered(dim, bs) {
        BlockIndex(dim, bs, row);
        BlockIndex(dim, bs, column);
      }
    }
  }

  /** Copies the rows of one block into the plain matrix. */
  method CopyBlock<T>(dst: array<T>, dim: nat, bs: nat, src: array2<array<T>>, i: nat, j: nat, ghost before: seq<T>)
    requires bs > 0 && IsPlain(dst, dim) && |before| == dim * dim && IsBlocked(src, dim, bs) && dst !in AllBlocks(src)
    requires i < src.Length0 && j < src.Length1 && PlainSoFar(dst, before, src, dim, bs, i, j, 0, 0)
    modifies dst
    ensures PlainSoFar(dst, before, src, dim, bs, i, j + 1, 0, 0)
  {
    for k := 0 to bs
      invariant PlainSoFar(dst, before, src, dim, bs, i, j, k, 0)
    {
      for z := 0 to bs
        invariant PlainSoFar(dst, before, src, dim, bs, i, j, k, z)
      {
        CopyEntry(dst, dim, bs, src, i, j, k, z, before);
      }
      GoOn(dst, before, src, dim, bs, i, j, k, bs, i, j, k + 1, 0);
    }
    GoOn(dst, before, src, dim, bs, i, j, bs, 0, i, j + 1, 0, 0);
  }

  method ConvertToPlainMatrix<T>(dst: array<T>, dim: nat, bs: nat, src: array2<array<T>>)
    requires bs > 0 && IsPlain(dst, dim) && IsBlocked(src, dim, bs) && dst !in AllBlocks(src)
    modifies dst
    ensures forall row: nat, column: nat :: row < dim && column < dim ==>
      Entry(dst, dim, row, column) ==
        if row < Covered(dim, bs) && column < Covered(dim, bs) then BlockEntry(src, dim, bs, row, column)
        else old(Entry(dst, dim, row, column))
  {
    ghost var before := dst[..];
    NothingCopied(dst, src, dim, bs);
    for i := 0 to src.Length0
      invariant PlainSoFar(dst, before, src, dim, bs, i, 0, 0, 0)
    {
      for j := 0 to src.Length1
        invariant PlainSoFar(dst, before, src, dim, bs, i, j, 0, 0)
      {
        CopyBlock(dst, dim, bs, src, i, j, before);
      }
      GoOn(dst, before, src, dim, bs, i, src.Length1, 0, 0, i + 1, 0, 0, 0);
    }
    EverythingCopied(dst, before, src, dim, bs);
    forall row: nat, column: nat | row < dim && column < dim
      ensures Before(before, dim, row, column) == old(Entry(dst, dim, row, column))
    {
      DigitInRange(row, column, dim, dim);
    }
  }

  lemma NothingCopied<T>(dst: array<T>, b: array2<array<T>>, dim: nat, bs: nat)
    requires bs > 0 && IsPlain(dst, dim) && IsBlocked(b, dim, bs)
    ensures PlainSoFar(dst, dst[..], b, dim, bs, 0, 0, 0, 0)
  {
    forall row: nat, column: nat | row < dim && column < dim
      ensures Entry(dst, dim, row, column) == Before(dst[..], dim, row, column)
    {
      DigitInRange(row, column, dim, dim);
    }
    forall row: nat, column: nat | row < Covered(dim, bs) && column < Covered(dim, bs) ensures !Reached(bs, row, column, 0, 0, 0, 0) {
      BlockIndex(dim, bs, row);
      BlockIndex(dim, bs, column);
    }
  }

  lemma EverythingCopied<T>(dst: array<T>, before: seq<T>, b: array2<array<T>>, dim: nat, bs: nat)
    requires bs > 0 && IsPlain(dst, dim) && |before| == dim * dim && IsBlocked(b, dim, bs)
    requires PlainSoFar(dst, before, b, dim, bs, b.Length0, 0, 0, 0)
    ensures forall row: nat, column: nat :: row < dim && column < dim ==>
      Entry(dst, dim, row, column) ==
        if row < Covered(dim, bs) && column < Covered(dim, bs) then BlockEntry(b, dim, bs, row, column)
        else Before(before, dim, row, column)
  {
    forall row: nat, column: nat | row < Covered(dim, bs) && column < Covered(dim, bs)
      ensures Reached(bs, row, column, b.Length0, 0, 0, 0)
    {
      BlockIndex(dim, bs, row);
    }
  }

  /** The end of a row of a block, of a block, or of a row of blocks is the beginning of the next one. */
  lemma GoOn<T>(dst: array<T>, before: seq<T>, b: array2<array<T>>, dim: nat, bs: nat,
                i: nat, j: nat, k: nat, z: nat, i': nat, j': nat, k': nat, z': nat)
    requires bs > 0 && IsPlain(dst, dim) && |before| == dim * dim && IsBlocked(b, dim, bs)
    requires PlainSoFar(dst, before, b, dim, bs, i, j, k, z)
    requires || (z == bs && (i', j', k', z') == (i, j, k + 1, 0))
             || (k == bs && z == 0 && (i', j', k', z') == (i, j + 1, 0, 0))
             || (j == b.Length1 && k == z == 0 && (i', j', k', z') == (i + 1, 0, 0, 0))
    ensures PlainSoFar(dst, before, b, dim, bs, i', j', k', z')
  {
    forall row: nat, column: nat | row < Covered(dim, bs) && column < Covered(dim, bs)
      ensures Reached(bs, row, column, i, j, k, z) == Reached(bs, row, column, i', j', k', z')
    {
      BlockIndex(dim, bs, row);
      BlockIndex(dim, bs, column);
    }
  }

  // ---------------------------------------------------------------------------------------------------------
  // Round trips
  // ---------------------------------------------------------------------------------------------------------

  /** From a plain matrix to blocks and back: the entries that the blocks cover come back, the others keep what the
      target held. All entries come back if the dimension is a multiple of the block size; if it is not, the last row of
      the target is never written. */
  method PlainRoundTrip<T>(src: array<T>, dim: nat, bs: nat, blocks: array2<array<T>>, dst: array<T>)
    requires bs > 0 && IsPlain(src, dim) && IsPlain(dst, dim) && src != dst && IsBlocked(blocks, dim, bs)
    requires src !in AllBlocks(blocks) && dst !in AllBlocks(blocks)
    modifies AllBlocks(blocks), dst
    ensures forall row: nat, column: nat :: row < dim && column < dim ==>
      Entry(dst, dim, row, column) ==
        if row < Covered(dim, bs) && column < Covered(dim, bs) then Entry(src, dim, row, column)
        else old(Entry(dst, dim, row, column))
    ensures dim % bs == 0 ==> dst[..] == src[..]
    ensures dim % bs != 0 ==> dim > 0 && forall row: nat, column: nat :: row == dim - 1 && column < dim ==>
      Entry(dst, dim, row, column) == old(Entry(dst, dim, row, column))
  {
    ConvertToBlockMatrix(src, dim, bs, blocks);
    ConvertToPlainMatrix(dst, dim, bs, blocks);
    CoveredFits(dim, bs);
    forall row: nat, column: nat | row < Covered(dim, bs) && column < Covered(dim, bs)
      ensures Entry(dst, dim, row, column) == Entry(src, dim, row, column)
    {
      BlockIndex(dim, bs, row);
      BlockIndex(dim, bs, column);
      assert BlockMatches(blocks[row / bs, column / bs], src, dim, bs, row / bs, column / bs);
      assert CellMatches(blocks[row / bs, column / bs], src, dim, bs, row / bs, column / bs, row % bs, column % bs);
    }
    if dim % bs == 0 { SameEntries(dst, src, dim); }
  }

  lemma SameEntries<T>(a: array<T>, b: array<T>, dim: nat)
    requires IsPlain(a, dim) && IsPlain(b, dim)
    requires forall row: nat, column: nat :: row < dim && column < dim ==> Entry(a, dim, row, column) == Entry(b, dim, row, column)
    ensures a[..] == b[..]
  {
    forall n | 0 <= n < a.Length ensures a[n] == b[n] {
      if dim > 0 {
        Divide(n, dim);
        DigitInRange(n / dim, n % dim, dim, dim);
        assert Entry(a, dim, n / dim, n % dim) == Entry(b, dim, n / dim, n % dim);
      }
    }
  }

  /** From blocks to a plain matrix and back: every block comes back, for any dimension. */
  method BlockRoundTrip<T>(blocks: array2<array<T>>, dim: nat, bs: nat, plain: array<T>, again: array2<array<T>>)
    requires bs > 0 && IsPlain(plain, dim) && IsBlocked(blocks, dim, bs) && IsBlocked(again, dim, bs)
    requires plain !in AllBlocks(blocks) && plain !in AllBlocks(again) && AllBlocks(blocks) !! AllBlocks(again)
    modifies plain, AllBlocks(again)
    ensures forall row: nat, column: nat :: row < Covered(dim, bs) && column < Covered(dim, bs) ==>
      BlockEntry(again, dim, bs, row, column) == BlockEntry(blocks, dim, bs, row, column)
  {
    ConvertToPlainMatrix(plain, dim, bs, blocks);
    CoveredFits(dim, bs);
    label Middle:
    ConvertToBlockMatrix(plain, dim, bs, again);
    forall row: nat, column: nat | row < Covered(dim, bs) && column < Covered(dim, bs)
      ensures BlockEntry(again, dim, bs, row, column) == BlockEntry(blocks, dim, bs, row, column)
    {
      BlockIndex(dim, bs, row);
      BlockIndex(dim, bs, column);
      assert BlockMatches(again[row / bs, column / bs], plain, dim, bs, row / bs, column / bs);
      assert CellMatches(again[row / bs, column / bs], plain, dim, bs, row / bs, column / bs, row % bs, column % bs);
    }
  }
}
