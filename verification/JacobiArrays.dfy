/**
The loops of one process over its two flat buffers. A buffer holds the process's cells and the ghost layers around
them; the cell (x, y, z) is at index fs.x * fs.y * z + fs.x * y + x.
*/
module JacobiArrays {
  import opened Arithmetic

  const BLOCKZ: nat := 96
  const BLOCKY: nat := 64

  /** A cell of the buffer, or its extent. */
  datatype Point = Point(x: int, y: int, z: int)

  predicate InBuffer(fs: Point, c: Point) {
    0 <= c.x < fs.x && 0 <= c.y < fs.y && 0 <= c.z < fs.z
  }

  function Index(fs: Point, c: Point): int {
    fs.x * fs.y * c.z + fs.x * c.y + c.x
  }

  /** How many cells n layers of m cells each have. */
  function Layers(n: int, m: int): int {
    if n <= 0 then 0 else Layers(n - 1, m) + m
  }

  /** The cells of a buffer: fs.z layers of fs.y rows of fs.x cells. */
  function CellCount(fs: Point): int {
    Layers(fs.z, Layers(fs.y, fs.x))
  }

  lemma {:induction false} LayersIsProduct(n: nat, m: int)
    ensures Layers(n, m) == n * m
    decreases n
  {
    if n > 0 { LayersIsProduct(n - 1, m); }
  }

  lemma CellCountIsProduct(fs: Point)
    requires fs.x >= 0 && fs.y >= 0 && fs.z >= 0
    ensures CellCount(fs) == fs.z * fs.y * fs.x
  {
    LayersIsProduct(fs.y, fs.x);
    LayersIsProduct(fs.z, fs.y * fs.x);
  }

  predicate IsBuffer(a: array<real>, fs: Point) {
    fs.x >= 0 && fs.y >= 0 && fs.z >= 0 && a.Length == CellCount(fs)
  }

  lemma IndexByDigits(fs: Point, c: Point)
    ensures Index(fs, c) == (c.z * fs.y + c.y) * fs.x + c.x
  {}

  lemma IndexInBounds(fs: Point, c: Point)
    requires InBuffer(fs, c)
    ensures 0 <= Index(fs, c) < CellCount(fs)
  {
    IndexByDigits(fs, c);
    CellCountIsProduct(fs);
    DigitInRange(c.z, c.y, fs.y, fs.z);
    DigitInRange(c.z * fs.y + c.y, c.x, fs.x, fs.z * fs.y);
  }

  lemma IndexIsInjective(fs: Point, c: Point, d: Point)
    requires InBuffer(fs, c) && InBuffer(fs, d) && Index(fs, c) == Index(fs, d)
    ensures c == d
  {
    IndexByDigits(fs, c);
    IndexByDigits(fs, d);
    SameDigits(fs.x, c.z * fs.y + c.y, c.x, d.z * fs.y + d.y, d.x);
    SameDigits(fs.y, c.z, c.y, d.z, d.y);
  }

  /** The value of cell c. */
  function Get(a: array<real>, fs: Point, c: Point): real
    requires IsBuffer(a, fs) && InBuffer(fs, c)
    reads a
  {
    IndexInBounds(fs, c);
    a[Index(fs, c)]
  }

  method Set(a: array<real>, fs: Point, c: Point, v: real)
    requires IsBuffer(a, fs) && InBuffer(fs, c)
    modifies a
    ensures forall d :: InBuffer(fs, d) ==> Get(a, fs, d) == if d == c then v else old(Get(a, fs, d))
  {
    IndexInBounds(fs, c);
    a[Index(fs, c)] := v;
    forall d | InBuffer(fs, d) ensures Get(a, fs, d) == if d == c then v else old(Get(a, fs, d)) {
      IndexInBounds(fs, d);
      if d != c && Index(fs, d) == Index(fs, c) { IndexIsInjective(fs, d, c); }
    }
  }

  // ---------------------------------------------------------------------------------------------------------
  // Compute
  // ---------------------------------------------------------------------------------------------------------

  /** The cells of the box from lo up to hi, hi excluded. */
  predicate InBox(lo: Point, hi: Point, c: Point) {
    lo.x <= c.x < hi.x && lo.y <= c.y < hi.y && lo.z <= c.z < hi.z
  }

  /** The box and the cells up to `depth` around it are inside the buffer. */
  predicate Fits(fs: Point, lo: Point, hi: Point, depth: nat) {
    && depth <= lo.x <= hi.x && hi.x + depth <= fs.x
    && depth <= lo.y <= hi.y && hi.y + depth <= fs.y
    && depth <= lo.z <= hi.z && hi.z + depth <= fs.z
  }

  /** The sum over cell c and its neighbours in the six directions, up to distance d, in the order of the loop. */
  function StarSum(a: array<real>, fs: Point, c: Point, d: nat): real
    requires IsBuffer(a, fs) && Fits(fs, c, Point(c.x + 1, c.y + 1, c.z + 1), d)
    reads a
  {
    if d == 0 then Get(a, fs, c)
    else
      StarSum(a, fs, c, d - 1)
      + Get(a, fs, c.(z := c.z - d)) + Get(a, fs, c.(z := c.z + d)) + Get(a, fs, c.(x := c.x - d))
      + Get(a, fs, c.(x := c.x + d)) + Get(a, fs, c.(y := c.y + d)) + Get(a, fs, c.(y := c.y - d))
  }

  /** The stencil of src at cell c. */
  function Stencil(src: array<real>, fs: Point, depth: nat, c: Point): real
    requires IsBuffer(src, fs) && Fits(fs, c, Point(c.x + 1, c.y + 1, c.z + 1), depth)
    reads src
  {
    Mean(StarSum(src, fs, c, depth), depth)
  }

  /** The inverse of the number of cells that the stencil reads. */
  function InvCoeff(depth: nat): (r: real)
    ensures r * (1 + 6 * depth) as real == 1.0
  {
    1.0 / (1 + 6 * depth) as real
  }

  lemma Inverse(sum: real, inv: real, n: real)
    requires inv * n == 1.0
    ensures (sum * inv) * n == sum
  {
    assert (sum * inv) * n == sum * (inv * n);
  }

  function Mean(sum: real, depth: nat): (r: real)
    ensures r * (1 + 6 * depth) as real == sum
  {
    Inverse(sum, InvCoeff(depth), (1 + 6 * depth) as real);
    sum * InvCoeff(depth)
  }

  // The cells that it reads

  /** Cell q is at a distance up to `depth` from c along one axis. */
  predicate OnStar(c: Point, depth: nat, q: Point) {
    || (q.y == c.y && q.z == c.z && c.x - depth <= q.x <= c.x + depth)
    || (q.x == c.x && q.z == c.z && c.y - depth <= q.y <= c.y + depth)
    || (q.x == c.x && q.y == c.y && c.z - depth <= q.z <= c.z + depth)
  }

  /** The six cells at distance d. */
  function Ring(c: Point, d: nat): seq<Point> {
    [c.(z := c.z - d), c.(z := c.z + d), c.(x := c.x - d), c.(x := c.x + d), c.(y := c.y + d), c.(y := c.y - d)]
  }

  /** A list of the cells of the star. */
  function StarCells(c: Point, depth: nat): (s: seq<Point>)
    ensures |s| == 1 + 6 * depth
  {
    if depth == 0 then [c] else StarCells(c, depth - 1) + Ring(c, depth)
  }

  lemma RingIsAround(c: Point, d: nat, q: Point)
    requires d > 0
    ensures OnStar(c, d, q) <==> OnStar(c, d - 1, q) || q in Ring(c, d)
    ensures q in Ring(c, d) ==> !OnStar(c, d - 1, q)
  {}

  lemma {:induction false} InStarCells(c: Point, depth: nat, q: Point)
    ensures q in StarCells(c, depth) <==> OnStar(c, depth, q)
    decreases depth
  {
    if depth > 0 {
      InStarCells(c, depth - 1, q);
      RingIsAround(c, depth, q);
    }
  }

  /** It lists the cells of the star, every cell once. */
  lemma {:induction false} StarCellsOnce(c: Point, depth: nat)
    ensures forall q :: q in StarCells(c, depth) <==> OnStar(c, depth, q)
    ensures forall i, j :: 0 <= i < j < 1 + 6 * depth ==> StarCells(c, depth)[i] != StarCells(c, depth)[j]
    decreases depth
  {
    forall q ensures q in StarCells(c, depth) <==> OnStar(c, depth, q) { InStarCells(c, depth, q); }
    if depth > 0 {
      var inner := StarCells(c, depth - 1);
      StarCellsOnce(c, depth - 1);
      forall i, j | 0 <= i < j < 1 + 6 * depth ensures StarCells(c, depth)[i] != StarCells(c, depth)[j] {
        if i < |inner| <= j {
          assert inner[i] in inner && Ring(c, depth)[j - |inner|] in Ring(c, depth);
          RingIsAround(c, depth, Ring(c, depth)[j - |inner|]);
        }
      }
    }
  }

  /** The sum of the values of the cells. */
  function Total(a: array<real>, fs: Point, cells: seq<Point>): real
    requires IsBuffer(a, fs) && forall q :: q in cells ==> InBuffer(fs, q)
    reads a
  {
    if cells == [] then 0.0 else Total(a, fs, cells[..|cells| - 1]) + Get(a, fs, cells[|cells| - 1])
  }

  lemma OneMoreCell(a: array<real>, fs: Point, cells: seq<Point>, q: Point)
    requires IsBuffer(a, fs) && InBuffer(fs, q) && forall p :: p in cells ==> InBuffer(fs, p)
    ensures forall p :: p in cells + [q] ==> InBuffer(fs, p)
    ensures Total(a, fs, cells + [q]) == Total(a, fs, cells) + Get(a, fs, q)
  {
    assert (cells + [q])[..|cells|] == cells;
  }

  lemma RingTotal(a: array<real>, fs: Point, cells: seq<Point>, c: Point, d: nat)
    requires IsBuffer(a, fs) && Fits(fs, c, Point(c.x + 1, c.y + 1, c.z + 1), d) && forall p :: p in cells ==> InBuffer(fs, p)
    ensures forall p :: p in cells + Ring(c, d) ==> InBuffer(fs, p)
    ensures Total(a, fs, cells + Ring(c, d)) == Total(a, fs, cells)
      + Get(a, fs, c.(z := c.z - d)) + Get(a, fs, c.(z := c.z + d)) + Get(a, fs, c.(x := c.x - d))
      + Get(a, fs, c.(x := c.x + d)) + Get(a, fs, c.(y := c.y + d)) + Get(a, fs, c.(y := c.y - d))
  {
    var r := Ring(c, d);
    var s1 := cells + [r[0]];
    var s2 := s1 + [r[1]];
    var s3 := s2 + [r[2]];
    var s4 := s3 + [r[3]];
    var s5 := s4 + [r[4]];
    OneMoreCell(a, fs, cells, r[0]);
    OneMoreCell(a, fs, s1, r[1]);
    OneMoreCell(a, fs, s2, r[2]);
    OneMoreCell(a, fs, s3, r[3]);
    OneMoreCell(a, fs, s4, r[4]);
    OneMoreCell(a, fs, s5, r[5]);
    assert cells + r == s5 + [r[5]];
  }

  /** The cells of the star are in the buffer. */
  lemma StarFits(fs: Point, c: Point, depth: nat, q: Point)
    requires Fits(fs, c, Point(c.x + 1, c.y + 1, c.z + 1), depth) && OnStar(c, depth, q)
    ensures InBuffer(fs, q)
  {}

  lemma StarInBuffer(fs: Point, c: Point, depth: nat)
    requires Fits(fs, c, Point(c.x + 1, c.y + 1, c.z + 1), depth)
    ensures forall q :: q in StarCells(c, depth) ==> InBuffer(fs, q)
  {
    forall q | q in StarCells(c, depth) ensures InBuffer(fs, q) {
      InStarCells(c, depth, q);
      StarFits(fs, c, depth, q);
    }
  }

  lemma {:induction false} StarIsTotal(a: array<real>, fs: Point, c: Point, d: nat)
    requires IsBuffer(a, fs) && Fits(fs, c, Point(c.x + 1, c.y + 1, c.z + 1), d)
    ensures forall q :: q in StarCells(c, d) ==> InBuffer(fs, q)
    ensures StarSum(a, fs, c, d) == Total(a, fs, StarCells(c, d))
    decreases d
  {
    StarInBuffer(fs, c, d);
    if d > 0 {
      StarIsTotal(a, fs, c, d - 1);
      RingTotal(a, fs, StarCells(c, d - 1), c, d);
    } else {
      assert [c][..0] == [];
    }
  }

  /** The value v of cell c is the mean of those of the star in buffer a. */
  ghost predicate IsMean(a: array<real>, fs: Point, depth: nat, c: Point, v: real)
    requires IsBuffer(a, fs) && Fits(fs, c, Point(c.x + 1, c.y + 1, c.z + 1), depth)
    reads a
  {
    && (forall q :: q in StarCells(c, depth) ==> InBuffer(fs, q))
    && v * (1 + 6 * depth) as real == Total(a, fs, StarCells(c, depth))
  }

  lemma TotalOfMean(depth: nat, sum: real, total: real)
    requires sum == total
    ensures Mean(sum, depth) * (1 + 6 * depth) as real == total
  {}

  lemma StencilIsMean(a: array<real>, fs: Point, depth: nat, c: Point)
    requires IsBuffer(a, fs) && Fits(fs, c, Point(c.x + 1, c.y + 1, c.z + 1), depth)
    ensures IsMean(a, fs, depth, c, Stencil(a, fs, depth, c))
  {
    StarIsTotal(a, fs, c, depth);
    TotalOfMean(depth, StarSum(a, fs, c, depth), Total(a, fs, StarCells(c, depth)));
  }

  lemma {:induction false} ConstantTotal(a: array<real>, fs: Point, cells: seq<Point>, v: real)
    requires IsBuffer(a, fs) && forall q :: q in cells ==> InBuffer(fs, q) && Get(a, fs, q) == v
    ensures Total(a, fs, cells) == v * |cells| as real
    decreases |cells|
  {
    if cells != [] { ConstantTotal(a, fs, cells[..|cells| - 1], v); }
  }

  /** Where the neighbourhood is constant, the mean is that constant. */
  lemma MeanOfConstant(a: array<real>, fs: Point, depth: nat, c: Point, v: real, mean: real)
    requires IsBuffer(a, fs) && Fits(fs, c, Point(c.x + 1, c.y + 1, c.z + 1), depth) && IsMean(a, fs, depth, c, mean)
    requires forall q :: OnStar(c, depth, q) ==> InBuffer(fs, q) && Get(a, fs, q) == v
    ensures mean == v
  {
    StarCellsOnce(c, depth);
    ConstantTotal(a, fs, StarCells(c, depth), v);
    Cancel(mean, v, (1 + 6 * depth) as real);
  }

  lemma Cancel(x: real, y: real, n: real)
    requires n > 0.0 && x * n == y * n
    ensures x == y
  {
    assert (x - y) * n == 0.0;
  }

  method Star(src: array<real>, fs: Point, depth: nat, c: Point) returns (sum: real)
    requires IsBuffer(src, fs) && Fits(fs, c, Point(c.x + 1, c.y + 1, c.z + 1), depth)
    ensures sum == StarSum(src, fs, c, depth)
  {
    sum := Get(src, fs, c);
    for d := 1 to depth + 1
      invariant sum == StarSum(src, fs, c, d - 1)
    {
      sum := sum + Get(src, fs, c.(z := c.z - d));
      sum := sum + Get(src, fs, c.(z := c.z + d));
      sum := sum + Get(src, fs, c.(x := c.x - d));
      sum := sum + Get(src, fs, c.(x := c.x + d));
      sum := sum + Get(src, fs, c.(y := c.y + d));
      sum := sum + Get(src, fs, c.(y := c.y - d));
    }
  }

  /** Updates one cell; `done` collects the cells updated, and no cell may be updated twice. */
  method UpdateCell(src: array<real>, dst: array<real>, fs: Point, depth: nat, c: Point, ghost done: set<Point>)
    returns (ghost done': set<Point>)
    requires src != dst && IsBuffer(src, fs) && IsBuffer(dst, fs) && Fits(fs, c, Point(c.x + 1, c.y + 1, c.z + 1), depth)
    requires c !in done
    modifies dst
    ensures forall d :: InBuffer(fs, d) ==> Get(dst, fs, d) == if d == c then Stencil(src, fs, depth, c) else old(Get(dst, fs, d))
    ensures done' == done + {c}
  {
    var sum := Star(src, fs, depth, c);
    Set(dst, fs, c, Mean(sum, depth));
    done' := done + {c};
  }

  method ComputeRow(src: array<real>, dst: array<real>, fs: Point, depth: nat, lo: Point, hi: Point,
                    k: int, j: int, ghost done: set<Point>)
    returns (ghost done': set<Point>)
    requires src != dst && IsBuffer(src, fs) && IsBuffer(dst, fs) && Fits(fs, lo, hi, depth)
    requires lo.z <= k < hi.z && lo.y <= j < hi.y
    requires forall c :: c in done ==> !(c.z == k && c.y == j)
    modifies dst
    ensures forall c :: InBuffer(fs, c) ==>
      Get(dst, fs, c) == if InBox(lo, hi, c) && c.z == k && c.y == j then Stencil(src, fs, depth, c) else old(Get(dst, fs, c))
    ensures forall c :: c in done' <==> c in done || (InBox(lo, hi, c) && c.z == k && c.y == j)
  {
    done' := done;
    for i := lo.x to hi.x
      invariant forall c :: InBuffer(fs, c) ==>
        Get(dst, fs, c) == if InBox(lo, hi, c) && c.z == k && c.y == j && c.x < i then Stencil(src, fs, depth, c) else old(Get(dst, fs, c))
      invariant forall c :: c in done' <==> c in done || (InBox(lo, hi, c) && c.z == k && c.y == j && c.x < i)
    {
      done' := UpdateCell(src, dst, fs, depth, Point(i, j, k), done');
    }
  }

  /** One tile: the rows with z from k0 up to k1 and y from j0 up to j1. */
  method ComputeTile(src: array<real>, dst: array<real>, fs: Point, depth: nat, lo: Point, hi: Point,
                     k0: int, k1: int, j0: int, j1: int, ghost done: set<Point>)
    returns (ghost done': set<Point>)
    requires src != dst && IsBuffer(src, fs) && IsBuffer(dst, fs) && Fits(fs, lo, hi, depth)
    requires lo.z <= k0 <= k1 <= hi.z && lo.y <= j0 <= j1 <= hi.y
    requires forall c :: c in done ==> !(k0 <= c.z < k1 && j0 <= c.y < j1)
    modifies dst
    ensures forall c :: InBuffer(fs, c) ==>
      Get(dst, fs, c) == if InBox(lo, hi, c) && k0 <= c.z < k1 && j0 <= c.y < j1 then Stencil(src, fs, depth, c) else old(Get(dst, fs, c))
    ensures forall c :: c in done' <==> c in done || (InBox(lo, hi, c) && k0 <= c.z < k1 && j0 <= c.y < j1)
  {
    done' := done;
    for k := k0 to k1
      invariant forall c :: InBuffer(fs, c) ==>
        Get(dst, fs, c) == if InBox(lo, hi, c) && k0 <= c.z < k && j0 <= c.y < j1 then Stencil(src, fs, depth, c) else old(Get(dst, fs, c))
      invariant forall c :: c in done' <==> c in done || (InBox(lo, hi, c) && k0 <= c.z < k && j0 <= c.y < j1)
    {
      for j := j0 to j1
        invariant forall c :: InBuffer(fs, c) ==>
          Get(dst, fs, c) == if InBox(lo, hi, c) && k0 <= c.z <= k && j0 <= c.y < j1 && (c.z < k || c.y < j) then Stencil(src, fs, depth, c) else old(Get(dst, fs, c))
        invariant forall c :: c in done' <==> c in done || (InBox(lo, hi, c) && k0 <= c.z <= k && j0 <= c.y < j1 && (c.z < k || c.y < j))
      {
        done' := ComputeRow(src, dst, fs, depth, lo, hi, k, j, done');
      }
    }
  }

  lemma MeansEverywhere(src: array<real>, dst: array<real>, fs: Point, depth: nat, lo: Point, hi: Point)
    requires IsBuffer(src, fs) && IsBuffer(dst, fs) && Fits(fs, lo, hi, depth)
    requires forall c :: InBox(lo, hi, c) ==> InBuffer(fs, c) && Get(dst, fs, c) == Stencil(src, fs, depth, c)
    ensures forall c :: InBox(lo, hi, c) ==> IsMean(src, fs, depth, c, Get(dst, fs, c))
  {
    forall c | InBox(lo, hi, c) ensures IsMean(src, fs, depth, c, Get(dst, fs, c)) { StencilIsMean(src, fs, depth, c); }
  }

  /** The blocked loops: every cell of the subgrid is updated exactly once, with the stencil of the other buffer, which is the mean
      of the cells around it, and no other cell of the buffer changes. */
  method Compute(src: array<real>, dst: array<real>, fs: Point, depth: nat, lo: Point, hi: Point)
    returns (ghost done: set<Point>)
    requires src != dst && IsBuffer(src, fs) && IsBuffer(dst, fs) && Fits(fs, lo, hi, depth)
    modifies dst
    ensures forall c :: InBuffer(fs, c) ==>
      Get(dst, fs, c) == if InBox(lo, hi, c) then Stencil(src, fs, depth, c) else old(Get(dst, fs, c))
    ensures forall c :: InBox(lo, hi, c) ==> IsMean(src, fs, depth, c, Get(dst, fs, c))
    ensures forall c :: c in done <==> InBox(lo, hi, c)
  {
    done := {};
    var k0 := lo.z;
    while k0 < hi.z
      invariant lo.z <= k0
      invariant forall c :: InBuffer(fs, c) ==>
        Get(dst, fs, c) == if InBox(lo, hi, c) && c.z < k0 then Stencil(src, fs, depth, c) else old(Get(dst, fs, c))
      invariant forall c :: c in done <==> InBox(lo, hi, c) && c.z < k0
    {
      var k1 := if k0 + BLOCKZ < hi.z then k0 + BLOCKZ else hi.z;
      var j0 := lo.y;
      while j0 < hi.y
        invariant lo.y <= j0
        invariant forall c :: InBuffer(fs, c) ==>
          Get(dst, fs, c) == if InBox(lo, hi, c) && c.z < k1 && (c.z < k0 || c.y < j0) then Stencil(src, fs, depth, c) else old(Get(dst, fs, c))
        invariant forall c :: c in done <==> InBox(lo, hi, c) && c.z < k1 && (c.z < k0 || c.y < j0)
      {
        var j1 := if j0 + BLOCKY < hi.y then j0 + BLOCKY else hi.y;
        done := ComputeTile(src, dst, fs, depth, lo, hi, k0, k1, j0, j1, done);
        j0 := j0 + BLOCKY;
      }
      k0 := k0 + BLOCKZ;
    }
    MeansEverywhere(src, dst, fs, depth, lo, hi);
  }
}
