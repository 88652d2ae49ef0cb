/** What the sweeps compute: every sweep takes the mean over the cells around a cell. */
module JacobiMean {
  import opened JacobiGrid
  import opened JacobiSweeps
  import opened JacobiRefinement
  import opened JacobiWork
  import opened JacobiFairness
  import opened Fairness
  import Exchange = JacobiProtocol
  import Execution = JacobiExecution

  // ---------------------------------------------------------------------------------------------------------
  // The coordinates that the stencil reads
  // ---------------------------------------------------------------------------------------------------------

  /** Coordinate p is at a distance up to `depth` from q along one axis. */
  predicate Around(q: Vec<int>, depth: nat, p: Vec<int>) {
    || (p.y == q.y && p.z == q.z && q.x - depth <= p.x <= q.x + depth)
    || (p.x == q.x && p.z == q.z && q.y - depth <= p.y <= q.y + depth)
    || (p.x == q.x && p.y == q.y && q.z - depth <= p.z <= q.z + depth)
  }

  /** How far apart two coordinates are, over all axes. */
  function Distance(q: Vec<int>, p: Vec<int>): nat {
    Abs(p.x - q.x) + Abs(p.y - q.y) + Abs(p.z - q.z)
  }

  function Abs(n: int): nat { if n < 0 then -n else n }

  /** The j-th coordinate read at distance d. */
  lemma ReadAt(q: Vec<int>, i: nat, d: nat, j: nat)
    requires d > 0 && j < 6 && i == 1 + 6 * (d - 1) + j
    ensures ReadPoint(q, i) == ShiftPoint(q, Direction(j), d) && Distance(q, ReadPoint(q, i)) == d
  {}

  lemma Directions(q: Vec<int>, d: nat, j: nat, k: nat)
    requires d > 0 && j < 6 && k < 6 && j != k
    ensures ShiftPoint(q, Direction(j), d) != ShiftPoint(q, Direction(k), d)
  {}

  lemma SomeDirection(q: Vec<int>, p: Vec<int>, d: nat) returns (j: nat)
    requires d > 0 && Distance(q, p) == d && Around(q, d, p)
    ensures j < 6 && ShiftPoint(q, Direction(j), d) == p
  {
    j := if p == ShiftPoint(q, Direction(0), d) then 0 else if p == ShiftPoint(q, Direction(1), d) then 1
         else if p == ShiftPoint(q, Direction(2), d) then 2 else if p == ShiftPoint(q, Direction(3), d) then 3
         else if p == ShiftPoint(q, Direction(4), d) then 4 else 5;
  }

  /** The stencil reads no coordinate twice. */
  lemma ReadsOnce(q: Vec<int>, i: nat, k: nat)
    requires i < k
    ensures ReadPoint(q, i) != ReadPoint(q, k)
  {
    var d, j := (k - 1) / 6 + 1, (k - 1) % 6;
    ReadAt(q, k, d, j);
    if i > 0 {
      ReadAt(q, i, (i - 1) / 6 + 1, (i - 1) % 6);
      if (i - 1) / 6 + 1 == d { Directions(q, d, (i - 1) % 6, j); }
    }
  }

  /** It reads exactly those around the cell. */
  lemma ReadsAround(q: Vec<int>, depth: nat, p: Vec<int>)
    ensures Around(q, depth, p) <==> exists i: nat :: i < 1 + 6 * depth && ReadPoint(q, i) == p
  {
    if Around(q, depth, p) {
      if p == q { assert ReadPoint(q, 0) == p; } else {
        var d := Distance(q, p);
        var j := SomeDirection(q, p, d);
        ReadAt(q, 1 + 6 * (d - 1) + j, d, j);
        assert ReadPoint(q, 1 + 6 * (d - 1) + j) == p;
      }
    }
    forall i: nat | i < 1 + 6 * depth && ReadPoint(q, i) == p ensures Around(q, depth, p) {
      if i > 0 { ReadAt(q, i, (i - 1) / 6 + 1, (i - 1) % 6); }
    }
  }

  // ---------------------------------------------------------------------------------------------------------
  // Means
  // ---------------------------------------------------------------------------------------------------------

  /** Cells start at one in the grid and at zero outside, and the update is the mean of the values that the stencil reads. */
  ghost predicate TakesMean(R: Rules<real>, depth: nat) {
    && R.zero == 0.0 && R.one == 1.0
    && forall vs :: |vs| == 1 + 6 * depth ==> IsMean(R.update(vs), vs)
  }

  predicate IsMean(v: real, vs: seq<real>) { v * |vs| as real == Sum(vs) }

  lemma RulesTakeMean(depth: nat)
    ensures TakesMean(JacobiRules(depth), depth)
  {
    forall vs | |vs| == 1 + 6 * depth ensures IsMean(JacobiRules(depth).update(vs), vs) {
      UpdateIsSum(depth, vs);
    }
  }

  /** The values of f at the coordinates that the stencil reads. */
  function ValuesAround<V>(f: Vec<int> -> V, q: Vec<int>, depth: nat): seq<V> {
    seq(1 + 6 * depth, i requires 0 <= i < 1 + 6 * depth => f(ReadPoint(q, i)))
  }

  /** The global grid after `it` sweeps. */
  function Sweep<V>(extent: Vec<int>, depth: nat, R: Rules<V>, it: nat): Vec<int> -> V { p => GlobalValue(extent, depth, R, it, p) }

  /** One sweep more on the global grid gives every cell the mean of the values around it. */
  lemma SweepIsMean(extent: Vec<int>, depth: nat, R: Rules<real>, it: nat, q: Vec<int>)
    requires InExtent(extent, q) && TakesMean(R, depth)
    ensures IsMean(Sweep(extent, depth, R, it + 1)(q), ValuesAround(Sweep(extent, depth, R, it), q, depth))
  {
    var vs := GlobalReads(extent, depth, R, it, q);
    assert IsMean(R.update(vs), vs);
    ReadsAreValues(extent, depth, R, it, q);
  }

  lemma ReadsAreValues<V>(extent: Vec<int>, depth: nat, R: Rules<V>, it: nat, q: Vec<int>)
    ensures GlobalReads(extent, depth, R, it, q) == ValuesAround(Sweep(extent, depth, R, it), q, depth)
  {
  }

  lemma {:induction false} SumBetween(vs: seq<real>)
    requires forall i :: 0 <= i < |vs| ==> 0.0 <= vs[i] <= 1.0
    ensures 0.0 <= Sum(vs) <= |vs| as real
    decreases |vs|
  {
    if vs != [] { SumBetween(vs[..|vs| - 1]); }
  }

  lemma Quotient(x: real, n: real, sum: real)
    requires n > 0.0 && x * n == sum && 0.0 <= sum <= n
    ensures 0.0 <= x <= 1.0
  {
    assert x < 0.0 ==> x * n < 0.0;
    assert x > 1.0 ==> (x - 1.0) * n > 0.0;
  }

  /** No sweep leaves the range of the initial values. */
  lemma {:induction false} SweepsStayBetween(extent: Vec<int>, depth: nat, R: Rules<real>, it: nat, q: Vec<int>)
    requires TakesMean(R, depth)
    ensures 0.0 <= GlobalValue(extent, depth, R, it, q) <= 1.0
    decreases it
  {
    if it > 0 && InExtent(extent, q) {
      var vs := GlobalReads(extent, depth, R, it - 1, q);
      forall i | 0 <= i < |vs| ensures 0.0 <= vs[i] <= 1.0 { SweepsStayBetween(extent, depth, R, it - 1, ReadPoint(q, i)); }
      SumBetween(vs);
      Quotient(R.update(vs), (1 + 6 * depth) as real, Sum(vs));
    }
  }

  // ---------------------------------------------------------------------------------------------------------
  // The buffers at the end
  // ---------------------------------------------------------------------------------------------------------

  /** The buffers of the given parity, all together: at every coordinate what the process holds that owns it, and zero outside the
      grid. */
  function Held(T: Topology, R: Rules<real>, x: Exchange.State<real>, parity: nat): Vec<int> -> real
    requires T.Valid()
  {
    p => if InExtent(Extent(T), p) then Exchange.At(R, x, parity, ProcessOf(Owner(CellAt(T, p))), CellAt(T, p)) else 0.0
  }

  lemma SameAround<V>(f: Vec<int> -> V, g: Vec<int> -> V, q: Vec<int>, depth: nat)
    requires forall p :: f(p) == g(p)
    ensures ValuesAround(f, q, depth) == ValuesAround(g, q, depth)
  {
    var vs, ws := ValuesAround(f, q, depth), ValuesAround(g, q, depth);
    forall i | 0 <= i < |vs| ensures vs[i] == ws[i] { assert f(ReadPoint(q, i)) == g(ReadPoint(q, i)); }
  }

  /** One buffer holds n sweeps of the global grid at coordinate p, the other n - 1. */
  predicate HoldsSweeps(T: Topology, n: nat, R: Rules<real>, x: Exchange.State<real>, p: Vec<int>)
    requires T.Valid() && n > 0
  {
    && Held(T, R, x, n)(p) == Sweep(Extent(T), T.depth, R, n)(p)
    && Held(T, R, x, n + 1)(p) == Sweep(Extent(T), T.depth, R, n - 1)(p)
  }

  lemma SweepsAverage(T: Topology, n: nat, R: Rules<real>, x: Exchange.State<real>, q: Vec<int>)
    requires T.Valid() && n > 0 && TakesMean(R, T.depth) && InExtent(Extent(T), q)
    requires forall p :: HoldsSweeps(T, n, R, x, p)
    ensures IsMean(Held(T, R, x, n)(q), ValuesAround(Held(T, R, x, n + 1), q, T.depth))
  {
    SweepIsMean(Extent(T), T.depth, R, n - 1, q);
    var held, sweep := Held(T, R, x, n + 1), Sweep(Extent(T), T.depth, R, n - 1);
    forall p ensures held(p) == sweep(p) { assert HoldsSweeps(T, n, R, x, p); }
    SameAround(held, sweep, q, T.depth);
    assert HoldsSweeps(T, n, R, x, q);
  }

  lemma InsideHolds(T: Topology, n: nat, R: Rules<real>, x: Exchange.State<real>, p: Vec<int>)
    requires T.Valid() && n > 0 && R.zero == 0.0
    requires InExtent(Extent(T), p) ==> var c := CellAt(T, p);
      && Exchange.At(R, x, n, ProcessOf(Owner(c)), c) == GlobalValue(Extent(T), T.depth, R, n, p)
      && Exchange.At(R, x, n + 1, ProcessOf(Owner(c)), c) == GlobalValue(Extent(T), T.depth, R, n - 1, p)
    ensures HoldsSweeps(T, n, R, x, p)
  {}

  lemma FairExecutionsHold(j: Job<real>, r: Run<Execution.Execution<real>>, cuts: seq<nat>, p: Vec<int>)
    requires FairExecution(j, r, cuts) && |cuts| > RoundsNeeded(j, r.states[0]) && j.n > 0 && j.T.Valid() && j.R.zero == 0.0
    ensures HoldsSweeps(j.T, j.n, j.R, r.Last().x, p)
  {
    if InExtent(Extent(j.T), p) { FairExecutionsSweep(j, r, cuts, p); }
    InsideHolds(j.T, j.n, j.R, r.Last().x, p);
  }

  /** Every fair execution that has come so far ends with one buffer holding at every coordinate the mean of what the other buffer
      holds around it. */
  lemma FairExecutionsAverage(j: Job<real>, r: Run<Execution.Execution<real>>, cuts: seq<nat>, q: Vec<int>)
    requires FairExecution(j, r, cuts) && |cuts| > RoundsNeeded(j, r.states[0]) && InExtent(Extent(j.T), q)
    requires j.R == JacobiRules(j.T.depth) && j.n > 0 && j.T.Valid()
    ensures IsMean(Held(j.T, j.R, r.Last().x, j.n)(q), ValuesAround(Held(j.T, j.R, r.Last().x, j.n + 1), q, j.T.depth))
  {
    RulesTakeMean(j.T.depth);
    forall p ensures HoldsSweeps(j.T, j.n, j.R, r.Last().x, p) { FairExecutionsHold(j, r, cuts, p); }
    SweepsAverage(j.T, j.n, j.R, r.Last().x, q);
  }
}
