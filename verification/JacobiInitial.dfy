/** The reset buffers are the initial state of the halo exchange. */
module JacobiInitial {
  import opened Arithmetic
  import opened JacobiGrid
  import opened JacobiSweeps
  import opened JacobiHalo
  import opened JacobiReset
  import opened JacobiRefinement
  import Topology = JacobiTopology
  import Arrays = JacobiArrays

  function AsPoint(p: Vec<int>): Arrays.Point { Arrays.Point(p.x, p.y, p.z) }

  function ProcessPoint(T: JacobiGrid.Topology): Arrays.Point {
    Arrays.Point(T.sizes.x.pt, T.sizes.y.pt, T.sizes.z.pt)
  }

  lemma PlaceByProcess(z: Sizes, depth: nat, p: int, c: Coord)
    requires Digits(z, c)
    ensures Place(z, depth, p, c) == (c.pos.p - p) * ProcessSize(z) + (c.pos.l * z.ls + c.o) + depth
    ensures 0 <= c.pos.l * z.ls + c.o < ProcessSize(z)
  {
    assert (c.pos.p * z.lt + c.pos.l) * z.ls == c.pos.p * ProcessSize(z) + c.pos.l * z.ls;
    assert (c.pos.p - p) * ProcessSize(z) == c.pos.p * ProcessSize(z) - p * ProcessSize(z);
    DigitInRange(c.pos.l, c.o, z.ls, z.lt);
  }

  /** Along one axis, the coordinates outside the grid are the ghost layers on its boundary. */
  lemma OutsideAlong(z: Sizes, depth: nat, p: int, c: Coord)
    requires Digits(z, c) && depth <= z.ls && 0 <= p < z.pt
    requires 0 <= Place(z, depth, p, c) < ProcessSize(z) + 2 * depth
    ensures !(0 <= c.pos.p < z.pt) <==>
      (p == 0 && Place(z, depth, p, c) < depth) || (p == z.pt - 1 && Place(z, depth, p, c) >= ProcessSize(z) + depth)
  {
    var q, n := c.pos.p - p, ProcessSize(z);
    PlaceByProcess(z, depth, p, c);
    TimesGrows(1, z.lt, z.ls);
    assert z.ls <= n;
    if q <= -2 { TimesGrows(q, -2, n); }
    if q >= 2 { TimesGrows(2, q, n); }
    assert -1 <= q <= 1;
    assert q == -1 ==> q * n == -n;
    assert q == 0 ==> q * n == 0;
    assert q == 1 ==> q * n == n;
  }

  /** A reset buffer holds 1 in the cells of the grid, ghost layers between processes included, and 0 outside the grid:
      what every run of the exchange starts from. */
  lemma ResetIsInitial(T: JacobiGrid.Topology, P: Vec<int>, c: Cell)
    requires T.Valid() && Topology.Within(Topology.ProcessCounts(T), P) && WellFormed(T, c)
    requires Arrays.InBuffer(Buffer(ExtentsOf(T)), PointOf(T, P, c))
    ensures Initial(ExtentsOf(T), ProcessPoint(T), AsPoint(P), PointOf(T, P, c)) == if InDomain(T, c) then 1.0 else 0.0
  {
    OutsideSomewhere(T, P, c, X);
    OutsideSomewhere(T, P, c, Y);
    OutsideSomewhere(T, P, c, Z);
    InDomainByAxis(T, c);
    LayerByAxis(ExtentsOf(T), ProcessPoint(T), AsPoint(P), PointOf(T, P, c));
  }

  /** Coordinate q of process p is in a ghost layer on the boundary, along one axis. */
  predicate BeyondAlong(size: int, depth: nat, pt: int, p: int, q: int) {
    (p == 0 && q < depth) || (p == pt - 1 && q >= size + depth)
  }

  lemma LayerByAxis(e: Extents, pt: Arrays.Point, p: Arrays.Point, q: Arrays.Point)
    ensures Initial(e, pt, p, q) == 0.0 <==>
      || BeyondAlong(Along(e.ps, X), e.depth, Along(pt, X), Along(p, X), Along(q, X))
      || BeyondAlong(Along(e.ps, Y), e.depth, Along(pt, Y), Along(p, Y), Along(q, Y))
      || BeyondAlong(Along(e.ps, Z), e.depth, Along(pt, Z), Along(p, Z), Along(q, Z))
  {}

  lemma OutsideSomewhere(T: JacobiGrid.Topology, P: Vec<int>, c: Cell, a: Axis)
    requires T.Valid() && Topology.Within(Topology.ProcessCounts(T), P) && WellFormed(T, c)
    requires Arrays.InBuffer(Buffer(ExtentsOf(T)), PointOf(T, P, c))
    ensures !(0 <= c.At(a).pos.p < T.sizes.At(a).pt) <==>
      BeyondAlong(Along(ExtentsOf(T).ps, a), T.depth, Along(ProcessPoint(T), a), Along(AsPoint(P), a), Along(PointOf(T, P, c), a))
  {
    assert Digits(T.sizes.At(a), c.At(a)) && T.depth <= T.sizes.At(a).ls;
    assert Along(ExtentsOf(T).ps, a) == ProcessSize(T.sizes.At(a));
    OutsideAlong(T.sizes.At(a), T.depth, Along(AsPoint(P), a), c.At(a));
  }

  lemma InDomainByAxis(T: JacobiGrid.Topology, c: Cell)
    requires WellFormed(T, c)
    ensures InDomain(T, c) <==>
      0 <= c.x.pos.p < T.sizes.x.pt && 0 <= c.y.pos.p < T.sizes.y.pt && 0 <= c.z.pos.p < T.sizes.z.pt
  {
    forall a ensures Owner(c).At(a) == c.At(a).pos && Digits(T.sizes.At(a), c.At(a)) {}
    assert InDomain(T, c) ==> IsPos(T.sizes.At(X), Owner(c).At(X)) && IsPos(T.sizes.At(Y), Owner(c).At(Y)) && IsPos(T.sizes.At(Z), Owner(c).At(Z));
  }
}
