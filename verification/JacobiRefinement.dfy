/** Cells, faces, ghost layers and the stencil in the flat buffers of a process, and in the steps of the halo exchange. */
module JacobiRefinement {
  import opened Arithmetic
  import opened JacobiGrid
  import opened JacobiSweeps
  import opened JacobiProtocol
  import opened JacobiArrays
  import opened JacobiHalo

  // ---------------------------------------------------------------------------------------------------------
  // Cells in the buffer of a process
  // ---------------------------------------------------------------------------------------------------------

  function ProcessSize(z: Sizes): int { z.lt * z.ls }

  /** Where the buffer of process p keeps the cell with coordinate c. */
  function Place(z: Sizes, depth: nat, p: int, c: Coord): int {
    FlatCoord(z, c) - p * ProcessSize(z) + depth
  }

  function PointOf(T: Topology, P: Vec<int>, c: Cell): Point {
    Point(Place(T.sizes.x, T.depth, P.x, c.x), Place(T.sizes.y, T.depth, P.y, c.y), Place(T.sizes.z, T.depth, P.z, c.z))
  }

  function ExtentsOf(T: Topology): Extents {
    Extents(Point(T.sizes.x.ls * T.sizes.x.lt, T.sizes.y.ls * T.sizes.y.lt, T.sizes.z.ls * T.sizes.z.lt),
            Point(T.sizes.x.ls, T.sizes.y.ls, T.sizes.z.ls), T.depth)
  }

  function LocalPoint(s: Subgrid): Point { Point(s.x.l, s.y.l, s.z.l) }

  /** Along one axis the cells of a subgrid are the box from its start, at the same places. */
  lemma PlaceInSubgrid(z: Sizes, depth: nat, i: Pos, c: Coord)
    requires Digits(z, c) && 0 <= i.l < z.lt
    ensures z.ls * i.l + depth <= Place(z, depth, i.p, c) < z.ls * i.l + depth + z.ls <==> c.pos == i
    ensures c.pos == i ==> Place(z, depth, i.p, c) == z.ls * i.l + depth + c.o
  {
    var q := (c.pos.p - i.p) * z.lt + (c.pos.l - i.l);
    PlaceFromStart(z, depth, i, c);
    DigitInRange(q, c.o, z.ls, 1);
    if q == 0 { SameDigits(z.lt, c.pos.p - i.p, c.pos.l, 0, i.l); }
    assert c.pos == i <==> q == 0;
  }

  lemma PlaceFromStart(z: Sizes, depth: nat, i: Pos, c: Coord)
    ensures Place(z, depth, i.p, c) - (z.ls * i.l + depth) == ((c.pos.p - i.p) * z.lt + (c.pos.l - i.l)) * z.ls + c.o
  {
    assert ((c.pos.p - i.p) * z.lt + (c.pos.l - i.l)) * z.ls
        == (c.pos.p * z.lt + c.pos.l) * z.ls - (i.p * z.lt) * z.ls - i.l * z.ls;
  }

  lemma PlaceIn(T: Topology, s: Subgrid, c: Cell, a: Axis)
    requires WellFormed(T, c) && IsSubgrid(T, s)
    ensures var e, l, q := ExtentsOf(T), LocalPoint(s), PointOf(T, ProcessOf(s), c);
      && (Along(Start(e, l), a) <= Along(q, a) < Along(End(e, l), a) <==> c.At(a).pos == s.At(a))
      && (c.At(a).pos == s.At(a) ==> Along(q, a) == Along(Start(e, l), a) + c.At(a).o)
  {
    assert Digits(T.sizes.At(a), c.At(a)) && IsPos(T.sizes.At(a), s.At(a));
    PlaceInSubgrid(T.sizes.At(a), T.depth, s.At(a), c.At(a));
  }

  /** The cells of a subgrid are the box that its compute task updates. */
  lemma OwnCellsAreBox(T: Topology, s: Subgrid, c: Cell)
    requires WellFormed(T, c) && IsSubgrid(T, s)
    ensures Owns(T, s, c) <==> InBox(Start(ExtentsOf(T), LocalPoint(s)), End(ExtentsOf(T), LocalPoint(s)), PointOf(T, ProcessOf(s), c))
  {
    PlaceIn(T, s, c, X);
    PlaceIn(T, s, c, Y);
    PlaceIn(T, s, c, Z);
    forall a ensures 0 <= c.At(a).o < T.sizes.At(a).ls { assert Digits(T.sizes.At(a), c.At(a)); }
    assert Owner(c) == s <==> c.At(X).pos == s.At(X) && c.At(Y).pos == s.At(Y) && c.At(Z).pos == s.At(Z);
  }

  /** The cells that are sent across a face are those that the pack loops copy. */
  lemma SlabIsFace(T: Topology, s: Subgrid, f: Face, c: Cell)
    requires T.Valid() && WellFormed(T, c) && IsSubgrid(T, s)
    ensures var e, l := ExtentsOf(T), LocalPoint(s);
      InSlab(T, s, f, c) <==> InBox(PackBase(e, l, f), FaceEnd(f.axis, PackBase(e, l, f), e.ls, e.depth), PointOf(T, ProcessOf(s), c))
  {
    OwnCellsAreBox(T, s, c);
    PlaceIn(T, s, c, f.axis);
    assert T.depth <= T.sizes.At(f.axis).ls;
  }

  /** The ghost cells of a port are those that the unpack loops fill. */
  lemma GhostIsFace(T: Topology, p: Port, c: Cell)
    requires T.Valid() && WellFormed(T, c) && IsPort(T, p)
    ensures InGhost(T, p.s, p.f, c) <==> IsGhost(ExtentsOf(T), LocalPoint(p.s), p.f, PointOf(T, ProcessOf(p.s), c))
  {
    var e, n, lt := ExtentsOf(T), Neighbor(T, p.s, p.f), LocalCounts(T);
    NeighborBack(T, p.s, p.f);
    SlabIsFace(T, n, Opposite(p.f), c);
    AtEndOfProcess(T, p);
    FacesMeet(e, lt, LocalPoint(p.s), p.f);
    TwinOfPoint(T, p, c);
    TwinInBox(e, p.f, UnpackBase(e, LocalPoint(p.s), p.f), PointOf(T, ProcessOf(p.s), c));
  }

  function LocalCounts(T: Topology): Point { Point(T.sizes.x.lt, T.sizes.y.lt, T.sizes.z.lt) }

  lemma AtEndOfProcess(T: Topology, p: Port)
    requires T.Valid() && IsPort(T, p)
    ensures Valid(ExtentsOf(T), LocalCounts(T)) && AtEnd(LocalCounts(T), LocalPoint(p.s), p.f)
    ensures FacingSubgrid(LocalCounts(T), LocalPoint(p.s), p.f) == LocalPoint(Neighbor(T, p.s, p.f))
  {
    assert IsPos(T.sizes.At(X), p.s.At(X)) && IsPos(T.sizes.At(Y), p.s.At(Y)) && IsPos(T.sizes.At(Z), p.s.At(Z));
    assert T.sizes.At(X).lt > 0 && T.sizes.At(Y).lt > 0 && T.sizes.At(Z).lt > 0;
    assert T.depth <= T.sizes.At(X).ls && T.depth <= T.sizes.At(Y).ls && T.depth <= T.sizes.At(Z).ls;
  }

  lemma TwinInBox(e: Extents, f: Face, base: Point, q: Point)
    ensures InBox(base, FaceEnd(f.axis, base, e.ls, e.depth), q) <==>
            InBox(Twin(e, f, base), FaceEnd(f.axis, Twin(e, f, base), e.ls, e.depth), Twin(e, f, q))
  {}

  lemma PlaceInNext(z: Sizes, depth: nat, p: int, c: Coord)
    ensures Place(z, depth, p + 1, c) == Place(z, depth, p, c) - ProcessSize(z)
    ensures Place(z, depth, p - 1, c) == Place(z, depth, p, c) + ProcessSize(z)
  {
    assert (p + 1) * ProcessSize(z) == p * ProcessSize(z) + ProcessSize(z);
    assert (p - 1) * ProcessSize(z) == p * ProcessSize(z) - ProcessSize(z);
  }

  /** The same cell in the buffers of two neighbouring processes. */
  lemma TwinOfPoint(T: Topology, p: Port, c: Cell)
    requires IsPort(T, p)
    ensures PointOf(T, ProcessOf(Neighbor(T, p.s, p.f)), c) == Twin(ExtentsOf(T), p.f, PointOf(T, ProcessOf(p.s), c))
  {
    match p.f.axis
    case X => PlaceInNext(T.sizes.x, T.depth, p.s.x.p, c.x); TwinAlong(T, p, X);
    case Y => PlaceInNext(T.sizes.y, T.depth, p.s.y.p, c.y); TwinAlong(T, p, Y);
    case Z => PlaceInNext(T.sizes.z, T.depth, p.s.z.p, c.z); TwinAlong(T, p, Z);
  }

  lemma TwinAlong(T: Topology, p: Port, a: Axis)
    requires IsPort(T, p) && a == p.f.axis
    ensures Along(ExtentsOf(T).ps, a) == ProcessSize(T.sizes.At(a))
    ensures ProcessOf(Neighbor(T, p.s, p.f)) == ProcessOf(p.s).With(a, p.s.At(a).p + if p.f.high then 1 else -1)
  {}

  // ---------------------------------------------------------------------------------------------------------
  // The stencil
  // ---------------------------------------------------------------------------------------------------------

  function Sum(vs: seq<real>): real {
    if vs == [] then 0.0 else Sum(vs[..|vs| - 1]) + vs[|vs| - 1]
  }

  /** The iteration on real numbers: the mean of the cells of the stencil, with the inverse of their number. */
  function JacobiRules(depth: nat): Rules<real> {
    Rules(0.0, 1.0, vs => Mean(Sum(vs), depth))
  }

  /** Buffer a of process P holds what state x says about the buffer of the given parity. */
  ghost predicate Holds(T: Topology, a: array<real>, P: Vec<int>, x: State<real>, parity: nat)
    requires IsBuffer(a, Buffer(ExtentsOf(T)))
    reads a
  {
    forall c :: HoldsCell(T, a, Buffer(ExtentsOf(T)), P, x, parity, c)
  }

  ghost predicate HoldsCell(T: Topology, a: array<real>, fs: Point, P: Vec<int>, x: State<real>, parity: nat, c: Cell)
    requires IsBuffer(a, fs)
    reads a
  {
    WellFormed(T, c) && InBuffer(fs, PointOf(T, P, c)) ==>
      Get(a, fs, PointOf(T, P, c)) == At(JacobiRules(T.depth), x, parity, P, c)
  }

  function Toward(q: Point, f: Face, d: nat): Point {
    WithAlong(q, f.axis, if f.high then Along(q, f.axis) + d else Along(q, f.axis) - d)
  }

  lemma PointShifts(T: Topology, P: Vec<int>, c: Cell, f: Face, d: nat)
    requires T.Valid() && WellFormed(T, c) && d <= T.depth
    ensures WellFormed(T, Shift(T, c, f, d))
    ensures PointOf(T, P, Shift(T, c, f, d)) == Toward(PointOf(T, P, c), f, d)
  {
    assert Digits(T.sizes.At(f.axis), c.At(f.axis)) && T.depth <= T.sizes.At(f.axis).ls;
    ShiftCoordIsFlat(T.sizes.At(f.axis), c.At(f.axis), d, f.high);
    ShiftIsFlat(T, c, f, d);
  }

  predicate RoomAround(T: Topology, q: Point, d: nat) {
    Fits(Buffer(ExtentsOf(T)), q, Point(q.x + 1, q.y + 1, q.z + 1), d)
  }

  /** The value read at distance d in the j-th direction. */
  predicate ReadOk(a: array<real>, fs: Point, q: Point, vs: seq<real>, d: nat, j: nat)
    requires IsBuffer(a, fs)
    reads a
  {
    && d > 0
    && 1 + 6 * (d - 1) + j < |vs|
    && InBuffer(fs, Toward(q, Direction(j), d))
    && Get(a, fs, Toward(q, Direction(j), d)) == vs[1 + 6 * (d - 1) + j]
  }

  lemma RoomToward(fs: Point, q: Point, depth: nat, f: Face, d: nat)
    requires Fits(fs, q, Point(q.x + 1, q.y + 1, q.z + 1), depth) && d <= depth
    ensures InBuffer(fs, Toward(q, f, d))
  {}

  lemma HoldsAt(T: Topology, a: array<real>, fs: Point, P: Vec<int>, x: State<real>, k: nat, c: Cell)
    requires fs == Buffer(ExtentsOf(T)) && IsBuffer(a, fs) && Holds(T, a, P, x, k) && WellFormed(T, c) && InBuffer(fs, PointOf(T, P, c))
    ensures Get(a, fs, PointOf(T, P, c)) == At(JacobiRules(T.depth), x, k, P, c)
  {
    assert HoldsCell(T, a, fs, P, x, k, c);
  }

  lemma ReadIndex(T: Topology, c: Cell, d: nat, j: nat)
    requires 0 < d && j < 6
    ensures Read(T, c, 1 + 6 * (d - 1) + j) == Shift(T, c, Direction(j), d)
  {}

  lemma OneRead(T: Topology, a: array<real>, fs: Point, x: State<real>, k: nat, c: Cell, d: nat, j: nat)
    requires T.Valid() && fs == Buffer(ExtentsOf(T)) && IsBuffer(a, fs) && Holds(T, a, ProcessOf(Owner(c)), x, k) && WellFormed(T, c)
    requires RoomAround(T, PointOf(T, ProcessOf(Owner(c)), c), T.depth) && 0 < d <= T.depth && j < 6
    ensures ReadOk(a, fs, PointOf(T, ProcessOf(Owner(c)), c), StencilReads(T, JacobiRules(T.depth), x, k, c), d, j)
  {
    var P, q := ProcessOf(Owner(c)), PointOf(T, ProcessOf(Owner(c)), c);
    ReadIndex(T, c, d, j);
    PointShifts(T, P, c, Direction(j), d);
    RoomToward(fs, q, T.depth, Direction(j), d);
    HoldsAt(T, a, fs, P, x, k, Shift(T, c, Direction(j), d));
    assert StencilReads(T, JacobiRules(T.depth), x, k, c)[1 + 6 * (d - 1) + j] == At(JacobiRules(T.depth), x, k, P, Read(T, c, 1 + 6 * (d - 1) + j));
  }

  /** One round of the loop over distances adds the next six values. */
  lemma StarStep(a: array<real>, fs: Point, q: Point, vs: seq<real>, d: nat)
    requires IsBuffer(a, fs) && d > 0 && Fits(fs, q, Point(q.x + 1, q.y + 1, q.z + 1), d) && 1 + 6 * d <= |vs|
    requires StarSum(a, fs, q, d - 1) == Sum(vs[..1 + 6 * (d - 1)])
    requires ReadOk(a, fs, q, vs, d, 0) && ReadOk(a, fs, q, vs, d, 1) && ReadOk(a, fs, q, vs, d, 2)
    requires ReadOk(a, fs, q, vs, d, 3) && ReadOk(a, fs, q, vs, d, 4) && ReadOk(a, fs, q, vs, d, 5)
    ensures StarSum(a, fs, q, d) == Sum(vs[..1 + 6 * d])
  {
    SixMore(vs, 1 + 6 * (d - 1));
  }

  ghost predicate ReadsOk(a: array<real>, fs: Point, q: Point, vs: seq<real>, depth: nat)
    requires IsBuffer(a, fs)
    reads a
  {
    && InBuffer(fs, q) && |vs| > 0 && vs[0] == Get(a, fs, q)
    && forall d, j :: 0 < d <= depth && j < 6 ==> ReadOk(a, fs, q, vs, d, j)
  }

  /** The sum accumulated over the distances is the sum of the values in the order of the stencil. */
  lemma {:induction false} StarIsSum(a: array<real>, fs: Point, q: Point, vs: seq<real>, d: nat)
    requires IsBuffer(a, fs) && Fits(fs, q, Point(q.x + 1, q.y + 1, q.z + 1), d) && 1 + 6 * d <= |vs|
    requires InBuffer(fs, q) && ReadsOk(a, fs, q, vs, d)
    ensures StarSum(a, fs, q, d) == Sum(vs[..1 + 6 * d])
    decreases d
  {
    if d == 0 {
      assert vs[..1] == [vs[0]];
      assert [vs[0]][..0] == [];
    } else {
      StarIsSum(a, fs, q, vs, d - 1);
      assert ReadOk(a, fs, q, vs, d, 0) && ReadOk(a, fs, q, vs, d, 1) && ReadOk(a, fs, q, vs, d, 2);
      assert ReadOk(a, fs, q, vs, d, 3) && ReadOk(a, fs, q, vs, d, 4) && ReadOk(a, fs, q, vs, d, 5);
      StarStep(a, fs, q, vs, d);
    }
  }

  lemma SixMore(vs: seq<real>, n: nat)
    requires n + 6 <= |vs|
    ensures Sum(vs[..n + 6]) == Sum(vs[..n]) + vs[n] + vs[n + 1] + vs[n + 2] + vs[n + 3] + vs[n + 4] + vs[n + 5]
  {
    OneMore(vs, n);
    OneMore(vs, n + 1);
    OneMore(vs, n + 2);
    OneMore(vs, n + 3);
    OneMore(vs, n + 4);
    OneMore(vs, n + 5);
  }

  lemma OneMore(vs: seq<real>, n: nat)
    requires n < |vs|
    ensures Sum(vs[..n + 1]) == Sum(vs[..n]) + vs[n]
  {
    assert vs[..n + 1][..n] == vs[..n];
  }

  lemma UpdateIsSum(depth: nat, vs: seq<real>)
    ensures JacobiRules(depth).update(vs) == Mean(Sum(vs), depth)
  {}

  lemma WholeSequence<E>(vs: seq<E>)
    ensures vs[..|vs|] == vs
  {}

  lemma StarOfReads(a: array<real>, fs: Point, q: Point, vs: seq<real>, depth: nat)
    requires IsBuffer(a, fs) && Fits(fs, q, Point(q.x + 1, q.y + 1, q.z + 1), depth)
    requires ReadsOk(a, fs, q, vs, depth) && |vs| == 1 + 6 * depth
    ensures StarSum(a, fs, q, depth) == Sum(vs)
  {
    StarIsSum(a, fs, q, vs, depth);
    WholeSequence(vs);
  }

  lemma StencilOfSum(a: array<real>, fs: Point, q: Point, vs: seq<real>, depth: nat)
    requires IsBuffer(a, fs) && Fits(fs, q, Point(q.x + 1, q.y + 1, q.z + 1), depth)
    requires StarSum(a, fs, q, depth) == Sum(vs)
    ensures Stencil(a, fs, depth, q) == JacobiRules(depth).update(vs)
  {
    UpdateIsSum(depth, vs);
  }

  lemma StencilOfReads(a: array<real>, fs: Point, q: Point, vs: seq<real>, depth: nat)
    requires IsBuffer(a, fs) && Fits(fs, q, Point(q.x + 1, q.y + 1, q.z + 1), depth)
    requires ReadsOk(a, fs, q, vs, depth) && |vs| == 1 + 6 * depth
    ensures Stencil(a, fs, depth, q) == JacobiRules(depth).update(vs)
  {
    StarOfReads(a, fs, q, vs, depth);
    StencilOfSum(a, fs, q, vs, depth);
  }

  /** What the compute loops write into a cell is what the exchange's step writes. */
  lemma StencilIsUpdate(T: Topology, a: array<real>, x: State<real>, k: nat, c: Cell)
    requires T.Valid() && IsBuffer(a, Buffer(ExtentsOf(T))) && InDomain(T, c) && Holds(T, a, ProcessOf(Owner(c)), x, k)
    ensures RoomAround(T, PointOf(T, ProcessOf(Owner(c)), c), T.depth)
    ensures Stencil(a, Buffer(ExtentsOf(T)), T.depth, PointOf(T, ProcessOf(Owner(c)), c))
         == JacobiRules(T.depth).update(StencilReads(T, JacobiRules(T.depth), x, k, c))
  {
    WellFormedInDomain(T, c);
    RoomInProcess(T, c);
    AllReads(T, a, x, k, c);
    StencilOfReads(a, Buffer(ExtentsOf(T)), PointOf(T, ProcessOf(Owner(c)), c), StencilReads(T, JacobiRules(T.depth), x, k, c), T.depth);
  }

  lemma WellFormedInDomain(T: Topology, c: Cell)
    requires InDomain(T, c)
    ensures WellFormed(T, c)
  {
    forall b ensures Digits(T.sizes.At(b), c.At(b)) { assert IsPos(T.sizes.At(b), Owner(c).At(b)); }
  }

  lemma FirstRead(T: Topology, a: array<real>, fs: Point, x: State<real>, k: nat, c: Cell)
    requires fs == Buffer(ExtentsOf(T)) && IsBuffer(a, fs) && WellFormed(T, c) && Holds(T, a, ProcessOf(Owner(c)), x, k)
    requires InBuffer(fs, PointOf(T, ProcessOf(Owner(c)), c))
    ensures StencilReads(T, JacobiRules(T.depth), x, k, c)[0] == Get(a, fs, PointOf(T, ProcessOf(Owner(c)), c))
  {
    HoldsAt(T, a, fs, ProcessOf(Owner(c)), x, k, c);
    assert Read(T, c, 0) == c;
  }

  lemma AllReads(T: Topology, a: array<real>, x: State<real>, k: nat, c: Cell)
    requires T.Valid() && IsBuffer(a, Buffer(ExtentsOf(T))) && WellFormed(T, c) && Holds(T, a, ProcessOf(Owner(c)), x, k)
    requires RoomAround(T, PointOf(T, ProcessOf(Owner(c)), c), T.depth)
    ensures ReadsOk(a, Buffer(ExtentsOf(T)), PointOf(T, ProcessOf(Owner(c)), c), StencilReads(T, JacobiRules(T.depth), x, k, c), T.depth)
  {
    var fs, q, vs := Buffer(ExtentsOf(T)), PointOf(T, ProcessOf(Owner(c)), c), StencilReads(T, JacobiRules(T.depth), x, k, c);
    FirstRead(T, a, fs, x, k, c);
    forall d: nat, j: nat | 0 < d <= T.depth && j < 6 ensures ReadOk(a, fs, q, vs, d, j) {
      OneRead(T, a, fs, x, k, c, d, j);
    }
  }

  lemma RoomInProcess(T: Topology, c: Cell)
    requires T.Valid() && InDomain(T, c) && WellFormed(T, c)
    ensures RoomAround(T, PointOf(T, ProcessOf(Owner(c)), c), T.depth)
  {
    var s := Owner(c);
    OwnCellsAreBox(T, s, c);
    assert IsPos(T.sizes.At(X), s.At(X)) && IsPos(T.sizes.At(Y), s.At(Y)) && IsPos(T.sizes.At(Z), s.At(Z));
    SubgridInProcess(T.sizes.x.ls, s.x.l, T.sizes.x.lt);
    SubgridInProcess(T.sizes.y.ls, s.y.l, T.sizes.y.lt);
    SubgridInProcess(T.sizes.z.ls, s.z.l, T.sizes.z.lt);
  }
}
