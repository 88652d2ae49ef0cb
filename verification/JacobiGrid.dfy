/**
The decomposed grid. Along every axis a cell is numbered by its process, its subgrid inside the process and its place
inside the subgrid; processes and subgrids at an end of an axis are wrapped as in the neighbour tables of the grid.
*/
module JacobiGrid {

  datatype Axis = X | Y | Z

  /** A value for every axis. */
  datatype Vec<T> = Vec(x: T, y: T, z: T) {
    function At(a: Axis): T {
      match a case X => x case Y => y case Z => z
    }

    function With(a: Axis, v: T): Vec<T> {
      match a case X => this.(x := v) case Y => this.(y := v) case Z => this.(z := v)
    }
  }

  /** X0 is Face(X, false), X1 is Face(X, true), and so on. */
  datatype Face = Face(axis: Axis, high: bool)

  function Opposite(f: Face): Face { f.(high := !f.high) }

  /** The order in which tasks go through the faces: X0, X1, Y0, Y1, Z0, Z1. */
  function FaceIndex(f: Face): nat {
    (match f.axis case X => 0 case Y => 2 case Z => 4) + if f.high then 1 else 0
  }

  /** A subgrid along one axis: process and position inside the process. */
  datatype Pos = Pos(p: int, l: int)

  /** A cell along one axis: its subgrid and its place inside the subgrid. */
  datatype Coord = Coord(pos: Pos, o: int)

  type Subgrid = Vec<Pos>
  type Cell = Vec<Coord>

  /** Processes, subgrids per process and cells per subgrid along one axis. */
  datatype Sizes = Sizes(pt: nat, lt: nat, ls: nat)

  /** The sizes along every axis and the depth of the ghost layers. */
  datatype Topology = Topology(sizes: Vec<Sizes>, depth: nat) {
    predicate Valid() {
      forall a :: sizes.At(a).pt > 0 && sizes.At(a).lt > 0 && depth <= sizes.At(a).ls && sizes.At(a).ls > 0
    }
  }

  datatype Kind = BOUNDARY | LOCAL | REMOTE

  // ---------------------------------------------------------------------------------------------------------
  // Subgrids and their neighbours
  // ---------------------------------------------------------------------------------------------------------

  predicate IsPos(z: Sizes, i: Pos) { 0 <= i.p < z.pt && 0 <= i.l < z.lt }

  predicate IsSubgrid(T: Topology, s: Subgrid) {
    forall a :: IsPos(T.sizes.At(a), s.At(a))
  }

  function NextPos(z: Sizes, i: Pos, high: bool): Pos {
    if high then
      if i.l + 1 == z.lt then Pos(i.p + 1, 0) else Pos(i.p, i.l + 1)
    else
      if i.l == 0 then Pos(i.p - 1, z.lt - 1) else Pos(i.p, i.l - 1)
  }

  function Neighbor(T: Topology, s: Subgrid, f: Face): Subgrid {
    s.With(f.axis, NextPos(T.sizes.At(f.axis), s.At(f.axis), f.high))
  }

  function KindOf(T: Topology, s: Subgrid, f: Face): Kind {
    var next := NextPos(T.sizes.At(f.axis), s.At(f.axis), f.high);
    if !(0 <= next.p < T.sizes.At(f.axis).pt) then BOUNDARY
    else if next.p == s.At(f.axis).p then LOCAL
    else REMOTE
  }

  function ProcessOf(s: Subgrid): Vec<int> { Vec(s.x.p, s.y.p, s.z.p) }

  /** A neighbour's neighbour across the facing face is the subgrid itself, of the same kind. */
  lemma NeighborBack(T: Topology, s: Subgrid, f: Face)
    requires T.Valid() && IsSubgrid(T, s) && KindOf(T, s, f) != BOUNDARY
    ensures IsSubgrid(T, Neighbor(T, s, f))
    ensures Neighbor(T, Neighbor(T, s, f), Opposite(f)) == s
    ensures KindOf(T, Neighbor(T, s, f), Opposite(f)) == KindOf(T, s, f)
  {
    var n := Neighbor(T, s, f);
    assert IsPos(T.sizes.At(f.axis), s.At(f.axis));
    forall a ensures IsPos(T.sizes.At(a), n.At(a)) { assert IsPos(T.sizes.At(a), s.At(a)); }
  }

  lemma SameProcess(T: Topology, s: Subgrid, f: Face)
    requires T.Valid() && IsSubgrid(T, s) && KindOf(T, s, f) != BOUNDARY
    ensures KindOf(T, s, f) == LOCAL <==> ProcessOf(Neighbor(T, s, f)) == ProcessOf(s)
  {}

  // ---------------------------------------------------------------------------------------------------------
  // Cells
  // ---------------------------------------------------------------------------------------------------------

  function Owner(c: Cell): Subgrid { Vec(c.x.pos, c.y.pos, c.z.pos) }

  /** The cells of subgrid s. */
  predicate Owns(T: Topology, s: Subgrid, c: Cell) {
    Owner(c) == s && forall a :: 0 <= c.At(a).o < T.sizes.At(a).ls
  }

  predicate InDomain(T: Topology, c: Cell) {
    IsSubgrid(T, Owner(c)) && Owns(T, Owner(c), c)
  }

  /** The cells of subgrid s within the ghost depth of its face f. */
  predicate InSlab(T: Topology, s: Subgrid, f: Face, c: Cell) {
    && Owns(T, s, c)
    && if f.high then T.sizes.At(f.axis).ls - T.depth <= c.At(f.axis).o else c.At(f.axis).o < T.depth
  }

  /** The ghost cells of subgrid s beyond its face f: the neighbour's cells along the facing face. */
  predicate InGhost(T: Topology, s: Subgrid, f: Face, c: Cell) {
    InSlab(T, Neighbor(T, s, f), Opposite(f), c)
  }

  /** The cell d places further in the direction of face f, for d up to the width of a subgrid. */
  function ShiftCoord(z: Sizes, c: Coord, d: nat, high: bool): Coord {
    var o := if high then c.o + d else c.o - d;
    if 0 <= o < z.ls then Coord(c.pos, o)
    else Coord(NextPos(z, c.pos, high), if high then o - z.ls else o + z.ls)
  }

  function Shift(T: Topology, c: Cell, f: Face, d: nat): Cell {
    c.With(f.axis, ShiftCoord(T.sizes.At(f.axis), c.At(f.axis), d, f.high))
  }

  /** How many cells the stencil reads. */
  function Reads(T: Topology): nat { 1 + 6 * T.depth }

  /** The order of the six directions in the stencil's loop. */
  function Direction(i: nat): Face {
    if i == 0 then Face(Z, false) else if i == 1 then Face(Z, true)
    else if i == 2 then Face(X, false) else if i == 3 then Face(X, true)
    else if i == 4 then Face(Y, true) else Face(Y, false)
  }

  /** The i-th cell that the stencil around c reads. */
  function Read(T: Topology, c: Cell, i: nat): Cell {
    if i == 0 then c else Shift(T, c, Direction((i - 1) % 6), (i - 1) / 6 + 1)
  }

  /** A cell the stencil reads is in the same subgrid, in a ghost layer of it, or outside the domain. */
  lemma ShiftStays(T: Topology, c: Cell, f: Face, d: nat)
    requires T.Valid() && InDomain(T, c) && d <= T.depth
    ensures var s, r := Owner(c), Shift(T, c, f, d);
      || Owns(T, s, r)
      || (KindOf(T, s, f) == BOUNDARY && !InDomain(T, r))
      || (KindOf(T, s, f) != BOUNDARY && InGhost(T, s, f, r) && InDomain(T, r))
  {
    var s, r, z := Owner(c), Shift(T, c, f, d), T.sizes.At(f.axis);
    assert forall a :: c.At(a).pos == s.At(a);
    forall a | a != f.axis ensures r.At(a) == c.At(a) {}
    var o := if f.high then c.At(f.axis).o + d else c.At(f.axis).o - d;
    assert 0 <= c.At(f.axis).o < z.ls && IsPos(z, s.At(f.axis));
    if 0 <= o < z.ls {
      assert Owner(r) == s;
      assert Owns(T, s, r);
    } else if KindOf(T, s, f) == BOUNDARY {
      assert Owner(r).At(f.axis) == NextPos(z, s.At(f.axis), f.high);
      assert !IsPos(z, Owner(r).At(f.axis));
    } else {
      assert Owner(r) == Neighbor(T, s, f);
      NeighborBack(T, s, f);
      assert Owns(T, Neighbor(T, s, f), r);
      assert InGhost(T, s, f, r);
    }
  }

  lemma ReadStays(T: Topology, c: Cell, i: nat)
    requires T.Valid() && InDomain(T, c) && i < Reads(T)
    ensures var s, r := Owner(c), Read(T, c, i);
      || Owns(T, s, r)
      || !InDomain(T, r)
      || (InDomain(T, r) && exists f :: KindOf(T, s, f) != BOUNDARY && InGhost(T, s, f, r))
  {
    if i > 0 { ShiftStays(T, c, Direction((i - 1) % 6), (i - 1) / 6 + 1); }
  }

  // ---------------------------------------------------------------------------------------------------------
  // Ports: the faces across which a subgrid exchanges messages
  // ---------------------------------------------------------------------------------------------------------

  datatype Port = Port(s: Subgrid, f: Face)

  predicate IsPort(T: Topology, p: Port) {
    IsSubgrid(T, p.s) && KindOf(T, p.s, p.f) == REMOTE
  }

  function Peer(T: Topology, p: Port): Port {
    Port(Neighbor(T, p.s, p.f), Opposite(p.f))
  }

  lemma PeerBack(T: Topology, p: Port)
    requires T.Valid() && IsPort(T, p)
    ensures IsPort(T, Peer(T, p)) && Peer(T, Peer(T, p)) == p
  {
    NeighborBack(T, p.s, p.f);
  }

  /** A ghost cell of a process belongs to one of its ports only, and to no subgrid of the process. */
  lemma GhostIsUnique(T: Topology, p: Port, q: Port, c: Cell)
    requires T.Valid() && IsPort(T, p) && InGhost(T, p.s, p.f, c)
    ensures ProcessOf(Owner(c)) != ProcessOf(p.s) && InDomain(T, c)
    ensures IsPort(T, q) && InGhost(T, q.s, q.f, c) && ProcessOf(q.s) == ProcessOf(p.s) ==> q == p
  {
    NeighborBack(T, p.s, p.f);
    SameProcess(T, p.s, p.f);
    if IsPort(T, q) && InGhost(T, q.s, q.f, c) && ProcessOf(q.s) == ProcessOf(p.s) {
      SameNeighbor(T, p, q);
    }
  }

  lemma SameNeighbor(T: Topology, p: Port, q: Port)
    requires T.Valid() && IsPort(T, p) && IsPort(T, q)
    requires Neighbor(T, p.s, p.f) == Neighbor(T, q.s, q.f) && ProcessOf(q.s) == ProcessOf(p.s)
    ensures p == q
  {
    var a, b := p.f.axis, q.f.axis;
    assert IsPos(T.sizes.At(a), p.s.At(a)) && IsPos(T.sizes.At(b), q.s.At(b));
    assert p.s.At(a).p == q.s.At(a).p && p.s.At(b).p == q.s.At(b).p;
    assert a == b;
    NeighborBack(T, p.s, p.f);
    NeighborBack(T, q.s, q.f);
  }
}
