/** Synchronous sweeps of the global grid: what the iteration computes, with the update of a cell left abstract. */
module JacobiSweeps {
  import opened Arithmetic
  import opened JacobiGrid

  /** The values of boundary and initial cells, and the new value of a cell from the values the stencil reads. */
  datatype Rules<!V> = Rules(zero: V, one: V, update: seq<V> -> V)

  /** Cell c after `it` sweeps: outside the domain zero, inside one at first, then the update of its neighbourhood. */
  function Value<V>(T: Topology, R: Rules<V>, it: nat, c: Cell): V
    decreases it, 0
  {
    if !InDomain(T, c) then R.zero
    else if it == 0 then R.one
    else R.update(ReadValues(T, R, it - 1, c))
  }

  /** What the stencil around c reads after `it` sweeps. */
  function ReadValues<V>(T: Topology, R: Rules<V>, it: nat, c: Cell): seq<V>
    decreases it, 1
  {
    seq(Reads(T), i requires 0 <= i < Reads(T) => Value(T, R, it, Read(T, c, i)))
  }

  // ---------------------------------------------------------------------------------------------------------
  // The same sweeps on plain integer coordinates, without processes and subgrids
  // ---------------------------------------------------------------------------------------------------------

  function ShiftPoint(q: Vec<int>, f: Face, d: nat): Vec<int> {
    q.With(f.axis, if f.high then q.At(f.axis) + d else q.At(f.axis) - d)
  }

  function ReadPoint(q: Vec<int>, i: nat): Vec<int> {
    if i == 0 then q else ShiftPoint(q, Direction((i - 1) % 6), (i - 1) / 6 + 1)
  }

  predicate InExtent(extent: Vec<int>, q: Vec<int>) {
    forall a :: 0 <= q.At(a) < extent.At(a)
  }

  function GlobalValue<V>(extent: Vec<int>, depth: nat, R: Rules<V>, it: nat, q: Vec<int>): V
    decreases it, 0
  {
    if !InExtent(extent, q) then R.zero
    else if it == 0 then R.one
    else R.update(GlobalReads(extent, depth, R, it - 1, q))
  }

  function GlobalReads<V>(extent: Vec<int>, depth: nat, R: Rules<V>, it: nat, q: Vec<int>): seq<V>
    decreases it, 1
  {
    seq(1 + 6 * depth, i requires 0 <= i < 1 + 6 * depth => GlobalValue(extent, depth, R, it, ReadPoint(q, i)))
  }

  /** The global coordinate: subgrids in order, processes in order. */
  function FlatCoord(z: Sizes, c: Coord): int {
    (c.pos.p * z.lt + c.pos.l) * z.ls + c.o
  }

  function Flat(T: Topology, c: Cell): Vec<int> {
    Vec(FlatCoord(T.sizes.x, c.x), FlatCoord(T.sizes.y, c.y), FlatCoord(T.sizes.z, c.z))
  }

  function Extent(T: Topology): Vec<int> {
    Vec(T.sizes.x.pt * T.sizes.x.lt * T.sizes.x.ls, T.sizes.y.pt * T.sizes.y.lt * T.sizes.y.ls,
        T.sizes.z.pt * T.sizes.z.lt * T.sizes.z.ls)
  }

  predicate Digits(z: Sizes, c: Coord) { 0 <= c.pos.l < z.lt && 0 <= c.o < z.ls }

  predicate WellFormed(T: Topology, c: Cell) { forall a :: Digits(T.sizes.At(a), c.At(a)) }

  lemma ShiftCoordIsFlat(z: Sizes, c: Coord, d: nat, high: bool)
    requires Digits(z, c) && d <= z.ls
    ensures Digits(z, ShiftCoord(z, c, d, high))
    ensures FlatCoord(z, ShiftCoord(z, c, d, high)) == if high then FlatCoord(z, c) + d else FlatCoord(z, c) - d
  {
    var m := ShiftCoord(z, c, d, high);
    var i, j := c.pos.p * z.lt + c.pos.l, m.pos.p * z.lt + m.pos.l;
    if m.pos != c.pos {
      assert (c.pos.p + 1) * z.lt == c.pos.p * z.lt + z.lt;
      assert (c.pos.p - 1) * z.lt == c.pos.p * z.lt - z.lt;
      assert j == if high then i + 1 else i - 1;
      assert (i + 1) * z.ls == i * z.ls + z.ls;
      assert (i - 1) * z.ls == i * z.ls - z.ls;
    }
  }

  lemma FlatInRange(z: Sizes, c: Coord)
    requires Digits(z, c)
    ensures 0 <= FlatCoord(z, c) < z.pt * z.lt * z.ls <==> 0 <= c.pos.p < z.pt
  {
    DigitInRange(c.pos.p, c.pos.l, z.lt, z.pt);
    DigitInRange(c.pos.p * z.lt + c.pos.l, c.o, z.ls, z.pt * z.lt);
  }

  lemma DomainIsBox(T: Topology, c: Cell)
    requires WellFormed(T, c)
    ensures InDomain(T, c) <==> InExtent(Extent(T), Flat(T, c))
  {
    forall a ensures 0 <= Flat(T, c).At(a) < Extent(T).At(a) <==> IsPos(T.sizes.At(a), c.At(a).pos) {
      assert Digits(T.sizes.At(a), c.At(a));
      FlatInRange(T.sizes.At(a), c.At(a));
    }
    forall a ensures Owner(c).At(a) == c.At(a).pos && 0 <= c.At(a).o < T.sizes.At(a).ls { assert Digits(T.sizes.At(a), c.At(a)); }
  }

  lemma ShiftIsFlat(T: Topology, c: Cell, f: Face, d: nat)
    requires T.Valid() && WellFormed(T, c) && d <= T.depth
    ensures WellFormed(T, Shift(T, c, f, d)) && Flat(T, Shift(T, c, f, d)) == ShiftPoint(Flat(T, c), f, d)
  {
    assert Digits(T.sizes.At(f.axis), c.At(f.axis));
    ShiftCoordIsFlat(T.sizes.At(f.axis), c.At(f.axis), d, f.high);
    forall a ensures Digits(T.sizes.At(a), Shift(T, c, f, d).At(a)) { assert Digits(T.sizes.At(a), c.At(a)); }
  }

  /** The decomposition does not change the values: the sweeps are those of the plain global grid. */
  lemma {:induction false} ValueIsGlobal<V>(T: Topology, R: Rules<V>, it: nat, c: Cell)
    requires T.Valid() && WellFormed(T, c)
    ensures Value(T, R, it, c) == GlobalValue(Extent(T), T.depth, R, it, Flat(T, c))
    decreases it
  {
    DomainIsBox(T, c);
    if it > 0 && InDomain(T, c) {
      forall i | 0 <= i < Reads(T)
        ensures Value(T, R, it - 1, Read(T, c, i)) == GlobalValue(Extent(T), T.depth, R, it - 1, ReadPoint(Flat(T, c), i))
      {
        if i > 0 { ShiftIsFlat(T, c, Direction((i - 1) % 6), (i - 1) / 6 + 1); }
        ValueIsGlobal(T, R, it - 1, Read(T, c, i));
      }
      assert ReadValues(T, R, it - 1, c) == GlobalReads(Extent(T), T.depth, R, it - 1, Flat(T, c));
    }
  }

  /** The cell at a global coordinate. */
  function CellCoord(z: Sizes, q: int): Coord
    requires z.lt > 0 && z.ls > 0
  {
    Coord(Pos(q / z.ls / z.lt, q / z.ls % z.lt), q % z.ls)
  }

  function CellAt(T: Topology, q: Vec<int>): Cell
    requires T.Valid()
  {
    assert forall a :: T.sizes.At(a).lt > 0 && T.sizes.At(a).ls > 0;
    Vec(CellCoord(T.sizes.At(X), q.x), CellCoord(T.sizes.At(Y), q.y), CellCoord(T.sizes.At(Z), q.z))
  }

  lemma CellCoordFlat(z: Sizes, q: int)
    requires z.lt > 0 && z.ls > 0
    ensures Digits(z, CellCoord(z, q)) && FlatCoord(z, CellCoord(z, q)) == q
  {
    Divide(q, z.ls);
    Divide(q / z.ls, z.lt);
  }

  /** Every global coordinate is the coordinate of exactly one cell: the subgrids are disjoint and cover the grid. */
  lemma CellAtFlat(T: Topology, q: Vec<int>)
    requires T.Valid()
    ensures WellFormed(T, CellAt(T, q)) && Flat(T, CellAt(T, q)) == q
    ensures InExtent(Extent(T), q) ==> InDomain(T, CellAt(T, q))
  {
    forall a ensures Digits(T.sizes.At(a), CellAt(T, q).At(a)) && Flat(T, CellAt(T, q)).At(a) == q.At(a) {
      assert T.sizes.At(a).lt > 0 && T.sizes.At(a).ls > 0;
      CellCoordFlat(T.sizes.At(a), q.At(a));
    }
    DomainIsBox(T, CellAt(T, q));
  }

  lemma FlatCellAt(T: Topology, c: Cell)
    requires T.Valid() && WellFormed(T, c)
    ensures CellAt(T, Flat(T, c)) == c
  {
    forall a ensures CellCoord(T.sizes.At(a), FlatCoord(T.sizes.At(a), c.At(a))) == c.At(a) {
      assert Digits(T.sizes.At(a), c.At(a));
      UniqueDigits(T.sizes.At(a).ls, c.At(a).pos.p * T.sizes.At(a).lt + c.At(a).pos.l, c.At(a).o);
      UniqueDigits(T.sizes.At(a).lt, c.At(a).pos.p, c.At(a).pos.l);
    }
    assert CellAt(T, Flat(T, c)).At(X) == c.At(X);
    assert CellAt(T, Flat(T, c)).At(Y) == c.At(Y);
    assert CellAt(T, Flat(T, c)).At(Z) == c.At(Z);
  }
}
