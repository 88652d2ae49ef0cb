/** The array loops of compute, pack and unpack tasks do what the steps of the halo exchange do, in whatever order these are
    taken. */
module JacobiTasks {
  import opened JacobiGrid
  import opened JacobiSweeps
  import opened JacobiProtocol
  import opened JacobiInvariant
  import opened JacobiArrays
  import opened JacobiHalo
  import opened JacobiRefinement

  predicate EachOnce(cs: seq<Cell>) { forall i, j :: 0 <= i < j < |cs| ==> cs[i] != cs[j] }

  // ---------------------------------------------------------------------------------------------------------
  // Compute
  // ---------------------------------------------------------------------------------------------------------

  /** The state after the cells cs have been written. */
  function AfterWrites<V>(T: Topology, R: Rules<V>, x: State<V>, cs: seq<Cell>): State<V>
    decreases |cs|
  {
    if cs == [] then x else DoWrite(T, R, AfterWrites(T, R, x, cs[..|cs| - 1]), cs[|cs| - 1])
  }

  lemma {:induction false} WritesCount<V>(T: Topology, R: Rules<V>, x: State<V>, cs: seq<Cell>)
    ensures var y := AfterWrites(T, R, x, cs);
      y.computed == x.computed && y.busy == x.busy && forall c :: c in y.written <==> c in x.written || c in cs
    decreases |cs|
  {
    if cs != [] {
      WritesCount(T, R, x, cs[..|cs| - 1]);
      assert cs == cs[..|cs| - 1] + [cs[|cs| - 1]];
    }
  }

  /** The buffer that is read stays as it is. */
  lemma {:induction false} WritesElsewhere<V>(T: Topology, R: Rules<V>, x: State<V>, s: Subgrid, cs: seq<Cell>, P: Vec<int>, c: Cell)
    requires forall d :: d in cs ==> Owner(d) == s
    ensures At(R, AfterWrites(T, R, x, cs), Computed(x, s), P, c) == At(R, x, Computed(x, s), P, c)
    decreases |cs|
  {
    if cs != [] {
      var rest, d := cs[..|cs| - 1], cs[|cs| - 1];
      WritesElsewhere(T, R, x, s, rest, P, c);
      WritesCount(T, R, x, rest);
      WriteTouches(T, R, AfterWrites(T, R, x, rest), d, Computed(x, s), P, c);
    }
  }

  lemma SameReads<V>(T: Topology, R: Rules<V>, x: State<V>, s: Subgrid, cs: seq<Cell>, c: Cell)
    requires forall d :: d in cs ==> Owner(d) == s
    ensures StencilReads(T, R, AfterWrites(T, R, x, cs), Computed(x, s), c) == StencilReads(T, R, x, Computed(x, s), c)
  {
    var y, k := AfterWrites(T, R, x, cs), Computed(x, s);
    forall i | 0 <= i < Reads(T) ensures StencilReads(T, R, y, k, c)[i] == StencilReads(T, R, x, k, c)[i] {
      WritesElsewhere(T, R, x, s, cs, ProcessOf(Owner(c)), Read(T, c, i));
    }
  }

  /** Every cell written holds the update of what the other buffer held at the beginning; no other cell has changed. */
  lemma {:induction false} WritesUpdate<V>(T: Topology, R: Rules<V>, x: State<V>, s: Subgrid, cs: seq<Cell>, b: nat, P: Vec<int>, c: Cell)
    requires forall d :: d in cs ==> Owner(d) == s
    ensures At(R, AfterWrites(T, R, x, cs), b, P, c) ==
      if b % 2 == (Computed(x, s) + 1) % 2 && P == ProcessOf(s) && c in cs then R.update(StencilReads(T, R, x, Computed(x, s), c))
      else At(R, x, b, P, c)
    decreases |cs|
  {
    if cs != [] {
      var rest, d := cs[..|cs| - 1], cs[|cs| - 1];
      assert cs == rest + [d];
      WritesUpdate(T, R, x, s, rest, b, P, c);
      WritesCount(T, R, x, rest);
      SameReads(T, R, x, s, rest, d);
      if c != d || P != ProcessOf(s) || b % 2 != (Computed(x, s) + 1) % 2 { WriteTouches(T, R, AfterWrites(T, R, x, rest), d, b, P, c); }
    }
  }

  /** While the subgrid is at work its cells can be written one after the other, in any order. */
  lemma WritesAllowed<V>(T: Topology, n: nat, R: Rules<V>, x: State<V>, s: Subgrid, cs: seq<Cell>, i: nat)
    requires IsSubgrid(T, s) && s in x.busy && EachOnce(cs) && i < |cs|
    requires forall c :: c in cs ==> Owns(T, s, c) && c !in x.written
    ensures var y := AfterWrites(T, R, x, cs[..i]);
      CanMove(T, n, y, WriteCell(cs[i])) && DoMove(T, n, R, y, WriteCell(cs[i])) == AfterWrites(T, R, x, cs[..i + 1])
  {
    WritesCount(T, R, x, cs[..i]);
    assert cs[i] in cs;
    assert cs[..i + 1][..i] == cs[..i];
  }

  lemma BoxFits(T: Topology, s: Subgrid)
    requires T.Valid() && IsSubgrid(T, s)
    ensures var e := ExtentsOf(T); Fits(Buffer(e), Start(e, LocalPoint(s)), End(e, LocalPoint(s)), T.depth)
  {
    assert IsPos(T.sizes.At(X), s.At(X)) && IsPos(T.sizes.At(Y), s.At(Y)) && IsPos(T.sizes.At(Z), s.At(Z));
    SubgridInProcess(T.sizes.x.ls, s.x.l, T.sizes.x.lt);
    SubgridInProcess(T.sizes.y.ls, s.y.l, T.sizes.y.lt);
    SubgridInProcess(T.sizes.z.ls, s.z.l, T.sizes.z.lt);
  }

  /** One cell of the target buffer before and after the compute loops. */
  lemma CellAfterLoops(T: Topology, src: array<real>, fs: Point, s: Subgrid, x: State<real>, cs: seq<Cell>,
                       c: Cell, before: real, after: real)
    requires T.Valid() && IsSubgrid(T, s) && fs == Buffer(ExtentsOf(T)) && IsBuffer(src, fs)
    requires Holds(T, src, ProcessOf(s), x, Computed(x, s)) && WellFormed(T, c) && forall d :: d in cs <==> Owns(T, s, d)
    requires before == At(JacobiRules(T.depth), x, Computed(x, s) + 1, ProcessOf(s), c)
    requires Owns(T, s, c) ==> RoomAround(T, PointOf(T, ProcessOf(s), c), T.depth)
    requires after == if Owns(T, s, c) then Stencil(src, fs, T.depth, PointOf(T, ProcessOf(s), c)) else before
    ensures after == At(JacobiRules(T.depth), AfterWrites(T, JacobiRules(T.depth), x, cs), Computed(x, s) + 1, ProcessOf(s), c)
  {
    WritesUpdate(T, JacobiRules(T.depth), x, s, cs, Computed(x, s) + 1, ProcessOf(s), c);
    if Owns(T, s, c) { StencilIsUpdate(T, src, x, Computed(x, s), c); }
  }

  /** The compute loops take the target buffer to what it is after the task's cells have been written, in any order. */
  method ComputeTask(T: Topology, src: array<real>, dst: array<real>, s: Subgrid, ghost x: State<real>, ghost cs: seq<Cell>)
    requires T.Valid() && IsSubgrid(T, s) && src != dst
    requires IsBuffer(src, Buffer(ExtentsOf(T))) && IsBuffer(dst, Buffer(ExtentsOf(T)))
    requires Holds(T, src, ProcessOf(s), x, Computed(x, s)) && Holds(T, dst, ProcessOf(s), x, Computed(x, s) + 1)
    requires forall c :: c in cs <==> Owns(T, s, c)
    modifies dst
    ensures Holds(T, dst, ProcessOf(s), AfterWrites(T, JacobiRules(T.depth), x, cs), Computed(x, s) + 1)
  {
    var e := ExtentsOf(T);
    BoxFits(T, s);
    ghost var P, fs, next, x' := ProcessOf(s), Buffer(e), Computed(x, s) + 1, AfterWrites(T, JacobiRules(T.depth), x, cs);
    ghost var done := JacobiArrays.Compute(src, dst, Buffer(e), T.depth, Start(e, LocalPoint(s)), End(e, LocalPoint(s)));
    forall c ensures HoldsCell(T, dst, fs, P, x', next, c) {
      if WellFormed(T, c) && InBuffer(fs, PointOf(T, P, c)) {
        assert old(HoldsCell(T, dst, fs, P, x, next, c));
        OwnCellsAreBox(T, s, c);
        CellAfterLoops(T, src, fs, s, x, cs, c, old(Get(dst, fs, PointOf(T, P, c))), Get(dst, fs, PointOf(T, P, c)));
      }
    }
  }

  // ---------------------------------------------------------------------------------------------------------
  // Pack
  // ---------------------------------------------------------------------------------------------------------

  /** The state after the cells cs have been copied into the pack buffer of port p. */
  function AfterPacks<V>(R: Rules<V>, x: State<V>, p: Port, cs: seq<Cell>): State<V>
    decreases |cs|
  {
    if cs == [] then x else DoPackCell(R, AfterPacks(R, x, p, cs[..|cs| - 1]), p, cs[|cs| - 1])
  }

  lemma {:induction false} PacksCopy<V>(R: Rules<V>, x: State<V>, p: Port, cs: seq<Cell>)
    ensures var y := AfterPacks(R, x, p, cs);
      && y == x.(slots := y.slots, packing := y.packing)
      && (forall l :: l in y.packing <==> l in x.packing || (l.port == p && l.c in cs))
      && (forall c :: c in cs ==> Lookup(PackBuffer(y, p), c, R.zero) == At(R, x, Packed(x, p) + 1, ProcessOf(p.s), c))
    decreases |cs|
  {
    if cs != [] {
      PacksCopy(R, x, p, cs[..|cs| - 1]);
      assert cs == cs[..|cs| - 1] + [cs[|cs| - 1]];
    }
  }

  /** What may run depends on the counts only. */
  lemma SameReady<V>(T: Topology, n: nat, x: State<V>, y: State<V>, work: Work, p: Port, it: nat)
    requires PortReady(T, n, x, work, p, it)
    requires y.computed == x.computed && y.packed == x.packed && y.sent == x.sent && y.received == x.received && y.unpacked == x.unpacked
    ensures PortReady(T, n, y, work, p, it)
  {
    forall q | DependsOn(T, Task(work, p.s, it), q) ensures Finished(T, y, q) { assert Finished(T, x, q); }
    forall f | KindOf(T, p.s, f) == REMOTE && FaceIndex(f) < FaceIndex(p.f) ensures Count(y, work, Port(p.s, f)) > it {
      assert Count(x, work, Port(p.s, f)) > it;
    }
  }

  lemma PacksAllowed<V>(T: Topology, n: nat, R: Rules<V>, x: State<V>, p: Port, cs: seq<Cell>, i: nat)
    requires PortReady(T, n, x, Pack, p, Packed(x, p)) && EachOnce(cs) && i < |cs|
    requires forall c :: c in cs ==> InSlab(T, p.s, p.f, c) && Slot(p, c) !in x.packing
    ensures var y := AfterPacks(R, x, p, cs[..i]);
      CanMove(T, n, y, PackCell(p, cs[i])) && DoMove(T, n, R, y, PackCell(p, cs[i])) == AfterPacks(R, x, p, cs[..i + 1])
  {
    PacksCopy(R, x, p, cs[..i]);
    SameReady(T, n, x, AfterPacks(R, x, p, cs[..i]), Pack, p, Packed(x, p));
    assert cs[i] in cs;
    assert cs[..i + 1][..i] == cs[..i];
  }

  /** Cell c of the face at base in a flat message. */
  predicate Delivers(T: Topology, message: seq<real>, base: Point, p: Port, c: Cell, v: real) {
    var e, q := ExtentsOf(T), PointOf(T, ProcessOf(p.s), c);
    && |message| == MessageSize(p.f.axis, e.ls, e.depth)
    && InBox(base, FaceEnd(p.f.axis, base, e.ls, e.depth), q)
    && Delivered(message, p.f.axis, base, e.ls, e.depth, q) == v
  }

  lemma FacesOfPort(T: Topology, p: Port)
    requires T.Valid() && IsPort(T, p)
    ensures var e, l := ExtentsOf(T), LocalPoint(p.s);
      && FaceFits(p.f.axis, Buffer(e), PackBase(e, l, p.f), e.ls, e.depth)
      && FaceFits(p.f.axis, Buffer(e), UnpackBase(e, l, p.f), e.ls, e.depth)
  {
    AtEndOfProcess(T, p);
    FacesFit(ExtentsOf(T), LocalCounts(T), LocalPoint(p.s), p.f);
  }

  lemma SlabInDomain(T: Topology, s: Subgrid, f: Face, c: Cell)
    requires IsSubgrid(T, s) && InSlab(T, s, f, c)
    ensures InDomain(T, c) && WellFormed(T, c)
  {
    WellFormedInDomain(T, c);
  }

  /** The pack loops leave in the message what the pack buffer of the port holds after the cells along the face have been
      copied, in any order. */
  method PackTask(T: Topology, buffer: array<real>, p: Port, message: array<real>, ghost x: State<real>, ghost cs: seq<Cell>)
    requires T.Valid() && IsPort(T, p) && IsBuffer(buffer, Buffer(ExtentsOf(T))) && message != buffer
    requires message.Length == MessageSize(p.f.axis, ExtentsOf(T).ls, T.depth)
    requires Holds(T, buffer, ProcessOf(p.s), x, Packed(x, p) + 1)
    requires forall c :: c in cs <==> InSlab(T, p.s, p.f, c)
    modifies message
    ensures forall c :: InSlab(T, p.s, p.f, c) ==>
      Delivers(T, message[..], PackBase(ExtentsOf(T), LocalPoint(p.s), p.f), p, c,
               Lookup(PackBuffer(AfterPacks(JacobiRules(T.depth), x, p, cs), p), c, 0.0))
  {
    var e, l := ExtentsOf(T), LocalPoint(p.s);
    FacesOfPort(T, p);
    PackFace(buffer, Buffer(e), p.f.axis, PackBase(e, l, p.f), e.ls, e.depth, message);
    PacksCopy(JacobiRules(T.depth), x, p, cs);
    forall c | InSlab(T, p.s, p.f, c)
      ensures Delivers(T, message[..], PackBase(e, l, p.f), p, c, Lookup(PackBuffer(AfterPacks(JacobiRules(T.depth), x, p, cs), p), c, 0.0))
    {
      SlabInDomain(T, p.s, p.f, c);
      SlabIsFace(T, p.s, p.f, c);
      assert HoldsCell(T, buffer, Buffer(e), ProcessOf(p.s), x, Packed(x, p) + 1, c);
    }
  }

  // ---------------------------------------------------------------------------------------------------------
  // From one process to the next
  // ---------------------------------------------------------------------------------------------------------

  /** What the message holds of cell c for the face it was packed from, it holds for the ghost layer it is unpacked to. */
  lemma MessageArrives(T: Topology, message: seq<real>, p: Port, c: Cell, v: real)
    requires T.Valid() && IsPort(T, p) && InGhost(T, p.s, p.f, c)
    requires Delivers(T, message, PackBase(ExtentsOf(T), LocalPoint(Peer(T, p).s), Peer(T, p).f), Peer(T, p), c, v)
    ensures Delivers(T, message, UnpackBase(ExtentsOf(T), LocalPoint(p.s), p.f), p, c, v)
  {
    var e, q := ExtentsOf(T), PointOf(T, ProcessOf(p.s), c);
    GhostIsUnique(T, p, p, c);
    WellFormedInDomain(T, c);
    GhostIsFace(T, p, c);
    AtEndOfProcess(T, p);
    TwinInFace(e, LocalCounts(T), LocalPoint(p.s), p.f, q);
    TwinOfPoint(T, p, c);
  }

  // ---------------------------------------------------------------------------------------------------------
  // Unpack
  // ---------------------------------------------------------------------------------------------------------

  /** The state after the cells cs have been copied from the message at the head of the channel of port p. */
  function AfterUnpacks<V>(R: Rules<V>, x: State<V>, p: Port, cs: seq<Cell>): (y: State<V>)
    requires Channel(x, p) != []
    ensures y == x.(mem := y.mem, unpacking := y.unpacking)
    decreases |cs|
  {
    if cs == [] then x else DoUnpackCell(R, AfterUnpacks(R, x, p, cs[..|cs| - 1]), p, cs[|cs| - 1])
  }

  lemma {:induction false} UnpacksCopy<V>(R: Rules<V>, x: State<V>, p: Port, cs: seq<Cell>, b: nat, P: Vec<int>, c: Cell)
    requires Channel(x, p) != []
    ensures At(R, AfterUnpacks(R, x, p, cs), b, P, c) ==
      if b % 2 == (Unpacked(x, p) + 1) % 2 && P == ProcessOf(p.s) && c in cs then Lookup(Channel(x, p)[0], c, R.zero)
      else At(R, x, b, P, c)
    decreases |cs|
  {
    if cs != [] {
      var rest, d := cs[..|cs| - 1], cs[|cs| - 1];
      assert cs == rest + [d];
      UnpacksCopy(R, x, p, rest, b, P, c);
      if c != d || P != ProcessOf(p.s) || b % 2 != (Unpacked(x, p) + 1) % 2 { UnpackTouches(R, AfterUnpacks(R, x, p, rest), p, d, b, P, c); }
    }
  }

  lemma {:induction false} UnpacksCount<V>(R: Rules<V>, x: State<V>, p: Port, cs: seq<Cell>)
    requires Channel(x, p) != []
    ensures forall l :: l in AfterUnpacks(R, x, p, cs).unpacking <==> l in x.unpacking || (l.port == p && l.c in cs)
    decreases |cs|
  {
    if cs != [] {
      UnpacksCount(R, x, p, cs[..|cs| - 1]);
      assert cs == cs[..|cs| - 1] + [cs[|cs| - 1]];
    }
  }

  lemma UnpacksAllowed<V>(T: Topology, n: nat, R: Rules<V>, x: State<V>, p: Port, cs: seq<Cell>, i: nat)
    requires PortReady(T, n, x, Unpack, p, Unpacked(x, p)) && EachOnce(cs) && i < |cs| && Channel(x, p) != []
    requires forall c :: c in cs ==> InGhost(T, p.s, p.f, c) && Slot(p, c) !in x.unpacking
    ensures var y := AfterUnpacks(R, x, p, cs[..i]);
      CanMove(T, n, y, UnpackCell(p, cs[i])) && DoMove(T, n, R, y, UnpackCell(p, cs[i])) == AfterUnpacks(R, x, p, cs[..i + 1])
  {
    UnpacksCount(R, x, p, cs[..i]);
    SameReady(T, n, x, AfterUnpacks(R, x, p, cs[..i]), Unpack, p, Unpacked(x, p));
    assert cs[i] in cs;
    assert cs[..i + 1][..i] == cs[..i];
  }

  /** One cell of the buffer before and after the unpack loops. */
  lemma CellAfterUnpack(T: Topology, p: Port, x: State<real>, cs: seq<Cell>, c: Cell, before: real, after: real)
    requires T.Valid() && IsPort(T, p) && Channel(x, p) != [] && WellFormed(T, c) && forall d :: d in cs <==> InGhost(T, p.s, p.f, d)
    requires before == At(JacobiRules(T.depth), x, Unpacked(x, p) + 1, ProcessOf(p.s), c)
    requires after == if InGhost(T, p.s, p.f, c) then Lookup(Channel(x, p)[0], c, 0.0) else before
    ensures after == At(JacobiRules(T.depth), AfterUnpacks(JacobiRules(T.depth), x, p, cs), Unpacked(x, p) + 1, ProcessOf(p.s), c)
  {
    UnpacksCopy(JacobiRules(T.depth), x, p, cs, Unpacked(x, p) + 1, ProcessOf(p.s), c);
  }

  /** The unpack loops take the buffer to what it is after the ghost cells have been copied from the head of the channel, in
      any order. */
  method UnpackTask(T: Topology, buffer: array<real>, p: Port, message: array<real>, ghost x: State<real>, ghost cs: seq<Cell>)
    requires T.Valid() && IsPort(T, p) && IsBuffer(buffer, Buffer(ExtentsOf(T))) && message != buffer && Channel(x, p) != []
    requires message.Length == MessageSize(p.f.axis, ExtentsOf(T).ls, T.depth)
    requires Holds(T, buffer, ProcessOf(p.s), x, Unpacked(x, p) + 1)
    requires forall c :: c in cs <==> InGhost(T, p.s, p.f, c)
    requires forall c :: InGhost(T, p.s, p.f, c) ==>
      Delivers(T, message[..], UnpackBase(ExtentsOf(T), LocalPoint(p.s), p.f), p, c, Lookup(Channel(x, p)[0], c, 0.0))
    modifies buffer
    ensures Holds(T, buffer, ProcessOf(p.s), AfterUnpacks(JacobiRules(T.depth), x, p, cs), Unpacked(x, p) + 1)
  {
    var e, l := ExtentsOf(T), LocalPoint(p.s);
    ghost var P, fs, next, x' := ProcessOf(p.s), Buffer(e), Unpacked(x, p) + 1, AfterUnpacks(JacobiRules(T.depth), x, p, cs);
    FacesOfPort(T, p);
    UnpackFace(buffer, Buffer(e), p.f.axis, UnpackBase(e, l, p.f), e.ls, e.depth, message);
    forall c ensures HoldsCell(T, buffer, fs, P, x', next, c) {
      if WellFormed(T, c) && InBuffer(fs, PointOf(T, P, c)) {
        assert old(HoldsCell(T, buffer, fs, P, x, next, c));
        GhostIsFace(T, p, c);
        CellAfterUnpack(T, p, x, cs, c, old(Get(buffer, fs, PointOf(T, P, c))), Get(buffer, fs, PointOf(T, P, c)));
      }
    }
  }
}
