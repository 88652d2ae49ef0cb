/** Every step of the halo exchange keeps its invariants. */
module JacobiInvariant {
  import opened JacobiGrid
  import opened JacobiSweeps
  import opened JacobiProtocol

  // ---------------------------------------------------------------------------------------------------------
  // What the predecessors of a task that may run have done
  // ---------------------------------------------------------------------------------------------------------

  /** The predecessors of the next compute task of s are done. */
  predicate MayStart<V>(T: Topology, x: State<V>, s: Subgrid, f: Face) {
    && (KindOf(T, s, f) == LOCAL ==> Computed(x, Neighbor(T, s, f)) >= Computed(x, s))
    && (KindOf(T, s, f) == REMOTE ==> Packed(x, Port(s, f)) >= Computed(x, s) && Unpacked(x, Port(s, f)) >= Computed(x, s))
  }

  lemma StartFacts<V>(T: Topology, n: nat, x: State<V>, s: Subgrid)
    requires CanMove(T, n, x, StartCompute(s))
    ensures forall f :: MayStart(T, x, s, f)
  {
    var it := Computed(x, s);
    if it > 0 {
      var t := Task(Compute, s, it);
      forall f | KindOf(T, s, f) == LOCAL ensures Computed(x, Neighbor(T, s, f)) >= it {
        assert DependsOn(T, t, Task(Compute, Neighbor(T, s, f), it - 1));
      }
      assert DependsOn(T, t, Task(Pack, s, it - 1)) && DependsOn(T, t, Task(Unpack, s, it - 1));
    }
  }

  lemma PackFacts<V>(T: Topology, n: nat, x: State<V>, p: Port)
    requires PortReady(T, n, x, Pack, p, Packed(x, p))
    ensures Computed(x, p.s) > Packed(x, p) && Sent(x, p) >= Packed(x, p)
  {
    var it := Packed(x, p);
    var t := Task(Pack, p.s, it);
    assert DependsOn(T, t, Task(Compute, p.s, it));
    if it > 0 { assert DependsOn(T, t, Task(Send, p.s, it - 1)); }
  }

  lemma SendFacts<V>(T: Topology, n: nat, x: State<V>, p: Port)
    requires PortReady(T, n, x, Send, p, Sent(x, p))
    ensures Packed(x, p) > Sent(x, p)
  {
    assert DependsOn(T, Task(Send, p.s, Sent(x, p)), Task(Pack, p.s, Sent(x, p)));
  }

  lemma ReceiveFacts<V>(T: Topology, n: nat, x: State<V>, p: Port)
    requires PortReady(T, n, x, Receive, p, Received(x, p))
    ensures Unpacked(x, p) >= Received(x, p)
  {
    var it := Received(x, p);
    if it > 0 { assert DependsOn(T, Task(Receive, p.s, it), Task(Unpack, p.s, it - 1)); }
  }

  lemma UnpackFacts<V>(T: Topology, n: nat, x: State<V>, p: Port)
    requires PortReady(T, n, x, Unpack, p, Unpacked(x, p))
    ensures Received(x, p) > Unpacked(x, p) && Computed(x, p.s) > Unpacked(x, p)
  {
    var it := Unpacked(x, p);
    assert DependsOn(T, Task(Unpack, p.s, it), Task(Receive, p.s, it));
    assert DependsOn(T, Task(Unpack, p.s, it), Task(Compute, p.s, it));
  }

  // ---------------------------------------------------------------------------------------------------------
  // Counts
  // ---------------------------------------------------------------------------------------------------------

  lemma StartCounts<V>(T: Topology, n: nat, x: State<V>, s: Subgrid)
    requires CountsOk(T, n, x) && IsSubgrid(T, s) && s !in x.busy && Computed(x, s) < n
    requires forall f :: MayStart(T, x, s, f)
    ensures CountsOk(T, n, DoStart(x, s))
  {
    var x' := DoStart(x, s);
    forall u | IsSubgrid(T, u) ensures DriftOk(T, n, x', u) {
      assert DriftOk(T, n, x, u);
      forall f | KindOf(T, u, f) == LOCAL
        ensures Computed(x', u) + (if u in x'.busy then 1 else 0) <= Computed(x', Neighbor(T, u, f)) + 1
      {
        assert MayStart(T, x, s, f);
      }
    }
    forall p | IsPort(T, p) ensures ChainOk(T, n, x', p) {
      assert ChainOk(T, n, x, p) && MayStart(T, x, s, p.f) && p == Port(p.s, p.f);
    }
  }

  lemma EndCounts<V>(T: Topology, n: nat, x: State<V>, s: Subgrid)
    requires CountsOk(T, n, x) && s in x.busy
    ensures CountsOk(T, n, DoEnd(x, s))
  {
    var x' := DoEnd(x, s);
    forall u | IsSubgrid(T, u) ensures DriftOk(T, n, x', u) { assert DriftOk(T, n, x, u); }
    forall p | IsPort(T, p) ensures ChainOk(T, n, x', p) { assert ChainOk(T, n, x, p); }
  }

  /** Steps that leave all counters alone. */
  lemma SameCounts<V>(T: Topology, n: nat, x: State<V>, x': State<V>)
    requires CountsOk(T, n, x)
    requires x'.computed == x.computed && x'.busy == x.busy && x'.packed == x.packed && x'.sent == x.sent
    requires x'.received == x.received && x'.unpacked == x.unpacked && x'.channels == x.channels
    ensures CountsOk(T, n, x')
  {
    forall u | IsSubgrid(T, u) ensures DriftOk(T, n, x', u) { assert DriftOk(T, n, x, u); }
    forall p | IsPort(T, p) ensures ChainOk(T, n, x', p) { assert ChainOk(T, n, x, p); }
  }

  /** Steps that leave the compute tasks alone and keep the chain of every port. */
  lemma ChainCounts<V>(T: Topology, n: nat, x: State<V>, x': State<V>)
    requires CountsOk(T, n, x) && x'.computed == x.computed && x'.busy == x.busy
    requires forall p :: IsPort(T, p) ==> ChainOk(T, n, x', p)
    ensures CountsOk(T, n, x')
  {
    forall u | IsSubgrid(T, u) ensures DriftOk(T, n, x', u) { assert DriftOk(T, n, x, u); }
  }

  lemma EndPackChain<V>(T: Topology, n: nat, x: State<V>, p: Port, q: Port)
    requires ChainOk(T, n, x, q) && Computed(x, p.s) > Packed(x, p) && Sent(x, p) >= Packed(x, p) && Packed(x, p) + 1 < n
    ensures ChainOk(T, n, DoEndPack(x, p), q)
  {}

  lemma PushChain<V>(T: Topology, n: nat, x: State<V>, p: Port, q: Port)
    requires T.Valid() && IsPort(T, p) && IsPort(T, q) && ChainOk(T, n, x, q) && Packed(x, p) > Sent(x, p)
    ensures ChainOk(T, n, DoPush(T, x, p), q)
  {
    PeerBack(T, p);
    PeerBack(T, q);
    assert Peer(T, q) == p <==> q == Peer(T, p);
  }

  lemma PeekChain<V>(T: Topology, n: nat, x: State<V>, p: Port, q: Port)
    requires ChainOk(T, n, x, q) && Unpacked(x, p) >= Received(x, p) && Channel(x, p) != []
    ensures ChainOk(T, n, DoPeek(x, p), q)
  {}

  lemma PopChain<V>(T: Topology, n: nat, x: State<V>, p: Port, q: Port)
    requires ChainOk(T, n, x, q) && Received(x, p) > Unpacked(x, p) && Computed(x, p.s) > Unpacked(x, p) && Channel(x, p) != []
    ensures ChainOk(T, n, DoPop(x, p), q)
  {}

  lemma MoveCounts<V>(T: Topology, n: nat, R: Rules<V>, x: State<V>, m: Move)
    requires T.Valid() && CountsOk(T, n, x) && CanMove(T, n, x, m)
    ensures CountsOk(T, n, DoMove(T, n, R, x, m))
  {
    var x' := DoMove(T, n, R, x, m);
    match m
    case StartCompute(s) => StartFacts(T, n, x, s); StartCounts(T, n, x, s);
    case WriteCell(_) => SameCounts(T, n, x, x');
    case EndCompute(s) => EndCounts(T, n, x, s);
    case PackCell(_, _) => SameCounts(T, n, x, x');
    case EndPack(p) =>
      PackFacts(T, n, x, p);
      forall q | IsPort(T, q) ensures ChainOk(T, n, x', q) { EndPackChain(T, n, x, p, q); }
      ChainCounts(T, n, x, x');
    case Push(p) =>
      SendFacts(T, n, x, p);
      forall q | IsPort(T, q) ensures ChainOk(T, n, x', q) { PushChain(T, n, x, p, q); }
      ChainCounts(T, n, x, x');
    case Peek(p) =>
      ReceiveFacts(T, n, x, p);
      forall q | IsPort(T, q) ensures ChainOk(T, n, x', q) { PeekChain(T, n, x, p, q); }
      ChainCounts(T, n, x, x');
    case UnpackCell(_, _) => SameCounts(T, n, x, x');
    case Pop(p) =>
      UnpackFacts(T, n, x, p);
      forall q | IsPort(T, q) ensures ChainOk(T, n, x', q) { PopChain(T, n, x, p, q); }
      ChainCounts(T, n, x, x');
  }

  // ---------------------------------------------------------------------------------------------------------
  // What a computing subgrid reads
  // ---------------------------------------------------------------------------------------------------------

  /** While the owner of c computes iteration k, a cell its stencil reads holds the value of sweep k. */
  lemma ReadIsValue<V>(T: Topology, n: nat, R: Rules<V>, x: State<V>, c: Cell, i: nat)
    requires T.Valid() && Inv(T, n, R, x) && InDomain(T, c) && Owner(c) in x.busy && i < Reads(T)
    ensures var k := Computed(x, Owner(c)); At(R, x, k, ProcessOf(Owner(c)), Read(T, c, i)) == Value(T, R, k, Read(T, c, i))
  {
    var s, r := Owner(c), Read(T, c, i);
    var k := Computed(x, s);
    ReadStays(T, c, i);
    if !InDomain(T, r) {
      assert OutsideOk(R, x, k, ProcessOf(s), r);
    } else if Owner(r) == s {
      assert CellOk(T, R, x, r);
    } else {
      var f :| KindOf(T, s, f) != BOUNDARY && InGhost(T, s, f, r);
      if KindOf(T, s, f) == LOCAL {
        LocalReadIsValue(T, n, R, x, s, f, r);
      } else {
        GhostReadIsValue(T, n, R, x, s, f, r);
      }
    }
  }

  lemma GhostReadIsValue<V>(T: Topology, n: nat, R: Rules<V>, x: State<V>, s: Subgrid, f: Face, r: Cell)
    requires T.Valid() && Inv(T, n, R, x) && IsSubgrid(T, s) && s in x.busy
    requires KindOf(T, s, f) == REMOTE && InGhost(T, s, f, r)
    ensures At(R, x, Computed(x, s), ProcessOf(s), r) == Value(T, R, Computed(x, s), r)
  {
    assert IsPort(T, Port(s, f));
    assert ChainOk(T, n, x, Port(s, f)) && GhostOk(T, R, x, Port(s, f), r);
  }

  lemma LocalReadIsValue<V>(T: Topology, n: nat, R: Rules<V>, x: State<V>, s: Subgrid, f: Face, r: Cell)
    requires T.Valid() && Inv(T, n, R, x) && IsSubgrid(T, s) && s in x.busy
    requires KindOf(T, s, f) == LOCAL && InGhost(T, s, f, r) && InDomain(T, r)
    ensures At(R, x, Computed(x, s), ProcessOf(s), r) == Value(T, R, Computed(x, s), r)
  {
    var q := Neighbor(T, s, f);
    NeighborBack(T, s, f);
    SameProcess(T, s, f);
    assert DriftOk(T, n, x, s) && DriftOk(T, n, x, q) && CellOk(T, R, x, r);
    assert KindOf(T, q, Opposite(f)) == LOCAL;
  }

  lemma StencilIsValue<V>(T: Topology, n: nat, R: Rules<V>, x: State<V>, c: Cell)
    requires T.Valid() && Inv(T, n, R, x) && InDomain(T, c) && Owner(c) in x.busy
    ensures var k := Computed(x, Owner(c)); R.update(StencilReads(T, R, x, k, c)) == Value(T, R, k + 1, c)
  {
    var k := Computed(x, Owner(c));
    forall i | 0 <= i < Reads(T) ensures StencilReads(T, R, x, k, c)[i] == ReadValues(T, R, k, c)[i] {
      ReadIsValue(T, n, R, x, c, i);
    }
    assert StencilReads(T, R, x, k, c) == ReadValues(T, R, k, c);
  }

  // ---------------------------------------------------------------------------------------------------------
  // Values
  // ---------------------------------------------------------------------------------------------------------

  lemma StartValues<V>(T: Topology, R: Rules<V>, x: State<V>, s: Subgrid)
    requires ValuesOk(T, R, x)
    ensures ValuesOk(T, R, DoStart(x, s))
  {
    var x' := DoStart(x, s);
    forall d | InDomain(T, d) ensures CellOk(T, R, x', d) { assert CellOk(T, R, x, d); }
    SameGhosts(T, R, x, x');
    SameSlots(T, R, x, x');
    SameMessages(T, R, x, x');
    SameOutside(T, R, x, x');
  }

  // What a step does not touch

  lemma SameCells<V>(T: Topology, R: Rules<V>, x: State<V>, x': State<V>)
    requires x'.mem == x.mem && x'.computed == x.computed && x'.busy == x.busy && x'.written == x.written
    requires forall c :: InDomain(T, c) ==> CellOk(T, R, x, c)
    ensures forall c :: InDomain(T, c) ==> CellOk(T, R, x', c)
  {
    forall c | InDomain(T, c) ensures CellOk(T, R, x', c) { assert CellOk(T, R, x, c); }
  }

  lemma SameCell<V>(T: Topology, R: Rules<V>, x: State<V>, x': State<V>, c: Cell, k: nat, P: Vec<int>)
    requires CellOk(T, R, x, c) && k == Computed(x, Owner(c)) && P == ProcessOf(Owner(c))
    requires x'.computed == x.computed && x'.busy == x.busy && x'.written == x.written
    requires At(R, x', k, P, c) == At(R, x, k, P, c) && At(R, x', k + 1, P, c) == At(R, x, k + 1, P, c)
    ensures CellOk(T, R, x', c)
  {}

  lemma SameGhosts<V>(T: Topology, R: Rules<V>, x: State<V>, x': State<V>)
    requires x'.mem == x.mem && x'.unpacked == x.unpacked && x'.unpacking == x.unpacking
    requires forall p, c :: IsPort(T, p) && InGhost(T, p.s, p.f, c) ==> GhostOk(T, R, x, p, c)
    ensures forall p, c :: IsPort(T, p) && InGhost(T, p.s, p.f, c) ==> GhostOk(T, R, x', p, c)
  {
    forall p, c | IsPort(T, p) && InGhost(T, p.s, p.f, c) ensures GhostOk(T, R, x', p, c) { assert GhostOk(T, R, x, p, c); }
  }

  lemma SameSlots<V>(T: Topology, R: Rules<V>, x: State<V>, x': State<V>)
    requires x'.slots == x.slots && x'.packed == x.packed && x'.packing == x.packing && x'.sent == x.sent
    requires forall p, c :: IsPort(T, p) && InSlab(T, p.s, p.f, c) ==> SlotOk(T, R, x, p, c)
    ensures forall p, c :: IsPort(T, p) && InSlab(T, p.s, p.f, c) ==> SlotOk(T, R, x', p, c)
  {
    forall p, c | IsPort(T, p) && InSlab(T, p.s, p.f, c) ensures SlotOk(T, R, x', p, c) { assert SlotOk(T, R, x, p, c); }
  }

  lemma SameMessages<V>(T: Topology, R: Rules<V>, x: State<V>, x': State<V>)
    requires x'.channels == x.channels && x'.unpacked == x.unpacked
    requires forall p, k, c :: IsPort(T, p) && InGhost(T, p.s, p.f, c) ==> MessageOk(T, R, x, p, k, c)
    ensures forall p, k, c :: IsPort(T, p) && InGhost(T, p.s, p.f, c) ==> MessageOk(T, R, x', p, k, c)
  {
    forall p, k: nat, c | IsPort(T, p) && InGhost(T, p.s, p.f, c) ensures MessageOk(T, R, x', p, k, c) {
      assert MessageOk(T, R, x, p, k, c);
    }
  }

  lemma SameOutside<V>(T: Topology, R: Rules<V>, x: State<V>, x': State<V>)
    requires x'.mem == x.mem
    requires forall b, process, c :: !InDomain(T, c) ==> OutsideOk(R, x, b, process, c)
    ensures forall b, process, c :: !InDomain(T, c) ==> OutsideOk(R, x', b, process, c)
  {
    forall b: nat, process, c | !InDomain(T, c) ensures OutsideOk(R, x', b, process, c) { assert OutsideOk(R, x, b, process, c); }
  }

  lemma WriteTouches<V>(T: Topology, R: Rules<V>, x: State<V>, c: Cell, b: nat, process: Vec<int>, d: Cell)
    requires d != c || process != ProcessOf(Owner(c)) || b % 2 != (Computed(x, Owner(c)) + 1) % 2
    ensures At(R, DoWrite(T, R, x, c), b, process, d) == At(R, x, b, process, d)
  {}

  lemma WriteCellOk<V>(T: Topology, R: Rules<V>, x: State<V>, c: Cell, d: Cell)
    requires CellOk(T, R, x, d) && Owner(c) in x.busy
    requires var k := Computed(x, Owner(c)); R.update(StencilReads(T, R, x, k, c)) == Value(T, R, k + 1, c)
    ensures CellOk(T, R, DoWrite(T, R, x, c), d)
  {
    if d != c {
      var k := Computed(x, Owner(d));
      WriteTouches(T, R, x, c, k, ProcessOf(Owner(d)), d);
      WriteTouches(T, R, x, c, k + 1, ProcessOf(Owner(d)), d);
    } else {
      WriteTouches(T, R, x, c, Computed(x, Owner(c)), ProcessOf(Owner(c)), c);
    }
  }

  lemma WriteGhostOk<V>(T: Topology, R: Rules<V>, x: State<V>, c: Cell, p: Port, d: Cell)
    requires GhostOk(T, R, x, p, d) && ProcessOf(Owner(d)) != ProcessOf(p.s)
    ensures GhostOk(T, R, DoWrite(T, R, x, c), p, d)
  {
    WriteTouches(T, R, x, c, Unpacked(x, p), ProcessOf(p.s), d);
    WriteTouches(T, R, x, c, Unpacked(x, p) + 1, ProcessOf(p.s), d);
  }

  lemma WriteValues<V>(T: Topology, n: nat, R: Rules<V>, x: State<V>, c: Cell)
    requires T.Valid() && Inv(T, n, R, x) && InDomain(T, c) && Owner(c) in x.busy
    ensures ValuesOk(T, R, DoWrite(T, R, x, c))
  {
    var x' := DoWrite(T, R, x, c);
    StencilIsValue(T, n, R, x, c);
    forall d | InDomain(T, d) ensures CellOk(T, R, x', d) { WriteCellOk(T, R, x, c, d); }
    forall p, d | IsPort(T, p) && InGhost(T, p.s, p.f, d) ensures GhostOk(T, R, x', p, d) {
      GhostIsUnique(T, p, p, d);
      WriteGhostOk(T, R, x, c, p, d);
    }
    forall b: nat, process, d | !InDomain(T, d) ensures OutsideOk(R, x', b, process, d) {
      assert OutsideOk(R, x, b, process, d);
      WriteTouches(T, R, x, c, b, process, d);
    }
    SameSlots(T, R, x, x');
    SameMessages(T, R, x, x');
  }

  lemma EndValues<V>(T: Topology, R: Rules<V>, x: State<V>, s: Subgrid)
    requires ValuesOk(T, R, x) && s in x.busy && forall c :: Owns(T, s, c) ==> c in x.written
    ensures ValuesOk(T, R, DoEnd(x, s))
  {
    var x' := DoEnd(x, s);
    forall d | InDomain(T, d) ensures CellOk(T, R, x', d) { assert CellOk(T, R, x, d); }
    SameGhosts(T, R, x, x');
    SameSlots(T, R, x, x');
    SameMessages(T, R, x, x');
    SameOutside(T, R, x, x');
  }

  lemma PackCellSlot<V>(T: Topology, R: Rules<V>, x: State<V>, p: Port, c: Cell, q: Port, d: Cell)
    requires SlotOk(T, R, x, q, d) && Sent(x, p) == Packed(x, p)
    requires At(R, x, Packed(x, p) + 1, ProcessOf(p.s), c) == Value(T, R, Packed(x, p) + 1, c)
    ensures SlotOk(T, R, DoPackCell(R, x, p, c), q, d)
  {}

  /** A pack task reads the values of the sweep that was just computed. */
  lemma PackReadsValue<V>(T: Topology, n: nat, R: Rules<V>, x: State<V>, p: Port, c: Cell)
    requires Inv(T, n, R, x) && IsPort(T, p) && InSlab(T, p.s, p.f, c)
    requires Computed(x, p.s) > Packed(x, p) && Sent(x, p) >= Packed(x, p)
    ensures At(R, x, Packed(x, p) + 1, ProcessOf(p.s), c) == Value(T, R, Packed(x, p) + 1, c) && Sent(x, p) == Packed(x, p)
  {
    assert ChainOk(T, n, x, p) && CellOk(T, R, x, c);
  }

  lemma PackCellValues<V>(T: Topology, n: nat, R: Rules<V>, x: State<V>, p: Port, c: Cell)
    requires T.Valid() && Inv(T, n, R, x) && IsPort(T, p) && InSlab(T, p.s, p.f, c)
    requires Computed(x, p.s) > Packed(x, p) && Sent(x, p) >= Packed(x, p)
    ensures ValuesOk(T, R, DoPackCell(R, x, p, c))
  {
    var x' := DoPackCell(R, x, p, c);
    PackReadsValue(T, n, R, x, p, c);
    forall q, d | IsPort(T, q) && InSlab(T, q.s, q.f, d) ensures SlotOk(T, R, x', q, d) { PackCellSlot(T, R, x, p, c, q, d); }
    SameCells(T, R, x, x');
    SameGhosts(T, R, x, x');
    SameMessages(T, R, x, x');
    SameOutside(T, R, x, x');
  }

  lemma EndPackValues<V>(T: Topology, R: Rules<V>, x: State<V>, p: Port)
    requires ValuesOk(T, R, x) && forall c :: InSlab(T, p.s, p.f, c) ==> Slot(p, c) in x.packing
    ensures ValuesOk(T, R, DoEndPack(x, p))
  {
    var x' := DoEndPack(x, p);
    forall q, d | IsPort(T, q) && InSlab(T, q.s, q.f, d) ensures SlotOk(T, R, x', q, d) { assert SlotOk(T, R, x, q, d); }
    SameCells(T, R, x, x');
    SameGhosts(T, R, x, x');
    SameMessages(T, R, x, x');
    SameOutside(T, R, x, x');
  }

  lemma PushMessage<V>(T: Topology, R: Rules<V>, x: State<V>, p: Port, r: Port, k: nat, d: Cell)
    requires MessageOk(T, R, x, r, k, d) && Packed(x, p) == Sent(x, p) + 1
    requires var q := Peer(T, p); |Channel(x, q)| == Sent(x, p) - Unpacked(x, q)
    requires r == Peer(T, p) ==> SlotOk(T, R, x, p, d)
    ensures MessageOk(T, R, DoPush(T, x, p), r, k, d)
  {}

  lemma PushSlot<V>(T: Topology, R: Rules<V>, x: State<V>, p: Port, r: Port, d: Cell)
    requires SlotOk(T, R, x, r, d) && Packed(x, p) == Sent(x, p) + 1
    ensures SlotOk(T, R, DoPush(T, x, p), r, d)
  {}

  lemma PushValues<V>(T: Topology, n: nat, R: Rules<V>, x: State<V>, p: Port)
    requires T.Valid() && Inv(T, n, R, x) && IsPort(T, p) && Packed(x, p) > Sent(x, p)
    ensures ValuesOk(T, R, DoPush(T, x, p))
  {
    var x' := DoPush(T, x, p);
    PeerBack(T, p);
    assert ChainOk(T, n, x, p) && ChainOk(T, n, x, Peer(T, p));
    forall r, k: nat, d | IsPort(T, r) && InGhost(T, r.s, r.f, d) ensures MessageOk(T, R, x', r, k, d) {
      PushMessage(T, R, x, p, r, k, d);
    }
    forall r, d | IsPort(T, r) && InSlab(T, r.s, r.f, d) ensures SlotOk(T, R, x', r, d) { PushSlot(T, R, x, p, r, d); }
    SameCells(T, R, x, x');
    SameGhosts(T, R, x, x');
    SameOutside(T, R, x, x');
  }

  lemma UnpackTouches<V>(R: Rules<V>, x: State<V>, p: Port, c: Cell, b: nat, process: Vec<int>, d: Cell)
    requires Channel(x, p) != []
    requires d != c || process != ProcessOf(p.s) || b % 2 != (Unpacked(x, p) + 1) % 2
    ensures At(R, DoUnpackCell(R, x, p, c), b, process, d) == At(R, x, b, process, d)
  {}

  lemma UnpackCellOk<V>(T: Topology, R: Rules<V>, x: State<V>, p: Port, c: Cell, d: Cell)
    requires Channel(x, p) != [] && CellOk(T, R, x, d) && ProcessOf(Owner(c)) != ProcessOf(p.s)
    ensures CellOk(T, R, DoUnpackCell(R, x, p, c), d)
  {
    var k := Computed(x, Owner(d));
    UnpackTouches(R, x, p, c, k, ProcessOf(Owner(d)), d);
    UnpackTouches(R, x, p, c, k + 1, ProcessOf(Owner(d)), d);
    SameCell(T, R, x, DoUnpackCell(R, x, p, c), d, k, ProcessOf(Owner(d)));
  }

  lemma UnpackGhostOk<V>(T: Topology, R: Rules<V>, x: State<V>, p: Port, c: Cell, q: Port, d: Cell)
    requires Channel(x, p) != [] && MessageOk(T, R, x, p, 0, c) && GhostOk(T, R, x, q, d)
    requires d == c && ProcessOf(q.s) == ProcessOf(p.s) ==> q == p
    ensures GhostOk(T, R, DoUnpackCell(R, x, p, c), q, d)
  {
    var k := Unpacked(x, q);
    UnpackTouches(R, x, p, c, k, ProcessOf(q.s), d);
    if q != p || d != c { UnpackTouches(R, x, p, c, k + 1, ProcessOf(q.s), d); }
  }

  lemma UnpackCellValues<V>(T: Topology, R: Rules<V>, x: State<V>, p: Port, c: Cell)
    requires T.Valid() && ValuesOk(T, R, x) && IsPort(T, p) && InGhost(T, p.s, p.f, c) && Channel(x, p) != []
    ensures ValuesOk(T, R, DoUnpackCell(R, x, p, c))
  {
    var x' := DoUnpackCell(R, x, p, c);
    GhostIsUnique(T, p, p, c);
    forall d | InDomain(T, d) ensures CellOk(T, R, x', d) { UnpackCellOk(T, R, x, p, c, d); }
    forall q, d | IsPort(T, q) && InGhost(T, q.s, q.f, d) ensures GhostOk(T, R, x', q, d) {
      GhostIsUnique(T, p, q, c);
      UnpackGhostOk(T, R, x, p, c, q, d);
    }
    forall b: nat, process, d | !InDomain(T, d) ensures OutsideOk(R, x', b, process, d) {
      assert OutsideOk(R, x, b, process, d);
      UnpackTouches(R, x, p, c, b, process, d);
    }
    SameSlots(T, R, x, x');
    SameMessages(T, R, x, x');
  }

  lemma PopGhost<V>(T: Topology, R: Rules<V>, x: State<V>, p: Port, q: Port, d: Cell)
    requires Channel(x, p) != [] && GhostOk(T, R, x, q, d) && (q == p ==> Slot(p, d) in x.unpacking)
    ensures GhostOk(T, R, DoPop(x, p), q, d)
  {}

  lemma PopMessage<V>(T: Topology, R: Rules<V>, x: State<V>, p: Port, q: Port, k: nat, d: Cell)
    requires Channel(x, p) != [] && MessageOk(T, R, x, q, k, d) && MessageOk(T, R, x, q, k + 1, d)
    ensures MessageOk(T, R, DoPop(x, p), q, k, d)
  {}

  lemma PopValues<V>(T: Topology, R: Rules<V>, x: State<V>, p: Port)
    requires ValuesOk(T, R, x) && Channel(x, p) != [] && forall c :: InGhost(T, p.s, p.f, c) ==> Slot(p, c) in x.unpacking
    ensures ValuesOk(T, R, DoPop(x, p))
  {
    var x' := DoPop(x, p);
    forall q, d | IsPort(T, q) && InGhost(T, q.s, q.f, d) ensures GhostOk(T, R, x', q, d) { PopGhost(T, R, x, p, q, d); }
    forall q, k: nat, d | IsPort(T, q) && InGhost(T, q.s, q.f, d) ensures MessageOk(T, R, x', q, k, d) {
      PopMessage(T, R, x, p, q, k, d);
    }
    SameCells(T, R, x, x');
    SameSlots(T, R, x, x');
    SameOutside(T, R, x, x');
  }

  lemma MoveValues<V>(T: Topology, n: nat, R: Rules<V>, x: State<V>, m: Move)
    requires T.Valid() && Inv(T, n, R, x) && CanMove(T, n, x, m)
    ensures ValuesOk(T, R, DoMove(T, n, R, x, m))
  {
    match m
    case StartCompute(s) => StartValues(T, R, x, s);
    case WriteCell(c) => WriteValues(T, n, R, x, c);
    case EndCompute(s) => EndValues(T, R, x, s);
    case PackCell(p, c) => PackFacts(T, n, x, p); PackCellValues(T, n, R, x, p, c);
    case EndPack(p) => EndPackValues(T, R, x, p);
    case Push(p) => SendFacts(T, n, x, p); PushValues(T, n, R, x, p);
    case Peek(p) => SameValues(T, R, x, DoPeek(x, p));
    case UnpackCell(p, c) => UnpackCellValues(T, R, x, p, c);
    case Pop(p) => PopValues(T, R, x, p);
  }

  lemma SameValues<V>(T: Topology, R: Rules<V>, x: State<V>, x': State<V>)
    requires ValuesOk(T, R, x) && x' == x.(received := x'.received)
    ensures ValuesOk(T, R, x')
  {
    SameCells(T, R, x, x');
    SameGhosts(T, R, x, x');
    SameSlots(T, R, x, x');
    SameMessages(T, R, x, x');
    SameOutside(T, R, x, x');
  }

  lemma MoveInv<V>(T: Topology, n: nat, R: Rules<V>, x: State<V>, m: Move)
    requires T.Valid() && Inv(T, n, R, x) && CanMove(T, n, x, m)
    ensures Inv(T, n, R, DoMove(T, n, R, x, m))
  {
    MoveCounts(T, n, R, x, m);
    MoveValues(T, n, R, x, m);
  }
}
