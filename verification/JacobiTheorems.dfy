/** What the halo exchange guarantees over whole runs: every interleaving computes the synchronous sweeps. */
module JacobiTheorems {
  import opened JacobiGrid
  import opened JacobiSweeps
  import opened JacobiProtocol
  import opened JacobiInvariant

  lemma InitInv<V>(T: Topology, n: nat, R: Rules<V>, x: State<V>)
    requires T.Valid() && Init(T, R, x)
    ensures Inv(T, n, R, x)
  {
    forall s | IsSubgrid(T, s) ensures DriftOk(T, n, x, s) {}
    forall p | IsPort(T, p) ensures ChainOk(T, n, x, p) {}
    forall c | InDomain(T, c) ensures CellOk(T, R, x, c) { assert At(R, x, 0, ProcessOf(Owner(c)), c) == R.one; }
    forall p, c | IsPort(T, p) && InGhost(T, p.s, p.f, c) ensures GhostOk(T, R, x, p, c) {
      assert At(R, x, 0, ProcessOf(p.s), c) == R.one;
      GhostIsUnique(T, p, p, c);
    }
    forall b: nat, process, c | !InDomain(T, c) ensures OutsideOk(R, x, b, process, c) {}
  }

  lemma StepKeepsInv<V>(T: Topology, n: nat, R: Rules<V>, x: State<V>, x': State<V>)
    requires T.Valid() && Inv(T, n, R, x) && Step(T, n, R, x, x')
    ensures Inv(T, n, R, x')
  {
    var m :| CanMove(T, n, x, m) && x' == DoMove(T, n, R, x, m);
    MoveInv(T, n, R, x, m);
  }

  lemma {:induction false} RunInv<V>(T: Topology, n: nat, R: Rules<V>, tr: seq<State<V>>, i: nat)
    requires T.Valid() && IsRun(T, n, R, tr) && i < |tr|
    ensures Inv(T, n, R, tr[i])
    decreases i
  {
    if i == 0 {
      InitInv(T, n, R, tr[0]);
    } else {
      RunInv(T, n, R, tr, i - 1);
      assert StepAt(T, n, R, tr, i - 1);
      StepKeepsInv(T, n, R, tr[i - 1], tr[i]);
    }
  }

  // ---------------------------------------------------------------------------------------------------------
  // Values
  // ---------------------------------------------------------------------------------------------------------

  lemma DomainIsWellFormed(T: Topology, c: Cell)
    requires InDomain(T, c)
    ensures WellFormed(T, c)
  {
    forall a ensures Digits(T.sizes.At(a), c.At(a)) { assert IsPos(T.sizes.At(a), Owner(c).At(a)); }
  }

  /** At any time while a subgrid computes iteration k, everything its stencil may read holds the values of the global
      grid after exactly k synchronous sweeps: in the subgrid itself, in local neighbours and in the ghost layers. */
  lemma ReadsAreSynchronous<V>(T: Topology, n: nat, R: Rules<V>, tr: seq<State<V>>, i: nat, c: Cell, j: nat)
    requires T.Valid() && IsRun(T, n, R, tr) && i < |tr|
    requires InDomain(T, c) && Owner(c) in tr[i].busy && j < Reads(T)
    ensures var k := Computed(tr[i], Owner(c));
      At(R, tr[i], k, ProcessOf(Owner(c)), Read(T, c, j)) == GlobalValue(Extent(T), T.depth, R, k, ReadPoint(Flat(T, c), j))
  {
    RunInv(T, n, R, tr, i);
    ReadIsValue(T, n, R, tr[i], c, j);
    DomainIsWellFormed(T, c);
    if j > 0 { ShiftIsFlat(T, c, Direction((j - 1) % 6), (j - 1) / 6 + 1); }
    ValueIsGlobal(T, R, Computed(tr[i], Owner(c)), Read(T, c, j));
  }

  /** What the invariant says of the buffers once every subgrid has computed n iterations. */
  lemma SweepsInBuffers<V>(T: Topology, n: nat, R: Rules<V>, x: State<V>, q: Vec<int>)
    requires T.Valid() && Inv(T, n, R, x)
    requires (forall s :: IsSubgrid(T, s) ==> Computed(x, s) == n) && InExtent(Extent(T), q)
    ensures var c := CellAt(T, q);
      && At(R, x, n, ProcessOf(Owner(c)), c) == GlobalValue(Extent(T), T.depth, R, n, q)
      && (n > 0 ==> At(R, x, n + 1, ProcessOf(Owner(c)), c) == GlobalValue(Extent(T), T.depth, R, n - 1, q))
  {
    var c := CellAt(T, q);
    CellAtFlat(T, q);
    assert CellOk(T, R, x, c) && DriftOk(T, n, x, Owner(c));
    ValueIsGlobal(T, R, n, c);
    if n > 0 { ValueIsGlobal(T, R, n - 1, c); }
  }

  /** Once every subgrid has computed n iterations, one buffer holds n sweeps of the global grid, the other n - 1. */
  lemma ResultIsSynchronous<V>(T: Topology, n: nat, R: Rules<V>, tr: seq<State<V>>, i: nat, q: Vec<int>)
    requires T.Valid() && IsRun(T, n, R, tr) && i < |tr|
    requires (forall s :: IsSubgrid(T, s) ==> Computed(tr[i], s) == n) && InExtent(Extent(T), q)
    ensures var c := CellAt(T, q);
      && At(R, tr[i], n, ProcessOf(Owner(c)), c) == GlobalValue(Extent(T), T.depth, R, n, q)
      && (n > 0 ==> At(R, tr[i], n + 1, ProcessOf(Owner(c)), c) == GlobalValue(Extent(T), T.depth, R, n - 1, q))
  {
    RunInv(T, n, R, tr, i);
    SweepsInBuffers(T, n, R, tr[i], q);
  }

  // ---------------------------------------------------------------------------------------------------------
  // Drift and messages in flight
  // ---------------------------------------------------------------------------------------------------------

  lemma MessagesInFlight<V>(T: Topology, n: nat, x: State<V>, p: Port)
    requires T.Valid() && CountsOk(T, n, x) && IsPort(T, p)
    ensures |Channel(x, p)| <= 2 && Computed(x, p.s) <= Computed(x, Peer(T, p).s) + 1
  {
    PeerBack(T, p);
    assert ChainOk(T, n, x, p) && ChainOk(T, n, x, Peer(T, p));
  }

  /** Adjacent subgrids, of one process or of two, are never more than one iteration apart. */
  lemma DriftIsBounded<V>(T: Topology, n: nat, R: Rules<V>, tr: seq<State<V>>, i: nat, s: Subgrid, f: Face)
    requires T.Valid() && IsRun(T, n, R, tr) && i < |tr| && IsSubgrid(T, s) && KindOf(T, s, f) != BOUNDARY
    ensures -1 <= Computed(tr[i], s) - Computed(tr[i], Neighbor(T, s, f)) <= 1
  {
    RunInv(T, n, R, tr, i);
    NeighborBack(T, s, f);
    if KindOf(T, s, f) == LOCAL {
      assert DriftOk(T, n, tr[i], s) && DriftOk(T, n, tr[i], Neighbor(T, s, f));
      assert KindOf(T, Neighbor(T, s, f), Opposite(f)) == LOCAL;
    } else {
      MessagesInFlight(T, n, tr[i], Port(s, f));
      PeerBack(T, Port(s, f));
      MessagesInFlight(T, n, tr[i], Peer(T, Port(s, f)));
    }
  }

  /** A channel never holds more than two messages; a send task that may run never finds its channel full. */
  lemma PushNeverWaits<V>(T: Topology, n: nat, R: Rules<V>, tr: seq<State<V>>, i: nat, p: Port)
    requires T.Valid() && IsRun(T, n, R, tr) && i < |tr| && IsPort(T, p)
    ensures |Channel(tr[i], p)| <= 2
    ensures PortReady(T, n, tr[i], Send, p, Sent(tr[i], p)) ==> CanMove(T, n, tr[i], Push(p))
  {
    RunInv(T, n, R, tr, i);
    PeerBack(T, p);
    MessagesInFlight(T, n, tr[i], p);
    MessagesInFlight(T, n, tr[i], Peer(T, p));
  }

  /** The message that the receive task of iteration k finds at the head of its channel is the neighbour's of that
      iteration: its cells along the face after k + 1 sweeps. */
  lemma HeadIsNextMessage<V>(T: Topology, n: nat, R: Rules<V>, tr: seq<State<V>>, i: nat, p: Port, c: Cell)
    requires T.Valid() && IsRun(T, n, R, tr) && i < |tr| && CanMove(T, n, tr[i], Peek(p)) && InGhost(T, p.s, p.f, c)
    ensures var k := Received(tr[i], p);
      Lookup(Channel(tr[i], p)[0], c, R.zero) == GlobalValue(Extent(T), T.depth, R, k + 1, Flat(T, c))
  {
    RunInv(T, n, R, tr, i);
    ReceiveFacts(T, n, tr[i], p);
    assert ChainOk(T, n, tr[i], p) && MessageOk(T, R, tr[i], p, 0, c);
    GhostIsUnique(T, p, p, c);
    DomainIsWellFormed(T, c);
    ValueIsGlobal(T, R, Received(tr[i], p) + 1, c);
  }

  // ---------------------------------------------------------------------------------------------------------
  // Progress
  // ---------------------------------------------------------------------------------------------------------

  lemma PackMoves<V>(T: Topology, n: nat, x: State<V>, p: Port) returns (m: Move)
    requires PortReady(T, n, x, Pack, p, Packed(x, p))
    ensures CanMove(T, n, x, m)
  {
    if c :| InSlab(T, p.s, p.f, c) && Slot(p, c) !in x.packing {
      m := PackCell(p, c);
    } else {
      m := EndPack(p);
    }
  }

  lemma UnpackMoves<V>(T: Topology, n: nat, x: State<V>, p: Port) returns (m: Move)
    requires PortReady(T, n, x, Unpack, p, Unpacked(x, p)) && Channel(x, p) != []
    ensures CanMove(T, n, x, m)
  {
    if c :| InGhost(T, p.s, p.f, c) && Slot(p, c) !in x.unpacking {
      m := UnpackCell(p, c);
    } else {
      m := Pop(p);
    }
  }

  /** Of the ports of a subgrid that a task has not been through, one has its turn. */
  lemma {:induction false} SomeTurn<V>(T: Topology, x: State<V>, work: Work, p: Port, it: nat) returns (q: Port)
    requires IsPort(T, p) && Count(x, work, p) <= it
    requires forall f :: KindOf(T, p.s, f) == REMOTE ==> Count(x, work, Port(p.s, f)) >= it
    ensures IsPort(T, q) && q.s == p.s && Count(x, work, q) == it && Turn(T, x, work, q, it)
    decreases FaceIndex(p.f)
  {
    if f :| KindOf(T, p.s, f) == REMOTE && FaceIndex(f) < FaceIndex(p.f) && Count(x, work, Port(p.s, f)) <= it {
      q := SomeTurn(T, x, work, Port(p.s, f), it);
    } else {
      q := p;
      assert p == Port(p.s, p.f);
    }
  }

  /** A subgrid that has computed k iterations and sent fewer than k messages at a port can pack or send. */
  lemma {:induction false} SenderMoves<V>(T: Topology, n: nat, x: State<V>, p: Port, k: nat) returns (m: Move)
    requires T.Valid() && CountsOk(T, n, x) && IsPort(T, p) && Sent(x, p) < k < n && k <= Computed(x, p.s)
    ensures CanMove(T, n, x, m)
    decreases Sent(x, p)
  {
    var it := Sent(x, p);
    if f :| KindOf(T, p.s, f) == REMOTE && Sent(x, Port(p.s, f)) < it {
      m := SenderMoves(T, n, x, Port(p.s, f), k);
    } else if f :| KindOf(T, p.s, f) == REMOTE && Packed(x, Port(p.s, f)) <= it {
      forall g | KindOf(T, p.s, g) == REMOTE ensures Packed(x, Port(p.s, g)) >= it { assert ChainOk(T, n, x, Port(p.s, g)); }
      var q := SomeTurn(T, x, Pack, Port(p.s, f), it);
      forall t | DependsOn(T, Task(Pack, p.s, it), t) ensures Finished(T, x, t) {}
      m := PackMoves(T, n, x, q);
    } else {
      var q := SomeTurn(T, x, Send, p, it);
      PeerBack(T, q);
      MessagesInFlight(T, n, x, Peer(T, q));
      forall t | DependsOn(T, Task(Send, p.s, it), t) ensures Finished(T, x, t) {}
      m := Push(q);
    }
  }

  /** The receive task of iteration k - 1 can peek at the face whose turn it is, or else the sender of the message it
      waits for, which has computed k iterations, can move. */
  lemma PeekMoves<V>(T: Topology, n: nat, x: State<V>, p: Port, k: nat) returns (m: Move)
    requires T.Valid() && CountsOk(T, n, x) && IsPort(T, p) && 0 < k < n && Received(x, p) < k
    requires forall u :: IsSubgrid(T, u) ==> Computed(x, u) >= k
    requires forall f :: KindOf(T, p.s, f) == REMOTE ==> Unpacked(x, Port(p.s, f)) >= k - 1
    ensures CanMove(T, n, x, m)
  {
    forall f | KindOf(T, p.s, f) == REMOTE ensures Received(x, Port(p.s, f)) >= k - 1 { assert ChainOk(T, n, x, Port(p.s, f)); }
    var q := SomeTurn(T, x, Receive, p, k - 1);
    if Channel(x, q) != [] {
      forall t | DependsOn(T, Task(Receive, p.s, k - 1), t) ensures Finished(T, x, t) {}
      m := Peek(q);
    } else {
      PeerBack(T, q);
      assert ChainOk(T, n, x, q);
      m := SenderMoves(T, n, x, Peer(T, q), k);
    }
  }

  /** All messages of iteration k - 1 have been peeked at, and at port p it has not been unpacked. */
  lemma UnpackerMoves<V>(T: Topology, n: nat, x: State<V>, p: Port, k: nat) returns (m: Move)
    requires T.Valid() && CountsOk(T, n, x) && IsPort(T, p) && Computed(x, p.s) == k && 0 < k < n && Unpacked(x, p) < k
    requires forall f :: KindOf(T, p.s, f) == REMOTE ==> Unpacked(x, Port(p.s, f)) >= k - 1 && Received(x, Port(p.s, f)) >= k
    ensures CanMove(T, n, x, m)
  {
    var q := SomeTurn(T, x, Unpack, p, k - 1);
    assert ChainOk(T, n, x, q) && q == Port(p.s, q.f);
    forall t | DependsOn(T, Task(Unpack, p.s, k - 1), t) ensures Finished(T, x, t) {}
    m := UnpackMoves(T, n, x, q);
  }

  /** The subgrid has computed k iterations and no subgrid has computed fewer: a port without message k can move. */
  lemma ReceiverMoves<V>(T: Topology, n: nat, x: State<V>, p: Port, k: nat) returns (m: Move)
    requires T.Valid() && CountsOk(T, n, x) && IsPort(T, p) && Computed(x, p.s) == k && 0 < k < n
    requires (forall u :: IsSubgrid(T, u) ==> Computed(x, u) >= k) && Unpacked(x, p) < k
    ensures CanMove(T, n, x, m)
  {
    var s := p.s;
    forall f | KindOf(T, s, f) == REMOTE ensures Unpacked(x, Port(s, f)) >= k - 1 { assert ChainOk(T, n, x, Port(s, f)); }
    if f :| KindOf(T, s, f) == REMOTE && Received(x, Port(s, f)) < k {
      m := PeekMoves(T, n, x, Port(s, f), k);
    } else {
      m := UnpackerMoves(T, n, x, p, k);
    }
  }

  /** As long as a subgrid has iterations to compute, some task can take a step: the exchange never deadlocks. */
  lemma {:induction false} NeverDeadlocks<V>(T: Topology, n: nat, x: State<V>, s: Subgrid) returns (m: Move)
    requires T.Valid() && CountsOk(T, n, x) && IsSubgrid(T, s) && Computed(x, s) < n
    ensures CanMove(T, n, x, m)
    decreases Computed(x, s)
  {
    var k := Computed(x, s);
    if u :| IsSubgrid(T, u) && Computed(x, u) < k {
      m := NeverDeadlocks(T, n, x, u);
    } else if s in x.busy {
      if c :| Owns(T, s, c) && c !in x.written { m := WriteCell(c); } else { m := EndCompute(s); }
    } else if f :| KindOf(T, s, f) == REMOTE && Packed(x, Port(s, f)) < k {
      assert ChainOk(T, n, x, Port(s, f));
      m := SenderMoves(T, n, x, Port(s, f), k);
    } else if f :| KindOf(T, s, f) == REMOTE && Unpacked(x, Port(s, f)) < k {
      m := ReceiverMoves(T, n, x, Port(s, f), k);
    } else {
      forall t | DependsOn(T, Task(Compute, s, k), t) ensures Finished(T, x, t) {
        if t.s != s {
          var f :| KindOf(T, s, f) == LOCAL && t.s == Neighbor(T, s, f);
          NeighborBack(T, s, f);
        }
      }
      m := StartCompute(s);
    }
  }

  /** When every subgrid has computed its iterations, every exchange is complete and every channel is empty. */
  lemma NothingLeftBehind<V>(T: Topology, n: nat, x: State<V>, p: Port)
    requires T.Valid() && CountsOk(T, n, x) && IsPort(T, p) && n > 0
    requires forall s :: IsSubgrid(T, s) ==> Computed(x, s) == n
    ensures Packed(x, p) == Sent(x, p) == Received(x, p) == Unpacked(x, p) == n - 1 && Channel(x, p) == []
  {
    PeerBack(T, p);
    assert ChainOk(T, n, x, p) && ChainOk(T, n, x, Peer(T, p));
  }

  // ---------------------------------------------------------------------------------------------------------
  // Termination
  // ---------------------------------------------------------------------------------------------------------

  /** A step of a task in an iteration. */
  datatype Event = Event(m: Move, it: nat)

  /** The iteration to which the step m belongs when it is taken in state x. */
  function Iteration<V>(x: State<V>, m: Move): nat {
    match m
    case StartCompute(s) => Computed(x, s)
    case WriteCell(c) => Computed(x, Owner(c))
    case EndCompute(s) => Computed(x, s)
    case PackCell(p, _) => Packed(x, p)
    case EndPack(p) => Packed(x, p)
    case Push(p) => Sent(x, p)
    case Peek(p) => Received(x, p)
    case UnpackCell(p, _) => Unpacked(x, p)
    case Pop(p) => Unpacked(x, p)
  }

  /** The step has been taken, as far as the task at work in its iteration has come. */
  predicate Happened<V>(x: State<V>, e: Event) {
    || Iteration(x, e.m) > e.it
    || (&& Iteration(x, e.m) == e.it
        && match e.m
           case StartCompute(s) => s in x.busy
           case WriteCell(c) => Owner(c) in x.busy && c in x.written
           case PackCell(p, c) => Slot(p, c) in x.packing
           case UnpackCell(p, c) => Slot(p, c) in x.unpacking
           case _ => false)
  }

  lemma StartStays<V>(x: State<V>, s: Subgrid, e: Event)
    requires s !in x.busy && Happened(x, e)
    ensures Happened(DoStart(x, s), e)
  {}

  lemma WriteStays<V>(T: Topology, R: Rules<V>, x: State<V>, c: Cell, e: Event)
    requires Happened(x, e)
    ensures Happened(DoWrite(T, R, x, c), e)
  {}

  lemma EndStays<V>(x: State<V>, s: Subgrid, e: Event)
    requires Happened(x, e)
    ensures Happened(DoEnd(x, s), e)
  {}

  lemma PackCellStays<V>(R: Rules<V>, x: State<V>, p: Port, c: Cell, e: Event)
    requires Happened(x, e)
    ensures Happened(DoPackCell(R, x, p, c), e)
  {}

  lemma EndPackStays<V>(x: State<V>, p: Port, e: Event)
    requires Happened(x, e)
    ensures Happened(DoEndPack(x, p), e)
  {}

  lemma PushStays<V>(T: Topology, x: State<V>, p: Port, e: Event)
    requires Happened(x, e)
    ensures Happened(DoPush(T, x, p), e)
  {}

  lemma PeekStays<V>(x: State<V>, p: Port, e: Event)
    requires Happened(x, e)
    ensures Happened(DoPeek(x, p), e)
  {}

  lemma UnpackCellStays<V>(R: Rules<V>, x: State<V>, p: Port, c: Cell, e: Event)
    requires Channel(x, p) != [] && Happened(x, e)
    ensures Happened(DoUnpackCell(R, x, p, c), e)
  {}

  lemma PopStays<V>(x: State<V>, p: Port, e: Event)
    requires Channel(x, p) != [] && Happened(x, e)
    ensures Happened(DoPop(x, p), e)
  {}

  lemma HappenedStays<V>(T: Topology, n: nat, R: Rules<V>, x: State<V>, m: Move, e: Event)
    requires CanMove(T, n, x, m) && Happened(x, e)
    ensures Happened(DoMove(T, n, R, x, m), e)
  {
    match m
    case StartCompute(s) => StartStays(x, s, e);
    case WriteCell(c) => WriteStays(T, R, x, c, e);
    case EndCompute(s) => EndStays(x, s, e);
    case PackCell(p, c) => PackCellStays(R, x, p, c, e);
    case EndPack(p) => EndPackStays(x, p, e);
    case Push(p) => PushStays(T, x, p, e);
    case Peek(p) => PeekStays(x, p, e);
    case UnpackCell(p, c) => UnpackCellStays(R, x, p, c, e);
    case Pop(p) => PopStays(x, p, e);
  }

  lemma HappensOnce<V>(T: Topology, n: nat, R: Rules<V>, x: State<V>, m: Move)
    requires CanMove(T, n, x, m)
    ensures !Happened(x, Event(m, Iteration(x, m))) && Happened(DoMove(T, n, R, x, m), Event(m, Iteration(x, m)))
  {}

  function Positions(z: Sizes): set<Pos> {
    set p: int, l: int | 0 <= p < z.pt && 0 <= l < z.lt :: Pos(p, l)
  }

  function Subgrids(T: Topology): set<Subgrid> {
    set a, b, c | a in Positions(T.sizes.x) && b in Positions(T.sizes.y) && c in Positions(T.sizes.z) :: Vec(a, b, c)
  }

  function Coords(z: Sizes): set<Coord> {
    set i, o: int | i in Positions(z) && 0 <= o < z.ls :: Coord(i, o)
  }

  function Cells(T: Topology): set<Cell> {
    set a, b, c | a in Coords(T.sizes.x) && b in Coords(T.sizes.y) && c in Coords(T.sizes.z) :: Vec(a, b, c)
  }

  function Faces(): set<Face> {
    {Face(X, false), Face(X, true), Face(Y, false), Face(Y, true), Face(Z, false), Face(Z, true)}
  }

  function Ports(T: Topology): set<Port> {
    set s, f | s in Subgrids(T) && f in Faces() :: Port(s, f)
  }

  function Moves(T: Topology): set<Move> {
    (set s | s in Subgrids(T) :: StartCompute(s)) + (set c | c in Cells(T) :: WriteCell(c))
    + (set s | s in Subgrids(T) :: EndCompute(s)) + (set p, c | p in Ports(T) && c in Cells(T) :: PackCell(p, c))
    + (set p | p in Ports(T) :: EndPack(p)) + (set p | p in Ports(T) :: Push(p)) + (set p | p in Ports(T) :: Peek(p))
    + (set p, c | p in Ports(T) && c in Cells(T) :: UnpackCell(p, c)) + (set p | p in Ports(T) :: Pop(p))
  }

  /** The steps of all tasks of n iterations. */
  function Events(T: Topology, n: nat): set<Event> {
    set m, it: nat | m in Moves(T) && it < n :: Event(m, it)
  }

  function Done<V>(T: Topology, n: nat, x: State<V>): set<Event> {
    set e | e in Events(T, n) && Happened(x, e)
  }

  lemma SubgridListed(T: Topology, s: Subgrid)
    requires IsSubgrid(T, s)
    ensures s in Subgrids(T)
  {
    assert IsPos(T.sizes.At(X), s.At(X)) && IsPos(T.sizes.At(Y), s.At(Y)) && IsPos(T.sizes.At(Z), s.At(Z));
    assert s == Vec(Pos(s.x.p, s.x.l), Pos(s.y.p, s.y.l), Pos(s.z.p, s.z.l));
  }

  lemma CellListed(T: Topology, c: Cell)
    requires InDomain(T, c)
    ensures c in Cells(T)
  {
    var s := Owner(c);
    assert IsPos(T.sizes.At(X), s.At(X)) && IsPos(T.sizes.At(Y), s.At(Y)) && IsPos(T.sizes.At(Z), s.At(Z));
    assert 0 <= c.At(X).o < T.sizes.At(X).ls && 0 <= c.At(Y).o < T.sizes.At(Y).ls && 0 <= c.At(Z).o < T.sizes.At(Z).ls;
    assert c.x.pos == Pos(c.x.pos.p, c.x.pos.l) && c.y.pos == Pos(c.y.pos.p, c.y.pos.l) && c.z.pos == Pos(c.z.pos.p, c.z.pos.l);
    assert c.x == Coord(c.x.pos, c.x.o) && c.y == Coord(c.y.pos, c.y.o) && c.z == Coord(c.z.pos, c.z.o);
    assert c == Vec(c.x, c.y, c.z);
  }

  lemma PortListed(T: Topology, p: Port)
    requires IsPort(T, p)
    ensures p in Ports(T)
  {
    SubgridListed(T, p.s);
    assert p.f == Face(p.f.axis, p.f.high) && p.f in Faces();
    assert p == Port(p.s, p.f);
  }

  lemma MoveListed<V>(T: Topology, n: nat, x: State<V>, m: Move)
    requires T.Valid() && CountsOk(T, n, x) && CanMove(T, n, x, m)
    ensures m in Moves(T)
  {
    match m
    case StartCompute(s) => SubgridListed(T, s);
    case WriteCell(c) => CellListed(T, c);
    case EndCompute(s) => SubgridListed(T, s);
    case PackCell(p, c) => PortListed(T, p); CellListed(T, c);
    case EndPack(p) => PortListed(T, p);
    case Push(p) => PortListed(T, p);
    case Peek(p) => PortListed(T, p);
    case UnpackCell(p, c) => PortListed(T, p); NeighborBack(T, p.s, p.f); CellListed(T, c);
    case Pop(p) => PortListed(T, p);
  }

  lemma IterationBelow<V>(T: Topology, n: nat, x: State<V>, m: Move)
    requires CountsOk(T, n, x) && CanMove(T, n, x, m)
    ensures Iteration(x, m) < n
  {
    match m
    case WriteCell(c) => assert DriftOk(T, n, x, Owner(c));
    case EndCompute(s) => assert DriftOk(T, n, x, s);
    case _ =>
  }

  lemma DoneStays<V>(T: Topology, n: nat, R: Rules<V>, x: State<V>, m: Move, d: Event)
    requires CanMove(T, n, x, m) && d in Done(T, n, x)
    ensures d in Done(T, n, DoMove(T, n, R, x, m))
  {
    HappenedStays(T, n, R, x, m, d);
  }

  lemma NewEvent<V>(T: Topology, n: nat, R: Rules<V>, x: State<V>, m: Move)
    requires T.Valid() && CountsOk(T, n, x) && CanMove(T, n, x, m)
    ensures var e := Event(m, Iteration(x, m)); e !in Done(T, n, x) && e in Done(T, n, DoMove(T, n, R, x, m))
  {
    MoveListed(T, n, x, m);
    IterationBelow(T, n, x, m);
    HappensOnce(T, n, R, x, m);
  }

  lemma MoveAddsEvent<V>(T: Topology, n: nat, R: Rules<V>, x: State<V>, m: Move)
    requires T.Valid() && CountsOk(T, n, x) && CanMove(T, n, x, m)
    ensures |Done(T, n, DoMove(T, n, R, x, m))| > |Done(T, n, x)|
  {
    NewEvent(T, n, R, x, m);
    forall d | d in Done(T, n, x) ensures d in Done(T, n, DoMove(T, n, R, x, m)) { DoneStays(T, n, R, x, m, d); }
    Larger(Done(T, n, x), Done(T, n, DoMove(T, n, R, x, m)), Event(m, Iteration(x, m)));
  }

  lemma Larger<E>(a: set<E>, b: set<E>, e: E)
    requires (forall d :: d in a ==> d in b) && e in b && e !in a
    ensures |b| > |a|
  {
    SubsetSize(a + {e}, b);
  }

  lemma SubsetSize<E>(a: set<E>, b: set<E>)
    requires a <= b
    ensures |a| <= |b|
  {
    assert b == a + (b - a);
  }

  lemma StepAddsEvent<V>(T: Topology, n: nat, R: Rules<V>, x: State<V>, x': State<V>)
    requires T.Valid() && CountsOk(T, n, x) && Step(T, n, R, x, x')
    ensures |Done(T, n, x')| > |Done(T, n, x)|
  {
    var m :| CanMove(T, n, x, m) && x' == DoMove(T, n, R, x, m);
    MoveAddsEvent(T, n, R, x, m);
  }

  lemma RunCounts<V>(T: Topology, n: nat, R: Rules<V>, tr: seq<State<V>>, i: nat)
    requires T.Valid() && IsRun(T, n, R, tr) && i < |tr|
    ensures CountsOk(T, n, tr[i])
  {
    RunInv(T, n, R, tr, i);
  }

  /** Step i of the run takes a step of a task that was not taken before. */
  predicate AddsEvent<V>(T: Topology, n: nat, tr: seq<State<V>>, i: nat)
    requires i + 1 < |tr|
  {
    |Done(T, n, tr[i + 1])| > |Done(T, n, tr[i])|
  }

  lemma RunAddsEvent<V>(T: Topology, n: nat, R: Rules<V>, tr: seq<State<V>>, i: nat)
    requires T.Valid() && IsRun(T, n, R, tr) && i + 1 < |tr|
    ensures AddsEvent(T, n, tr, i)
  {
    RunCounts(T, n, R, tr, i);
    assert StepAt(T, n, R, tr, i);
    StepAddsEvent(T, n, R, tr[i], tr[i + 1]);
  }

  ghost predicate GrowsAt<S>(size: S -> nat, tr: seq<S>, j: nat)
    requires j + 1 < |tr|
  {
    size(tr[j]) < size(tr[j + 1])
  }

  lemma {:induction false} Growing<S>(size: S -> nat, tr: seq<S>, i: nat)
    requires i < |tr| && forall j :: 0 <= j < |tr| - 1 ==> GrowsAt(size, tr, j)
    ensures size(tr[i]) >= i
    decreases i
  {
    if i > 0 {
      Growing(size, tr, i - 1);
      assert GrowsAt(size, tr, i - 1);
    }
  }

  /** How many steps have been taken in state x. */
  function Taken<V>(T: Topology, n: nat, x: State<V>): (k: nat)
    ensures k <= |Events(T, n)|
  {
    SubsetSize(Done(T, n, x), Events(T, n));
    |Done(T, n, x)|
  }

  lemma RunTakes<V>(T: Topology, n: nat, R: Rules<V>, tr: seq<State<V>>, i: nat)
    requires T.Valid() && IsRun(T, n, R, tr) && i + 1 < |tr|
    ensures Taken(T, n, tr[i]) < Taken(T, n, tr[i + 1])
  {
    RunAddsEvent(T, n, R, tr, i);
  }

  /** Every run is finite, with a bound that depends on the grid only. */
  lemma RunsAreFinite<V>(T: Topology, n: nat, R: Rules<V>, tr: seq<State<V>>)
    requires T.Valid() && IsRun(T, n, R, tr)
    ensures |tr| <= |Events(T, n)| + 1
  {
    var size := (x: State<V>) => Taken(T, n, x);
    forall j | 0 <= j < |tr| - 1 ensures GrowsAt(size, tr, j) { RunTakes(T, n, R, tr, j); }
    Growing(size, tr, |tr| - 1);
  }

  /** Where no task can take a step, all iterations are computed and every message has been delivered. */
  lemma StuckIsComplete<V>(T: Topology, n: nat, x: State<V>)
    requires T.Valid() && CountsOk(T, n, x) && forall m :: !CanMove(T, n, x, m)
    ensures forall s :: IsSubgrid(T, s) ==> Computed(x, s) == n
    ensures forall p :: IsPort(T, p) ==> Channel(x, p) == []
  {
    forall s | IsSubgrid(T, s) ensures Computed(x, s) == n {
      assert DriftOk(T, n, x, s);
      if Computed(x, s) < n { var m := NeverDeadlocks(T, n, x, s); }
    }
    forall p | IsPort(T, p) ensures Channel(x, p) == [] {
      NeighborBack(T, p.s, p.f);
      if n > 0 {
        NothingLeftBehind(T, n, x, p);
      } else {
        PeerBack(T, p);
        assert ChainOk(T, n, x, p) && ChainOk(T, n, x, Peer(T, p));
      }
    }
  }

  /** A run that cannot go on has computed all iterations and delivered every message. */
  lemma RunsComplete<V>(T: Topology, n: nat, R: Rules<V>, tr: seq<State<V>>, x: State<V>)
    requires T.Valid() && IsRun(T, n, R, tr) && x == tr[|tr| - 1] && forall m :: !CanMove(T, n, x, m)
    ensures forall s :: IsSubgrid(T, s) ==> Computed(x, s) == n
    ensures forall p :: IsPort(T, p) ==> Channel(x, p) == []
  {
    RunCounts(T, n, R, tr, |tr| - 1);
    StuckIsComplete(T, n, x);
  }

  /** The cells that the buffers of the processes can hold. */
  function Locations(T: Topology): set<Loc> {
    set b: nat, s, c | b < 2 && s in Subgrids(T) && c in Cells(T) :: Loc(b, ProcessOf(s), c)
  }

  /** The exchange has an initial state: the values that resetting leaves can be held by finitely many cells. */
  lemma InitExists<V>(T: Topology, R: Rules<V>) returns (x: State<V>)
    requires T.Valid()
    ensures Init(T, R, x)
  {
    x := State(map[], {}, {}, map[], map[], map[], map[], {}, {}, map[], map[], map l | l in Locations(T) :: R.one);
    forall b: nat, s, c | IsSubgrid(T, s) && InDomain(T, c) ensures At(R, x, b, ProcessOf(s), c) == R.one {
      SubgridListed(T, s);
      CellListed(T, c);
      assert Loc(b % 2, ProcessOf(s), c) in Locations(T);
    }
    forall b: nat, p, c | IsPort(T, p) && InGhost(T, p.s, p.f, c) ensures At(R, x, b, ProcessOf(p.s), c) == R.one {
      GhostIsUnique(T, p, p, c);
    }
    forall b: nat, process, c | !InDomain(T, c) ensures At(R, x, b, process, c) == R.zero {
      if Loc(b % 2, process, c) in Locations(T) { CellsInDomain(T, c); }
    }
  }

  lemma CellsInDomain(T: Topology, c: Cell)
    requires c in Cells(T)
    ensures InDomain(T, c)
  {
    assert c.x in Coords(T.sizes.x) && c.y in Coords(T.sizes.y) && c.z in Coords(T.sizes.z);
    forall a ensures IsPos(T.sizes.At(a), Owner(c).At(a)) && 0 <= c.At(a).o < T.sizes.At(a).ls {
      match a
      case X =>
      case Y =>
      case Z =>
    }
  }
}
