/**
The tasks of all processes as a state machine: every cell a compute, pack or unpack task writes, every push to and
every peek at a channel is a step, and all tasks whose predecessors are done interleave.
*/
module JacobiProtocol {
  import opened JacobiGrid
  import opened JacobiSweeps

  const CHANNEL_DEPTH: nat := 10

  // ---------------------------------------------------------------------------------------------------------
  // The task graph
  // ---------------------------------------------------------------------------------------------------------

  datatype Work = Compute | Pack | Send | Receive | Unpack

  /** The task of a subgrid in an iteration. */
  datatype Task = Task(work: Work, s: Subgrid, it: nat)

  /** Task t was given a dependency on task p when the graph was built. */
  ghost predicate DependsOn(T: Topology, t: Task, p: Task) {
    match t.work
    case Compute =>
      t.it > 0 && p.it == t.it - 1
      && (|| (p.s == t.s && (p.work == Compute || p.work == Pack || p.work == Unpack))
          || (p.work == Compute && exists f :: KindOf(T, t.s, f) == LOCAL && p.s == Neighbor(T, t.s, f)))
    case Receive => t.it > 0 && p == Task(Unpack, t.s, t.it - 1)
    case Unpack => p == Task(Receive, t.s, t.it) || p == Task(Compute, t.s, t.it)
    case Pack => p == Task(Compute, t.s, t.it) || (t.it > 0 && p == Task(Send, t.s, t.it - 1))
    case Send => p == Task(Pack, t.s, t.it)
  }

  // ---------------------------------------------------------------------------------------------------------
  // States
  // ---------------------------------------------------------------------------------------------------------

  function Lookup<K, V>(m: map<K, V>, k: K, default: V): V {
    if k in m then m[k] else default
  }

  /** A cell in one of the two buffers of a process. */
  datatype Loc = Loc(buffer: nat, process: Vec<int>, c: Cell)

  datatype Slot = Slot(port: Port, c: Cell)

  type Message<V> = map<Cell, V>

  datatype State<!V> = State(
    computed: map<Subgrid, nat>,      // iterations computed
    busy: set<Subgrid>,               // at work on the next one
    written: set<Cell>,               // cells written in it
    packed: map<Port, nat>,           // messages packed, sent, received (peeked at) and unpacked at every port
    sent: map<Port, nat>,
    received: map<Port, nat>,
    unpacked: map<Port, nat>,
    packing: set<Slot>,               // cells copied so far by the next pack and unpack
    unpacking: set<Slot>,
    slots: map<Port, Message<V>>,     // pack buffers
    channels: map<Port, seq<Message<V>>>,  // the channel from which a port receives, oldest message first
    mem: map<Loc, V>)

  function Computed<V>(x: State<V>, s: Subgrid): nat { Lookup(x.computed, s, 0) }
  function Packed<V>(x: State<V>, p: Port): nat { Lookup(x.packed, p, 0) }
  function Sent<V>(x: State<V>, p: Port): nat { Lookup(x.sent, p, 0) }
  function Received<V>(x: State<V>, p: Port): nat { Lookup(x.received, p, 0) }
  function Unpacked<V>(x: State<V>, p: Port): nat { Lookup(x.unpacked, p, 0) }
  function PackBuffer<V>(x: State<V>, p: Port): Message<V> { Lookup(x.slots, p, map[]) }
  function Channel<V>(x: State<V>, p: Port): seq<Message<V>> { Lookup(x.channels, p, []) }

  /** The value of cell c in the buffer of the given parity; what was never written is zero. */
  function At<V>(R: Rules<V>, x: State<V>, parity: nat, process: Vec<int>, c: Cell): V {
    Lookup(x.mem, Loc(parity % 2, process, c), R.zero)
  }

  ghost predicate Finished<V>(T: Topology, x: State<V>, t: Task) {
    match t.work
    case Compute => Computed(x, t.s) > t.it
    case Pack => forall f :: KindOf(T, t.s, f) == REMOTE ==> Packed(x, Port(t.s, f)) > t.it
    case Send => forall f :: KindOf(T, t.s, f) == REMOTE ==> Sent(x, Port(t.s, f)) > t.it
    case Receive => forall f :: KindOf(T, t.s, f) == REMOTE ==> Received(x, Port(t.s, f)) > t.it
    case Unpack => forall f :: KindOf(T, t.s, f) == REMOTE ==> Unpacked(x, Port(t.s, f)) > t.it
  }

  /** The task may run: all its predecessors are done. */
  ghost predicate Ready<V>(T: Topology, x: State<V>, t: Task) {
    forall p :: DependsOn(T, t, p) ==> Finished(T, x, p)
  }

  // ---------------------------------------------------------------------------------------------------------
  // Steps
  // ---------------------------------------------------------------------------------------------------------

  datatype Move =
    | StartCompute(s: Subgrid)
    | WriteCell(c: Cell)
    | EndCompute(s: Subgrid)
    | PackCell(p: Port, c: Cell)
    | EndPack(p: Port)
    | Push(p: Port)
    | Peek(p: Port)
    | UnpackCell(p: Port, c: Cell)
    | Pop(p: Port)

  /** How many iterations of a task the port has been through. */
  function Count<V>(x: State<V>, work: Work, p: Port): nat {
    match work
    case Compute => Computed(x, p.s)
    case Pack => Packed(x, p)
    case Send => Sent(x, p)
    case Receive => Received(x, p)
    case Unpack => Unpacked(x, p)
  }

  /** The task of iteration `it` is through with all faces before that of port p. */
  ghost predicate Turn<V>(T: Topology, x: State<V>, work: Work, p: Port, it: nat) {
    forall f :: KindOf(T, p.s, f) == REMOTE && FaceIndex(f) < FaceIndex(p.f) ==> Count(x, work, Port(p.s, f)) > it
  }

  /** The port's next pack, send, receive or unpack may run, and within the task it is the port's turn; the last iteration
      exchanges nothing. */
  ghost predicate PortReady<V>(T: Topology, n: nat, x: State<V>, work: Work, p: Port, it: nat) {
    IsPort(T, p) && it + 1 < n && Ready(T, x, Task(work, p.s, it)) && Turn(T, x, work, p, it)
  }

  ghost predicate CanMove<V>(T: Topology, n: nat, x: State<V>, m: Move) {
    match m
    case StartCompute(s) =>
      IsSubgrid(T, s) && s !in x.busy && Computed(x, s) < n && Ready(T, x, Task(Compute, s, Computed(x, s)))
    case WriteCell(c) => InDomain(T, c) && Owner(c) in x.busy && c !in x.written
    case EndCompute(s) => s in x.busy && forall c :: Owns(T, s, c) ==> c in x.written
    case PackCell(p, c) =>
      PortReady(T, n, x, Pack, p, Packed(x, p)) && InSlab(T, p.s, p.f, c) && Slot(p, c) !in x.packing
    case EndPack(p) =>
      PortReady(T, n, x, Pack, p, Packed(x, p)) && forall c :: InSlab(T, p.s, p.f, c) ==> Slot(p, c) in x.packing
    case Push(p) => PortReady(T, n, x, Send, p, Sent(x, p)) && |Channel(x, Peer(T, p))| < CHANNEL_DEPTH
    case Peek(p) => PortReady(T, n, x, Receive, p, Received(x, p)) && Channel(x, p) != []
    case UnpackCell(p, c) =>
      && PortReady(T, n, x, Unpack, p, Unpacked(x, p)) && InGhost(T, p.s, p.f, c) && Slot(p, c) !in x.unpacking
      && Channel(x, p) != []
    case Pop(p) =>
      && PortReady(T, n, x, Unpack, p, Unpacked(x, p)) && (forall c :: InGhost(T, p.s, p.f, c) ==> Slot(p, c) in x.unpacking)
      && Channel(x, p) != []
  }

  /** What the stencil around c reads in iteration `it`. */
  function StencilReads<V>(T: Topology, R: Rules<V>, x: State<V>, it: nat, c: Cell): seq<V> {
    seq(Reads(T), i requires 0 <= i < Reads(T) => At(R, x, it, ProcessOf(Owner(c)), Read(T, c, i)))
  }

  function DoStart<V>(x: State<V>, s: Subgrid): State<V> {
    x.(busy := x.busy + {s}, written := set c | c in x.written && Owner(c) != s)
  }

  function DoWrite<V>(T: Topology, R: Rules<V>, x: State<V>, c: Cell): State<V> {
    var it := Computed(x, Owner(c));
    var v := R.update(StencilReads(T, R, x, it, c));
    x.(mem := x.mem[Loc((it + 1) % 2, ProcessOf(Owner(c)), c) := v], written := x.written + {c})
  }

  function DoEnd<V>(x: State<V>, s: Subgrid): State<V> {
    x.(computed := x.computed[s := Computed(x, s) + 1], busy := x.busy - {s})
  }

  function DoPackCell<V>(R: Rules<V>, x: State<V>, p: Port, c: Cell): State<V> {
    var v := At(R, x, Packed(x, p) + 1, ProcessOf(p.s), c);
    x.(slots := x.slots[p := PackBuffer(x, p)[c := v]], packing := x.packing + {Slot(p, c)})
  }

  function DoEndPack<V>(x: State<V>, p: Port): State<V> {
    x.(packed := x.packed[p := Packed(x, p) + 1], packing := set l | l in x.packing && l.port != p)
  }

  /** The message pushed is a copy of the pack buffer. */
  function DoPush<V>(T: Topology, x: State<V>, p: Port): State<V> {
    var q := Peer(T, p);
    x.(channels := x.channels[q := Channel(x, q) + [PackBuffer(x, p)]], sent := x.sent[p := Sent(x, p) + 1])
  }

  function DoPeek<V>(x: State<V>, p: Port): State<V> {
    x.(received := x.received[p := Received(x, p) + 1])
  }

  function DoUnpackCell<V>(R: Rules<V>, x: State<V>, p: Port, c: Cell): State<V>
    requires Channel(x, p) != []
  {
    var v := Lookup(Channel(x, p)[0], c, R.zero);
    x.(mem := x.mem[Loc((Unpacked(x, p) + 1) % 2, ProcessOf(p.s), c) := v], unpacking := x.unpacking + {Slot(p, c)})
  }

  function DoPop<V>(x: State<V>, p: Port): State<V>
    requires Channel(x, p) != []
  {
    x.(channels := x.channels[p := Channel(x, p)[1..]], unpacked := x.unpacked[p := Unpacked(x, p) + 1],
       unpacking := set l | l in x.unpacking && l.port != p)
  }

  /** What a step does, whether or not its task may run. */
  function Effect<V>(T: Topology, R: Rules<V>, x: State<V>, m: Move): State<V>
    requires m.UnpackCell? || m.Pop? ==> Channel(x, m.p) != []
  {
    match m
    case StartCompute(s) => DoStart(x, s)
    case WriteCell(c) => DoWrite(T, R, x, c)
    case EndCompute(s) => DoEnd(x, s)
    case PackCell(p, c) => DoPackCell(R, x, p, c)
    case EndPack(p) => DoEndPack(x, p)
    case Push(p) => DoPush(T, x, p)
    case Peek(p) => DoPeek(x, p)
    case UnpackCell(p, c) => DoUnpackCell(R, x, p, c)
    case Pop(p) => DoPop(x, p)
  }

  ghost function DoMove<V>(T: Topology, n: nat, R: Rules<V>, x: State<V>, m: Move): State<V>
    requires CanMove(T, n, x, m)
  {
    Effect(T, R, x, m)
  }

  /** The grid has been reset and no task of the first iteration has begun. */
  ghost predicate Init<V>(T: Topology, R: Rules<V>, x: State<V>) {
    && x.computed == map[] && x.busy == {} && x.written == {}
    && x.packed == map[] && x.sent == map[] && x.received == map[] && x.unpacked == map[]
    && x.packing == {} && x.unpacking == {} && x.slots == map[] && x.channels == map[]
    && (forall b, c :: InDomain(T, c) ==> At(R, x, b, ProcessOf(Owner(c)), c) == R.one)
    && (forall b, p, c :: IsPort(T, p) && InGhost(T, p.s, p.f, c) ==> At(R, x, b, ProcessOf(p.s), c) == R.one)
    && (forall b, process, c :: !InDomain(T, c) ==> At(R, x, b, process, c) == R.zero)
  }

  ghost predicate Step<V>(T: Topology, n: nat, R: Rules<V>, x: State<V>, x': State<V>) {
    exists m :: CanMove(T, n, x, m) && x' == DoMove(T, n, R, x, m)
  }

  ghost predicate StepAt<V>(T: Topology, n: nat, R: Rules<V>, tr: seq<State<V>>, i: nat)
    requires i + 1 < |tr|
  {
    Step(T, n, R, tr[i], tr[i + 1])
  }

  ghost predicate IsRun<V>(T: Topology, n: nat, R: Rules<V>, tr: seq<State<V>>) {
    && |tr| > 0
    && Init(T, R, tr[0])
    && forall i :: 0 <= i < |tr| - 1 ==> StepAt(T, n, R, tr, i)
  }

  // ---------------------------------------------------------------------------------------------------------
  // Invariants
  // ---------------------------------------------------------------------------------------------------------

  /** A subgrid is at most one iteration ahead of a local neighbour, and not at all while it computes. */
  ghost predicate DriftOk<V>(T: Topology, n: nat, x: State<V>, s: Subgrid) {
    && Computed(x, s) <= n
    && (s in x.busy ==> Computed(x, s) < n)
    && forall f :: KindOf(T, s, f) == LOCAL ==>
         Computed(x, s) + (if s in x.busy then 1 else 0) <= Computed(x, Neighbor(T, s, f)) + 1
  }

  /** A message goes through pack, send, receive and unpack in this order; none of the four falls behind. */
  predicate ChainOk<V>(T: Topology, n: nat, x: State<V>, p: Port) {
    var begun := Computed(x, p.s) + (if p.s in x.busy then 1 else 0);
    && Packed(x, p) <= Computed(x, p.s) && begun <= Packed(x, p) + 1 && (Packed(x, p) > 0 ==> Packed(x, p) < n)
    && Sent(x, p) <= Packed(x, p) <= Sent(x, p) + 1
    && Unpacked(x, p) <= Received(x, p) <= Unpacked(x, p) + 1
    && Unpacked(x, p) <= Computed(x, p.s) && begun <= Unpacked(x, p) + 1
    && Received(x, p) <= Sent(x, Peer(T, p))
    && |Channel(x, p)| == Sent(x, Peer(T, p)) - Unpacked(x, p)
  }

  /** A cell of the domain holds the value of the last sweep, in the other buffer that of the sweep before or, once
      written, after it. */
  ghost predicate CellOk<V>(T: Topology, R: Rules<V>, x: State<V>, c: Cell) {
    var s := Owner(c);
    var k := Computed(x, s);
    && At(R, x, k, ProcessOf(s), c) == Value(T, R, k, c)
    && (k > 0 && s !in x.busy ==> At(R, x, k + 1, ProcessOf(s), c) == Value(T, R, k - 1, c))
    && (s in x.busy && c in x.written ==> At(R, x, k + 1, ProcessOf(s), c) == Value(T, R, k + 1, c))
  }

  ghost predicate GhostOk<V>(T: Topology, R: Rules<V>, x: State<V>, p: Port, c: Cell) {
    var k := Unpacked(x, p);
    && At(R, x, k, ProcessOf(p.s), c) == Value(T, R, k, c)
    && (Slot(p, c) in x.unpacking ==> At(R, x, k + 1, ProcessOf(p.s), c) == Value(T, R, k + 1, c))
  }

  ghost predicate SlotOk<V>(T: Topology, R: Rules<V>, x: State<V>, p: Port, c: Cell) {
    var k := Packed(x, p);
    && (k > 0 && Slot(p, c) !in x.packing ==> Lookup(PackBuffer(x, p), c, R.zero) == Value(T, R, k, c))
    && (Slot(p, c) in x.packing ==> Lookup(PackBuffer(x, p), c, R.zero) == Value(T, R, k + 1, c) && Sent(x, p) == k)
  }

  ghost predicate MessageOk<V>(T: Topology, R: Rules<V>, x: State<V>, p: Port, k: nat, c: Cell) {
    k < |Channel(x, p)| ==> Lookup(Channel(x, p)[k], c, R.zero) == Value(T, R, Unpacked(x, p) + k + 1, c)
  }

  ghost predicate OutsideOk<V>(R: Rules<V>, x: State<V>, b: nat, process: Vec<int>, c: Cell) {
    At(R, x, b, process, c) == R.zero
  }

  ghost predicate CountsOk<V>(T: Topology, n: nat, x: State<V>) {
    && (forall s :: IsSubgrid(T, s) ==> DriftOk(T, n, x, s))
    && (forall p :: IsPort(T, p) ==> ChainOk(T, n, x, p))
    && (forall s :: s in x.busy ==> IsSubgrid(T, s))
  }

  ghost predicate ValuesOk<V>(T: Topology, R: Rules<V>, x: State<V>) {
    && (forall c :: InDomain(T, c) ==> CellOk(T, R, x, c))
    && (forall p, c :: IsPort(T, p) && InGhost(T, p.s, p.f, c) ==> GhostOk(T, R, x, p, c))
    && (forall p, c :: IsPort(T, p) && InSlab(T, p.s, p.f, c) ==> SlotOk(T, R, x, p, c))
    && (forall p, k, c :: IsPort(T, p) && InGhost(T, p.s, p.f, c) ==> MessageOk(T, R, x, p, k, c))
    && (forall b, process, c :: !InDomain(T, c) ==> OutsideOk(R, x, b, process, c))
  }

  ghost predicate Inv<V>(T: Topology, n: nat, R: Rules<V>, x: State<V>) {
    CountsOk(T, n, x) && ValuesOk(T, R, x)
  }
}
