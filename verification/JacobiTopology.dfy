/** Initializing a process: sizes and their checks, rank tables, neighbours, and the keys of the channels' slots. */
module JacobiTopology {
  import opened Arithmetic
  import opened JacobiGrid

  datatype Result<T> = Ok(value: T) | NotDivisible(level: Level, axis: Axis)

  /** Which division failed: the grid among the processes, or a process's part among its subgrids. */
  datatype Level = Processes | Subgrids

  /** N cells can be dealt out evenly to p processes with l subgrids each. */
  ghost predicate Splits(N: nat, p: nat, l: nat) {
    exists ls: nat :: p * l * ls == N
  }

  predicate Divides(N: nat, z: Sizes, p: nat, l: nat) {
    z.pt == p && z.lt == l && z.pt * z.lt * z.ls == N
  }

  /** Deals out N cells per side: pt processes with lt subgrids each along every axis. */
  method Partition(N: nat, pt: Vec<nat>, lt: Vec<nat>, depth: nat) returns (r: Result<Topology>)
    requires pt.x > 0 && pt.y > 0 && pt.z > 0 && lt.x > 0 && lt.y > 0 && lt.z > 0
    ensures r.Ok? <==> Splits(N, pt.x, lt.x) && Splits(N, pt.y, lt.y) && Splits(N, pt.z, lt.z)
    ensures r.Ok? ==>
      && Divides(N, r.value.sizes.x, pt.x, lt.x) && Divides(N, r.value.sizes.y, pt.y, lt.y)
      && Divides(N, r.value.sizes.z, pt.z, lt.z) && r.value.depth == depth
    ensures r.NotDivisible? ==> !Splits(N, pt.At(r.axis), lt.At(r.axis))
    ensures r.NotDivisible? ==> (r.level == Processes <==> N % pt.At(r.axis) > 0)
  {
    TwoDivisions(N, pt.x, lt.x);
    TwoDivisions(N, pt.y, lt.y);
    TwoDivisions(N, pt.z, lt.z);
    if N % pt.x > 0 { return NotDivisible(Processes, X); }
    if N % pt.y > 0 { return NotDivisible(Processes, Y); }
    if N % pt.z > 0 { return NotDivisible(Processes, Z); }
    var ps := Vec(N / pt.x, N / pt.y, N / pt.z);
    if ps.x % lt.x > 0 { return NotDivisible(Subgrids, X); }
    if ps.y % lt.y > 0 { return NotDivisible(Subgrids, Y); }
    if ps.z % lt.z > 0 { return NotDivisible(Subgrids, Z); }
    return Ok(Topology(Vec(PartSizes(N, pt.x, lt.x), PartSizes(N, pt.y, lt.y), PartSizes(N, pt.z, lt.z)), depth));
  }

  function PartSizes(N: nat, p: nat, l: nat): (z: Sizes)
    requires p > 0 && l > 0 && N % p == 0 && N / p % l == 0
    ensures Divides(N, z, p, l)
  {
    Divided(N, p, l);
    Sizes(p, l, N / p / l)
  }

  lemma Divided(N: nat, p: nat, l: nat)
    requires p > 0 && l > 0 && N % p == 0 && N / p % l == 0
    ensures p * l * (N / p / l) == N
  {
    Divide(N, p);
    Divide(N / p, l);
    var q := N / p / l;
    assert p * l * q == (q * l) * p;
  }

  lemma TwoDivisions(N: nat, p: nat, l: nat)
    requires p > 0 && l > 0
    ensures Splits(N, p, l) <==> N % p == 0 && N / p % l == 0
  {
    if N % p == 0 && N / p % l == 0 { Divided(N, p, l); }
    if ls: nat :| p * l * ls == N {
      assert p * l * ls == (ls * l) * p + 0;
      UniqueDigits(p, ls * l, 0);
      UniqueDigits(l, ls, 0);
    }
  }

  // ---------------------------------------------------------------------------------------------------------
  // Ranks
  // ---------------------------------------------------------------------------------------------------------

  /** The rank of the process or subgrid at position (x, y, z) of n. */
  function Rank(n: Vec<nat>, p: Vec<int>): int { (p.z * n.y + p.y) * n.x + p.x }

  predicate Within(n: Vec<nat>, p: Vec<int>) { 0 <= p.x < n.x && 0 <= p.y < n.y && 0 <= p.z < n.z }

  lemma RankInRange(n: Vec<nat>, p: Vec<int>)
    requires Within(n, p)
    ensures 0 <= Rank(n, p) < n.x * n.y * n.z
  {
    DigitInRange(p.z, p.y, n.y, n.z);
    DigitInRange(p.z * n.y + p.y, p.x, n.x, n.z * n.y);
  }

  lemma RankIsInjective(n: Vec<nat>, p: Vec<int>, q: Vec<int>)
    requires Within(n, p) && Within(n, q) && Rank(n, p) == Rank(n, q)
    ensures p == q
  {
    SameDigits(n.x, p.z * n.y + p.y, p.x, q.z * n.y + q.y, q.x);
    SameDigits(n.y, p.z, p.y, q.z, q.y);
  }

  /** Numbers the positions one after the other, and the positions of every number. */
  method RankTables(n: Vec<nat>) returns (mapping: array3<nat>, position: array<Vec<int>>)
    ensures mapping.Length0 == n.z && mapping.Length1 == n.y && mapping.Length2 == n.x
    ensures position.Length == n.x * n.y * n.z
    ensures forall z, y, x :: 0 <= z < n.z && 0 <= y < n.y && 0 <= x < n.x ==> mapping[z, y, x] == Rank(n, Vec(x, y, z))
    ensures forall p :: Within(n, p) ==> 0 <= Rank(n, p) < position.Length && position[Rank(n, p)] == p
    ensures fresh(mapping) && fresh(position)
  {
    mapping := new nat[n.z, n.y, n.x];
    position := new Vec<int>[n.x * n.y * n.z](_ => Vec(0, 0, 0));
    forall p | Within(n, p) ensures 0 <= Rank(n, p) < position.Length { RankInRange(n, p); }
    var rank := 0;
    for z := 0 to n.z
      invariant rank == z * n.y * n.x
      invariant forall z', y', x' :: 0 <= z' < z && 0 <= y' < n.y && 0 <= x' < n.x ==> mapping[z', y', x'] == Rank(n, Vec(x', y', z'))
      invariant forall p :: Within(n, p) && p.z < z ==> position[Rank(n, p)] == p
    {
      for y := 0 to n.y
        invariant rank == (z * n.y + y) * n.x
        invariant forall z', y', x' :: 0 <= z' <= z && 0 <= y' < n.y && 0 <= x' < n.x && (z' < z || y' < y) ==> mapping[z', y', x'] == Rank(n, Vec(x', y', z'))
        invariant forall p :: Within(n, p) && (p.z < z || (p.z == z && p.y < y)) ==> position[Rank(n, p)] == p
      {
        rank := RankRow(n, mapping, position, z, y, rank);
        assert (z * n.y + y + 1) * n.x == (z * n.y + y) * n.x + n.x;
      }
      assert (z + 1) * n.y == z * n.y + n.y;
    }
  }

  method RankRow(n: Vec<nat>, mapping: array3<nat>, position: array<Vec<int>>, z: nat, y: nat, start: nat) returns (rank: nat)
    requires z < n.z && y < n.y && start == (z * n.y + y) * n.x
    requires mapping.Length0 == n.z && mapping.Length1 == n.y && mapping.Length2 == n.x && position.Length == n.x * n.y * n.z
    modifies mapping, position
    ensures rank == start + n.x
    ensures forall z', y', x' :: 0 <= z' < n.z && 0 <= y' < n.y && 0 <= x' < n.x ==>
      mapping[z', y', x'] == if z' == z && y' == y then Rank(n, Vec(x', y', z')) else old(mapping[z', y', x'])
    ensures forall p :: Within(n, p) ==> 0 <= Rank(n, p) < position.Length
    ensures forall p :: Within(n, p) ==> position[Rank(n, p)] == if p.z == z && p.y == y then p else old(position[Rank(n, p)])
  {
    forall p | Within(n, p) ensures 0 <= Rank(n, p) < position.Length { RankInRange(n, p); }
    rank := start;
    for x := 0 to n.x
      invariant rank == start + x
      invariant forall z', y', x' :: 0 <= z' < n.z && 0 <= y' < n.y && 0 <= x' < n.x ==>
        mapping[z', y', x'] == if z' == z && y' == y && x' < x then Rank(n, Vec(x', y', z')) else old(mapping[z', y', x'])
      invariant forall p :: Within(n, p) ==>
        position[Rank(n, p)] == if p.z == z && p.y == y && p.x < x then p else old(position[Rank(n, p)])
    {
      assert rank == Rank(n, Vec(x, y, z)) && Within(n, Vec(x, y, z));
      forall p | Within(n, p) && Rank(n, p) == rank ensures p == Vec(x, y, z) { RankIsInjective(n, p, Vec(x, y, z)); }
      position[rank] := Vec(x, y, z);
      mapping[z, y, x] := rank;
      rank := rank + 1;
    }
  }

  // ---------------------------------------------------------------------------------------------------------
  // Neighbours
  // ---------------------------------------------------------------------------------------------------------

  function ProcessCounts(T: Topology): Vec<nat> { Vec(T.sizes.x.pt, T.sizes.y.pt, T.sizes.z.pt) }
  function SubgridCounts(T: Topology): Vec<nat> { Vec(T.sizes.x.lt, T.sizes.y.lt, T.sizes.z.lt) }

  function SubgridAt(p: Vec<int>, l: Vec<int>): Subgrid { Vec(Pos(p.x, l.x), Pos(p.y, l.y), Pos(p.z, l.z)) }
  function LocalOf(s: Subgrid): Vec<int> { Vec(s.x.l, s.y.l, s.z.l) }

  /** An entry of a subgrid's table of neighbours. */
  datatype NeighborEntry = NeighborEntry(kind: Kind, processId: nat, localId: nat, lPos: Vec<int>)

  predicate Ranks(n: Vec<nat>, mapping: array3<nat>)
    reads mapping
  {
    && mapping.Length0 == n.z && mapping.Length1 == n.y && mapping.Length2 == n.x
    && forall z, y, x :: 0 <= z < n.z && 0 <= y < n.y && 0 <= x < n.x ==> mapping[z, y, x] == Rank(n, Vec(x, y, z))
  }

  /** The position along one axis beyond an end, and whether the neighbour is in the same process. */
  lemma NeighborParts(T: Topology, p: Vec<int>, l: Vec<int>, f: Face)
    requires Within(SubgridCounts(T), l)
    ensures var n, z := Neighbor(T, SubgridAt(p, l), f), T.sizes.At(f.axis);
      var leaves := l.At(f.axis) == if f.high then z.lt - 1 else 0;
      && LocalOf(n) == l.With(f.axis, if f.high then (if leaves then 0 else l.At(f.axis) + 1)
                                      else if leaves then z.lt - 1 else l.At(f.axis) - 1)
      && ProcessOf(n) == p.With(f.axis, p.At(f.axis) + if leaves then (if f.high then 1 else -1) else 0)
  {}

  /** The neighbour across face f of the subgrid at l in the process at p: of the kind, and, unless the face is on the
      boundary, in the process and at the position that the grid says. */
  method FindNeighbor(T: Topology, p: Vec<int>, l: Vec<int>, processId: nat, f: Face, globals: array3<nat>, locals: array3<nat>)
    returns (r: NeighborEntry)
    requires Within(ProcessCounts(T), p) && Within(SubgridCounts(T), l) && processId == Rank(ProcessCounts(T), p)
    requires Ranks(ProcessCounts(T), globals) && Ranks(SubgridCounts(T), locals)
    ensures r.kind == KindOf(T, SubgridAt(p, l), f)
    ensures r.kind != BOUNDARY ==>
      var n := Neighbor(T, SubgridAt(p, l), f);
      && r.processId == Rank(ProcessCounts(T), ProcessOf(n))
      && r.lPos == LocalOf(n) && r.localId == Rank(SubgridCounts(T), LocalOf(n))
  {
    NeighborParts(T, p, l, f);
    var z := T.sizes.At(f.axis);
    var kind, i := LOCAL, if f.high then l.At(f.axis) + 1 else l.At(f.axis) - 1;
    if !f.high && i == -1 { kind, i := REMOTE, z.lt - 1; }
    if f.high && i == z.lt { kind, i := REMOTE, 0; }
    if !f.high && p.At(f.axis) == 0 && l.At(f.axis) == 0 { kind := BOUNDARY; }
    if f.high && p.At(f.axis) == z.pt - 1 && l.At(f.axis) == z.lt - 1 { kind := BOUNDARY; }
    var lPos := l.With(f.axis, i);
    var localId := locals[lPos.z, lPos.y, lPos.x];
    var id := processId;
    if kind == REMOTE {
      var q := p.With(f.axis, if f.high then p.At(f.axis) + 1 else p.At(f.axis) - 1);
      id := globals[q.z, q.y, q.x];
    }
    return NeighborEntry(kind, id, localId, lPos);
  }

  // ---------------------------------------------------------------------------------------------------------
  // Keys of the memory slots that the processes exchange
  // ---------------------------------------------------------------------------------------------------------

  /** The key of one of the three slots (token buffer 0, consumer's 1 and producer's 2 coordination buffer) that a
      subgrid registers for a face. */
  function SlotKey(n: Vec<nat>, processId: int, l: Vec<int>, slot: nat): int {
    3 * (processId * n.z * n.y * n.x + l.z * n.y * n.x + l.y * n.x + l.x) + slot
  }

  lemma SlotKeyIsInjective(n: Vec<nat>, processId: int, l: Vec<int>, slot: nat, processId': int, l': Vec<int>, slot': nat)
    requires Within(n, l) && Within(n, l') && slot < 3 && slot' < 3
    ensures SlotKey(n, processId, l, slot) == SlotKey(n, processId', l', slot') ==>
      processId == processId' && l == l' && slot == slot'
  {
    SlotKeyByRank(n, processId, l, slot);
    SlotKeyByRank(n, processId', l', slot');
    RankInRange(n, l);
    RankInRange(n, l');
    if SlotKey(n, processId, l, slot) == SlotKey(n, processId', l', slot') {
      SameDigits(n.x * n.y * n.z, processId, Rank(n, l), processId', Rank(n, l'));
      RankIsInjective(n, l, l');
    }
  }

  lemma SlotKeyByRank(n: Vec<nat>, processId: int, l: Vec<int>, slot: nat)
    ensures SlotKey(n, processId, l, slot) == 3 * (processId * (n.x * n.y * n.z) + Rank(n, l)) + slot
  {
    assert processId * n.z * n.y * n.x == processId * (n.x * n.y * n.z);
    assert (l.z * n.y + l.y) * n.x == l.z * n.y * n.x + l.y * n.x;
  }

  /** A slot is looked up by the tag of a face and a key. */
  datatype SlotName = SlotName(tag: Face, key: int)

  /** The slots that one end of a channel uses. */
  datatype ChannelEnd = ChannelEnd(token: SlotName, consumer: SlotName, producer: SlotName)

  function LocalKey(T: Topology, s: Subgrid, slot: nat): int {
    SlotKey(SubgridCounts(T), Rank(ProcessCounts(T), ProcessOf(s)), LocalOf(s), slot)
  }

  /** The key computed for the subgrid facing s across f: the neighbouring process, the far end along the axis. */
  function RemoteKey(T: Topology, s: Subgrid, f: Face, slot: nat): int {
    var process := ProcessOf(s).With(f.axis, if f.high then s.At(f.axis).p + 1 else s.At(f.axis).p - 1);
    SlotKey(SubgridCounts(T), Rank(ProcessCounts(T), process),
            LocalOf(s).With(f.axis, if f.high then 0 else T.sizes.At(f.axis).lt - 1), slot)
  }

  function SendEnd(T: Topology, s: Subgrid, f: Face): ChannelEnd {
    ChannelEnd(SlotName(Opposite(f), RemoteKey(T, s, f, 0)), SlotName(Opposite(f), RemoteKey(T, s, f, 1)),
               SlotName(f, LocalKey(T, s, 2)))
  }

  function ReceiveEnd(T: Topology, s: Subgrid, f: Face): ChannelEnd {
    ChannelEnd(SlotName(f, LocalKey(T, s, 0)), SlotName(f, LocalKey(T, s, 1)),
               SlotName(Opposite(f), RemoteKey(T, s, f, 2)))
  }

  lemma RemoteKeyIsLocal(T: Topology, s: Subgrid, f: Face, slot: nat)
    requires T.Valid() && IsSubgrid(T, s) && KindOf(T, s, f) == REMOTE
    ensures RemoteKey(T, s, f, slot) == LocalKey(T, Neighbor(T, s, f), slot)
  {}

  /** The producer across a face and the consumer of the facing subgrid use the same three slots. */
  lemma EndsMeet(T: Topology, s: Subgrid, f: Face)
    requires T.Valid() && IsSubgrid(T, s) && KindOf(T, s, f) == REMOTE
    ensures SendEnd(T, s, f) == ReceiveEnd(T, Neighbor(T, s, f), Opposite(f))
  {
    NeighborBack(T, s, f);
    RemoteKeyIsLocal(T, s, f, 0);
    RemoteKeyIsLocal(T, s, f, 1);
    RemoteKeyIsLocal(T, Neighbor(T, s, f), Opposite(f), 2);
  }

  lemma LocalKeyIsInjective(T: Topology, s: Subgrid, slot: nat, s': Subgrid, slot': nat)
    requires IsSubgrid(T, s) && IsSubgrid(T, s') && slot < 3 && slot' < 3
    ensures LocalKey(T, s, slot) == LocalKey(T, s', slot') ==> s == s' && slot == slot'
  {
    assert forall a :: IsPos(T.sizes.At(a), s.At(a)) && IsPos(T.sizes.At(a), s'.At(a));
    assert s.x == s.At(X) && s.y == s.At(Y) && s.z == s.At(Z) && s'.x == s'.At(X) && s'.y == s'.At(Y) && s'.z == s'.At(Z);
    var p, p' := ProcessOf(s), ProcessOf(s');
    SlotKeyIsInjective(SubgridCounts(T), Rank(ProcessCounts(T), p), LocalOf(s), slot, Rank(ProcessCounts(T), p'), LocalOf(s'), slot');
    if LocalKey(T, s, slot) == LocalKey(T, s', slot') { RankIsInjective(ProcessCounts(T), p, p'); }
  }

  function SlotOf(e: ChannelEnd, i: nat): SlotName {
    if i == 0 then e.token else if i == 1 then e.consumer else e.producer
  }

  /** Two ports that share any slot are the same port: no channel's buffers are used by another. */
  lemma ChannelsAreSeparate(T: Topology, p: Port, i: nat, q: Port, k: nat)
    requires T.Valid() && IsPort(T, p) && IsPort(T, q) && i < 3 && k < 3
    ensures SlotOf(ReceiveEnd(T, p.s, p.f), i) == SlotOf(ReceiveEnd(T, q.s, q.f), k) ==> p == q && i == k
  {
    SlotBelongs(T, p, i);
    SlotBelongs(T, q, k);
    NeighborBack(T, p.s, p.f);
    NeighborBack(T, q.s, q.f);
    LocalKeyIsInjective(T, SlotOwner(T, p, i), i, SlotOwner(T, q, k), k);
  }

  /** The subgrid that registered the slot: of the producer's slot, the facing one. */
  function SlotOwner(T: Topology, p: Port, i: nat): Subgrid {
    if i == 2 then Neighbor(T, p.s, p.f) else p.s
  }

  lemma SlotBelongs(T: Topology, p: Port, i: nat)
    requires T.Valid() && IsPort(T, p) && i < 3
    ensures IsSubgrid(T, SlotOwner(T, p, i))
    ensures SlotOf(ReceiveEnd(T, p.s, p.f), i)
         == SlotName(if i == 2 then Opposite(p.f) else p.f, LocalKey(T, SlotOwner(T, p, i), i))
  {
    NeighborBack(T, p.s, p.f);
    if i == 2 { RemoteKeyIsLocal(T, p.s, p.f, 2); }
  }
}
