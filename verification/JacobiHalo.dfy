/** Packing the cells along a face into a message, unpacking a message into the ghost cells, and resetting the grid. */
module JacobiHalo {
  import opened Arithmetic
  import opened JacobiGrid
  import opened JacobiArrays

  /** The sizes of one process: its cells, the cells of a subgrid, and the ghost depth. */
  datatype Extents = Extents(ps: Point, ls: Point, depth: nat)

  function Buffer(e: Extents): Point {
    Point(e.ps.x + 2 * e.depth, e.ps.y + 2 * e.depth, e.ps.z + 2 * e.depth)
  }

  /** The first cell of the subgrid at local position l, and the one after its last. */
  function Start(e: Extents, l: Point): Point {
    Point(e.ls.x * l.x + e.depth, e.ls.y * l.y + e.depth, e.ls.z * l.z + e.depth)
  }

  function End(e: Extents, l: Point): Point {
    var s := Start(e, l);
    Point(s.x + e.ls.x, s.y + e.ls.y, s.z + e.ls.z)
  }

  function Along(p: Point, a: Axis): int {
    match a case X => p.x case Y => p.y case Z => p.z
  }

  function WithAlong(p: Point, a: Axis, v: int): Point {
    match a case X => p.(x := v) case Y => p.(y := v) case Z => p.(z := v)
  }

  // ---------------------------------------------------------------------------------------------------------
  // Faces
  // ---------------------------------------------------------------------------------------------------------

  /** The cells of a face at depth d: rows u of cells v, in the order of the message. */
  function FaceCell(a: Axis, base: Point, d: int, u: int, v: int): Point {
    match a
    case X => Point(base.x + d, base.y + v, base.z + u)
    case Y => Point(base.x + v, base.y + d, base.z + u)
    case Z => Point(base.x + v, base.y + u, base.z + d)
  }

  /** How many rows and how many cells per row a face has. */
  function Rows(a: Axis, ls: Point): int { if a == Z then ls.y else ls.z }
  function Columns(a: Axis, ls: Point): int { if a == X then ls.y else ls.x }

  predicate InFace(a: Axis, ls: Point, depth: nat, d: int, u: int, v: int) {
    0 <= d < depth && 0 <= u < Rows(a, ls) && 0 <= v < Columns(a, ls)
  }

  function MessageIndex(a: Axis, ls: Point, d: int, u: int, v: int): int {
    (d * Rows(a, ls) + u) * Columns(a, ls) + v
  }

  function MessageSize(a: Axis, ls: Point, depth: nat): int {
    depth * Rows(a, ls) * Columns(a, ls)
  }

  lemma MessageIndexInBounds(a: Axis, ls: Point, depth: nat, d: int, u: int, v: int)
    requires InFace(a, ls, depth, d, u, v)
    ensures 0 <= MessageIndex(a, ls, d, u, v) < MessageSize(a, ls, depth)
  {
    DigitInRange(d, u, Rows(a, ls), depth);
    DigitInRange(d * Rows(a, ls) + u, v, Columns(a, ls), depth * Rows(a, ls));
  }

  lemma MessageIndexIsInjective(a: Axis, ls: Point, depth: nat, d: int, u: int, v: int, d': int, u': int, v': int)
    requires InFace(a, ls, depth, d, u, v) && InFace(a, ls, depth, d', u', v')
    requires MessageIndex(a, ls, d, u, v) == MessageIndex(a, ls, d', u', v')
    ensures d == d' && u == u' && v == v'
  {
    SameDigits(Columns(a, ls), d * Rows(a, ls) + u, v, d' * Rows(a, ls) + u', v');
    SameDigits(Rows(a, ls), d, u, d', u');
  }

  /** The box of the face's cells. */
  function FaceEnd(a: Axis, base: Point, ls: Point, depth: nat): Point {
    WithAlong(Point(base.x + ls.x, base.y + ls.y, base.z + ls.z), a, Along(base, a) + depth)
  }

  predicate FaceFits(a: Axis, fs: Point, base: Point, ls: Point, depth: nat) {
    var end := FaceEnd(a, base, ls, depth);
    0 <= base.x <= end.x <= fs.x && 0 <= base.y <= end.y <= fs.y && 0 <= base.z <= end.z <= fs.z
  }

  /** Where cell c of the face is in it: depth, row and column. */
  function Depth(a: Axis, base: Point, c: Point): int { Along(c, a) - Along(base, a) }
  function Row(a: Axis, base: Point, c: Point): int { if a == Z then c.y - base.y else c.z - base.z }
  function Column(a: Axis, base: Point, c: Point): int { if a == X then c.y - base.y else c.x - base.x }

  lemma FaceCellInBox(a: Axis, fs: Point, base: Point, ls: Point, depth: nat, d: int, u: int, v: int)
    requires FaceFits(a, fs, base, ls, depth) && InFace(a, ls, depth, d, u, v)
    ensures InBuffer(fs, FaceCell(a, base, d, u, v))
  {}

  lemma BoxIsFace(a: Axis, base: Point, ls: Point, depth: nat, c: Point)
    ensures InBox(base, FaceEnd(a, base, ls, depth), c) <==>
            InFace(a, ls, depth, Depth(a, base, c), Row(a, base, c), Column(a, base, c))
    ensures FaceCell(a, base, Depth(a, base, c), Row(a, base, c), Column(a, base, c)) == c
  {}

  /** The value of cell c in a message for the face at base. */
  function Delivered(message: seq<real>, a: Axis, base: Point, ls: Point, depth: nat, c: Point): real
    requires |message| == MessageSize(a, ls, depth) && InBox(base, FaceEnd(a, base, ls, depth), c)
  {
    BoxIsFace(a, base, ls, depth, c);
    MessageIndexInBounds(a, ls, depth, Depth(a, base, c), Row(a, base, c), Column(a, base, c));
    message[MessageIndex(a, ls, Depth(a, base, c), Row(a, base, c), Column(a, base, c))]
  }

  /** Cell c comes before the one at depth d, row u, column v. */
  predicate Earlier(a: Axis, base: Point, c: Point, d: int, u: int, v: int) {
    || Depth(a, base, c) < d
    || (Depth(a, base, c) == d && (Row(a, base, c) < u || (Row(a, base, c) == u && Column(a, base, c) < v)))
  }

  /** Copies the cells of a face into the message, one after the other. */
  method PackFace(buffer: array<real>, fs: Point, a: Axis, base: Point, ls: Point, depth: nat, message: array<real>)
    requires IsBuffer(buffer, fs) && FaceFits(a, fs, base, ls, depth) && ls.x >= 0 && ls.y >= 0 && ls.z >= 0
    requires message.Length == MessageSize(a, ls, depth) && message != buffer
    modifies message
    ensures forall c :: InBox(base, FaceEnd(a, base, ls, depth), c) ==>
      Delivered(message[..], a, base, ls, depth, c) == Get(buffer, fs, c)
  {
    var rows, columns := Rows(a, ls), Columns(a, ls);
    var bufferIdx := 0;
    for d := 0 to depth
      invariant bufferIdx == d * rows * columns
      invariant forall c :: InBox(base, FaceEnd(a, base, ls, depth), c) && Earlier(a, base, c, d, 0, 0) ==>
        Delivered(message[..], a, base, ls, depth, c) == Get(buffer, fs, c)
    {
      for u := 0 to rows
        invariant bufferIdx == (d * rows + u) * columns
        invariant forall c :: InBox(base, FaceEnd(a, base, ls, depth), c) && Earlier(a, base, c, d, u, 0) ==>
          Delivered(message[..], a, base, ls, depth, c) == Get(buffer, fs, c)
      {
        for v := 0 to columns
          invariant bufferIdx == MessageIndex(a, ls, d, u, v)
          invariant forall c :: InBox(base, FaceEnd(a, base, ls, depth), c) && Earlier(a, base, c, d, u, v) ==>
            Delivered(message[..], a, base, ls, depth, c) == Get(buffer, fs, c)
        {
          PutCell(buffer, fs, a, base, ls, depth, message, d, u, v, bufferIdx);
          bufferIdx := bufferIdx + 1;
        }
        assert (d * rows + u + 1) * columns == (d * rows + u) * columns + columns;
      }
      assert (d + 1) * rows == d * rows + rows;
    }
  }

  method PutCell(buffer: array<real>, fs: Point, a: Axis, base: Point, ls: Point, depth: nat, message: array<real>,
                 d: int, u: int, v: int, bufferIdx: int)
    requires IsBuffer(buffer, fs) && FaceFits(a, fs, base, ls, depth) && InFace(a, ls, depth, d, u, v)
    requires bufferIdx == MessageIndex(a, ls, d, u, v)
    requires message.Length == MessageSize(a, ls, depth) && message != buffer
    modifies message
    ensures forall c :: InBox(base, FaceEnd(a, base, ls, depth), c) ==>
      Delivered(message[..], a, base, ls, depth, c) ==
        if c == FaceCell(a, base, d, u, v) then Get(buffer, fs, c) else Delivered(old(message[..]), a, base, ls, depth, c)
  {
    MessageIndexInBounds(a, ls, depth, d, u, v);
    FaceCellInBox(a, fs, base, ls, depth, d, u, v);
    message[bufferIdx] := Get(buffer, fs, FaceCell(a, base, d, u, v));
    forall c | InBox(base, FaceEnd(a, base, ls, depth), c)
      ensures Delivered(message[..], a, base, ls, depth, c) ==
        if c == FaceCell(a, base, d, u, v) then Get(buffer, fs, c) else Delivered(old(message[..]), a, base, ls, depth, c)
    {
      BoxIsFace(a, base, ls, depth, c);
      var d', u', v' := Depth(a, base, c), Row(a, base, c), Column(a, base, c);
      MessageIndexInBounds(a, ls, depth, d', u', v');
      if MessageIndex(a, ls, d', u', v') == MessageIndex(a, ls, d, u, v) {
        MessageIndexIsInjective(a, ls, depth, d, u, v, d', u', v');
      }
    }
  }

  method TakeCell(buffer: array<real>, fs: Point, a: Axis, base: Point, ls: Point, depth: nat, message: array<real>,
                  d: int, u: int, v: int, bufferIdx: int)
    requires IsBuffer(buffer, fs) && FaceFits(a, fs, base, ls, depth) && InFace(a, ls, depth, d, u, v)
    requires bufferIdx == MessageIndex(a, ls, d, u, v)
    requires message.Length == MessageSize(a, ls, depth) && message != buffer
    modifies buffer
    ensures InBox(base, FaceEnd(a, base, ls, depth), FaceCell(a, base, d, u, v))
    ensures forall c :: InBuffer(fs, c) ==>
      Get(buffer, fs, c) ==
        if c == FaceCell(a, base, d, u, v) then Delivered(message[..], a, base, ls, depth, c) else old(Get(buffer, fs, c))
  {
    MessageIndexInBounds(a, ls, depth, d, u, v);
    FaceCellInBox(a, fs, base, ls, depth, d, u, v);
    BoxIsFace(a, base, ls, depth, FaceCell(a, base, d, u, v));
    Set(buffer, fs, FaceCell(a, base, d, u, v), message[bufferIdx]);
  }

  /** Row u at depth d of a face gets its part of the message. */
  method UnpackRow(buffer: array<real>, fs: Point, a: Axis, base: Point, ls: Point, depth: nat, message: array<real>,
                   d: int, u: int, start: int)
    returns (bufferIdx: int)
    requires IsBuffer(buffer, fs) && FaceFits(a, fs, base, ls, depth) && ls.x >= 0 && ls.y >= 0 && ls.z >= 0
    requires message.Length == MessageSize(a, ls, depth) && message != buffer
    requires 0 <= d < depth && 0 <= u < Rows(a, ls) && start == MessageIndex(a, ls, d, u, 0)
    modifies buffer
    ensures bufferIdx == start + Columns(a, ls)
    ensures forall c :: InBuffer(fs, c) ==>
      Get(buffer, fs, c) == if InBox(base, FaceEnd(a, base, ls, depth), c) && Depth(a, base, c) == d && Row(a, base, c) == u
        then Delivered(message[..], a, base, ls, depth, c) else old(Get(buffer, fs, c))
  {
    bufferIdx := start;
    for v := 0 to Columns(a, ls)
      invariant bufferIdx == MessageIndex(a, ls, d, u, v)
      invariant forall c :: InBuffer(fs, c) ==>
        Get(buffer, fs, c) ==
          if InBox(base, FaceEnd(a, base, ls, depth), c) && Depth(a, base, c) == d && Row(a, base, c) == u && Column(a, base, c) < v
          then Delivered(message[..], a, base, ls, depth, c) else old(Get(buffer, fs, c))
    {
      TakeCell(buffer, fs, a, base, ls, depth, message, d, u, v, bufferIdx);
      BoxIsFace(a, base, ls, depth, FaceCell(a, base, d, u, v));
      bufferIdx := bufferIdx + 1;
    }
  }

  /** Copies a message into the cells of a face, one after the other, and touches no other cell. */
  method UnpackFace(buffer: array<real>, fs: Point, a: Axis, base: Point, ls: Point, depth: nat, message: array<real>)
    requires IsBuffer(buffer, fs) && FaceFits(a, fs, base, ls, depth) && ls.x >= 0 && ls.y >= 0 && ls.z >= 0
    requires message.Length == MessageSize(a, ls, depth) && message != buffer
    modifies buffer
    ensures forall c :: InBuffer(fs, c) ==>
      Get(buffer, fs, c) ==
        if InBox(base, FaceEnd(a, base, ls, depth), c) then Delivered(message[..], a, base, ls, depth, c) else old(Get(buffer, fs, c))
  {
    var rows, columns := Rows(a, ls), Columns(a, ls);
    var bufferIdx := 0;
    for d := 0 to depth
      invariant bufferIdx == d * rows * columns
      invariant forall c :: InBuffer(fs, c) ==>
        Get(buffer, fs, c) == if InBox(base, FaceEnd(a, base, ls, depth), c) && Depth(a, base, c) < d
          then Delivered(message[..], a, base, ls, depth, c) else old(Get(buffer, fs, c))
    {
      for u := 0 to rows
        invariant bufferIdx == (d * rows + u) * columns
        invariant forall c :: InBuffer(fs, c) ==>
          Get(buffer, fs, c) ==
            if InBox(base, FaceEnd(a, base, ls, depth), c) && (Depth(a, base, c) < d || (Depth(a, base, c) == d && Row(a, base, c) < u))
            then Delivered(message[..], a, base, ls, depth, c) else old(Get(buffer, fs, c))
      {
        bufferIdx := UnpackRow(buffer, fs, a, base, ls, depth, message, d, u, bufferIdx);
        assert (d * rows + u + 1) * columns == (d * rows + u) * columns + columns;
      }
      assert (d + 1) * rows == d * rows + rows;
    }
  }

  // ---------------------------------------------------------------------------------------------------------
  // Where the faces of a subgrid are
  // ---------------------------------------------------------------------------------------------------------

  /** The first cell of the subgrid's own cells along face f. */
  function PackBase(e: Extents, l: Point, f: Face): Point {
    WithAlong(Start(e, l), f.axis, if f.high then Along(End(e, l), f.axis) - e.depth else Along(Start(e, l), f.axis))
  }

  /** The first ghost cell beyond face f, at an end of the process. */
  function UnpackBase(e: Extents, l: Point, f: Face): Point {
    WithAlong(Start(e, l), f.axis, if f.high then Along(End(e, l), f.axis) else 0)
  }

  /** The global coordinate of cell c in the buffer of the process at position p. */
  function Global(e: Extents, p: Point, c: Point): Point {
    Point(p.x * e.ps.x + c.x - e.depth, p.y * e.ps.y + c.y - e.depth, p.z * e.ps.z + c.z - e.depth)
  }

  /** The neighbouring process across face f, and the position in it of the subgrid that faces the one at l. */
  function NextProcess(p: Point, f: Face): Point {
    WithAlong(p, f.axis, if f.high then Along(p, f.axis) + 1 else Along(p, f.axis) - 1)
  }

  function FacingSubgrid(lt: Point, l: Point, f: Face): Point {
    WithAlong(l, f.axis, if f.high then 0 else Along(lt, f.axis) - 1)
  }

  predicate Valid(e: Extents, lt: Point) {
    && lt.x > 0 && lt.y > 0 && lt.z > 0
    && e.depth <= e.ls.x && e.depth <= e.ls.y && e.depth <= e.ls.z
    && e.ps == Point(e.ls.x * lt.x, e.ls.y * lt.y, e.ls.z * lt.z)
  }

  predicate IsLocal(lt: Point, l: Point) { InBox(Point(0, 0, 0), lt, l) }

  /** The subgrid at l exchanges messages across face f with another process. */
  predicate AtEnd(lt: Point, l: Point, f: Face) {
    IsLocal(lt, l) && Along(l, f.axis) == if f.high then Along(lt, f.axis) - 1 else 0
  }

  lemma SubgridInProcess(ls: int, l: int, lt: int)
    requires 0 <= l < lt && ls >= 0
    ensures 0 <= ls * l && ls * l + ls <= ls * lt
    ensures l == lt - 1 ==> ls * l + ls == ls * lt
  {
    TimesGrowsBy(l, lt, ls);
    TimesGrows(0, l, ls);
    if l == lt - 1 { assert (l + 1) * ls == l * ls + ls; }
  }

  lemma FacesFit(e: Extents, lt: Point, l: Point, f: Face)
    requires Valid(e, lt) && AtEnd(lt, l, f)
    ensures FaceFits(f.axis, Buffer(e), UnpackBase(e, l, f), e.ls, e.depth)
    ensures FaceFits(f.axis, Buffer(e), PackBase(e, l, f), e.ls, e.depth)
  {
    SubgridInProcess(e.ls.x, l.x, lt.x);
    SubgridInProcess(e.ls.y, l.y, lt.y);
    SubgridInProcess(e.ls.z, l.z, lt.z);
  }

  /** Along the axis of the face: the ghost layer of one process and the outer layer of the next one. */
  lemma LayersMeet(ls: int, lt: int, depth: int, p: int)
    requires lt > 0
    ensures p * (ls * lt) + (ls * (lt - 1) + depth + ls) == (p + 1) * (ls * lt) + (ls * 0 + depth)
    ensures p * (ls * lt) == (p - 1) * (ls * lt) + (ls * (lt - 1) + depth + ls) - depth
  {
    var n := ls * lt;
    assert ls * (lt - 1) + ls == n;
    assert (p + 1) * n == p * n + n && (p - 1) * n == p * n - n;
  }

  /** The cell of the neighbouring process with the same global coordinate. */
  function Twin(e: Extents, f: Face, c: Point): Point {
    WithAlong(c, f.axis, if f.high then Along(c, f.axis) - Along(e.ps, f.axis) else Along(c, f.axis) + Along(e.ps, f.axis))
  }

  lemma TwinIsGlobal(e: Extents, p: Point, f: Face, c: Point)
    ensures Global(e, NextProcess(p, f), Twin(e, f, c)) == Global(e, p, c)
  {
    match f.axis
    case X => assert (p.x + 1) * e.ps.x == p.x * e.ps.x + e.ps.x && (p.x - 1) * e.ps.x == p.x * e.ps.x - e.ps.x;
    case Y => assert (p.y + 1) * e.ps.y == p.y * e.ps.y + e.ps.y && (p.y - 1) * e.ps.y == p.y * e.ps.y - e.ps.y;
    case Z => assert (p.z + 1) * e.ps.z == p.z * e.ps.z + e.ps.z && (p.z - 1) * e.ps.z == p.z * e.ps.z - e.ps.z;
  }

  /** The ghost cells of a subgrid at an end of its process, beyond face f. */
  predicate IsGhost(e: Extents, l: Point, f: Face, c: Point) {
    InBox(UnpackBase(e, l, f), FaceEnd(f.axis, UnpackBase(e, l, f), e.ls, e.depth), c)
  }

  /** Packing at the facing subgrid and unpacking here leaves every ghost cell with the value of the neighbour's cell of
      the same global coordinate, and touches no other cell. */
  method Exchange(mine: array<real>, theirs: array<real>, e: Extents, lt: Point, l: Point, f: Face, message: array<real>)
    requires Valid(e, lt) && AtEnd(lt, l, f) && IsBuffer(mine, Buffer(e)) && IsBuffer(theirs, Buffer(e))
    requires message != mine && message != theirs && mine != theirs && message.Length == MessageSize(f.axis, e.ls, e.depth)
    modifies mine, message
    ensures forall c :: InBuffer(Buffer(e), c) && IsGhost(e, l, f, c) ==>
      InBuffer(Buffer(e), Twin(e, f, c)) && Get(mine, Buffer(e), c) == Get(theirs, Buffer(e), Twin(e, f, c))
    ensures forall c :: InBuffer(Buffer(e), c) && !IsGhost(e, l, f, c) ==>
      Get(mine, Buffer(e), c) == old(Get(mine, Buffer(e), c))
  {
    var there := FacingSubgrid(lt, l, f);
    FacesFit(e, lt, l, f);
    FacesFit(e, lt, there, Opposite(f));
    PackFace(theirs, Buffer(e), f.axis, PackBase(e, there, Opposite(f)), e.ls, e.depth, message);
    UnpackFace(mine, Buffer(e), f.axis, UnpackBase(e, l, f), e.ls, e.depth, message);
    forall c | InBuffer(Buffer(e), c) && IsGhost(e, l, f, c)
      ensures InBuffer(Buffer(e), Twin(e, f, c)) && Get(mine, Buffer(e), c) == Get(theirs, Buffer(e), Twin(e, f, c))
    {
      TwinInFace(e, lt, l, f, c);
    }
  }

  /** The facing face starts at the twin of the first ghost cell. */
  lemma FacesMeet(e: Extents, lt: Point, l: Point, f: Face)
    requires Valid(e, lt) && AtEnd(lt, l, f)
    ensures PackBase(e, FacingSubgrid(lt, l, f), Opposite(f)) == Twin(e, f, UnpackBase(e, l, f))
  {
    match f.axis
    case X => LayersMeet(e.ls.x, lt.x, e.depth, 0);
    case Y => LayersMeet(e.ls.y, lt.y, e.depth, 0);
    case Z => LayersMeet(e.ls.z, lt.z, e.depth, 0);
  }

  lemma TwinShifts(e: Extents, f: Face, base: Point, c: Point)
    ensures var a, there := f.axis, Twin(e, f, base);
      && (InBox(base, FaceEnd(a, base, e.ls, e.depth), c) ==> InBox(there, FaceEnd(a, there, e.ls, e.depth), Twin(e, f, c)))
      && Depth(a, there, Twin(e, f, c)) == Depth(a, base, c)
      && Row(a, there, Twin(e, f, c)) == Row(a, base, c)
      && Column(a, there, Twin(e, f, c)) == Column(a, base, c)
  {}

  /** The twin of a ghost cell is the cell at the same place of the facing face. */
  lemma TwinInFace(e: Extents, lt: Point, l: Point, f: Face, c: Point)
    requires Valid(e, lt) && AtEnd(lt, l, f) && IsGhost(e, l, f, c)
    ensures var a, base, there := f.axis, UnpackBase(e, l, f), PackBase(e, FacingSubgrid(lt, l, f), Opposite(f));
      && InBox(there, FaceEnd(a, there, e.ls, e.depth), Twin(e, f, c))
      && Depth(a, there, Twin(e, f, c)) == Depth(a, base, c)
      && Row(a, there, Twin(e, f, c)) == Row(a, base, c)
      && Column(a, there, Twin(e, f, c)) == Column(a, base, c)
      && InBuffer(Buffer(e), Twin(e, f, c))
  {
    FacesFit(e, lt, FacingSubgrid(lt, l, f), Opposite(f));
    FacesMeet(e, lt, l, f);
    TwinShifts(e, f, UnpackBase(e, l, f), c);
  }
}
