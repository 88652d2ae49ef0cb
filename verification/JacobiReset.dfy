/** Resetting both buffers of a process: the reset tasks of its subgrids overlap, and agree where they do. */
module JacobiReset {
  import opened Arithmetic
  import opened JacobiGrid
  import opened JacobiArrays
  import opened JacobiHalo

  /** Face f of the subgrid at l, in the process at p, is on the boundary of the global grid. */
  predicate OnBoundary(pt: Point, lt: Point, p: Point, l: Point, f: Face) {
    if f.high then Along(p, f.axis) == Along(pt, f.axis) - 1 && Along(l, f.axis) == Along(lt, f.axis) - 1
    else Along(p, f.axis) == 0 && Along(l, f.axis) == 0
  }

  /** The cells of the subgrid and the ghost depth around it. */
  function Low(e: Extents, l: Point): Point {
    var s := Start(e, l);
    Point(s.x - e.depth, s.y - e.depth, s.z - e.depth)
  }

  function High(e: Extents, l: Point): Point {
    var s := End(e, l);
    Point(s.x + e.depth, s.y + e.depth, s.z + e.depth)
  }

  predicate Around(e: Extents, l: Point, c: Point) { InBox(Low(e, l), High(e, l), c) }

  /** The ghost layer of the process at face f, as far as it is around the subgrid. */
  function LayerLow(e: Extents, l: Point, f: Face): Point {
    WithAlong(Low(e, l), f.axis, if f.high then Along(e.ps, f.axis) + e.depth else 0)
  }

  function LayerHigh(e: Extents, l: Point, f: Face): Point {
    WithAlong(High(e, l), f.axis, Along(LayerLow(e, l, f), f.axis) + e.depth)
  }

  predicate Zeroed(e: Extents, pt: Point, lt: Point, p: Point, l: Point, f: Face, c: Point) {
    OnBoundary(pt, lt, p, l, f) && InBox(LayerLow(e, l, f), LayerHigh(e, l, f), c)
  }

  /** Cell c is in the ghost layer of the process at face f, and the layer lies on the boundary of the global grid. */
  predicate BeyondBoundary(e: Extents, pt: Point, p: Point, f: Face, c: Point) {
    if f.high then Along(p, f.axis) == Along(pt, f.axis) - 1 && Along(c, f.axis) >= Along(e.ps, f.axis) + e.depth
    else Along(p, f.axis) == 0 && Along(c, f.axis) < e.depth
  }

  predicate InBoundaryLayer(e: Extents, pt: Point, p: Point, c: Point) {
    || BeyondBoundary(e, pt, p, Face(X, false), c) || BeyondBoundary(e, pt, p, Face(X, true), c)
    || BeyondBoundary(e, pt, p, Face(Y, false), c) || BeyondBoundary(e, pt, p, Face(Y, true), c)
    || BeyondBoundary(e, pt, p, Face(Z, false), c) || BeyondBoundary(e, pt, p, Face(Z, true), c)
  }

  function Initial(e: Extents, pt: Point, p: Point, c: Point): real {
    if InBoundaryLayer(e, pt, p, c) then 0.0 else 1.0
  }

  lemma AroundFits(e: Extents, lt: Point, l: Point, f: Face)
    requires Valid(e, lt) && IsLocal(lt, l)
    ensures var fs, lo, hi := Buffer(e), Low(e, l), High(e, l);
      0 <= lo.x <= hi.x <= fs.x && 0 <= lo.y <= hi.y <= fs.y && 0 <= lo.z <= hi.z <= fs.z
    ensures var fs, lo, hi := Buffer(e), LayerLow(e, l, f), LayerHigh(e, l, f);
      0 <= lo.x <= hi.x <= fs.x && 0 <= lo.y <= hi.y <= fs.y && 0 <= lo.z <= hi.z <= fs.z
  {
    SubgridInProcess(e.ls.x, l.x, lt.x);
    SubgridInProcess(e.ls.y, l.y, lt.y);
    SubgridInProcess(e.ls.z, l.z, lt.z);
  }

  /** The part of a ghost layer in the box from lo up to hi, when the box reaches the layer exactly if `reaches` says so. */
  lemma LayerInBox(lo: Point, hi: Point, f: Face, size: int, depth: nat, reaches: bool, c: Point)
    requires 0 <= Along(c, f.axis) < size + 2 * depth
    requires reaches ==> if f.high then Along(lo, f.axis) <= size + depth && Along(hi, f.axis) == size + 2 * depth
                         else Along(lo, f.axis) == 0 && depth <= Along(hi, f.axis)
    requires !reaches ==> if f.high then Along(hi, f.axis) <= size + depth else depth <= Along(lo, f.axis)
    ensures var low := if f.high then size + depth else 0;
      reaches && InBox(WithAlong(lo, f.axis, low), WithAlong(hi, f.axis, low + depth), c) <==>
      InBox(lo, hi, c) && if f.high then Along(c, f.axis) >= size + depth else Along(c, f.axis) < depth
  {}

  /** A box around a subgrid reaches into the ghost layer of its process only from the end of the process. */
  lemma EndReaches(ls: int, l: int, lt: int, depth: nat)
    requires 0 <= l < lt && depth <= ls
    ensures 0 <= ls * l && ls * l + ls <= ls * lt
    ensures if l == 0 then ls * l == 0 else depth <= ls * l
    ensures if l == lt - 1 then ls * l + ls == ls * lt else ls * l + ls + depth <= ls * lt
  {
    SubgridInProcess(ls, l, lt);
    if l > 0 { TimesGrows(1, l, ls); }
    if l < lt - 1 { TimesGrowsBy(l, lt - 1, ls); TimesGrowsBy(lt - 1, lt, ls); }
  }

  lemma ZeroedIsBoundary(e: Extents, pt: Point, lt: Point, p: Point, l: Point, f: Face, c: Point)
    requires Valid(e, lt) && IsLocal(lt, l) && InBuffer(Buffer(e), c)
    ensures Zeroed(e, pt, lt, p, l, f, c) <==> Around(e, l, c) && BeyondBoundary(e, pt, p, f, c)
  {
    var end := if f.high then Along(lt, f.axis) - 1 else 0;
    LowIs(e, lt, l, f.axis);
    EndReaches(Along(e.ls, f.axis), Along(l, f.axis), Along(lt, f.axis), e.depth);
    LayerInBox(Low(e, l), High(e, l), f, Along(e.ps, f.axis), e.depth, Along(l, f.axis) == end, c);
  }

  lemma LowIs(e: Extents, lt: Point, l: Point, a: Axis)
    requires Valid(e, lt)
    ensures Along(e.ps, a) == Along(e.ls, a) * Along(lt, a)
    ensures Along(Low(e, l), a) == Along(e.ls, a) * Along(l, a)
    ensures Along(High(e, l), a) == Along(e.ls, a) * Along(l, a) + Along(e.ls, a) + 2 * e.depth
  {}

  // ---------------------------------------------------------------------------------------------------------
  // The tasks
  // ---------------------------------------------------------------------------------------------------------

  method FillBox(a: array<real>, fs: Point, lo: Point, hi: Point, v: real)
    requires IsBuffer(a, fs) && 0 <= lo.x <= hi.x <= fs.x && 0 <= lo.y <= hi.y <= fs.y && 0 <= lo.z <= hi.z <= fs.z
    modifies a
    ensures forall c :: InBuffer(fs, c) ==> Get(a, fs, c) == if InBox(lo, hi, c) then v else old(Get(a, fs, c))
  {
    for k := lo.z to hi.z
      invariant forall c :: InBuffer(fs, c) ==> Get(a, fs, c) == if InBox(lo, hi, c) && c.z < k then v else old(Get(a, fs, c))
    {
      for j := lo.y to hi.y
        invariant forall c :: InBuffer(fs, c) ==>
          Get(a, fs, c) == if InBox(lo, hi, c) && (c.z < k || (c.z == k && c.y < j)) then v else old(Get(a, fs, c))
      {
        for i := lo.x to hi.x
          invariant forall c :: InBuffer(fs, c) ==>
            Get(a, fs, c) == if InBox(lo, hi, c) && (c.z < k || (c.z == k && (c.y < j || (c.y == j && c.x < i)))) then v else old(Get(a, fs, c))
        {
          Set(a, fs, Point(i, j, k), v);
        }
      }
    }
  }

  method ZeroLayer(a: array<real>, e: Extents, pt: Point, lt: Point, p: Point, l: Point, f: Face)
    requires Valid(e, lt) && IsLocal(lt, l) && IsBuffer(a, Buffer(e))
    modifies a
    ensures forall c :: InBuffer(Buffer(e), c) ==>
      Get(a, Buffer(e), c) == if Zeroed(e, pt, lt, p, l, f, c) then 0.0 else old(Get(a, Buffer(e), c))
  {
    AroundFits(e, lt, l, f);
    if OnBoundary(pt, lt, p, l, f) { FillBox(a, Buffer(e), LayerLow(e, l, f), LayerHigh(e, l, f), 0.0); }
  }

  /** What a reset task does to one of the buffers. */
  method ResetBuffer(a: array<real>, e: Extents, pt: Point, lt: Point, p: Point, l: Point)
    requires Valid(e, lt) && IsLocal(lt, l) && IsBuffer(a, Buffer(e))
    modifies a
    ensures forall c :: InBuffer(Buffer(e), c) ==>
      Get(a, Buffer(e), c) == if Around(e, l, c) then Initial(e, pt, p, c) else old(Get(a, Buffer(e), c))
  {
    AroundFits(e, lt, l, Face(X, false));
    FillBox(a, Buffer(e), Low(e, l), High(e, l), 1.0);
    ZeroLayer(a, e, pt, lt, p, l, Face(X, false));
    ZeroLayer(a, e, pt, lt, p, l, Face(Y, false));
    ZeroLayer(a, e, pt, lt, p, l, Face(Z, false));
    ZeroLayer(a, e, pt, lt, p, l, Face(X, true));
    ZeroLayer(a, e, pt, lt, p, l, Face(Y, true));
    ZeroLayer(a, e, pt, lt, p, l, Face(Z, true));
    forall c | InBuffer(Buffer(e), c)
      ensures Get(a, Buffer(e), c) == if Around(e, l, c) then Initial(e, pt, p, c) else old(Get(a, Buffer(e), c))
    {
      forall f ensures Zeroed(e, pt, lt, p, l, f, c) <==> Around(e, l, c) && BeyondBoundary(e, pt, p, f, c) {
        ZeroedIsBoundary(e, pt, lt, p, l, f, c);
      }
    }
  }

  method Reset(U: array<real>, Un: array<real>, e: Extents, pt: Point, lt: Point, p: Point, l: Point)
    requires Valid(e, lt) && IsLocal(lt, l) && IsBuffer(U, Buffer(e)) && IsBuffer(Un, Buffer(e)) && U != Un
    modifies U, Un
    ensures forall c :: InBuffer(Buffer(e), c) ==>
      && Get(U, Buffer(e), c) == (if Around(e, l, c) then Initial(e, pt, p, c) else old(Get(U, Buffer(e), c)))
      && Get(Un, Buffer(e), c) == (if Around(e, l, c) then Initial(e, pt, p, c) else old(Get(Un, Buffer(e), c)))
  {
    ResetBuffer(Un, e, pt, lt, p, l);
    ResetBuffer(U, e, pt, lt, p, l);
  }

  /** The subgrid whose surroundings contain coordinate c. */
  function Nearest(ls: int, lt: int, depth: int, c: int): int
    requires ls > 0
  {
    if c < depth then 0 else if c >= ls * lt + depth then lt - 1 else (c - depth) / ls
  }

  lemma NearestReaches(ls: int, lt: int, depth: int, c: int)
    requires ls > 0 && lt > 0 && depth >= 0 && 0 <= c < ls * lt + 2 * depth
    ensures var l := Nearest(ls, lt, depth, c); 0 <= l < lt && ls * l <= c < ls * l + ls + 2 * depth
  {
    SubgridInProcess(ls, lt - 1, lt);
    if depth <= c < ls * lt + depth {
      Divide(c - depth, ls);
      DigitInRange((c - depth) / ls, (c - depth) % ls, ls, lt);
    }
  }

  /** Whatever the order in which the reset tasks run: when each has run, every cell of both buffers is 0 in a ghost
      layer on the global boundary and 1 elsewhere. */
  method ResetAll(U: array<real>, Un: array<real>, e: Extents, pt: Point, lt: Point, p: Point, order: seq<Point>)
    requires Valid(e, lt) && e.ls.x > 0 && e.ls.y > 0 && e.ls.z > 0
    requires IsBuffer(U, Buffer(e)) && IsBuffer(Un, Buffer(e)) && U != Un
    requires forall l :: l in order <==> IsLocal(lt, l)
    modifies U, Un
    ensures forall c :: InBuffer(Buffer(e), c) ==>
      Get(U, Buffer(e), c) == Get(Un, Buffer(e), c) == Initial(e, pt, p, c)
  {
    for n := 0 to |order|
      invariant forall c, m :: InBuffer(Buffer(e), c) && 0 <= m < n && Around(e, order[m], c) ==>
        Get(U, Buffer(e), c) == Get(Un, Buffer(e), c) == Initial(e, pt, p, c)
    {
      assert order[n] in order;
      Reset(U, Un, e, pt, lt, p, order[n]);
    }
    forall c | InBuffer(Buffer(e), c) ensures Get(U, Buffer(e), c) == Get(Un, Buffer(e), c) == Initial(e, pt, p, c) {
      NearestReaches(e.ls.x, lt.x, e.depth, c.x);
      NearestReaches(e.ls.y, lt.y, e.depth, c.y);
      NearestReaches(e.ls.z, lt.z, e.depth, c.z);
      var l := Point(Nearest(e.ls.x, lt.x, e.depth, c.x), Nearest(e.ls.y, lt.y, e.depth, c.y), Nearest(e.ls.z, lt.z, e.depth, c.z));
      assert l in order && Around(e, l, c);
    }
  }
}
