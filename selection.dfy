/** Choosing what a box query reads (mesh_illustris/core.py and
    oct_illustris/core.py, `box` and `box_lazy`).

    A box is given by two corners in simulation units. The indexed `box`
    scales them into grid units, `2^d * v / boxSize` (the domain starts at
    the origin), and takes a cell range per axis:
      - "outer" and "exact": `floor` of the lower corner to `ceil` of the
        upper corner, every cell the box touches;
      - "inner": `ceil` of the lower corner to `floor` of the upper corner,
        the cells wholly inside the box.
    `box_lazy` reads no index: it keeps the particles strictly inside the
    box, in file order. Positions and corners are exact reals here; the
    floating-point rounding of the repository is not modelled. */
module Selection {
  import opened Wrappers
  import opened Bits
  import opened GridCodec
  import opened Slicing

  /** A position or a box corner. */
  datatype Point = Point(x: real, y: real, z: real)

  /** `np.floor` as an integer: the largest integer not above `v`. */
  function Floor(v: real): (n: int)
    ensures n as real <= v < n as real + 1.0
  {
    v.Floor
  }

  /** `np.ceil` as an integer: the smallest integer not below `v`. */
  function Ceil(v: real): (n: int)
    ensures n as real - 1.0 < v <= n as real
  {
    -((-v).Floor)
  }

  /** Scaling one coordinate into grid units (core.py:309-311 of
      mesh_illustris, 198-200 of oct_illustris). */
  function Normalize(v: real, boxSize: real, depth: nat): (n: real)
    requires boxSize > 0.0
  {
    (Side(depth) as real) * v / boxSize
  }

  function NormalizePoint(p: Point, boxSize: real, depth: nat): Point
    requires boxSize > 0.0
  {
    Point(Normalize(p.x, boxSize, depth), Normalize(p.y, boxSize, depth), Normalize(p.z, boxSize, depth))
  }

  /** Scaling keeps the order of coordinates, strict and not strict. */
  lemma NormalizeMonotone(a: real, b: real, boxSize: real, depth: nat)
    requires boxSize > 0.0
    ensures a < b <==> Normalize(a, boxSize, depth) < Normalize(b, boxSize, depth)
    ensures a <= b <==> Normalize(a, boxSize, depth) <= Normalize(b, boxSize, depth)
  {
    var s := Side(depth) as real;
    PowPositive(2, depth);
    assert s > 0.0;
    var k := s / boxSize;
    assert k > 0.0;
    assert Normalize(a, boxSize, depth) == k * a;
    assert Normalize(b, boxSize, depth) == k * b;
    assert k * b - k * a == k * (b - a);
  }

  /** The grid cell of a position: `2^d * pos // boxSize` per axis
      (mesh.py:46-47). */
  function Digitize(p: Point, boxSize: real, depth: nat): (c: Cell)
    requires boxSize > 0.0
  {
    var q := NormalizePoint(p, boxSize, depth);
    Cell(Floor(q.x), Floor(q.y), Floor(q.z))
  }

  // ---------------------------------------------------------------------
  // Cell ranges

  function OuterLower(q: Point): Cell { Cell(Floor(q.x), Floor(q.y), Floor(q.z)) }
  function OuterUpper(q: Point): Cell { Cell(Ceil(q.x), Ceil(q.y), Ceil(q.z)) }
  function InnerLower(q: Point): Cell { Cell(Ceil(q.x), Ceil(q.y), Ceil(q.z)) }
  function InnerUpper(q: Point): Cell { Cell(Floor(q.x), Floor(q.y), Floor(q.z)) }

  /** Every coordinate of `c` is the floor of that of `q`. */
  predicate FloorCell(c: Cell, q: Point)
  {
    && c.x as real <= q.x < c.x as real + 1.0
    && c.y as real <= q.y < c.y as real + 1.0
    && c.z as real <= q.z < c.z as real + 1.0
  }

  /** Every coordinate of `c` is the ceiling of that of `q`. */
  predicate CeilCell(c: Cell, q: Point)
  {
    && c.x as real - 1.0 < q.x <= c.x as real
    && c.y as real - 1.0 < q.y <= c.y as real
    && c.z as real - 1.0 < q.z <= c.z as real
  }

  /** The `(lower, upper)` cell range of `box` for the scaled corners `qmin`
      and `qmax` (mesh_illustris/core.py:313-319, oct_illustris/core.py:
      202-208). Any other method assigns neither bound; the error is what the
      first use of `lower`, inside the loop over the types, raises. */
  function CellBounds(mode: string, qmin: Point, qmax: Point): (r: Result<(Cell, Cell)>)
    ensures r.Ok? <==> mode in ["outer", "exact", "inner"]
    ensures r.Err? ==> r.error == UnboundLocal("lower")
    ensures r.Ok? && mode != "inner" ==> FloorCell(r.value.0, qmin) && CeilCell(r.value.1, qmax)
    ensures r.Ok? && mode == "inner" ==> CeilCell(r.value.0, qmin) && FloorCell(r.value.1, qmax)
  {
    if mode in ["outer", "exact"] then Ok((OuterLower(qmin), OuterUpper(qmax)))
    else if mode == "inner" then Ok((InnerLower(qmin), InnerUpper(qmax)))
    else Err(UnboundLocal("lower"))
  }

  /** On every axis the inner range lies within the outer range. */
  lemma InnerWithinOuter(qmin: Point, qmax: Point)
    ensures OuterLower(qmin).x <= InnerLower(qmin).x && InnerUpper(qmax).x <= OuterUpper(qmax).x
    ensures OuterLower(qmin).y <= InnerLower(qmin).y && InnerUpper(qmax).y <= OuterUpper(qmax).y
    ensures OuterLower(qmin).z <= InnerLower(qmin).z && InnerUpper(qmax).z <= OuterUpper(qmax).z
  {
  }

  /** The scaled point lies in the half-open box `[qmin, qmax)`. */
  predicate InHalfOpen(q: Point, qmin: Point, qmax: Point)
  {
    && qmin.x <= q.x < qmax.x
    && qmin.y <= q.y < qmax.y
    && qmin.z <= q.z < qmax.z
  }

  /** The cell of `q` lies in the range `lower .. upper-1` on every axis. */
  predicate CellInRange(q: Point, lower: Cell, upper: Cell)
  {
    && lower.x <= Floor(q.x) < upper.x
    && lower.y <= Floor(q.y) < upper.y
    && lower.z <= Floor(q.z) < upper.z
  }

  /** The outer range holds the cell of every point of the half-open box. */
  lemma OuterCovers(qmin: Point, qmax: Point, q: Point)
    requires InHalfOpen(q, qmin, qmax)
    ensures CellInRange(q, OuterLower(qmin), OuterUpper(qmax))
  {
    FloorMonotone(qmin.x, q.x);
    FloorMonotone(qmin.y, q.y);
    FloorMonotone(qmin.z, q.z);
  }

  lemma FloorMonotone(a: real, b: real)
    requires a <= b
    ensures Floor(a) <= Floor(b)
  {
  }

  /** A point whose cell is in the inner range lies in the half-open box. */
  lemma InnerInside(qmin: Point, qmax: Point, q: Point)
    requires CellInRange(q, InnerLower(qmin), InnerUpper(qmax))
    ensures InHalfOpen(q, qmin, qmax)
  {
  }

  // ---------------------------------------------------------------------
  // box_lazy

  /** Strictly inside the box on all three axes (core.py:380-383). */
  predicate StrictlyInside(p: Point, bmin: Point, bmax: Point)
  {
    && bmin.x < p.x < bmax.x
    && bmin.y < p.y < bmax.y
    && bmin.z < p.z < bmax.z
  }

  /** The elementwise mask of the six comparisons. */
  function InsideMask(pos: seq<Point>, bmin: Point, bmax: Point): (mask: seq<bool>)
    ensures |mask| == |pos|
    ensures forall t :: 0 <= t < |pos| ==> (mask[t] <==> StrictlyInside(pos[t], bmin, bmax))
  {
    seq(|pos|, t requires 0 <= t < |pos| => StrictlyInside(pos[t], bmin, bmax))
  }

  /** `np.where(mask)`: the positions of the true entries, ascending. */
  function Where(mask: seq<bool>): (r: seq<int>)
    ensures forall p, q :: 0 <= p < q < |r| ==> r[p] < r[q]
    ensures forall p :: 0 <= p < |r| ==> 0 <= r[p] < |mask|
    ensures forall t :: 0 <= t < |mask| ==> (t in r <==> mask[t])
    decreases |mask|
  {
    if |mask| == 0 then []
    else
      var n := |mask| - 1;
      assert forall t :: 0 <= t < n ==> mask[..n][t] == mask[t];
      Where(mask[..n]) + if mask[n] then [n] else []
  }

  /** The ranks `box_lazy` selects in one chunk. */
  function BoxLazy(pos: seq<Point>, bmin: Point, bmax: Point): seq<int>
  {
    Where(InsideMask(pos, bmin, bmax))
  }

  /** `box_lazy` selects exactly the particles strictly inside the box,
      particles on a face excluded, each once and in file order. */
  lemma BoxLazySelects(pos: seq<Point>, bmin: Point, bmax: Point, t: int)
    ensures t in BoxLazy(pos, bmin, bmax) <==> 0 <= t < |pos| && StrictlyInside(pos[t], bmin, bmax)
    ensures forall p, q :: 0 <= p < q < |BoxLazy(pos, bmin, bmax)| ==> BoxLazy(pos, bmin, bmax)[p] < BoxLazy(pos, bmin, bmax)[q]
  {
    var r := BoxLazy(pos, bmin, bmax);
    if t in r {
      var p :| 0 <= p < |r| && r[p] == t;
    }
  }

  // ---------------------------------------------------------------------
  // The indexed box against the lazy one

  /** The reading's cells are the digitized positions of its particles. */
  predicate DigitizedFrom(r: Reading, pos: seq<Point>, boxSize: real)
    requires boxSize > 0.0
  {
    |pos| == |r.cells| && forall t :: 0 <= t < |pos| ==> r.cells[t] == Digitize(pos[t], boxSize, r.call.depth)
  }

  /** Every particle `box_lazy` selects is read by each of the three
      slicers over the outer range of the same box: the outer box reads a
      superset of the lazy box. */
  lemma OuterHoldsLazy(r: IndexedReading, pos: seq<Point>, boxSize: real, bmin: Point, bmax: Point, x: int)
    requires boxSize > 0.0 && r.offset == 0 && DigitizedFrom(r, pos, boxSize)
    requires r.call.lower == OuterLower(NormalizePoint(bmin, boxSize, r.call.depth))
    requires r.call.upper == OuterUpper(NormalizePoint(bmax, boxSize, r.call.depth))
    requires x in BoxLazy(pos, bmin, bmax)
    ensures x in Runs(r.call) && x in ReversedRuns(r.call) && x in CellSlices(r.call)
  {
    var d := r.call.depth;
    BoxLazySelects(pos, bmin, bmax, x);
    var p := pos[x];
    NormalizeMonotone(bmin.x, p.x, boxSize, d);
    NormalizeMonotone(bmin.y, p.y, boxSize, d);
    NormalizeMonotone(bmin.z, p.z, boxSize, d);
    NormalizeMonotone(p.x, bmax.x, boxSize, d);
    NormalizeMonotone(p.y, bmax.y, boxSize, d);
    NormalizeMonotone(p.z, bmax.z, boxSize, d);
    var q := NormalizePoint(p, boxSize, d);
    OuterCovers(NormalizePoint(bmin, boxSize, d), NormalizePoint(bmax, boxSize, d), q);
    assert InBox(r.cells[x], r.call);
    SlicersSelectBox(r, x);
  }

  /** Every particle the slicers read over the inner range lies in the
      half-open box `[bmin, bmax)`; a particle on a lower face is read
      although `box_lazy` leaves it out. */
  lemma InnerWithinBox(r: IndexedReading, pos: seq<Point>, boxSize: real, bmin: Point, bmax: Point, x: int)
    requires boxSize > 0.0 && r.offset == 0 && DigitizedFrom(r, pos, boxSize)
    requires r.call.lower == InnerLower(NormalizePoint(bmin, boxSize, r.call.depth))
    requires r.call.upper == InnerUpper(NormalizePoint(bmax, boxSize, r.call.depth))
    requires x in Runs(r.call)
    ensures 0 <= x < |pos|
    ensures bmin.x <= pos[x].x < bmax.x && bmin.y <= pos[x].y < bmax.y && bmin.z <= pos[x].z < bmax.z
  {
    var d := r.call.depth;
    SlicersSelectBox(r, x);
    var p := pos[x];
    var q := NormalizePoint(p, boxSize, d);
    assert CellInRange(q, r.call.lower, r.call.upper);
    InnerInside(NormalizePoint(bmin, boxSize, d), NormalizePoint(bmax, boxSize, d), q);
    NormalizeMonotone(bmin.x, p.x, boxSize, d);
    NormalizeMonotone(bmin.y, p.y, boxSize, d);
    NormalizeMonotone(bmin.z, p.z, boxSize, d);
    NormalizeMonotone(p.x, bmax.x, boxSize, d);
    NormalizeMonotone(p.y, bmax.y, boxSize, d);
    NormalizeMonotone(p.z, bmax.z, boxSize, d);
  }
}
