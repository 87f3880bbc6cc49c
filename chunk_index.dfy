/** What the chunk classes of both packages keep about a particle type
    (`SingleDataset` of mesh_illustris/core.py and `singleDataset` of
    oct_illustris/core.py).

    The memo `_index` maps a group name `"PartType%d"` to a dictionary
    that may hold a `"count"`, an `"index"` (the ranks) and a `"mark"`; a
    group of the HDF5 index file holds the same three things, the count as
    an attribute. Both are modelled by one map from group name to `Entry`.
    Positions are exact reals and are digitized as `mesh.build` does. */
module ChunkIndex {
  import opened Wrappers
  import opened GridCodec
  import opened MeshIndex
  import opened Slicing
  import opened Selection

  /** The dictionary of one group, or the group of the index file: which
      of the three items it holds. */
  datatype Entry = Entry(count: Option<nat>, index: Option<seq<int>>, mark: Option<seq<int>>)

  /** `_index`, and the contents of the index file. */
  type IndexMap = map<string, Entry>

  /** `_index[gName] = {}` or a freshly created group. */
  const Started := Entry(None, None, None)

  predicate Complete(e: Entry)
  {
    e.count.Some? && e.index.Some? && e.mark.Some?
  }

  /** Every entry holding both arrays holds the mark of an index over its
      ranks, as every entry `build` writes does. */
  predicate WellFormed(m: IndexMap, depth: nat)
  {
    forall g :: g in m && m[g].index.Some? && m[g].mark.Some? ==>
      MarkShape(m[g].mark.value, CellCount(depth), |m[g].index.value|)
  }

  /** Python's truth value of `_index`: `None` and `{}` are false, so only
      a non-empty memo is returned without indexing again. */
  predicate Cached(memo: Option<IndexMap>)
  {
    memo.Some? && memo.value != map[]
  }

  /** The state of an `index` call after some of the requested types: the
      memo, the index file, and the exception raised, if one was. */
  datatype Indexing = Indexing(memo: IndexMap, file: IndexMap, error: Option<Error>)

  /** What the `index` property returns, or raises. */
  function Outcome(s: Indexing): (r: Result<IndexMap>)
    ensures r.Ok? <==> s.error.None?
  {
    if s.error.None? then Ok(s.memo) else Err(s.error.value)
  }

  /** Every entry of `a` is in `b` unchanged. */
  predicate Extends(a: IndexMap, b: IndexMap)
  {
    forall g :: g in a ==> g in b && b[g] == a[g]
  }

  /** The particle lies in the half-open domain `[0, boxSize)^3`. */
  predicate Inside(p: Point, boxSize: real)
  {
    0.0 <= p.x < boxSize && 0.0 <= p.y < boxSize && 0.0 <= p.z < boxSize
  }

  /** Particles inside the domain have their cells inside the grid. */
  lemma CellsInGrid(pos: seq<Point>, boxSize: real, depth: nat)
    requires boxSize > 0.0
    requires forall t :: 0 <= t < |pos| ==> Inside(pos[t], boxSize)
    ensures AllInGrid(Cells(pos, boxSize, depth), depth)
  {
    forall t | 0 <= t < |pos|
      ensures InGrid(Cells(pos, boxSize, depth)[t], depth)
    {
      var p := pos[t];
      FloorInGrid(p.x, boxSize, depth);
      FloorInGrid(p.y, boxSize, depth);
      FloorInGrid(p.z, boxSize, depth);
    }
  }

  /** A coordinate in `[0, boxSize)` scales into a cell index in
      `[0, 2^d)`. */
  lemma FloorInGrid(v: real, boxSize: real, depth: nat)
    requires boxSize > 0.0 && 0.0 <= v < boxSize
    ensures 0 <= Floor(Normalize(v, boxSize, depth)) < Side(depth)
  {
    NormalizeInGrid(v, boxSize, depth);
    NormalizeMonotone(v, boxSize, boxSize, depth);
    assert Normalize(boxSize, boxSize, depth) == Side(depth) as real;
  }

  /** The particles' grid cells (mesh.py:46-47). */
  function Cells(pos: seq<Point>, boxSize: real, depth: nat): (cells: seq<Cell>)
    requires boxSize > 0.0
    ensures |cells| == |pos|
    ensures forall t :: 0 <= t < |pos| ==> cells[t] == Digitize(pos[t], boxSize, depth)
  {
    seq(|pos|, t requires 0 <= t < |pos| => Digitize(pos[t], boxSize, depth))
  }

  /** The entry `build` gives a type's positions, ranks from 0. */
  function BuiltEntry(pos: seq<Point>, boxSize: real, depth: nat): Entry
    requires boxSize > 0.0
  {
    var keys := MeshIndex.Keys(Cells(pos, boxSize, depth), depth);
    var idx := ArgSort(keys);
    Entry(Some(|pos|), Some(RankOf(0, |pos|, idx)), Some(MarkOf(SortedView(keys, idx), depth)))
  }

  /** A built entry is complete, counts the positions and is an index of
      their cells. */
  lemma BuiltEntryIndexes(pos: seq<Point>, boxSize: real, depth: nat)
    requires boxSize > 0.0
    ensures Complete(BuiltEntry(pos, boxSize, depth))
    ensures BuiltEntry(pos, boxSize, depth).count == Some(|pos|)
    ensures IsIndex(BuiltEntry(pos, boxSize, depth).index.value, BuiltEntry(pos, boxSize, depth).mark.value,
                    MeshIndex.Keys(Cells(pos, boxSize, depth), depth), 0, depth)
  {
    var keys := MeshIndex.Keys(Cells(pos, boxSize, depth), depth);
    SortedIndexIsPartition(keys, ArgSort(keys), 0, depth);
  }

  /** Adding a built entry keeps a map well formed. */
  lemma BuiltKeepsWellFormed(m: IndexMap, g: string, pos: seq<Point>, boxSize: real, depth: nat)
    requires boxSize > 0.0 && WellFormed(m, depth)
    ensures WellFormed(m[g := BuiltEntry(pos, boxSize, depth)], depth)
  {
    BuiltEntryIndexes(pos, boxSize, depth);
  }

  /** `mesh(pos, length, 0, boundary, depth).build()`, stored as an
      entry. */
  method BuildType(pos: seq<Point>, boxSize: real, depth: nat) returns (e: Entry)
    requires boxSize > 0.0 && depth <= 20
    ensures e == BuiltEntry(pos, boxSize, depth)
  {
    var cells := Cells(pos, boxSize, depth);
    var m := NewMesh(cells, |pos|, 0, depth);
    var rank, mark := MeshIndex.Build(m.value);
    e := Entry(Some(|pos|), Some(rank), Some(mark[..]));
  }

  /** `_index[g]["mark"]` and then `_index[g]["index"]`: KeyError for a
      group that was never indexed or an item it does not hold. */
  function Lookup(m: IndexMap, g: string): (r: Result<(seq<int>, seq<int>)>)
    ensures r.Ok? <==> g in m && m[g].mark.Some? && m[g].index.Some?
    ensures r.Ok? ==> r.value == (m[g].mark.value, m[g].index.value)
    ensures g !in m ==> r == Err(KeyError(g))
    ensures g in m && m[g].mark.None? ==> r == Err(KeyError("mark"))
  {
    if g !in m then Err(KeyError(g))
    else if m[g].mark.None? then Err(KeyError("mark"))
    else if m[g].index.None? then Err(KeyError("index"))
    else Ok((m[g].mark.value, m[g].index.value))
  }

  /** What the loop of `box` over the requested types gives when the
      method assigned no cell range and `e` is the error of reading
      `lower`: with no types nothing is read; otherwise the first type's
      group name is resolved and then `lower` is read. */
  function Unranged(names: seq<Result<string>>, e: Error): Result<seq<seq<int>>>
  {
    if |names| == 0 then Ok([])
    else if names[0].Err? then Err(names[0].error)
    else Err(e)
  }

  // ---------------------------------------------------------------------
  // Box corners

  /** The corner lies in the simulation domain `[0, boxSize]^3`. */
  predicate InDomain(p: Point, boxSize: real)
  {
    0.0 <= p.x <= boxSize && 0.0 <= p.y <= boxSize && 0.0 <= p.z <= boxSize
  }

  /** Every coordinate of the cell corner is in `[0, 2^d]`. */
  predicate CornerInGrid(c: Cell, depth: nat)
  {
    0 <= c.x <= Side(depth) && 0 <= c.y <= Side(depth) && 0 <= c.z <= Side(depth)
  }

  /** The scaled coordinate of a point of the domain lies in `[0, 2^d]`. */
  lemma NormalizeInGrid(v: real, boxSize: real, depth: nat)
    requires boxSize > 0.0 && 0.0 <= v <= boxSize
    ensures 0.0 <= Normalize(v, boxSize, depth) <= Side(depth) as real
  {
    NormalizeMonotone(0.0, v, boxSize, depth);
    NormalizeMonotone(v, boxSize, boxSize, depth);
    assert Normalize(0.0, boxSize, depth) == 0.0;
    assert Normalize(boxSize, boxSize, depth) == Side(depth) as real;
  }

  /** The floor and the ceiling of a value in `[0, s]` stay there. */
  lemma RoundInGrid(v: real, s: nat)
    requires 0.0 <= v <= s as real
    ensures 0 <= Floor(v) <= s && 0 <= Ceil(v) <= s
  {
  }

  /** For a box inside the domain both corners of the cell range, in any
      mode, lie in the grid: every key the slicers form addresses `mark`. */
  lemma BoundsInGrid(mode: string, bmin: Point, bmax: Point, boxSize: real, depth: nat)
    requires boxSize > 0.0 && InDomain(bmin, boxSize) && InDomain(bmax, boxSize)
    requires CellBounds(mode, NormalizePoint(bmin, boxSize, depth), NormalizePoint(bmax, boxSize, depth)).Ok?
    ensures CornerInGrid(CellBounds(mode, NormalizePoint(bmin, boxSize, depth), NormalizePoint(bmax, boxSize, depth)).value.0, depth)
    ensures CornerInGrid(CellBounds(mode, NormalizePoint(bmin, boxSize, depth), NormalizePoint(bmax, boxSize, depth)).value.1, depth)
  {
    var s := Side(depth);
    NormalizeInGrid(bmin.x, boxSize, depth);
    NormalizeInGrid(bmin.y, boxSize, depth);
    NormalizeInGrid(bmin.z, boxSize, depth);
    NormalizeInGrid(bmax.x, boxSize, depth);
    NormalizeInGrid(bmax.y, boxSize, depth);
    NormalizeInGrid(bmax.z, boxSize, depth);
    var qmin, qmax := NormalizePoint(bmin, boxSize, depth), NormalizePoint(bmax, boxSize, depth);
    RoundInGrid(qmin.x, s);
    RoundInGrid(qmin.y, s);
    RoundInGrid(qmin.z, s);
    RoundInGrid(qmax.x, s);
    RoundInGrid(qmax.y, s);
    RoundInGrid(qmax.z, s);
  }
}
