/** One chunk of a snapshot in mesh_illustris (`SingleDataset`,
    mesh_illustris/core.py:166-388).

    A chunk knows its data file, the particle types it indexes, the depth,
    where its index file lives and the box size read from the file's
    header. Its `index` property builds, or reads back from the index file,
    one index per type and keeps them in the memo `_index`; `box` reads
    the ranks of a box of cells from that memo; `box_lazy` reads no index
    and filters the positions. The data file and the index file are
    parameters and results here: `data` is what
    `loadFile(fn, partType, "Coordinates")` returns, by requested type, and
    an index file is a map from group name to the entry it holds. */
module MeshChunk {
  import opened Wrappers
  import opened GridCodec
  import opened MeshIndex
  import opened Slicing
  import opened Selection
  import opened Widths
  import opened IndexNames
  import opened ChunkIndex
  import Combine

  /** The coordinates of each requested type. */
  type Positions = map<string, seq<Point>>

  /** numpy's message when the empty positions of a type without particles
      are shifted by the three-element boundary, abbreviated. */
  const Broadcast := "broadcast"

  /** The group of every type: `"PartType%d" % partTypeNum(p)`. */
  function GroupNames(types: seq<string>): seq<Result<string>>
  {
    Combine.Keys(Combine.OctPackage, types)
  }

  // ---------------------------------------------------------------------
  // index (core.py:231-274)

  /** Reading a group of the index file (core.py:243-247): the count
      attribute, then the `index` and the `mark` datasets. The dictionary
      keeps what was read before a missing item raised KeyError. */
  function Load(stored: Entry): (r: (Entry, Option<Error>))
    ensures r.1.None? <==> Complete(stored)
    ensures r.1.None? ==> r.0 == stored
    ensures r.1.Some? ==> r.0.mark.None? && r.1.value.KeyError?
    ensures r.0.count == stored.count
  {
    if stored.count.None? then (Started, Some(KeyError("count")))
    else if stored.index.None? then (Entry(stored.count, None, None), Some(KeyError("index")))
    else if stored.mark.None? then (Entry(stored.count, stored.index, None), Some(KeyError("mark")))
    else (stored, None)
  }

  /** One pass of the loop of `index` for the type `p` with group `g`: a
      group found in the file is read back; otherwise the group is
      created, the count recorded, and the positions indexed. A type
      without particles has empty positions, which `build` cannot shift by
      the boundary. Once an exception is raised nothing else runs. */
  function Step(s: Indexing, p: string, g: Result<string>, data: Positions, boxSize: real, depth: nat): Indexing
    requires boxSize > 0.0
  {
    if s.error.Some? then s
    else match g
      case Err(e) => s.(error := Some(e))
      case Ok(name) =>
        if name in s.file then
          var loaded := Load(s.file[name]);
          Indexing(s.memo[name := loaded.0], s.file, loaded.1)
        else if p !in data then
          Indexing(s.memo[name := Started], s.file[name := Started], Some(KeyError(p)))
        else if |data[p]| == 0 then
          var counted := Entry(Some(0), None, None);
          Indexing(s.memo[name := counted], s.file[name := counted], Some(ValueError(Broadcast)))
        else
          var e := BuiltEntry(data[p], boxSize, depth);
          Indexing(s.memo[name := e], s.file[name := e], None)
  }

  /** The first `n` passes, from an empty memo and the file as found. */
  function Passes(types: seq<string>, names: seq<Result<string>>, data: Positions, boxSize: real, depth: nat,
               file: IndexMap, n: nat): Indexing
    requires n <= |types| == |names| && boxSize > 0.0
  {
    if n == 0 then Indexing(map[], file, None)
    else Step(Passes(types, names, data, boxSize, depth, file, n - 1), types[n - 1], names[n - 1], data, boxSize, depth)
  }

  /** The `index` property: the memo if it is non-empty, else every pass. */
  function IndexOf(memo: Option<IndexMap>, types: seq<string>, names: seq<Result<string>>, data: Positions,
                   boxSize: real, depth: nat, file: IndexMap): Indexing
    requires |types| == |names| && boxSize > 0.0
  {
    if Cached(memo) then Indexing(memo.value, file, None)
    else Passes(types, names, data, boxSize, depth, file, |types|)
  }

  /** A pass keeps the memo and the file well formed. */
  lemma StepWellFormed(s: Indexing, p: string, g: Result<string>, data: Positions, boxSize: real, depth: nat)
    requires boxSize > 0.0 && WellFormed(s.memo, depth) && WellFormed(s.file, depth)
    ensures WellFormed(Step(s, p, g, data, boxSize, depth).memo, depth)
    ensures WellFormed(Step(s, p, g, data, boxSize, depth).file, depth)
  {
    if s.error.None? && g.Ok? && g.value !in s.file && p in data && |data[p]| > 0 {
      BuiltKeepsWellFormed(s.memo, g.value, data[p], boxSize, depth);
      BuiltKeepsWellFormed(s.file, g.value, data[p], boxSize, depth);
    }
  }

  /** Once a pass raised, the later passes change nothing. */
  lemma {:induction false} RunErrorSticks(types: seq<string>, names: seq<Result<string>>, data: Positions,
                                          boxSize: real, depth: nat, file: IndexMap, k: nat, n: nat)
    requires k <= n <= |types| == |names| && boxSize > 0.0
    requires Passes(types, names, data, boxSize, depth, file, k).error.Some?
    ensures Passes(types, names, data, boxSize, depth, file, n) == Passes(types, names, data, boxSize, depth, file, k)
  {
    if k < n {
      RunErrorSticks(types, names, data, boxSize, depth, file, k, n - 1);
    }
  }

  /** The file only gains groups: a group once in it stays as it was. */
  lemma {:induction false} FileGrows(types: seq<string>, names: seq<Result<string>>, data: Positions,
                                     boxSize: real, depth: nat, file: IndexMap, k: nat, n: nat)
    requires k <= n <= |types| == |names| && boxSize > 0.0
    ensures Extends(Passes(types, names, data, boxSize, depth, file, k).file, Passes(types, names, data, boxSize, depth, file, n).file)
  {
    if k < n {
      FileGrows(types, names, data, boxSize, depth, file, k, n - 1);
    }
  }

  /** A pass that raised nothing leaves one complete entry for its group,
      the same in the memo and in the file. */
  lemma StepStores(s: Indexing, p: string, g: string, data: Positions, boxSize: real, depth: nat)
    requires boxSize > 0.0
    requires Step(s, p, Ok(g), data, boxSize, depth).error.None?
    ensures var s' := Step(s, p, Ok(g), data, boxSize, depth);
      && g in s'.file && Complete(s'.file[g])
      && s'.memo == s.memo[g := s'.file[g]]
  {
    if g !in s.file {
      BuiltEntryIndexes(data[p], boxSize, depth);
    }
  }

  /** Reading back: with the file a successful `index` wrote, every pass
      of a fresh chunk finds its group and reads back the entry that was
      built, so the memo is the same and the file is left as it is. */
  lemma RoundTrip(types: seq<string>, names: seq<Result<string>>, data: Positions, boxSize: real, depth: nat,
                  file: IndexMap)
    requires |types| == |names| && boxSize > 0.0
    requires Passes(types, names, data, boxSize, depth, file, |types|).error.None?
    ensures var first := Passes(types, names, data, boxSize, depth, file, |types|);
      Passes(types, names, data, boxSize, depth, first.file, |types|) == first
  {
    var first := Passes(types, names, data, boxSize, depth, file, |types|);
    ReadBack(types, names, data, boxSize, depth, file, first.file, |types|);
  }

  lemma {:induction false} ReadBack(types: seq<string>, names: seq<Result<string>>, data: Positions,
                                    boxSize: real, depth: nat, file: IndexMap, written: IndexMap, k: nat)
    requires k <= |types| == |names| && boxSize > 0.0
    requires Passes(types, names, data, boxSize, depth, file, |types|).error.None?
    requires written == Passes(types, names, data, boxSize, depth, file, |types|).file
    ensures Passes(types, names, data, boxSize, depth, written, k)
              == Indexing(Passes(types, names, data, boxSize, depth, file, k).memo, written, None)
  {
    if k > 0 {
      ReadBack(types, names, data, boxSize, depth, file, written, k - 1);
      var before := Passes(types, names, data, boxSize, depth, file, k - 1);
      if before.error.Some? {
        RunErrorSticks(types, names, data, boxSize, depth, file, k - 1, |types|);
      }
      var after := Passes(types, names, data, boxSize, depth, file, k);
      if after.error.Some? {
        RunErrorSticks(types, names, data, boxSize, depth, file, k, |types|);
      }
      match names[k - 1]
      case Err(_) =>
        assert false;
      case Ok(g) =>
        StepStores(before, types[k - 1], g, data, boxSize, depth);
        FileGrows(types, names, data, boxSize, depth, file, k, |types|);
        assert g in written && written[g] == after.file[g];
    }
  }

  /** A type whose group is in neither the file nor the other requested
      types gets the entry `build` gives its positions, and keeps it to the
      end of a successful `index`. */
  lemma FreshTypeIsBuilt(types: seq<string>, names: seq<Result<string>>, data: Positions, boxSize: real,
                         depth: nat, file: IndexMap, t: nat)
    requires |types| == |names| && boxSize > 0.0 && t < |types|
    requires Passes(types, names, data, boxSize, depth, file, |types|).error.None?
    requires Combine.DistinctKeys(names) && names[t].value !in file
    ensures types[t] in data
    ensures names[t].value in Passes(types, names, data, boxSize, depth, file, |types|).memo
    ensures Passes(types, names, data, boxSize, depth, file, |types|).memo[names[t].value]
              == BuiltEntry(data[types[t]], boxSize, depth)
  {
    FreshUntil(types, names, data, boxSize, depth, file, t, |types|);
  }

  lemma {:induction false} FreshUntil(types: seq<string>, names: seq<Result<string>>, data: Positions,
                                      boxSize: real, depth: nat, file: IndexMap, t: nat, k: nat)
    requires |types| == |names| && boxSize > 0.0 && t < |types| && k <= |types|
    requires Passes(types, names, data, boxSize, depth, file, |types|).error.None?
    requires Combine.DistinctKeys(names) && names[t].value !in file
    ensures k <= t ==> names[t].value !in Passes(types, names, data, boxSize, depth, file, k).file
    ensures k > t ==> types[t] in data && names[t].value in Passes(types, names, data, boxSize, depth, file, k).memo
    ensures k > t ==> Passes(types, names, data, boxSize, depth, file, k).memo[names[t].value]
                        == BuiltEntry(data[types[t]], boxSize, depth)
  {
    if k > 0 {
      FreshUntil(types, names, data, boxSize, depth, file, t, k - 1);
      var before := Passes(types, names, data, boxSize, depth, file, k - 1);
      if before.error.Some? {
        RunErrorSticks(types, names, data, boxSize, depth, file, k - 1, |types|);
      }
      if Passes(types, names, data, boxSize, depth, file, k).error.Some? {
        RunErrorSticks(types, names, data, boxSize, depth, file, k, |types|);
      }
      var g, h := names[t].value, names[k - 1].value;
      if k - 1 == t {
        StepFresh(before, types[t], g, data, boxSize, depth);
      } else {
        assert h != g;
        StepElsewhere(before, types[k - 1], h, data, boxSize, depth, g);
      }
    }
  }

  /** A successful pass for a group the file lacks builds its entry. */
  lemma StepFresh(s: Indexing, p: string, g: string, data: Positions, boxSize: real, depth: nat)
    requires boxSize > 0.0 && s.error.None? && g !in s.file
    requires Step(s, p, Ok(g), data, boxSize, depth).error.None?
    ensures p in data && g in Step(s, p, Ok(g), data, boxSize, depth).memo
    ensures Step(s, p, Ok(g), data, boxSize, depth).memo[g] == BuiltEntry(data[p], boxSize, depth)
  {
  }

  /** A pass for another group leaves the entry of `g` where it was. */
  lemma StepElsewhere(s: Indexing, p: string, h: string, data: Positions, boxSize: real, depth: nat, g: string)
    requires boxSize > 0.0 && h != g
    ensures g in s.memo ==> g in Step(s, p, Ok(h), data, boxSize, depth).memo
                            && Step(s, p, Ok(h), data, boxSize, depth).memo[g] == s.memo[g]
    ensures g !in s.file ==> g !in Step(s, p, Ok(h), data, boxSize, depth).file
  {
  }

  // ---------------------------------------------------------------------
  // box (core.py:276-336)

  /** The ranks `_slicing` reads for the first `n` requested types, from
      the memo and the cell range `lower .. upper`. */
  function Targets(memo: IndexMap, names: seq<Result<string>>, lower: Cell, upper: Cell, depth: nat, n: nat)
    : (r: Result<seq<seq<int>>>)
    requires n <= |names| && WellFormed(memo, depth)
    requires CornerInGrid(lower, depth) && CornerInGrid(upper, depth)
    ensures r.Ok? ==> |r.value| == n
  {
    if n == 0 then Ok([])
    else
      var prev :- Targets(memo, names, lower, upper, depth, n - 1);
      var target :- TypeTarget(memo, names[n - 1], lower, upper, depth);
      Ok(prev + [target])
  }

  /** The target of one requested type: its group's runs. */
  function TypeTarget(memo: IndexMap, g: Result<string>, lower: Cell, upper: Cell, depth: nat): Result<seq<int>>
    requires WellFormed(memo, depth)
    requires CornerInGrid(lower, depth) && CornerInGrid(upper, depth)
  {
    var name :- g;
    var arrays :- Lookup(memo, name);
    Ok(Runs(Call(lower, upper, arrays.0, arrays.1, depth)))
  }

  /** What `box` hands to `loadFile` once the memo is there: the cell
      range of the mode, then one target per requested type. */
  function BoxTargets(memo: IndexMap, names: seq<Result<string>>, mode: string, bmin: Point, bmax: Point,
                      boxSize: real, depth: nat): Result<seq<seq<int>>>
    requires boxSize > 0.0 && WellFormed(memo, depth)
    requires InDomain(bmin, boxSize) && InDomain(bmax, boxSize)
  {
    var bounds := CellBounds(mode, NormalizePoint(bmin, boxSize, depth), NormalizePoint(bmax, boxSize, depth));
    if bounds.Err? then Unranged(names, bounds.error)
    else
      BoundsInGrid(mode, bmin, bmax, boxSize, depth);
      Targets(memo, names, bounds.value.0, bounds.value.1, depth, |names|)
  }

  /** A method other than "outer", "exact" and "inner" assigns no cell
      range: with no requested types nothing is read, and otherwise the
      first type's group name is resolved, so an unknown type raises its
      own error, before the unassigned `lower` is read. */
  lemma UnknownMethod(memo: IndexMap, names: seq<Result<string>>, mode: string, bmin: Point, bmax: Point,
                      boxSize: real, depth: nat)
    requires boxSize > 0.0 && WellFormed(memo, depth) && InDomain(bmin, boxSize) && InDomain(bmax, boxSize)
    requires mode !in ["outer", "exact", "inner"]
    ensures |names| == 0 ==> BoxTargets(memo, names, mode, bmin, bmax, boxSize, depth) == Ok([])
    ensures |names| > 0 && names[0].Err? ==> BoxTargets(memo, names, mode, bmin, bmax, boxSize, depth) == Err(names[0].error)
    ensures |names| > 0 && names[0].Ok? ==> BoxTargets(memo, names, mode, bmin, bmax, boxSize, depth) == Err(UnboundLocal("lower"))
  {
  }

  lemma {:induction false} TargetsErrorSticks(memo: IndexMap, names: seq<Result<string>>, lower: Cell, upper: Cell,
                                              depth: nat, k: nat, n: nat)
    requires k <= n <= |names| && WellFormed(memo, depth)
    requires CornerInGrid(lower, depth) && CornerInGrid(upper, depth)
    requires Targets(memo, names, lower, upper, depth, k).Err?
    ensures Targets(memo, names, lower, upper, depth, n) == Targets(memo, names, lower, upper, depth, k)
  {
    if k < n {
      TargetsErrorSticks(memo, names, lower, upper, depth, k, n - 1);
    }
  }

  /** Read from the entry built over a type's positions, all inside the
      domain, a target holds exactly the ranks of the particles whose cells
      lie in the range. */
  lemma TargetSelects(memo: IndexMap, names: seq<Result<string>>, lower: Cell, upper: Cell, depth: nat,
                      pos: seq<Point>, boxSize: real, t: nat, x: int)
    requires t < |names| && WellFormed(memo, depth)
    requires CornerInGrid(lower, depth) && CornerInGrid(upper, depth)
    requires Targets(memo, names, lower, upper, depth, |names|).Ok?
    requires boxSize > 0.0 && forall p :: 0 <= p < |pos| ==> Inside(pos[p], boxSize)
    requires names[t].Ok? && names[t].value in memo && memo[names[t].value] == BuiltEntry(pos, boxSize, depth)
    ensures var e := BuiltEntry(pos, boxSize, depth);
      (x in Targets(memo, names, lower, upper, depth, |names|).value[t] <==>
       Selected(Cells(pos, boxSize, depth), 0, x, Call(lower, upper, e.mark.value, e.index.value, depth)))
  {
    var c := TargetAt(memo, names, lower, upper, depth, t, |names|);
    var e := BuiltEntry(pos, boxSize, depth);
    BuiltEntryIndexes(pos, boxSize, depth);
    CellsInGrid(pos, boxSize, depth);
    var r := Reading(c, Cells(pos, boxSize, depth), 0);
    RunsSelectBox(r, x);
  }

  /** The target of type `t` is the runs of the call on its group's
      arrays. */
  lemma {:induction false} TargetAt(memo: IndexMap, names: seq<Result<string>>, lower: Cell, upper: Cell,
                                    depth: nat, t: nat, n: nat) returns (c: SliceCall)
    requires t < n <= |names| && WellFormed(memo, depth)
    requires CornerInGrid(lower, depth) && CornerInGrid(upper, depth)
    requires Targets(memo, names, lower, upper, depth, n).Ok?
    ensures names[t].Ok? && Lookup(memo, names[t].value).Ok?
    ensures c == Call(lower, upper, memo[names[t].value].mark.value, memo[names[t].value].index.value, depth)
    ensures Targets(memo, names, lower, upper, depth, n).value[t] == Runs(c)
  {
    if t < n - 1 {
      c := TargetAt(memo, names, lower, upper, depth, t, n - 1);
    } else {
      var g := names[t].value;
      c := Call(lower, upper, memo[g].mark.value, memo[g].index.value, depth);
    }
  }

  // ---------------------------------------------------------------------
  // box_lazy (core.py:339-388)

  /** The ranks `box_lazy` hands to `loadFile` for the first `n` requested
      types: the positions strictly inside the box. */
  function LazyTargets(types: seq<string>, data: Positions, bmin: Point, bmax: Point, n: nat)
    : (r: Result<seq<seq<int>>>)
    requires n <= |types|
    ensures r.Ok? ==> |r.value| == n
    ensures r.Ok? <==> forall t :: 0 <= t < n ==> types[t] in data
  {
    if n == 0 then Ok([])
    else
      var prev :- LazyTargets(types, data, bmin, bmax, n - 1);
      var p := types[n - 1];
      if p !in data then Err(KeyError(p))
      else Ok(prev + [Selection.BoxLazy(data[p], bmin, bmax)])
  }

  /** For positions inside the domain, every rank `box_lazy` returns for a
      type is among those the outer `box` reads from the entry built over
      the same positions. */
  lemma LazyWithinOuter(memo: IndexMap, names: seq<Result<string>>, bmin: Point, bmax: Point, boxSize: real,
                        depth: nat, pos: seq<Point>, t: nat, x: int)
    requires t < |names| && boxSize > 0.0 && WellFormed(memo, depth)
    requires InDomain(bmin, boxSize) && InDomain(bmax, boxSize)
    requires forall p :: 0 <= p < |pos| ==> Inside(pos[p], boxSize)
    requires BoxTargets(memo, names, "outer", bmin, bmax, boxSize, depth).Ok?
    requires names[t].Ok? && names[t].value in memo && memo[names[t].value] == BuiltEntry(pos, boxSize, depth)
    requires x in Selection.BoxLazy(pos, bmin, bmax)
    ensures x in BoxTargets(memo, names, "outer", bmin, bmax, boxSize, depth).value[t]
  {
    var qmin, qmax := NormalizePoint(bmin, boxSize, depth), NormalizePoint(bmax, boxSize, depth);
    var lower, upper := OuterLower(qmin), OuterUpper(qmax);
    BoundsInGrid("outer", bmin, bmax, boxSize, depth);
    assert CellBounds("outer", qmin, qmax) == Ok((lower, upper));
    var c := TargetAt(memo, names, lower, upper, depth, t, |names|);
    BuiltEntryIndexes(pos, boxSize, depth);
    CellsInGrid(pos, boxSize, depth);
    var r := Reading(c, Cells(pos, boxSize, depth), 0);
    OuterHoldsLazy(r, pos, boxSize, bmin, bmax, x);
  }

  // ---------------------------------------------------------------------
  // The chunk

  class SingleDataset {
    const fn: string
    const partType: seq<string>
    const depth: nat
    const indexPath: Option<string>
    const indexFn: string
    const boxSize: real
    const intTree: IntWidth
    const groups: seq<Result<string>>
    var index: Option<IndexMap>

    /** A depth `__init__` accepts, a positive box size, a group per type,
        and a memo every entry of which holds a mark of its ranks. */
    predicate Valid()
      reads this
    {
      && depth <= 20 && boxSize > 0.0 && |groups| == |partType|
      && (index.Some? ==> WellFormed(index.value, depth))
    }

    /** The tree width, the index file's name and the groups of the types
        `__init__` chose. */
    predicate Named()
    {
      && groups == GroupNames(partType)
      && TreeWidth(depth, "Mesh") == Ok(intTree)
      && indexFn == IndexFileFor(fn, indexPath, MeshSuffix(depth))
    }

    constructor (fn: string, partType: seq<string>, depth: nat, indexPath: Option<string>, boxSize: real,
                 intTree: IntWidth)
      ensures this.fn == fn && this.partType == partType && this.depth == depth
      ensures this.indexPath == indexPath && this.boxSize == boxSize && this.intTree == intTree
      ensures indexFn == IndexFileFor(fn, indexPath, MeshSuffix(depth))
      ensures groups == GroupNames(partType)
      ensures index.None?
    {
      this.fn := fn;
      this.partType := partType;
      this.depth := depth;
      this.indexPath := indexPath;
      this.indexFn := IndexFileFor(fn, indexPath, MeshSuffix(depth));
      this.boxSize := boxSize;
      this.intTree := intTree;
      this.groups := GroupNames(partType);
      this.index := None;
    }

    /** `SingleDataset(fn, partType, depth, index_path)` (core.py:170-213)
        with the header's box size: a single type becomes a list, the index
        file is named, the memo is empty, and a depth above 20 raises. */
    static method Open(fn: string, partType: Combine.Names, depth: nat, indexPath: Option<string>, boxSize: real)
      returns (r: Result<SingleDataset>)
      requires boxSize > 0.0
      ensures r.Err? <==> depth > 20
      ensures r.Err? ==> r.error == ValueError("The depth of " + "Mesh" + " must be no more than 20!")
      ensures r.Ok? ==> fresh(r.value) && r.value.Valid() && r.value.Named() && r.value.index.None?
      ensures r.Ok? ==> r.value.fn == fn && r.value.partType == Combine.AsList(partType)
                        && r.value.depth == depth && r.value.indexPath == indexPath && r.value.boxSize == boxSize
      ensures r.Ok? ==> (r.value.intTree == Int32 <==> depth <= 10)
    {
      var tree := TreeWidth(depth, "Mesh");
      if tree.Err? {
        return Err(tree.error);
      }
      var d := new SingleDataset(fn, Combine.AsList(partType), depth, indexPath, boxSize, tree.value);
      return Ok(d);
    }

    /** The `index` property (core.py:231-274). */
    method Index(data: Positions, file: IndexMap) returns (r: Result<IndexMap>, written: IndexMap)
      requires Valid() && WellFormed(file, depth)
      modifies this
      ensures Valid() && WellFormed(written, depth)
      ensures var s := IndexOf(old(index), partType, groups, data, boxSize, depth, file);
        index == Some(s.memo) && written == s.file && r == Outcome(s)
    {
      if Cached(index) {
        return Ok(index.value), file;
      }
      var names := groups;
      var s := Indexing(map[], file, None);
      var i: nat := 0;
      while i < |partType| && s.error.None?
        invariant i <= |partType|
        invariant s == Passes(partType, names, data, boxSize, depth, file, i)
        invariant WellFormed(s.memo, depth) && WellFormed(s.file, depth)
      {
        s := IndexType(s, partType[i], names[i], data, boxSize, depth);
        i := i + 1;
      }
      if s.error.Some? {
        RunErrorSticks(partType, names, data, boxSize, depth, file, i, |partType|);
      }
      index := Some(s.memo);
      r, written := Outcome(s), s.file;
    }

    /** One pass of the loop of `index`. */
    static method IndexType(s: Indexing, p: string, g: Result<string>, data: Positions, boxSize: real, depth: nat)
      returns (next: Indexing)
      requires boxSize > 0.0 && depth <= 20 && s.error.None?
      requires WellFormed(s.memo, depth) && WellFormed(s.file, depth)
      ensures next == Step(s, p, g, data, boxSize, depth)
      ensures WellFormed(next.memo, depth) && WellFormed(next.file, depth)
    {
      StepWellFormed(s, p, g, data, boxSize, depth);
      match g
      case Err(e) =>
        return s.(error := Some(e));
      case Ok(name) =>
        if name in s.file {
          var loaded := Load(s.file[name]);
          return Indexing(s.memo[name := loaded.0], s.file, loaded.1);
        }
        var file := s.file[name := Started];
        if p !in data {
          return Indexing(s.memo[name := Started], file, Some(KeyError(p)));
        }
        var counted := Entry(Some(|data[p]|), None, None);
        if |data[p]| == 0 {
          return Indexing(s.memo[name := counted], file[name := counted], Some(ValueError(Broadcast)));
        }
        var e := BuildType(data[p], boxSize, depth);
        return Indexing(s.memo[name := e], file[name := e], None);
    }

    /** `box` (core.py:276-336) up to the ranks it hands to `loadFile`: the
        memo is made, the corners scaled, the cell range of the mode taken
        and each requested type's runs read with `_slicing`. */
    method Box(bmin: Point, bmax: Point, types: Combine.Names, mode: string, data: Positions, file: IndexMap)
      returns (r: Result<seq<seq<int>>>, written: IndexMap)
      requires Valid() && WellFormed(file, depth)
      requires InDomain(bmin, boxSize) && InDomain(bmax, boxSize)
      modifies this
      ensures Valid() && WellFormed(written, depth)
      ensures var s := IndexOf(old(index), partType, groups, data, boxSize, depth, file);
        && index == Some(s.memo) && written == s.file
        && r == if s.error.Some? then Err(s.error.value)
                else BoxTargets(s.memo, GroupNames(Combine.AsList(types)), mode, bmin, bmax, boxSize, depth)
    {
      var indexed;
      indexed, written := Index(data, file);
      if indexed.Err? {
        return Err(indexed.error), written;
      }
      var memo := index.value;
      var qmin, qmax := NormalizePoint(bmin, boxSize, depth), NormalizePoint(bmax, boxSize, depth);
      var bounds := CellBounds(mode, qmin, qmax);
      if bounds.Err? {
        // the loop over the types reads the unassigned `lower` in its first pass
        var names := GroupNames(Combine.AsList(types));
        if |names| == 0 {
          return Ok([]), written;
        }
        match names[0]
        case Err(e) =>
          return Err(e), written;
        case Ok(_) =>
          return Err(bounds.error), written;
      }
      BoundsInGrid(mode, bmin, bmax, boxSize, depth);
      r := SliceTypes(memo, GroupNames(Combine.AsList(types)), bounds.value.0, bounds.value.1, depth);
    }

    /** The loop of `box` over the requested types. */
    static method SliceTypes(memo: IndexMap, names: seq<Result<string>>, lower: Cell, upper: Cell, depth: nat)
      returns (r: Result<seq<seq<int>>>)
      requires WellFormed(memo, depth) && CornerInGrid(lower, depth) && CornerInGrid(upper, depth)
      ensures r == Targets(memo, names, lower, upper, depth, |names|)
    {
      r := Ok([]);
      var t: nat := 0;
      while t < |names| && r.Ok?
        invariant t <= |names|
        invariant r == Targets(memo, names, lower, upper, depth, t)
      {
        var next := SliceType(memo, names[t], lower, upper, depth);
        r := if next.Err? then Err(next.error) else Ok(r.value + [next.value]);
        t := t + 1;
      }
      if r.Err? {
        TargetsErrorSticks(memo, names, lower, upper, depth, t, |names|);
      }
    }

    /** `_slicing(lower, upper, self._index[gName]["mark"],
        self._index[gName]["index"], ...)` for one requested type. */
    static method SliceType(memo: IndexMap, g: Result<string>, lower: Cell, upper: Cell, depth: nat)
      returns (r: Result<seq<int>>)
      requires WellFormed(memo, depth) && CornerInGrid(lower, depth) && CornerInGrid(upper, depth)
      ensures r == TypeTarget(memo, g, lower, upper, depth)
    {
      match g
      case Err(e) =>
        return Err(e);
      case Ok(name) =>
        var arrays := Lookup(memo, name);
        if arrays.Err? {
          return Err(arrays.error);
        }
        var target := NumbaSlicing(Call(lower, upper, arrays.value.0, arrays.value.1, depth));
        return Ok(target);
    }

    /** `box_lazy` (core.py:339-388) up to the ranks it hands to
        `loadFile`. */
    method BoxLazy(bmin: Point, bmax: Point, types: Combine.Names, data: Positions) returns (r: Result<seq<seq<int>>>)
      ensures r == LazyTargets(Combine.AsList(types), data, bmin, bmax, |Combine.AsList(types)|)
    {
      var list := Combine.AsList(types);
      r := Ok([]);
      var t: nat := 0;
      while t < |list| && r.Ok?
        invariant t <= |list|
        invariant r == LazyTargets(list, data, bmin, bmax, t)
      {
        var p := list[t];
        if p !in data {
          r := Err(KeyError(p));
        } else {
          var mask := InsideMask(data[p], bmin, bmax);
          r := Ok(r.value + [Where(mask)]);
        }
        t := t + 1;
      }
      if r.Err? {
        LazyErrorSticks(list, data, bmin, bmax, t, |list|);
      }
    }
  }

  lemma {:induction false} LazyErrorSticks(types: seq<string>, data: Positions, bmin: Point, bmax: Point, k: nat, n: nat)
    requires k <= n <= |types|
    requires LazyTargets(types, data, bmin, bmax, k).Err?
    ensures LazyTargets(types, data, bmin, bmax, n) == LazyTargets(types, data, bmin, bmax, k)
  {
    if k < n {
      LazyErrorSticks(types, data, bmin, bmax, k, n - 1);
    }
  }
}
