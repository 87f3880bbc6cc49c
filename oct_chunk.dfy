/** One chunk of a snapshot in oct_illustris (`singleDataset`,
    oct_illustris/core.py:66-234).

    A chunk knows its data file, the particle types it indexes, the depth,
    a number `_pt_idx` formed from the types' numbers that names its index
    file, and the box size read from the file's header. Its `index`
    property reads the index file if there is one and otherwise builds one
    index per type, records it in the memo `_index` and writes it to a new
    index file; `box` reads, cell by cell, the ranks of a box of cells from
    that memo. The data file and the index file are parameters and
    results: `data` is what `loadFile(fn, partType, "Coordinates")` gives,
    by group name, and the index file is a map from group name to entry,
    or `None` when there is no such file. */
module OctChunk {
  import opened Wrappers
  import opened Bits
  import opened GridCodec
  import opened Slicing
  import opened Selection
  import opened Widths
  import IlUtil
  import Text
  import opened IndexNames
  import opened ChunkIndex
  import MeshIndex
  import Combine

  /** The coordinates of each group, by group name. */
  type Groups = map<string, seq<Point>>

  /** h5py's message when a group is created twice, abbreviated. */
  const NameExists := "name already exists"

  /** The group of every type: `"PartType%d" % partTypeNum(p)`. */
  function GroupNames(types: seq<string>): seq<Result<string>>
  {
    Combine.Keys(Combine.OctPackage, types)
  }

  // ---------------------------------------------------------------------
  // _pt_idx (core.py:79-84)

  /** `partTypeNum(p)` of a type given by name; it is never negative. */
  function TypeNum(p: string): Result<nat>
  {
    var k :- IlUtil.PartTypeNum(IlUtil.TypeName(p));
    Ok(k)
  }

  /** The number of every requested type, in order. */
  function Numbers(types: seq<string>): (nums: seq<Result<nat>>)
    ensures |nums| == |types| && forall t :: 0 <= t < |types| ==> nums[t] == TypeNum(types[t])
  {
    seq(|types|, t requires 0 <= t < |types| => TypeNum(types[t]))
  }

  /** `_pt_idx` after the first `n` types, as written: the sum of
      `2 ** partTypeNum(p)`; the first unknown name raises. */
  function PtIdxSum(nums: seq<Result<nat>>, n: nat): (r: Result<nat>)
    requires n <= |nums|
    ensures r.Ok? <==> forall t :: 0 <= t < n ==> nums[t].Ok?
  {
    if n == 0 then Ok(0)
    else
      var prev :- PtIdxSum(nums, n - 1);
      var k :- nums[n - 1];
      Ok(prev + Pow(2, k))
  }

  /** The set of type numbers among the first `n`. */
  function NumberSet(nums: seq<Result<nat>>, n: nat): (s: set<nat>)
    requires n <= |nums|
    ensures forall k :: k in s <==> exists t :: 0 <= t < n && nums[t] == Ok(k)
  {
    if n == 0 then {}
    else NumberSet(nums, n - 1) + (if nums[n - 1].Ok? then {nums[n - 1].value} else {})
  }

  /** The mask the suffix is meant to be: bit `k` set for every requested
      type number `k`. */
  function PtMask(nums: seq<Result<nat>>, n: nat): (r: Result<nat>)
    requires n <= |nums|
    ensures r.Ok? <==> forall t :: 0 <= t < n ==> nums[t].Ok?
  {
    if n == 0 then Ok(0)
    else
      var prev :- PtMask(nums, n - 1);
      var k :- nums[n - 1];
      Ok(BitOr(prev, Pow(2, k)))
  }

  /** The first `n` numbers are known and pairwise different. */
  predicate DistinctNumbers(nums: seq<Result<nat>>, n: nat)
    requires n <= |nums|
  {
    && (forall t :: 0 <= t < n ==> nums[t].Ok?)
    && (forall p, q :: 0 <= p < q < n ==> nums[p].value != nums[q].value)
  }

  /** The mask has exactly the bits of the requested numbers. */
  lemma {:induction false} PtMaskBits(nums: seq<Result<nat>>, n: nat, k: nat)
    requires n <= |nums| && PtMask(nums, n).Ok?
    ensures Bit(PtMask(nums, n).value, k) == 1 <==> k in NumberSet(nums, n)
  {
    if n == 0 {
      BitOfZero(k);
    } else {
      var prev := PtMask(nums, n - 1).value;
      var m := nums[n - 1].value;
      PtMaskBits(nums, n - 1, k);
      BitOrBit(prev, Pow(2, m), k);
      BitOfPow2(m, k);
    }
  }

  /** Two lists of types get the same mask exactly when they request the
      same set of numbers. */
  lemma PtMaskSeparates(nums1: seq<Result<nat>>, n1: nat, nums2: seq<Result<nat>>, n2: nat)
    requires n1 <= |nums1| && n2 <= |nums2|
    requires PtMask(nums1, n1).Ok? && PtMask(nums2, n2).Ok?
    ensures PtMask(nums1, n1) == PtMask(nums2, n2) <==> NumberSet(nums1, n1) == NumberSet(nums2, n2)
  {
    var m1, m2 := PtMask(nums1, n1).value, PtMask(nums2, n2).value;
    if NumberSet(nums1, n1) == NumberSet(nums2, n2) {
      forall t: nat
        ensures Bit(m1, t) == Bit(m2, t)
      {
        PtMaskBits(nums1, n1, t);
        PtMaskBits(nums2, n2, t);
      }
      BitsDetermine(m1, m2);
    } else {
      var k :| k in NumberSet(nums1, n1) <==> k !in NumberSet(nums2, n2);
      PtMaskBits(nums1, n1, k);
      PtMaskBits(nums2, n2, k);
    }
  }

  /** With no number requested twice, the sum as written is the mask. */
  lemma {:induction false} PtIdxAgrees(nums: seq<Result<nat>>, n: nat)
    requires n <= |nums| && DistinctNumbers(nums, n)
    ensures PtIdxSum(nums, n) == PtMask(nums, n)
  {
    if n > 0 {
      PtIdxAgrees(nums, n - 1);
      var prev := PtMask(nums, n - 1).value;
      var k := nums[n - 1].value;
      PtMaskBits(nums, n - 1, k);
      DisjointOrIsSum(prev, k);
    }
  }

  /** "star" and "wind" are both type 4, so together they sum to 32, the
      number of "bh" (type 5) alone: both chunks get the suffix `_pt32`.
      The mask keeps them apart. */
  lemma PtIdxCollision()
    ensures PtIdxSum(Numbers(["star", "wind"]), 2) == Ok(32)
    ensures PtIdxSum(Numbers(["bh"]), 1) == Ok(32)
    ensures NumberSet(Numbers(["star", "wind"]), 2) == {4} && NumberSet(Numbers(["bh"]), 1) == {5}
    ensures PtMask(Numbers(["star", "wind"]), 2) == Ok(16) && PtMask(Numbers(["bh"]), 1) == Ok(32)
  {
    StarWindNumbers();
    BhNumbers();
    LiteralMasks();
  }

  /** The sums, sets and masks of the numbers of the two lists. */
  lemma LiteralMasks()
    ensures PtIdxSum([Ok(4), Ok(4)], 2) == Ok(32) && PtIdxSum([Ok(5)], 1) == Ok(32)
    ensures NumberSet([Ok(4), Ok(4)], 2) == {4} && NumberSet([Ok(5)], 1) == {5}
    ensures PtMask([Ok(4), Ok(4)], 2) == Ok(16) && PtMask([Ok(5)], 1) == Ok(32)
  {
    PowersSixteenThirtyTwo();
    SingleMask([Ok(4), Ok(4)], 2, 4);
    SingleMask([Ok(5)], 1, 5);
  }

  /** The mask of a list whose only number is `k` is `2 ** k`. */
  lemma SingleMask(nums: seq<Result<nat>>, n: nat, k: nat)
    requires n <= |nums| && PtMask(nums, n).Ok? && NumberSet(nums, n) == {k}
    ensures PtMask(nums, n) == Ok(Pow(2, k))
  {
    forall t: nat
      ensures Bit(PtMask(nums, n).value, t) == Bit(Pow(2, k), t)
    {
      PtMaskBits(nums, n, t);
      BitOfPow2(k, t);
    }
    BitsDetermine(PtMask(nums, n).value, Pow(2, k));
  }

  lemma PowersSixteenThirtyTwo()
    ensures Pow(2, 4) == 16 && Pow(2, 5) == 32
  {
    assert Pow(2, 1) == 2 && Pow(2, 2) == 4 && Pow(2, 3) == 8;
  }

  lemma StarWindNumbers()
    ensures Numbers(["star", "wind"]) == [Ok(4), Ok(4)]
  {
    StarIsFour();
    WindIsFour();
  }

  lemma BhNumbers()
    ensures Numbers(["bh"]) == [Ok(5)]
  {
    BhIsFive();
  }

  lemma StarIsFour()
    ensures TypeNum("star") == Ok(4)
  {
    assert !Text.IsDigit("star"[0]);
    assert Text.ToLower("star") == "star";
  }

  lemma WindIsFour()
    ensures TypeNum("wind") == Ok(4)
  {
    assert !Text.IsDigit("wind"[0]);
    assert Text.ToLower("wind") == "wind";
  }

  lemma BhIsFive()
    ensures TypeNum("bh") == Ok(5)
  {
    assert !Text.IsDigit("bh"[0]);
    assert Text.ToLower("bh") == "bh";
  }

  /** The loop of `__init__` that sums `2 ** partTypeNum(p)`, over the
      types' numbers. */
  method PtIdx(nums: seq<Result<nat>>) returns (r: Result<nat>)
    ensures r == PtIdxSum(nums, |nums|)
  {
    r := Ok(0);
    var i: nat := 0;
    while i < |nums| && r.Ok?
      invariant i <= |nums|
      invariant r == PtIdxSum(nums, i)
    {
      r := AddNumber(nums, i, r.value);
      i := i + 1;
    }
    if r.Err? {
      PtIdxErrorSticks(nums, i, |nums|);
    }
  }

  /** `_pt_idx += 2 ** partTypeNum(p)` for the type at `i`. */
  method AddNumber(nums: seq<Result<nat>>, i: nat, sum: nat) returns (r: Result<nat>)
    requires i < |nums| && PtIdxSum(nums, i) == Ok(sum)
    ensures r == PtIdxSum(nums, i + 1)
  {
    var k := nums[i];
    if k.Err? {
      return Err(k.error);
    }
    return Ok(sum + Pow(2, k.value));
  }

  lemma {:induction false} PtIdxErrorSticks(nums: seq<Result<nat>>, k: nat, n: nat)
    requires k <= n <= |nums| && PtIdxSum(nums, k).Err?
    ensures PtIdxSum(nums, n) == PtIdxSum(nums, k)
  {
    if k < n {
      PtIdxErrorSticks(nums, k, n - 1);
    }
  }

  // ---------------------------------------------------------------------
  // index (core.py:132-183)

  /** Reading an existing index file as written (core.py:138-150): the
      right-hand side `f[gName].attrs["count"]` is read first, then
      `self._index[gName]` is looked up in the empty memo, so the first
      requested type always raises KeyError and the loop never reaches a
      second one. */
  function ReadAsWritten(f: IndexMap, names: seq<Result<string>>): (r: Result<IndexMap>)
    ensures r.Ok? <==> |names| == 0
    ensures r.Ok? ==> r.value == map[]
    ensures |names| > 0 && names[0].Ok? ==> r == Err(KeyError(names[0].value)) || r == Err(KeyError("count"))
  {
    if |names| == 0 then Ok(map[])
    else match names[0]
      case Err(e) => Err(e)
      case Ok(g) =>
        if g !in f then Err(KeyError(g))
        else if f[g].count.None? then Err(KeyError("count"))
        else Err(KeyError(g))
  }

  /** What a group of a new index file holds: only a zero count, or a
      positive count with both arrays. */
  predicate Stored(e: Entry)
  {
    e == Entry(Some(0), None, None) || (Complete(e) && e.count.value > 0)
  }

  /** The entry each group of the data gets: its count alone when it has no
      particles, else the entry `octree(...).build()` gives. */
  function GroupEntries(data: Groups, boxSize: real, depth: nat): (built: IndexMap)
    requires boxSize > 0.0
    ensures built.Keys == data.Keys
  {
    map g | g in data :: if |data[g]| == 0 then Entry(Some(0), None, None) else BuiltEntry(data[g], boxSize, depth)
  }

  /** The entry of one group of the data. */
  lemma GroupEntryOf(data: Groups, boxSize: real, depth: nat, g: string)
    requires boxSize > 0.0 && g in data
    ensures GroupEntries(data, boxSize, depth)[g]
              == if |data[g]| == 0 then Entry(Some(0), None, None) else BuiltEntry(data[g], boxSize, depth)
  {
  }

  /** Every built entry is stored whole, counts its group's particles, and
      holds a mark of its ranks. */
  lemma BuiltStored(data: Groups, boxSize: real, depth: nat)
    requires boxSize > 0.0
    ensures forall g :: g in data ==>
              (Stored(GroupEntries(data, boxSize, depth)[g]) && GroupEntries(data, boxSize, depth)[g].count == Some(|data[g]|))
    ensures WellFormed(GroupEntries(data, boxSize, depth), depth)
  {
    forall g | g in data
      ensures Stored(GroupEntries(data, boxSize, depth)[g]) && GroupEntries(data, boxSize, depth)[g].count == Some(|data[g]|)
      ensures var e := GroupEntries(data, boxSize, depth)[g];
              e.index.Some? && e.mark.Some? ==> MeshIndex.MarkShape(e.mark.value, CellCount(depth), |e.index.value|)
    {
      if |data[g]| > 0 {
        BuiltEntryIndexes(data[g], boxSize, depth);
      }
    }
  }

  /** The state of the loop that builds a new index file: the memo, the
      file written so far, the exception raised, if one was, and
      `_int_data`. */
  datatype Building = Building(memo: IndexMap, file: IndexMap, error: Option<Error>, width: IntWidth)

  /** One pass of the loop that builds the index (core.py:157-181), with
      `built` the entries of the data's groups: the memo entry is reset,
      the group created (a group an earlier type created raises
      ValueError), a group missing from the data raises KeyError, and
      otherwise the group's entry is recorded in both; a type with
      particles sets the width from its count. */
  function BuildStep(b: Building, g: Result<string>, built: IndexMap): Building
  {
    if b.error.Some? then b
    else match g
      case Err(e) => b.(error := Some(e))
      case Ok(name) =>
        var memo := b.memo[name := Started];
        if name in b.file then b.(memo := memo, error := Some(ValueError(NameExists)))
        else if name !in built then Building(memo, b.file[name := Started], Some(KeyError(name)), b.width)
        else
          var e := built[name];
          var width := if e.count.Some? && e.count.value > 0 then DataWidth(e.count.value) else b.width;
          Building(memo[name := e], b.file[name := e], None, width)
  }

  /** The first `n` passes, from an empty memo and an empty new file. */
  function Builds(names: seq<Result<string>>, built: IndexMap, width: IntWidth, n: nat): Building
    requires n <= |names|
  {
    if n == 0 then Building(map[], map[], None, width)
    else BuildStep(Builds(names, built, width, n - 1), names[n - 1], built)
  }

  /** What the `index` property leaves: the memo, the index file, what it
      returns or raises, and `_int_data`. */
  datatype Indexed = Indexed(memo: IndexMap, file: Option<IndexMap>, result: Result<IndexMap>, width: IntWidth)

  /** The `index` property (core.py:132-183): a non-empty memo is returned;
      otherwise the memo is emptied and the index file, if there is one, is
      read as written; if there is none, a new one is built. */
  function IndexOf(memo: Option<IndexMap>, names: seq<Result<string>>, data: Groups, boxSize: real, depth: nat,
                   file: Option<IndexMap>, width: IntWidth): Indexed
    requires boxSize > 0.0
  {
    if Cached(memo) then Indexed(memo.value, file, Ok(memo.value), width)
    else if file.Some? then Indexed(map[], file, ReadAsWritten(file.value, names), width)
    else
      var b := Builds(names, GroupEntries(data, boxSize, depth), width, |names|);
      Indexed(b.memo, Some(b.file), if b.error.None? then Ok(b.memo) else Err(b.error.value), b.width)
  }

  /** A pass keeps the memo well formed. */
  lemma BuildStepWellFormed(b: Building, g: Result<string>, built: IndexMap, depth: nat)
    requires WellFormed(b.memo, depth) && WellFormed(built, depth)
    ensures WellFormed(BuildStep(b, g, built).memo, depth)
  {
  }

  lemma {:induction false} BuildErrorSticks(names: seq<Result<string>>, built: IndexMap, width: IntWidth, k: nat, n: nat)
    requires k <= n <= |names| && Builds(names, built, width, k).error.Some?
    ensures Builds(names, built, width, n) == Builds(names, built, width, k)
  {
    if k < n {
      BuildErrorSticks(names, built, width, k, n - 1);
    }
  }

  /** Every prefix of a build that raised nothing raised nothing. */
  lemma PrefixSucceeds(names: seq<Result<string>>, built: IndexMap, width: IntWidth, k: nat, n: nat)
    requires k <= n <= |names| && Builds(names, built, width, n).error.None?
    ensures Builds(names, built, width, k).error.None?
    ensures k > 0 ==> names[k - 1].Ok? && Builds(names, built, width, k - 1).error.None?
  {
    if Builds(names, built, width, k).error.Some? {
      BuildErrorSticks(names, built, width, k, n);
    }
  }

  /** The new file only gains groups: a group once in it stays as it was. */
  lemma {:induction false} BuiltFileGrows(names: seq<Result<string>>, built: IndexMap, width: IntWidth, k: nat, n: nat)
    requires k <= n <= |names|
    ensures Extends(Builds(names, built, width, k).file, Builds(names, built, width, n).file)
  {
    if k < n {
      BuiltFileGrows(names, built, width, k, n - 1);
      StepExtends(Builds(names, built, width, n - 1), names[n - 1], built);
    }
  }

  /** A pass keeps every group the file already has. */
  lemma StepExtends(b: Building, g: Result<string>, built: IndexMap)
    ensures Extends(b.file, BuildStep(b, g, built).file)
  {
  }

  /** A pass that raised nothing adds one new group, with its built entry,
      the same in the memo and in the file. */
  lemma BuildStepStores(b: Building, g: string, built: IndexMap)
    requires BuildStep(b, Ok(g), built).error.None? && b.error.None?
    ensures var b' := BuildStep(b, Ok(g), built);
      && g !in b.file && g in built
      && b'.memo == b.memo[g := built[g]] && b'.file == b.file[g := built[g]]
  {
  }

  /** After passes that raised nothing the memo is the file written, every
      type so far has its group in it, and the groups are pairwise
      different. */
  lemma {:induction false} BuildsAgree(names: seq<Result<string>>, built: IndexMap, width: IntWidth, k: nat)
    requires k <= |names| && Builds(names, built, width, k).error.None?
    ensures var b := Builds(names, built, width, k);
      && b.memo == b.file
      && (forall t :: 0 <= t < k ==> names[t].Ok? && names[t].value in b.file)
      && (forall p, q :: 0 <= p < q < k ==> names[p].value != names[q].value)
  {
    if k > 0 {
      BuildsAgree(names, built, width, k - 1);
      BuildStepStores(Builds(names, built, width, k - 1), names[k - 1].value, built);
    }
  }

  /** A successful build asked for pairwise different groups: a group
      requested twice raises ValueError when it is created again. */
  lemma BuiltDistinct(names: seq<Result<string>>, built: IndexMap, width: IntWidth)
    requires Builds(names, built, width, |names|).error.None?
    ensures Combine.DistinctKeys(names)
  {
    BuildsAgree(names, built, width, |names|);
  }

  /** After a successful build every requested group is in the memo with
      its built entry, and the file written holds the same. */
  lemma BuiltTypeEntry(names: seq<Result<string>>, built: IndexMap, width: IntWidth, t: nat)
    requires t < |names| && Builds(names, built, width, |names|).error.None?
    ensures var b := Builds(names, built, width, |names|);
      && names[t].Ok? && names[t].value in built && names[t].value in b.memo
      && b.memo[names[t].value] == built[names[t].value] && b.file == b.memo
  {
    var n := |names|;
    PrefixSucceeds(names, built, width, t + 1, n);
    BuildStepStores(Builds(names, built, width, t), names[t].value, built);
    BuiltFileGrows(names, built, width, t + 1, n);
    BuiltMemoIsFile(names, built, width);
  }

  /** A successful build leaves the memo equal to the file written. */
  lemma BuiltMemoIsFile(names: seq<Result<string>>, built: IndexMap, width: IntWidth)
    requires Builds(names, built, width, |names|).error.None?
    ensures Builds(names, built, width, |names|).memo == Builds(names, built, width, |names|).file
  {
    BuildsAgree(names, built, width, |names|);
  }

  /** In a successful build of the data's groups, a type without particles
      keeps only its count, and any other the entry `build` gives its
      positions. */
  lemma BuiltFromData(names: seq<Result<string>>, data: Groups, boxSize: real, depth: nat, width: IntWidth, t: nat)
    requires boxSize > 0.0 && t < |names|
    requires Builds(names, GroupEntries(data, boxSize, depth), width, |names|).error.None?
    ensures var b := Builds(names, GroupEntries(data, boxSize, depth), width, |names|);
      && names[t].Ok? && names[t].value in data && names[t].value in b.memo
      && b.memo[names[t].value] == if |data[names[t].value]| == 0 then Entry(Some(0), None, None)
                                   else BuiltEntry(data[names[t].value], boxSize, depth)
  {
    BuiltTypeEntry(names, GroupEntries(data, boxSize, depth), width, t);
  }

  /** Reading a group of the index file as the read path is meant to:
      `_index[gName] = {}`, the count, and the two arrays only when the
      count is not zero. */
  function LoadGroup(f: IndexMap, g: string): (r: Result<Entry>)
    ensures r.Ok? <==> g in f && f[g].count.Some? && (f[g].count.value == 0 || (f[g].index.Some? && f[g].mark.Some?))
    ensures r.Ok? ==> Stored(r.value) && r.value.count == f[g].count
    ensures g in f && Stored(f[g]) ==> r == Ok(f[g])
    ensures g !in f ==> r == Err(KeyError(g))
  {
    if g !in f then Err(KeyError(g))
    else if f[g].count.None? then Err(KeyError("count"))
    else if f[g].count.value == 0 then Ok(Entry(Some(0), None, None))
    else if f[g].index.None? then Err(KeyError("index"))
    else if f[g].mark.None? then Err(KeyError("mark"))
    else Ok(f[g])
  }

  /** The memo the read path is meant to give for the first `n` types. */
  function LoadIndex(f: IndexMap, names: seq<Result<string>>, n: nat): (r: Result<IndexMap>)
    requires n <= |names|
    ensures r.Ok? ==> forall t :: 0 <= t < n ==> names[t].Ok? && names[t].value in r.value
  {
    if n == 0 then Ok(map[])
    else
      var prev :- LoadIndex(f, names, n - 1);
      var g :- names[n - 1];
      var e :- LoadGroup(f, g);
      Ok(prev[g := e])
  }

  /** Reading back the file a successful build wrote gives the memo that
      was built, when every built entry is stored whole. */
  lemma LoadRoundTrip(names: seq<Result<string>>, built: IndexMap, width: IntWidth)
    requires forall g :: g in built ==> Stored(built[g])
    requires Builds(names, built, width, |names|).error.None?
    ensures var b := Builds(names, built, width, |names|);
      LoadIndex(b.file, names, |names|) == Ok(b.memo)
  {
    LoadsBack(names, built, width, Builds(names, built, width, |names|).file, |names|);
  }

  /** Any file holding the groups of a successful build loads back its
      memo. */
  lemma {:induction false} LoadsBack(names: seq<Result<string>>, built: IndexMap, width: IntWidth, f: IndexMap, k: nat)
    requires k <= |names| && forall g :: g in built ==> Stored(built[g])
    requires Builds(names, built, width, k).error.None?
    requires Extends(Builds(names, built, width, k).file, f)
    ensures LoadIndex(f, names, k) == Ok(Builds(names, built, width, k).memo)
  {
    if k > 0 {
      var before := Builds(names, built, width, k - 1);
      var g := names[k - 1].value;
      BuildStepStores(before, g, built);
      LoadsBack(names, built, width, f, k - 1);
      LoadStep(f, names, k, before.memo, g);
    }
  }

  /** Loading one more group adds what the file holds for it. */
  lemma LoadStep(f: IndexMap, names: seq<Result<string>>, k: nat, before: IndexMap, g: string)
    requires 0 < k <= |names| && names[k - 1] == Ok(g)
    requires LoadIndex(f, names, k - 1) == Ok(before)
    requires g in f && Stored(f[g])
    ensures LoadIndex(f, names, k) == Ok(before[g := f[g]])
  {
  }

  /** As written, the file a successful build wrote cannot be read back:
      the first requested type raises KeyError, where the intended read
      gives the memo that was built. `BuiltStored` shows the entries of the
      data's groups are stored whole. */
  lemma WrittenFileUnreadable(names: seq<Result<string>>, built: IndexMap, width: IntWidth)
    requires |names| > 0 && forall g :: g in built ==> Stored(built[g])
    requires Builds(names, built, width, |names|).error.None?
    ensures var b := Builds(names, built, width, |names|);
      && names[0].Ok? && ReadAsWritten(b.file, names) == Err(KeyError(names[0].value))
      && LoadIndex(b.file, names, |names|) == Ok(b.memo)
  {
    BuiltTypeEntry(names, built, width, 0);
    LoadRoundTrip(names, built, width);
  }

  // ---------------------------------------------------------------------
  // box (core.py:185-231)

  /** The three ranges of the triple loop are all non-empty. */
  predicate NonEmpty(lower: Cell, upper: Cell)
  {
    lower.x < upper.x && lower.y < upper.y && lower.z < upper.z
  }

  /** The target of one requested type (core.py:207-229): with an empty
      range the loops read nothing; otherwise the first cell looks up the
      group's mark and ranks, and the loops gather the slice of every
      cell. */
  function TypeCells(memo: IndexMap, g: Result<string>, lower: Cell, upper: Cell, depth: nat): (r: Result<seq<int>>)
    requires WellFormed(memo, depth) && CornerInGrid(lower, depth) && CornerInGrid(upper, depth)
    ensures g.Ok? && !NonEmpty(lower, upper) ==> r == Ok([])
    ensures g.Ok? && NonEmpty(lower, upper) ==> (r.Ok? <==> Lookup(memo, g.value).Ok?)
  {
    var name :- g;
    if !NonEmpty(lower, upper) then Ok([])
    else
      var arrays :- Lookup(memo, name);
      Ok(CellSlices(Call(lower, upper, arrays.0, arrays.1, depth)))
  }

  /** The targets of the first `n` requested types. */
  function OctTargets(memo: IndexMap, names: seq<Result<string>>, lower: Cell, upper: Cell, depth: nat, n: nat)
    : (r: Result<seq<seq<int>>>)
    requires n <= |names| && WellFormed(memo, depth)
    requires CornerInGrid(lower, depth) && CornerInGrid(upper, depth)
    ensures r.Ok? ==> |r.value| == n
  {
    if n == 0 then Ok([])
    else
      var prev :- OctTargets(memo, names, lower, upper, depth, n - 1);
      var target :- TypeCells(memo, names[n - 1], lower, upper, depth);
      Ok(prev + [target])
  }

  /** The targets `box` gathers once the memo is there: the cell range of
      the mode, then one target per requested type. */
  function OctBoxTargets(memo: IndexMap, names: seq<Result<string>>, mode: string, bmin: Point, bmax: Point,
                         boxSize: real, depth: nat): Result<seq<seq<int>>>
    requires boxSize > 0.0 && WellFormed(memo, depth)
    requires InDomain(bmin, boxSize) && InDomain(bmax, boxSize)
  {
    var bounds := CellBounds(mode, NormalizePoint(bmin, boxSize, depth), NormalizePoint(bmax, boxSize, depth));
    if bounds.Err? then Unranged(names, bounds.error)
    else
      BoundsInGrid(mode, bmin, bmax, boxSize, depth);
      OctTargets(memo, names, bounds.value.0, bounds.value.1, depth, |names|)
  }

  /** A method other than "outer", "exact" and "inner" assigns no cell
      range: with no requested types nothing is read, and otherwise the
      first type's group name is resolved, so an unknown type raises its
      own error, before the unassigned `lower` is read. */
  lemma UnknownMethod(memo: IndexMap, names: seq<Result<string>>, mode: string, bmin: Point, bmax: Point,
                      boxSize: real, depth: nat)
    requires boxSize > 0.0 && WellFormed(memo, depth) && InDomain(bmin, boxSize) && InDomain(bmax, boxSize)
    requires mode !in ["outer", "exact", "inner"]
    ensures |names| == 0 ==> OctBoxTargets(memo, names, mode, bmin, bmax, boxSize, depth) == Ok([])
    ensures |names| > 0 && names[0].Err? ==> OctBoxTargets(memo, names, mode, bmin, bmax, boxSize, depth) == Err(names[0].error)
    ensures |names| > 0 && names[0].Ok? ==> OctBoxTargets(memo, names, mode, bmin, bmax, boxSize, depth) == Err(UnboundLocal("lower"))
  {
  }

  lemma {:induction false} OctTargetsErrorSticks(memo: IndexMap, names: seq<Result<string>>, lower: Cell, upper: Cell,
                                                 depth: nat, k: nat, n: nat)
    requires k <= n <= |names| && WellFormed(memo, depth)
    requires CornerInGrid(lower, depth) && CornerInGrid(upper, depth)
    requires OctTargets(memo, names, lower, upper, depth, k).Err?
    ensures OctTargets(memo, names, lower, upper, depth, n) == OctTargets(memo, names, lower, upper, depth, k)
  {
    if k < n {
      OctTargetsErrorSticks(memo, names, lower, upper, depth, k, n - 1);
    }
  }

  /** The target of type `t` is its cells' slices when the range is not
      empty, and nothing otherwise. */
  lemma {:induction false} OctTargetAt(memo: IndexMap, names: seq<Result<string>>, lower: Cell, upper: Cell,
                                       depth: nat, t: nat, n: nat)
    requires t < n <= |names| && WellFormed(memo, depth)
    requires CornerInGrid(lower, depth) && CornerInGrid(upper, depth)
    requires OctTargets(memo, names, lower, upper, depth, n).Ok?
    ensures names[t].Ok? && TypeCells(memo, names[t], lower, upper, depth).Ok?
    ensures OctTargets(memo, names, lower, upper, depth, n).value[t] == TypeCells(memo, names[t], lower, upper, depth).value
  {
    if t < n - 1 {
      OctTargetAt(memo, names, lower, upper, depth, t, n - 1);
    }
  }

  /** Read from the entry built over a type's positions, all inside the
      domain, a target holds exactly the ranks of the particles whose cells
      lie in the range. */
  lemma OctTargetSelects(memo: IndexMap, names: seq<Result<string>>, lower: Cell, upper: Cell, depth: nat,
                         pos: seq<Point>, boxSize: real, t: nat, x: int)
    requires t < |names| && WellFormed(memo, depth)
    requires CornerInGrid(lower, depth) && CornerInGrid(upper, depth)
    requires OctTargets(memo, names, lower, upper, depth, |names|).Ok?
    requires boxSize > 0.0 && forall p :: 0 <= p < |pos| ==> Inside(pos[p], boxSize)
    requires names[t].Ok? && names[t].value in memo && memo[names[t].value] == BuiltEntry(pos, boxSize, depth)
    ensures var e := BuiltEntry(pos, boxSize, depth);
      (x in OctTargets(memo, names, lower, upper, depth, |names|).value[t] <==>
       Selected(Cells(pos, boxSize, depth), 0, x, Call(lower, upper, e.mark.value, e.index.value, depth)))
  {
    OctTargetAt(memo, names, lower, upper, depth, t, |names|);
    var e := BuiltEntry(pos, boxSize, depth);
    BuiltEntryIndexes(pos, boxSize, depth);
    CellsInGrid(pos, boxSize, depth);
    var c: SliceCall := Call(lower, upper, e.mark.value, e.index.value, depth);
    var r := Reading(c, Cells(pos, boxSize, depth), 0);
    SlicersSelectBox(r, x);
  }

  /** A requested type whose group holds only its count (a type without
      particles) makes every box with a non-empty range raise: the loop
      looks up its mark. */
  lemma CountOnlyBoxFails(memo: IndexMap, names: seq<Result<string>>, lower: Cell, upper: Cell, depth: nat, t: nat)
    requires t < |names| && WellFormed(memo, depth)
    requires CornerInGrid(lower, depth) && CornerInGrid(upper, depth)
    requires names[t].Ok? && names[t].value in memo && memo[names[t].value].mark.None? && NonEmpty(lower, upper)
    ensures OctTargets(memo, names, lower, upper, depth, |names|).Err?
  {
    if OctTargets(memo, names, lower, upper, depth, |names|).Ok? {
      OctTargetAt(memo, names, lower, upper, depth, t, |names|);
    }
  }

  // ---------------------------------------------------------------------
  // The chunk

  class SingleDataset {
    const fn: string
    const partType: seq<string>
    const depth: nat
    const ptIdx: nat
    const indexPath: Option<string>
    const indexFn: string
    const boxSize: real
    const intTree: IntWidth
    const groups: seq<Result<string>>
    var intData: IntWidth
    var index: Option<IndexMap>

    /** A depth `__init__` accepts, a positive box size, a group per type,
        and a memo every entry of which holds a mark of its ranks. */
    predicate Valid()
      reads this
    {
      && depth <= 20 && boxSize > 0.0 && |groups| == |partType|
      && (index.Some? ==> WellFormed(index.value, depth))
    }

    /** The tree width, `_pt_idx`, the index file's name and the groups of
        the types `__init__` chose. */
    predicate Named()
    {
      && groups == GroupNames(partType)
      && TreeWidth(depth, "octree") == Ok(intTree)
      && PtIdxSum(Numbers(partType), |partType|) == Ok(ptIdx)
      && indexFn == IndexFileFor(fn, indexPath, OctSuffix(depth, ptIdx))
    }

    constructor (fn: string, partType: seq<string>, depth: nat, ptIdx: nat, indexPath: Option<string>,
                 boxSize: real, intTree: IntWidth)
      ensures this.fn == fn && this.partType == partType && this.depth == depth && this.ptIdx == ptIdx
      ensures this.indexPath == indexPath && this.boxSize == boxSize && this.intTree == intTree
      ensures indexFn == IndexFileFor(fn, indexPath, OctSuffix(depth, ptIdx))
      ensures groups == GroupNames(partType)
      ensures index.None? && intData == Int64
    {
      this.fn := fn;
      this.partType := partType;
      this.depth := depth;
      this.ptIdx := ptIdx;
      this.indexPath := indexPath;
      this.indexFn := IndexFileFor(fn, indexPath, OctSuffix(depth, ptIdx));
      this.boxSize := boxSize;
      this.intTree := intTree;
      this.groups := GroupNames(partType);
      this.intData := Int64;
      this.index := None;
    }

    /** `singleDataset(fn, partType, depth, index_path)` (core.py:68-109)
        with the header's box size: a single type becomes a list, `_pt_idx`
        is summed (an unknown name raises first), the index file is named,
        the memo is empty, a depth above 20 raises, and `_int_data` starts
        as 64-bit. */
    static method Open(fn: string, partType: Combine.Names, depth: nat, indexPath: Option<string>, boxSize: real)
      returns (r: Result<SingleDataset>)
      requires boxSize > 0.0
      ensures var types := Combine.AsList(partType); var pt := PtIdxSum(Numbers(types), |types|);
        && (pt.Err? ==> r == Err(pt.error))
        && (pt.Ok? ==> (r.Err? <==> depth > 20))
        && (pt.Ok? && depth > 20 ==> r == Err(ValueError("The depth of " + "octree" + " must be no more than 20!")))
      ensures r.Ok? ==> fresh(r.value) && r.value.Valid() && r.value.Named() && r.value.index.None?
      ensures r.Ok? ==> r.value.fn == fn && r.value.partType == Combine.AsList(partType)
                        && r.value.depth == depth && r.value.indexPath == indexPath && r.value.boxSize == boxSize
      ensures r.Ok? ==> (r.value.intTree == Int32 <==> depth <= 10) && r.value.intData == Int64
    {
      var types := Combine.AsList(partType);
      var pt := PtIdx(Numbers(types));
      if pt.Err? {
        return Err(pt.error);
      }
      var tree := TreeWidth(depth, "octree");
      if tree.Err? {
        return Err(tree.error);
      }
      var d := new SingleDataset(fn, types, depth, pt.value, indexPath, boxSize, tree.value);
      return Ok(d);
    }

    /** The `index` property (core.py:132-183). */
    method Index(data: Groups, file: Option<IndexMap>) returns (r: Result<IndexMap>, written: Option<IndexMap>)
      requires Valid()
      modifies this
      ensures Valid()
      ensures var s := IndexOf(old(index), groups, data, boxSize, depth, file, old(intData));
        index == Some(s.memo) && written == s.file && r == s.result && intData == s.width
    {
      if Cached(index) {
        return Ok(index.value), file;
      }
      index := Some(map[]);
      if file.Some? {
        return ReadAsWritten(file.value, groups), file;
      }
      var b := BuildIndex(groups, data, boxSize, depth, intData);
      index, intData := Some(b.memo), b.width;
      r := if b.error.None? then Ok(b.memo) else Err(b.error.value);
      written := Some(b.file);
    }

    /** The loop that builds a new index file (core.py:153-181), from
        `_int_data` as it was. */
    static method BuildIndex(names: seq<Result<string>>, data: Groups, boxSize: real, depth: nat, width: IntWidth)
      returns (b: Building)
      requires boxSize > 0.0 && depth <= 20
      ensures b == Builds(names, GroupEntries(data, boxSize, depth), width, |names|)
      ensures WellFormed(b.memo, depth)
    {
      ghost var built := GroupEntries(data, boxSize, depth);
      BuiltStored(data, boxSize, depth);
      b := Building(map[], map[], None, width);
      var i: nat := 0;
      while i < |names| && b.error.None?
        invariant i <= |names|
        invariant b == Builds(names, built, width, i)
        invariant WellFormed(b.memo, depth)
      {
        BuildStepWellFormed(b, names[i], built, depth);
        b := IndexGroup(b, names[i], data, boxSize, depth, built);
        i := i + 1;
      }
      if b.error.Some? {
        BuildErrorSticks(names, built, width, i, |names|);
      }
    }

    /** One pass of the loop that builds the index. */
    static method IndexGroup(b: Building, g: Result<string>, data: Groups, boxSize: real, depth: nat,
                             ghost built: IndexMap)
      returns (next: Building)
      requires boxSize > 0.0 && depth <= 20 && b.error.None? && built == GroupEntries(data, boxSize, depth)
      ensures next == BuildStep(b, g, built)
    {
      match g
      case Err(e) =>
        return b.(error := Some(e));
      case Ok(name) =>
        var memo := b.memo[name := Started];
        if name in b.file {
          return b.(memo := memo, error := Some(ValueError(NameExists)));
        }
        if name !in data {
          return Building(memo, b.file[name := Started], Some(KeyError(name)), b.width);
        }
        var length := |data[name]|;
        var counted := Entry(Some(length), None, None);
        GroupEntryOf(data, boxSize, depth, name);
        if length == 0 {
          return Building(memo[name := counted], b.file[name := counted], None, b.width);
        }
        var width := DataWidth(length);
        var e := BuildType(data[name], boxSize, depth);
        assert built[name] == e && e.count == Some(length);
        return Building(memo[name := e], b.file[name := e], None, width);
    }

    /** `box` (core.py:185-231) as written: the memo is made and the
        targets gathered, but the last line calls `loadFile` with `fn`, a
        name defined nowhere in scope, so `box` never returns data. */
    method Box(bmin: Point, bmax: Point, types: Combine.Names, mode: string, data: Groups, file: Option<IndexMap>)
      returns (r: Result<seq<seq<int>>>, written: Option<IndexMap>)
      requires Valid() && InDomain(bmin, boxSize) && InDomain(bmax, boxSize)
      modifies this
      ensures Valid()
      ensures var s := IndexOf(old(index), groups, data, boxSize, depth, file, old(intData));
        && index == Some(s.memo) && written == s.file && intData == s.width
        && r == if s.result.Err? then Err(s.result.error)
                else match OctBoxTargets(s.memo, GroupNames(Combine.AsList(types)), mode, bmin, bmax, boxSize, depth)
                  case Err(e) => Err(e)
                  case Ok(_) => Err(NameError("fn"))
    {
      var indexed;
      indexed, written := Index(data, file);
      if indexed.Err? {
        return Err(indexed.error), written;
      }
      var targets := BoxTargets(index.value, GroupNames(Combine.AsList(types)), mode, bmin, bmax, boxSize, depth);
      if targets.Err? {
        return Err(targets.error), written;
      }
      r := Err(NameError("fn"));
    }

    /** `box` as intended: the targets are handed to `loadFile` with the
        chunk's own file name; this returns the targets. */
    method SelectBox(bmin: Point, bmax: Point, types: Combine.Names, mode: string, data: Groups,
                     file: Option<IndexMap>)
      returns (r: Result<seq<seq<int>>>, written: Option<IndexMap>)
      requires Valid() && InDomain(bmin, boxSize) && InDomain(bmax, boxSize)
      modifies this
      ensures Valid()
      ensures var s := IndexOf(old(index), groups, data, boxSize, depth, file, old(intData));
        && index == Some(s.memo) && written == s.file && intData == s.width
        && r == if s.result.Err? then Err(s.result.error)
                else OctBoxTargets(s.memo, GroupNames(Combine.AsList(types)), mode, bmin, bmax, boxSize, depth)
    {
      var indexed;
      indexed, written := Index(data, file);
      if indexed.Err? {
        return Err(indexed.error), written;
      }
      r := BoxTargets(index.value, GroupNames(Combine.AsList(types)), mode, bmin, bmax, boxSize, depth);
    }

    /** The corners scaled, the cell range of the mode taken, and the loop
        of `box` over the requested types. */
    static method BoxTargets(memo: IndexMap, names: seq<Result<string>>, mode: string, bmin: Point, bmax: Point,
                             boxSize: real, depth: nat)
      returns (r: Result<seq<seq<int>>>)
      requires boxSize > 0.0 && WellFormed(memo, depth) && InDomain(bmin, boxSize) && InDomain(bmax, boxSize)
      ensures r == OctBoxTargets(memo, names, mode, bmin, bmax, boxSize, depth)
    {
      var qmin, qmax := NormalizePoint(bmin, boxSize, depth), NormalizePoint(bmax, boxSize, depth);
      var bounds := CellBounds(mode, qmin, qmax);
      if bounds.Err? {
        // the loop over the types reads the unassigned `lower` in its first pass
        if |names| == 0 {
          return Ok([]);
        }
        match names[0]
        case Err(e) =>
          return Err(e);
        case Ok(_) =>
          return Err(bounds.error);
      }
      BoundsInGrid(mode, bmin, bmax, boxSize, depth);
      var lower, upper := bounds.value.0, bounds.value.1;
      r := Ok([]);
      var t: nat := 0;
      while t < |names| && r.Ok?
        invariant t <= |names|
        invariant r == OctTargets(memo, names, lower, upper, depth, t)
      {
        var next := SliceType(memo, names[t], lower, upper, depth);
        r := if next.Err? then Err(next.error) else Ok(r.value + [next.value]);
        t := t + 1;
      }
      if r.Err? {
        OctTargetsErrorSticks(memo, names, lower, upper, depth, t, |names|);
      }
    }

    /** The triple loop of `box` for one requested type. */
    static method SliceType(memo: IndexMap, g: Result<string>, lower: Cell, upper: Cell, depth: nat)
      returns (r: Result<seq<int>>)
      requires WellFormed(memo, depth) && CornerInGrid(lower, depth) && CornerInGrid(upper, depth)
      ensures r == TypeCells(memo, g, lower, upper, depth)
    {
      match g
      case Err(e) =>
        return Err(e);
      case Ok(name) =>
        if !NonEmpty(lower, upper) {
          return Ok([]);
        }
        var arrays := Lookup(memo, name);
        if arrays.Err? {
          return Err(arrays.error);
        }
        var target := OctTripleLoop(Call(lower, upper, arrays.value.0, arrays.value.1, depth));
        return Ok(target);
    }
  }
}
