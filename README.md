# A model of the mesh_illustris / oct_illustris spatial index

mesh_illustris and its older sibling oct_illustris read sub-boxes of
Illustris/TNG cosmological snapshots without loading whole chunk files.
For each chunk and particle type they build a linear spatial index once:

- every particle is digitized into a cell of a `2^d x 2^d x 2^d` grid over
  the simulation box;
- the cell gets the composite key `(ix << 2d) + (iy << d) + iz`;
- the particles are ranked by key (`rank`);
- a `mark` array of `8^d + 1` entries records where each cell's run of
  ranks starts and ends.

A box query turns its corners into a cell range, in mode "outer", "exact"
or "inner". It then reads the runs of ranks of those cells through one of
three slicers:

- the numba `_slicing`;
- the C++ `slicing`;
- the per-cell triple loop of oct_illustris.

The chunk results are concatenated type by type and field by field. The
index is kept in memory (`_index`) and in an HDF5 index file whose name
encodes the depth (and, in oct_illustris, a bitmask of particle types).

The project models this core in Dafny:

| module | what it holds |
|---|---|
| `Wrappers` | `Option`, `Result` and the exceptions the code raises |
| `Text` | `%d`/`%0Nd` formatting, `isdigit`, ASCII `lower`, `rfind`, Python slicing of strings |
| `Bits` | powers of two, `<<`, `\|` on naturals |
| `GridCodec` | cells, the composite key and its inverse |
| `Widths` | the `int32`/`int64` choices and wrap-around |
| `MeshIndex` | `mesh.build`: keys, an argsort, `searchsorted(side="right")`, ranks |
| `Slicing` | the three slicers as loops, proved against one definition of "the runs of a box" |
| `Selection` | scaling corners, floor and ceil per mode, the `box_lazy` mask and `np.where` |
| `IlUtil` | `partTypeNum`, `"PartType%d"`, `snapPath`, `getNumPart` |
| `IndexNames` | the index file's name |
| `Combine` | `_concatenate_enable_empty`, the dispatch on `func`, and both `_combine` merges |
| `ChunkIndex` | the memo/index-file entry shared by both packages |
| `MeshChunk` | the class `SingleDataset` of mesh_illustris |
| `OctChunk` | the class `singleDataset` of oct_illustris |

The two chunk classes are Dafny classes. Their constant attributes are
`const` fields, and the memo `_index` (and `_int_data` in oct_illustris) are
mutable fields. `index`, `box` and `box_lazy` are methods proved equal to
specification functions; lemmas then state the properties of those
functions. The loops of the source are Dafny `while` loops with
invariants. Positions are exact reals. HDF5 reads are parameters:

- the positions of each requested type (`data`);
- the index file as found (`file`);
- the header's `BoxSize`.

A method that writes the index file returns its new contents.

## Model

| member | source | states |
|---|---|---|
| Bits.ShiftLeftIsMul | mesh_illustris/mesh.py:50-51 | `x << n` on naturals is `x * 2^n` |
| Bits.OrWithShiftedIsSum | oct_illustris/il_util.py:90-91 | for a low word below `2^n`, `low \| (high << n)` equals `low + high * 2^n` |
| Bits.DisjointOrIsSum | oct_illustris/core.py:83-84 | adding `2^s` to a number whose bit `s` is clear is the same as or-ing it in |
| GridCodec.ShifterKeyIsKey | mesh_illustris/core.py:434-440 | the numba dot product with `[4^d, 2^d, 1]` gives the same key as the shifts of mesh.build |
| GridCodec.KeyBounds | mesh_illustris/mesh.py:50-51 | a key with x, y in the grid and `0 <= z <= 2^d` lies in `[0, 8^d]`, and below `8^d` when `z < 2^d` |
| GridCodec.DecodeKey | mesh_illustris/mesh.py:50-51 | decoding the key of an in-grid cell gives back the cell |
| GridCodec.KeyOfDecode | mesh_illustris/mesh.py:50-51 | every key below `8^d` decodes to an in-grid cell whose key is that key |
| GridCodec.KeyInjective | mesh_illustris/mesh.py:50-51 | two in-grid cells with the same key are the same cell |
| Widths.TreeWidth | mesh_illustris/mesh.py:26-34 | a depth of at most 20 is accepted, one above raises ValueError; the tree width is int32 exactly up to depth 10 |
| Widths.DataWidth | mesh_illustris/mesh.py:20-24 | the data width is int32 exactly when the count fits int32, and it always holds a count up to the int64 maximum |
| Widths.TreeWidthHoldsKeys | mesh_illustris/core.py:205-213 | the chosen tree width holds every key `8^d`; int64 is chosen only where int32 cannot hold it; depths above 20 are exactly those int64 cannot hold |
| Widths.Wrap | oct_illustris/il_util.py:88-91 | storing into a fixed-width integer gives the value of that width congruent to the input modulo `2^bits` |
| Widths.WrapFitting | oct_illustris/il_util.py:88-91 | a value that fits the width is stored unchanged |
| Text.FormatInt | oct_illustris/core.py:87 | `%0Nd` gives at least N characters, all digits for a non-negative number |
| Text.ParseFormatInt | oct_illustris/core.py:87 | reading back a `%0Nd` rendering gives the number (zero padding loses nothing) |
| Text.DecimalInjective | oct_illustris/il_util.py:29 | two numbers with the same `%d` rendering are equal |
| Text.ToLower | oct_illustris/il_util.py:63-74 | `lower()` keeps the length and maps every character by ASCII case |
| Text.ToLowerIdempotent | oct_illustris/il_util.py:63-74 | lowering twice is lowering once, and digits are unchanged |
| Text.RFind | mesh_illustris/core.py:195 | `rfind` returns -1 or the position of the last occurrence of the character |
| Text.PyFrom | mesh_illustris/core.py:195 | `s[i:]` for `i` in `[-\|s\|, \|s\|]`, negative `i` counting from the end |
| MeshIndex.NewMesh | mesh_illustris/mesh.py:11-34 | the constructor succeeds exactly for depth at most 20; it picks int32 data exactly for a count up to 2147483647 and int32 keys exactly up to depth 10; the key width holds `8^d` |
| MeshIndex.Keys | mesh_illustris/mesh.py:49-51 | one key per particle: the composite key of its cell |
| MeshIndex.ArgSort | mesh_illustris/mesh.py:54 | the result is a permutation of the positions that orders the keys |
| MeshIndex.SortedView | mesh_illustris/mesh.py:58 | the `sorter` view: position p holds the key of the p-th particle in argsort order |
| MeshIndex.SearchSortedRight | mesh_illustris/mesh.py:58 | `searchsorted(side="right")` returns a position in `[0, \|s\|]` |
| MeshIndex.MarkOf | mesh_illustris/mesh.py:55-58 | the mark array has `8^d + 1` entries |
| MeshIndex.RankOf | mesh_illustris/mesh.py:60-62 | one rank per particle |
| MeshIndex.MarkOfShape | mesh_illustris/mesh.py:57-58 | on sorted keys the mark starts at 0, never decreases and stays within the particle count |
| MeshIndex.RankOfPermutes | mesh_illustris/mesh.py:60-62 | `arange(offset, offset+length)[idx]` is a permutation of `offset .. offset+length-1` |
| MeshIndex.SortedIndexIsPartition | mesh_illustris/mesh.py:45-64 | for any sorting permutation: the mark is monotone from 0; the ranks permute the particles; the run of cell k holds exactly the ranks of particles with key k; no particle is lost |
| MeshIndex.CompletePartition | mesh_illustris/mesh.py:45-64 | for in-grid keys the last mark is the particle count, and every rank in the run of cell k has key k |
| MeshIndex.Build | mesh_illustris/mesh.py:45-64 | the method's rank and mark arrays equal the specification's, and they form an index of the particles' keys |
| Slicing.PySlice | mesh_illustris/core.py:444 | `s[a:b]` has length `b-a` (0 if `b <= a`) and holds the elements from a on |
| Slicing.KeyAt | mesh_illustris/core.py:437-440 | the key of cell `(i, j, z)`; in `[0, 8^d]`, and below `8^d` for z below the side |
| Slicing.ShifterDot | mesh_illustris/core.py:434-440 | the loop's `np.sum(idx_3d * shifter)` is the composite key of the cell |
| Slicing.NumbaSlicing | mesh_illustris/core.py:428-446 | the loop's target is the runs of the rows `i`, columns `j`, z from `lower[2]` to `upper[2]`, in loop order |
| Slicing.CppSlicing | mesh_illustris/quick_slicing.cpp:10-39 | the loop's target is the same runs, each inserted at the front |
| Slicing.OctTripleLoop | oct_illustris/core.py:216-227 | the loop's target is the cell slices `mark[k]:mark[k+1]` over the box, in loop order |
| Slicing.CellSlicesAreRuns | oct_illustris/core.py:216-227 | the per-cell loop returns the same sequence as the numba slicer |
| Slicing.ReversedRunsPermute | mesh_illustris/quick_slicing.cpp:34 | the C++ result is a permutation of the numba result |
| Slicing.EmptyCall | mesh_illustris/core.py:435-436 | a range empty on any axis gives nothing from every slicer |
| Slicing.RunsSelectBox | mesh_illustris/core.py:428-446 | read from a built index, a rank is in the numba result iff its particle's cell lies in the box |
| Slicing.SlicersSelectBox | mesh_illustris/quick_slicing.cpp:10-39 | each of the three slicers returns exactly the ranks of the particles whose cells lie in the box |
| Selection.Floor | mesh_illustris/core.py:314 | `np.floor`: the greatest integer at most v |
| Selection.Ceil | mesh_illustris/core.py:315 | `np.ceil`: the least integer at least v |
| Selection.CellBounds | mesh_illustris/core.py:313-319 | "outer"/"exact" give the floor of the lower and the ceiling of the upper corner on all three axes; "inner" gives ceiling and floor; any other mode assigns no range, and reading `lower` raises UnboundLocalError |
| Selection.InnerWithinOuter | mesh_illustris/core.py:313-319 | on every axis the inner range lies within the outer range |
| Selection.OuterCovers | mesh_illustris/core.py:313-315 | every point of the half-open box lies in a cell of the outer range |
| Selection.InnerInside | mesh_illustris/core.py:317-319 | every point of a cell in the inner range lies in the half-open box |
| Selection.InsideMask | mesh_illustris/core.py:377-383 | one flag per particle, true iff it is strictly inside the box on all three axes |
| Selection.Where | mesh_illustris/core.py:380 | `np.where` returns the flagged positions in increasing order, and only those |
| Selection.BoxLazySelects | mesh_illustris/core.py:374-384 | `box_lazy` selects exactly the particles strictly inside the box, in increasing order |
| Selection.OuterHoldsLazy | mesh_illustris/core.py:313-315 | every particle `box_lazy` returns is returned by all three slicers on the outer range |
| Selection.InnerWithinBox | mesh_illustris/core.py:317-319 | every particle the numba slicer reads on the inner range lies in the half-open box |
| IlUtil.PartTypeNum | oct_illustris/il_util.py:58-76 | a digit string gives its value; otherwise a known name in any ASCII case gives 0, 1, 3, 4 or 5; any other name raises "Unknown particle type name." |
| IlUtil.PartTypeNumber | oct_illustris/il_util.py:60-61 | a non-negative integer, or its decimal string, maps to itself |
| IlUtil.PartTypeNegative | oct_illustris/il_util.py:60-76 | a negative integer is not a digit string and raises |
| IlUtil.PartTypeNameCase | oct_illustris/il_util.py:63-74 | a name and its lower-case form give the same result |
| IlUtil.PartTypeZero | mesh_illustris/tests/test_il_util.py:27-28 | `0` and `"0"` give 0 |
| IlUtil.PartTypeStars | mesh_illustris/tests/test_il_util.py:30-31 | "stars" and "Stars" give 4 |
| IlUtil.PartTypeUnknown | mesh_illustris/tests/test_il_util.py:29-33 | "ether" raises, and so does "PartType0" (the code does not accept group names) |
| IlUtil.GroupName | oct_illustris/il_util.py:28-29 | `"PartType%d"` of the type number; it raises exactly when `partTypeNum` does and starts with "PartType" |
| IlUtil.GroupNameInjective | oct_illustris/il_util.py:28-29 | two types share a group name iff they have the same number |
| IlUtil.SnapPath | oct_illustris/il_util.py:78-82 | the path starts with the base path and ends in ".hdf5" |
| IlUtil.SnapPathFirst | mesh_illustris/tests/test_il_util.py:43 | "/output", 0, 0 gives "/output/snapdir_000/snap_000.0.hdf5" |
| IlUtil.SnapPathSecond | mesh_illustris/tests/test_il_util.py:44 | "/output", 135, 99 gives "/output/snapdir_135/snap_135.99.hdf5" |
| IlUtil.SnapPathParts | oct_illustris/il_util.py:80-81 | the path is the base path, the snapshot directory and the file name |
| IlUtil.SnapPathInjective | oct_illustris/il_util.py:78-82 | the same base path with different snapshot or chunk numbers gives different paths |
| IlUtil.StoredCount | oct_illustris/il_util.py:90-91 | the value stored in the `"i4"` array fits int32 |
| IlUtil.GetNumPart | oct_illustris/il_util.py:84-93 | six counts, each the int32 store of `low \| (high << 32)`; a missing header item raises KeyError, a short one IndexError |
| IlUtil.StoredCountIsLowWord | oct_illustris/il_util.py:88-91 | the stored count is the 32-bit wrap of the low word; it equals the true count iff the high word is 0 and the low word is below `2^31` |
| IlUtil.HighWordLost | oct_illustris/il_util.py:88-91 | a count of `2^32` (low 0, high 1) is stored as 0 |
| IlUtil.GetNumPart64 | oct_illustris/il_util.py:84-93 | the corrected reader: same errors, each count the full 64-bit `low + high * 2^32` |
| IlUtil.Count64 | oct_illustris/il_util.py:90-91 | the or-and-shift of the two words is the true count |
| IndexNames.IndexFileFor | mesh_illustris/core.py:192-197 | without `index_path` the name is `fn + suffix`; with one it is `index_path + fn[fn.rfind("/"):] + suffix`, whose middle is the last character when fn has no "/" |
| IndexNames.BaseName | mesh_illustris/core.py:195 | the part of fn after its last "/": a suffix of fn with no "/" |
| IndexNames.IndexFileName | mesh_illustris/core.py:192-197 | the corrected name: `index_path + "/" + basename + suffix` with a directory given, otherwise as written |
| IndexNames.IndexFileNameAgrees | mesh_illustris/core.py:192-197 | for a file name that contains "/", the corrected name equals the one as written |
| IndexNames.BareNamesCollide | mesh_illustris/core.py:195 | "a5" and "b5" with index path "/i" get the same index file |
| IndexNames.IndexFileNameSeparates | mesh_illustris/core.py:195 | under one index path, two data files share a corrected index name iff they have the same base name |
| IndexNames.SuffixSeparates | mesh_illustris/core.py:192-197 | one data file with two different suffixes gets two different index files |
| IndexNames.MeshSuffixInjective | mesh_illustris/core.py:193 | `".idx_d%02d.h5"` of two depths is equal iff the depths are |
| IndexNames.OctSuffixInjective | oct_illustris/core.py:87 | `".idx_d%02d_pt%02d.h5"` is equal iff both the depths and the type codes are |
| IndexNames.MeshSuffixDefault | mesh_illustris/core.py:170-193 | the default depth 8 gives ".idx_d08.h5" |
| Combine.Concatenate | mesh_illustris/core.py:422 | `np.concatenate` succeeds for two 1-d arrays or two 2-d arrays with the same columns, else raises ValueError |
| Combine.ConcatenateEnableEmpty | mesh_illustris/core.py:412-422 | an empty 1-d array next to a 2-d one is reshaped away; a non-empty one raises; equal ranks are concatenated as is |
| Combine.EnableEmptyEntries | mesh_illustris/core.py:412-422 | a successful result holds the first array's entries followed by the second's |
| Combine.Pick | mesh_illustris/core.py:114-119 | without a selector the array is taken whole; with one the column is taken (negative from the end), and an out-of-range column raises IndexError |
| Combine.DispatchAsWritten | mesh_illustris/core.py:91-101 | as written, only "box_lazy" and "sphere" pass; "box" and anything else raise ValueError |
| Combine.Dispatch | mesh_illustris/core.py:91-101 | the intended dispatch: "box", "box_lazy" and "sphere" pass, anything else raises ValueError |
| Combine.BoxAsWrittenRaises | mesh_illustris/core.py:91-101 | "box" raises as written and passes in the corrected dispatch |
| Combine.DispatchAgrees | mesh_illustris/core.py:91-101 | the two dispatches agree on every func other than "box" |
| Combine.OctDispatch | oct_illustris/core.py:29-38 | "box" and "sphere" pass; any other func leaves `r` unbound |
| Combine.AsList | mesh_illustris/core.py:71-76 | a single name becomes a one-element list, a list stays as it is |
| Combine.Iterated | oct_illustris/core.py:41-46 | without that wrapping, a single string is iterated character by character |
| Combine.Selector | mesh_illustris/core.py:114 | `mdi[i]` when `mdi` is given (IndexError past its end), else no selector |
| Combine.TypeKey | oct_illustris/core.py:41-43 | mesh_illustris keys results by the type as given; oct_illustris keys them by its `"PartType%d"` group |
| Combine.Keys | oct_illustris/core.py:41-43 | one key per requested type |
| Combine.JoinEntries | oct_illustris/core.py:49-53 | both joins (`_concatenate_enable_empty` and `np.r_`) give the first array's entries followed by the second's |
| Combine.MergeChunksGathers | mesh_illustris/core.py:105-119 | with distinct types and fields, each merged array is chunk 0's array followed by the picked part of every later chunk's, in chunk order |
| Combine.MeshKeysDistinct | mesh_illustris/core.py:110 | distinct type names give distinct result keys |
| Combine.MeshCombinedGathers | mesh_illustris/core.py:50-121 | a successful merge of two or more chunks means func was "box_lazy" or "sphere", and every array is gathered chunk by chunk |
| Combine.OctCombinedGathers | oct_illustris/core.py:28-55 | the same for oct_illustris, keyed by group name, func "box" or "sphere" |
| Combine.MergeType | mesh_illustris/core.py:112-119 | the loop over fields equals the merge of the fields specification |
| Combine.MergeChunk | mesh_illustris/core.py:110-119 | the loop over types equals the merge of one later chunk |
| Combine.MergeAll | mesh_illustris/core.py:105-119 | the loop over chunks equals the merge of all chunks |
| Combine.MeshCombine | mesh_illustris/core.py:50-121 | the method equals the specification of mesh `_combine` |
| Combine.OctCombine | oct_illustris/core.py:28-55 | the method equals the specification of oct `_combine` |
| ChunkIndex.Outcome | mesh_illustris/core.py:231-274 | `index` returns the memo exactly when nothing raised |
| ChunkIndex.Cells | mesh_illustris/mesh.py:46-47 | one cell per particle: its digitized position |
| ChunkIndex.CellsInGrid | mesh_illustris/mesh.py:46-47 | particles in `[0, BoxSize)^3` fall in cells of the grid |
| ChunkIndex.BuiltEntryIndexes | mesh_illustris/core.py:265-268 | the entry `build` gives is complete, counts the particles and is an index of their keys |
| ChunkIndex.BuiltKeepsWellFormed | mesh_illustris/core.py:267-268 | storing a built entry keeps every stored mark well-shaped |
| ChunkIndex.BuildType | mesh_illustris/core.py:265-268 | the method's entry is the specification's built entry |
| ChunkIndex.Lookup | mesh_illustris/core.py:329-330 | reading `mark` then `index` succeeds iff the group holds both; a missing group raises KeyError with its name, then a missing mark |
| ChunkIndex.BoundsInGrid | mesh_illustris/core.py:309-319 | for a box inside the domain, both corners of the cell range of every mode lie in the grid |
| MeshChunk.Load | mesh_illustris/core.py:248-252 | reading a group of the index file succeeds iff it holds count, index and mark; on failure the mark is absent and KeyError is raised; the count read is kept |
| MeshChunk.StepWellFormed | mesh_illustris/core.py:242-272 | one pass keeps the memo and the file well formed |
| MeshChunk.RunErrorSticks | mesh_illustris/core.py:242-272 | once a pass raises, later passes change nothing |
| MeshChunk.FileGrows | mesh_illustris/core.py:257-272 | later passes keep every group the file already has |
| MeshChunk.RoundTrip | mesh_illustris/core.py:241-274 | indexing a fresh chunk against the file a successful `index` wrote reads back the same memo and leaves the file unchanged |
| MeshChunk.FreshTypeIsBuilt | mesh_illustris/core.py:255-268 | with distinct groups, a type not in the file ends with the entry `build` gives its positions |
| MeshChunk.Targets | mesh_illustris/core.py:324-333 | one target per requested type when nothing raised |
| MeshChunk.TargetSelects | mesh_illustris/core.py:324-333 | read from a built entry, a type's target holds exactly the ranks of its particles whose cells are in the range |
| MeshChunk.LazyTargets | mesh_illustris/core.py:374-384 | one target per type; it fails iff some requested type is not among the types whose positions were read |
| MeshChunk.LazyWithinOuter | mesh_illustris/core.py:276-388 | every rank `box_lazy` returns for a type is among those the outer `box` returns from the built entry |
| MeshChunk.SingleDataset.constructor | mesh_illustris/core.py:170-213 | fields as given, index file named from the depth, memo empty |
| MeshChunk.SingleDataset.Open | mesh_illustris/core.py:170-213 | a depth above 20 raises ValueError; otherwise a fresh, valid chunk with a single type listed, the tree width int32 exactly up to depth 10 |
| MeshChunk.SingleDataset.Index | mesh_illustris/core.py:231-274 | a non-empty memo is returned as is; otherwise the memo, the file written and the result are those of every pass; well-formedness is kept |
| MeshChunk.SingleDataset.IndexType | mesh_illustris/core.py:242-272 | one pass of the loop equals the specification's pass and keeps well-formedness |
| MeshChunk.SingleDataset.Box | mesh_illustris/core.py:276-336 | the index error if `index` raised, else the targets of the mode's cell range for the requested types; for an unknown method, no ranks for no types, else the first type's name error or UnboundLocalError |
| MeshChunk.UnknownMethod | mesh_illustris/core.py:313-330 | with an unknown method, no requested types give no ranks; otherwise the first type's unknown name raises before the unassigned `lower` does |
| MeshChunk.SingleDataset.SliceTypes | mesh_illustris/core.py:324-333 | the loop over types equals the targets specification |
| MeshChunk.SingleDataset.SliceType | mesh_illustris/core.py:325-330 | one type's target: its group's runs, or the KeyError |
| MeshChunk.SingleDataset.BoxLazy | mesh_illustris/core.py:339-388 | the loop equals the `box_lazy` targets specification |
| OctChunk.Numbers | oct_illustris/core.py:83-84 | the type numbers of the requested types, in order |
| OctChunk.PtIdxSum | oct_illustris/core.py:81-84 | as written: the sum succeeds iff every type is known |
| OctChunk.NumberSet | oct_illustris/core.py:83-84 | the set of type numbers requested |
| OctChunk.PtMask | oct_illustris/core.py:81-84 | corrected: the bitmask succeeds iff every type is known |
| OctChunk.PtMaskBits | oct_illustris/core.py:81-84 | bit k of the mask is set iff type number k is requested |
| OctChunk.PtMaskSeparates | oct_illustris/core.py:81-87 | two requests get the same mask iff they request the same set of types |
| OctChunk.PtIdxAgrees | oct_illustris/core.py:81-84 | for distinct type numbers the sum as written equals the mask |
| OctChunk.PtIdxCollision | oct_illustris/core.py:81-87 | ["star", "wind"] and ["bh"] both sum to 32 although they request {4} and {5}; their masks are 16 and 32 |
| OctChunk.PtIdx | oct_illustris/core.py:81-84 | the loop equals the sum as written |
| OctChunk.ReadAsWritten | oct_illustris/core.py:137-151 | reading an existing index file succeeds only for no requested types; otherwise the first known type raises KeyError (its group, or "count") |
| OctChunk.GroupEntries | oct_illustris/core.py:157-181 | one entry per group of the positions read |
| OctChunk.BuiltStored | oct_illustris/core.py:163-181 | each group's entry is count-only for zero particles or complete with a positive count; the count is the number of positions; the marks are well formed |
| OctChunk.BuildStepStores | oct_illustris/core.py:157-181 | a pass that raised nothing stored its group's entry in both the memo and the file, for a group that was new |
| OctChunk.BuildsAgree | oct_illustris/core.py:153-183 | a successful build leaves the memo equal to the file, holds every requested group, and the groups were distinct |
| OctChunk.BuiltDistinct | oct_illustris/core.py:161 | a successful build had distinct groups (`create_group` of an existing name raises) |
| OctChunk.BuiltTypeEntry | oct_illustris/core.py:157-181 | after a successful build each requested group holds its entry |
| OctChunk.BuiltFromData | oct_illustris/core.py:163-177 | that entry is the count alone for a type without particles, else the entry `build` gives its positions |
| OctChunk.LoadGroup | oct_illustris/core.py:143-149 | corrected read of one group: succeeds iff it has a count and, if that is non-zero, both arrays; what it returns is stored as written; a missing group raises KeyError |
| OctChunk.LoadIndex | oct_illustris/core.py:137-151 | a successful corrected read holds a group for every requested type |
| OctChunk.LoadRoundTrip | oct_illustris/core.py:137-183 | reading back the file a successful build wrote gives the memo it built |
| OctChunk.WrittenFileUnreadable | oct_illustris/core.py:137-183 | the file a successful build wrote raises KeyError when read as written, while the corrected read returns the memo |
| OctChunk.TypeCells | oct_illustris/core.py:212-229 | an empty range gives an empty target; otherwise it succeeds iff the group holds mark and index |
| OctChunk.OctTargets | oct_illustris/core.py:212-229 | one target per requested type when nothing raised |
| OctChunk.OctTargetSelects | oct_illustris/core.py:212-229 | read from a built entry, a type's target holds exactly the ranks of its particles whose cells are in the range |
| OctChunk.CountOnlyBoxFails | oct_illustris/core.py:167-168 | a requested type without particles makes any non-empty box raise KeyError |
| OctChunk.SingleDataset.constructor | oct_illustris/core.py:68-111 | fields as given, index file named from depth and type code, memo empty, data width int64 |
| OctChunk.SingleDataset.Open | oct_illustris/core.py:68-111 | an unknown type raises first; then a depth above 20 raises ValueError; otherwise a fresh valid chunk with tree width int32 exactly up to depth 10 and data width int64 |
| OctChunk.SingleDataset.Index | oct_illustris/core.py:129-183 | a non-empty memo is returned as is; an existing file is read as written; otherwise the build; memo, file, result and data width are those of the specification |
| OctChunk.SingleDataset.BuildIndex | oct_illustris/core.py:153-181 | the loop equals the build specification and keeps the marks well formed |
| OctChunk.SingleDataset.IndexGroup | oct_illustris/core.py:157-181 | one pass of the loop equals the specification's pass |
| OctChunk.SingleDataset.Box | oct_illustris/core.py:185-231 | as written: the index error, else the targets' error (for an unknown method: the first type's name error, else UnboundLocalError), else NameError for `fn`, also when no types are requested |
| OctChunk.SingleDataset.SelectBox | oct_illustris/core.py:185-231 | corrected: the index error, else the targets of the mode's cell range; for an unknown method, no ranks for no types, else the first type's name error or UnboundLocalError |
| OctChunk.SingleDataset.BoxTargets | oct_illustris/core.py:198-229 | the loop over types equals the targets specification for the mode's cell range; an unknown method fails in the first pass, after the type's group name |
| OctChunk.UnknownMethod | oct_illustris/core.py:202-219 | with an unknown method, no requested types give no targets; otherwise the first type's unknown name raises before `range(lower[0], ...)` reads the unassigned `lower` |
| OctChunk.SingleDataset.SliceType | oct_illustris/core.py:212-229 | the triple loop for one type equals its target specification |

## Left out

- HDF5 I/O is not modelled. This covers `loadFile` and the header attributes (`BoxSize`, `Redshift`, `NumFilesPerSnapshot`). The index file and the positions read are parameters; a method that writes the index file returns its contents. `loadFile` itself, the field and `mdi` reading, and float32 casting are not modelled.
- mesh_illustris/il_util.py is not part of this model. mesh_illustris/core.py imports it, and the oct_illustris helpers stand in for it.
- OctChunk.GroupEntries and MeshChunk.Step: positions are keyed by type name (mesh) or group name (oct), and a type's count is the number of its positions. As written, both index builds read a "count" item of what `loadFile` returned: `data[p]["count"]` at mesh_illustris/core.py:259 and `data[gName]["count"]` at oct_illustris/core.py:163. The `loadFile` of oct_illustris/il_util.py:25-56 stores only the requested fields, so the oct build raises KeyError("count") right after `create_group` for the first type. The mesh `loadFile` is not part of this model. The model builds with the evidently intended count and does not capture that KeyError.
- mesh_illustris/core.py:16 imports `Mesh`, but mesh.py defines `mesh`. The model uses `mesh.build` as defined.
- oct_illustris/octree.py does not run: it uses the undefined `np` and `_level`, and sums the keys over all axes. oct_illustris indexing is modelled with `mesh.build`, which is evidently what was intended.
- Floating-point rounding is not modelled: digitization and corner scaling use exact reals. The same goes for `astype` casts of negative or out-of-range values.
- `BoxSize` is required to be positive.
- Box corners are required to lie in the domain `[0, BoxSize]`. Outside it, the key arithmetic and the clamping of numpy indexing are not modelled.
- Slicing.PySlice: clamping of out-of-range bounds is not modelled. A built mark always gives bounds in range.
- The parallel path (`multiprocessing.Pool`, `_box_lazy`, `Np`) is not modelled. `_box_lazy` computes the same targets as `SingleDataset.box_lazy`. The `parallel=True` default, which always runs `_box_lazy`, is not modelled either; the merge is modelled for the sequential path.
- `sphere` is a stub (`pass`) in both packages. Its result is not modelled; only the dispatch to it is.
- The `time`/`print` timing lines are not modelled.
- `isdigit` and `lower` are modelled for ASCII only. An integer particle type inside a list is modelled through its decimal string.
- Numpy and h5py error messages are abbreviated. The exception kinds are kept.
- The merge assigns chunk 0's dictionary to `result` and then updates it in place. Aliasing is not modelled: chunk 0's result is treated as a value.
- Combine.MergeChunksGathers: requires distinct type keys and distinct field names. With repeated names, the code appends a chunk's part once per repetition; the lemmas do not state that case.
- The mesh_illustris test expects `ValueError` for an unknown name, and "PartType0" to give 0. The code raises `Exception` and rejects "PartType0". The model follows the code (IlUtil.PartTypeUnknown).
- The oct index file's `dtype=self._int_data` cast of the stored arrays is not modelled. The stored values are the built ones, and the width chosen is modelled (`intData`).
- The order of `create_group` and the filling of a group is abstracted. A pass that raises leaves the group started with what it held at that point.
- `_redshift` is only read from the header and is not modelled.
- `Dataset.box`'s `lazy` flag only chooses `func`; the model starts from `func`.

## Findings

| source | as written | input that shows it | evidently intended | confidence | as-written member | corrected member |
|---|---|---|---|---|---|---|
| mesh_illustris/core.py:91-101 | `if func == "box"` is followed by a separate `if`/`elif`/`else`, so a "box" query falls into the `else` and raises ValueError | func = "box", parallel=False | `elif func == "box_lazy"`: "box" runs `d.box` | high, not executed | Combine.DispatchAsWritten, Combine.BoxAsWrittenRaises | Combine.Dispatch, Combine.DispatchAgrees |
| oct_illustris/il_util.py:88-91 | the counts are stored in a `"i4"` array, so the high word and bit 31 are lost | NumPart_Total = 0, NumPart_Total_HighWord = 1 gives 0 instead of 4294967296 | a 64-bit array holding `low + high * 2^32` | high, not executed | IlUtil.GetNumPart, IlUtil.HighWordLost | IlUtil.GetNumPart64, IlUtil.StoredCountIsLowWord |
| oct_illustris/core.py:83-84 | `_pt_idx += 2**partTypeNum(p)` adds 16 twice for star and wind, so different type sets share an index file | ["star", "wind"] and ["bh"] both give `_pt_idx` 32 | a bitmask of the requested type numbers | high, not executed | OctChunk.PtIdxSum, OctChunk.PtIdxCollision | OctChunk.PtMask, OctChunk.PtMaskSeparates |
| oct_illustris/core.py:140-143 | the loop assigns `self._index[gName]["count"]` before `self._index[gName]` exists, so reading any existing index file raises KeyError | any non-empty type list once the index file exists | create `self._index[gName] = {}` first, then read the group | high, not executed | OctChunk.ReadAsWritten, OctChunk.WrittenFileUnreadable | OctChunk.LoadIndex, OctChunk.LoadRoundTrip |
| oct_illustris/core.py:231 | `loadFile(fn, ...)` names `fn`, which is not defined in `box`, so every successful box raises NameError | any box whose index and targets succeed | `loadFile(self._fn, ...)` | high, not executed | OctChunk.SingleDataset.Box | OctChunk.SingleDataset.SelectBox, OctChunk.OctTargetSelects |
| mesh_illustris/core.py:195 | `fn[fn.rfind("/"):]` is `fn[-1:]`, the last character, when fn has no "/", so different bare file names share an index file | fn "a5" and "b5" with index_path "/i" both give "/i5.idx_d08.h5" | index_path joined with the base name of fn | medium, not executed | IndexNames.IndexFileFor, IndexNames.BareNamesCollide | IndexNames.IndexFileName, IndexNames.IndexFileNameSeparates |
