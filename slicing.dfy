/** Reading a box of cells out of a built index.

    A slicing call names a cell range `lower .. upper` (exclusive upper) per
    axis, the index's `mark` and `index` arrays and the depth. Three
    implementations exist in the repository:
      - the numba `_slicing` of mesh_illustris/core.py appends, for every
        column `(i, j)` in row-major order, the run
        `index[mark[key(i, j, lz)] : mark[key(i, j, uz)]]`;
      - the C++ `slicing` of quick_slicing.cpp computes the same runs but
        inserts each at the front, so its result lists the runs in reverse;
      - oct_illustris `box` appends one slice per cell,
        `index[mark[key] : mark[key + 1]]`, in `(i, j, k)` order.
    Runs and cell slices agree because a z-run of cells is contiguous in key
    order and `mark` never decreases. */
module Slicing {
  import opened Bits
  import opened GridCodec
  import opened MeshIndex
  import opened Sequences

  /** The arguments of one slicing call. */
  datatype Call = Call(lower: Cell, upper: Cell, mark: seq<int>, index: seq<int>, depth: nat)

  /** `mark` has `8^d + 1` entries and every corner coordinate lies in
      `[0, 2^d]` (the repository does not clip the corners), so every key the
      slicers form addresses `mark`. */
  predicate Addressable(c: Call)
  {
    var s := Side(c.depth);
    && |c.mark| == CellCount(c.depth) + 1
    && 0 <= c.lower.x <= s && 0 <= c.lower.y <= s && 0 <= c.lower.z <= s
    && 0 <= c.upper.x <= s && 0 <= c.upper.y <= s && 0 <= c.upper.z <= s
  }

  /** `mark` is the mark of a built index over `index`. */
  predicate Built(c: Call)
  {
    MarkShape(c.mark, CellCount(c.depth), |c.index|)
  }

  /** The calls the model reads: the keys they form address `mark`, and
      `mark` is that of an index built over `index` (as it is when the index
      was built, or loaded from the file an earlier build wrote). */
  type SliceCall = c: Call | Addressable(c) && Built(c) witness Call(Cell(0, 0, 0), Cell(0, 0, 0), [0, 0], [], 0)

  /** The cell lies in the call's ranges. */
  predicate InBox(cell: Cell, c: Call)
  {
    && c.lower.x <= cell.x < c.upper.x
    && c.lower.y <= cell.y < c.upper.y
    && c.lower.z <= cell.z < c.upper.z
  }

  // ---------------------------------------------------------------------
  // Python slices

  /** `s[a:b]` with Python's semantics for bounds inside `0 .. |s|`: a
      reversed range is empty. */
  function PySlice(s: seq<int>, a: int, b: int): (r: seq<int>)
    requires 0 <= a <= |s| && 0 <= b <= |s|
    ensures |r| == if a <= b then b - a else 0
    ensures forall t :: 0 <= t < |r| ==> r[t] == s[a + t]
  {
    if a <= b then s[a..b] else []
  }

  // ---------------------------------------------------------------------
  // Keys of columns

  /** The key of cell `(i, j, z)` of a column inside the grid; `z` may reach
      `2^d`, the end of the column. */
  function KeyAt(i: int, j: int, z: int, depth: nat): (k: int)
    requires 0 <= i < Side(depth) && 0 <= j < Side(depth) && 0 <= z <= Side(depth)
    ensures k == Key(Cell(i, j, z), depth)
    ensures 0 <= k <= CellCount(depth)
    ensures z < Side(depth) ==> k < CellCount(depth)
  {
    KeyBounds(Cell(i, j, z), depth);
    Key(Cell(i, j, z), depth)
  }

  /** Keys are linear in z along a column, and a column ends where the next
      one begins. */
  lemma ColumnKeys(i: int, j: int, z: int, depth: nat)
    ensures Key(Cell(i, j, z), depth) == Key(Cell(i, j, 0), depth) + z
    ensures Key(Cell(i, j + 1, 0), depth) == Key(Cell(i, j, 0), depth) + Side(depth)
    ensures Key(Cell(i + 1, 0, 0), depth) == Key(Cell(i, Side(depth), 0), depth)
  {
    ShiftLeftSucc(j, depth);
    ShiftLeftSucc(i, 2 * depth);
    ShiftLeftPow(depth, depth);
    ShiftLeftIsMul(0, depth);
    assert depth + depth == 2 * depth;
  }

  /** The first key of the column piece `(i, j, lower.z .. upper.z-1)`. */
  function LowKey(c: SliceCall, i: int, j: int): int
    requires c.lower.x <= i < c.upper.x && c.lower.y <= j < c.upper.y
  {
    KeyAt(i, j, c.lower.z, c.depth)
  }

  /** The key just past the column piece `(i, j, lower.z .. upper.z-1)`. */
  function HighKey(c: SliceCall, i: int, j: int): int
    requires c.lower.x <= i < c.upper.x && c.lower.y <= j < c.upper.y
  {
    KeyAt(i, j, c.upper.z, c.depth)
  }


  // ---------------------------------------------------------------------
  // What the numba and C++ slicers compute

  /** The number of values Python's `range(lo, hi)` runs through. */
  function Count(lo: int, hi: int): (n: nat)
    ensures n == 0 <==> hi <= lo
    ensures hi <= lo + n
  {
    if hi < lo then 0 else hi - lo
  }

  /** The run of column `(i, j)`: `index[mark[key(i,j,lz)] : mark[key(i,j,uz)]]`. */
  function Run(c: SliceCall, i: int, j: int): seq<int>
    requires c.lower.x <= i < c.upper.x && c.lower.y <= j < c.upper.y
  {
    PySlice(c.index, c.mark[LowKey(c, i, j)], c.mark[HighKey(c, i, j)])
  }

  /** The runs of row `i`, one per column `lower.y .. upper.y-1`. */
  function Row(c: SliceCall, i: int): (row: seq<seq<int>>)
    requires c.lower.x <= i < c.upper.x
    ensures |row| == Count(c.lower.y, c.upper.y)
  {
    seq(Count(c.lower.y, c.upper.y), t requires 0 <= t < Count(c.lower.y, c.upper.y) => Run(c, i, c.lower.y + t))
  }

  /** The rows of the call, one per `lower.x .. upper.x-1`. */
  function Box(c: SliceCall): (box: seq<seq<seq<int>>>)
    ensures |box| == Count(c.lower.x, c.upper.x)
  {
    seq(Count(c.lower.x, c.upper.x), s requires 0 <= s < Count(c.lower.x, c.upper.x) => Row(c, c.lower.x + s))
  }

  /** The run of column `(i, j)` sits at `j - lower.y` in row `i`. */
  lemma RowAt(c: SliceCall, i: int, j: int)
    requires c.lower.x <= i < c.upper.x && c.lower.y <= j < c.upper.y
    ensures j - c.lower.y < |Row(c, i)| && Row(c, i)[j - c.lower.y] == Run(c, i, j)
  {
  }

  /** Row `i` of the call sits at `i - lower.x` in the box. */
  lemma BoxEntry(c: SliceCall, i: int)
    requires c.lower.x <= i < c.upper.x
    ensures i - c.lower.x < |Box(c)| && Box(c)[i - c.lower.x] == Row(c, i)
  {
  }

  /** The run of column `(i, j)` sits at `(i - lower.x, j - lower.y)` in the
      box. */
  lemma BoxAt(c: SliceCall, i: int, j: int)
    requires c.lower.x <= i < c.upper.x && c.lower.y <= j < c.upper.y
    ensures i - c.lower.x < |Box(c)| && j - c.lower.y < |Box(c)[i - c.lower.x]|
    ensures Box(c)[i - c.lower.x][j - c.lower.y] == Run(c, i, j)
  {
    BoxEntry(c, i);
  }

  /** The numba slicer's result: the runs joined in row-major order. */
  function Runs(c: SliceCall): seq<int>
  {
    Flatten(Flatten(Box(c)))
  }

  /** The C++ slicer's result: the runs, taken in row-major order, each
      inserted at the front. */
  function ReversedRuns(c: SliceCall): seq<int>
  {
    FlattenReversed(Flatten(Box(c)))
  }

  // ---------------------------------------------------------------------
  // What the oct triple loop computes

  /** The slice of cell `(i, j, k)`, `index[mark[key] : mark[key + 1]]`. */
  function CellSlice(c: SliceCall, i: int, j: int, k: int): seq<int>
    requires c.lower.x <= i < c.upper.x && c.lower.y <= j < c.upper.y && c.lower.z <= k < c.upper.z
  {
    var key := KeyAt(i, j, k, c.depth);
    PySlice(c.index, c.mark[key], c.mark[key + 1])
  }

  /** The slices of the cells `(i, j, lower.z .. upper.z-1)` of one column. */
  function Column(c: SliceCall, i: int, j: int): (column: seq<seq<int>>)
    requires c.lower.x <= i < c.upper.x && c.lower.y <= j < c.upper.y
    ensures |column| == Count(c.lower.z, c.upper.z)
  {
    seq(Count(c.lower.z, c.upper.z), u requires 0 <= u < Count(c.lower.z, c.upper.z) => CellSlice(c, i, j, c.lower.z + u))
  }

  /** What the oct triple loop appends for each column of row `i`. */
  function OctRow(c: SliceCall, i: int): (row: seq<seq<int>>)
    requires c.lower.x <= i < c.upper.x
    ensures |row| == Count(c.lower.y, c.upper.y)
  {
    seq(Count(c.lower.y, c.upper.y), t requires 0 <= t < Count(c.lower.y, c.upper.y) => Flatten(Column(c, i, c.lower.y + t)))
  }

  /** What the oct triple loop appends for each row. */
  function OctBox(c: SliceCall): (box: seq<seq<seq<int>>>)
    ensures |box| == Count(c.lower.x, c.upper.x)
  {
    seq(Count(c.lower.x, c.upper.x), s requires 0 <= s < Count(c.lower.x, c.upper.x) => OctRow(c, c.lower.x + s))
  }

  /** The slice of cell `(i, j, k)` sits at `k - lower.z` in its column. */
  lemma ColumnAt(c: SliceCall, i: int, j: int, k: int)
    requires c.lower.x <= i < c.upper.x && c.lower.y <= j < c.upper.y && c.lower.z <= k < c.upper.z
    ensures k - c.lower.z < |Column(c, i, j)| && Column(c, i, j)[k - c.lower.z] == CellSlice(c, i, j, k)
  {
  }

  /** The cell slices of column `(i, j)` sit at `j - lower.y` in row `i`. */
  lemma OctRowAt(c: SliceCall, i: int, j: int)
    requires c.lower.x <= i < c.upper.x && c.lower.y <= j < c.upper.y
    ensures j - c.lower.y < |OctRow(c, i)| && OctRow(c, i)[j - c.lower.y] == Flatten(Column(c, i, j))
  {
  }

  /** Row `i` of the oct triple loop sits at `i - lower.x` in the oct box. */
  lemma OctBoxEntry(c: SliceCall, i: int)
    requires c.lower.x <= i < c.upper.x
    ensures i - c.lower.x < |OctBox(c)| && OctBox(c)[i - c.lower.x] == OctRow(c, i)
  {
  }

  /** The oct triple loop's result: the cell slices joined in `(i, j, k)`
      order. */
  function CellSlices(c: SliceCall): seq<int>
  {
    Flatten(Flatten(OctBox(c)))
  }

  // ---------------------------------------------------------------------
  // The three implementations

  /** On a built mark, a run the C++ slicer copies is a well-formed range of
      `index`, as long as the z-range is not reversed. */
  lemma CppRun(c: SliceCall, i: int, j: int)
    requires c.lower.z <= c.upper.z
    requires c.lower.x <= i < c.upper.x && c.lower.y <= j < c.upper.y
    ensures 0 <= c.mark[LowKey(c, i, j)] <= c.mark[HighKey(c, i, j)] <= |c.index|
    ensures c.index[c.mark[LowKey(c, i, j)] .. c.mark[HighKey(c, i, j)]] == Run(c, i, j)
  {
    ColumnKeys(i, j, c.lower.z, c.depth);
    ColumnKeys(i, j, c.upper.z, c.depth);
    assert MarkOrdered(c.mark, LowKey(c, i, j), HighKey(c, i, j));
  }

  /** `np.sum(idx_3d * shifter)` in `_slicing`: the dot product of the cell
      with `[4^d, 2^d, 1]`, which is the cell's key. */
  method ShifterDot(cell: Cell, depth: nat) returns (key: int)
    ensures key == Key(cell, depth)
  {
    key := cell.x * Pow(4, depth) + cell.y * Pow(2, depth) + cell.z;
    ShifterKeyIsKey(cell, depth);
  }

  /** `_slicing` (mesh_illustris/core.py:428-446): the outer loop over
      rows `i`; the loop over columns is `NumbaRow`. */
  method NumbaSlicing(c: SliceCall) returns (target: seq<int>)
    ensures target == Runs(c)
  {
    ghost var box := Box(c);
    target := [];
    var i := c.lower.x;
    while i < c.upper.x
      invariant c.lower.x <= i <= c.lower.x + |box|
      invariant target == Flatten(Flatten(box[..i - c.lower.x]))
    {
      BoxEntry(c, i);
      NestedPrefix(box, i - c.lower.x);
      target := NumbaRow(c, i, target);
      i := i + 1;
    }
    assert box[..i - c.lower.x] == box;
  }

  /** The loop over columns `j` of row `i` in `_slicing`: each column's keys
      are formed as a dot product with `[4^d, 2^d, 1]` and its run is
      appended to the result. */
  method NumbaRow(c: SliceCall, i: int, rows: seq<int>) returns (target: seq<int>)
    requires c.lower.x <= i < c.upper.x
    ensures target == rows + Flatten(Row(c, i))
  {
    ghost var row := Row(c, i);
    target := rows;
    var j := c.lower.y;
    while j < c.upper.y
      invariant c.lower.y <= j <= c.lower.y + |row|
      invariant target == rows + Flatten(row[..j - c.lower.y])
    {
      var keyLower := ShifterDot(Cell(i, j, c.lower.z), c.depth);
      var keyUpper := ShifterDot(Cell(i, j, c.upper.z), c.depth);
      assert keyLower == LowKey(c, i, j) && keyUpper == HighKey(c, i, j);
      var start := c.mark[keyLower];
      var end := c.mark[keyUpper];
      RowAt(c, i, j);
      AppendStep(rows, row, j - c.lower.y, PySlice(c.index, start, end));
      target := target + PySlice(c.index, start, end);
      j := j + 1;
    }
    assert row[..j - c.lower.y] == row;
  }

  /** `slicing` (quick_slicing.cpp:10-39): the outer loop over rows `i`; the
      loop over columns is `CppRow`. `vector::insert` needs `start <= end`
      within `index`, which a built mark gives when `lower.z <= upper.z`. */
  method CppSlicing(c: SliceCall) returns (target: seq<int>)
    requires c.lower.z <= c.upper.z
    ensures target == ReversedRuns(c)
  {
    ghost var box := Box(c);
    target := [];
    var i := c.lower.x;
    while i < c.upper.x
      invariant c.lower.x <= i <= c.lower.x + |box|
      invariant target == FlattenReversed(Flatten(box[..i - c.lower.x]))
    {
      BoxEntry(c, i);
      NestedPrefix(box, i - c.lower.x);
      target := CppRow(c, i, target);
      i := i + 1;
    }
    assert box[..i - c.lower.x] == box;
  }

  /** The loop over columns `j` of row `i` in `slicing`: each column's run
      is inserted at the front of the result. */
  method CppRow(c: SliceCall, i: int, rows: seq<int>) returns (target: seq<int>)
    requires c.lower.z <= c.upper.z
    requires c.lower.x <= i < c.upper.x
    ensures target == FlattenReversed(Row(c, i)) + rows
  {
    ghost var row := Row(c, i);
    target := rows;
    var j := c.lower.y;
    while j < c.upper.y
      invariant c.lower.y <= j <= c.lower.y + |row|
      invariant target == FlattenReversed(row[..j - c.lower.y]) + rows
    {
      CppRun(c, i, j);
      var start := c.mark[KeyAt(i, j, c.lower.z, c.depth)];
      var end := c.mark[KeyAt(i, j, c.upper.z, c.depth)];
      RowAt(c, i, j);
      InsertStep(rows, row, j - c.lower.y, c.index[start..end]);
      target := c.index[start..end] + target;
      j := j + 1;
    }
    assert row[..j - c.lower.y] == row;
  }

  /** oct_illustris `box`'s triple loop (oct_illustris/core.py:216-227): the
      outer loop over rows `i`; the loops over `j` and `k` are `OctRowLoop`
      and `OctColumn`. */
  method OctTripleLoop(c: SliceCall) returns (target: seq<int>)
    ensures target == CellSlices(c)
  {
    ghost var box := OctBox(c);
    target := [];
    var i := c.lower.x;
    while i < c.upper.x
      invariant c.lower.x <= i <= c.lower.x + |box|
      invariant target == Flatten(Flatten(box[..i - c.lower.x]))
    {
      OctBoxEntry(c, i);
      NestedPrefix(box, i - c.lower.x);
      target := OctRowLoop(c, i, target);
      i := i + 1;
    }
    assert box[..i - c.lower.x] == box;
  }

  /** The loop over `j` of row `i` in the oct triple loop. */
  method OctRowLoop(c: SliceCall, i: int, rows: seq<int>) returns (target: seq<int>)
    requires c.lower.x <= i < c.upper.x
    ensures target == rows + Flatten(OctRow(c, i))
  {
    ghost var row := OctRow(c, i);
    target := rows;
    var j := c.lower.y;
    while j < c.upper.y
      invariant c.lower.y <= j <= c.lower.y + |row|
      invariant target == rows + Flatten(row[..j - c.lower.y])
    {
      OctRowAt(c, i, j);
      AppendStep(rows, row, j - c.lower.y, Flatten(Column(c, i, j)));
      target := OctColumn(c, i, j, target);
      j := j + 1;
    }
    assert row[..j - c.lower.y] == row;
  }

  /** The loop over `k` of column `(i, j)` in the oct triple loop: one cell
      slice per cell, appended with `np.r_`. */
  method OctColumn(c: SliceCall, i: int, j: int, columns: seq<int>) returns (target: seq<int>)
    requires c.lower.x <= i < c.upper.x && c.lower.y <= j < c.upper.y
    ensures target == columns + Flatten(Column(c, i, j))
  {
    ghost var column := Column(c, i, j);
    target := columns;
    var k := c.lower.z;
    while k < c.upper.z
      invariant c.lower.z <= k <= c.lower.z + |column|
      invariant target == columns + Flatten(column[..k - c.lower.z])
    {
      var key := KeyAt(i, j, k, c.depth);
      var start := c.mark[key];
      var end := c.mark[key + 1];
      ColumnAt(c, i, j, k);
      AppendStep(columns, column, k - c.lower.z, PySlice(c.index, start, end));
      target := target + PySlice(c.index, start, end);
      k := k + 1;
    }
    assert column[..k - c.lower.z] == column;
  }

  // ---------------------------------------------------------------------
  // The three implementations agree

  /** The slices of the first `n` cells of a column join into one range of
      `index`, because consecutive cells have consecutive keys and a built
      mark never decreases. */
  lemma {:induction false} ColumnPrefix(c: SliceCall, i: int, j: int, n: int)
    requires c.lower.x <= i < c.upper.x && c.lower.y <= j < c.upper.y
    requires 0 <= n <= Count(c.lower.z, c.upper.z)
    ensures 0 <= c.mark[LowKey(c, i, j)] <= c.mark[KeyAt(i, j, c.lower.z + n, c.depth)] <= |c.index|
    ensures Flatten(Column(c, i, j)[..n]) == c.index[c.mark[LowKey(c, i, j)] .. c.mark[KeyAt(i, j, c.lower.z + n, c.depth)]]
    decreases n
  {
    var lo, hi := LowKey(c, i, j), KeyAt(i, j, c.lower.z + n, c.depth);
    if n == 0 {
      assert MarkOrdered(c.mark, lo, hi);
    } else {
      var k := c.lower.z + n;
      var mid := KeyAt(i, j, k - 1, c.depth);
      ColumnPrefix(c, i, j, n - 1);
      CellSliceRange(c, i, j, k);
      ColumnAt(c, i, j, k - 1);
      JoinRange(Column(c, i, j), n, c.index, c.mark[lo], c.mark[mid], c.mark[hi]);
    }
  }

  /** On a built mark the slice of cell `(i, j, k-1)` is the range of
      `index` between its mark and the mark of the next cell, `(i, j, k)`. */
  lemma CellSliceRange(c: SliceCall, i: int, j: int, k: int)
    requires c.lower.x <= i < c.upper.x && c.lower.y <= j < c.upper.y && c.lower.z < k <= c.upper.z
    ensures KeyAt(i, j, k, c.depth) == KeyAt(i, j, k - 1, c.depth) + 1
    ensures 0 <= c.mark[KeyAt(i, j, k - 1, c.depth)] <= c.mark[KeyAt(i, j, k, c.depth)] <= |c.index|
    ensures CellSlice(c, i, j, k - 1) == c.index[c.mark[KeyAt(i, j, k - 1, c.depth)] .. c.mark[KeyAt(i, j, k, c.depth)]]
  {
    var key := KeyAt(i, j, k - 1, c.depth);
    ColumnKeys(i, j, k - 1, c.depth);
    ColumnKeys(i, j, k, c.depth);
    assert MarkOrdered(c.mark, key, key + 1);
  }

  /** A column's cell slices make up its run, for any z-range: with
      `lower.z > upper.z` both are empty. */
  lemma ColumnIsRun(c: SliceCall, i: int, j: int)
    requires c.lower.x <= i < c.upper.x && c.lower.y <= j < c.upper.y
    ensures Flatten(Column(c, i, j)) == Run(c, i, j)
  {
    var n := Count(c.lower.z, c.upper.z);
    if c.lower.z <= c.upper.z {
      ColumnPrefix(c, i, j, n);
      assert Column(c, i, j)[..n] == Column(c, i, j);
    } else {
      RunEmpty(c, i, j);
    }
  }

  /** A column piece with an empty z-range has an empty run on a built mark:
      its upper key is at most its lower key. */
  lemma RunEmpty(c: SliceCall, i: int, j: int)
    requires c.upper.z <= c.lower.z
    requires c.lower.x <= i < c.upper.x && c.lower.y <= j < c.upper.y
    ensures Run(c, i, j) == []
  {
    ColumnKeys(i, j, c.lower.z, c.depth);
    ColumnKeys(i, j, c.upper.z, c.depth);
    assert MarkOrdered(c.mark, HighKey(c, i, j), LowKey(c, i, j));
  }

  /** The oct triple loop appends, column by column, the numba runs. */
  lemma OctRowIsRow(c: SliceCall, i: int)
    requires c.lower.x <= i < c.upper.x
    ensures OctRow(c, i) == Row(c, i)
  {
    forall t | 0 <= t < Count(c.lower.y, c.upper.y)
      ensures OctRow(c, i)[t] == Row(c, i)[t]
    {
      ColumnIsRun(c, i, c.lower.y + t);
    }
  }

  /** On a built mark the oct triple loop and the numba slicer return the
      same sequence: per-cell slices in `(i, j, k)` order concatenate to the
      per-column runs in `(i, j)` order. */
  lemma CellSlicesAreRuns(c: SliceCall)
    ensures CellSlices(c) == Runs(c)
  {
    forall s | 0 <= s < Count(c.lower.x, c.upper.x)
      ensures OctBox(c)[s] == Box(c)[s]
    {
      OctRowIsRow(c, c.lower.x + s);
    }
    assert OctBox(c) == Box(c);
  }

  /** The C++ slicer returns the numba slicer's ranks, each as often, in a
      different order; hence also as many of them. */
  lemma ReversedRunsPermute(c: SliceCall)
    ensures multiset(ReversedRuns(c)) == multiset(Runs(c))
    ensures |ReversedRuns(c)| == |Runs(c)|
  {
    FlattenReversedPermutes(Flatten(Box(c)));
    assert |multiset(ReversedRuns(c))| == |multiset(Runs(c))|;
  }

  /** A rank is in the numba slicer's result exactly when it is in the run
      of one of the call's columns. */
  lemma RunsMembers(c: SliceCall, x: int)
    ensures x in Runs(c) <==>
              exists i, j :: c.lower.x <= i < c.upper.x && c.lower.y <= j < c.upper.y && x in Run(c, i, j)
  {
    NestedMembers(Box(c), x);
    if x in Runs(c) {
      var s, t :| 0 <= s < |Box(c)| && 0 <= t < |Box(c)[s]| && x in Box(c)[s][t];
      BoxEntry(c, c.lower.x + s);
      BoxAt(c, c.lower.x + s, c.lower.y + t);
    }
    if exists i, j :: c.lower.x <= i < c.upper.x && c.lower.y <= j < c.upper.y && x in Run(c, i, j) {
      var i, j :| c.lower.x <= i < c.upper.x && c.lower.y <= j < c.upper.y && x in Run(c, i, j);
      BoxAt(c, i, j);
    }
  }

  /** A call with an empty range on some axis returns nothing from any of
      the three slicers: on x and y the loops do not run, on z every cell
      loop is empty and every run is a reversed or empty range of a built
      mark. */
  lemma EmptyCall(c: SliceCall)
    requires c.upper.x <= c.lower.x || c.upper.y <= c.lower.y || c.upper.z <= c.lower.z
    ensures Runs(c) == [] && ReversedRuns(c) == [] && CellSlices(c) == []
  {
    forall s | 0 <= s < |Box(c)|
      ensures |Box(c)[s]| == Count(c.lower.y, c.upper.y)
    {
      BoxEntry(c, c.lower.x + s);
    }
    forall x
      ensures x !in Runs(c)
    {
      NestedMembers(Box(c), x);
      if c.upper.z <= c.lower.z {
        forall s, t | 0 <= s < |Box(c)| && 0 <= t < |Box(c)[s]|
          ensures x !in Box(c)[s][t]
        {
          BoxAt(c, c.lower.x + s, c.lower.y + t);
          RunEmpty(c, c.lower.x + s, c.lower.y + t);
        }
      }
    }
    NoMembers(Runs(c));
    ReversedRunsPermute(c);
    CellSlicesAreRuns(c);
  }

  // ---------------------------------------------------------------------
  // What a call selects

  /** Every particle lies inside the domain: all its cell coordinates are in
      `[0, 2^d)`. */
  predicate AllInGrid(cells: seq<Cell>, depth: nat)
  {
    forall i :: 0 <= i < |cells| ==> InGrid(cells[i], depth)
  }

  /** The call reads the index `(index, mark)` built over `cells` with ranks
      from `offset`, all of them inside the domain. */
  predicate ReadsIndex(c: Call, cells: seq<Cell>, offset: int)
  {
    IsIndex(c.index, c.mark, Keys(cells, c.depth), offset, c.depth) && AllInGrid(cells, c.depth)
  }

  /** The rank `x` is that of a particle whose cell lies in the box. */
  predicate Selected(cells: seq<Cell>, offset: int, x: int, c: Call)
  {
    offset <= x < offset + |cells| && InBox(cells[x - offset], c)
  }

  /** A call on a built mark together with the particles it indexes. */
  datatype Reading = Reading(call: SliceCall, cells: seq<Cell>, offset: int)

  /** The readings whose `(index, mark)` is an index of their particles. */
  type IndexedReading = r: Reading | ReadsIndex(r.call, r.cells, r.offset)
    witness Reading(Call(Cell(0, 0, 0), Cell(0, 0, 0), [0, 0], [], 0), [], 0)

  /** `x` is the rank of one of the reading's particles. */
  predicate IsParticle(r: Reading, x: int)
  {
    r.offset <= x < r.offset + |r.cells|
  }

  /** The cell of the particle with rank `x`. */
  function CellOf(r: Reading, x: int): Cell
    requires IsParticle(r, x)
  {
    r.cells[x - r.offset]
  }

  /** The slice of cell `k` that contains position `p` of a range of slices. */
  lemma {:induction false} SliceOf(mark: seq<int>, n: nat, size: nat, a: int, b: int, p: int) returns (k: int)
    requires MarkShape(mark, n, size)
    requires 0 <= a <= b <= n && mark[a] <= p < mark[b]
    ensures a <= k < b && mark[k] <= p < mark[k + 1]
    decreases b
  {
    if mark[b - 1] <= p {
      k := b - 1;
    } else {
      k := SliceOf(mark, n, size, a, b - 1, p);
    }
  }

  /** Every rank in the slices of cells `a .. b-1` is that of a particle
      whose key is in `a .. b-1`. */
  lemma SpanHoldsKeys(rank: seq<int>, mark: seq<int>, keys: seq<int>, offset: int, depth: nat, a: int, b: int, x: int)
    requires IsIndex(rank, mark, keys, offset, depth)
    requires forall i :: 0 <= i < |keys| ==> 0 <= keys[i] < CellCount(depth)
    requires 0 <= a <= b <= CellCount(depth)
    ensures 0 <= mark[a] <= mark[b] <= |rank|
    ensures x in rank[mark[a]..mark[b]] ==> offset <= x < offset + |keys| && a <= keys[x - offset] < b
  {
    assert MarkOrdered(mark, a, b);
    var span := rank[mark[a]..mark[b]];
    if x in span {
      var t :| 0 <= t < |span| && span[t] == x;
      var k := SliceOf(mark, CellCount(depth), |rank|, a, b, mark[a] + t);
      CompletePartition(rank, mark, keys, offset, depth, k);
    }
  }

  /** A position in the slice of a cell `k` of `a .. b-1` lies in the slices
      of `a .. b-1`. */
  lemma PositionInSpan(rank: seq<int>, mark: seq<int>, n: nat, a: int, b: int, k: int, p: int)
    requires MarkShape(mark, n, |rank|)
    requires 0 <= a <= k < b <= n && mark[k] <= p < mark[k + 1]
    ensures 0 <= mark[a] <= mark[b] <= |rank|
    ensures rank[p] in rank[mark[a]..mark[b]]
  {
    assert MarkOrdered(mark, a, k);
    assert MarkOrdered(mark, k + 1, b);
    assert rank[mark[a]..mark[b]][p - mark[a]] == rank[p];
  }

  /** The rank of every particle whose key is in `a .. b-1` is in the slices
      of those cells. */
  lemma KeysInSpan(rank: seq<int>, mark: seq<int>, keys: seq<int>, offset: int, depth: nat, a: int, b: int, i: int)
    requires IsIndex(rank, mark, keys, offset, depth)
    requires 0 <= a <= b <= CellCount(depth)
    requires 0 <= i < |keys| && a <= keys[i] < b
    ensures 0 <= mark[a] <= mark[b] <= |rank|
    ensures offset + i in rank[mark[a]..mark[b]]
  {
    var p := PositionOf(rank, mark, keys, offset, depth, i);
    PositionInSpan(rank, mark, CellCount(depth), a, b, keys[i], p);
  }

  /** An in-grid cell's key lies in the key range of the column piece
      `(i, j, lz .. uz-1)` exactly when the cell is in that piece. */
  lemma ColumnKeyRange(cell: Cell, i: int, j: int, lz: int, uz: int, depth: nat)
    requires InGrid(cell, depth) && 0 <= i < Side(depth) && 0 <= j < Side(depth)
    requires 0 <= lz <= uz <= Side(depth)
    ensures KeyAt(i, j, lz, depth) <= Key(cell, depth) < KeyAt(i, j, uz, depth)
            <==> cell.x == i && cell.y == j && lz <= cell.z < uz
  {
    var base := Key(Cell(i, j, 0), depth);
    ColumnKeys(i, j, lz, depth);
    ColumnKeys(i, j, uz, depth);
    ColumnKeys(cell.x, cell.y, cell.z, depth);
    if KeyAt(i, j, lz, depth) <= Key(cell, depth) < KeyAt(i, j, uz, depth) {
      var z := Key(cell, depth) - base;
      ColumnKeys(i, j, z, depth);
      KeyInjective(cell, Cell(i, j, z), depth);
    }
  }

  /** Every key of particles inside the domain names a cell. */
  lemma KeysInGrid(cells: seq<Cell>, depth: nat)
    requires AllInGrid(cells, depth)
    ensures forall t :: 0 <= t < |cells| ==> 0 <= Keys(cells, depth)[t] < CellCount(depth)
  {
    forall t | 0 <= t < |cells|
      ensures 0 <= Keys(cells, depth)[t] < CellCount(depth)
    {
      KeyBounds(cells[t], depth);
    }
  }

  /** The slices of cells `a .. b-1` of a built index hold exactly the ranks
      of the particles whose keys are in `a .. b-1`. */
  lemma SpanExact(rank: seq<int>, mark: seq<int>, keys: seq<int>, offset: int, depth: nat, a: int, b: int, x: int)
    requires IsIndex(rank, mark, keys, offset, depth)
    requires forall i :: 0 <= i < |keys| ==> 0 <= keys[i] < CellCount(depth)
    requires 0 <= a <= b <= CellCount(depth)
    ensures 0 <= mark[a] <= mark[b] <= |rank|
    ensures x in rank[mark[a]..mark[b]] <==> offset <= x < offset + |keys| && a <= keys[x - offset] < b
  {
    SpanHoldsKeys(rank, mark, keys, offset, depth, a, b, x);
    if offset <= x < offset + |keys| && a <= keys[x - offset] < b {
      KeysInSpan(rank, mark, keys, offset, depth, a, b, x - offset);
    }
  }

  /** Whether a run holds a rank is decided by the key range of its column
      piece. */
  lemma RunSpan(r: IndexedReading, i: int, j: int, x: int)
    requires r.call.lower.z <= r.call.upper.z
    requires r.call.lower.x <= i < r.call.upper.x && r.call.lower.y <= j < r.call.upper.y
    ensures x in Run(r.call, i, j) <==>
              IsParticle(r, x) && LowKey(r.call, i, j) <= Key(CellOf(r, x), r.call.depth) < HighKey(r.call, i, j)
  {
    var c := r.call;
    CppRun(c, i, j);
    KeysInGrid(r.cells, c.depth);
    SpanExact(c.index, c.mark, Keys(r.cells, c.depth), r.offset, c.depth, LowKey(c, i, j), HighKey(c, i, j), x);
  }

  /** The run of column `(i, j)` read from a built index holds exactly the
      ranks of the particles in the cells `(i, j, lower.z .. upper.z-1)`. */
  lemma RunMembers(r: IndexedReading, i: int, j: int, x: int)
    requires r.call.lower.x <= i < r.call.upper.x && r.call.lower.y <= j < r.call.upper.y
    ensures x in Run(r.call, i, j) <==> InColumn(r, x, i, j)
  {
    var c := r.call;
    if c.lower.z <= c.upper.z {
      RunSpan(r, i, j, x);
      if IsParticle(r, x) {
        ColumnKeyRange(CellOf(r, x), i, j, c.lower.z, c.upper.z, c.depth);
      }
    } else {
      ColumnIsRun(c, i, j);
    }
  }

  /** The rank `x` is that of a particle in the column piece
      `(i, j, lower.z .. upper.z-1)` of the reading's call. */
  predicate InColumn(r: Reading, x: int, i: int, j: int)
  {
    && IsParticle(r, x) && CellOf(r, x).x == i && CellOf(r, x).y == j
    && r.call.lower.z <= CellOf(r, x).z < r.call.upper.z
  }

  /** The numba slicer's result read from a built index holds exactly the
      ranks of the particles whose cells lie in the box. */
  lemma RunsSelectBox(r: IndexedReading, x: int)
    ensures x in Runs(r.call) <==> Selected(r.cells, r.offset, x, r.call)
  {
    RunsMembers(r.call, x);
    if x in Runs(r.call) {
      RunsOnlySelected(r, x);
    }
    if Selected(r.cells, r.offset, x, r.call) {
      SelectedInRun(r, x);
    }
  }

  lemma RunsOnlySelected(r: IndexedReading, x: int)
    requires exists i, j :: r.call.lower.x <= i < r.call.upper.x && r.call.lower.y <= j < r.call.upper.y && x in Run(r.call, i, j)
    ensures Selected(r.cells, r.offset, x, r.call)
  {
    var c := r.call;
    var i, j :| c.lower.x <= i < c.upper.x && c.lower.y <= j < c.upper.y && x in Run(c, i, j);
    RunMembers(r, i, j, x);
    assert InColumn(r, x, i, j);
  }

  lemma SelectedInRun(r: IndexedReading, x: int)
    requires Selected(r.cells, r.offset, x, r.call)
    ensures IsParticle(r, x) && InBox(CellOf(r, x), r.call)
    ensures x in Run(r.call, CellOf(r, x).x, CellOf(r, x).y)
  {
    RunMembers(r, CellOf(r, x).x, CellOf(r, x).y, x);
  }

  /** Read from a built index of particles inside the domain, each of the
      three slicers returns exactly the ranks of the particles whose cells
      lie in the box. */
  lemma SlicersSelectBox(r: IndexedReading, x: int)
    ensures x in Runs(r.call) <==> Selected(r.cells, r.offset, x, r.call)
    ensures x in ReversedRuns(r.call) <==> Selected(r.cells, r.offset, x, r.call)
    ensures x in CellSlices(r.call) <==> Selected(r.cells, r.offset, x, r.call)
  {
    RunsSelectBox(r, x);
    ReversedRunsPermute(r.call);
    assert x in ReversedRuns(r.call) <==> x in multiset(ReversedRuns(r.call));
    CellSlicesAreRuns(r.call);
  }
}
