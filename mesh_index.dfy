/** The linear spatial index of one chunk (mesh_illustris/mesh.py).

    `mesh(pos, length, offset, boundary, depth)` checks the integer widths;
    `build()` turns every particle's grid cell into a composite key, sorts
    the particles by key, and returns
      - `rank`: the ranks `offset .. offset+length-1` permuted into key order;
      - `mark`: `8^d + 1` entries, `mark[0] = 0` and `mark[k+1]` the number
        of keys `<= k`,
    so that the particles of cell `k` are `rank[mark[k] .. mark[k+1]]`.
    The float digitization of positions is left out: a mesh holds the
    particles' integer grid cells. */
module MeshIndex {
  import opened Wrappers
  import opened Bits
  import opened GridCodec
  import opened Widths

  /** A mesh after construction: the digitized cells, the particle count
      and rank offset, the depth, and the chosen integer widths. */
  datatype Mesh = Mesh(cells: seq<Cell>, length: nat, offset: int, depth: nat,
                       intData: IntWidth, intTree: IntWidth)

  /** `mesh.__init__` (mesh.py:11-34): the data width from the count, the
      tree width from the depth, ValueError above depth 20. */
  function NewMesh(cells: seq<Cell>, length: nat, offset: int, depth: nat): (r: Result<Mesh>)
    ensures r.Ok? <==> depth <= 20
    ensures r.Ok? ==> r.value.cells == cells && r.value.length == length
                      && r.value.offset == offset && r.value.depth == depth
    ensures r.Ok? ==> (r.value.intData == Int32 <==> length <= 0x7fff_ffff)
    ensures r.Ok? ==> (r.value.intTree == Int32 <==> depth <= 10)
    ensures r.Ok? ==> Fits(CellCount(depth), r.value.intTree)
  {
    TreeWidthHoldsKeys(depth, "mesh");
    var tree :- TreeWidth(depth, "mesh");
    Ok(Mesh(cells, length, offset, depth, DataWidth(length), tree))
  }

  /** `idx_1d`: one composite key per particle. */
  function Keys(cells: seq<Cell>, depth: nat): (keys: seq<int>)
    ensures |keys| == |cells|
    ensures forall i :: 0 <= i < |cells| ==> keys[i] == Key(cells[i], depth)
  {
    seq(|cells|, i requires 0 <= i < |cells| => Key(cells[i], depth))
  }

  // ---------------------------------------------------------------------
  // Sorting permutations (np.argsort)

  predicate InRange(s: seq<int>, n: int)
  {
    forall p :: 0 <= p < |s| ==> 0 <= s[p] < n
  }

  predicate Distinct(s: seq<int>)
  {
    forall p, q :: 0 <= p < q < |s| ==> s[p] != s[q]
  }

  /** The keys, read through `idx`, never decrease. */
  predicate SortedBy(keys: seq<int>, idx: seq<int>)
    requires InRange(idx, |keys|)
  {
    forall p, q :: 0 <= p < q < |idx| ==> keys[idx[p]] <= keys[idx[q]]
  }

  /** `idx` is what `np.argsort(keys)` may return: a permutation of
      `0 .. |keys|-1` that orders the keys. The order among equal keys is
      not fixed (numpy's default sort is not stable). */
  predicate IsArgSort(keys: seq<int>, idx: seq<int>)
  {
    && |idx| == |keys|
    && InRange(idx, |keys|)
    && Distinct(idx)
    && (forall i :: 0 <= i < |keys| ==> i in idx)
    && SortedBy(keys, idx)
  }

  /** Inserts index `i` after every entry whose key is not larger. */
  function Insert(keys: seq<int>, s: seq<int>, i: int): (r: seq<int>)
    requires InRange(s, |keys|) && 0 <= i < |keys|
    ensures |r| == |s| + 1
    ensures forall x :: x in r <==> x in s || x == i
    ensures InRange(r, |keys|)
  {
    if s == [] then [i]
    else if keys[i] < keys[s[0]] then [i] + s
    else [s[0]] + Insert(keys, s[1..], i)
  }

  /** Inserting keeps the order by key. */
  lemma {:induction false} InsertSorted(keys: seq<int>, s: seq<int>, i: int)
    requires InRange(s, |keys|) && 0 <= i < |keys|
    requires SortedBy(keys, s)
    ensures SortedBy(keys, Insert(keys, s, i))
  {
    if s != [] && keys[s[0]] <= keys[i] {
      var t := s[1..];
      InsertSorted(keys, t, i);
      var r := Insert(keys, s, i);
      assert r == [s[0]] + Insert(keys, t, i);
      forall q | 1 <= q < |r|
        ensures keys[s[0]] <= keys[r[q]]
      {
        assert r[q] in Insert(keys, t, i);
        if r[q] != i {
          var p :| 0 <= p < |t| && t[p] == r[q];
          assert s[p + 1] == r[q];
        }
      }
    }
  }

  /** Inserting a new index keeps the entries distinct. */
  lemma {:induction false} InsertDistinct(keys: seq<int>, s: seq<int>, i: int)
    requires InRange(s, |keys|) && 0 <= i < |keys|
    requires Distinct(s) && i !in s
    ensures Distinct(Insert(keys, s, i))
  {
    if s != [] && keys[s[0]] <= keys[i] {
      var t := s[1..];
      assert i !in t && Distinct(t);
      InsertDistinct(keys, t, i);
      var r := Insert(keys, s, i);
      assert r == [s[0]] + Insert(keys, t, i);
      assert s[0] !in t;
    }
  }

  /** `r` orders the indices `0 .. n-1` by key, each once. */
  predicate SortsPrefix(keys: seq<int>, r: seq<int>, n: int)
  {
    && |r| == n
    && InRange(r, n)
    && n <= |keys|
    && Distinct(r)
    && (forall i :: 0 <= i < n ==> i in r)
    && SortedBy(keys, r)
  }

  /** Inserting index `n` into a sort of `0 .. n-1` sorts `0 .. n`. */
  lemma InsertNext(keys: seq<int>, s: seq<int>, n: int)
    requires 0 <= n < |keys| && SortsPrefix(keys, s, n)
    ensures SortsPrefix(keys, Insert(keys, s, n), n + 1)
  {
    assert InRange(s, |keys|);
    assert n !in s;
    var r := Insert(keys, s, n);
    assert forall p :: 0 <= p < |r| ==> r[p] in r;
    InsertSorted(keys, s, n);
    InsertDistinct(keys, s, n);
  }

  /** Sorts the indices `0 .. n-1` by insertion. */
  function SortPrefix(keys: seq<int>, n: nat): (r: seq<int>)
    requires n <= |keys|
    ensures SortsPrefix(keys, r, n)
  {
    if n == 0 then []
    else
      var s := SortPrefix(keys, n - 1);
      InsertNext(keys, s, n - 1);
      Insert(keys, s, n - 1)
  }

  /** One sorting permutation of the keys; the index properties below hold
      for every `idx` with `IsArgSort`, so numpy's choice among equal keys
      does not matter. */
  function ArgSort(keys: seq<int>): (idx: seq<int>)
    ensures IsArgSort(keys, idx)
  {
    SortPrefix(keys, |keys|)
  }

  // ---------------------------------------------------------------------
  // searchsorted and the mark array

  predicate Sorted(s: seq<int>)
  {
    forall p, q :: 0 <= p < q < |s| ==> s[p] <= s[q]
  }

  /** `keys[idx]`: the keys in sorted order. */
  function SortedView(keys: seq<int>, idx: seq<int>): (s: seq<int>)
    requires InRange(idx, |keys|)
    ensures |s| == |idx|
    ensures forall p :: 0 <= p < |idx| ==> s[p] == keys[idx[p]]
  {
    seq(|idx|, p requires 0 <= p < |idx| => keys[idx[p]])
  }

  /** `np.searchsorted(s, v, side="right")` on a sorted `s`: the number of
      entries `<= v`. */
  function SearchSortedRight(s: seq<int>, v: int): (r: nat)
    ensures r <= |s|
  {
    if s == [] then 0
    else (if s[0] <= v then 1 else 0) + SearchSortedRight(s[1..], v)
  }

  /** On a sorted sequence, searchsorted is the insertion point: everything
      before it is `<= v`, everything from it on is `> v`. */
  lemma {:induction false} SearchSortedSplit(s: seq<int>, v: int)
    requires Sorted(s)
    ensures forall p :: 0 <= p < |s| ==> (p < SearchSortedRight(s, v) <==> s[p] <= v)
  {
    if s != [] {
      var t := s[1..];
      assert Sorted(t);
      SearchSortedSplit(t, v);
      forall p | 0 <= p < |s|
        ensures p < SearchSortedRight(s, v) <==> s[p] <= v
      {
        if p > 0 {
          assert s[p] == t[p - 1];
        }
      }
    }
  }

  lemma {:induction false} SearchSortedMonotone(s: seq<int>, v: int, w: int)
    requires v <= w
    ensures SearchSortedRight(s, v) <= SearchSortedRight(s, w)
  {
    if s != [] {
      SearchSortedMonotone(s[1..], v, w);
    }
  }

  /** `mark = zeros(8^d + 1); mark[1:] = searchsorted(idx_1d, arange(8^d),
      side="right", sorter=idx)` (mesh.py:55-58). */
  function MarkOf(sorted: seq<int>, depth: nat): (mark: seq<int>)
    ensures |mark| == CellCount(depth) + 1
  {
    seq(CellCount(depth) + 1, k => if k == 0 then 0 else SearchSortedRight(sorted, k - 1))
  }

  /** `arange(offset, offset+length)[idx]` (mesh.py:60-62). */
  function RankOf(offset: int, length: nat, idx: seq<int>): (rank: seq<int>)
    requires InRange(idx, length)
    ensures |rank| == |idx|
  {
    var ranks := seq(length, i => offset + i);
    seq(|idx|, p requires 0 <= p < |idx| => ranks[idx[p]])
  }

  // ---------------------------------------------------------------------
  // What a built index guarantees

  /** `mark` starts at 0, never decreases and stays within the `size`
      particles. */
  predicate MarkShape(mark: seq<int>, n: nat, size: nat)
  {
    && |mark| == n + 1
    && mark[0] == 0
    && (forall a, b :: 0 <= a <= b <= n ==> MarkOrdered(mark, a, b))
    && (forall k :: 0 <= k <= n ==> 0 <= mark[k] <= size)
  }

  /** `mark[a] <= mark[b]`; named so that the monotonicity of a mark is used
      where a proof asks for it. */
  predicate MarkOrdered(mark: seq<int>, a: int, b: int)
    requires 0 <= a <= b < |mark|
  {
    mark[a] <= mark[b]
  }

  /** `rank` is a permutation of `offset .. offset+size-1`. */
  predicate RankPermutes(rank: seq<int>, offset: int, size: nat)
  {
    && |rank| == size
    && (forall p :: 0 <= p < |rank| ==> offset <= rank[p] < offset + size)
    && (forall p, q {:trigger RanksDiffer(rank, p, q)} :: 0 <= p < q < |rank| ==> RanksDiffer(rank, p, q))
    && (forall x :: offset <= x < offset + size ==> HasRank(rank, x))
  }

  /** Positions `p` and `q` of `rank` hold different ranks. */
  predicate RanksDiffer(rank: seq<int>, p: int, q: int)
  {
    0 <= p < |rank| && 0 <= q < |rank| && rank[p] != rank[q]
  }

  /** `x` occurs in `rank`; named so that the coverage of a permutation is
      used where a proof asks for it. */
  predicate HasRank(rank: seq<int>, x: int)
  {
    x in rank
  }

  /** The rank at position `p` belongs to a particle with key `k` (for cell
      0, with a key `<= 0`, which takes in the points below the domain). */
  predicate KeyedAt(rank: seq<int>, keys: seq<int>, offset: int, k: int, p: int)
  {
    && 0 <= p < |rank| && 0 <= rank[p] - offset < |keys|
    && if k == 0 then keys[rank[p] - offset] <= 0 else keys[rank[p] - offset] == k
  }

  /** The rank at position `p` belongs to a particle whose key is at least
      `n`, beyond the grid. */
  predicate BeyondGrid(rank: seq<int>, keys: seq<int>, offset: int, n: nat, p: int)
  {
    0 <= p < |rank| && 0 <= rank[p] - offset < |keys| && keys[rank[p] - offset] >= n
  }

  /** The rank of particle `i` sits in the slice of the cell its key names. */
  predicate Placed(rank: seq<int>, mark: seq<int>, keys: seq<int>, offset: int, i: int)
  {
    && 0 <= i < |keys| && 0 <= keys[i] && keys[i] + 1 < |mark|
    && exists p :: mark[keys[i]] <= p < mark[keys[i] + 1] && 0 <= p < |rank| && rank[p] == offset + i
  }

  /** Every rank in the slice of cell `k` belongs to a particle with key `k`. */
  predicate SlicesHoldKeys(rank: seq<int>, mark: seq<int>, keys: seq<int>, offset: int, n: nat)
    requires |mark| == n + 1
  {
    forall k, p {:trigger KeyedAt(rank, keys, offset, k, p)} ::
      0 <= k < n && mark[k] <= p < mark[k + 1] ==> KeyedAt(rank, keys, offset, k, p)
  }

  /** Every rank after `mark[n]` belongs to a particle whose key lies beyond
      the grid. */
  predicate TailBeyondGrid(rank: seq<int>, mark: seq<int>, keys: seq<int>, offset: int, n: nat)
    requires |mark| == n + 1
  {
    forall p {:trigger BeyondGrid(rank, keys, offset, n, p)} ::
      mark[n] <= p < |rank| ==> BeyondGrid(rank, keys, offset, n, p)
  }

  /** Every particle whose key names a cell is in that cell's slice. */
  predicate KeysInSlices(rank: seq<int>, mark: seq<int>, keys: seq<int>, offset: int, n: nat)
  {
    forall i {:trigger Placed(rank, mark, keys, offset, i)} ::
      0 <= i < |keys| && 0 <= keys[i] < n ==> Placed(rank, mark, keys, offset, i)
  }

  /** `(rank, mark)` index the particles whose keys are `keys`: the slice
      `rank[mark[k] .. mark[k+1]]` of cell `k` holds exactly the ranks of the
      particles with key `k`. */
  predicate IsIndex(rank: seq<int>, mark: seq<int>, keys: seq<int>, offset: int, depth: nat)
  {
    && MarkShape(mark, CellCount(depth), |rank|)
    && RankPermutes(rank, offset, |keys|)
    && SlicesHoldKeys(rank, mark, keys, offset, CellCount(depth))
    && TailBeyondGrid(rank, mark, keys, offset, CellCount(depth))
    && KeysInSlices(rank, mark, keys, offset, CellCount(depth))
  }

  lemma MarkOfShape(sorted: seq<int>, depth: nat)
    ensures MarkShape(MarkOf(sorted, depth), CellCount(depth), |sorted|)
  {
    var n := CellCount(depth);
    var mark := MarkOf(sorted, depth);
    forall a, b | 0 <= a <= b <= n
      ensures MarkOrdered(mark, a, b)
    {
      if a > 0 {
        SearchSortedMonotone(sorted, a - 1, b - 1);
      }
    }
  }

  lemma RankOfPermutes(keys: seq<int>, idx: seq<int>, offset: int)
    requires IsArgSort(keys, idx)
    ensures RankPermutes(RankOf(offset, |keys|, idx), offset, |keys|)
  {
    var rank := RankOf(offset, |keys|, idx);
    forall x | offset <= x < offset + |keys|
      ensures HasRank(rank, x)
    {
      assert x - offset in idx;
      var p :| 0 <= p < |idx| && idx[p] == x - offset;
      assert rank[p] == x;
    }
    forall p, q | 0 <= p < q < |rank|
      ensures RanksDiffer(rank, p, q)
    {
      assert idx[p] != idx[q];
    }
  }

  /** Within the sorted keys, the slice `mark[k] .. mark[k+1]` holds key `k`
      (and, for cell 0, the keys below it), the tail after `mark[n]` the keys
      beyond the grid. */
  lemma SortedSliceAt(sorted: seq<int>, depth: nat, k: int, p: int)
    requires Sorted(sorted)
    requires 0 <= k < CellCount(depth)
    requires MarkOf(sorted, depth)[k] <= p < MarkOf(sorted, depth)[k + 1]
    ensures 0 <= p < |sorted|
    ensures if k == 0 then sorted[p] <= 0 else sorted[p] == k
  {
    SearchSortedSplit(sorted, k);
    if k > 0 {
      SearchSortedSplit(sorted, k - 1);
    }
  }

  lemma SortedTailAt(sorted: seq<int>, depth: nat, p: int)
    requires Sorted(sorted)
    requires MarkOf(sorted, depth)[CellCount(depth)] <= p < |sorted|
    ensures sorted[p] >= CellCount(depth)
  {
    PowPositive(8, depth);
    SearchSortedSplit(sorted, CellCount(depth) - 1);
  }

  /** The rank at position `p` of the slice of cell `k` (or of the tail)
      belongs to a particle with that key. */
  lemma RankSliceAt(keys: seq<int>, idx: seq<int>, offset: int, depth: nat, k: int, p: int)
    requires IsArgSort(keys, idx)
    requires 0 <= k <= CellCount(depth)
    requires MarkOf(SortedView(keys, idx), depth)[k] <= p
    requires k < CellCount(depth) ==> p < MarkOf(SortedView(keys, idx), depth)[k + 1]
    requires p < |keys|
    ensures 0 <= p < |keys| && RankOf(offset, |keys|, idx)[p] - offset == idx[p]
    ensures k < CellCount(depth) ==> if k == 0 then keys[idx[p]] <= 0 else keys[idx[p]] == k
    ensures k == CellCount(depth) ==> keys[idx[p]] >= k
  {
    var sorted := SortedView(keys, idx);
    assert Sorted(sorted);
    if k < CellCount(depth) {
      SortedSliceAt(sorted, depth, k, p);
    } else {
      SortedTailAt(sorted, depth, p);
    }
  }

  lemma SortedSlicesHoldKeys(keys: seq<int>, idx: seq<int>, offset: int, depth: nat)
    requires IsArgSort(keys, idx)
    requires MarkShape(MarkOf(SortedView(keys, idx), depth), CellCount(depth), |keys|)
    requires RankPermutes(RankOf(offset, |keys|, idx), offset, |keys|)
    ensures SlicesHoldKeys(RankOf(offset, |keys|, idx), MarkOf(SortedView(keys, idx), depth), keys, offset, CellCount(depth))
  {
    var rank := RankOf(offset, |keys|, idx);
    var mark := MarkOf(SortedView(keys, idx), depth);
    forall k, p | 0 <= k < CellCount(depth) && mark[k] <= p < mark[k + 1]
      ensures KeyedAt(rank, keys, offset, k, p)
    {
      RankSliceAt(keys, idx, offset, depth, k, p);
    }
  }

  lemma SortedTailBeyondGrid(keys: seq<int>, idx: seq<int>, offset: int, depth: nat)
    requires IsArgSort(keys, idx)
    requires MarkShape(MarkOf(SortedView(keys, idx), depth), CellCount(depth), |keys|)
    requires RankPermutes(RankOf(offset, |keys|, idx), offset, |keys|)
    ensures TailBeyondGrid(RankOf(offset, |keys|, idx), MarkOf(SortedView(keys, idx), depth), keys, offset, CellCount(depth))
  {
    var mark := MarkOf(SortedView(keys, idx), depth);
    forall p | mark[CellCount(depth)] <= p < |keys|
      ensures BeyondGrid(RankOf(offset, |keys|, idx), keys, offset, CellCount(depth), p)
    {
      RankSliceAt(keys, idx, offset, depth, CellCount(depth), p);
    }
  }

  /** Where the build puts the rank of particle `i`, whose key names a cell. */
  lemma SortedPositionOf(keys: seq<int>, idx: seq<int>, offset: int, depth: nat, i: int) returns (p: int)
    requires IsArgSort(keys, idx)
    requires 0 <= i < |keys| && 0 <= keys[i] < CellCount(depth)
    ensures MarkOf(SortedView(keys, idx), depth)[keys[i]] <= p < MarkOf(SortedView(keys, idx), depth)[keys[i] + 1]
    ensures 0 <= p < |keys| && RankOf(offset, |keys|, idx)[p] == offset + i
  {
    var sorted := SortedView(keys, idx);
    var mark := MarkOf(sorted, depth);
    assert Sorted(sorted);
    assert i in idx;
    p :| 0 <= p < |idx| && idx[p] == i;
    var k := keys[i];
    assert sorted[p] == k;
    SearchSortedSplit(sorted, k);
    assert p < mark[k + 1];
    if k > 0 {
      SearchSortedSplit(sorted, k - 1);
    }
  }

  lemma SortedKeysInSlices(keys: seq<int>, idx: seq<int>, offset: int, depth: nat)
    requires IsArgSort(keys, idx)
    ensures MarkShape(MarkOf(SortedView(keys, idx), depth), CellCount(depth), |keys|)
    ensures KeysInSlices(RankOf(offset, |keys|, idx), MarkOf(SortedView(keys, idx), depth), keys, offset, CellCount(depth))
  {
    var n := CellCount(depth);
    var rank := RankOf(offset, |keys|, idx);
    var mark := MarkOf(SortedView(keys, idx), depth);
    MarkOfShape(SortedView(keys, idx), depth);
    forall i | 0 <= i < |keys| && 0 <= keys[i] < n
      ensures Placed(rank, mark, keys, offset, i)
    {
      var p := SortedPositionOf(keys, idx, offset, depth, i);
    }
  }

  /** The partition property of the build: whatever sorting permutation
      argsort returns, the ranks and marks it yields form an index. */
  lemma SortedIndexIsPartition(keys: seq<int>, idx: seq<int>, offset: int, depth: nat)
    requires IsArgSort(keys, idx)
    ensures IsIndex(RankOf(offset, |keys|, idx), MarkOf(SortedView(keys, idx), depth), keys, offset, depth)
  {
    MarkOfShape(SortedView(keys, idx), depth);
    RankOfPermutes(keys, idx, offset);
    SortedSlicesHoldKeys(keys, idx, offset, depth);
    SortedTailBeyondGrid(keys, idx, offset, depth);
    SortedKeysInSlices(keys, idx, offset, depth);
  }

  /** With every key inside the grid (all particles inside the domain) the
      cells partition all of `rank`: `mark[8^d] == N`, and the slice of each
      cell holds only that cell's particles. */
  lemma CompletePartition(rank: seq<int>, mark: seq<int>, keys: seq<int>, offset: int, depth: nat, k: int)
    requires IsIndex(rank, mark, keys, offset, depth)
    requires forall i :: 0 <= i < |keys| ==> 0 <= keys[i] < CellCount(depth)
    requires 0 <= k < CellCount(depth)
    ensures mark[CellCount(depth)] == |rank|
    ensures forall p :: mark[k] <= p < mark[k + 1] ==> keys[rank[p] - offset] == k
  {
    var n := CellCount(depth);
    if mark[n] < |rank| {
      // the tail fact at position `mark[n]` names a key beyond the grid
      ghost var tail := BeyondGrid(rank, keys, offset, n, mark[n]);
      assert false;
    }
    forall p | mark[k] <= p < mark[k + 1]
      ensures keys[rank[p] - offset] == k
    {
      assert KeyedAt(rank, keys, offset, k, p);
    }
  }

  /** Where an index keeps the rank of particle `i`, whose key names a cell:
      a position in the slice of that cell. */
  lemma PositionOf(rank: seq<int>, mark: seq<int>, keys: seq<int>, offset: int, depth: nat, i: int) returns (p: int)
    requires IsIndex(rank, mark, keys, offset, depth)
    requires 0 <= i < |keys| && 0 <= keys[i] < CellCount(depth)
    ensures mark[keys[i]] <= p < mark[keys[i] + 1]
    ensures 0 <= p < |rank| && rank[p] == offset + i
  {
    assert Placed(rank, mark, keys, offset, i);
    p :| mark[keys[i]] <= p < mark[keys[i] + 1] && 0 <= p < |rank| && rank[p] == offset + i;
  }

  /** `mesh.build()` (mesh.py:45-64): keys, argsort, the mark array filled in
      place behind its leading zero, and the permuted ranks. */
  method Build(m: Mesh) returns (rank: seq<int>, mark: array<int>)
    requires |m.cells| == m.length
    ensures fresh(mark)
    ensures rank == RankOf(m.offset, m.length, ArgSort(Keys(m.cells, m.depth)))
    ensures mark[..] == MarkOf(SortedView(Keys(m.cells, m.depth), ArgSort(Keys(m.cells, m.depth))), m.depth)
    ensures IsIndex(rank, mark[..], Keys(m.cells, m.depth), m.offset, m.depth)
  {
    var keys := Keys(m.cells, m.depth);
    var idx := ArgSort(keys);
    var sorted := SortedView(keys, idx);
    mark := new int[CellCount(m.depth) + 1](_ => 0);
    forall k | 1 <= k < mark.Length {
      mark[k] := SearchSortedRight(sorted, k - 1);
    }
    rank := RankOf(m.offset, m.length, idx);
    assert mark[..] == MarkOf(sorted, m.depth);
    SortedIndexIsPartition(keys, idx, m.offset, m.depth);
  }
}
