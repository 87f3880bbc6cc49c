/** Merging the per-chunk results of a query into one result
    (`Dataset._combine` of mesh_illustris/core.py and `dataset._combine` of
    oct_illustris/core.py).

    A chunk result maps a particle-type group to a map from field name to a
    numpy array of one or two dimensions. Chunk 0's result becomes the
    accumulator; every later chunk's array of every requested type and
    field, optionally cut to one column, is concatenated behind the
    accumulated one. mesh_illustris concatenates with
    `_concatenate_enable_empty`, which lets an empty one-dimensional array
    stand for an empty table; oct_illustris uses `np.r_`, a plain
    concatenation. */
module Combine {
  import opened Wrappers
  import opened Sequences
  import opened IlUtil

  // ---------------------------------------------------------------------
  // Arrays

  /** A numpy array of one dimension (`items`) or of two (`rows` of `cols`
      entries each). Entries are numbers; integer fields embed in them. */
  datatype Array = Flat(items: seq<real>) | Table(cols: nat, rows: seq<seq<real>>)

  predicate Rectangular(a: Array)
  {
    a.Table? ==> forall t :: 0 <= t < |a.rows| ==> |a.rows[t]| == a.cols
  }

  type NdArray = a: Array | Rectangular(a) witness Flat([])

  /** `len(a)`: the extent of the first axis. */
  function Length(a: Array): nat
  {
    match a
    case Flat(items) => |items|
    case Table(_, rows) => |rows|
  }

  /** The entries along the first axis, one-element rows for a
      one-dimensional array; concatenation along the first axis appends
      them. */
  function Entries(a: Array): (e: seq<seq<real>>)
    ensures |e| == Length(a)
  {
    match a
    case Flat(items) => seq(|items|, t requires 0 <= t < |items| => [items[t]])
    case Table(_, rows) => rows
  }

  lemma EntriesOfFlat(x: seq<real>, y: seq<real>)
    ensures Entries(Flat(x + y)) == Entries(Flat(x)) + Entries(Flat(y))
  {
  }

  // numpy's messages, abbreviated to the word that tells them apart
  const DimensionMismatch := "ndim"
  const ShapeMismatch := "shape"
  const CannotReshape := "reshape"
  const TooManyIndices := "indices"
  const OutOfBounds := "bounds"

  /** `np.concatenate((a, b))` along the first axis, and `np.r_[a, b]`:
      arrays of one dimension are joined, tables of equal width are
      stacked, anything else raises ValueError. */
  function Concatenate(a: NdArray, b: NdArray): (r: Result<NdArray>)
    ensures r.Ok? <==> (a.Flat? && b.Flat?) || (a.Table? && b.Table? && a.cols == b.cols)
    ensures r.Err? ==> r.error.ValueError?
    ensures r.Ok? ==> r.value.Flat? == a.Flat?
  {
    match (a, b)
    case (Flat(x), Flat(y)) => Ok(Flat(x + y))
    case (Table(c, x), Table(d, y)) =>
      if c == d then Ok(Table(c, x + y)) else Err(ValueError(ShapeMismatch))
    case _ => Err(ValueError(DimensionMismatch))
  }

  /** `a.reshape(0, cols)` of a one-dimensional array: only an empty array
      has the zero entries that shape holds. */
  function ReshapeEmpty(a: NdArray, cols: nat): (r: Result<NdArray>)
    requires a.Flat?
    ensures r.Ok? <==> |a.items| == 0
    ensures r.Ok? ==> r.value == Table(cols, [])
  {
    if |a.items| == 0 then Ok(Table(cols, [])) else Err(ValueError(CannotReshape))
  }

  /** `_concatenate_enable_empty` (mesh_illustris/core.py:412-422): a
      one-dimensional side paired with a table is reshaped to an empty
      table of the same width first. */
  function ConcatenateEnableEmpty(a: NdArray, b: NdArray): (r: Result<NdArray>)
    ensures a.Flat? && b.Table? ==> (r.Ok? <==> |a.items| == 0) && (r.Ok? ==> r.value == b)
    ensures a.Table? && b.Flat? ==> (r.Ok? <==> |b.items| == 0) && (r.Ok? ==> r.value == a)
    ensures a.Flat? == b.Flat? ==> r == Concatenate(a, b)
  {
    if a.Flat? && b.Table? then
      var empty :- ReshapeEmpty(a, b.cols);
      assert b.rows == [] + b.rows;
      Concatenate(empty, b)
    else if a.Table? && b.Flat? then
      var empty :- ReshapeEmpty(b, a.cols);
      assert a.rows == a.rows + [];
      Concatenate(a, empty)
    else
      Concatenate(a, b)
  }

  /** Whenever plain concatenation succeeds the empty-aware one gives the
      same array; it succeeds besides only where one side is an empty
      one-dimensional array. */
  lemma EnableEmptyExtends(a: NdArray, b: NdArray)
    ensures Concatenate(a, b).Ok? ==> ConcatenateEnableEmpty(a, b) == Concatenate(a, b)
    ensures ConcatenateEnableEmpty(a, b).Ok? && Concatenate(a, b).Err? ==>
              (a.Flat? && |a.items| == 0) || (b.Flat? && |b.items| == 0)
  {
  }

  /** Concatenation appends the entries of `b` to those of `a`. */
  lemma ConcatenateEntries(a: NdArray, b: NdArray)
    requires Concatenate(a, b).Ok?
    ensures Entries(Concatenate(a, b).value) == Entries(a) + Entries(b)
  {
    if a.Flat? {
      EntriesOfFlat(a.items, b.items);
    }
  }

  /** So does the empty-aware concatenation, an empty one-dimensional side
      having no entries. */
  lemma EnableEmptyEntries(a: NdArray, b: NdArray)
    requires ConcatenateEnableEmpty(a, b).Ok?
    ensures Entries(ConcatenateEnableEmpty(a, b).value) == Entries(a) + Entries(b)
  {
    if a.Flat? == b.Flat? {
      ConcatenateEntries(a, b);
    } else if a.Flat? {
      assert Entries(a) == [];
    } else {
      assert Entries(b) == [];
    }
  }

  /** The Python index `c` into `n` entries, counted from the end when
      negative. */
  function PyIndex(c: int, n: nat): (k: int)
    requires 0 <= c + n && c < n
    ensures 0 <= k < n && (k == c || k == c + n)
  {
    if c < 0 then c + n else c
  }

  /** `a[:]` for no selector, `a[:, c]` for a column `c`: a one-dimensional
      array has no second axis, and a column outside the table raises. */
  function Pick(a: NdArray, sel: Option<int>): (r: Result<NdArray>)
    ensures sel.None? ==> r == Ok(a)
    ensures sel.Some? ==> (r.Ok? <==> a.Table? && 0 <= sel.value + a.cols && sel.value < a.cols)
    ensures r.Err? ==> r.error.IndexError?
    ensures r.Ok? && sel.Some? ==>
              && r.value.Flat? && |r.value.items| == |a.rows|
              && forall t :: 0 <= t < |a.rows| ==> r.value.items[t] == a.rows[t][PyIndex(sel.value, a.cols)]
  {
    match sel
    case None => Ok(a)
    case Some(c) =>
      if a.Flat? then Err(IndexError(TooManyIndices))
      else if 0 <= c + a.cols && c < a.cols then
        var k := PyIndex(c, a.cols);
        Ok(Flat(seq(|a.rows|, t requires 0 <= t < |a.rows| => a.rows[t][k])))
      else Err(IndexError(OutOfBounds))
  }

  // ---------------------------------------------------------------------
  // Dispatch

  /** The per-chunk query a `_combine` call runs. */
  datatype Query = BoxQuery | BoxLazyQuery | SphereQuery

  const FuncMessage := "func must be either \"box\" or \"sphere\"!"

  /** The sequential dispatch of mesh_illustris/core.py:91-101 as written:
      the `box` branch is a separate `if`, so after running `box` the
      second chain reaches its `else` and raises. */
  function DispatchAsWritten(func: string): (r: Result<Query>)
    ensures r.Ok? <==> func in ["box_lazy", "sphere"]
    ensures r.Err? ==> r.error == ValueError(FuncMessage)
  {
    if func == "box_lazy" then Ok(BoxLazyQuery)
    else if func == "sphere" then Ok(SphereQuery)
    else Err(ValueError(FuncMessage))
  }

  /** The dispatch with `elif`, as the error message intends. */
  function Dispatch(func: string): (r: Result<Query>)
    ensures r.Ok? <==> func in ["box", "box_lazy", "sphere"]
    ensures r.Err? ==> r.error == ValueError(FuncMessage)
  {
    if func == "box" then Ok(BoxQuery)
    else if func == "box_lazy" then Ok(BoxLazyQuery)
    else if func == "sphere" then Ok(SphereQuery)
    else Err(ValueError(FuncMessage))
  }

  /** `Dataset.box` (`func == "box"`) raises as written and runs the box
      query once corrected. */
  lemma BoxAsWrittenRaises()
    ensures DispatchAsWritten("box") == Err(ValueError(FuncMessage))
    ensures Dispatch("box") == Ok(BoxQuery)
  {
  }

  /** Apart from "box", the two dispatches agree. */
  lemma DispatchAgrees(func: string)
    requires func != "box"
    ensures DispatchAsWritten(func) == Dispatch(func)
  {
  }

  /** The dispatch of oct_illustris/core.py:30-35: an unknown `func` leaves
      `r` unassigned, and the first read of it raises. */
  function OctDispatch(func: string): (r: Result<Query>)
    ensures r.Ok? <==> func in ["box", "sphere"]
    ensures r.Err? ==> r.error == UnboundLocal("r")
  {
    if func == "box" then Ok(BoxQuery)
    else if func == "sphere" then Ok(SphereQuery)
    else Err(UnboundLocal("r"))
  }

  // ---------------------------------------------------------------------
  // Arguments

  /** A `partType` or `fields` argument: one string or a list of them. */
  datatype Names = One(name: string) | Many(names: seq<string>)

  /** The list mesh_illustris iterates: a single string becomes a
      one-element list (mesh_illustris/core.py:71-76). */
  function AsList(n: Names): (l: seq<string>)
    ensures n.One? ==> l == [n.name]
    ensures n.Many? ==> l == n.names
  {
    match n
    case One(s) => [s]
    case Many(l) => l
  }

  /** What oct_illustris iterates: it never wraps a single string, so a
      loop over one runs over its characters. */
  function Iterated(n: Names): (l: seq<string>)
    ensures n.One? ==> |l| == |n.name| && forall i :: 0 <= i < |l| ==> l[i] == [n.name[i]]
    ensures n.Many? ==> l == n.names
  {
    match n
    case One(s) => seq(|s|, i requires 0 <= i < |s| => [s[i]])
    case Many(l) => l
  }

  /** `mdi is None or mdi[i] is None`, else `mdi[i]`; a list shorter than
      the fields raises. */
  function Selector(mdi: Option<seq<Option<int>>>, i: nat): (r: Result<Option<int>>)
    ensures r.Err? <==> mdi.Some? && i >= |mdi.value|
    ensures r.Ok? && mdi.Some? ==> r.value == mdi.value[i]
    ensures mdi.None? ==> r == Ok(None)
  {
    match mdi
    case None => Ok(None)
    case Some(m) => if i < |m| then Ok(m[i]) else Err(IndexError("list"))
  }

  // ---------------------------------------------------------------------
  // Merging, as values

  /** The package whose `_combine` runs: it decides the group key and the
      concatenation. */
  datatype Package = MeshPackage | OctPackage

  type Group = map<string, NdArray>
  type Chunk = map<string, Group>

  /** The key a particle type is stored under: the type as given for
      mesh_illustris, its `"PartType%d"` group for oct_illustris. */
  function TypeKey(pkg: Package, p: string): (r: Result<string>)
    ensures pkg == MeshPackage ==> r == Ok(p)
    ensures pkg == OctPackage ==> r == GroupName(TypeName(p))
  {
    if pkg == MeshPackage then Ok(p) else GroupName(TypeName(p))
  }

  /** The key of every requested type, in order. */
  function Keys(pkg: Package, types: seq<string>): (ks: seq<Result<string>>)
    ensures |ks| == |types| && forall t :: 0 <= t < |types| ==> ks[t] == TypeKey(pkg, types[t])
  {
    seq(|types|, t requires 0 <= t < |types| => TypeKey(pkg, types[t]))
  }

  /** The concatenation each package merges with. */
  function Join(pkg: Package, a: NdArray, b: NdArray): Result<NdArray>
  {
    if pkg == MeshPackage then ConcatenateEnableEmpty(a, b) else Concatenate(a, b)
  }

  /** Either package's join appends entries. */
  lemma JoinEntries(pkg: Package, a: NdArray, b: NdArray)
    requires Join(pkg, a, b).Ok?
    ensures Entries(Join(pkg, a, b).value) == Entries(a) + Entries(b)
  {
    if pkg == MeshPackage {
      EnableEmptyEntries(a, b);
    } else {
      ConcatenateEntries(a, b);
    }
  }

  /** `result[p][field] = concat(result[p][field], r[p][field][sel])`, its
      operands read left to right. */
  function MergeField(pkg: Package, acc: Chunk, r: Chunk, key: string, field: string, sel: Option<int>): Result<Chunk>
  {
    if key !in acc then Err(KeyError(key))
    else if field !in acc[key] then Err(KeyError(field))
    else if key !in r then Err(KeyError(key))
    else if field !in r[key] then Err(KeyError(field))
    else
      var part :- Pick(r[key][field], sel);
      var joined: NdArray :- Join(pkg, acc[key][field], part);
      var group: Group := acc[key][field := joined];
      Ok(acc[key := group])
  }

  /** The first `n` fields of one type merged. */
  function MergeFields(pkg: Package, acc: Chunk, r: Chunk, key: string, fields: seq<string>,
                          mdi: Option<seq<Option<int>>>, n: nat): Result<Chunk>
    requires n <= |fields|
  {
    if n == 0 then Ok(acc)
    else
      var prev :- MergeFields(pkg, acc, r, key, fields, mdi, n - 1);
      var sel :- Selector(mdi, n - 1);
      MergeField(pkg, prev, r, key, fields[n - 1], sel)
  }

  /** The first `m` types of one chunk merged, `keys` holding their keys. */
  function MergeTypes(pkg: Package, acc: Chunk, r: Chunk, keys: seq<Result<string>>, fields: seq<string>,
                         mdi: Option<seq<Option<int>>>, m: nat): Result<Chunk>
    requires m <= |keys|
  {
    if m == 0 then Ok(acc)
    else
      var prev :- MergeTypes(pkg, acc, r, keys, fields, mdi, m - 1);
      var key :- keys[m - 1];
      MergeFields(pkg, prev, r, key, fields, mdi, |fields|)
  }

  /** The first `n` chunk results merged; chunk 0 is the accumulator. */
  function MergeChunks(pkg: Package, results: seq<Chunk>, keys: seq<Result<string>>, fields: seq<string>,
                          mdi: Option<seq<Option<int>>>, n: nat): Result<Chunk>
    requires 1 <= n <= |results|
  {
    if n == 1 then Ok(results[0])
    else
      var prev :- MergeChunks(pkg, results, keys, fields, mdi, n - 1);
      MergeTypes(pkg, prev, results[n - 1], keys, fields, mdi, |keys|)
  }

  /** What mesh_illustris `_combine` returns for the chunk results
      `results` of a sequential run: no chunks leave `result` unassigned. */
  function MeshCombined(func: string, results: seq<Chunk>, partType: Names, fields: Names,
                           mdi: Option<seq<Option<int>>>): Result<Chunk>
  {
    if |results| == 0 then Err(UnboundLocal("result"))
    else
      var _ :- DispatchAsWritten(func);
      MergeChunks(MeshPackage, results, Keys(MeshPackage, AsList(partType)), AsList(fields), mdi, |results|)
  }

  /** What oct_illustris `_combine` returns for the chunk results
      `results`. */
  function OctCombined(func: string, results: seq<Chunk>, partType: Names, fields: Names,
                          mdi: Option<seq<Option<int>>>): Result<Chunk>
  {
    if |results| == 0 then Err(UnboundLocal("result"))
    else
      var _ :- OctDispatch(func);
      MergeChunks(OctPackage, results, Keys(OctPackage, Iterated(partType)), Iterated(fields), mdi, |results|)
  }

  // ---------------------------------------------------------------------
  // Errors stop the loops

  lemma {:induction false} FieldsErrorSticks(pkg: Package, acc: Chunk, r: Chunk, key: string, fields: seq<string>,
                                                mdi: Option<seq<Option<int>>>, n: nat, e: Error)
    requires n <= |fields| && MergeFields(pkg, acc, r, key, fields, mdi, n) == Err(e)
    ensures MergeFields(pkg, acc, r, key, fields, mdi, |fields|) == Err(e)
    decreases |fields| - n
  {
    if n < |fields| {
      FieldsErrorSticks(pkg, acc, r, key, fields, mdi, n + 1, e);
    }
  }

  lemma {:induction false} TypesErrorSticks(pkg: Package, acc: Chunk, r: Chunk, keys: seq<Result<string>>, fields: seq<string>,
                                               mdi: Option<seq<Option<int>>>, m: nat, e: Error)
    requires m <= |keys| && MergeTypes(pkg, acc, r, keys, fields, mdi, m) == Err(e)
    ensures MergeTypes(pkg, acc, r, keys, fields, mdi, |keys|) == Err(e)
    decreases |keys| - m
  {
    if m < |keys| {
      TypesErrorSticks(pkg, acc, r, keys, fields, mdi, m + 1, e);
    }
  }

  lemma {:induction false} ChunksErrorSticks(pkg: Package, results: seq<Chunk>, keys: seq<Result<string>>, fields: seq<string>,
                                                mdi: Option<seq<Option<int>>>, n: nat, e: Error)
    requires 1 <= n <= |results| && MergeChunks(pkg, results, keys, fields, mdi, n) == Err(e)
    ensures MergeChunks(pkg, results, keys, fields, mdi, |results|) == Err(e)
    decreases |results| - n
  {
    if n < |results| {
      ChunksErrorSticks(pkg, results, keys, fields, mdi, n + 1, e);
    }
  }

  lemma FieldsStep(pkg: Package, acc: Chunk, r: Chunk, key: string, fields: seq<string>,
                      mdi: Option<seq<Option<int>>>, i: nat, result: Chunk)
    requires i < |fields| && MergeFields(pkg, acc, r, key, fields, mdi, i) == Ok(result)
    ensures Selector(mdi, i).Err? ==> MergeFields(pkg, acc, r, key, fields, mdi, i + 1) == Err(Selector(mdi, i).error)
    ensures Selector(mdi, i).Ok? ==>
              MergeFields(pkg, acc, r, key, fields, mdi, i + 1) == MergeField(pkg, result, r, key, fields[i], Selector(mdi, i).value)
  {
  }

  lemma TypesStep(pkg: Package, acc: Chunk, r: Chunk, keys: seq<Result<string>>, fields: seq<string>,
                     mdi: Option<seq<Option<int>>>, t: nat, result: Chunk)
    requires t < |keys| && MergeTypes(pkg, acc, r, keys, fields, mdi, t) == Ok(result)
    ensures keys[t].Err? ==> MergeTypes(pkg, acc, r, keys, fields, mdi, t + 1) == Err(keys[t].error)
    ensures keys[t].Ok? ==>
              MergeTypes(pkg, acc, r, keys, fields, mdi, t + 1) == MergeFields(pkg, result, r, keys[t].value, fields, mdi, |fields|)
  {
  }

  lemma ChunksStep(pkg: Package, results: seq<Chunk>, keys: seq<Result<string>>, fields: seq<string>,
                      mdi: Option<seq<Option<int>>>, j: nat, result: Chunk)
    requires 1 <= j < |results| && MergeChunks(pkg, results, keys, fields, mdi, j) == Ok(result)
    ensures MergeChunks(pkg, results, keys, fields, mdi, j + 1) == MergeTypes(pkg, result, results[j], keys, fields, mdi, |keys|)
  {
  }

  // ---------------------------------------------------------------------
  // What a merge computes

  /** `out[key][field]` is `acc[key][field]` joined with the picked
      `r[key][field]`. */
  ghost predicate Appended(pkg: Package, acc: Chunk, out: Chunk, r: Chunk, key: string, field: string, sel: Option<int>)
  {
    && key in acc && field in acc[key] && key in out && field in out[key]
    && key in r && field in r[key] && Pick(r[key][field], sel).Ok?
    && Join(pkg, acc[key][field], Pick(r[key][field], sel).value) == Ok(out[key][field])
  }

  /** The group `k` is the same in `acc` and `out`. */
  ghost predicate Unchanged(acc: Chunk, out: Chunk, k: string)
  {
    (k in out <==> k in acc) && (k in acc ==> out[k] == acc[k])
  }

  /** The array `f` of group `key` is the same in `acc` and `out`. */
  ghost predicate FieldUnchanged(acc: Chunk, out: Chunk, key: string, f: string)
  {
    key in acc && key in out && (f in out[key] <==> f in acc[key]) && (f in acc[key] ==> out[key][f] == acc[key][f])
  }

  predicate DistinctNames(names: seq<string>)
  {
    forall p, q :: 0 <= p < q < |names| ==> names[p] != names[q]
  }

  /** Every type has a key, and no two keys share one. */
  predicate DistinctKeys(keys: seq<Result<string>>)
  {
    && (forall t :: 0 <= t < |keys| ==> keys[t].Ok?)
    && (forall p, q :: 0 <= p < q < |keys| ==> keys[p].value != keys[q].value)
  }

  /** One field merged: `acc[key][field]` is appended to. */
  lemma MergeFieldAppends(pkg: Package, acc: Chunk, r: Chunk, key: string, field: string, sel: Option<int>, out: Chunk)
    requires MergeField(pkg, acc, r, key, field, sel) == Ok(out)
    ensures Appended(pkg, acc, out, r, key, field, sel)
  {
  }

  /** One field merged: every other group is left alone. */
  lemma MergeFieldOther(pkg: Package, acc: Chunk, r: Chunk, key: string, field: string, sel: Option<int>, out: Chunk, k: string)
    requires MergeField(pkg, acc, r, key, field, sel) == Ok(out) && k != key
    ensures Unchanged(acc, out, k)
  {
  }

  /** One field merged: every other field of its group is left alone. */
  lemma MergeFieldOtherField(pkg: Package, acc: Chunk, r: Chunk, key: string, field: string, sel: Option<int>, out: Chunk, f: string)
    requires MergeField(pkg, acc, r, key, field, sel) == Ok(out) && f != field
    ensures FieldUnchanged(acc, out, key, f)
  {
  }

  /** A successful merge of `n > 0` fields is one of `n - 1` fields
      followed by field `n - 1`. */
  lemma FieldsUnfold(pkg: Package, acc: Chunk, r: Chunk, key: string, fields: seq<string>,
                        mdi: Option<seq<Option<int>>>, n: nat, out: Chunk) returns (prev: Chunk, sel: Option<int>)
    requires 0 < n <= |fields| && MergeFields(pkg, acc, r, key, fields, mdi, n) == Ok(out)
    ensures MergeFields(pkg, acc, r, key, fields, mdi, n - 1) == Ok(prev)
    ensures Selector(mdi, n - 1) == Ok(sel)
    ensures MergeField(pkg, prev, r, key, fields[n - 1], sel) == Ok(out)
  {
    prev := MergeFields(pkg, acc, r, key, fields, mdi, n - 1).value;
    sel := Selector(mdi, n - 1).value;
  }

  /** `f` is none of the first `n` names. */
  predicate NotAmong(f: string, names: seq<string>, n: nat)
    requires n <= |names|
  {
    forall i :: 0 <= i < n ==> names[i] != f
  }

  /** Merging fields of group `key` leaves every other group alone. */
  lemma {:induction false} MergeFieldsOther(pkg: Package, acc: Chunk, r: Chunk, key: string, fields: seq<string>,
                                            mdi: Option<seq<Option<int>>>, n: nat, out: Chunk, k: string)
    requires n <= |fields| && MergeFields(pkg, acc, r, key, fields, mdi, n) == Ok(out) && k != key
    ensures Unchanged(acc, out, k)
  {
    if n > 0 {
      var prev, sel := FieldsUnfold(pkg, acc, r, key, fields, mdi, n, out);
      MergeFieldsOther(pkg, acc, r, key, fields, mdi, n - 1, prev, k);
      MergeFieldOther(pkg, prev, r, key, fields[n - 1], sel, out, k);
    }
  }

  /** Merging the first `n > 0` fields of group `key` leaves its other
      fields alone. */
  lemma {:induction false} MergeFieldsKeep(pkg: Package, acc: Chunk, r: Chunk, key: string, fields: seq<string>,
                                           mdi: Option<seq<Option<int>>>, n: nat, out: Chunk, f: string)
    requires 0 < n <= |fields| && MergeFields(pkg, acc, r, key, fields, mdi, n) == Ok(out)
    requires NotAmong(f, fields, n)
    ensures FieldUnchanged(acc, out, key, f)
  {
    var prev, sel := FieldsUnfold(pkg, acc, r, key, fields, mdi, n, out);
    MergeFieldOtherField(pkg, prev, r, key, fields[n - 1], sel, out, f);
    if n > 1 {
      MergeFieldsKeep(pkg, acc, r, key, fields, mdi, n - 1, prev, f);
    }
  }

  /** The first `n` fields of group `key` merged, the fields distinct:
      each of them is appended to. */
  lemma {:induction false} MergeFieldsAppend(pkg: Package, acc: Chunk, r: Chunk, key: string, fields: seq<string>,
                                             mdi: Option<seq<Option<int>>>, n: nat, out: Chunk, i: nat)
    requires i < n <= |fields| && DistinctNames(fields)
    requires MergeFields(pkg, acc, r, key, fields, mdi, n) == Ok(out)
    ensures Selector(mdi, i).Ok? && Appended(pkg, acc, out, r, key, fields[i], Selector(mdi, i).value)
  {
    var prev, sel := FieldsUnfold(pkg, acc, r, key, fields, mdi, n, out);
    if i < n - 1 {
      MergeFieldsAppend(pkg, acc, r, key, fields, mdi, n - 1, prev, i);
      MergeFieldOtherField(pkg, prev, r, key, fields[n - 1], sel, out, fields[i]);
    } else {
      MergeFieldAppends(pkg, prev, r, key, fields[n - 1], sel, out);
      if n > 1 {
        MergeFieldsKeep(pkg, acc, r, key, fields, mdi, n - 1, prev, fields[i]);
      }
    }
  }

  /** A successful merge of `m > 0` types is one of `m - 1` types followed
      by the fields of type `m - 1`. */
  lemma TypesUnfold(pkg: Package, acc: Chunk, r: Chunk, keys: seq<Result<string>>, fields: seq<string>,
                       mdi: Option<seq<Option<int>>>, m: nat, out: Chunk) returns (prev: Chunk, key: string)
    requires 0 < m <= |keys| && MergeTypes(pkg, acc, r, keys, fields, mdi, m) == Ok(out)
    ensures MergeTypes(pkg, acc, r, keys, fields, mdi, m - 1) == Ok(prev)
    ensures keys[m - 1] == Ok(key)
    ensures MergeFields(pkg, prev, r, key, fields, mdi, |fields|) == Ok(out)
  {
    prev := MergeTypes(pkg, acc, r, keys, fields, mdi, m - 1).value;
    key := keys[m - 1].value;
  }

  /** `k` is the key of none of the first `m` types. */
  predicate KeyNotAmong(k: string, keys: seq<Result<string>>, m: nat)
    requires m <= |keys|
  {
    forall t :: 0 <= t < m ==> keys[t] != Ok(k)
  }

  /** Merging the first `m` types leaves every group they do not name
      alone. */
  lemma {:induction false} MergeTypesOther(pkg: Package, acc: Chunk, r: Chunk, keys: seq<Result<string>>, fields: seq<string>,
                                           mdi: Option<seq<Option<int>>>, m: nat, out: Chunk, k: string)
    requires m <= |keys| && MergeTypes(pkg, acc, r, keys, fields, mdi, m) == Ok(out)
    requires KeyNotAmong(k, keys, m)
    ensures Unchanged(acc, out, k)
  {
    if m > 0 {
      var prev, key := TypesUnfold(pkg, acc, r, keys, fields, mdi, m, out);
      MergeTypesOther(pkg, acc, r, keys, fields, mdi, m - 1, prev, k);
      MergeFieldsOther(pkg, prev, r, key, fields, mdi, |fields|, out, k);
    }
  }

  /** The first `m` types of chunk `r` merged, keys and fields distinct:
      every requested array of each of them is appended to once. */
  lemma {:induction false} MergeTypesAppend(pkg: Package, acc: Chunk, r: Chunk, keys: seq<Result<string>>, fields: seq<string>,
                                            mdi: Option<seq<Option<int>>>, m: nat, out: Chunk, t: nat, i: nat)
    requires t < m <= |keys| && i < |fields| && DistinctKeys(keys) && DistinctNames(fields)
    requires MergeTypes(pkg, acc, r, keys, fields, mdi, m) == Ok(out)
    ensures Selector(mdi, i).Ok? && Appended(pkg, acc, out, r, keys[t].value, fields[i], Selector(mdi, i).value)
  {
    if t < m - 1 {
      var prev, key := TypesUnfold(pkg, acc, r, keys, fields, mdi, m, out);
      MergeTypesAppend(pkg, acc, r, keys, fields, mdi, m - 1, prev, t, i);
      MergeFieldsOther(pkg, prev, r, key, fields, mdi, |fields|, out, keys[t].value);
    } else {
      MergeLastType(pkg, acc, r, keys, fields, mdi, m, out, i);
    }
  }

  /** The case of `MergeTypesAppend` for the last type merged. */
  lemma MergeLastType(pkg: Package, acc: Chunk, r: Chunk, keys: seq<Result<string>>, fields: seq<string>,
                         mdi: Option<seq<Option<int>>>, m: nat, out: Chunk, i: nat)
    requires 0 < m <= |keys| && i < |fields| && DistinctKeys(keys) && DistinctNames(fields)
    requires MergeTypes(pkg, acc, r, keys, fields, mdi, m) == Ok(out)
    ensures Selector(mdi, i).Ok? && Appended(pkg, acc, out, r, keys[m - 1].value, fields[i], Selector(mdi, i).value)
  {
    var prev, key := TypesUnfold(pkg, acc, r, keys, fields, mdi, m, out);
    MergeFieldsAppend(pkg, prev, r, key, fields, mdi, |fields|, out, i);
    MergeTypesOther(pkg, acc, r, keys, fields, mdi, m - 1, prev, key);
  }

  /** The entries a later chunk `c` adds to the array `field` of group
      `key`. */
  function Part(c: Chunk, key: string, field: string, sel: Option<int>): seq<seq<real>>
  {
    if key in c && field in c[key] && Pick(c[key][field], sel).Ok? then Entries(Pick(c[key][field], sel).value) else []
  }

  /** The entries chunks `1 .. n - 1` add, in chunk order. */
  function Gathered(results: seq<Chunk>, key: string, field: string, sel: Option<int>, n: nat): seq<seq<real>>
    requires n <= |results|
  {
    if n <= 1 then [] else Gathered(results, key, field, sel, n - 1) + Part(results[n - 1], key, field, sel)
  }

  /** A successful merge of `n > 1` chunks is one of `n - 1` chunks
      followed by chunk `n - 1`. */
  lemma ChunksUnfold(pkg: Package, results: seq<Chunk>, keys: seq<Result<string>>, fields: seq<string>,
                        mdi: Option<seq<Option<int>>>, n: nat, out: Chunk) returns (prev: Chunk)
    requires 1 < n <= |results| && MergeChunks(pkg, results, keys, fields, mdi, n) == Ok(out)
    ensures MergeChunks(pkg, results, keys, fields, mdi, n - 1) == Ok(prev)
    ensures MergeTypes(pkg, prev, results[n - 1], keys, fields, mdi, |keys|) == Ok(out)
  {
    prev := MergeChunks(pkg, results, keys, fields, mdi, n - 1).value;
  }

  /** What a successful merge of `n > 1` chunks holds, keys and fields
      distinct: every requested array is chunk 0's array followed by the
      picked entries of every later chunk, in chunk order. */
  lemma {:induction false} MergeChunksGathers(pkg: Package, results: seq<Chunk>, keys: seq<Result<string>>, fields: seq<string>,
                                              mdi: Option<seq<Option<int>>>, n: nat, out: Chunk, t: nat, i: nat)
    requires 1 < n <= |results| && MergeChunks(pkg, results, keys, fields, mdi, n) == Ok(out)
    requires t < |keys| && i < |fields| && DistinctKeys(keys) && DistinctNames(fields)
    ensures Selector(mdi, i).Ok?
    ensures var key, field := keys[t].value, fields[i];
            && key in results[0] && field in results[0][key] && key in out && field in out[key]
            && Entries(out[key][field]) == Entries(results[0][key][field]) + Gathered(results, key, field, Selector(mdi, i).value, n)
  {
    var key, field := keys[t].value, fields[i];
    var prev := ChunksUnfold(pkg, results, keys, fields, mdi, n, out);
    MergeTypesAppend(pkg, prev, results[n - 1], keys, fields, mdi, |keys|, out, t, i);
    var sel := Selector(mdi, i).value;
    var part := Pick(results[n - 1][key][field], sel).value;
    JoinEntries(pkg, prev[key][field], part);
    assert Part(results[n - 1], key, field, sel) == Entries(part);
    if n > 2 {
      MergeChunksGathers(pkg, results, keys, fields, mdi, n - 1, prev, t, i);
      Regroup(Entries(results[0][key][field]), Gathered(results, key, field, sel, n - 1), Entries(part));
    }
  }

  /** mesh_illustris keys a type by its own name. */
  lemma MeshKeysDistinct(types: seq<string>)
    requires DistinctNames(types)
    ensures DistinctKeys(Keys(MeshPackage, types))
  {
  }

  /** mesh_illustris: a merged result of two or more chunks holds, for
      every requested type and field, chunk 0's array followed by the
      picked part of every later chunk's, in chunk order. */
  lemma MeshCombinedGathers(func: string, results: seq<Chunk>, partType: Names, fields: Names,
                               mdi: Option<seq<Option<int>>>, out: Chunk, t: nat, i: nat)
    requires MeshCombined(func, results, partType, fields, mdi) == Ok(out) && |results| > 1
    requires DistinctNames(AsList(partType)) && DistinctNames(AsList(fields))
    requires t < |AsList(partType)| && i < |AsList(fields)|
    ensures func in ["box_lazy", "sphere"] && Selector(mdi, i).Ok?
    ensures var key, field := AsList(partType)[t], AsList(fields)[i];
            && key in results[0] && field in results[0][key] && key in out && field in out[key]
            && Entries(out[key][field]) == Entries(results[0][key][field]) + Gathered(results, key, field, Selector(mdi, i).value, |results|)
  {
    var keys := Keys(MeshPackage, AsList(partType));
    MeshKeysDistinct(AsList(partType));
    MergeChunksGathers(MeshPackage, results, keys, AsList(fields), mdi, |results|, out, t, i);
  }

  /** oct_illustris: the same, the arrays stored under the types'
      `"PartType%d"` groups, which must differ. */
  lemma OctCombinedGathers(func: string, results: seq<Chunk>, partType: Names, fields: Names,
                              mdi: Option<seq<Option<int>>>, out: Chunk, t: nat, i: nat)
    requires OctCombined(func, results, partType, fields, mdi) == Ok(out) && |results| > 1
    requires DistinctKeys(Keys(OctPackage, Iterated(partType))) && DistinctNames(Iterated(fields))
    requires t < |Iterated(partType)| && i < |Iterated(fields)|
    ensures func in ["box", "sphere"] && Selector(mdi, i).Ok?
    ensures var key, field := GroupName(TypeName(Iterated(partType)[t])).value, Iterated(fields)[i];
            && key in results[0] && field in results[0][key] && key in out && field in out[key]
            && Entries(out[key][field]) == Entries(results[0][key][field]) + Gathered(results, key, field, Selector(mdi, i).value, |results|)
  {
    var keys := Keys(OctPackage, Iterated(partType));
    MergeChunksGathers(OctPackage, results, keys, Iterated(fields), mdi, |results|, out, t, i);
  }

  // ---------------------------------------------------------------------
  // The loops

  /** The loop over the fields of one type of a later chunk `r`
      (mesh_illustris/core.py:112-119, oct_illustris/core.py:46-53). */
  method MergeType(pkg: Package, acc: Chunk, r: Chunk, key: string, fields: seq<string>,
                      mdi: Option<seq<Option<int>>>) returns (out: Result<Chunk>)
    ensures out == MergeFields(pkg, acc, r, key, fields, mdi, |fields|)
  {
    var result := acc;
    var i: nat := 0;
    while i < |fields|
      invariant i <= |fields|
      invariant MergeFields(pkg, acc, r, key, fields, mdi, i) == Ok(result)
    {
      var next := MergeNextField(pkg, acc, r, key, fields, mdi, i, result);
      match next
      case Err(e) =>
        FieldsErrorSticks(pkg, acc, r, key, fields, mdi, i + 1, e);
        return next;
      case Ok(merged) =>
        result, i := merged, i + 1;
    }
    return Ok(result);
  }

  /** One pass of that loop: field `i` of `r[key]`, its column picked when
      `mdi` names one, joined behind `result[key][field]`. */
  method MergeNextField(pkg: Package, acc: Chunk, r: Chunk, key: string, fields: seq<string>,
                           mdi: Option<seq<Option<int>>>, i: nat, result: Chunk) returns (next: Result<Chunk>)
    requires i < |fields| && MergeFields(pkg, acc, r, key, fields, mdi, i) == Ok(result)
    ensures next == MergeFields(pkg, acc, r, key, fields, mdi, i + 1)
  {
    FieldsStep(pkg, acc, r, key, fields, mdi, i, result);
    var sel := Selector(mdi, i);
    if sel.Err? {
      return Err(sel.error);
    }
    next := MergeField(pkg, result, r, key, fields[i], sel.value);
  }

  /** The loop over the keys of one later chunk `r`
      (mesh_illustris/core.py:110-119, oct_illustris/core.py:41-53). */
  method MergeChunk(pkg: Package, acc: Chunk, r: Chunk, keys: seq<Result<string>>, fields: seq<string>,
                       mdi: Option<seq<Option<int>>>) returns (out: Result<Chunk>)
    ensures out == MergeTypes(pkg, acc, r, keys, fields, mdi, |keys|)
  {
    var result := acc;
    var t: nat := 0;
    while t < |keys|
      invariant t <= |keys|
      invariant MergeTypes(pkg, acc, r, keys, fields, mdi, t) == Ok(result)
    {
      TypesStep(pkg, acc, r, keys, fields, mdi, t, result);
      match keys[t]
      case Err(e) =>
        TypesErrorSticks(pkg, acc, r, keys, fields, mdi, t + 1, e);
        return Err(e);
      case Ok(key) =>
        var merged := MergeType(pkg, result, r, key, fields, mdi);
        match merged
        case Err(e) =>
          TypesErrorSticks(pkg, acc, r, keys, fields, mdi, t + 1, e);
          return merged;
        case Ok(next) =>
          result, t := next, t + 1;
    }
    return Ok(result);
  }

  /** The loop over chunk results: chunk 0 is the accumulator, every later
      one is merged behind it. */
  method MergeAll(pkg: Package, results: seq<Chunk>, keys: seq<Result<string>>, fields: seq<string>,
                     mdi: Option<seq<Option<int>>>) returns (out: Result<Chunk>)
    requires |results| > 0
    ensures out == MergeChunks(pkg, results, keys, fields, mdi, |results|)
  {
    var result := results[0];
    var j: nat := 1;
    while j < |results|
      invariant 1 <= j <= |results|
      invariant MergeChunks(pkg, results, keys, fields, mdi, j) == Ok(result)
    {
      ChunksStep(pkg, results, keys, fields, mdi, j, result);
      var next := MergeChunk(pkg, result, results[j], keys, fields, mdi);
      match next
      case Err(e) =>
        ChunksErrorSticks(pkg, results, keys, fields, mdi, j + 1, e);
        return next;
      case Ok(merged) =>
        result, j := merged, j + 1;
    }
    return Ok(result);
  }

  /** `Dataset._combine` of mesh_illustris, sequential run
      (mesh_illustris/core.py:50-121), given what each chunk's query
      returned. */
  method MeshCombine(func: string, results: seq<Chunk>, partType: Names, fields: Names,
                        mdi: Option<seq<Option<int>>>) returns (out: Result<Chunk>)
    ensures out == MeshCombined(func, results, partType, fields, mdi)
  {
    var keys, names := AsList(partType), AsList(fields);
    if |results| == 0 {
      return Err(UnboundLocal("result"));
    }
    var query := DispatchAsWritten(func);
    if query.Err? {
      return Err(query.error);
    }
    out := MergeAll(MeshPackage, results, Keys(MeshPackage, keys), names, mdi);
  }

  /** `dataset._combine` of oct_illustris (oct_illustris/core.py:28-55),
      given what each chunk's query returned. */
  method OctCombine(func: string, results: seq<Chunk>, partType: Names, fields: Names,
                       mdi: Option<seq<Option<int>>>) returns (out: Result<Chunk>)
    ensures out == OctCombined(func, results, partType, fields, mdi)
  {
    if |results| == 0 {
      return Err(UnboundLocal("result"));
    }
    var query := OctDispatch(func);
    if query.Err? {
      return Err(query.error);
    }
    out := MergeAll(OctPackage, results, Keys(OctPackage, Iterated(partType)), Iterated(fields), mdi);
  }
}
