/** The name of the file a chunk's index is stored in
    (mesh_illustris/core.py:189-194, oct_illustris/core.py:86-91): the data
    file's name, or `index_path` followed by the data file's name from its
    last slash on, then a suffix naming the depth (and, for
    oct_illustris, the particle-type mask). */
module IndexNames {
  import opened Wrappers
  import opened Text

  /** Python's truth value of `index_path`: `None` and `""` are false. */
  predicate Given(indexPath: Option<string>)
  {
    indexPath.Some? && indexPath.value != ""
  }

  /** `".idx_d%02d.h5" % depth` (mesh_illustris). */
  function MeshSuffix(depth: nat): string
  {
    ".idx_d" + FormatInt(depth, 2) + ".h5"
  }

  /** `".idx_d%02d_pt%02d.h5" % (depth, pt_idx)` (oct_illustris). */
  function OctSuffix(depth: nat, ptIdx: nat): string
  {
    ".idx_d" + FormatInt(depth, 2) + "_pt" + FormatInt(ptIdx, 2) + ".h5"
  }

  /** The name as written: `index_path + fn[fn.rfind("/"):] + suffix`, or
      `fn + suffix` without an index path. */
  function IndexFileFor(fn: string, indexPath: Option<string>, suffix: string): (name: string)
    ensures !Given(indexPath) ==> name == fn + suffix
    ensures Given(indexPath) && RFind(fn, '/') >= 0 ==>
              name == indexPath.value + fn[RFind(fn, '/')..] + suffix
    ensures Given(indexPath) && RFind(fn, '/') < 0 && |fn| > 0 ==>
              name == indexPath.value + [fn[|fn| - 1]] + suffix
  {
    if Given(indexPath) then indexPath.value + PyFrom(fn, RFind(fn, '/')) + suffix else fn + suffix
  }

  /** The data file's name after its last slash. */
  function BaseName(fn: string): (b: string)
    ensures '/' !in b && |b| <= |fn| && b == fn[|fn| - |b|..]
  {
    fn[RFind(fn, '/') + 1..]
  }

  /** The name with the slash kept and the base name whole: what the index
      path is for. */
  function IndexFileName(fn: string, indexPath: Option<string>, suffix: string): (name: string)
    ensures Given(indexPath) ==> name == indexPath.value + "/" + BaseName(fn) + suffix
    ensures !Given(indexPath) ==> name == IndexFileFor(fn, indexPath, suffix)
  {
    if Given(indexPath) then indexPath.value + "/" + BaseName(fn) + suffix else fn + suffix
  }

  /** Whenever the data file's name has a slash the two agree. */
  lemma IndexFileNameAgrees(fn: string, indexPath: Option<string>, suffix: string)
    requires '/' in fn
    ensures IndexFileName(fn, indexPath, suffix) == IndexFileFor(fn, indexPath, suffix)
  {
    var i :| 0 <= i < |fn| && fn[i] == '/';
    assert RFind(fn, '/') >= 0;
    var r := RFind(fn, '/');
    assert fn[r..] == "/" + fn[r + 1..];
  }

  /** As written, a data file's name without a slash keeps only its last
      character: "a5" and "b5" share an index file. */
  lemma BareNamesCollide()
    ensures IndexFileFor("a5", Some("/i"), ".h5") == IndexFileFor("b5", Some("/i"), ".h5")
  {
    assert RFind("a5", '/') == -1 by {
      assert "a5"[1] != '/' && "a5"[0] != '/';
    }
    assert RFind("b5", '/') == -1 by {
      assert "b5"[1] != '/' && "b5"[0] != '/';
    }
  }

  /** With the intended name, the data files under one index path whose base
      names differ have different index files. */
  lemma IndexFileNameSeparates(fn1: string, fn2: string, path: string, suffix: string)
    requires path != ""
    ensures IndexFileName(fn1, Some(path), suffix) == IndexFileName(fn2, Some(path), suffix) <==>
              BaseName(fn1) == BaseName(fn2)
  {
    var b1, b2 := BaseName(fn1), BaseName(fn2);
    if IndexFileName(fn1, Some(path), suffix) == IndexFileName(fn2, Some(path), suffix) {
      Assoc(path + "/", b1, suffix);
      Assoc(path + "/", b2, suffix);
      CancelPrefix(path + "/", b1 + suffix, b2 + suffix);
      assert b1 == (b1 + suffix)[..|b1 + suffix| - |suffix|];
      assert b2 == (b2 + suffix)[..|b2 + suffix| - |suffix|];
    }
  }

  /** Different suffixes give different index files for the same data file
      and index path. */
  lemma SuffixSeparates(fn: string, indexPath: Option<string>, s1: string, s2: string)
    ensures IndexFileFor(fn, indexPath, s1) == IndexFileFor(fn, indexPath, s2) <==> s1 == s2
  {
    var head := if Given(indexPath) then indexPath.value + PyFrom(fn, RFind(fn, '/')) else fn;
    if IndexFileFor(fn, indexPath, s1) == IndexFileFor(fn, indexPath, s2) {
      CancelPrefix(head, s1, s2);
    }
  }

  /** `%02d` of two different depths differ, so do the mesh suffixes. */
  lemma MeshSuffixInjective(d1: nat, d2: nat)
    ensures MeshSuffix(d1) == MeshSuffix(d2) <==> d1 == d2
  {
    if MeshSuffix(d1) == MeshSuffix(d2) {
      var a, b := FormatInt(d1, 2), FormatInt(d2, 2);
      Assoc(".idx_d", a, ".h5");
      Assoc(".idx_d", b, ".h5");
      CancelPrefix(".idx_d", a + ".h5", b + ".h5");
      DotSplit(a);
      DotSplit(b);
      DigitRunsMatch(a, b, "h5", "h5", '.');
      ParseFormatInt(d1, 2);
      ParseFormatInt(d2, 2);
    }
  }

  /** The oct suffix names the depth and the type mask both. */
  lemma OctSuffixInjective(d1: nat, p1: nat, d2: nat, p2: nat)
    ensures OctSuffix(d1, p1) == OctSuffix(d2, p2) <==> d1 == d2 && p1 == p2
  {
    if OctSuffix(d1, p1) == OctSuffix(d2, p2) {
      var a, b := FormatInt(d1, 2), FormatInt(d2, 2);
      var x, y := FormatInt(p1, 2), FormatInt(p2, 2);
      OctSuffixSplit(a, x);
      OctSuffixSplit(b, y);
      CancelPrefix(".idx_d", a + ['_'] + ("pt" + x + ".h5"), b + ['_'] + ("pt" + y + ".h5"));
      DigitRunsMatch(a, b, "pt" + x + ".h5", "pt" + y + ".h5", '_');
      Assoc("pt", x, ".h5");
      Assoc("pt", y, ".h5");
      CancelPrefix("pt", x + ".h5", y + ".h5");
      DotSplit(x);
      DotSplit(y);
      DigitRunsMatch(x, y, "h5", "h5", '.');
      ParseFormatInt(d1, 2);
      ParseFormatInt(d2, 2);
      ParseFormatInt(p1, 2);
      ParseFormatInt(p2, 2);
    }
  }

  lemma OctSuffixSplit(a: string, x: string)
    ensures ".idx_d" + a + "_pt" + x + ".h5" == ".idx_d" + (a + ['_'] + ("pt" + x + ".h5"))
  {
    assert "_pt" == ['_'] + "pt";
  }

  lemma DotSplit(a: string)
    ensures a + ".h5" == a + ['.'] + "h5"
  {
    assert ".h5" == ['.'] + "h5";
    Assoc(a, ['.'], "h5");
  }

  /** The default depth 8 gives `.idx_d08.h5`. */
  lemma MeshSuffixDefault()
    ensures MeshSuffix(8) == ".idx_d" + "08" + ".h5"
  {
    assert Decimal(8) == "8";
    assert ZeroPad("8", 2) == "08";
  }
}
