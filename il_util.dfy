/** The snapshot helpers of oct_illustris/il_util.py: particle-type names,
    snapshot file paths and the 64-bit particle counts of a snapshot header.
    `loadFile` reads HDF5 and is not part of this model. */
module IlUtil {
  import opened Wrappers
  import opened Bits
  import opened Text
  import opened Widths

  // ---------------------------------------------------------------------
  // partTypeNum

  /** What callers pass as a particle type: a Python int or a string. */
  datatype PartType = TypeNumber(n: int) | TypeName(name: string)

  /** `str(partType)`. */
  function Str(p: PartType): string
  {
    match p
    case TypeNumber(n) => FormatInt(n, 0)
    case TypeName(name) => name
  }

  /** The message `partTypeNum` raises with. */
  const UnknownType := "Unknown particle type name."

  /** `partTypeNum` (il_util.py:58-76): a digit string (or a non-negative
      int) is read as the type number; otherwise the lower-cased name is
      looked up in five lists; anything else raises a bare `Exception`. */
  function PartTypeNum(p: PartType): (r: Result<int>)
    ensures IsDigitString(Str(p)) ==> r == Ok(ParseDecimal(Str(p)))
    ensures !IsDigitString(Str(p)) && r.Ok? ==> r.value in {0, 1, 3, 4, 5}
    ensures r.Err? <==> !IsDigitString(Str(p)) && !KnownName(ToLower(Str(p)))
    ensures r.Err? ==> r.error == UnknownName(UnknownType)
  {
    var s := Str(p);
    if IsDigitString(s) then Ok(ParseDecimal(s))
    else
      var l := ToLower(s);
      if l in ["gas", "cells"] then Ok(0)
      else if l in ["dm", "darkmatter"] then Ok(1)
      else if l in ["tracer", "tracers", "tracermc", "trmc"] then Ok(3)
      else if l in ["star", "stars", "stellar"] then Ok(4)
      else if l in ["wind"] then Ok(4)
      else if l in ["bh", "bhs", "blackhole", "blackholes"] then Ok(5)
      else Err(UnknownName(UnknownType))
  }

  /** The lower-case names `partTypeNum` knows. */
  predicate KnownName(l: string)
  {
    l in ["gas", "cells", "dm", "darkmatter", "tracer", "tracers", "tracermc", "trmc",
          "star", "stars", "stellar", "wind", "bh", "bhs", "blackhole", "blackholes"]
  }

  /** A non-negative number, as an int or as its decimal string, names
      itself. */
  lemma PartTypeNumber(n: nat)
    ensures PartTypeNum(TypeNumber(n)) == Ok(n)
    ensures PartTypeNum(TypeName(Decimal(n))) == Ok(n)
  {
    ParseFormatInt(n, 0);
    ParseDecimalOfDecimal(n);
  }

  /** A negative int is not a digit string and no name: it raises. */
  lemma PartTypeNegative(n: int)
    requires n < 0
    ensures PartTypeNum(TypeNumber(n)) == Err(UnknownName(UnknownType))
  {
    var s := Str(TypeNumber(n));
    assert s == "-" + ZeroPad(Decimal(-n), 0);
    assert s[0] == '-';
    DashNoName(s);
  }

  /** No name starts with a minus sign. */
  lemma DashNoName(s: string)
    requires |s| > 0 && s[0] == '-'
    ensures !IsDigitString(s) && !KnownName(ToLower(s))
  {
    assert !IsDigit(s[0]);
    assert ToLower(s)[0] == '-';
  }

  /** Names are matched without regard to case. */
  lemma PartTypeNameCase(name: string)
    ensures PartTypeNum(TypeName(name)) == PartTypeNum(TypeName(ToLower(name)))
  {
    ToLowerIdempotent(name);
    LowerKeepsDigits(name);
  }

  /** Lower-casing neither makes nor unmakes a digit string. */
  lemma LowerKeepsDigits(s: string)
    ensures IsDigitString(ToLower(s)) <==> IsDigitString(s)
  {
    if IsDigitString(ToLower(s)) {
      forall i | 0 <= i < |s|
        ensures IsDigit(s[i])
      {
        assert IsDigit(ToLower(s)[i]);
      }
    }
  }

  /** The repository's test cases for numbers: the int 0 and the string
      "0" both name type 0. */
  lemma PartTypeZero()
    ensures PartTypeNum(TypeNumber(0)) == Ok(0)
    ensures PartTypeNum(TypeName("0")) == Ok(0)
  {
    PartTypeNumber(0);
    assert Decimal(0) == "0";
  }

  /** The repository's test cases for names: "stars" and "Stars" name type
      4. */
  lemma PartTypeStars()
    ensures PartTypeNum(TypeName("stars")) == Ok(4)
    ensures PartTypeNum(TypeName("Stars")) == Ok(4)
  {
    StarsIsStar();
    LowerStars();
    PartTypeNameCase("Stars");
  }

  lemma StarsIsStar()
    ensures PartTypeNum(TypeName("stars")) == Ok(4)
  {
    assert !IsDigit("stars"[0]);
    assert ToLower("stars") == "stars";
  }

  lemma LowerStars()
    ensures ToLower("Stars") == "stars"
  {
  }

  /** "ether" raises, and so does "PartType0", which is not one of the
      names. */
  lemma PartTypeUnknown()
    ensures PartTypeNum(TypeName("ether")) == Err(UnknownName(UnknownType))
    ensures PartTypeNum(TypeName("PartType0")) == Err(UnknownName(UnknownType))
  {
    EtherUnknown();
    PartType0Unknown();
  }

  lemma EtherUnknown()
    ensures PartTypeNum(TypeName("ether")) == Err(UnknownName(UnknownType))
  {
    assert !IsDigit("ether"[0]);
    assert ToLower("ether") == "ether";
  }

  lemma PartType0Unknown()
    ensures PartTypeNum(TypeName("PartType0")) == Err(UnknownName(UnknownType))
  {
    assert !IsDigit("PartType0"[0]);
    assert |ToLower("PartType0")| == 9;
  }

  /** The HDF5 group of a particle type, `"PartType%d" % partTypeNum(p)`
      (il_util.py:29-30, and the same expression throughout
      oct_illustris/core.py). */
  function GroupName(p: PartType): (r: Result<string>)
    ensures r.Ok? <==> PartTypeNum(p).Ok?
    ensures r.Err? ==> r.error == UnknownName(UnknownType)
    ensures r.Ok? ==> |r.value| > 8 && r.value[..8] == "PartType"
  {
    var n :- PartTypeNum(p);
    Ok("PartType" + FormatInt(n, 0))
  }

  /** Two types share a group exactly when they have the same number. */
  lemma GroupNameInjective(p1: PartType, p2: PartType)
    requires PartTypeNum(p1).Ok? && PartTypeNum(p2).Ok?
    ensures GroupName(p1) == GroupName(p2) <==> PartTypeNum(p1) == PartTypeNum(p2)
  {
    var n1, n2 := PartTypeNum(p1).value, PartTypeNum(p2).value;
    if GroupName(p1) == GroupName(p2) {
      CancelPrefix("PartType", FormatInt(n1, 0), FormatInt(n2, 0));
      ParseFormatInt(n1, 0);
      ParseFormatInt(n2, 0);
    }
  }

  // ---------------------------------------------------------------------
  // snapPath

  /** `snapPath` (il_util.py:78-82): the base path, the directory
      `"/snapdir_%03d/"` and the file name `"snap_%03d.%d.hdf5"`; `chunkNum`
      defaults to 0. */
  function SnapPath(basePath: string, snapNum: int, chunkNum: int := 0): (path: string)
    ensures |path| > |basePath| + 5
    ensures path[..|basePath|] == basePath
    ensures path[|path| - 5..] == ".hdf5"
  {
    basePath + SnapDir(snapNum) + SnapFile(snapNum, chunkNum)
  }

  /** `"/snapdir_%03d/" % snapNum`. */
  function SnapDir(snapNum: int): string
  {
    "/snapdir_" + FormatInt(snapNum, 3) + "/"
  }

  /** `"snap_%03d.%d.hdf5" % (snapNum, chunkNum)`. */
  function SnapFile(snapNum: int, chunkNum: int): string
  {
    "snap_" + FormatInt(snapNum, 3) + "." + FormatInt(chunkNum, 0) + ".hdf5"
  }

  /** The path spelled out from the two formatted numbers. */
  lemma SnapPathSpelled(basePath: string, snapNum: int, chunkNum: int, a: string, b: string)
    requires FormatInt(snapNum, 3) == a && FormatInt(chunkNum, 0) == b
    ensures SnapPath(basePath, snapNum, chunkNum)
            == basePath + ("/snapdir_" + a + "/") + ("snap_" + a + "." + b + ".hdf5")
  {
  }

  /** The first test case of the repository: snapshot 0, chunk 0 by
      default. */
  lemma SnapPathFirst()
    ensures SnapPath("/output", 0) == "/output" + ("/snapdir_" + "000" + "/") + ("snap_" + "000" + "." + "0" + ".hdf5")
  {
    FormatZero();
    SnapPathSpelled("/output", 0, 0, "000", "0");
  }

  lemma FormatZero()
    ensures FormatInt(0, 3) == "000" && FormatInt(0, 0) == "0"
  {
    assert Decimal(0) == "0";
  }

  /** The second test case of the repository: snapshot 135, chunk 99. */
  lemma SnapPathSecond()
    ensures SnapPath("/output", 135, 99) == "/output" + ("/snapdir_" + "135" + "/") + ("snap_" + "135" + "." + "99" + ".hdf5")
  {
    Format135();
    SnapPathSpelled("/output", 135, 99, "135", "99");
  }

  lemma Format135()
    ensures FormatInt(135, 3) == "135" && FormatInt(99, 0) == "99"
  {
    assert Decimal(135) == "135";
    assert Decimal(99) == "99";
  }

  /** The path cut where the snapshot-number digits of the directory begin,
      and the file name cut where the chunk-number digits begin. */
  lemma SnapPathParts(basePath: string, snapNum: int, chunkNum: int)
    ensures SnapPath(basePath, snapNum, chunkNum)
            == basePath + ("/snapdir_" + (FormatInt(snapNum, 3) + ['/'] + SnapFile(snapNum, chunkNum)))
    ensures SnapFile(snapNum, chunkNum)
            == ("snap_" + FormatInt(snapNum, 3) + ".") + (FormatInt(chunkNum, 0) + ['.'] + "hdf5")
  {
    var a, b, f := FormatInt(snapNum, 3), FormatInt(chunkNum, 0), SnapFile(snapNum, chunkNum);
    var d := SnapDir(snapNum);
    Assoc(basePath, d, f);
    Assoc("/snapdir_" + a, "/", f);
    Assoc("/snapdir_", a, "/" + f);
    Assoc(a, "/", f);
    assert "/" == ['/'];
    Assoc("snap_" + a + ".", b, ".hdf5");
    Assoc(b, ['.'], "hdf5");
    assert ".hdf5" == ['.'] + "hdf5";
  }

  /** Under one base path, distinct snapshot and chunk numbers give distinct
      paths: no two chunk files share a name. */
  lemma SnapPathInjective(basePath: string, s1: nat, c1: nat, s2: nat, c2: nat)
    requires SnapPath(basePath, s1, c1) == SnapPath(basePath, s2, c2)
    ensures s1 == s2 && c1 == c2
  {
    var a1, a2 := FormatInt(s1, 3), FormatInt(s2, 3);
    SnapPathParts(basePath, s1, c1);
    SnapPathParts(basePath, s2, c2);
    CancelPrefix(basePath, "/snapdir_" + (a1 + ['/'] + SnapFile(s1, c1)), "/snapdir_" + (a2 + ['/'] + SnapFile(s2, c2)));
    CancelPrefix("/snapdir_", a1 + ['/'] + SnapFile(s1, c1), a2 + ['/'] + SnapFile(s2, c2));
    DigitRunsMatch(a1, a2, SnapFile(s1, c1), SnapFile(s2, c2), '/');
    ParseFormatInt(s1, 3);
    ParseFormatInt(s2, 3);
    var b1, b2 := FormatInt(c1, 0), FormatInt(c2, 0);
    CancelPrefix("snap_" + a1 + ".", b1 + ['.'] + "hdf5", b2 + ['.'] + "hdf5");
    DigitRunsMatch(b1, b2, "hdf5", "hdf5", '.');
    ParseFormatInt(c1, 0);
    ParseFormatInt(c2, 0);
  }

  // ---------------------------------------------------------------------
  // getNumPart

  /** An unsigned 32-bit header word. */
  type Word = w: int | 0 <= w < 0x1_0000_0000

  /** The snapshot header's attributes: named arrays of words. */
  type Header = map<string, seq<Word>>

  const LowWords := "NumPart_Total"
  const HighWords := "NumPart_Total_HighWord"

  /** What `nPart[j] = low | (high << 32)` stores in the `"i4"` array
      `nPart`: the 64-bit count wrapped to a signed 32-bit integer. */
  function StoredCount(low: Word, high: Word): (v: int)
    ensures Fits(v, Int32)
  {
    Wrap(BitOr(low, ShiftLeft(high, 32)), Int32)
  }

  /** The header holds both word arrays with at least six entries. */
  predicate Complete(header: Header)
  {
    LowWords in header && HighWords in header && |header[LowWords]| >= 6 && |header[HighWords]| >= 6
  }

  /** `getNumPart` (il_util.py:84-93) as written: a six-entry `"i4"` array
      filled in a loop, reading `NumPart_Total[j]` before
      `NumPart_Total_HighWord[j]`. A missing attribute is a KeyError, a
      short array an IndexError. */
  method GetNumPart(header: Header) returns (r: Result<seq<int>>)
    ensures r.Ok? <==> Complete(header)
    ensures r.Ok? ==> |r.value| == 6
    ensures r.Ok? ==> forall j :: 0 <= j < 6 ==> r.value[j] == StoredCount(header[LowWords][j], header[HighWords][j])
    ensures LowWords !in header ==> r == Err(KeyError(LowWords))
    ensures LowWords in header && |header[LowWords]| > 0 && HighWords !in header ==> r == Err(KeyError(HighWords))
    ensures LowWords in header && HighWords in header && r.Err? ==> r.error.IndexError?
  {
    var nPart := new int[6](_ => 0);
    var j := 0;
    while j < 6
      invariant 0 <= j <= 6
      invariant j > 0 ==> LowWords in header && HighWords in header
      invariant j > 0 ==> |header[LowWords]| >= j && |header[HighWords]| >= j
      invariant forall q :: 0 <= q < j ==> nPart[q] == StoredCount(header[LowWords][q], header[HighWords][q])
    {
      if LowWords !in header {
        return Err(KeyError(LowWords));
      }
      if j >= |header[LowWords]| {
        return Err(IndexError(LowWords));
      }
      var low := header[LowWords][j];
      if HighWords !in header {
        return Err(KeyError(HighWords));
      }
      if j >= |header[HighWords]| {
        return Err(IndexError(HighWords));
      }
      var high := header[HighWords][j];
      nPart[j] := StoredCount(low, high);
      j := j + 1;
    }
    return Ok(nPart[..]);
  }

  /** The count the header words describe, `low + high * 2^32`. */
  function TrueCount(low: Word, high: Word): (n: nat)
    ensures n < 0x1_0000_0000_0000_0000
    ensures high == 0 ==> n == low
  {
    low + high * 0x1_0000_0000
  }

  /** What the `"i4"` array keeps is the low word read as a signed number:
      the high word is always lost, and a low word of `2^31` or more turns
      negative. */
  lemma StoredCountIsLowWord(low: Word, high: Word)
    ensures StoredCount(low, high) == Wrap(low, Int32)
    ensures StoredCount(low, high) == TrueCount(low, high) <==> high == 0 && low < 0x8000_0000
  {
    PowersOfTwo();
    OrWithShiftedIsSum(low, high, 32);
    var m := Modulus(Int32);
    var v := TrueCount(low, high);
    var r := StoredCount(low, high);
    assert (r - v) % m == 0;
    DivModOfSum(high, low, m);
    WrapResidue(v, Int32);
    WrapResidue(low, Int32);
    if low < 0x8000_0000 {
      WrapFitting(low, Int32);
    }
  }

  /** `Wrap(v, w)` depends only on `v mod 2^width`. */
  lemma WrapResidue(v: int, w: IntWidth)
    ensures Wrap(v, w) == Wrap(v % Modulus(w), w)
  {
  }

  /** A header whose two words are 0 and 1 describes `2^32` particles; the
      `"i4"` array records none. */
  lemma HighWordLost()
    ensures StoredCount(0, 1) == 0 && TrueCount(0, 1) == 0x1_0000_0000
  {
    StoredCountIsLowWord(0, 1);
    WrapFitting(0, Int32);
  }

  /** The count the header describes, kept in an unsigned 64-bit array:
      the same loop with `dtype="u8"`. */
  method GetNumPart64(header: Header) returns (r: Result<seq<int>>)
    ensures r.Ok? <==> Complete(header)
    ensures r.Ok? ==> |r.value| == 6
    ensures r.Ok? ==> forall j :: 0 <= j < 6 ==> r.value[j] == TrueCount(header[LowWords][j], header[HighWords][j])
    ensures LowWords !in header ==> r == Err(KeyError(LowWords))
    ensures LowWords in header && |header[LowWords]| > 0 && HighWords !in header ==> r == Err(KeyError(HighWords))
    ensures LowWords in header && HighWords in header && r.Err? ==> r.error.IndexError?
  {
    var nPart := new int[6](_ => 0);
    var j := 0;
    while j < 6
      invariant 0 <= j <= 6
      invariant j > 0 ==> LowWords in header && HighWords in header
      invariant j > 0 ==> |header[LowWords]| >= j && |header[HighWords]| >= j
      invariant forall q :: 0 <= q < j ==> nPart[q] == TrueCount(header[LowWords][q], header[HighWords][q])
    {
      if LowWords !in header {
        return Err(KeyError(LowWords));
      }
      if j >= |header[LowWords]| {
        return Err(IndexError(LowWords));
      }
      var low := header[LowWords][j];
      if HighWords !in header {
        return Err(KeyError(HighWords));
      }
      if j >= |header[HighWords]| {
        return Err(IndexError(HighWords));
      }
      var high := header[HighWords][j];
      nPart[j] := Count64(low, high);
      j := j + 1;
    }
    return Ok(nPart[..]);
  }

  /** `low | (high << 32)` in unsigned 64-bit arithmetic: the two words
      occupy disjoint bits, so nothing is lost and nothing wraps. */
  function Count64(low: Word, high: Word): (v: int)
    ensures v == TrueCount(low, high)
  {
    PowersOfTwo();
    OrWithShiftedIsSum(low, high, 32);
    BitOr(low, ShiftLeft(high, 32))
  }
}
