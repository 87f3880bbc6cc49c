/** The integer-width policy: numpy int32 or int64 for the tree (cell keys)
    and for the data (ranks and mark offsets), and what storing a number in
    a narrower numpy integer does to it. */
module Widths {
  import opened Wrappers
  import opened Bits
  import opened GridCodec

  datatype IntWidth = Int32 | Int64

  function BitWidth(w: IntWidth): nat
  {
    match w
    case Int32 => 32
    case Int64 => 64
  }

  function MaxValue(w: IntWidth): int
  {
    match w
    case Int32 => 0x7fff_ffff
    case Int64 => 0x7fff_ffff_ffff_ffff
  }

  function MinValue(w: IntWidth): int
  {
    -MaxValue(w) - 1
  }

  predicate Fits(v: int, w: IntWidth)
  {
    MinValue(w) <= v <= MaxValue(w)
  }

  /** The width chosen for cell keys from the depth, or the ValueError raised
      for a depth above 20 (mesh.py:27-34; the two SingleDataset constructors
      repeat it with `subject` "Mesh" and "octree"). */
  function TreeWidth(depth: nat, subject: string): (r: Result<IntWidth>)
    ensures r.Ok? <==> depth <= 20
    ensures r == Ok(Int32) <==> depth <= 10
  {
    if depth <= 10 then Ok(Int32)
    else if depth <= 20 then Ok(Int64)
    else Err(ValueError("The depth of " + subject + " must be no more than 20!"))
  }

  /** The width chosen for ranks and marks from the particle count
      (mesh.py:21-24; oct_illustris/core.py:169-172). */
  function DataWidth(length: nat): (w: IntWidth)
    ensures w == Int32 <==> Fits(length, Int32)
    ensures length <= MaxValue(Int64) ==> Fits(length, w)
  {
    if length <= 2147483647 then Int32 else Int64
  }

  lemma CellCountValues()
    ensures CellCount(10) == 0x4000_0000
    ensures CellCount(11) == 0x2_0000_0000
    ensures CellCount(20) == 0x1000_0000_0000_0000
    ensures CellCount(21) == 0x8000_0000_0000_0000
  {
    PowAdd(8, 10, 10);
    PowAdd(8, 20, 1);
    PowAdd(8, 10, 1);
    assert Pow(8, 10) == 0x4000_0000;
    assert Pow(8, 1) == 8;
  }

  /** The tree width is the narrowest signed width that holds every key and
      every mark position `0 .. 8^d`, and the constructor refuses exactly the
      depths whose cell count no signed 64-bit integer holds. */
  lemma TreeWidthHoldsKeys(depth: nat, subject: string)
    ensures TreeWidth(depth, subject).Ok? ==> Fits(CellCount(depth), TreeWidth(depth, subject).value)
    ensures TreeWidth(depth, subject) == Ok(Int64) ==> !Fits(CellCount(depth), Int32)
    ensures TreeWidth(depth, subject).Err? <==> !Fits(CellCount(depth), Int64)
  {
    CellCountValues();
    PowPositive(8, depth);
    if depth <= 10 {
      PowMonotone(8, depth, 10);
    } else if depth <= 20 {
      PowMonotone(8, 11, depth);
      PowMonotone(8, depth, 20);
    } else {
      PowMonotone(8, 21, depth);
    }
  }

  /** `2 ** BitWidth(w)`. */
  function Modulus(w: IntWidth): (m: nat)
    ensures m == Pow(2, BitWidth(w))
  {
    PowersOfTwo();
    match w
    case Int32 => 0x1_0000_0000
    case Int64 => 0x1_0000_0000_0000_0000
  }

  lemma PowersOfTwo()
    ensures Pow(2, 32) == 0x1_0000_0000
    ensures Pow(2, 64) == 0x1_0000_0000_0000_0000
  {
    assert Pow(2, 8) == 0x100;
    PowAdd(2, 8, 8);
    assert Pow(2, 16) == 0x100 * 0x100;
    PowAdd(2, 16, 16);
    assert Pow(2, 32) == 0x1_0000 * 0x1_0000;
    PowAdd(2, 32, 32);
    assert Pow(2, 64) == 0x1_0000_0000 * 0x1_0000_0000;
  }

  /** Storing `v` in a numpy integer of width `w`: two's-complement
      wrap-around. */
  function Wrap(v: int, w: IntWidth): (r: int)
    ensures Fits(r, w)
    ensures (r - v) % Modulus(w) == 0
  {
    var m := Modulus(w);
    var low := v % m;
    var r := if low > MaxValue(w) then low - m else low;
    assert (r - v) % m == 0 by {
      var q := if low > MaxValue(w) then -1 - v / m else -(v / m);
      assert r - v == q * m;
      DivModOfSum(q, 0, m);
    }
    r
  }

  /** A value that fits is stored unchanged. */
  lemma WrapFitting(v: int, w: IntWidth)
    requires Fits(v, w)
    ensures Wrap(v, w) == v
  {
    var m := Modulus(w);
    var r := Wrap(v, w);
    var q := (r - v) / m;
    assert r - v == q * m;
    assert -m < r - v < m;
    if q >= 1 {
      MulAtLeast(q, m);
    } else if q <= -1 {
      MulAtLeast(-q, m);
    }
  }
}
