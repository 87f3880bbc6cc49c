/** Grid cells of the linear spatial index and their composite keys.

    A particle's grid cell at depth `d` is a triple `(ix, iy, iz)`, each
    coordinate in `[0, 2^d)` for a cell inside the domain. mesh.build packs it
    as `(ix << 2d) + (iy << d) + iz`; the numba slicer computes the same key as
    `ix * 4^d + iy * 2^d + iz`. The key is row-major (x slowest, z fastest),
    not a Morton interleaving. */
module GridCodec {
  import opened Bits

  /** Integer grid coordinates of a cell (also used for the corners of a
      cell range, whose upper corner may reach `2^d`). */
  datatype Cell = Cell(x: int, y: int, z: int)

  /** Cells per axis, `2 ** depth`. */
  function Side(depth: nat): nat
  {
    Pow(2, depth)
  }

  /** Number of cells, `8 ** depth`; `mark` has one entry more. */
  function CellCount(depth: nat): nat
  {
    Pow(8, depth)
  }

  predicate InGrid(c: Cell, depth: nat)
  {
    0 <= c.x < Side(depth) && 0 <= c.y < Side(depth) && 0 <= c.z < Side(depth)
  }

  /** The composite key `(ix << 2d) + (iy << d) + iz` (mesh.py:50-51, and the
      oct_illustris triple loop). */
  function Key(c: Cell, depth: nat): int
  {
    ShiftLeft(c.x, 2 * depth) + ShiftLeft(c.y, depth) + c.z
  }

  /** The numba slicer's spelling: the dot product with `[4^d, 2^d, 1]`. */
  function ShifterKey(c: Cell, depth: nat): int
  {
    c.x * Pow(4, depth) + c.y * Pow(2, depth) + c.z
  }

  /** Inverse of `Key` on the keys of in-grid cells. */
  function Decode(key: int, depth: nat): Cell
  {
    PowPositive(2, depth);
    var s := Side(depth);
    Cell(key / (s * s), (key / s) % s, key % s)
  }

  lemma KeyAsProduct(c: Cell, depth: nat)
    ensures Key(c, depth) == (c.x * Side(depth) + c.y) * Side(depth) + c.z
  {
    ShiftLeftIsMul(c.x, 2 * depth);
    ShiftLeftIsMul(c.y, depth);
    PowAdd(2, depth, depth);
    assert 2 * depth == depth + depth;
    var s := Side(depth);
    calc {
      Key(c, depth);
      c.x * (s * s) + c.y * s + c.z;
      (c.x * s + c.y) * s + c.z;
    }
  }

  /** The two spellings of the key are the same number. */
  lemma ShifterKeyIsKey(c: Cell, depth: nat)
    ensures ShifterKey(c, depth) == Key(c, depth)
  {
    ShiftLeftIsMul(c.x, 2 * depth);
    ShiftLeftIsMul(c.y, depth);
    PowOfPowersOfTwo(depth);
  }

  /** Bounds of a key whose x and y are in the grid and whose z may reach the
      side length (the upper corner of a z-range): `0 <= key <= 8^d`. */
  lemma KeyBounds(c: Cell, depth: nat)
    requires 0 <= c.x < Side(depth) && 0 <= c.y < Side(depth) && 0 <= c.z <= Side(depth)
    ensures 0 <= Key(c, depth) <= CellCount(depth)
    ensures c.z < Side(depth) ==> Key(c, depth) < CellCount(depth)
  {
    KeyAsProduct(c, depth);
    PowOfPowersOfTwo(depth);
    RadixBounds(c.x, c.y, c.z, Side(depth));
  }

  /** Decoding a key recovers the cell: cells and keys are in one-to-one
      correspondence, so distinct cells never share a key. */
  lemma DecodeKey(c: Cell, depth: nat)
    requires InGrid(c, depth)
    ensures Decode(Key(c, depth), depth) == c
  {
    KeyAsProduct(c, depth);
    RadixDecode(c.x, c.y, c.z, Side(depth));
  }

  /** Every key of the grid is the key of exactly the cell it decodes to. */
  lemma KeyOfDecode(key: int, depth: nat)
    requires 0 <= key < CellCount(depth)
    ensures InGrid(Decode(key, depth), depth)
    ensures Key(Decode(key, depth), depth) == key
  {
    PowPositive(2, depth);
    PowOfPowersOfTwo(depth);
    RadixEncode(key, Side(depth));
    KeyAsProduct(Decode(key, depth), depth);
  }

  lemma MulMonotone(a: int, b: int, c: int)
    requires 0 <= c && a <= b
    ensures a * c <= b * c
  {
    assert (b - a) * c >= 0;
  }

  lemma RadixBounds(x: int, y: int, z: int, s: int)
    requires s > 0 && 0 <= x < s && 0 <= y < s && 0 <= z <= s
    ensures 0 <= (x * s + y) * s + z <= s * s * s
    ensures z < s ==> (x * s + y) * s + z < s * s * s
  {
    DigitBound(x, y, s);
    var row := x * s + y;
    MulMonotone(0, row, s);
    MulMonotone(row + 1, s * s, s);
    assert (row + 1) * s == row * s + s;
  }

  lemma RadixDecode(x: int, y: int, z: int, s: int)
    requires s > 0 && 0 <= y < s && 0 <= z < s
    ensures ((x * s + y) * s + z) / (s * s) == x
    ensures (((x * s + y) * s + z) / s) % s == y
    ensures ((x * s + y) * s + z) % s == z
  {
    var row := x * s + y;
    DivModOfSum(row, z, s);
    DivModOfSum(x, y, s);
    MulMonotone(y, s - 1, s);
    assert 0 <= y * s + z < s * s;
    assert (x * s + y) * s + z == x * (s * s) + (y * s + z);
    DivModOfSum(x, y * s + z, s * s);
  }

  lemma RadixEncode(k: int, s: int)
    requires s > 0 && 0 <= k < s * s * s
    ensures 0 <= k / (s * s) < s && 0 <= (k / s) % s < s && 0 <= k % s < s
    ensures k == ((k / (s * s)) * s + (k / s) % s) * s + k % s
  {
    var z := k % s;
    var y := (k / s) % s;
    var x := (k / s) / s;
    RadixSplit(k, s);
    DivModOfSum(x, y * s + z, s * s);
    TopDigitBound(k, x, y * s + z, s);
  }

  lemma RadixSplit(k: int, s: int)
    requires s > 0 && 0 <= k
    ensures 0 <= (k / s) / s
    ensures k == ((k / s) / s) * (s * s) + (((k / s) % s) * s + k % s)
    ensures 0 <= ((k / s) % s) * s + k % s < s * s
  {
    var row, z := k / s, k % s;
    DivMod(k, s);
    var x, y := row / s, row % s;
    DivMod(row, s);
    Nest(k, row, z, x, y, s);
    DigitBound(y, z, s);
  }

  /** Euclidean division by a positive divisor, as equations. */
  lemma DivMod(k: int, s: int)
    requires s > 0 && 0 <= k
    ensures k == (k / s) * s + k % s
    ensures 0 <= k % s < s && 0 <= k / s
  {
  }

  lemma Nest(k: int, row: int, z: int, x: int, y: int, s: int)
    requires k == row * s + z && row == x * s + y
    ensures k == x * (s * s) + (y * s + z)
  {
    assert row * s == (x * s + y) * s;
  }

  /** A two-digit number in base `s` is below `s * s`. */
  lemma DigitBound(y: int, z: int, s: int)
    requires 0 <= y < s && 0 <= z < s
    ensures 0 <= y * s + z < s * s
  {
    MulMonotone(0, y, s);
    MulMonotone(y, s - 1, s);
  }

  lemma TopDigitBound(k: int, x: int, r: int, s: int)
    requires s > 0 && 0 <= x && 0 <= r && k == x * (s * s) + r && k < s * s * s
    ensures x < s
  {
    if x >= s {
      MulMonotone(s, x, s * s);
    }
  }

  /** Distinct in-grid cells have distinct keys. */
  lemma KeyInjective(a: Cell, b: Cell, depth: nat)
    requires InGrid(a, depth) && InGrid(b, depth)
    requires Key(a, depth) == Key(b, depth)
    ensures a == b
  {
    DecodeKey(a, depth);
    DecodeKey(b, depth);
  }
}
