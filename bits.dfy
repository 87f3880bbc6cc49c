/** Integer powers, Python's `<<` and `|` on non-negative integers, and the
    arithmetic facts about them that the index and the helpers rely on. */
module Bits {

  /** `b ** n` for natural numbers. */
  function Pow(b: nat, n: nat): nat
  {
    if n == 0 then 1 else b * Pow(b, n - 1)
  }

  /** Python's `x << n`: `n` doublings of `x` (Python integers do not
      overflow; numpy widths are handled in module Widths). */
  function ShiftLeft(x: int, n: nat): (r: int)
    ensures 0 <= x ==> 0 <= r
  {
    if n == 0 then x else 2 * ShiftLeft(x, n - 1)
  }

  /** `x << n == x * 2 ** n`. */
  lemma {:induction false} ShiftLeftIsMul(x: int, n: nat)
    ensures ShiftLeft(x, n) == x * Pow(2, n)
  {
    if n > 0 {
      ShiftLeftIsMul(x, n - 1);
      MulSwap(2, x, Pow(2, n - 1));
    }
  }

  /** Python's `a | b` on non-negative integers, one bit at a time. */
  function BitOr(a: nat, b: nat): nat
    decreases a + b
  {
    if a == 0 then b
    else if b == 0 then a
    else 2 * BitOr(a / 2, b / 2) + (if a % 2 == 1 || b % 2 == 1 then 1 else 0)
  }

  /** Bit `t` of `n` (0 or 1). */
  function Bit(n: nat, t: nat): (r: nat)
    ensures r < 2
  {
    if t == 0 then n % 2 else Bit(n / 2, t - 1)
  }

  lemma {:induction false} PowPositive(b: nat, n: nat)
    requires b > 0
    ensures Pow(b, n) > 0
  {
    if n > 0 {
      PowPositive(b, n - 1);
    }
  }

  lemma {:induction false} PowAdd(b: nat, m: nat, n: nat)
    ensures Pow(b, m + n) == Pow(b, m) * Pow(b, n)
  {
    if n > 0 {
      PowAdd(b, m, n - 1);
      assert Pow(b, m + n) == b * Pow(b, m + n - 1);
      MulSwap(b, Pow(b, m), Pow(b, n - 1));
    }
  }

  lemma MulSwap(a: int, b: int, c: int)
    ensures a * (b * c) == b * (a * c)
  {
  }

  lemma {:induction false} PowMonotone(b: nat, m: nat, n: nat)
    requires b >= 1 && m <= n
    ensures Pow(b, m) <= Pow(b, n)
  {
    if m < n {
      PowMonotone(b, m, n - 1);
      PowPositive(b, n - 1);
      MulAtLeast(b, Pow(b, n - 1));
    }
  }

  /** `(x + 1) << n == (x << n) + 2 ** n`. */
  lemma {:induction false} ShiftLeftSucc(x: int, n: nat)
    ensures ShiftLeft(x + 1, n) == ShiftLeft(x, n) + Pow(2, n)
  {
    if n > 0 {
      ShiftLeftSucc(x, n - 1);
    }
  }

  /** `2 ** m << n == 2 ** (m + n)`. */
  lemma {:induction false} ShiftLeftPow(m: nat, n: nat)
    ensures ShiftLeft(Pow(2, m), n) == Pow(2, m + n)
  {
    if n > 0 {
      ShiftLeftPow(m, n - 1);
    }
  }

  /** `4 ** n == 2 ** (2n)` and `8 ** n == 2 ** (3n)`: the multiplier and the
      shift spellings of the cell key agree. */
  lemma {:induction false} PowOfPowersOfTwo(n: nat)
    ensures Pow(4, n) == Pow(2, 2 * n)
    ensures Pow(8, n) == Pow(2, 3 * n)
    ensures Pow(8, n) == Pow(2, n) * Pow(2, n) * Pow(2, n)
  {
    if n > 0 {
      PowOfPowersOfTwo(n - 1);
      PowAdd(2, 2 * (n - 1), 2);
      PowAdd(2, 3 * (n - 1), 3);
      assert Pow(2, 2) == 4;
      assert Pow(2, 3) == 8;
    }
    PowAdd(2, n, n);
    PowAdd(2, 2 * n, n);
  }

  /** Uniqueness of Euclidean division, in the shape the key decoding needs. */
  lemma DivModOfSum(a: int, b: int, m: int)
    requires m > 0 && 0 <= b < m
    ensures (a * m + b) / m == a
    ensures (a * m + b) % m == b
  {
    var k := a * m + b;
    var q, r := k / m, k % m;
    assert q * m + r == k;
    var d := q - a;
    assert d * m == b - r by {
      assert d * m == q * m - a * m;
    }
    if d >= 1 {
      MulAtLeast(d, m);
      assert false;
    } else if d <= -1 {
      MulAtLeast(-d, m);
      assert false;
    }
  }

  lemma MulAtLeast(d: int, m: int)
    requires d >= 1 && m > 0
    ensures d * m >= m
  {
  }

  lemma {:induction false} BitOfZero(t: nat)
    ensures Bit(0, t) == 0
  {
    if t > 0 {
      BitOfZero(t - 1);
    }
  }

  /** `|` works bit by bit. */
  lemma {:induction false} BitOrBit(a: nat, b: nat, t: nat)
    ensures Bit(BitOr(a, b), t) == if Bit(a, t) == 1 || Bit(b, t) == 1 then 1 else 0
    decreases t
  {
    if a == 0 {
      BitOfZero(t);
    } else if b == 0 {
      BitOfZero(t);
    } else {
      var low := if a % 2 == 1 || b % 2 == 1 then 1 else 0;
      var rest := BitOr(a / 2, b / 2);
      assert BitOr(a, b) == 2 * rest + low;
      if t > 0 {
        assert BitOr(a, b) / 2 == rest;
        BitOrBit(a / 2, b / 2, t - 1);
      }
    }
  }

  /** `2 ** s` has exactly bit `s` set. */
  lemma {:induction false} BitOfPow2(s: nat, t: nat)
    ensures Bit(Pow(2, s), t) == if s == t then 1 else 0
    decreases t
  {
    if s == 0 {
      if t > 0 {
        BitOfZero(t - 1);
      }
    } else {
      PowPositive(2, s - 1);
      assert Pow(2, s) / 2 == Pow(2, s - 1);
      if t > 0 {
        BitOfPow2(s - 1, t - 1);
      }
    }
  }

  /** Two numbers with the same bits are equal. */
  lemma {:induction false} BitsDetermine(a: nat, b: nat)
    requires forall t: nat :: Bit(a, t) == Bit(b, t)
    ensures a == b
    decreases a + b
  {
    if a != 0 || b != 0 {
      assert Bit(a, 0) == Bit(b, 0);
      forall t: nat
        ensures Bit(a / 2, t) == Bit(b / 2, t)
      {
        assert Bit(a, t + 1) == Bit(b, t + 1);
      }
      BitsDetermine(a / 2, b / 2);
    }
  }

  /** Or-ing a number below `2 ** n` with a multiple of `2 ** n` is addition:
      the two operands have no bit in common. */
  lemma {:induction false} OrWithShiftedIsSum(low: nat, high: nat, n: nat)
    requires low < Pow(2, n)
    ensures BitOr(low, ShiftLeft(high, n)) == low + high * Pow(2, n)
  {
    var x := ShiftLeft(high, n);
    ShiftLeftIsMul(high, n);
    if n == 0 {
      assert low == 0;
    } else if low == 0 || high == 0 {
    } else {
      PowPositive(2, n - 1);
      assert x == 2 * (high * Pow(2, n - 1));
      ShiftLeftIsMul(high, n - 1);
      assert x / 2 == ShiftLeft(high, n - 1) && x % 2 == 0;
      OrWithShiftedIsSum(low / 2, high, n - 1);
    }
  }

  /** Adding `2 ** s` to a number whose bit `s` is clear sets that bit and
      no other. */
  lemma {:induction false} AddPow2(a: nat, s: nat, t: nat)
    requires Bit(a, s) == 0
    ensures Bit(a + Pow(2, s), t) == if t == s then 1 else Bit(a, t)
    decreases s
  {
    if s == 0 {
      if t > 0 {
        assert (a + 1) / 2 == a / 2;
      }
    } else {
      PowPositive(2, s - 1);
      var h := Pow(2, s - 1);
      assert Pow(2, s) == 2 * h;
      assert (a + 2 * h) % 2 == a % 2 && (a + 2 * h) / 2 == a / 2 + h;
      if t > 0 {
        AddPow2(a / 2, s - 1, t - 1);
      }
    }
  }

  /** Or-ing in a bit that is clear is adding it. */
  lemma DisjointOrIsSum(a: nat, s: nat)
    requires Bit(a, s) == 0
    ensures BitOr(a, Pow(2, s)) == a + Pow(2, s)
  {
    forall t: nat
      ensures Bit(BitOr(a, Pow(2, s)), t) == Bit(a + Pow(2, s), t)
    {
      BitOrBit(a, Pow(2, s), t);
      BitOfPow2(s, t);
      AddPow2(a, s, t);
    }
    BitsDetermine(BitOr(a, Pow(2, s)), a + Pow(2, s));
  }
}
