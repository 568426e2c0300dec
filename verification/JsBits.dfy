/** JavaScript's 32-bit operators on numbers. */
module JsBits {
  import Arithmetic

  function Pow2(k: nat): (p: nat)
    ensures p > 0
  {
    if k == 0 then 1 else 2 * Pow2(k - 1)
  }

  lemma {:induction false} PowSum(a: nat, b: nat)
    ensures Pow2(a + b) == Pow2(a) * Pow2(b)
  {
    if a > 0 {
      PowSum(a - 1, b);
      Regroup(Pow2(a - 1), Pow2(b));
    }
  }

  lemma Regroup(x: int, y: int)
    ensures 2 * (x * y) == (2 * x) * y
  {
  }

  lemma {:induction false} PowMonotone(a: nat, b: nat)
    requires a <= b
    ensures Pow2(a) <= Pow2(b)
  {
    if a < b {
      PowMonotone(a, b - 1);
    }
  }

  const TWO_32 := 0x1_0000_0000

  /** The abstract operations ToUint32 and ToInt32 of ECMAScript. */
  function ToUint32(n: int): nat { n % TWO_32 }

  function ToInt32(n: int): int {
    var u := ToUint32(n);
    if u >= 0x8000_0000 then u - TWO_32 else u
  }

  function BitAnd(a: nat, b: nat): nat {
    if a == 0 || b == 0 then 0 else 2 * BitAnd(a / 2, b / 2) + (if a % 2 == 1 && b % 2 == 1 then 1 else 0)
  }

  function BitOr(a: nat, b: nat): nat
    decreases a + b
  {
    if a == 0 then b else if b == 0 then a
    else 2 * BitOr(a / 2, b / 2) + (if a % 2 == 1 || b % 2 == 1 then 1 else 0)
  }

  /** `a & b`, `a | b`, `a << k` and `a >>> k`. */
  function And(a: int, b: int): int { ToInt32(BitAnd(ToUint32(a), ToUint32(b))) }

  function Or(a: int, b: int): int { ToInt32(BitOr(ToUint32(a), ToUint32(b))) }

  function Shl(a: int, k: nat): int
    requires k < 32
  {
    ToInt32(ToUint32(a) * Pow2(k))
  }

  function Ushr(a: int, k: nat): nat
    requires k < 32
  {
    ToUint32(a) / Pow2(k)
  }

  lemma HalfOfMask(k: nat)
    requires k > 0
    ensures (Pow2(k) - 1) / 2 == Pow2(k - 1) - 1 && (Pow2(k) - 1) % 2 == 1
  {
  }

  lemma HalfMod(a: nat, p: nat)
    requires p > 0
    ensures a % (2 * p) == 2 * ((a / 2) % p) + a % 2
  {
    var h := a / 2;
    var q, r := h / p, h % p;
    assert a == 2 * h + a % 2 && h == p * q + r;
    assert a == (2 * p) * q + (2 * r + a % 2) by { Spread(p, q); }
    Arithmetic.DivModUnique(a, 2 * p, q, 2 * r + a % 2);
  }

  lemma Spread(p: int, q: int)
    ensures 2 * (p * q) == (2 * p) * q
  {
  }

  /** A mask of ones keeps the low bits. */
  lemma {:induction false} MaskIsMod(a: nat, k: nat)
    ensures BitAnd(a, Pow2(k) - 1) == a % Pow2(k)
  {
    if k == 0 {
    } else {
      HalfOfMask(k);
      HalfMod(a, Pow2(k - 1));
      if a == 0 {
        Arithmetic.DivModUnique(0, Pow2(k), 0, 0);
      } else {
        MaskIsMod(a / 2, k - 1);
      }
    }
  }

  lemma HalfShifted(a: nat, p: nat)
    ensures (a * (2 * p)) / 2 == a * p && (a * (2 * p)) % 2 == 0
  {
    assert a * (2 * p) == 2 * (a * p);
  }

  /** A shifted value and one below the shift do not meet: their OR is their sum. */
  lemma {:induction false} OrIsSum(a: nat, k: nat, b: nat)
    requires b < Pow2(k)
    ensures BitOr(a * Pow2(k), b) == a * Pow2(k) + b
  {
    if k == 0 {
    } else {
      HalfShifted(a, Pow2(k - 1));
      OrIsSum(a, k - 1, b / 2);
    }
  }

  lemma SmallIsItself(n: nat)
    requires n < 0x8000_0000
    ensures ToUint32(n) == n && ToInt32(n) == n
  {
  }

  /** `a & (2**k - 1)`: only the low 32 bits of `a` are seen. */
  lemma AndLowBits(a: nat, k: nat)
    requires Pow2(k) <= 0x8000_0000
    ensures And(a, Pow2(k) - 1) == ToUint32(a) % Pow2(k)
  {
    var u := ToUint32(a);
    MaskIsMod(u, k);
    SmallIsItself(Pow2(k) - 1);
    ModAtMost(u, Pow2(k));
    SmallIsItself(u % Pow2(k));
    hide BitAnd, ToInt32, ToUint32, Pow2;
  }

  /** For a value that fits in 31 bits it is the remainder. */
  lemma AndMask(a: nat, k: nat)
    requires a < 0x8000_0000 && Pow2(k) <= 0x8000_0000
    ensures And(a, Pow2(k) - 1) == a % Pow2(k)
  {
    AndLowBits(a, k);
    SmallIsItself(a);
  }

  lemma ModAtMost(a: nat, m: nat)
    requires m > 0
    ensures a % m <= a && a % m < m
  {
  }

  /** `a << k` when nothing is shifted into the sign. */
  lemma ShlIsTimes(a: nat, k: nat)
    requires k < 32 && a < 0x8000_0000 && a * Pow2(k) < 0x8000_0000
    ensures Shl(a, k) == a * Pow2(k)
  {
    SmallIsItself(a);
    SmallIsItself(a * Pow2(k));
  }

  /** `(a << k) | b` when they do not overlap and fit in 31 bits. */
  lemma OrShifted(a: nat, k: nat, b: nat)
    requires b < Pow2(k) && a * Pow2(k) + b < 0x8000_0000
    ensures Or(a * Pow2(k), b) == a * Pow2(k) + b
  {
    OrIsSum(a, k, b);
    NonNegativeProduct(a, Pow2(k));
    SmallIsItself(a * Pow2(k));
    SmallIsItself(b);
    SmallIsItself(a * Pow2(k) + b);
    hide BitOr, ToInt32, ToUint32;
  }

  lemma NonNegativeProduct(a: nat, b: nat)
    ensures a * b >= 0
  {
  }
}
