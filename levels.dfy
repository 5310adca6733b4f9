/** The integer bookkeeping of `init`: how many pyramid levels there are and
    how large each padded level is. */
module Levels {
  import opened Shaders

  function Min(a: int, b: int): int
  {
    if a <= b then a else b
  }

  function Pow2(k: nat): nat
  {
    if k == 0 then 1 else 2 * Pow2(k - 1)
  }

  lemma {:induction false} Pow2Monotone(j: nat, k: nat)
    requires j <= k
    ensures Pow2(j) <= Pow2(k)
  {
    if j < k {
      Pow2Monotone(j, k - 1);
    }
  }

  /** `ceil(log2(m))` on integers: the least k with 2^k >= m. A one-pixel
      side gives no level at all. */
  function CeilLog2(m: nat): (k: nat)
    requires m >= 1
    ensures Pow2(k) >= m
    ensures k >= 1 ==> Pow2(k - 1) < m
    ensures k >= 1 <==> m >= 2
  {
    if m <= 1 then 0 else 1 + CeilLog2((m + 1) / 2)
  }

  /** No smaller exponent reaches m: the depth is the least such k. */
  lemma CeilLog2IsLeast(m: nat, j: nat)
    requires m >= 1 && Pow2(j) >= m
    ensures CeilLog2(m) <= j
  {
    var k := CeilLog2(m);
    if j < k {
      Pow2Monotone(j, k - 1);
    }
  }

  /** Padded size, along one axis of an n-texel source, of pyramid level i:
      level 0 is n + 2·size, and each next level halves the previous padded
      size and adds 2·size again. Every level is wider than its two borders. */
  function LevelSize(n: int, i: nat): (r: int)
    requires n >= 1
    ensures r > 2 * Size
  {
    if i == 0 then n + 2 * Size else LevelSize(n, i - 1) / 2 + 2 * Size
  }

  /** n halved i times, rounding down. */
  function Halve(n: nat, i: nat): nat
  {
    if i == 0 then n else Halve(n, i - 1) / 2
  }

  lemma {:induction false} HalveShift(n: nat, i: nat)
    ensures Halve(n, i + 1) == Halve(n / 2, i)
  {
    if i > 0 {
      HalveShift(n, i - 1);
    }
  }

  lemma {:induction false} HalveBounds(n: nat, i: nat)
    ensures n <= 2 * Pow2(i) ==> Halve(n, i) <= 2
    ensures n >= Pow2(i) ==> Halve(n, i) >= 1
  {
    if i > 0 {
      HalveShift(n, i - 1);
      HalveBounds(n / 2, i - 1);
    }
  }

  /** The padded size stays within 10 to 20 texels of the source side halved i
      times: the border is re-added at every level, so level i's interior is
      half of level i-1's padded size, not half of its interior. */
  lemma {:induction false} LevelSizeBounds(n: nat, i: nat)
    requires n >= 1
    ensures Halve(n, i) + 2 * Size <= LevelSize(n, i) <= Halve(n, i) + 4 * Size
  {
    if i > 0 {
      LevelSizeBounds(n, i - 1);
    }
  }

  /** The coarsest level (index depth - 1) along the shorter side m: the side
      halved depth - 1 times is one or two texels, so that padded level is at
      most 22 texels wide. */
  lemma CoarsestLevel(m: nat)
    requires m >= 2
    ensures 1 <= Halve(m, CeilLog2(m) - 1) <= 2
    ensures LevelSize(m, CeilLog2(m) - 1) <= 4 * Size + 2
  {
    var d := CeilLog2(m);
    HalveBounds(m, d - 1);
    LevelSizeBounds(m, d - 1);
  }
}
