/** What the per-texel rules of the shaders guarantee: the window sums are
    linear, padding is undone by cropping, and the integer coordinate maps of
    consecutive levels agree. */
module ShaderProperties {
  import opened Pixels
  import opened Shaders

  // ---------------------------------------------------------------------------
  // Linearity

  /** `t3` holds the texel-wise sum of `t1` and `t2`, all of one size. */
  ghost predicate IsSum(t1: array2<Pixel>, t2: array2<Pixel>, t3: array2<Pixel>)
    reads t1, t2, t3
  {
    t1.Length0 == t2.Length0 == t3.Length0 && t1.Length1 == t2.Length1 == t3.Length1 &&
    forall x, y :: 0 <= x < t3.Length0 && 0 <= y < t3.Length1 ==> t3[x, y] == Add(t1[x, y], t2[x, y])
  }

  /** `t2` holds `t1` scaled by `c`, both of one size. */
  ghost predicate IsScaled(c: real, t1: array2<Pixel>, t2: array2<Pixel>)
    reads t1, t2
  {
    t1.Length0 == t2.Length0 && t1.Length1 == t2.Length1 &&
    forall x, y :: 0 <= x < t2.Length0 && 0 <= y < t2.Length1 ==> t2[x, y] == Scale(c, t1[x, y])
  }

  lemma {:induction false} RowSumAdditive(t1: array2<Pixel>, t2: array2<Pixel>, t3: array2<Pixel>,
                                          k: seq<real>, gain: real, s: Sampling,
                                          cx: int, cy: int, dy: int, n: nat)
    requires IsSum(t1, t2, t3)
    requires |k| % 2 == 1 && n <= |k| && -Radius(k) <= dy <= Radius(k)
    ensures RowSum(t3, k, gain, s, cx, cy, dy, n)
         == Add(RowSum(t1, k, gain, s, cx, cy, dy, n), RowSum(t2, k, gain, s, cx, cy, dy, n))
  {
    if n > 0 {
      RowSumAdditive(t1, t2, t3, k, gain, s, cx, cy, dy, n - 1);
      var dx := n - 1 - Radius(k);
      var x, y := TapCoord(s, cx, dx), TapCoord(s, cy, dy);
      if !IsOutside(x, y, t3.Length0, t3.Length1) {
        var w := Weight(k, gain, dx, dy);
        assert t3[x, y] == Add(t1[x, y], t2[x, y]);
        ScaleAdd(w, t1[x, y], t2[x, y]);
        AddInterchange(RowSum(t1, k, gain, s, cx, cy, dy, n - 1), RowSum(t2, k, gain, s, cx, cy, dy, n - 1),
                       Scale(w, t1[x, y]), Scale(w, t2[x, y]));
      }
    }
  }

  lemma {:induction false} WindowAdditive(t1: array2<Pixel>, t2: array2<Pixel>, t3: array2<Pixel>,
                                          k: seq<real>, gain: real, s: Sampling,
                                          cx: int, cy: int, m: nat)
    requires IsSum(t1, t2, t3)
    requires |k| % 2 == 1 && m <= |k|
    ensures Rows(t3, k, gain, s, cx, cy, m)
         == Add(Rows(t1, k, gain, s, cx, cy, m), Rows(t2, k, gain, s, cx, cy, m))
  {
    if m > 0 {
      var dy := m - 1 - Radius(k);
      WindowAdditive(t1, t2, t3, k, gain, s, cx, cy, m - 1);
      RowSumAdditive(t1, t2, t3, k, gain, s, cx, cy, dy, |k|);
      AddInterchange(Rows(t1, k, gain, s, cx, cy, m - 1), Rows(t2, k, gain, s, cx, cy, m - 1),
                     RowSum(t1, k, gain, s, cx, cy, dy, |k|), RowSum(t2, k, gain, s, cx, cy, dy, |k|));
    }
  }

  lemma {:induction false} RowSumHomogeneous(c: real, t1: array2<Pixel>, t2: array2<Pixel>,
                                             k: seq<real>, gain: real, s: Sampling,
                                             cx: int, cy: int, dy: int, n: nat)
    requires IsScaled(c, t1, t2)
    requires |k| % 2 == 1 && n <= |k| && -Radius(k) <= dy <= Radius(k)
    ensures RowSum(t2, k, gain, s, cx, cy, dy, n) == Scale(c, RowSum(t1, k, gain, s, cx, cy, dy, n))
  {
    if n == 0 {
      ScaleZero(c);
    } else {
      RowSumHomogeneous(c, t1, t2, k, gain, s, cx, cy, dy, n - 1);
      var dx := n - 1 - Radius(k);
      var x, y := TapCoord(s, cx, dx), TapCoord(s, cy, dy);
      if !IsOutside(x, y, t2.Length0, t2.Length1) {
        var w := Weight(k, gain, dx, dy);
        ScaleScale(c, w, t1[x, y]);
        ScaleAdd(c, RowSum(t1, k, gain, s, cx, cy, dy, n - 1), Scale(w, t1[x, y]));
      }
    }
  }

  lemma {:induction false} WindowHomogeneous(c: real, t1: array2<Pixel>, t2: array2<Pixel>,
                                             k: seq<real>, gain: real, s: Sampling,
                                             cx: int, cy: int, m: nat)
    requires IsScaled(c, t1, t2)
    requires |k| % 2 == 1 && m <= |k|
    ensures Rows(t2, k, gain, s, cx, cy, m) == Scale(c, Rows(t1, k, gain, s, cx, cy, m))
  {
    if m == 0 {
      ScaleZero(c);
    } else {
      WindowHomogeneous(c, t1, t2, k, gain, s, cx, cy, m - 1);
      RowSumHomogeneous(c, t1, t2, k, gain, s, cx, cy, m - 1 - Radius(k), |k|);
      ScaleAdd(c, Rows(t1, k, gain, s, cx, cy, m - 1), RowSum(t1, k, gain, s, cx, cy, m - 1 - Radius(k), |k|));
    }
  }

  /** The synthesis rule is linear in the pair (analysis level, coarser
      synthesis level): it maps sums to sums and scaled inputs to the scaled
      output. */
  lemma UpscaleLinear(fine1: array2<Pixel>, coarse1: array2<Pixel>,
                      fine2: array2<Pixel>, coarse2: array2<Pixel>,
                      fine3: array2<Pixel>, coarse3: array2<Pixel>, x: int, y: int)
    requires IsSum(fine1, fine2, fine3) && IsSum(coarse1, coarse2, coarse3)
    ensures UpscaleAt(fine3, coarse3, x, y) == Add(UpscaleAt(fine1, coarse1, x, y), UpscaleAt(fine2, coarse2, x, y))
  {
    WindowAdditive(fine1, fine2, fine3, G, 1.0, Direct, x, y, |G|);
    WindowAdditive(coarse1, coarse2, coarse3, H1, H2, Upsampled, x, y, |H1|);
  }

  lemma UpscaleHomogeneous(c: real, fine1: array2<Pixel>, coarse1: array2<Pixel>,
                           fine2: array2<Pixel>, coarse2: array2<Pixel>, x: int, y: int)
    requires IsScaled(c, fine1, fine2) && IsScaled(c, coarse1, coarse2)
    ensures UpscaleAt(fine2, coarse2, x, y) == Scale(c, UpscaleAt(fine1, coarse1, x, y))
  {
    WindowHomogeneous(c, fine1, fine2, G, 1.0, Direct, x, y, |G|);
    WindowHomogeneous(c, coarse1, coarse2, H1, H2, Upsampled, x, y, |H1|);
    ScaleAdd(c, Window(fine1, G, 1.0, Direct, x, y), Window(coarse1, H1, H2, Upsampled, x, y));
  }

  /** The analysis and base-filter rules map a sum of inputs to the sum of
      the outputs. */
  lemma DownscaleAdditive(t1: array2<Pixel>, t2: array2<Pixel>, t3: array2<Pixel>, x: int, y: int)
    requires IsSum(t1, t2, t3)
    ensures DownscaleAt(t3, x, y) == Add(DownscaleAt(t1, x, y), DownscaleAt(t2, x, y))
    ensures FilterAt(t3, x, y) == Add(FilterAt(t1, x, y), FilterAt(t2, x, y))
  {
    WindowAdditive(t1, t2, t3, H1, 1.0, Direct, x * 2 - 10, y * 2 - 10, |H1|);
    WindowAdditive(t1, t2, t3, G, 1.0, Direct, x, y, |G|);
  }

  /** The analysis and base-filter rules map an input scaled by `c` to the
      output scaled by `c`. */
  lemma DownscaleHomogeneous(c: real, t1: array2<Pixel>, t2: array2<Pixel>, x: int, y: int)
    requires IsScaled(c, t1, t2)
    ensures DownscaleAt(t2, x, y) == Scale(c, DownscaleAt(t1, x, y))
    ensures FilterAt(t2, x, y) == Scale(c, FilterAt(t1, x, y))
  {
    WindowHomogeneous(c, t1, t2, H1, 1.0, Direct, x * 2 - 10, y * 2 - 10, |H1|);
    WindowHomogeneous(c, t1, t2, G, 1.0, Direct, x, y, |G|);
  }

  /** An all-zero level gives an all-zero analysis and base-filter output. */
  lemma DownscaleOfZero(t: array2<Pixel>, x: int, y: int)
    requires forall i, j :: 0 <= i < t.Length0 && 0 <= j < t.Length1 ==> t[i, j] == Zero
    ensures DownscaleAt(t, x, y) == Zero
    ensures FilterAt(t, x, y) == Zero
  {
    assert IsScaled(0.0, t, t);
    WindowHomogeneous(0.0, t, t, H1, 1.0, Direct, x * 2 - 10, y * 2 - 10, |H1|);
    WindowHomogeneous(0.0, t, t, G, 1.0, Direct, x, y, |G|);
  }

  // ---------------------------------------------------------------------------
  // Padding and cropping

  /** Padding a W×H image by `size` into (W+10)×(H+10) and cropping the result
      by `-size` back into W×H gives the image back exactly. */
  lemma PadRoundTrip(src: array2<Pixel>, mid: array2<Pixel>, dst: array2<Pixel>)
    requires mid.Length0 == src.Length0 + 2 * Size && mid.Length1 == src.Length1 + 2 * Size
    requires dst.Length0 == src.Length0 && dst.Length1 == src.Length1
    requires Drawn(mid, Padder(Size), src, src) && Drawn(dst, Padder(-Size), mid, mid)
    ensures forall x, y :: 0 <= x < src.Length0 && 0 <= y < src.Length1 ==> dst[x, y] == src[x, y]
  {
    forall x, y | 0 <= x < src.Length0 && 0 <= y < src.Length1
      ensures dst[x, y] == src[x, y]
    {
      assert dst[x, y] == PadAt(mid, -Size, x, y);
      assert mid[x + Size, y + Size] == PadAt(src, Size, x + Size, y + Size);
    }
  }

  /** Padding by `size` frames the image with a zero border of width `size`. */
  lemma PadFramesWithZero(src: array2<Pixel>, mid: array2<Pixel>, x: int, y: int)
    requires mid.Length0 == src.Length0 + 2 * Size && mid.Length1 == src.Length1 + 2 * Size
    requires Drawn(mid, Padder(Size), src, src)
    requires 0 <= x < mid.Length0 && 0 <= y < mid.Length1
    ensures (Size <= x < src.Length0 + Size && Size <= y < src.Length1 + Size) ==> mid[x, y] == src[x - Size, y - Size]
    ensures !(Size <= x < src.Length0 + Size && Size <= y < src.Length1 + Size) ==> mid[x, y] == Zero
  {
    assert mid[x, y] == PadAt(src, Size, x, y);
  }

  // ---------------------------------------------------------------------------
  // Coordinates between consecutive levels

  /** With level i of width w and level i+1 of width w/2 + 10 (as the
      levels are sized), every coarse tap of the synthesis shader for a texel
      of level i lies inside level i+1, so its bounds test never fires; and the
      coarse texel under the centre tap has its analysis centre at most one
      texel left of the fine texel, so the two passes agree on alignment. */
  lemma LevelAlignment(w: int, x: int, d: int)
    requires 0 <= x < w && -2 <= d <= 2
    ensures 0 <= TapCoord(Upsampled, x, d) < w / 2 + 2 * Size
    ensures x - 1 <= TapCoord(Upsampled, x, 0) * 2 - 10 <= x
  {
  }

  /** At the top and left edges the synthesis shader's coarse taps start at
      x + dx = -2 and -1. Truncating division sends them to coarse texels 4
      and 5; Dafny's floor division would send both to 4. */
  lemma EdgeTaps(v: int)
    requires -2 <= v < 0
    ensures TapCoord(Upsampled, v, 0) == (if v == -1 then 5 else 4)
    ensures v / 2 + 5 == 4
  {
  }
}
