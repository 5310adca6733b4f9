/** The five fragment shaders of the filler, each read as a rule that gives one
    output texel from the texels of the bound input textures, and the draw call
    that applies a rule to every texel of a render target. */
module Shaders {
  import opened Pixels

  /** Border (`size`) added on every side of every pyramid level. */
  const Size := 5

  /** The 5-tap analysis and interpolation kernel `h1`, exactly as written;
      its two halves differ in the last digits, so it is not symmetric. */
  const H1: seq<real> := [0.1507146, 0.6835785, 1.0334191, 0.6836, 0.1507]

  /** The 3-tap smoothing kernel `g`. */
  const G: seq<real> := [0.0311849, 0.7752854, 0.0311849]

  /** The extra weight `h2` of the coarse taps in the synthesis shader. */
  const H2: real := 0.0269546

  /** `isOutside(pos, size)` of the shader header: (x, y) is not a texel of a
      w×h texture. */
  predicate IsOutside(x: int, y: int, w: int, h: int): (b: bool)
    ensures b <==> !(0 <= x < w && 0 <= y < h)
  {
    x < 0 || y < 0 || x >= w || y >= h
  }

  /** Dirichlet-zero read: the texel at (x, y), or zero outside the texture. */
  function Fetch(t: array2<Pixel>, x: int, y: int): Pixel
    reads t
  {
    if IsOutside(x, y, t.Length0, t.Length1) then Zero else t[x, y]
  }

  /** GLSL integer `v / 2`, read as rounding toward zero (what GPUs do; the
      language leaves negative operands implementation-defined). Dafny's own
      `/` rounds toward minus infinity on negative operands. */
  function TruncHalf(v: int): (q: int)
    ensures v >= 0 ==> 0 <= v - 2 * q <= 1
    ensures v < 0 ==> -1 <= v - 2 * q <= 0
    ensures v >= 0 ==> q == v / 2
    ensures v < 0 && v % 2 == 1 ==> q == v / 2 + 1
  {
    if v >= 0 then v / 2 else -((-v) / 2)
  }

  /** How a tap offset is turned into a texel coordinate: `Direct` adds it to
      the centre; `Upsampled` adds it, halves the sum and moves into the
      coarser level's border (`newPix /= 2; newPix += 5`). */
  datatype Sampling = Direct | Upsampled

  function TapCoord(s: Sampling, c: int, d: int): int
  {
    match s
    case Direct => c + d
    case Upsampled => TruncHalf(c + d) + 5
  }

  /** Kernels are odd-length; index `d + Radius(k)` holds offset `d`. */
  function Radius(k: seq<real>): int
  {
    |k| / 2
  }

  /** Weight of tap (dx, dy): `gain * k[dx] * k[dy]` in the shaders' order. */
  function Weight(k: seq<real>, gain: real, dx: int, dy: int): real
    requires |k| % 2 == 1 && -Radius(k) <= dx <= Radius(k) && -Radius(k) <= dy <= Radius(k)
  {
    gain * k[dx + Radius(k)] * k[dy + Radius(k)]
  }

  /** Accumulation of the first `n` taps (dx = -r, ..., n - 1 - r) of row `dy`
      of a separable window, in loop order, skipping taps outside `t`. */
  function RowSum(t: array2<Pixel>, k: seq<real>, gain: real, s: Sampling,
                  cx: int, cy: int, dy: int, n: nat): Pixel
    reads t
    requires |k| % 2 == 1 && n <= |k| && -Radius(k) <= dy <= Radius(k)
  {
    if n == 0 then Zero
    else
      var dx := n - 1 - Radius(k);
      var x, y := TapCoord(s, cx, dx), TapCoord(s, cy, dy);
      if IsOutside(x, y, t.Length0, t.Length1) then RowSum(t, k, gain, s, cx, cy, dy, n - 1)
      else Add(RowSum(t, k, gain, s, cx, cy, dy, n - 1), Scale(Weight(k, gain, dx, dy), t[x, y]))
  }

  /** Accumulation of the first `m` full rows (dy = -r, ..., m - 1 - r). */
  function Rows(t: array2<Pixel>, k: seq<real>, gain: real, s: Sampling,
                cx: int, cy: int, m: nat): Pixel
    reads t
    requires |k| % 2 == 1 && m <= |k|
  {
    if m == 0 then Zero
    else Add(Rows(t, k, gain, s, cx, cy, m - 1),
             RowSum(t, k, gain, s, cx, cy, m - 1 - Radius(k), |k|))
  }

  /** The whole `k ⊗ k` window around (cx, cy), scaled by `gain`. */
  function Window(t: array2<Pixel>, k: seq<real>, gain: real, s: Sampling,
                  cx: int, cy: int): Pixel
    reads t
    requires |k| % 2 == 1
  {
    Rows(t, k, gain, s, cx, cy, |k|)
  }

  // ---------------------------------------------------------------------------
  // Skipping an out-of-range tap is reading zero there

  /** Reference window: every tap is read with the zero-boundary rule and
      added, none is skipped. */
  function ZeroBoundaryRow(t: array2<Pixel>, k: seq<real>, gain: real, s: Sampling,
                           cx: int, cy: int, dy: int, n: nat): Pixel
    reads t
    requires |k| % 2 == 1 && n <= |k| && -Radius(k) <= dy <= Radius(k)
  {
    if n == 0 then Zero
    else
      var dx := n - 1 - Radius(k);
      Add(ZeroBoundaryRow(t, k, gain, s, cx, cy, dy, n - 1),
          Scale(Weight(k, gain, dx, dy), Fetch(t, TapCoord(s, cx, dx), TapCoord(s, cy, dy))))
  }

  /** The first `m` full rows of the reference window. */
  function ZeroBoundaryRows(t: array2<Pixel>, k: seq<real>, gain: real, s: Sampling,
                            cx: int, cy: int, m: nat): Pixel
    reads t
    requires |k| % 2 == 1 && m <= |k|
  {
    if m == 0 then Zero
    else Add(ZeroBoundaryRows(t, k, gain, s, cx, cy, m - 1),
             ZeroBoundaryRow(t, k, gain, s, cx, cy, m - 1 - Radius(k), |k|))
  }

  /** The whole reference window: the sum over every tap (dx, dy) of its
      weight times the zero-boundary read at the tap's coordinate. */
  function ZeroBoundaryWindow(t: array2<Pixel>, k: seq<real>, gain: real, s: Sampling,
                              cx: int, cy: int): Pixel
    reads t
    requires |k| % 2 == 1
  {
    ZeroBoundaryRows(t, k, gain, s, cx, cy, |k|)
  }

  lemma {:induction false} RowSumIsZeroBoundary(t: array2<Pixel>, k: seq<real>, gain: real, s: Sampling,
                                                cx: int, cy: int, dy: int, n: nat)
    requires |k| % 2 == 1 && n <= |k| && -Radius(k) <= dy <= Radius(k)
    ensures RowSum(t, k, gain, s, cx, cy, dy, n) == ZeroBoundaryRow(t, k, gain, s, cx, cy, dy, n)
  {
    if n > 0 {
      RowSumIsZeroBoundary(t, k, gain, s, cx, cy, dy, n - 1);
      var dx := n - 1 - Radius(k);
      ScaleZero(Weight(k, gain, dx, dy));
      AddZero(RowSum(t, k, gain, s, cx, cy, dy, n - 1));
    }
  }

  /** A shader that skips out-of-range taps computes exactly the window sum
      under the Dirichlet-zero boundary: an outside tap contributes nothing. */
  lemma {:induction false} WindowIsZeroBoundary(t: array2<Pixel>, k: seq<real>, gain: real, s: Sampling,
                                                cx: int, cy: int, m: nat)
    requires |k| % 2 == 1 && m <= |k|
    ensures Rows(t, k, gain, s, cx, cy, m) == ZeroBoundaryRows(t, k, gain, s, cx, cy, m)
  {
    if m > 0 {
      WindowIsZeroBoundary(t, k, gain, s, cx, cy, m - 1);
      RowSumIsZeroBoundary(t, k, gain, s, cx, cy, m - 1 - Radius(k), |k|);
    }
  }

  // ---------------------------------------------------------------------------
  // The per-texel rules of the shaders

  /** Padder: output (x, y) is input (x - padding, y - padding), zero when
      that texel is not in the input. */
  function PadAt(t: array2<Pixel>, padding: int, x: int, y: int): (r: Pixel)
    reads t
    ensures 0 <= x - padding < t.Length0 && 0 <= y - padding < t.Length1 ==> r == t[x - padding, y - padding]
    ensures !(0 <= x - padding < t.Length0 && 0 <= y - padding < t.Length1) ==> r == Zero
  {
    Fetch(t, x - padding, y - padding)
  }

  /** Downscale: the `h1 ⊗ h1` window of the finer level centred at
      (2x - 10, 2y - 10). */
  function DownscaleAt(t: array2<Pixel>, x: int, y: int): Pixel
    reads t
  {
    Window(t, H1, 1.0, Direct, x * 2 - 10, y * 2 - 10)
  }

  /** Base filter: the `g ⊗ g` window around (x, y). */
  function FilterAt(t: array2<Pixel>, x: int, y: int): Pixel
    reads t
  {
    Window(t, G, 1.0, Direct, x, y)
  }

  /** Upscale: the `g ⊗ g` window of the analysis level around (x, y) plus the
      `h2 · h1 ⊗ h1` window of the coarser synthesis level, sampled at
      ((x + dx) / 2 + 5, (y + dy) / 2 + 5). */
  function UpscaleAt(fine: array2<Pixel>, coarse: array2<Pixel>, x: int, y: int): Pixel
    reads fine, coarse
  {
    Add(Window(fine, G, 1.0, Direct, x, y), Window(coarse, H1, H2, Upsampled, x, y))
  }

  /** What the downscale rule reads: the sum over dx, dy in [-2, 2] of
      `h1[dx+2] * h1[dy+2]` times the finer level's texel at
      (2x - 10 + dx, 2y - 10 + dy), zero outside. */
  lemma DownscaleRule(t: array2<Pixel>, x: int, y: int)
    ensures DownscaleAt(t, x, y) == ZeroBoundaryWindow(t, H1, 1.0, Direct, x * 2 - 10, y * 2 - 10)
  {
    WindowIsZeroBoundary(t, H1, 1.0, Direct, x * 2 - 10, y * 2 - 10, |H1|);
  }

  /** What the base filter reads: the sum over dx, dy in [-1, 1] of
      `g[dx+1] * g[dy+1]` times the texel at (x + dx, y + dy), zero outside. */
  lemma FilterRule(t: array2<Pixel>, x: int, y: int)
    ensures FilterAt(t, x, y) == ZeroBoundaryWindow(t, G, 1.0, Direct, x, y)
  {
    WindowIsZeroBoundary(t, G, 1.0, Direct, x, y, |G|);
  }

  /** What the synthesis rule reads: the base-filter sum over the analysis
      level plus the sum over dx, dy in [-2, 2] of `h2 * h1[dx+2] * h1[dy+2]`
      times the coarser level's texel at
      (trunc((x + dx) / 2) + 5, trunc((y + dy) / 2) + 5), zero outside. */
  lemma UpscaleRule(fine: array2<Pixel>, coarse: array2<Pixel>, x: int, y: int)
    ensures UpscaleAt(fine, coarse, x, y)
         == Add(ZeroBoundaryWindow(fine, G, 1.0, Direct, x, y),
                ZeroBoundaryWindow(coarse, H1, H2, Upsampled, x, y))
  {
    WindowIsZeroBoundary(fine, G, 1.0, Direct, x, y, |G|);
    WindowIsZeroBoundary(coarse, H1, H2, Upsampled, x, y, |H1|);
  }

  /** A shader program with its uniforms. Textures are bound to units 0
      and 1; only the synthesis shader samples unit 1. */
  datatype Shader = Padder(padding: int) | Downscale | Filter | Upscale

  function ShadeAt(s: Shader, tex0: array2<Pixel>, tex1: array2<Pixel>, x: int, y: int): Pixel
    reads tex0, tex1
  {
    match s
    case Padder(padding) => PadAt(tex0, padding, x, y)
    case Downscale => DownscaleAt(tex0, x, y)
    case Filter => FilterAt(tex0, x, y)
    case Upscale => UpscaleAt(tex0, tex1, x, y)
  }

  /** Every texel of `dst` is what shader `s` computes for it. */
  ghost predicate Drawn(dst: array2<Pixel>, s: Shader, tex0: array2<Pixel>, tex1: array2<Pixel>)
    reads dst, tex0, tex1
  {
    forall x, y :: 0 <= x < dst.Length0 && 0 <= y < dst.Length1 ==>
      dst[x, y] == ShadeAt(s, tex0, tex1, x, y)
  }

  // ---------------------------------------------------------------------------
  // The shader bodies and the draw call

  /** The inner `dx` loop of a shader for row `dy`: add every in-range tap of
      that row of the window around (cx, cy) to `acc0`. */
  method AccumulateRow(t: array2<Pixel>, k: seq<real>, gain: real, s: Sampling,
                       cx: int, cy: int, dy: int, acc0: Pixel) returns (acc: Pixel)
    requires |k| % 2 == 1 && -Radius(k) <= dy <= Radius(k)
    ensures acc == Add(acc0, RowSum(t, k, gain, s, cx, cy, dy, |k|))
  {
    var r := Radius(k);
    acc := acc0;
    for dx := -r to r + 1
      invariant acc == Add(acc0, RowSum(t, k, gain, s, cx, cy, dy, dx + r))
    {
      var x, y := TapCoord(s, cx, dx), TapCoord(s, cy, dy);
      if IsOutside(x, y, t.Length0, t.Length1) {
        continue;
      }
      acc := Add(acc, Scale(Weight(k, gain, dx, dy), t[x, y]));
    }
  }

  /** The nested `dy`/`dx` loops of a shader: add every in-range tap of the
      window around (cx, cy) to `acc0`. */
  method AccumulateWindow(t: array2<Pixel>, k: seq<real>, gain: real, s: Sampling,
                          cx: int, cy: int, acc0: Pixel) returns (acc: Pixel)
    requires |k| % 2 == 1
    ensures acc == Add(acc0, Window(t, k, gain, s, cx, cy))
  {
    var r := Radius(k);
    acc := acc0;
    for dy := -r to r + 1
      invariant acc == Add(acc0, Rows(t, k, gain, s, cx, cy, dy + r))
    {
      ghost var done := Rows(t, k, gain, s, cx, cy, dy + r);
      ghost var row := RowSum(t, k, gain, s, cx, cy, dy, |k|);
      assert Rows(t, k, gain, s, cx, cy, dy + r + 1) == Add(done, row);
      acc := AccumulateRow(t, k, gain, s, cx, cy, dy, acc);
      AddAssoc(acc0, done, row);
    }
  }

  /** The `main()` of shader `s` for the fragment at (x, y). */
  method ShadePixel(s: Shader, tex0: array2<Pixel>, tex1: array2<Pixel>, x: int, y: int) returns (o: Pixel)
    ensures o == ShadeAt(s, tex0, tex1, x, y)
  {
    match s
    case Padder(padding) =>
      var cx, cy := x - padding, y - padding;
      if IsOutside(cx, cy, tex0.Length0, tex0.Length1) {
        o := Zero;
        return;
      }
      o := tex0[cx, cy];
    case Downscale =>
      o := AccumulateWindow(tex0, H1, 1.0, Direct, x * 2 - 10, y * 2 - 10, Zero);
      AddZero(DownscaleAt(tex0, x, y));
    case Filter =>
      o := AccumulateWindow(tex0, G, 1.0, Direct, x, y, Zero);
      AddZero(FilterAt(tex0, x, y));
    case Upscale =>
      o := AccumulateWindow(tex0, G, 1.0, Direct, x, y, Zero);
      AddZero(Window(tex0, G, 1.0, Direct, x, y));
      o := AccumulateWindow(tex1, H1, H2, Upsampled, x, y, o);
  }

  /** A full-target draw: runs the shader for every texel of `dst`. The
      fragment index is taken as the texel coordinate; the filter and upscale
      shaders derive it from `tex0`'s size, so their target has that size. */
  method Draw(s: Shader, tex0: array2<Pixel>, tex1: array2<Pixel>, dst: array2<Pixel>)
    requires dst != tex0 && dst != tex1
    requires (s.Filter? || s.Upscale?) ==> dst.Length0 == tex0.Length0 && dst.Length1 == tex0.Length1
    modifies dst
    ensures Drawn(dst, s, tex0, tex1)
  {
    for y := 0 to dst.Length1
      invariant forall i, j :: 0 <= i < dst.Length0 && 0 <= j < y ==>
        dst[i, j] == ShadeAt(s, tex0, tex1, i, j)
    {
      for x := 0 to dst.Length0
        invariant forall i, j :: 0 <= i < dst.Length0 && 0 <= j < y ==>
          dst[i, j] == ShadeAt(s, tex0, tex1, i, j)
        invariant forall i :: 0 <= i < x ==> dst[i, y] == ShadeAt(s, tex0, tex1, i, y)
      {
        var p := ShadePixel(s, tex0, tex1, x, y);
        dst[x, y] := p;
      }
    }
  }
}
