# PoissonFiller: a verified model of the push-pull fill

`PoissonFiller` (an openFrameworks addon) fills the transparent regions of an
RGBA image by pushing and pulling on a multiresolution pyramid. It works on the
GPU:
- `init(width, height)` allocates one analysis target (`ins[i]`) and one
  synthesis target (`outs[i]`) per pyramid level.
- `process(src)` runs a chain of fragment-shader passes over those targets:
  1. pad the source by a 5-texel border;
  2. decimate level by level with the 5×5 `h1⊗h1` kernel;
  3. smooth the coarsest level with the 3×3 `g⊗g` kernel;
  4. upsample back level by level, adding `g⊗g` of the analysis level to
     `h2·h1⊗h1` of the coarser synthesis level;
  5. crop the border off again.

This project models that core in Dafny:
- A render target is an `array2<Pixel>` indexed `[x, y]`, with `Length0` as its
  width.
- A texel is four exact reals.
- Every shader is a per-texel rule: `Shaders.ShadeAt` and the window functions
  `RowSum`/`Rows`/`Window`, which accumulate taps in the shaders' own loop order.

The imperative parts keep the source's form:
- The shader bodies' `dy`/`dx` loops become `AccumulateWindow` (the outer `dy`
  loop) and `AccumulateRow` (the inner `dx` loop).
- A shader's `main()` becomes `ShadePixel`.
- The draw of a full-screen quad into a target becomes `Draw`, which writes
  every texel.
- `init` becomes the constructor `PoissonFiller.Init`. Its level loop,
  `NewLevels`, sizes the levels.
- `process` becomes `PoissonFiller.Process`, which runs the passes in the
  source's order:
  - `Analyse` runs the padder and the ascending loop;
  - `Synthesise` runs the base filter and then `Upsample`, the descending loop;
  - `UpsampleLevel` is one round of the descending loop.

`Process` is specified by the equations that hold in its final state:
- every target equals its pass applied to the final contents of that pass's
  inputs;
- this holds only when the passes write in data-flow order.

Modules:
- `Pixels`: texels, their arithmetic, and the normalize rule.
- `Shaders`: constants, the bounds test, the zero-boundary reference window,
  the per-texel rules with what each reads, and the shader bodies with the
  draw call.
- `ShaderProperties`: linearity, pad/crop and level-alignment lemmas.
- `Levels`: the depth and the level sizes.
- `Filler`: the `PoissonFiller` class.

Integer division:
- In the synthesis shader, `newPix /= 2` (src/ofxPoissonFiller.hpp:122) is
  applied to coordinates that can be −1 or −2 at the left and top edges.
- GLSL leaves the sign of that quotient to the implementation; GPUs truncate
  toward zero.
- The model truncates, through `Shaders.TruncHalf`, and does not use Dafny's
  Euclidean `/`.

Level sizes:
- The code halves the padded size of the previous level, not its interior, and
  then adds the 10-texel border again (src/ofxPoissonFiller.hpp:184-187).
- The model follows the code. A padded level is therefore 10 to 20 texels
  larger than the source side halved `i` times.
- The coarsest padded level is at most 22 texels wide along the shorter side.

## Model

| member | source | states |
|---|---|---|
| Shaders.IsOutside | src/ofxPoissonFiller.hpp:22-24 | `isOutside(pos, size)` holds exactly when `pos` is not a texel of a `size.x × size.y` texture, i.e. unless `0 ≤ x < size.x` and `0 ≤ y < size.y` |
| Shaders.PadAt | src/ofxPoissonFiller.hpp:47-52 | the padder's texel `(x, y)` is input texel `(x − padding, y − padding)` when that lies in the input, and zero otherwise |
| Shaders.DownscaleRule | src/ofxPoissonFiller.hpp:61-73 | the downscale texel `(x, y)` is the sum over `dx, dy ∈ [−2, 2]` of `h1[dx+2]·h1[dy+2]` times the finer level's texel at `(2x − 10 + dx, 2y − 10 + dy)`, where a tap outside the finer level contributes nothing |
| Shaders.FilterRule | src/ofxPoissonFiller.hpp:81-93 | the base-filter texel `(x, y)` is the sum over `dx, dy ∈ [−1, 1]` of `g[dx+1]·g[dy+1]` times the input texel at `(x + dx, y + dy)`, where a tap outside the input contributes nothing |
| Shaders.UpscaleRule | src/ofxPoissonFiller.hpp:106-130 | the synthesis texel `(x, y)` is the base-filter sum over `ins[i]` at `(x, y)` plus the sum over `dx, dy ∈ [−2, 2]` of `h2·h1[dx+2]·h1[dy+2]` times `outs[i+1]` at `(trunc((x+dx)/2) + 5, trunc((y+dy)/2) + 5)`, where taps outside either texture contribute nothing |
| Shaders.TruncHalf | src/ofxPoissonFiller.hpp:122 | the quotient of `v / 2` rounded toward zero: the remainder `v - 2q` lies in [0, 1] for non-negative `v` and in [−1, 0] for negative `v`; it agrees with floor division for `v ≥ 0` and is one more than it for odd negative `v` |
| Shaders.AccumulateRow | src/ofxPoissonFiller.hpp:65-71 | the inner `dx` loop for row `dy`, skipping taps for which `isOutside` holds, leaves in the accumulator its initial value plus that row of the kernel window, accumulated in loop order |
| Shaders.AccumulateWindow | src/ofxPoissonFiller.hpp:64-72 | the nested `dy`/`dx` loops, skipping taps for which `isOutside` holds, leave in the accumulator its initial value plus the full kernel window, accumulated row by row in loop order |
| Shaders.ShadePixel | src/ofxPoissonFiller.hpp:46-131 | each shader's `main()` returns exactly the per-texel rule: padder copies `(x − p, y − p)` or writes zero; downscale gives the `h1⊗h1` window centred at `(2x − 10, 2y − 10)`; filter gives the `g⊗g` window at `(x, y)`; upscale gives the `g⊗g` window of `tex0` plus the `h2·h1⊗h1` window of `tex1` sampled at `(trunc((x+dx)/2) + 5, trunc((y+dy)/2) + 5)` |
| Shaders.Draw | src/ofxPoissonFiller.hpp:194-246 | a pass writes only its target, and every texel of it equals the shader's rule for that texel |
| Shaders.RowSumIsZeroBoundary | src/ofxPoissonFiller.hpp:22-24 | one row of taps, with out-of-range taps skipped, equals the same row with every tap read under the zero-outside rule |
| Shaders.WindowIsZeroBoundary | src/ofxPoissonFiller.hpp:22-24 | a window with out-of-range taps skipped equals the reference window that reads zero outside the texture, so a tap outside the input contributes nothing |
| ShaderProperties.RowSumAdditive | src/ofxPoissonFiller.hpp:70 | a row of taps over the texel-wise sum of two textures is the sum of the rows |
| ShaderProperties.WindowAdditive | src/ofxPoissonFiller.hpp:64-72 | a kernel window over the texel-wise sum of two equally sized textures is the sum of the two windows |
| ShaderProperties.RowSumHomogeneous | src/ofxPoissonFiller.hpp:70 | a row of taps over a texture scaled by `c` is the row scaled by `c` |
| ShaderProperties.WindowHomogeneous | src/ofxPoissonFiller.hpp:64-72 | a kernel window over a texture scaled by `c` is the window scaled by `c` |
| ShaderProperties.UpscaleLinear | src/ofxPoissonFiller.hpp:107-130 | the synthesis rule is additive in the pair (analysis level, coarser synthesis level) |
| ShaderProperties.UpscaleHomogeneous | src/ofxPoissonFiller.hpp:107-130 | scaling both the analysis level and the coarser synthesis level by `c` scales the synthesis output by `c` |
| ShaderProperties.DownscaleAdditive | src/ofxPoissonFiller.hpp:61-93 | the analysis rule and the base filter are additive in their input texture |
| ShaderProperties.DownscaleHomogeneous | src/ofxPoissonFiller.hpp:61-93 | the analysis rule and the base filter map an input scaled by `c` to the output scaled by `c`, so with additivity they are linear |
| ShaderProperties.DownscaleOfZero | src/ofxPoissonFiller.hpp:63-73 | an all-zero input gives zero from the analysis rule and from the base filter, at every output texel |
| ShaderProperties.PadRoundTrip | src/ofxPoissonFiller.hpp:47-52 | padding a W×H image by `+size` into (W+10)×(H+10) and then by `-size` into W×H gives back every texel of the image |
| ShaderProperties.PadFramesWithZero | src/ofxPoissonFiller.hpp:47-52 | after padding by `+size`, texel `(x, y)` is source texel `(x − 5, y − 5)` inside the image area and zero in the 5-texel frame around it |
| ShaderProperties.LevelAlignment | src/ofxPoissonFiller.hpp:119-124 | for a texel of a level of width `w`, every coarse tap of the synthesis shader lies inside a coarser level of width `w/2 + 10`, so its bounds test never fires; the coarse texel under the centre tap has its analysis centre `2·c − 10` at `x − 1` or `x` |
| ShaderProperties.EdgeTaps | src/ofxPoissonFiller.hpp:119-124 | at the top and left edges, the coarse taps at `x + dx = −2` and `−1` read coarse texels 4 and 5 under truncating division, whereas floor division would send both to texel 4 |
| Levels.CeilLog2 | src/ofxPoissonFiller.hpp:177 | the depth `ceil(log2(m))` on integers: `2^k ≥ m`, `2^(k−1) < m` when `k ≥ 1`, and `k ≥ 1` exactly when `m ≥ 2` |
| Levels.CeilLog2IsLeast | src/ofxPoissonFiller.hpp:177 | no exponent `j` with `2^j ≥ m` is below the depth, so it is the least such exponent |
| Levels.LevelSize | src/ofxPoissonFiller.hpp:175-187 | the padded size of level `i` (`n + 10`, then the previous size halved plus 10) is always more than the two 5-texel borders |
| Levels.HalveBounds | src/ofxPoissonFiller.hpp:177-185 | a side of at most `2·2^i` halved `i` times is at most 2; a side of at least `2^i` halved `i` times is at least 1 |
| Levels.LevelSizeBounds | src/ofxPoissonFiller.hpp:184-187 | level `i`'s padded size lies between the source side halved `i` times plus 10 and that plus 20, because the border is halved and re-added at each level |
| Levels.CoarsestLevel | src/ofxPoissonFiller.hpp:177-188 | along the shorter side `m ≥ 2`, the side halved `depth − 1` times is 1 or 2 texels, and the coarsest padded level is at most 22 texels |
| Pixels.Normalize | src/ofxPoissonFiller.hpp:137-139 | the normalize rule sets alpha to 1 and gives colour channels that, multiplied by the input alpha, give back the premultiplied channels |
| Pixels.NormalizeUndoesPremultiply | src/ofxPoissonFiller.hpp:137-139 | normalizing a colour premultiplied by any nonzero weight gives the straight colour with alpha 1 |
| Filler.PoissonFiller.Init | src/ofxPoissonFiller.hpp:157-188 | after `init`: `depth` is `ceil(log2(min(W, H)))`; `ins` and `outs` both have `depth` targets; `ins[i]` and `outs[i]` are both sized `LevelSize(W, i) × LevelSize(H, i)` (level 0 is (W+10)×(H+10), each next is the previous halved plus 10); `output` and `shift` are W×H; all targets are fresh and distinct; the target sets `Ins` and `Outs` hold exactly the elements of `ins` and `outs` |
| Filler.PoissonFiller.NewLevels | src/ofxPoissonFiller.hpp:175-188 | the level loop of `init` returns `d` fresh analysis and `d` fresh synthesis targets, never shared between the two kinds; level `k` of each kind is sized `LevelSize(W, k) × LevelSize(H, k)` |
| Filler.PoissonFiller.Process | src/ofxPoissonFiller.hpp:191-246 | after `process(src)`: `ins[0]` is `src` padded by 5; each `ins[i]` is the analysis of `ins[i−1]`; `outs[depth−1]` is the filtered `ins[depth−1]`; each `outs[i]` is the synthesis of `ins[i]` and `outs[i+1]`; `shift` is `outs[0]` cropped by 5; only the pyramid targets (the sets `Ins` and `Outs`, which hold exactly the elements of `ins` and `outs`) and `shift` are written, and the filler stays valid; it requires `depth ≥ 1`, which `outs.back()` needs |
| Filler.PoissonFiller.Analyse | src/ofxPoissonFiller.hpp:194-214 | the padder pass and the ascending analysis loop leave `ins[0]` as the padded source and each `ins[i]` as the analysis of `ins[i−1]`, writing only the analysis targets |
| Filler.PoissonFiller.Synthesise | src/ofxPoissonFiller.hpp:216-237 | the base filter and the descending synthesis loop leave `outs[depth−1]` as the filtered coarsest analysis level and each `outs[i]` as the synthesis of `ins[i]` and `outs[i+1]`, writing only the synthesis targets |
| Filler.PoissonFiller.Upsample | src/ofxPoissonFiller.hpp:225-237 | the descending loop leaves each `outs[i]` below the coarsest as the synthesis of `ins[i]` and `outs[i+1]`, and never writes the coarsest synthesis level |
| Filler.PoissonFiller.UpsampleLevel | src/ofxPoissonFiller.hpp:226-236 | one round of the descending loop writes `outs[i]` as the synthesis of `ins[i]` and `outs[i+1]`, and keeps every coarser synthesis level as it was |

## Left out

- Shader compilation and linking, and the vertex shader (src/ofxPoissonFiller.hpp:30-41, 143-148, 160-165), are GPU back-end calls.
- `drawQuad`, the plane primitive and its texture-coordinate mapping, FBO allocation and binding, `ofClear`, and the alpha-blending toggles (src/ofxPoissonFiller.hpp:150-154, 165-173, 192, 195, 255) are graphics-context plumbing; targets are plain arrays. Every draw overwrites every texel of its target, so the clear before it has no visible effect.
- The conversion from texture coordinates to texel indices (lines 47, 63, 83, 108) is rasterisation detail; the fragment index is taken as the texel coordinate.
- Shaders.Draw: requires a filter or synthesis target to have the size of the texture on unit 0. Those shaders derive the texel index from that texture's size, and only then is it the target's own index. Every such draw in `process` meets this, since `ins[i]` and `outs[i]` share a size.
- Shaders.Draw: requires the target to differ from the textures it samples. Reading a texture that is being rendered to is undefined on the GPU, and `process` never does it.
- A single-texture shader receives its texture on both units, because texture unit 1 is only sampled by the synthesis shader.
- Float rounding and the numeric values of `h1`, `g` and `h2`: weights are exact reals. Nothing is claimed about their normalisation or symmetry (the two halves of `h1` differ in the last digits).
- The normalize draw into `output` (lines 248-253) is left out, because its quad size comes from the host window (`ofGetWidth()`, `ofGetHeight()`) and it samples with `textureLod`. Only its per-texel rule is modelled, as `Pixels.Normalize`.
- Pixels.Normalize: requires a nonzero alpha, because the shader divides without a guard.
- Filler.PoissonFiller.Init: models `init` on a freshly constructed filler. A second call, which would append further levels to `ins` and `outs`, is not modelled.
- Filler.PoissonFiller.Init: requires width and height of at least 1. For a zero side, `log2(0)` is minus infinity and its conversion to `int` is undefined. For a negative side, `log2` gives NaN, whose conversion is undefined too, and allocating a target with a negative size fails.
- Filler.PoissonFiller.Process: requires `depth ≥ 1` (a shorter side of at least 2). With `depth == 0`, `outs.back()` and `ins[0]` are accesses to an empty vector.
- `getResult` only returns `output` and is not modelled.
- The per-texel parallelism of the GPU: each pass is a sequential loop over the target's texels, which computes the same result because no pass reads its own target.
- Filler.PoissonFiller.Init: allocates `output` and `shift` after the pyramid levels rather than before. The order of allocations is not observable, and the contract states only that all targets are fresh and distinct.
