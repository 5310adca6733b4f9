/** The push-pull Poisson filler: it owns the render targets of the pyramid
    and runs the passes over them in order. */
module Filler {
  import opened Pixels
  import opened Shaders
  import opened Levels

  /** Target `t` has the padded size of level `i` of a width×height source. */
  ghost predicate LevelSized(t: array2<Pixel>, width: int, height: int, i: nat)
    requires width >= 1 && height >= 1
  {
    t.Length0 == LevelSize(width, i) && t.Length1 == LevelSize(height, i)
  }

  class PoissonFiller {
    var width: int
    var height: int
    var depth: nat
    /** Analysis levels, finest first. */
    var ins: seq<array2<Pixel>>
    /** Synthesis levels, finest first. */
    var outs: seq<array2<Pixel>>
    /** The source-sized target of the normalize pass. */
    var output: array2<Pixel>
    /** The finest synthesis level with its border cropped. */
    var shift: array2<Pixel>

    /** The analysis and the synthesis targets, as sets. */
    ghost var Ins: set<array2<Pixel>>
    ghost var Outs: set<array2<Pixel>>
    /** The level of each pyramid target, which keeps the targets of one
        kind apart. */
    ghost var Level: map<array2<Pixel>, int>

    /** Sizes fixed by `init`, and all render targets distinct. */
    ghost predicate Valid()
      reads this
    {
      width >= 1 && height >= 1 &&
      depth == CeilLog2(Min(width, height)) &&
      |ins| == depth && |outs| == depth &&
      output.Length0 == width && output.Length1 == height &&
      shift.Length0 == width && shift.Length1 == height &&
      (forall i :: 0 <= i < depth ==> LevelSized(ins[i], width, height, i) && LevelSized(outs[i], width, height, i)) &&
      (forall i :: 0 <= i < depth ==> ins[i] in Ins && ins[i] in Level && Level[ins[i]] == i) &&
      (forall i :: 0 <= i < depth ==> outs[i] in Outs && outs[i] in Level && Level[outs[i]] == i) &&
      Ins !! Outs && shift !in Ins + Outs && output !in Ins + Outs && shift != output
    }

    /** The two target sets hold exactly the pyramid levels, so a frame of
        `Ins` and `Outs` names the pyramid targets and nothing else. */
    ghost predicate Covers()
      reads this
    {
      Ins == (set a | a in ins) && Outs == (set a | a in outs)
    }

    /** `init(width, height)` on a freshly constructed filler: allocates the
        two source-sized targets, computes the depth, and allocates one
        analysis and one synthesis target per level, each level half the
        previous padded size plus the border. */
    constructor Init(width: int, height: int)
      requires width >= 1 && height >= 1
      ensures Valid() && Covers()
      ensures this.width == width && this.height == height
      ensures fresh(Ins) && fresh(Outs) && fresh(output) && fresh(shift)
    {
      var d := CeilLog2(Min(width, height));
      var levelsIn, levelsOut, setIn, setOut, level := NewLevels(width, height, d);
      var out := new Pixel[width, height];
      var sh := new Pixel[width, height];
      this.width, this.height, depth := width, height, d;
      ins, outs := levelsIn, levelsOut;
      output, shift := out, sh;
      Ins, Outs, Level := (set a | a in levelsIn), (set a | a in levelsOut), level;
    }

    /** The level loop of `init`: `d` fresh analysis and synthesis targets,
        level 0 padded by the border on every side and each next level half
        the previous padded size plus the border. */
    static method NewLevels(width: int, height: int, d: nat)
      returns (levelsIn: seq<array2<Pixel>>, levelsOut: seq<array2<Pixel>>,
               ghost setIn: set<array2<Pixel>>, ghost setOut: set<array2<Pixel>>,
               ghost level: map<array2<Pixel>, int>)
      requires width >= 1 && height >= 1
      ensures |levelsIn| == d && |levelsOut| == d
      ensures forall k :: 0 <= k < d ==> LevelSized(levelsIn[k], width, height, k) && LevelSized(levelsOut[k], width, height, k)
      ensures forall k :: 0 <= k < d ==> levelsIn[k] in setIn && levelsIn[k] in level && level[levelsIn[k]] == k
      ensures forall k :: 0 <= k < d ==> levelsOut[k] in setOut && levelsOut[k] in level && level[levelsOut[k]] == k
      ensures fresh(setIn) && fresh(setOut) && setIn !! setOut
    {
      var w, h := width + 2 * Size, height + 2 * Size;
      levelsIn, levelsOut := [], [];
      setIn, setOut, level := {}, {}, map[];
      for i := 0 to d
        invariant |levelsIn| == i && |levelsOut| == i
        invariant w == LevelSize(width, i) && h == LevelSize(height, i)
        invariant forall k :: 0 <= k < i ==> LevelSized(levelsIn[k], width, height, k) && LevelSized(levelsOut[k], width, height, k)
        invariant forall k :: 0 <= k < i ==> levelsIn[k] in setIn && levelsIn[k] in level && level[levelsIn[k]] == k
        invariant forall k :: 0 <= k < i ==> levelsOut[k] in setOut && levelsOut[k] in level && level[levelsOut[k]] == k
        invariant fresh(setIn) && fresh(setOut) && setIn !! setOut
      {
        var lin := new Pixel[w, h];
        var lout := new Pixel[w, h];
        assert LevelSized(lin, width, height, i) && LevelSized(lout, width, height, i);
        levelsIn, levelsOut := levelsIn + [lin], levelsOut + [lout];
        setIn, setOut := setIn + {lin}, setOut + {lout};
        level := level[lin := i][lout := i];
        w := w / 2 + 2 * Size;
        h := h / 2 + 2 * Size;
      }
    }

    /** `process(src)`: pad the source into `ins[0]`, build the analysis
        levels finest to coarsest, filter the coarsest into the last synthesis
        level, build the synthesis levels coarsest to finest, and crop the
        finest into `shift`. Afterwards every target holds its pass applied to
        the final contents of that pass's inputs, which fixes the data flow of
        the chain. `outs.back()` needs at least one level. */
    method Process(src: array2<Pixel>)
      requires Valid()
      requires depth >= 1
      requires Covers()
      requires src !in Ins + Outs && src != shift
      modifies Ins, Outs, shift
      ensures Valid() && Covers()
      ensures Drawn(ins[0], Padder(Size), src, src)
      ensures forall i :: 1 <= i < depth ==> Drawn(ins[i], Downscale, ins[i - 1], ins[i - 1])
      ensures Drawn(outs[depth - 1], Filter, ins[depth - 1], ins[depth - 1])
      ensures forall i :: 0 <= i < depth - 1 ==> Drawn(outs[i], Upscale, ins[i], outs[i + 1])
      ensures Drawn(shift, Padder(-Size), outs[0], outs[0])
    {
      Analyse(src);
      Synthesise();
      Draw(Padder(-Size), outs[0], outs[0], shift);
    }

    /** The first half of `process`: the padder into `ins[0]`, then the
        analysis shader into each next level. */
    method Analyse(src: array2<Pixel>)
      requires Valid()
      requires depth >= 1
      requires src !in Ins
      modifies Ins
      ensures Drawn(ins[0], Padder(Size), src, src)
      ensures forall i :: 1 <= i < depth ==> Drawn(ins[i], Downscale, ins[i - 1], ins[i - 1])
    {
      var ins, depth := this.ins, this.depth;
      ghost var level := Level;
      assert forall k :: 0 <= k < depth ==> ins[k] in level && level[ins[k]] == k;
      Draw(Padder(Size), src, src, ins[0]);
      for i := 1 to depth
        invariant Drawn(ins[0], Padder(Size), src, src)
        invariant forall k :: 1 <= k < i ==> Drawn(ins[k], Downscale, ins[k - 1], ins[k - 1])
      {
        Draw(Downscale, ins[i - 1], ins[i - 1], ins[i]);
      }
    }

    /** The second half of `process`: the base filter into the last
        synthesis level, then the synthesis shader into each finer level. */
    method Synthesise()
      requires Valid()
      requires depth >= 1
      modifies Outs
      ensures Drawn(outs[depth - 1], Filter, ins[depth - 1], ins[depth - 1])
      ensures forall i :: 0 <= i < depth - 1 ==> Drawn(outs[i], Upscale, ins[i], outs[i + 1])
    {
      var ins, outs, depth := this.ins, this.outs, this.depth;
      assert ins[depth - 1] in Ins && outs[depth - 1] in Outs;
      Draw(Filter, ins[depth - 1], ins[depth - 1], outs[depth - 1]);
      Upsample();
    }

    /** The descending loop of `process`: the synthesis shader into each
        level but the coarsest, from the coarsest up. */
    method Upsample()
      requires Valid()
      requires depth >= 1
      modifies Outs - {outs[depth - 1]}
      ensures forall i :: 0 <= i < depth - 1 ==> Drawn(outs[i], Upscale, ins[i], outs[i + 1])
    {
      for i := depth - 1 downto 0
        invariant forall k :: i <= k < depth - 1 ==> Drawn(outs[k], Upscale, ins[k], outs[k + 1])
      {
        UpsampleLevel(i);
      }
    }

    /** One round of the descending loop: the synthesis shader into level
        `i`, which leaves the coarser synthesis levels as they were. */
    method UpsampleLevel(i: int)
      requires Valid()
      requires 0 <= i < depth - 1
      requires forall k :: i < k < depth - 1 ==> Drawn(outs[k], Upscale, ins[k], outs[k + 1])
      modifies outs[i]
      ensures forall k :: i <= k < depth - 1 ==> Drawn(outs[k], Upscale, ins[k], outs[k + 1])
    {
      var ins, outs, depth := this.ins, this.outs, this.depth;
      ghost var level, setIn, setOut := Level, Ins, Outs;
      assert outs[i] in setOut && setIn !! setOut && outs[i] in level && level[outs[i]] == i;
      assert forall k :: 0 <= k < depth ==> ins[k] in setIn;
      assert forall k :: i < k < depth ==> outs[k] in level && level[outs[k]] == k;
      Draw(Upscale, ins[i], outs[i + 1], outs[i]);
    }
  }
}
