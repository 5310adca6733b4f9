/** RGBA texels of the 32-bit float render targets. Colour is premultiplied by
    the alpha channel, which carries the confidence (weight) of the sample. */
module Pixels {

  /** One texel (`vec4`); channels are exact reals, float rounding is not modelled. */
  datatype Pixel = Pixel(r: real, g: real, b: real, a: real)

  /** The value `vec4(0.0)` written for every out-of-range read. */
  const Zero := Pixel(0.0, 0.0, 0.0, 0.0)

  /** Channel-wise `+` on `vec4`. */
  function Add(p: Pixel, q: Pixel): Pixel
  {
    Pixel(p.r + q.r, p.g + q.g, p.b + q.b, p.a + q.a)
  }

  /** `float * vec4`. */
  function Scale(w: real, p: Pixel): Pixel
  {
    Pixel(w * p.r, w * p.g, w * p.b, w * p.a)
  }

  lemma AddZero(p: Pixel)
    ensures Add(Zero, p) == p && Add(p, Zero) == p
  {
  }

  lemma AddAssoc(p: Pixel, q: Pixel, u: Pixel)
    ensures Add(Add(p, q), u) == Add(p, Add(q, u))
  {
  }

  lemma AddInterchange(p: Pixel, q: Pixel, u: Pixel, v: Pixel)
    ensures Add(Add(p, q), Add(u, v)) == Add(Add(p, u), Add(q, v))
  {
  }

  lemma ScaleZero(w: real)
    ensures Scale(w, Zero) == Zero
  {
  }

  lemma ScaleAdd(w: real, p: Pixel, q: Pixel)
    ensures Scale(w, Add(p, q)) == Add(Scale(w, p), Scale(w, q))
  {
  }

  lemma ScaleScale(c: real, w: real, p: Pixel)
    ensures Scale(c, Scale(w, p)) == Scale(w, Scale(c, p))
  {
    var r, g, b, a := p.r, p.g, p.b, p.a;
    MulSwap(c, w, r);
    MulSwap(c, w, g);
    MulSwap(c, w, b);
    MulSwap(c, w, a);
    calc {
      Scale(c, Scale(w, p));
      Pixel(c * (w * r), c * (w * g), c * (w * b), c * (w * a));
      Pixel(w * (c * r), w * (c * g), w * (c * b), w * (c * a));
      Scale(w, Scale(c, p));
    }
  }

  lemma MulSwap(c: real, w: real, x: real)
    ensures c * (w * x) == w * (c * x)
  {
    assert c * (w * x) == (c * w) * x;
  }

  /** Straight-alpha colour from a premultiplied one: `rgb / a`, alpha set to 1.
      The shader divides without a guard, so the caller must supply a nonzero weight. */
  function Normalize(p: Pixel): (q: Pixel)
    requires p.a != 0.0
    ensures q.a == 1.0
    ensures q.r * p.a == p.r && q.g * p.a == p.g && q.b * p.a == p.b
  {
    Pixel(p.r / p.a, p.g / p.a, p.b / p.a, 1.0)
  }

  /** Normalizing undoes premultiplication by any nonzero weight. */
  lemma NormalizeUndoesPremultiply(r: real, g: real, b: real, w: real)
    requires w != 0.0
    ensures Normalize(Pixel(w * r, w * g, w * b, w)) == Pixel(r, g, b, 1.0)
  {
    var q := Normalize(Pixel(w * r, w * g, w * b, w));
    assert q.r * w == w * r;
    assert q.g * w == w * g;
    assert q.b * w == w * b;
  }
}
