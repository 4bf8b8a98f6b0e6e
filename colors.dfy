/** ColorRGB of project/src/ColorRGB.cpp over the reals: the binary operators and Lerp are
    functions, MaxToOne and the compound operators update a ColorVar in place. */
module Colors {

  datatype ColorRGB = ColorRGB(r: real, g: real, b: real)

  const Red := ColorRGB(1.0, 0.0, 0.0)
  const Blue := ColorRGB(0.0, 0.0, 1.0)
  const Green := ColorRGB(0.0, 1.0, 0.0)
  const White := ColorRGB(1.0, 1.0, 1.0)
  const Black := ColorRGB(0.0, 0.0, 0.0)

  function Max(a: real, b: real): real
  {
    if a >= b then a else b
  }

  /** std::max(r, std::max(g, b)). */
  function MaxChannel(c: ColorRGB): (m: real)
    ensures c.r <= m && c.g <= m && c.b <= m
    ensures m == c.r || m == c.g || m == c.b
  {
    Max(c.r, Max(c.g, c.b))
  }

  function Add(c1: ColorRGB, c2: ColorRGB): ColorRGB
  {
    ColorRGB(c1.r + c2.r, c1.g + c2.g, c1.b + c2.b)
  }

  function Sub(c1: ColorRGB, c2: ColorRGB): ColorRGB
  {
    ColorRGB(c1.r - c2.r, c1.g - c2.g, c1.b - c2.b)
  }

  /** The channel-wise product. */
  function Mul(c1: ColorRGB, c2: ColorRGB): ColorRGB
  {
    ColorRGB(c1.r * c2.r, c1.g * c2.g, c1.b * c2.b)
  }

  /** The channel-wise quotient; the source divides unguarded, so every divisor channel must
      be non-zero. */
  function Div(c1: ColorRGB, c2: ColorRGB): ColorRGB
    requires c2.r != 0.0 && c2.g != 0.0 && c2.b != 0.0
  {
    ColorRGB(c1.r / c2.r, c1.g / c2.g, c1.b / c2.b)
  }

  function Scale(c: ColorRGB, s: real): ColorRGB
  {
    ColorRGB(c.r * s, c.g * s, c.b * s)
  }

  /** The global operator*(float, const ColorRGB&): defined as c * s. */
  function ScaleLeft(s: real, c: ColorRGB): ColorRGB
  {
    Scale(c, s)
  }

  function DivScalar(c: ColorRGB, s: real): ColorRGB
    requires s != 0.0
  {
    ColorRGB(c.r / s, c.g / s, c.b / s)
  }

  /** Lerp: Lerpf (MathHelpers.h, a parameter here) applied to each pair of channels. */
  function Lerp(c1: ColorRGB, c2: ColorRGB, factor: real, lerpf: (real, real, real) -> real): ColorRGB
  {
    ColorRGB(lerpf(c1.r, c2.r, factor), lerpf(c1.g, c2.g, factor), lerpf(c1.b, c2.b, factor))
  }

  /** Each channel of a Lerp depends on the same channel of the two inputs and on nothing else. */
  lemma LerpIsChannelWise(c1: ColorRGB, c2: ColorRGB, d1: ColorRGB, d2: ColorRGB, factor: real,
                          lerpf: (real, real, real) -> real)
    ensures c1.r == d1.r && c2.r == d2.r ==> Lerp(c1, c2, factor, lerpf).r == Lerp(d1, d2, factor, lerpf).r
    ensures c1.g == d1.g && c2.g == d2.g ==> Lerp(c1, c2, factor, lerpf).g == Lerp(d1, d2, factor, lerpf).g
    ensures c1.b == d1.b && c2.b == d2.b ==> Lerp(c1, c2, factor, lerpf).b == Lerp(d1, d2, factor, lerpf).b
  {
  }

  /** A Lerpf that starts at its first argument and ends at its second makes Lerp start at c1
      and end at c2. */
  lemma LerpEndpoints(c1: ColorRGB, c2: ColorRGB, lerpf: (real, real, real) -> real)
    ensures (forall a, b :: lerpf(a, b, 0.0) == a) ==> Lerp(c1, c2, 0.0, lerpf) == c1
    ensures (forall a, b :: lerpf(a, b, 1.0) == b) ==> Lerp(c1, c2, 1.0, lerpf) == c2
  {
  }

  /** With the affine Lerpf, a + (b - a) * t, Lerp is the colour c1 + (c2 - c1) * t. */
  lemma LerpIsAffine(c1: ColorRGB, c2: ColorRGB, t: real, lerpf: (real, real, real) -> real)
    requires forall a, b, s :: lerpf(a, b, s) == a + (b - a) * s
    ensures Lerp(c1, c2, t, lerpf) == Add(c1, Scale(Sub(c2, c1), t))
  {
  }

  /** The colour MaxToOne leaves behind: divided by its largest channel when that exceeds 1. */
  function MaxedToOne(c: ColorRGB): ColorRGB
  {
    var m := MaxChannel(c);
    if m > 1.0 then DivScalar(c, m) else c
  }

  // ---------------------------------------------------------------- lemmas

  /** A colour whose channels are all at most 1 is left alone. */
  lemma MaxToOneKeepsBounded(c: ColorRGB)
    requires MaxChannel(c) <= 1.0
    ensures MaxedToOne(c) == c
  {
  }

  /** A colour with a channel above 1 is divided by its largest channel; afterwards the largest
      channel is exactly 1 and no channel exceeds 1. */
  lemma MaxToOneNormalizes(c: ColorRGB)
    requires MaxChannel(c) > 1.0
    ensures MaxedToOne(c) == DivScalar(c, MaxChannel(c))
    ensures MaxChannel(MaxedToOne(c)) == 1.0
    ensures MaxedToOne(c).r <= 1.0 && MaxedToOne(c).g <= 1.0 && MaxedToOne(c).b <= 1.0
  {
    var m := MaxChannel(c);
    var d := MaxedToOne(c);
    DividedAtMostOne(c.r, m);
    DividedAtMostOne(c.g, m);
    DividedAtMostOne(c.b, m);
    assert m / m == 1.0;
    assert d.r == 1.0 || d.g == 1.0 || d.b == 1.0;
  }

  lemma DividedAtMostOne(x: real, m: real)
    requires m > 0.0 && x <= m
    ensures x / m <= 1.0
  {
    assert x / m * m == x;
  }

  /** Applying MaxToOne twice is the same as applying it once. */
  lemma MaxToOneIsIdempotent(c: ColorRGB)
    ensures MaxedToOne(MaxedToOne(c)) == MaxedToOne(c)
  {
    if MaxChannel(c) > 1.0 {
      MaxToOneNormalizes(c);
    }
  }

  /** MaxToOne multiplies every channel by one common factor in (0, 1], so the ratios between
      channels are kept. */
  lemma MaxToOneKeepsRatios(c: ColorRGB)
    ensures exists k: real :: 0.0 < k <= 1.0 && MaxedToOne(c) == Scale(c, k)
  {
    var m := MaxChannel(c);
    if m > 1.0 {
      var k := 1.0 / m;
      assert c.r / m == c.r * k && c.g / m == c.g * k && c.b / m == c.b * k;
      assert MaxedToOne(c) == Scale(c, k);
    } else {
      assert MaxedToOne(c) == Scale(c, 1.0);
    }
  }

  /** Scaling a colour on the left or on the right gives the same colour. */
  lemma ScaleCommutes(s: real, c: ColorRGB)
    ensures ScaleLeft(s, c) == Scale(c, s)
  {
  }

  // ---------------------------------------------------------------- lvalue

  /** A ColorRGB object: MaxToOne and the compound operators change its channels in place. */
  class ColorVar {
    var r: real
    var g: real
    var b: real

    function Value(): ColorRGB
      reads this
    {
      ColorRGB(r, g, b)
    }

    constructor (c: ColorRGB)
      ensures Value() == c
    {
      r, g, b := c.r, c.g, c.b;
    }

    method MaxToOne()
      modifies this
      ensures Value() == MaxedToOne(old(Value()))
    {
      var maxValue := Max(r, Max(g, b));
      if maxValue > 1.0 {
        DivAssignScalar(maxValue);
      }
    }

    method AddAssign(c: ColorRGB)
      modifies this
      ensures Value() == Add(old(Value()), c)
    {
      r := r + c.r;
      g := g + c.g;
      b := b + c.b;
    }

    method SubAssign(c: ColorRGB)
      modifies this
      ensures Value() == Sub(old(Value()), c)
    {
      r := r - c.r;
      g := g - c.g;
      b := b - c.b;
    }

    method MulAssign(c: ColorRGB)
      modifies this
      ensures Value() == Mul(old(Value()), c)
    {
      r := r * c.r;
      g := g * c.g;
      b := b * c.b;
    }

    method DivAssign(c: ColorRGB)
      requires c.r != 0.0 && c.g != 0.0 && c.b != 0.0
      modifies this
      ensures Value() == Div(old(Value()), c)
    {
      r := r / c.r;
      g := g / c.g;
      b := b / c.b;
    }

    method MulAssignScalar(s: real)
      modifies this
      ensures Value() == Scale(old(Value()), s)
    {
      r := r * s;
      g := g * s;
      b := b * s;
    }

    method DivAssignScalar(s: real)
      requires s != 0.0
      modifies this
      ensures Value() == DivScalar(old(Value()), s)
    {
      r := r / s;
      g := g / s;
      b := b / s;
    }
  }
}
