/**
 * Colours. The Color class itself is not part of this model; the tracer and
 * the lights use it as a triple of channels with add, scale and reduce,
 * which is how it is modelled here.
 */
module Colors {
  import opened Wrappers
  import opened Numerics

  datatype Color = Color(r: real, g: real, b: real)

  /** Color.BLACK, the background and emission default. */
  const BLACK: Color := Color(0.0, 0.0, 0.0)

  /** c.add(d): channelwise sum. */
  function Add(c: Color, d: Color): Color
  {
    Color(c.r + d.r, c.g + d.g, c.b + d.b)
  }

  /** c.scale(k): every channel multiplied by k. */
  function Scale(c: Color, k: real): Color
  {
    Color(c.r * k, c.g * k, c.b * k)
  }

  /** c.reduce(k): every channel divided by k; dividing by zero is refused.
    * Scaling the result back by k gives the colour that was reduced. */
  function Reduce(c: Color, k: real): (r: Result<Color>)
    ensures r.Fail? <==> k == 0.0
    ensures r.Ok? ==> Scale(r.value, k) == c
  {
    if k == 0.0 then Fail(Arithmetic)
    else
      QuotientBack(c.r, k);
      QuotientBack(c.g, k);
      QuotientBack(c.b, k);
      Ok(Color(c.r / k, c.g / k, c.b / k))
  }

  lemma QuotientBack(a: real, k: real)
    requires k != 0.0
    ensures a / k * k == a
  {
  }

  /** The sum of a list of colours, added from the first to the last. */
  function Sum(cs: seq<Color>): Color
  {
    if |cs| == 0 then BLACK else Add(Sum(cs[..|cs| - 1]), cs[|cs| - 1])
  }

  /** BLACK is neutral for add, and add does not depend on the order of its
    * operands. */
  lemma AddLaws(c: Color, d: Color)
    ensures Add(c, BLACK) == c && Add(BLACK, c) == c
    ensures Add(c, d) == Add(d, c)
  {
  }

  /** Reducing a colour scaled by a non-zero k gives the colour back. */
  lemma ReduceScale(c: Color, k: real)
    requires k != 0.0
    ensures Reduce(Scale(c, k), k) == Ok(c)
  {
    var s := Scale(c, k);
    assert s.r / k == c.r by { QuotientOfProduct(c.r, k); }
    assert s.g / k == c.g by { QuotientOfProduct(c.g, k); }
    assert s.b / k == c.b by { QuotientOfProduct(c.b, k); }
  }

  /** The sum of n copies of a colour is that colour scaled by n. */
  lemma {:induction false} SumConstant(cs: seq<Color>, c: Color)
    requires forall i :: 0 <= i < |cs| ==> cs[i] == c
    ensures Sum(cs) == Scale(c, |cs| as real)
  {
    if |cs| > 0 {
      SumConstant(cs[..|cs| - 1], c);
    }
  }
}
