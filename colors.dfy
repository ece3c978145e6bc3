/** `ColorExtensions`: copies of a colour with a different alpha. */
module ColorExtensions {

  newtype byte = x: int | 0 <= x < 256

  /** `UnityEngine.Color`, a struct of four float channels. */
  datatype Color = Color(r: real, g: real, b: real, a: real)
  {
    /** `color.WithAlpha(alpha)`: the struct is passed by value, so the caller's
        colour is untouched and the copy carries the new alpha. */
    function WithAlpha(alpha: real): (c: Color)
      ensures c.a == alpha
      ensures c.r == r && c.g == g && c.b == b
    {
      this.(a := alpha)
    }
  }

  /** `UnityEngine.Color32`, a struct of four byte channels. */
  datatype Color32 = Color32(r: byte, g: byte, b: byte, a: byte)
  {
    /** `color32.WithAlpha(alpha)` with a byte alpha. */
    function WithAlpha(alpha: byte): (c: Color32)
      ensures c.a == alpha
      ensures c.r == r && c.g == g && c.b == b
    {
      this.(a := alpha)
    }
  }

  /** Setting the alpha twice keeps only the second one. */
  lemma LastAlphaWins(c: Color, x: real, y: real)
    ensures c.WithAlpha(x).WithAlpha(y) == c.WithAlpha(y)
  {
  }

  /** The same for `Color32`. */
  lemma LastAlphaWins32(c: Color32, x: byte, y: byte)
    ensures c.WithAlpha(x).WithAlpha(y) == c.WithAlpha(y)
  {
  }

  /** Re-applying a colour's own alpha gives the colour back. */
  lemma OwnAlphaIsIdentity(c: Color, c32: Color32)
    ensures c.WithAlpha(c.a) == c
    ensures c32.WithAlpha(c32.a) == c32
  {
  }
}
