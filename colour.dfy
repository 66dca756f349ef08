/** RGB colours as they appear in the class-to-colour tables. */
module Colour {

  datatype Rgb = Rgb(r: int, g: int, b: int)

  /** The colour of a zero-initialised output pixel. */
  const Black: Rgb := Rgb(0, 0, 0)

  /** Every component fits in an unsigned byte. */
  predicate IsByteColour(c: Rgb) {
    0 <= c.r < 256 && 0 <= c.g < 256 && 0 <= c.b < 256
  }

  /** A colour scaled by a scalar, component by component. */
  function Scale(a: int, c: Rgb): Rgb {
    Rgb(a * c.r, a * c.g, a * c.b)
  }

  /** Component-wise sum of two colours. */
  function Plus(x: Rgb, y: Rgb): Rgb {
    Rgb(x.r + y.r, x.g + y.g, x.b + y.b)
  }
}
