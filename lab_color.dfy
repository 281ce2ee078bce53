/** The types and constants of the C header: an L*a*b* colour and the value of pi. */
module LabColor {

  /** One colour in CIE L*a*b* space: lightness `l` and the two chrominance axes `a` and `b`.
      The header stores doubles; the model uses exact reals. */
  datatype Lab = Lab(l: real, a: real, b: real)

  /** The header's `PI` macro, as the exact decimal it is written with. */
  const PI: real := 3.14159265358979323846
}
