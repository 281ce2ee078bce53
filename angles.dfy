/** Degree/radian conversion, shared by every angle constant of the distance formula. */
module Angles {
  import opened LabColor

  function Deg2Rad(deg: real): real
  {
    deg * (PI / 180.0)
  }

  function Rad2Deg(rad: real): real
  {
    (180.0 / PI) * rad
  }

  /** The two conversions are inverse to each other (exactly so over the reals). */
  lemma RadDegRoundTrip(x: real)
    ensures Rad2Deg(Deg2Rad(x)) == x
    ensures Deg2Rad(Rad2Deg(x)) == x
  {
  }

  /** The wrap-around thresholds of the hue arithmetic are pi and 2*pi. */
  lemma StraightAndFullAngle()
    ensures Deg2Rad(180.0) == PI
    ensures Deg2Rad(360.0) == 2.0 * PI
    ensures Rad2Deg(PI) == 180.0
  {
  }
}
