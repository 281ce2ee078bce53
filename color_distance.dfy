/** The CIEDE2000 colour difference (Sharma, Wu and Dalal's formulation of CIE 142-2001,
    equations 2 to 22) with unity weights k_L = k_C = k_H = 1.

    Doubles become reals. The transcendental functions of the C math library are not
    evaluated: they are the fields of a `MathLib` value that every computation receives,
    so every property proved here holds for any implementation of them. Only two facts
    about them are assumed, through their result types: `atan2` returns an angle in
    [-PI, PI] and `sqrt` never returns a negative number. */
module ColorDistance {
  import opened LabColor
  import opened Angles

  /** The range of the C library's `atan2`. */
  type PrincipalAngle = x: real | -PI <= x <= PI witness 0.0

  type NonNegReal = x: real | 0.0 <= x witness 0.0

  /** The C math library functions the formula calls, left uninterpreted.
      `divByZero(x)` stands for the floating-point value of `x / 0.0` (an infinity or NaN),
      which has no counterpart among the reals. */
  datatype MathLib = MathLib(
    sqrt: real -> NonNegReal,
    pow: (real, real) -> real,
    atan2: (real, real) -> PrincipalAngle,
    sin: real -> real,
    cos: real -> real,
    exp: real -> real,
    divByZero: real -> real)

  const KL: real := 1.0
  const KC: real := 1.0
  const KH: real := 1.0
  const Deg360InRad: real := Deg2Rad(360.0)
  const Deg180InRad: real := Deg2Rad(180.0)
  /** 25 to the 7th, written as a literal rather than computed with `pow`. */
  const Pow25To7: real := 6103515625.0

  /** Division by a computed divisor. */
  function Quotient(libm: MathLib, x: real, y: real): real
  {
    if y != 0.0 then x / y else libm.divByZero(x)
  }

  function Fabs(x: real): (r: real)
    ensures 0.0 <= r && (r == x || r == -x)
  {
    if x < 0.0 then -x else x
  }

  /** A hue angle as the formula keeps it: in [0, 2*PI). */
  ghost predicate IsHue(h: real)
  {
    0.0 <= h < 2.0 * PI
  }

  /** Equation 7: the hue angle of (a', b). The achromatic point gets hue 0 instead of
      atan2(0, 0); otherwise it is atan2 moved into [0, 2*PI) by adding a full turn. */
  function HPrime(libm: MathLib, b: real, aPrime: real): (h: real)
    ensures IsHue(h)
    ensures b == 0.0 && aPrime == 0.0 ==> h == 0.0
    ensures !(b == 0.0 && aPrime == 0.0) ==>
      h == libm.atan2(b, aPrime) || h == libm.atan2(b, aPrime) + 2.0 * PI
  {
    StraightAndFullAngle();
    if b == 0.0 && aPrime == 0.0 then
      0.0
    else
      var h := libm.atan2(b, aPrime);
      if h < 0.0 then h + Deg360InRad else h
  }

  /** Equation 10: the signed hue difference, 0 when either chroma is 0, and otherwise
      h2 - h1 wrapped onto [-PI, PI]. */
  function DeltahPrime(cPrime1: real, cPrime2: real, hPrime1: real, hPrime2: real): (d: real)
    ensures cPrime1 * cPrime2 == 0.0 ==> d == 0.0
    ensures cPrime1 * cPrime2 != 0.0 ==>
      d == hPrime2 - hPrime1 || d == hPrime2 - hPrime1 + 2.0 * PI || d == hPrime2 - hPrime1 - 2.0 * PI
    ensures cPrime1 * cPrime2 != 0.0 && IsHue(hPrime1) && IsHue(hPrime2) ==> -PI <= d <= PI
    ensures cPrime1 * cPrime2 != 0.0 && -PI <= hPrime2 - hPrime1 <= PI ==> d == hPrime2 - hPrime1
  {
    StraightAndFullAngle();
    if cPrime1 * cPrime2 == 0.0 then
      0.0
    else
      var d := hPrime2 - hPrime1;
      if d < -Deg180InRad then d + Deg360InRad
      else if d > Deg180InRad then d - Deg360InRad
      else d
  }

  /** Equation 14: the mean hue. When either chroma is 0 it is the plain sum of the hues;
      otherwise the midpoint of the shorter arc between them, kept in [0, 2*PI). */
  function BarhPrime(cPrime1: real, cPrime2: real, hPrime1: real, hPrime2: real): (m: real)
    ensures cPrime1 * cPrime2 == 0.0 ==> m == hPrime1 + hPrime2
    ensures cPrime1 * cPrime2 != 0.0 && IsHue(hPrime1) && IsHue(hPrime2) ==> IsHue(m)
  {
    StraightAndFullAngle();
    var hPrimeSum := hPrime1 + hPrime2;
    if cPrime1 * cPrime2 == 0.0 then
      hPrimeSum
    else if Fabs(hPrime1 - hPrime2) <= Deg180InRad then
      hPrimeSum / 2.0
    else if hPrimeSum < Deg360InRad then
      (hPrimeSum + Deg360InRad) / 2.0
    else
      (hPrimeSum - Deg360InRad) / 2.0
  }

  /** The mean hue lies half a hue difference away from the first hue, up to a full turn:
      the arc selection of equation 14 and the wrapping of equation 10 pick the same arc. */
  lemma MeanHueOnShortArc(cPrime1: real, cPrime2: real, hPrime1: real, hPrime2: real)
    requires cPrime1 * cPrime2 != 0.0
    requires IsHue(hPrime1) && IsHue(hPrime2)
    ensures var mid := hPrime1 + DeltahPrime(cPrime1, cPrime2, hPrime1, hPrime2) / 2.0;
      var m := BarhPrime(cPrime1, cPrime2, hPrime1, hPrime2);
      m == mid || m == mid + 2.0 * PI || m == mid - 2.0 * PI
  {
  }

  /** Swapping the two colours negates the hue difference and keeps the mean hue. */
  lemma HueTermsUnderSwap(cPrime1: real, cPrime2: real, hPrime1: real, hPrime2: real)
    ensures DeltahPrime(cPrime2, cPrime1, hPrime2, hPrime1) == -DeltahPrime(cPrime1, cPrime2, hPrime1, hPrime2)
    ensures BarhPrime(cPrime2, cPrime1, hPrime2, hPrime1) == BarhPrime(cPrime1, cPrime2, hPrime1, hPrime2)
  {
  }

  /** The intermediate quantities of equations 2 to 21, named as in the paper. */
  datatype Terms = Terms(
    c1: real, c2: real, barC: real, g: real,                        // equations 2-4
    a1Prime: real, a2Prime: real, cPrime1: real, cPrime2: real,     // equations 5-6
    hPrime1: real, hPrime2: real,                                   // equation 7
    deltaLPrime: real, deltaCPrime: real,                           // equations 8-9
    deltahPrime: real, deltaHPrime: real,                           // equations 10-11
    barLPrime: real, barCPrime: real, barhPrime: real,              // equations 12-14
    t: real, deltaTheta: real, rC: real,                            // equations 15-17
    sL: real, sC: real, sH: real, rT: real)                         // equations 18-21

  /** Equations 2 to 21 for the colour pair (lab1, lab2). */
  function Equations(libm: MathLib, lab1: Lab, lab2: Lab): (s: Terms)
    ensures 0.0 <= s.cPrime1 && 0.0 <= s.cPrime2
    ensures IsHue(s.hPrime1) && IsHue(s.hPrime2)
    ensures lab1.a == 0.0 && lab1.b == 0.0 ==> s.hPrime1 == 0.0
    ensures lab2.a == 0.0 && lab2.b == 0.0 ==> s.hPrime2 == 0.0
    ensures s.cPrime1 * s.cPrime2 == 0.0 ==> s.deltahPrime == 0.0 && s.barhPrime == s.hPrime1 + s.hPrime2
    ensures s.cPrime1 * s.cPrime2 != 0.0 ==> -PI <= s.deltahPrime <= PI && IsHue(s.barhPrime)
  {
    // Step 1
    var c1 := libm.sqrt(lab1.a * lab1.a + lab1.b * lab1.b);
    var c2 := libm.sqrt(lab2.a * lab2.a + lab2.b * lab2.b);
    var barC := (c1 + c2) / 2.0;
    var g := 0.5 * (1.0 - libm.sqrt(Quotient(libm, libm.pow(barC, 7.0), libm.pow(barC, 7.0) + Pow25To7)));
    var a1Prime := (1.0 + g) * lab1.a;
    var a2Prime := (1.0 + g) * lab2.a;
    var cPrime1 := libm.sqrt(a1Prime * a1Prime + lab1.b * lab1.b);
    var cPrime2 := libm.sqrt(a2Prime * a2Prime + lab2.b * lab2.b);
    var hPrime1 := HPrime(libm, lab1.b, a1Prime);
    var hPrime2 := HPrime(libm, lab2.b, a2Prime);
    // Step 2
    var deltaLPrime := lab2.l - lab1.l;
    var deltaCPrime := cPrime2 - cPrime1;
    var deltahPrime := DeltahPrime(cPrime1, cPrime2, hPrime1, hPrime2);
    var deltaHPrime := 2.0 * libm.sqrt(cPrime1 * cPrime2) * libm.sin(deltahPrime / 2.0);
    // Step 3
    var barLPrime := (lab1.l + lab2.l) / 2.0;
    var barCPrime := (cPrime1 + cPrime2) / 2.0;
    var barhPrime := BarhPrime(cPrime1, cPrime2, hPrime1, hPrime2);
    var t := 1.0 - 0.17 * libm.cos(barhPrime - Deg2Rad(30.0))
                 + 0.24 * libm.cos(2.0 * barhPrime)
                 + 0.32 * libm.cos(3.0 * barhPrime + Deg2Rad(6.0))
                 - 0.20 * libm.cos(4.0 * barhPrime - Deg2Rad(63.0));
    var deltaTheta := Deg2Rad(30.0) * libm.exp(-libm.pow((barhPrime - Deg2Rad(275.0)) / Deg2Rad(25.0), 2.0));
    var rC := 2.0 * libm.sqrt(Quotient(libm, libm.pow(barCPrime, 7.0), libm.pow(barCPrime, 7.0) + Pow25To7));
    var sL := 1.0 + Quotient(libm, 0.015 * libm.pow(barLPrime - 50.0, 2.0), libm.sqrt(20.0 + libm.pow(barLPrime - 50.0, 2.0)));
    var sC := 1.0 + 0.045 * barCPrime;
    var sH := 1.0 + 0.015 * barCPrime * t;
    var rT := -libm.sin(2.0 * deltaTheta) * rC;
    Terms(c1, c2, barC, g, a1Prime, a2Prime, cPrime1, cPrime2, hPrime1, hPrime2,
          deltaLPrime, deltaCPrime, deltahPrime, deltaHPrime, barLPrime, barCPrime, barhPrime,
          t, deltaTheta, rC, sL, sC, sH, rT)
  }

  /** Equation 22: the colour difference of lab1 and lab2. */
  function Ciede2000(libm: MathLib, lab1: Lab, lab2: Lab): (deltaE: real)
    ensures 0.0 <= deltaE
  {
    var s := Equations(libm, lab1, lab2);
    var lTerm := Quotient(libm, s.deltaLPrime, KL * s.sL);
    var cTerm := Quotient(libm, s.deltaCPrime, KC * s.sC);
    var hTerm := Quotient(libm, s.deltaHPrime, KH * s.sH);
    libm.sqrt(libm.pow(lTerm, 2.0) + libm.pow(cTerm, 2.0) + libm.pow(hTerm, 2.0) + s.rT * cTerm * hTerm)
  }

  /** A colour on the neutral axis (a = b = 0) next to any other colour: its hue is 0, the
      hue difference and its weighted term vanish, and the mean hue is the other colour's hue. */
  lemma AchromaticFirstColour(libm: MathLib, lab1: Lab, lab2: Lab)
    requires libm.sqrt(0.0) == 0.0
    requires lab1.a == 0.0 && lab1.b == 0.0
    ensures var s := Equations(libm, lab1, lab2);
      && s.cPrime1 == 0.0 && s.hPrime1 == 0.0
      && s.deltahPrime == 0.0 && s.deltaHPrime == 0.0
      && s.barhPrime == s.hPrime2
  {
  }

  /** Two neutral colours: every chroma and hue term vanishes, S_C = S_H = 1, and only the
      lightness difference is left to drive the distance. */
  lemma AchromaticPair(libm: MathLib, l1: real, l2: real)
    requires libm.sqrt(0.0) == 0.0
    ensures var s := Equations(libm, Lab(l1, 0.0, 0.0), Lab(l2, 0.0, 0.0));
      && s.hPrime1 == 0.0 && s.hPrime2 == 0.0
      && s.deltahPrime == 0.0 && s.deltaHPrime == 0.0 && s.barhPrime == 0.0
      && s.deltaCPrime == 0.0 && s.sC == 1.0 && s.sH == 1.0
      && s.deltaLPrime == l2 - l1
  {
  }
}
