# cCIEDE2000 in Dafny

A model of the C core of cCIEDE2000 (`cCIEDE2000/c_module/ciede2000.c`): the CIEDE2000
colour difference between two CIE L\*a\*b\* colours, and the two buffer routines built on it
that a Python wrapper calls through ctypes:

- `deltaE_matrix` walks a flat, row-major buffer of `n` L\*a\*b\* triples and writes the
  distance from one pixel to each row into a caller-owned output buffer;
- `deltaE_min` walks the same buffer and returns the index of the nearest row, keeping a
  running best that starts at `DBL_MAX` and is replaced only on a strictly smaller distance,
  so the first minimum wins.

Files and modules:

- `lab_color.dfy`, module `LabColor`: the header's `LAB` record and `PI`.
- `angles.dfy`, module `Angles`: `deg2Rad` / `rad2Deg`.
- `color_distance.dfy`, module `ColorDistance`: equations 2 to 22 of the Sharma–Wu–Dalal
  formulation of CIEDE2000, over exact reals. The C math library (`sqrt`, `pow`, `atan2`,
  `sin`, `cos`, `exp`) is the uninterpreted record `MathLib` that every computation receives;
  the only facts assumed about it are carried by the result types: `atan2` lies in
  [-PI, PI] and `sqrt` is never negative. The hue branches (equations 7, 10 and 14) are
  separate functions, with their range facts and achromatic special cases proved.
- `nearest_match.dfy`, module `NearestMatch`: `DeltaEMatrix` and `DeltaEMin` as methods on
  arrays with loop invariants. C's `int` is the newtype `Int32`, so the index arithmetic
  `row * 3 + 2` is checked not to overflow. The distance is the parameter
  `dist: (Lab, Lab) -> real`, called as `dist(pixel, row)` like `CIEDE2000(lab1, lab2)` at
  ciede2000.c:163-171; the loop properties hold for any distance function, and
  `ColorDistance.Ciede2000` is one instance (`NearestByCiede2000`).

Behaviour of the code that the model keeps:

- `deltaE_min` does not reject `n <= 0`; it returns 0 (ciede2000.c:178,200), and so does `DeltaEMin`.
- A hue difference of exactly -PI is left unchanged (ciede2000.c:96), so the wrapped range is
  [-PI, PI]; `DeltahPrime` states that a difference already in [-PI, PI] is kept as it is.
- There is no check for non-finite inputs.

## Model

| member | source | states |
|---|---|---|
| Angles.Deg2Rad | cCIEDE2000/c_module/ciede2000.c:14-17 | no contract of its own: `deg * (PI / 180)`; its properties are stated by `RadDegRoundTrip` and `StraightAndFullAngle` |
| Angles.Rad2Deg | cCIEDE2000/c_module/ciede2000.c:19-22 | no contract of its own: `(180 / PI) * rad`; its properties are stated by `RadDegRoundTrip` and `StraightAndFullAngle` |
| Angles.RadDegRoundTrip | cCIEDE2000/c_module/ciede2000.c:14-22 | degree-to-radian and radian-to-degree conversion are mutually inverse |
| Angles.StraightAndFullAngle | cCIEDE2000/c_module/ciede2000.c:32-33 | the wrap-around thresholds `deg180InRad` and `deg360InRad` are exactly PI and 2*PI |
| ColorDistance.HPrime | cCIEDE2000/c_module/ciede2000.c:53-78 | the hue angle lies in [0, 2*PI); it is exactly 0 when b = a' = 0; otherwise it is atan2(b, a') or atan2(b, a') plus a full turn |
| ColorDistance.DeltahPrime | cCIEDE2000/c_module/ciede2000.c:88-100 | the hue difference is 0 when C'1*C'2 = 0; otherwise it differs from h'2 - h'1 by 0 or a full turn, equals h'2 - h'1 whenever that already lies in [-PI, PI] (so -PI is kept), and for hues in [0, 2*PI) it lies in [-PI, PI] |
| ColorDistance.BarhPrime | cCIEDE2000/c_module/ciede2000.c:112-128 | the mean hue is h'1 + h'2 when C'1*C'2 = 0; otherwise, for hues in [0, 2*PI), every one of the three arc branches gives a value in [0, 2*PI) |
| ColorDistance.MeanHueOnShortArc | cCIEDE2000/c_module/ciede2000.c:88-128 | for chromatic pairs the mean hue equals h'1 + dh'/2 up to a full turn: the mean-hue arc selection and the hue-difference wrap choose the same (shorter) arc |
| ColorDistance.HueTermsUnderSwap | cCIEDE2000/c_module/ciede2000.c:88-128 | swapping the two colours negates the hue difference and leaves the mean hue unchanged |
| ColorDistance.Equations | cCIEDE2000/c_module/ciede2000.c:36-146 | chromas C'1, C'2 are non-negative; both hues lie in [0, 2*PI) and are 0 for a colour with a = b = 0; achromatic pairs get dh' = 0 and mean hue h'1 + h'2; chromatic pairs get dh' in [-PI, PI] and mean hue in [0, 2*PI) |
| ColorDistance.Ciede2000 | cCIEDE2000/c_module/ciede2000.c:148-155 | the colour difference is never negative |
| ColorDistance.AchromaticFirstColour | cCIEDE2000/c_module/ciede2000.c:47-128 | when the first colour has a = b = 0 (and sqrt(0) = 0): C'1 = 0, h'1 = 0, dh' = 0, dH' = 0, and the mean hue is the second colour's hue |
| ColorDistance.AchromaticPair | cCIEDE2000/c_module/ciede2000.c:40-144 | for two colours on the neutral axis all chroma and hue terms vanish, S_C = S_H = 1, and dL' = L2 - L1 is the only difference left |
| NearestMatch.Distances | cCIEDE2000/c_module/ciede2000.c:161-171 | the distance vector has one entry per row visited by the loop, none when n <= 0 |
| NearestMatch.DeltaEMatrix | cCIEDE2000/c_module/ciede2000.c:158-173 | for every 0 <= row < n, out[row] = dist(pixel[0..3], in[3*row .. 3*row+3]); cells of out at index >= n keep their old values; the input buffers are unchanged |
| NearestMatch.DeltaEMin | cCIEDE2000/c_module/ciede2000.c:175-201 | returns 0 when n <= 0 and a row index when n >= 1; when some distance is below DBL_MAX the result is a row of least distance and no earlier row is as close; otherwise 0 |
| NearestMatch.LowestRowUnique | cCIEDE2000/c_module/ciede2000.c:178-200 | the first-argmin characterisation determines the result uniquely |
| NearestMatch.LaterTieNeverWins | cCIEDE2000/c_module/ciede2000.c:194-198 | of two rows at the same distance the later one is never returned (strict `<`) |
| NearestMatch.MinAgreesWithMatrix | cCIEDE2000/c_module/ciede2000.c:161-198 | the index deltaE_min returns is the first minimum of the vector deltaE_matrix writes for the same inputs |
| NearestMatch.NearestByCiede2000 | cCIEDE2000/c_module/ciede2000.c:175-201 | deltaE_min with CIEDE2000 as the distance returns 0 for n <= 0, a row index for n >= 1, and the first row of least CIEDE2000 distance below DBL_MAX |
| NearestMatch.NearestThroughMatrix | cCIEDE2000/c_module/ciede2000.c:158-201 | running deltaE_matrix and then deltaE_min on the same buffers yields the first minimum of the written output |

## Left out

- Floating point: doubles are exact reals. Rounding, NaN and infinities are not modelled; a division by a computed zero yields the uninterpreted `MathLib.divByZero` value. The double nearest to `PI` differs from the decimal constant, so thresholds such as `deg2Rad(360.0) == 2*PI` hold exactly only over reals.
- The numeric value of the distance: `sqrt`, `pow`, `atan2`, `sin`, `cos` and `exp` are uninterpreted, so reference test vectors, identity (`distance(c, c) == 0`) and full swap symmetry, which rest on trigonometric identities, are not proved. Only the hue terms' behaviour under swapping is.
- NearestMatch.DeltaEMatrix: requires the output buffer to be a different array from both inputs. The C code does not check aliasing, and overlapping buffers are not modelled.
- NearestMatch.DeltaEMatrix and NearestMatch.DeltaEMin: take the distance as the parameter `dist` in place of a direct call to CIEDE2000; the loop properties hold for any distance function, and `ColorDistance.Ciede2000` is one instance.
- NearestMatch.BuffersFit: requires 3 * n <= 2^31. For n > 715827882 the C expression `row * 3 + 2` overflows a signed `int`, which is undefined behaviour; the wrapper passes the row count as a C `int` without checking it, so such row counts are outside the model.
- ColorDistance.Ciede2000: its non-negativity comes from the result type of `MathLib.sqrt`, which is non-negative on every argument, negative ones included, where C's `sqrt` returns NaN. The model does not show that the radicand of equation 22 is non-negative.
- The ctypes wrapper (`cCIEDE2000/main.py`), library loading, numpy dtype coercion and the build script are foreign calls and build glue, not part of this model.
