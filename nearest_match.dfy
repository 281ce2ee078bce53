/** The two candidate-set evaluations built on the distance: `deltaE_matrix` fills a
    caller-owned buffer with the distance from one pixel to every row of a flat,
    row-major buffer of L*a*b* triples, and `deltaE_min` returns the index of the row
    with the smallest distance, the first such row on ties. */
module NearestMatch {
  import opened LabColor
  import opened ColorDistance

  /** C's `int`, which carries the row count, the loop counter and the returned index. */
  newtype Int32 = x: int | -0x8000_0000 <= x < 0x8000_0000

  /** DBL_MAX, the largest finite double, (2 - 2^-52) * 2^1023, written out exactly. */
  const DblMax: real := 179769313486231570814527423731704356798070567525844996598917476803157260780028538760589558632766878171540458953514382464234321326889464182768467546703537516986049910576551282076245490090389328944075868508455133942304583236903222948165808559332123348274797826204144723168738177180919299881250404026184124858368.0

  /** What both loops read: for n > 0 rows, a pixel triple and 3*n numbers of candidates,
      with the last index read, 3*(n-1) + 2, still a C int. */
  predicate BuffersFit(matrixInLength: int, n: int, pixelLength: int)
  {
    n <= 0 || (3 <= pixelLength && 3 * n <= matrixInLength && 3 * n <= 0x8000_0000)
  }

  /** The number of rows a C `for (row = 0; row < n; row++)` visits. */
  function RowCount(n: int): nat
  {
    if n <= 0 then 0 else n
  }

  /** The colour stored at row `row` of a flat buffer of triples. */
  function RowLab(buffer: seq<real>, row: nat): Lab
    requires 3 * row + 3 <= |buffer|
  {
    Lab(buffer[3 * row], buffer[3 * row + 1], buffer[3 * row + 2])
  }

  /** The distance vector: pixel first, candidate row second, one entry per row. */
  function Distances(dist: (Lab, Lab) -> real, matrixIn: seq<real>, n: int, pixel: seq<real>): (ds: seq<real>)
    requires BuffersFit(|matrixIn|, n, |pixel|)
    ensures |ds| == RowCount(n)
  {
    if n <= 0 then []
    else seq(n, row requires 0 <= row < n => dist(RowLab(pixel, 0), RowLab(matrixIn, row)))
  }

  /** `r` is what a scan with a running best that starts at DblMax and is replaced only on a
      strictly smaller distance ends with: 0 when no distance is below DblMax (in
      particular when there are no rows), and otherwise the lowest index of a minimum. */
  ghost predicate IsLowestRow(ds: seq<real>, r: int)
  {
    if forall k :: 0 <= k < |ds| ==> DblMax <= ds[k] then
      r == 0
    else
      && 0 <= r < |ds|
      && ds[r] < DblMax
      && (forall k :: 0 <= k < |ds| ==> ds[r] <= ds[k])
      && (forall k :: 0 <= k < r ==> ds[r] < ds[k])
  }

  /** `deltaE_matrix`: writes the distance of every row into matrixOut[0..n) and leaves every
      other cell of matrixOut, and both input buffers, as they were. */
  method DeltaEMatrix(dist: (Lab, Lab) -> real, matrixIn: array<real>, n: Int32, pixel: array<real>, matrixOut: array<real>)
    requires BuffersFit(matrixIn.Length, n as int, pixel.Length)
    requires n as int <= matrixOut.Length
    requires matrixOut != matrixIn && matrixOut != pixel
    modifies matrixOut
    ensures forall row :: 0 <= row < n as int ==>
      matrixOut[row] == dist(RowLab(pixel[..], 0), RowLab(matrixIn[..], row))
    ensures forall k :: n as int <= k < matrixOut.Length && 0 <= k ==> matrixOut[k] == old(matrixOut[k])
    ensures matrixIn[..] == old(matrixIn[..]) && pixel[..] == old(pixel[..])
  {
    var row: Int32 := 0;
    while row < n
      invariant 0 <= row as int <= RowCount(n as int)
      invariant forall k :: 0 <= k < row as int ==>
        matrixOut[k] == dist(RowLab(pixel[..], 0), RowLab(matrixIn[..], k))
      invariant forall k :: row as int <= k < matrixOut.Length ==> matrixOut[k] == old(matrixOut[k])
    {
      var lab1 := Lab(pixel[0], pixel[1], pixel[2]);
      var lab2 := Lab(matrixIn[row * 3], matrixIn[row * 3 + 1], matrixIn[row * 3 + 2]);
      matrixOut[row] := dist(lab1, lab2);
      row := row + 1;
    }
  }

  /** `deltaE_min`: the row the scan with strict `<` ends on, which is 0 for n <= 0 and
      otherwise a row index; the lowest-index nearest row whenever some distance is below
      DblMax. */
  method DeltaEMin(dist: (Lab, Lab) -> real, matrixIn: array<real>, n: Int32, pixel: array<real>) returns (lowestRow: Int32)
    requires BuffersFit(matrixIn.Length, n as int, pixel.Length)
    ensures n <= 0 ==> lowestRow == 0
    ensures 0 < n ==> 0 <= lowestRow < n
    ensures IsLowestRow(Distances(dist, matrixIn[..], n as int, pixel[..]), lowestRow as int)
  {
    ghost var ds := Distances(dist, matrixIn[..], n as int, pixel[..]);
    lowestRow := 0;
    var lowestDeltaE := DblMax;
    var currentDeltaE := 0.0;
    var row: Int32 := 0;
    while row < n
      invariant 0 <= row as int <= RowCount(n as int)
      invariant 0 <= lowestRow && (lowestRow == 0 || lowestRow < row)
      invariant lowestDeltaE <= DblMax
      invariant lowestDeltaE < DblMax ==> lowestRow < row && lowestDeltaE == ds[lowestRow]
      invariant lowestDeltaE == DblMax ==> lowestRow == 0
      invariant forall k :: 0 <= k < row as int ==> lowestDeltaE <= ds[k]
      invariant forall k :: 0 <= k < lowestRow as int ==> lowestDeltaE < ds[k]
    {
      var lab1 := Lab(pixel[0], pixel[1], pixel[2]);
      var lab2 := Lab(matrixIn[row * 3], matrixIn[row * 3 + 1], matrixIn[row * 3 + 2]);
      currentDeltaE := dist(lab1, lab2);
      assert lab1 == RowLab(pixel[..], 0) && lab2 == RowLab(matrixIn[..], row as int);
      assert currentDeltaE == ds[row];
      if currentDeltaE < lowestDeltaE {
        lowestDeltaE := currentDeltaE;
        lowestRow := row;
      }
      row := row + 1;
    }
  }

  /** The scan's result is unique: IsLowestRow pins down one index for every vector. */
  lemma LowestRowUnique(ds: seq<real>, r1: int, r2: int)
    requires IsLowestRow(ds, r1) && IsLowestRow(ds, r2)
    ensures r1 == r2
  {
  }

  /** Tie-breaking: of two rows at the same distance, the later one is never returned. */
  lemma LaterTieNeverWins(ds: seq<real>, r: int, i: int, j: int)
    requires IsLowestRow(ds, r)
    requires 0 <= i < j < |ds| && ds[i] == ds[j]
    ensures r != j
  {
  }

  /** `deltaE_min` picks the first minimum of the very vector `deltaE_matrix` writes for the
      same inputs: whatever satisfies the postconditions of the two methods agrees. */
  lemma MinAgreesWithMatrix(dist: (Lab, Lab) -> real, matrixIn: seq<real>, n: int, pixel: seq<real>,
                              matrixOut: seq<real>, r: int)
    requires BuffersFit(|matrixIn|, n, |pixel|)
    requires 0 <= n <= |matrixOut|
    requires forall row :: 0 <= row < n ==>
      matrixOut[row] == dist(RowLab(pixel, 0), RowLab(matrixIn, row))
    requires IsLowestRow(Distances(dist, matrixIn, n, pixel), r)
    ensures IsLowestRow(matrixOut[..n], r)
  {
    assert matrixOut[..n] == Distances(dist, matrixIn, n, pixel);
  }

  /** A caller running both entry points on the same buffers gets an index that is the first
      minimum of the written distance vector. */
  method NearestThroughMatrix(dist: (Lab, Lab) -> real, matrixIn: array<real>, n: Int32, pixel: array<real>, matrixOut: array<real>)
    returns (lowestRow: Int32)
    requires BuffersFit(matrixIn.Length, n as int, pixel.Length)
    requires 0 <= n as int <= matrixOut.Length
    requires matrixOut != matrixIn && matrixOut != pixel
    modifies matrixOut
    ensures IsLowestRow(matrixOut[..n], lowestRow as int)
  {
    DeltaEMatrix(dist, matrixIn, n, pixel, matrixOut);
    lowestRow := DeltaEMin(dist, matrixIn, n, pixel);
    MinAgreesWithMatrix(dist, matrixIn[..], n as int, pixel[..], matrixOut[..], lowestRow as int);
    assert matrixOut[..][..n] == matrixOut[..n];
  }

  /** `deltaE_min` as the C code runs it, with CIEDE2000 as the distance. */
  method NearestByCiede2000(libm: MathLib, matrixIn: array<real>, n: Int32, pixel: array<real>) returns (lowestRow: Int32)
    requires BuffersFit(matrixIn.Length, n as int, pixel.Length)
    ensures n <= 0 ==> lowestRow == 0
    ensures 0 < n ==> 0 <= lowestRow < n
    ensures IsLowestRow(Distances((x: Lab, y: Lab) => Ciede2000(libm, x, y), matrixIn[..], n as int, pixel[..]), lowestRow as int)
  {
    lowestRow := DeltaEMin((x: Lab, y: Lab) => Ciede2000(libm, x, y), matrixIn, n, pixel);
  }
}
