/** Propagation of an image region of interest through camera models:
    its geodetic bounding box, the SRTM sample grid over that box, the
    refined altitude range beneath it and the corresponding region in a
    second view. */
module RpcUtils {
  import opened Wrappers
  import opened Numeric
  import opened Camera

  /** The only way these functions fail: an `assert` of the sampler. */
  datatype Error = AssertionError

  /** Longitudes and latitudes in degrees. */
  datatype GeoBox = GeoBox(lonMin: real, lonMax: real, latMin: real, latMax: real)

  /** An axis-aligned rectangle in pixel coordinates. */
  datatype PixelBox = PixelBox(xMin: real, xMax: real, yMin: real, yMax: real)

  /** One row of the N x 2 sample array: a (longitude, latitude) pair. */
  datatype SamplePoint = SamplePoint(lon: real, lat: real)

  /** Lower and upper altitude bounds, in metres. */
  datatype AltRange = AltRange(lo: real, hi: real)

  /** Width of an SRTM bin: 6000 x 6000 samples in a 5 x 5 degree tile, that
      is 3 arcseconds. */
  const SrtmBin: real := 1.0 / 1200.0

  // ---------------------------------------------------------------------
  // Corners and extents

  /** The 8 vertices of the 3D region {2D ROI} x [m, M], in the order the
      source lists them. */
  function RoiCorners(roi: Roi, m: real, M: real): (c: seq<Point3>)
    ensures |c| == 8
  {
    var x0, x1 := roi.x as real, (roi.x + roi.w) as real;
    var y0, y1 := roi.y as real, (roi.y + roi.h) as real;
    [Point3(x0, y0, m), Point3(x0, y0, M), Point3(x0, y1, m), Point3(x0, y1, M),
     Point3(x1, y0, m), Point3(x1, y0, M), Point3(x1, y1, m), Point3(x1, y1, M)]
  }

  /** The corners are exactly the points of {x, x+w} x {y, y+h} x {m, M}. */
  lemma RoiCornersAre(roi: Roi, m: real, M: real, p: Point3)
    ensures p in RoiCorners(roi, m, M) <==>
      (p.x == roi.x as real || p.x == (roi.x + roi.w) as real) &&
      (p.y == roi.y as real || p.y == (roi.y + roi.h) as real) &&
      (p.z == m || p.z == M)
  {
  }

  function Xs(ps: seq<Point3>): seq<real> {
    seq(|ps|, i requires 0 <= i < |ps| => ps[i].x)
  }

  function Ys(ps: seq<Point3>): seq<real> {
    seq(|ps|, i requires 0 <= i < |ps| => ps[i].y)
  }

  /** The axis-aligned bounding rectangle of a non-empty set of points: the
      smallest one that encloses them all. */
  function BoundingBox2D(ps: seq<Point3>): (b: PixelBox)
    requires |ps| > 0
    ensures forall p :: p in ps ==> b.xMin <= p.x <= b.xMax && b.yMin <= p.y <= b.yMax
    ensures b.xMin in Xs(ps) && b.xMax in Xs(ps) && b.yMin in Ys(ps) && b.yMax in Ys(ps)
  {
    var xs, ys := Xs(ps), Ys(ps);
    var b := PixelBox(Min(xs), Max(xs), Min(ys), Max(ys));
    Encloses(ps, b);
    b
  }

  lemma Encloses(ps: seq<Point3>, b: PixelBox)
    requires |ps| > 0
    requires b == PixelBox(Min(Xs(ps)), Max(Xs(ps)), Min(Ys(ps)), Max(Ys(ps)))
    ensures forall p :: p in ps ==> b.xMin <= p.x <= b.xMax && b.yMin <= p.y <= b.yMax
  {
    var xs, ys := Xs(ps), Ys(ps);
    forall p | p in ps
      ensures b.xMin <= p.x <= b.xMax && b.yMin <= p.y <= b.yMax
    {
      var i :| 0 <= i < |ps| && ps[i] == p;
      assert xs[i] == p.x && ys[i] == p.y;
    }
  }

  // ---------------------------------------------------------------------
  // find_corresponding_point

  /** Projects an image-A point to the ground with A's direct projection at
      its own altitude `p.z`, then back into image B with B's inverse
      projection at that SAME altitude (not the altitude A returned). */
  function FindCorrespondingPoint(a: CameraModel, b: CameraModel, p: Point3): (r: Point3)
    ensures r.z == p.z
    ensures var g := a.direct(p); var q := b.inverse(Point3(g.x, g.y, p.z)); r.x == q.x && r.y == q.y
  {
    var g := a.direct(p);
    var q := b.inverse(Point3(g.x, g.y, p.z));
    Point3(q.x, q.y, p.z)
  }

  /** `find_corresponding_point` on arrays: element-wise. */
  function FindCorrespondingPoints(a: CameraModel, b: CameraModel, ps: seq<Point3>): (r: seq<Point3>)
    ensures |r| == |ps|
    ensures forall i :: 0 <= i < |ps| ==> r[i] == FindCorrespondingPoint(a, b, ps[i])
  {
    seq(|ps|, i requires 0 <= i < |ps| => FindCorrespondingPoint(a, b, ps[i]))
  }

  /** Camera `b` undoes camera `a` at point `p`: back-projecting the ground
      point of `p` at `p`'s altitude returns `p`'s pixel. */
  ghost predicate InvertsAt(a: CameraModel, b: CameraModel, p: Point3) {
    var g := a.direct(p);
    var q := b.inverse(Point3(g.x, g.y, p.z));
    q.x == p.x && q.y == p.y
  }

  /** When `b` undoes `a`, the corresponding point of `p` is `p` itself. */
  lemma CorrespondingPointRoundTrip(a: CameraModel, b: CameraModel, p: Point3)
    requires InvertsAt(a, b, p)
    ensures FindCorrespondingPoint(a, b, p) == p
  {
  }

  // ---------------------------------------------------------------------
  // geodesic_bounding_box

  /** The 8 corners of {ROI} x [altOff - altScale, altOff + altScale]. */
  function CoarseCorners(rpc: CameraModel, roi: Roi): seq<Point3> {
    RoiCorners(roi, rpc.altOff - rpc.altScale, rpc.altOff + rpc.altScale)
  }

  /** The ground points of the 8 coarse corners, in the same order. */
  function ProjectedCorners(rpc: CameraModel, roi: Roi): (g: seq<Point3>)
    ensures |g| == 8
  {
    DirectBatch(rpc, CoarseCorners(rpc, roi))
  }

  /** The geodetic bounding box of a ROI: min and max longitude (x) and
      latitude (y) over the direct projections of the 8 corners of
      {ROI} x [altOff - altScale, altOff + altScale]. */
  function GeodesicBoundingBox(rpc: CameraModel, roi: Roi): (b: GeoBox)
    ensures b.lonMin <= b.lonMax && b.latMin <= b.latMax
    ensures forall c :: c in CoarseCorners(rpc, roi) ==>
      b.lonMin <= rpc.direct(c).x <= b.lonMax && b.latMin <= rpc.direct(c).y <= b.latMax
    ensures var g := ProjectedCorners(rpc, roi);
      b.lonMin in Xs(g) && b.lonMax in Xs(g) && b.latMin in Ys(g) && b.latMax in Ys(g)
  {
    var g := ProjectedCorners(rpc, roi);
    var lon, lat := Xs(g), Ys(g);
    var b := GeoBox(Min(lon), Max(lon), Min(lat), Max(lat));
    Encloses(g, PixelBox(b.lonMin, b.lonMax, b.latMin, b.latMax));
    forall c | c in CoarseCorners(rpc, roi)
      ensures b.lonMin <= rpc.direct(c).x <= b.lonMax && b.latMin <= rpc.direct(c).y <= b.latMax
    {
      var i :| 0 <= i < 8 && CoarseCorners(rpc, roi)[i] == c;
      assert g[i] in g;
    }
    b
  }

  // ---------------------------------------------------------------------
  // round_updown

  /** Rounds `a` down and `b` up to the closest multiples of `q`. */
  function RoundUpDown(a: real, b: real, q: real): (r: (real, real))
    requires q > 0.0
    ensures r.0 <= a < r.0 + q && IsIntegral(r.0 / q)
    ensures r.1 - q < b <= r.1 && IsIntegral(r.1 / q)
  {
    var lo, hi := (a / q).Floor, Ceil(b / q);
    RoundedBounds(a, b, q, lo, hi);
    (q * lo as real, q * hi as real)
  }

  lemma RoundedBounds(a: real, b: real, q: real, lo: int, hi: int)
    requires q > 0.0 && lo == (a / q).Floor && hi == Ceil(b / q)
    ensures q * lo as real <= a < q * lo as real + q && IsIntegral((q * lo as real) / q)
    ensures q * hi as real - q < b <= q * hi as real && IsIntegral((q * hi as real) / q)
  {
    FloorScaled(lo as real, a / q, a, q);
    CeilScaled(hi as real, b / q, b, q);
    DivCancel(lo as real, q);
    DivCancel(hi as real, q);
    FloorOfIntegral(lo);
    FloorOfIntegral(hi);
    var l, h := (q * lo as real) / q, (q * hi as real) / q;
    assert l == lo as real && h == hi as real;
    assert IsIntegral(l) && IsIntegral(h);
  }

  lemma DivCancel(x: real, q: real)
    requires q > 0.0
    ensures (q * x) / q == x
  {
  }

  /** If x <= v / q < x + 1 then q * x <= v < q * x + q. */
  lemma FloorScaled(x: real, d: real, v: real, q: real)
    requires q > 0.0 && v == q * d && x <= d < x + 1.0
    ensures q * x <= v < q * x + q
  {
    ScaledAtLeast(x, d, v, q);
    ScaledBelow(d, x + 1.0, v, q);
  }

  /** If x - 1 < v / q <= x then q * x - q < v <= q * x. */
  lemma CeilScaled(x: real, d: real, v: real, q: real)
    requires q > 0.0 && v == q * d && x - 1.0 < d <= x
    ensures q * x - q < v <= q * x
  {
    ScaledAbove(x - 1.0, d, v, q);
    ScaledAtMost(d, x, v, q);
  }

  lemma ScaledAtLeast(x: real, d: real, v: real, q: real)
    requires q > 0.0 && v == q * d && x <= d
    ensures q * x <= v
  {
    MulMonotone(x, d, q);
  }

  lemma ScaledAtMost(d: real, x: real, v: real, q: real)
    requires q > 0.0 && v == q * d && d <= x
    ensures v <= q * x
  {
    MulMonotone(d, x, q);
  }

  lemma ScaledBelow(d: real, y: real, v: real, q: real)
    requires q > 0.0 && v == q * d && d < y
    ensures v < q * (y - 1.0) + q
  {
    MulMonotone(d, y, q);
    assert q * y == q * (y - 1.0) + q;
  }

  lemma ScaledAbove(y: real, d: real, v: real, q: real)
    requires q > 0.0 && v == q * d && y < d
    ensures q * (y + 1.0) - q < v
  {
    MulMonotone(y, d, q);
    assert q * y == q * (y + 1.0) - q;
  }

  lemma MulMonotone(x: real, y: real, q: real)
    requires q > 0.0
    ensures x <= y ==> q * x <= q * y
    ensures x < y ==> q * x < q * y
  {
  }

  /** Values that already are multiples of `q` are left unchanged. */
  lemma RoundUpDownFixesMultiples(a: real, b: real, q: real)
    requires q > 0.0 && IsIntegral(a / q) && IsIntegral(b / q)
    ensures RoundUpDown(a, b, q) == (a, b)
  {
    assert q * (a / q) == a;
    assert q * (b / q) == b;
    CeilOfIntegral((b / q).Floor);
  }

  // ---------------------------------------------------------------------
  // sample_bounding_box

  /** The assertions of the sampler: the box lies strictly inside the SRTM
      coverage, -180 < lon < 180 and -60 < lat < 60, and is not flat. */
  predicate InSampleDomain(box: GeoBox) {
    -180.0 < box.lonMin && box.lonMax < 180.0 && box.lonMin < box.lonMax &&
    -60.0 < box.latMin && box.latMax < 60.0 && box.latMin < box.latMax
  }

  /** The centres of the SRTM bins between two bin boundaries:
      `np.arange(lo, hi, bin) + .5 * bin`. */
  function Centres(lo: real, hi: real): seq<real> {
    var starts := Arange(lo, hi, SrtmBin);
    seq(|starts|, k requires 0 <= k < |starts| => starts[k] + 0.5 * SrtmBin)
  }

  /** The sample longitudes (or latitudes) between `a` and `b`. */
  function AxisSamples(a: real, b: real): seq<real> {
    var bounds := RoundUpDown(a, b, SrtmBin);
    Centres(bounds.0, bounds.1)
  }

  /** Along one axis there are Ceil(b / bin) - Floor(a / bin) > 0 samples,
      each at the centre of a bin, strictly inside the rounded interval and
      less than one bin outside [a, b]. */
  lemma AxisSamplesShape(a: real, b: real)
    requires a < b
    ensures |AxisSamples(a, b)| == Ceil(b / SrtmBin) - (a / SrtmBin).Floor > 0
    ensures forall k :: 0 <= k < |AxisSamples(a, b)| ==>
      var s := AxisSamples(a, b)[k];
      s == ((a / SrtmBin).Floor + k) as real * SrtmBin + 0.5 * SrtmBin &&
      RoundUpDown(a, b, SrtmBin).0 < s < RoundUpDown(a, b, SrtmBin).1 &&
      a - SrtmBin < s < b + SrtmBin
  {
    var lo, hi := (a / SrtmBin).Floor, Ceil(b / SrtmBin);
    var bounds := RoundUpDown(a, b, SrtmBin);
    assert bounds == (SrtmBin * lo as real, SrtmBin * hi as real);
    var starts := Arange(bounds.0, bounds.1, SrtmBin);
    assert (bounds.1 - bounds.0) / SrtmBin == (hi - lo) as real;
    CeilOfIntegral(hi - lo);
    assert |starts| == hi - lo;
  }

  /** One row of the grid: a fixed longitude with every latitude. */
  function Row(lon: real, lats: seq<real>): (r: seq<SamplePoint>)
    ensures |r| == |lats|
  {
    seq(|lats|, j requires 0 <= j < |lats| => SamplePoint(lon, lats[j]))
  }

  /** All (lon, lat) pairs, longitude-major. */
  function Grid(lons: seq<real>, lats: seq<real>): (g: seq<SamplePoint>)
    ensures |g| == |lons| * |lats|
  {
    if lons == [] then [] else Row(lons[0], lats) + Grid(lons[1..], lats)
  }

  /** Row i * |lats| + j of the grid is (lons[i], lats[j]). */
  lemma {:induction false} GridAt(lons: seq<real>, lats: seq<real>, i: int, j: int)
    requires 0 <= i < |lons| && 0 <= j < |lats|
    ensures 0 <= Flat(i, j, |lats|) < |Grid(lons, lats)|
    ensures Grid(lons, lats)[Flat(i, j, |lats|)] == SamplePoint(lons[i], lats[j])
  {
    FlatIndexInRange(i, j, |lons|, |lats|);
    if i > 0 {
      GridAt(lons[1..], lats, i - 1, j);
      assert i * |lats| + j == |lats| + ((i - 1) * |lats| + j);
    }
  }

  /** The row of the N x 2 array that holds (lons[i], lats[j]). */
  function Flat(i: int, j: int, m: int): int {
    i * m + j
  }

  lemma FlatIndexInRange(i: int, j: int, n: int, m: int)
    requires 0 <= i < n && 0 <= j < m
    ensures 0 <= Flat(i, j, m) < n * m
  {
    assert i * m <= (n - 1) * m;
  }

  lemma FlatIndexOrder(i: int, j: int, i': int, j': int, m: int)
    requires 0 <= j < m && 0 <= j' < m && (i' < i || (i' == i && j' < j))
    ensures Flat(i', j', m) < Flat(i, j, m)
  {
    if i' < i {
      assert i' * m <= (i - 1) * m;
    }
  }

  lemma FlatIndexSplit(k: int, n: int, m: int)
    requires 0 <= k < n * m && m > 0
    ensures 0 <= k / m < n && 0 <= k % m < m && k == (k / m) * m + k % m
  {
  }

  /** A sequence of |lons| * |lats| rows whose row i * |lats| + j is
      (lons[i], lats[j]) is the grid. */
  lemma ArrayIsGrid(s: seq<SamplePoint>, lons: seq<real>, lats: seq<real>)
    requires |s| == |lons| * |lats|
    requires forall i, j :: 0 <= i < |lons| && 0 <= j < |lats| ==>
      0 <= Flat(i, j, |lats|) < |s| && s[Flat(i, j, |lats|)] == SamplePoint(lons[i], lats[j])
    ensures s == Grid(lons, lats)
  {
    var grid := Grid(lons, lats);
    forall k | 0 <= k < |s|
      ensures s[k] == grid[k]
    {
      FlatIndexSplit(k, |lons|, |lats|);
      GridAt(lons, lats, k / |lats|, k % |lats|);
    }
  }

  /** `s` has |lons| * |lats| rows and row Flat(i, j, |lats|) = i * |lats| + j is
      (lons[i], lats[j]): longitude-major order. */
  ghost predicate LongitudeMajor(s: seq<SamplePoint>, lons: seq<real>, lats: seq<real>) {
    |s| == |lons| * |lats| &&
    forall i, j :: 0 <= i < |lons| && 0 <= j < |lats| ==>
      0 <= Flat(i, j, |lats|) < |s| && s[Flat(i, j, |lats|)] == SamplePoint(lons[i], lats[j])
  }

  lemma GridIsLongitudeMajor(lons: seq<real>, lats: seq<real>)
    ensures LongitudeMajor(Grid(lons, lats), lons, lats)
  {
    forall i, j | 0 <= i < |lons| && 0 <= j < |lats|
      ensures 0 <= Flat(i, j, |lats|) < |Grid(lons, lats)|
      ensures Grid(lons, lats)[Flat(i, j, |lats|)] == SamplePoint(lons[i], lats[j])
    {
      GridAt(lons, lats, i, j);
    }
  }

  /** The sample grid of a box: the bin centres of the rounded box, in
      longitude-major order. */
  function SampleGrid(box: GeoBox): seq<SamplePoint> {
    Grid(AxisSamples(box.lonMin, box.lonMax), AxisSamples(box.latMin, box.latMax))
  }

  /** Every row of the grid pairs a longitude of `lons` with a latitude of
      `lats`. */
  lemma {:induction false} GridMember(lons: seq<real>, lats: seq<real>, s: SamplePoint)
    requires s in Grid(lons, lats)
    ensures s.lon in lons && s.lat in lats
  {
    if s in Row(lons[0], lats) {
      var j :| 0 <= j < |lats| && Row(lons[0], lats)[j] == s;
    } else {
      GridMember(lons[1..], lats, s);
    }
  }

  /** `v` is the centre of an SRTM bin: an odd multiple of half a bin. */
  predicate IsBinCentre(v: real) {
    IsIntegral(v / SrtmBin - 0.5)
  }

  /** The grid of a box in the sampling domain has
      (Ceil(lonMax / bin) - Floor(lonMin / bin)) * (Ceil(latMax / bin) - Floor(latMin / bin))
      rows, at least one. */
  lemma SampleGridCount(box: GeoBox)
    requires InSampleDomain(box)
    ensures var nLon := Ceil(box.lonMax / SrtmBin) - (box.lonMin / SrtmBin).Floor;
      var nLat := Ceil(box.latMax / SrtmBin) - (box.latMin / SrtmBin).Floor;
      nLon > 0 && nLat > 0 && |SampleGrid(box)| == nLon * nLat > 0
  {
    var lons := AxisSamples(box.lonMin, box.lonMax);
    var lats := AxisSamples(box.latMin, box.latMax);
    AxisSamplesShape(box.lonMin, box.lonMax);
    AxisSamplesShape(box.latMin, box.latMax);
    MulPositive(|lons|, |lats|);
  }

  /** Every sample of the grid is the centre of an SRTM bin and lies less
      than one bin away from the box. */
  lemma SampleGridInside(box: GeoBox)
    requires InSampleDomain(box)
    ensures forall s :: s in SampleGrid(box) ==>
      IsBinCentre(s.lon) && box.lonMin - SrtmBin < s.lon < box.lonMax + SrtmBin &&
      IsBinCentre(s.lat) && box.latMin - SrtmBin < s.lat < box.latMax + SrtmBin
  {
    var lons := AxisSamples(box.lonMin, box.lonMax);
    var lats := AxisSamples(box.latMin, box.latMax);
    AxisSamplesShape(box.lonMin, box.lonMax);
    AxisSamplesShape(box.latMin, box.latMax);
    forall s | s in SampleGrid(box)
      ensures IsBinCentre(s.lon) && box.lonMin - SrtmBin < s.lon < box.lonMax + SrtmBin
      ensures IsBinCentre(s.lat) && box.latMin - SrtmBin < s.lat < box.latMax + SrtmBin
    {
      GridMember(lons, lats, s);
      var i :| 0 <= i < |lons| && lons[i] == s.lon;
      var j :| 0 <= j < |lats| && lats[j] == s.lat;
      BinCentre((box.lonMin / SrtmBin).Floor + i);
      BinCentre((box.latMin / SrtmBin).Floor + j);
    }
  }

  lemma MulPositive(a: int, b: int)
    requires a > 0 && b > 0
    ensures a * b > 0
  {
  }

  /** The centre of bin `n` is a bin centre. */
  lemma BinCentre(n: int)
    ensures IsBinCentre(n as real * SrtmBin + 0.5 * SrtmBin)
  {
    assert (n as real * SrtmBin + 0.5 * SrtmBin) / SrtmBin - 0.5 == n as real;
  }

  /** `sample_bounding_box`: rejects a box outside the sampling domain, and
      otherwise fills an N x 2 array with the grid, row i * |lats| + j
      holding (lons[i], lats[j]). */
  method SampleBoundingBox(lonMin: real, lonMax: real, latMin: real, latMax: real)
    returns (r: Result<seq<SamplePoint>, Error>)
    ensures r.Failure? <==> !InSampleDomain(GeoBox(lonMin, lonMax, latMin, latMax))
    ensures r.Success? ==>
      LongitudeMajor(r.value, AxisSamples(lonMin, lonMax), AxisSamples(latMin, latMax))
    ensures r.Success? ==> r.value == SampleGrid(GeoBox(lonMin, lonMax, latMin, latMax))
  {
    if !InSampleDomain(GeoBox(lonMin, lonMax, latMin, latMax)) {
      return Failure(AssertionError);
    }
    var lonBounds := RoundUpDown(lonMin, lonMax, SrtmBin);
    var latBounds := RoundUpDown(latMin, latMax, SrtmBin);
    var lons := Centres(lonBounds.0, lonBounds.1);
    var lats := Centres(latBounds.0, latBounds.1);
    var out := FillGrid(lons, lats);
    GridIsLongitudeMajor(lons, lats);
    r := Success(out[..]);
  }

  /** The nested loops of `sample_bounding_box`: a zero-initialised
      N x 2 array whose row i * |lats| + j receives (lons[i], lats[j]). */
  method FillGrid(lons: seq<real>, lats: seq<real>) returns (out: array<SamplePoint>)
    ensures fresh(out)
    ensures out[..] == Grid(lons, lats)
  {
    var n, m := |lons|, |lats|;
    out := new SamplePoint[n * m](_ => SamplePoint(0.0, 0.0));
    for i := 0 to n
      invariant forall i', j' :: 0 <= i' < i && 0 <= j' < m ==>
        0 <= Flat(i', j', m) < out.Length && out[Flat(i', j', m)] == SamplePoint(lons[i'], lats[j'])
    {
      for j := 0 to m
        invariant forall i', j' :: 0 <= i' < i && 0 <= j' < m ==>
          0 <= Flat(i', j', m) < out.Length && out[Flat(i', j', m)] == SamplePoint(lons[i'], lats[j'])
        invariant forall j' :: 0 <= j' < j ==>
          0 <= Flat(i, j', m) < out.Length && out[Flat(i, j', m)] == SamplePoint(lons[i], lats[j'])
      {
        FlatIndexInRange(i, j, n, m);
        forall i', j' | 0 <= i' < i && 0 <= j' < m
          ensures Flat(i', j', m) < Flat(i, j, m)
        {
          FlatIndexOrder(i, j, i', j', m);
        }
        out[i * m + j] := SamplePoint(lons[i], lats[j]);
      }
    }
    ArrayIsGrid(out[..], lons, lats);
  }

  // ---------------------------------------------------------------------
  // altitude_range_coarse, altitude_range

  /** The altitude validity range declared by the camera model: the
      interval of half-width altScale centred on altOff. */
  function AltitudeRangeCoarse(rpc: CameraModel): (r: AltRange)
    ensures (r.lo + r.hi) / 2.0 == rpc.altOff && r.hi - r.lo == 2.0 * rpc.altScale
  {
    AltRange(rpc.altOff - rpc.altScale, rpc.altOff + rpc.altScale)
  }

  /** The box reaches beyond the +-60 degree latitude coverage of SRTM. */
  predicate OutOfSrtmDomain(box: GeoBox) {
    box.latMin < -60.0 || box.latMax > 60.0
  }

  /** A "no data" sample counts as sea level. */
  function SeaLevelIfMissing(h: Option<real>): real {
    match h
    case None => 0.0
    case Some(v) => v
  }

  /** The heights of the sample points, no-data replaced by 0. */
  function Heights(srtm4: SamplePoint -> Option<real>, pts: seq<SamplePoint>): (h: seq<real>)
    ensures |h| == |pts|
  {
    seq(|pts|, i requires 0 <= i < |pts| => SeaLevelIfMissing(srtm4(pts[i])))
  }

  /** What `altitude_range` returns: the coarse range outside the SRTM
      domain, an assertion failure when the sampler rejects the box, and
      otherwise the rounded extreme heights over the sample grid plus the
      margins. `srtm4` is the elevation lookup, None standing for NaN. */
  function AltitudeRangeOf(rpc: CameraModel, roi: Roi, marginTop: real, marginBottom: real,
                           srtm4: SamplePoint -> Option<real>): Result<AltRange, Error>
  {
    AltitudeRangeOver(rpc, GeodesicBoundingBox(rpc, roi), marginTop, marginBottom, srtm4)
  }

  /** The same, once the geodesic bounding box is known. */
  function AltitudeRangeOver(rpc: CameraModel, box: GeoBox, marginTop: real, marginBottom: real,
                             srtm4: SamplePoint -> Option<real>): Result<AltRange, Error>
  {
    if OutOfSrtmDomain(box) then Success(AltitudeRangeCoarse(rpc))
    else if !InSampleDomain(box) then Failure(AssertionError)
    else
      SampleGridCount(box);
      Success(SampledRange(SampleGrid(box), marginTop, marginBottom, srtm4))
  }

  /** The rounded extreme heights over a non-empty set of samples, plus the
      margins. */
  function SampledRange(points: seq<SamplePoint>, marginTop: real, marginBottom: real,
                        srtm4: SamplePoint -> Option<real>): AltRange
    requires |points| > 0
  {
    var h := Heights(srtm4, points);
    AltRange(RoundHalfEven(Min(h)) as real + marginBottom, RoundHalfEven(Max(h)) as real + marginTop)
  }

  /** `altitude_range`: bounding box, coverage test, sampling, one elevation
      lookup per sample, NaN replaced in place by 0, then the rounded
      extrema plus the margins. */
  method AltitudeRange(rpc: CameraModel, roi: Roi, marginTop: real, marginBottom: real,
                       srtm4: SamplePoint -> Option<real>)
    returns (r: Result<AltRange, Error>)
    ensures r == AltitudeRangeOf(rpc, roi, marginTop, marginBottom, srtm4)
    ensures OutOfSrtmDomain(GeodesicBoundingBox(rpc, roi)) ==> r == Success(AltitudeRangeCoarse(rpc))
  {
    var box := GeodesicBoundingBox(rpc, roi);
    r := AltitudeRangeInBox(rpc, box, marginTop, marginBottom, srtm4);
  }

  /** The part of `altitude_range` after the bounding box is computed. */
  method AltitudeRangeInBox(rpc: CameraModel, box: GeoBox, marginTop: real, marginBottom: real,
                            srtm4: SamplePoint -> Option<real>)
    returns (r: Result<AltRange, Error>)
    ensures r == AltitudeRangeOver(rpc, box, marginTop, marginBottom, srtm4)
  {
    if OutOfSrtmDomain(box) {
      return Success(AltitudeRangeCoarse(rpc));
    }
    assert GeoBox(box.lonMin, box.lonMax, box.latMin, box.latMax) == box;
    var sampled := SampleBoundingBox(box.lonMin, box.lonMax, box.latMin, box.latMax);
    if sampled.Failure? {
      assert !InSampleDomain(box);
      return Failure(AssertionError);
    }
    SampleGridCount(box);
    var range := ReduceHeights(sampled.value, marginTop, marginBottom, srtm4);
    r := Success(range);
  }

  /** The part of `altitude_range` after sampling: one elevation lookup per
      sample into an array, every NaN entry overwritten by 0 in place, then
      the rounded extrema plus the margins. */
  method ReduceHeights(points: seq<SamplePoint>, marginTop: real, marginBottom: real,
                       srtm4: SamplePoint -> Option<real>)
    returns (range: AltRange)
    requires |points| > 0
    ensures range == SampledRange(points, marginTop, marginBottom, srtm4)
  {
    var srtm := new Option<real>[|points|](i requires 0 <= i < |points| => srtm4(points[i]));
    forall i | 0 <= i < srtm.Length && srtm[i].None? {
      srtm[i] := Some(0.0);
    }
    var heights := seq(srtm.Length, i requires 0 <= i < srtm.Length && srtm[i].Some? reads srtm => srtm[i].value);
    assert heights == Heights(srtm4, points);
    range := AltRange(RoundHalfEven(Min(heights)) as real + marginBottom,
                      RoundHalfEven(Max(heights)) as real + marginTop);
  }

  // ---------------------------------------------------------------------
  // Properties of altitude_range

  /** Once the margins are taken off, the bounds of the sampled range are
      whole numbers of metres, and every sample's height (no data read as
      sea level) lies within half a metre of [lo, hi]. */
  lemma SampledRangeEncloses(points: seq<SamplePoint>, marginTop: real, marginBottom: real,
                             srtm4: SamplePoint -> Option<real>)
    requires |points| > 0
    ensures var r := SampledRange(points, marginTop, marginBottom, srtm4);
      IsIntegral(r.lo - marginBottom) && IsIntegral(r.hi - marginTop) &&
      forall k :: 0 <= k < |points| ==>
        r.lo - marginBottom - 0.5 <= SeaLevelIfMissing(srtm4(points[k])) <= r.hi - marginTop + 0.5
  {
    var h := Heights(srtm4, points);
    FloorOfIntegral(RoundHalfEven(Min(h)));
    FloorOfIntegral(RoundHalfEven(Max(h)));
    forall k | 0 <= k < |points|
      ensures Min(h) <= SeaLevelIfMissing(srtm4(points[k])) <= Max(h)
    {
      assert h[k] == SeaLevelIfMissing(srtm4(points[k]));
    }
  }

  /** Both bounds of the sampled range are reached: each is the rounded
      height of some sample plus its margin. */
  lemma SampledRangeAttained(points: seq<SamplePoint>, marginTop: real, marginBottom: real,
                             srtm4: SamplePoint -> Option<real>)
    requires |points| > 0
    ensures var r := SampledRange(points, marginTop, marginBottom, srtm4);
      (exists k :: 0 <= k < |points| &&
        r.lo == RoundHalfEven(SeaLevelIfMissing(srtm4(points[k]))) as real + marginBottom) &&
      (exists k :: 0 <= k < |points| &&
        r.hi == RoundHalfEven(SeaLevelIfMissing(srtm4(points[k]))) as real + marginTop)
  {
    var h := Heights(srtm4, points);
    var i :| 0 <= i < |h| && h[i] == Min(h);
    var j :| 0 <= j < |h| && h[j] == Max(h);
    assert h[i] == SeaLevelIfMissing(srtm4(points[i]));
    assert h[j] == SeaLevelIfMissing(srtm4(points[j]));
  }

  /** With a bottom margin no larger than the top one, the sampled range is
      not empty. */
  lemma SampledRangeOrdered(points: seq<SamplePoint>, marginTop: real, marginBottom: real,
                            srtm4: SamplePoint -> Option<real>)
    requires |points| > 0 && marginBottom <= marginTop
    ensures var r := SampledRange(points, marginTop, marginBottom, srtm4); r.lo <= r.hi
  {
    var h := Heights(srtm4, points);
    assert Min(h) <= h[0] <= Max(h);
    RoundHalfEvenMonotone(Min(h), Max(h));
  }

  /** `altitude_range` fails exactly when the box passes the coverage test
      but not the sampler's strict checks, and then with the sampler's
      assertion error. */
  lemma AltitudeRangeFailure(rpc: CameraModel, roi: Roi, marginTop: real, marginBottom: real,
                             srtm4: SamplePoint -> Option<real>)
    ensures var box := GeodesicBoundingBox(rpc, roi);
      var r := AltitudeRangeOf(rpc, roi, marginTop, marginBottom, srtm4);
      (r.Failure? <==> !OutOfSrtmDomain(box) && !InSampleDomain(box)) &&
      (r.Failure? ==> r.error == AssertionError)
  {
  }

  /** A box whose southern edge is exactly at -60 degrees passes the
      coverage test (which only rejects latitudes below -60) but is refused
      by the sampler (which demands latitudes above -60). */
  lemma AltitudeRangeAtSouthernEdge(rpc: CameraModel, roi: Roi, marginTop: real, marginBottom: real,
                                    srtm4: SamplePoint -> Option<real>)
    requires GeodesicBoundingBox(rpc, roi).latMin == -60.0
    requires GeodesicBoundingBox(rpc, roi).latMax <= 60.0
    ensures AltitudeRangeOf(rpc, roi, marginTop, marginBottom, srtm4) == Failure(AssertionError)
  {
  }

  /** Outside the SRTM latitudes the result is the coarse range
      [altOff - altScale, altOff + altScale], whatever the margins and the
      elevation data. */
  lemma AltitudeRangeCoarseFallback(rpc: CameraModel, roi: Roi, marginTop: real, marginBottom: real,
                                    srtm4: SamplePoint -> Option<real>)
    requires OutOfSrtmDomain(GeodesicBoundingBox(rpc, roi))
    ensures AltitudeRangeOf(rpc, roi, marginTop, marginBottom, srtm4) ==
            Success(AltRange(rpc.altOff - rpc.altScale, rpc.altOff + rpc.altScale))
  {
    CoarseOver(rpc, GeodesicBoundingBox(rpc, roi), marginTop, marginBottom, srtm4);
  }

  lemma CoarseOver(rpc: CameraModel, box: GeoBox, marginTop: real, marginBottom: real,
                   srtm4: SamplePoint -> Option<real>)
    requires OutOfSrtmDomain(box)
    ensures AltitudeRangeOver(rpc, box, marginTop, marginBottom, srtm4) ==
            Success(AltRange(rpc.altOff - rpc.altScale, rpc.altOff + rpc.altScale))
  {
  }

  /** With a bottom margin no larger than the top one and a non-negative
      altitude scale, every range `altitude_range` returns is non-empty. */
  lemma AltitudeRangeOrdered(rpc: CameraModel, roi: Roi, marginTop: real, marginBottom: real,
                             srtm4: SamplePoint -> Option<real>)
    requires marginBottom <= marginTop && rpc.altScale >= 0.0
    ensures var r := AltitudeRangeOf(rpc, roi, marginTop, marginBottom, srtm4);
      r.Success? ==> r.value.lo <= r.value.hi
  {
    var box := GeodesicBoundingBox(rpc, roi);
    if !OutOfSrtmDomain(box) && InSampleDomain(box) {
      SampleGridCount(box);
      SampledRangeOrdered(SampleGrid(box), marginTop, marginBottom, srtm4);
    }
  }

  /** Inside the SRTM domain the margins are added to the rounded extremes
      and nothing else depends on them; outside it they are ignored. */
  lemma AltitudeRangeMargins(rpc: CameraModel, roi: Roi, marginTop: real, marginBottom: real,
                             srtm4: SamplePoint -> Option<real>)
    ensures var r := AltitudeRangeOf(rpc, roi, marginTop, marginBottom, srtm4);
      var r0 := AltitudeRangeOf(rpc, roi, 0.0, 0.0, srtm4);
      (r.Failure? <==> r0.Failure?) &&
      (OutOfSrtmDomain(GeodesicBoundingBox(rpc, roi)) ==> r == r0) &&
      (!OutOfSrtmDomain(GeodesicBoundingBox(rpc, roi)) && r.Success? ==>
        r.value.lo == r0.value.lo + marginBottom && r.value.hi == r0.value.hi + marginTop)
  {
    var box := GeodesicBoundingBox(rpc, roi);
    if !OutOfSrtmDomain(box) && InSampleDomain(box) {
      SampleGridCount(box);
    }
  }

  /** The elevation lookup with every "no data" answer replaced by 0. */
  function FillNoData(srtm4: SamplePoint -> Option<real>): SamplePoint -> Option<real> {
    p => Some(SeaLevelIfMissing(srtm4(p)))
  }

  /** Replacing every "no data" answer of the elevation lookup by a height
      of 0 does not change the result: missing data is sea level. */
  lemma AltitudeRangeNoDataIsSeaLevel(rpc: CameraModel, roi: Roi, marginTop: real, marginBottom: real,
                                      srtm4: SamplePoint -> Option<real>)
    ensures AltitudeRangeOf(rpc, roi, marginTop, marginBottom, srtm4) ==
            AltitudeRangeOf(rpc, roi, marginTop, marginBottom, FillNoData(srtm4))
  {
    var box := GeodesicBoundingBox(rpc, roi);
    if !OutOfSrtmDomain(box) && InSampleDomain(box) {
      SampleGridCount(box);
      SampledRangeNoData(SampleGrid(box), marginTop, marginBottom, srtm4);
    }
  }

  lemma SampledRangeNoData(points: seq<SamplePoint>, marginTop: real, marginBottom: real,
                           srtm4: SamplePoint -> Option<real>)
    requires |points| > 0
    ensures SampledRange(points, marginTop, marginBottom, srtm4) ==
            SampledRange(points, marginTop, marginBottom, FillNoData(srtm4))
  {
    assert Heights(srtm4, points) == Heights(FillNoData(srtm4), points);
  }

  // ---------------------------------------------------------------------
  // corresponding_roi

  /** `corresponding_roi`: the altitude range of the ROI in view 1 without
      margins, the 8 corners of {ROI} x [lo, hi] carried into view 2, and
      their bounding rectangle. It fails exactly when the altitude range
      does; otherwise the rectangle holds every carried corner and each of
      its sides passes through one of them. */
  function CorrespondingRoi(rpc1: CameraModel, rpc2: CameraModel, roi: Roi,
                            srtm4: SamplePoint -> Option<real>): (r: Result<PixelBox, Error>)
    ensures r.Failure? <==> AltitudeRangeOf(rpc1, roi, 0.0, 0.0, srtm4).Failure?
    ensures r.Success? ==>
      var range := AltitudeRangeOf(rpc1, roi, 0.0, 0.0, srtm4).value;
      var moved := FindCorrespondingPoints(rpc1, rpc2, RoiCorners(roi, range.lo, range.hi));
      (forall c :: c in RoiCorners(roi, range.lo, range.hi) ==>
        var q := FindCorrespondingPoint(rpc1, rpc2, c);
        r.value.xMin <= q.x <= r.value.xMax && r.value.yMin <= q.y <= r.value.yMax) &&
      r.value.xMin in Xs(moved) && r.value.xMax in Xs(moved) &&
      r.value.yMin in Ys(moved) && r.value.yMax in Ys(moved)
  {
    var range :- AltitudeRangeOf(rpc1, roi, 0.0, 0.0, srtm4);
    var corners := RoiCorners(roi, range.lo, range.hi);
    var moved := FindCorrespondingPoints(rpc1, rpc2, corners);
    var b := BoundingBox2D(moved);
    assert forall i :: 0 <= i < 8 ==> moved[i] in moved;
    Success(b)
  }

  /** Carrying a ROI into the same view through a camera that undoes itself
      gives back the ROI's own rectangle. */
  lemma CorrespondingRoiSameView(rpc: CameraModel, roi: Roi, srtm4: SamplePoint -> Option<real>)
    requires roi.w >= 0 && roi.h >= 0
    requires forall p :: InvertsAt(rpc, rpc, p)
    ensures var r := CorrespondingRoi(rpc, rpc, roi, srtm4);
      r.Success? ==> r.value == PixelBox(roi.x as real, (roi.x + roi.w) as real,
                                         roi.y as real, (roi.y + roi.h) as real)
  {
    var r := CorrespondingRoi(rpc, rpc, roi, srtm4);
    if r.Success? {
      var range := AltitudeRangeOf(rpc, roi, 0.0, 0.0, srtm4).value;
      var corners := RoiCorners(roi, range.lo, range.hi);
      SelfCorrespondence(rpc, corners);
      CornerBox(roi, range.lo, range.hi);
    }
  }

  /** A camera that undoes itself carries every point onto itself. */
  lemma SelfCorrespondence(rpc: CameraModel, ps: seq<Point3>)
    requires forall p :: InvertsAt(rpc, rpc, p)
    ensures FindCorrespondingPoints(rpc, rpc, ps) == ps
  {
    var moved := FindCorrespondingPoints(rpc, rpc, ps);
    forall i | 0 <= i < |ps|
      ensures moved[i] == ps[i]
    {
      CorrespondingPointRoundTrip(rpc, rpc, ps[i]);
    }
  }

  /** The bounding rectangle of the corners of a ROI is the ROI itself. */
  lemma CornerBox(roi: Roi, m: real, M: real)
    requires roi.w >= 0 && roi.h >= 0
    ensures BoundingBox2D(RoiCorners(roi, m, M)) ==
      PixelBox(roi.x as real, (roi.x + roi.w) as real, roi.y as real, (roi.y + roi.h) as real)
  {
    var corners := RoiCorners(roi, m, M);
    var xs, ys := Xs(corners), Ys(corners);
    var x0, x1 := roi.x as real, (roi.x + roi.w) as real;
    var y0, y1 := roi.y as real, (roi.y + roi.h) as real;
    assert forall k :: 0 <= k < |xs| ==> xs[k] == x0 || xs[k] == x1;
    assert forall k :: 0 <= k < |ys| ==> ys[k] == y0 || ys[k] == y1;
    TwoValued(xs, x0, x1);
    TwoValued(ys, y0, y1);
  }

  /** A sequence that takes only the values a <= b, starting with a and
      ending with b, has minimum a and maximum b. */
  lemma TwoValued(vs: seq<real>, a: real, b: real)
    requires a <= b && |vs| > 0 && vs[0] == a && vs[|vs| - 1] == b
    requires forall k :: 0 <= k < |vs| ==> vs[k] == a || vs[k] == b
    ensures Min(vs) == a && Max(vs) == b
  {
    var i :| 0 <= i < |vs| && vs[i] == Min(vs);
    var j :| 0 <= j < |vs| && vs[j] == Max(vs);
  }
}
