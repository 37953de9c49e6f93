# rpc_cropper core in Dafny

This project models the geometry core of rpc_cropper and proves properties of
it. Given a rectangular region of interest (ROI) in one satellite image and
the image's RPC camera model, the core

- projects the 8 corners of {ROI} x [altOff - altScale, altOff + altScale] to
  the ground and takes their longitude/latitude bounding box
  (`geodesic_bounding_box`);
- rounds that box outward to the 3-arcsecond SRTM grid and samples one point
  at the centre of every SRTM bin, longitude-major (`round_updown`,
  `sample_bounding_box`);
- looks up the SRTM height of every sample, reads "no data" as sea level and
  returns the rounded lowest and highest heights plus two margins, or the
  camera's coarse altitude range when the box leaves the SRTM latitudes
  (`altitude_range_coarse`, `altitude_range`);
- carries the 8 corners of {ROI} x [lo, hi] into a second image and bounds
  them (`find_corresponding_point`, `corresponding_roi`).

It also models the SRTM tile cache: which tiles cover a ROI
(`list_srtm_tiles`), where the cache directory is (`cfg['srtm_dir']`),
creating a directory tolerantly (`mkdir_p`) and fetching one tile
(`get_srtm_tile`).

Modules:

- `Wrappers` (wrappers.dfy): `Option`, `Result` and `Outcome`.
- `Numeric` (numeric.dfy): exact-real versions of `np.ceil`, `np.arange`,
  `np.min`, `np.max` and `np.round` (nearest integer, ties to even).
- `Camera` (camera.dfy): the camera-model capability. `direct` and `inverse`
  are arbitrary functions on (x, y, z) triples. `altOff` and `altScale` are
  plain fields.
- `RpcUtils` (rpc_utils.dfy): everything from rpc_utils.py. The pure
  functions are Dafny functions. `sample_bounding_box` is a method that fills
  a preallocated array in nested `for` loops at index `i * len(lats) + j`.
  `altitude_range` is a method that overwrites no-data entries of its height
  array in place. Both methods are proved equal to specification functions
  (`SampleGrid`, `AltitudeRangeOf`), and the lemmas state the properties of
  those functions.
- `Srtm` (srtm.dfy): srtm.py. A `Host` class holds the configuration, the
  existing directories and regular files (as sets of paths), the downloads
  made and the messages printed. Its methods change that state as
  `os.makedirs`, `mkdir_p` and `get_srtm_tile` do.

Coordinates are exact reals. The SRTM bin is exactly 1/1200 degree. A NaN
height is `None`. The SRTM lookup (`srtm4`), the tile lookup
(`srtm4_which_tile`), permission to create a directory (`mayCreate`) and the
downloaded archive (`Archive`) are parameters.

Behaviour of the source that the model keeps:

- `altitude_range` never fetches SRTM tiles; the elevation lookup runs
  directly on the samples.
- The number of samples per axis is `ceil(max / bin) - floor(min / bin)`,
  counted on the rounded bounds.
- `get_srtm_tile` creates `out_dir` before it tests whether the tile is
  present.
- Only a download that is not a zip archive is tolerated by `get_srtm_tile`:
  a message is printed. A zip archive without `<tile>.tif` raises `KeyError`
  and leaves the archive in place.
- The coverage test in `altitude_range` rejects only latitudes below -60 or
  above 60. The sampler asserts strictly -60 < lat_min and lat_max < 60. So a
  box that touches -60 or 60 exactly, or that is degenerate (lon_min ==
  lon_max), passes the first test and then fails with `AssertionError`.
  `AltitudeRangeOf` returns `Failure(AssertionError)` in that case.

## Model

| member | source | states |
|---|---|---|
| Numeric.Ceil | rpc_utils.py:123 | `np.ceil`: the result is the least integer not below the input |
| Numeric.Arange | rpc_utils.py:96-97 | `np.arange` with a positive step: element k is start + k*step; every element is below stop; one more step would reach stop |
| Numeric.Min | rpc_utils.py:62 | `np.min`: the result is an element and no element is smaller |
| Numeric.Max | rpc_utils.py:62 | `np.max`: the result is an element and no element is larger |
| Numeric.RoundHalfEven | rpc_utils.py:191-192 | `np.round`: the result is within 0.5 of the input, and an exact tie goes to the even integer |
| Numeric.RoundHalfEvenMonotone | rpc_utils.py:191-192 | rounding preserves order, so round(min) <= round(max) |
| Camera.DirectBatch | rpc_utils.py:56 | the batched `direct_estimate` projects each point in order |
| RpcUtils.RoiCorners | rpc_utils.py:50-53 | the corner list has exactly 8 entries |
| RpcUtils.RoiCornersAre | rpc_utils.py:50-53 | a point is a corner iff x is x or x+w, y is y or y+h, and z is m or M |
| RpcUtils.BoundingBox2D | rpc_utils.py:224 | the rectangle holds every point, and each side passes through one of the points, so no smaller rectangle holds them |
| RpcUtils.FindCorrespondingPoint | rpc_utils.py:26-28 | view B's inverse projection gets A's ground x, y with the input z; z comes back unchanged |
| RpcUtils.FindCorrespondingPoints | rpc_utils.py:26-28 | the array form works element-wise and keeps the length |
| RpcUtils.CorrespondingPointRoundTrip | rpc_utils.py:26-28 | when B undoes A at the given altitude, the corresponding point is the input point |
| RpcUtils.ProjectedCorners | rpc_utils.py:56 | exactly 8 ground points are projected |
| RpcUtils.GeodesicBoundingBox | rpc_utils.py:31-62 | min <= max on both axes; the box holds the projection of each of the 8 coarse corners; each bound is reached by one of them |
| RpcUtils.RoundUpDown | rpc_utils.py:110-124 | a' <= a < a' + q and b' - q < b <= b'; both are integer multiples of q |
| RpcUtils.RoundUpDownFixesMultiples | rpc_utils.py:110-124 | values that are already multiples of q come back unchanged |
| RpcUtils.AxisSamplesShape | rpc_utils.py:92-97 | an axis has ceil(max/bin) - floor(min/bin) > 0 samples; sample k is the centre of bin floor(min/bin) + k; every sample lies strictly inside the rounded bounds and less than one bin outside the box |
| RpcUtils.GridAt | rpc_utils.py:101-105 | row i*len(lats)+j of the grid is (lons[i], lats[j]) |
| RpcUtils.GridIsLongitudeMajor | rpc_utils.py:101-105 | the grid has len(lons)*len(lats) rows in longitude-major order |
| RpcUtils.GridMember | rpc_utils.py:101-105 | every grid row pairs one of the longitudes with one of the latitudes |
| RpcUtils.SampleGridCount | rpc_utils.py:92-101 | inside the sampling domain the grid has (lon count) * (lat count) rows, both counts positive |
| RpcUtils.SampleGridInside | rpc_utils.py:92-97 | every sample is an SRTM bin centre and lies less than one bin outside the box |
| RpcUtils.SampleBoundingBox | rpc_utils.py:65-107 | it fails iff not (-180 < lon_m < lon_M < 180 and -60 < lat_m < lat_M < 60); otherwise it returns the sample grid in longitude-major order |
| RpcUtils.FillGrid | rpc_utils.py:101-105 | the nested loops fill a newly allocated array with exactly the longitude-major grid |
| RpcUtils.AltitudeRangeCoarse | rpc_utils.py:127-139 | the coarse range is centred on altOff and 2*altScale wide |
| RpcUtils.Heights | rpc_utils.py:181-188 | one height per sample |
| RpcUtils.AltitudeRange | rpc_utils.py:142-194 | the method computes `AltitudeRangeOf`; outside the SRTM latitudes it returns the coarse range |
| RpcUtils.AltitudeRangeInBox | rpc_utils.py:169-194 | once the box is known, the method computes the coverage test, the sampling and the reduction |
| RpcUtils.ReduceHeights | rpc_utils.py:181-194 | the array of lookups with NaN overwritten by 0 reduces to the rounded extrema plus the margins |
| RpcUtils.SampledRangeEncloses | rpc_utils.py:188-194 | without the margins both bounds are whole metres, and every sample height (no data read as 0) lies within 0.5 m of [lo, hi] |
| RpcUtils.SampledRangeAttained | rpc_utils.py:191-192 | each bound is the rounded height of some sample plus its margin |
| RpcUtils.SampledRangeOrdered | rpc_utils.py:191-194 | lo <= hi when margin_bottom <= margin_top |
| RpcUtils.AltitudeRangeFailure | rpc_utils.py:167-176 | the result is a failure iff the box passes the coverage test but not the sampler's checks, and the failure is the assertion error |
| RpcUtils.AltitudeRangeAtSouthernEdge | rpc_utils.py:170-176 | a box with lat_min exactly -60 and lat_max <= 60 gives an assertion error |
| RpcUtils.AltitudeRangeCoarseFallback | rpc_utils.py:170-172 | when lat_m < -60 or lat_M > 60 the result is (altOff - altScale, altOff + altScale), whatever the margins and heights |
| RpcUtils.AltitudeRangeOrdered | rpc_utils.py:137-194 | with margin_bottom <= margin_top and altScale >= 0, every returned range has lo <= hi |
| RpcUtils.AltitudeRangeMargins | rpc_utils.py:170-194 | the margins never change whether the call fails; outside the SRTM latitudes they are ignored; inside them they are added to the bounds |
| RpcUtils.AltitudeRangeNoDataIsSeaLevel | rpc_utils.py:185-188 | replacing every no-data answer by 0 does not change the result |
| RpcUtils.SampledRangeNoData | rpc_utils.py:185-188 | the same for the reduction over a given set of samples |
| RpcUtils.CorrespondingRoi | rpc_utils.py:197-224 | it fails iff `altitude_range` with margins 0 fails; otherwise the rectangle holds each reprojected corner of {ROI} x [lo, hi], and each side passes through one of them |
| RpcUtils.CorrespondingRoiSameView | rpc_utils.py:213-224 | a camera that undoes itself carries the ROI onto its own rectangle (x, x+w, y, y+h) |
| RpcUtils.SelfCorrespondence | rpc_utils.py:221 | a camera that undoes itself carries every corner onto itself |
| RpcUtils.CornerBox | rpc_utils.py:216-224 | the bounding rectangle of a ROI's corners is the ROI itself when w, h >= 0 |
| Srtm.JoinPrefix | srtm.py:18 | the prefix is the first component followed by one separator, or by none when the component is empty or already ends with one |
| Srtm.PathJoin | srtm.py:18 | `os.path.join`: an absolute second component replaces the first; otherwise the result is the first component, one separator where needed, then the second |
| Srtm.SrtmDir | srtm.py:18 | the cache directory is SRTM4_CACHE when it is set, otherwise `.srtm4` joined to the home directory |
| Srtm.DefaultCacheDir | srtm.py:18 | without SRTM4_CACHE and with a home directory without a trailing slash, the cache is `<home>/.srtm4` |
| Srtm.TifIsNotZip | srtm.py:72-88 | the tile's `.tif` path and its `.zip` path are different, so removing the archive keeps the GeoTIFF |
| Srtm.CornerTiles | srtm.py:50-56 | the four corner lookups name at least one tile |
| Srtm.CornerTilesCount | srtm.py:50-56 | the set holds between 1 and 4 tiles, and exactly 1 iff all four lookups agree |
| Srtm.ListSrtmTiles | srtm.py:33-58 | the nested loops yield exactly the set of the 4 corner tiles of the geodesic bounding box, so 1 to 4 tiles |
| Srtm.Host.constructor | srtm.py:16-18 | the configuration holds the fixed URL and the resolved cache directory; the file system is as given |
| Srtm.Host.Makedirs | srtm.py:26 | EEXIST if the path exists; otherwise the directory is created, or another error if creation is not allowed; nothing else changes |
| Srtm.Host.MkdirP | srtm.py:21-30 | it succeeds iff the directory exists afterwards: it existed already, or it was created; a regular file at the path gives EEXIST and other failures are raised again |
| Srtm.Host.GetSrtmTile | srtm.py:61-88 | keeps files and directories disjoint; the whole new state: directory errors stop the call; a present tile means no download and no file change; otherwise one download from `<url>/<tile>.zip` to `<outDir>/<tile>.zip`, the `.tif` extracted from a zip, a message for a non-zip, the archive removed, or a KeyError that leaves the archive |
| Srtm.Host.GetSrtmTileTwice | srtm.py:70-88 | after a first call that succeeded on a zip archive, the tile is present and the second call succeeds with no download, no message and no change to files or directories |

## Left out

- The camera model's projection mathematics (`rpc_model`) is not part of
  this model. `direct` and `inverse` are arbitrary functions, and nothing is
  assumed about them beyond what a lemma states in its own `requires`.
- `srtm4` (srtm.py:91-106) runs an external program and parses a float. It
  appears only as the lookup parameter `srtm4`, with `None` for NaN.
- `common.run_binary_on_list_of_points`, `common.download` and
  `common.bounding_box2D` are not part of this model. The first is the
  `srtm4` lookup applied to each sample. The second is recorded as a
  `Download` entry that creates the archive file. The third is modelled as
  the min/max rectangle of the points.
- RpcUtils.BoundingBox2D: returns the real-valued min/max rectangle; any
  integer (x, y, w, h) rounding that `common.bounding_box2D` may apply is not
  modelled.
- Floating point is not modelled: coordinates are exact reals, so IEEE
  rounding in `1.0/1200`, `np.floor`, `np.ceil` and `np.arange` does not
  appear. NaN is `None`.
- Longitudes that cross the antimeridian are not handled by the source
  (rpc_utils.py:59) and are not modelled as a feature.
- Printing is left out: the coarse-fallback message of `altitude_range` and
  the "Needed srtm tiles" line of `list_srtm_tiles` have no effect in the
  model. The "not available" message of `get_srtm_tile` is appended to
  `Host.log`.
- RpcUtils.SampleBoundingBox: the N x 2 float array becomes an
  `array<SamplePoint>` with one (lon, lat) entry per row.
- Srtm.ListSrtmTiles: reading the RPC XML file (`rpc_model.RPCModel(rpcfile)`)
  is left out; the method takes the camera model itself.
- Srtm.Host.Makedirs: intermediate directories that `os.makedirs` would
  create are not modelled; only the named path is added.
- Srtm.Host.GetSrtmTile: download failures (network errors, HTTP errors) are
  not modelled, and the method requires that `<outDir>/<tile>.zip` is neither
  an existing directory nor `outDir` itself, where the download could not
  write; otherwise the download always creates the archive file.
- Srtm.Host.Valid: states only that no path is both a file and a directory;
  it does not tie a file to an existing parent directory, so the model admits
  a `<tile>.tif` in `files` whose `outDir` is not in `dirs`.
- The module-level `cfg` dictionary is a `Config` field of `Host`, set once
  by the constructor. The source never changes it after loading.
- `rpc_crop_gui.py` is user interface and process launching, and is not
  part of this model.
