/** The camera-model capability that the geometry consumes. The projection
    mathematics of the rational-polynomial (or projective) model is not part
    of this model: `direct` and `inverse` are arbitrary functions, and nothing
    is assumed about them. */
module Camera {

  /** A point with two planar coordinates and an altitude: pixel column,
      pixel row and altitude in image space, or longitude, latitude and
      altitude on the ground. */
  datatype Point3 = Point3(x: real, y: real, z: real)

  /** `direct` maps (column, row, altitude) to (longitude, latitude,
      altitude); `inverse` maps (longitude, latitude, altitude) back to
      (column, row, altitude). Both are applied element-wise to batches.
      `altOff` and `altScale` declare the coarse altitude validity range
      [altOff - altScale, altOff + altScale]. */
  datatype CameraModel = CameraModel(
    direct: Point3 -> Point3,
    inverse: Point3 -> Point3,
    altOff: real,
    altScale: real)

  /** A rectangular region of interest in an image: (x, y) is the top-left
      corner and (w, h) the width and height, in pixels. */
  datatype Roi = Roi(x: int, y: int, w: int, h: int)

  /** The batched `direct_estimate`: one projection per input point, in order. */
  function DirectBatch(cam: CameraModel, ps: seq<Point3>): (r: seq<Point3>)
    ensures |r| == |ps|
    ensures forall i :: 0 <= i < |ps| ==> r[i] == cam.direct(ps[i])
  {
    seq(|ps|, i requires 0 <= i < |ps| => cam.direct(ps[i]))
  }
}
