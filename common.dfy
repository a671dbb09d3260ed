/**
 * Values shared by the calibration and fusion engine of the sensors node:
 * the outcome of one poll of a sensor, optional values, and the 3-axis
 * vectors (gyro rates, accelerations, offsets and tolerance bands) that the
 * node stores in `double[3]` arrays. Doubles and floats are modelled as `real`.
 */
module Common {

  /** The outcome of one read of a sensor: the read functions of the node
      return 0 and fill their out-parameter, or return -1. */
  datatype Poll<T> = Ok(value: T) | Err

  datatype Option<T> = None | Some(value: T)

  /** One `double[3]`: x, y and z in the robot frame (right, forward, up). */
  datatype Vec3 = Vec3(x: real, y: real, z: real)

  const Zero: Vec3 := Vec3(0.0, 0.0, 0.0)

  function Abs(r: real): (a: real)
    ensures a >= 0.0 && (a == r || a == -r)
  {
    if r < 0.0 then -r else r
  }

  function Add(a: Vec3, b: Vec3): Vec3 {
    Vec3(a.x + b.x, a.y + b.y, a.z + b.z)
  }

  function Sub(a: Vec3, b: Vec3): (d: Vec3)
    ensures Add(d, b) == a
  {
    Vec3(a.x - b.x, a.y - b.y, a.z - b.z)
  }

  /** Every axis of `a` lies strictly inside the band of half-width `band`
      around `centre`, the test the calibration applies axis by axis. */
  predicate Near(a: Vec3, centre: Vec3, band: Vec3) {
    Abs(a.x - centre.x) < band.x && Abs(a.y - centre.y) < band.y && Abs(a.z - centre.z) < band.z
  }

  /** Sum of a sequence of vectors, adding from the front as the node's
      running sums do. */
  function Sum(s: seq<Vec3>): Vec3 {
    if s == [] then Zero else Add(Sum(s[..|s| - 1]), s[|s| - 1])
  }

  function Last<T>(s: seq<T>): T
    requires s != []
  {
    s[|s| - 1]
  }
}
