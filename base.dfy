/** Types shared by the loop functions and the visualisation user functions:
    ARGoS's `UInt32`, an option type and the three-dimensional vector `CVector3`. */
module Base {

  const TWO_POW_32: int := 0x1_0000_0000

  /** ARGoS `UInt32`. */
  type UInt32 = x: int | 0 <= x < TWO_POW_32

  const UINT32_MAX: UInt32 := 0xFFFF_FFFF

  /** C++ unsigned 32-bit arithmetic: the value is reduced modulo 2^32. */
  function Wrap32(x: int): (r: UInt32)
    ensures 0 <= x < TWO_POW_32 ==> r == x
  {
    x % TWO_POW_32
  }

  datatype Option<T> = None | Some(value: T) {
    function GetOr(default: T): T {
      match this
      case Some(v) => v
      case None => default
    }
  }

  /** `CVector3`, with exact real coordinates in place of floating point. */
  datatype Vec3 = Vec3(x: real, y: real, z: real) {
    function Plus(v: Vec3): Vec3 { Vec3(x + v.x, y + v.y, z + v.z) }
    function Minus(v: Vec3): Vec3 { Vec3(x - v.x, y - v.y, z - v.z) }
  }

  /** `CVector3::ZERO`, also the value of a default-constructed `CVector3`. */
  const ZERO: Vec3 := Vec3(0.0, 0.0, 0.0)

  /** `CVector3::Z` scaled by `k`. */
  function Up(k: real): Vec3 { Vec3(0.0, 0.0, k) }

  /** The square of ARGoS `Distance(a, b)`; `Distance(a, b) < d` with `d >= 0`
      is `SquaredDistance(a, b) < d * d`. */
  function SquaredDistance(a: Vec3, b: Vec3): real {
    (a.x - b.x) * (a.x - b.x) + (a.y - b.y) * (a.y - b.y) + (a.z - b.z) * (a.z - b.z)
  }
}
