/** Unity's `Vector3` and `Mathf.Round`, on exact reals. */
module Vectors {
  datatype Vector3 = Vector3(x: real, y: real, z: real)

  function Add(a: Vector3, b: Vector3): Vector3 {
    Vector3(a.x + b.x, a.y + b.y, a.z + b.z)
  }

  function Sub(a: Vector3, b: Vector3): Vector3 {
    Vector3(a.x - b.x, a.y - b.y, a.z - b.z)
  }

  function Scale(v: Vector3, k: real): Vector3 {
    Vector3(v.x * k, v.y * k, v.z * k)
  }

  /** `Vector3.sqrMagnitude`. */
  function SqrMagnitude(v: Vector3): real {
    v.x * v.x + v.y * v.y + v.z * v.z
  }

  predicate IsWhole(r: real) {
    r.Floor as real == r
  }

  /** `Mathf.Round`: the nearest integer; a value half-way between two integers goes to the even one. */
  function MathfRound(x: real): (r: int)
    ensures -0.5 <= x - r as real <= 0.5
  {
    var f := x.Floor;
    var d := x - f as real;
    if d < 0.5 then f
    else if d > 0.5 then f + 1
    else if f % 2 == 0 then f
    else f + 1
  }
}
