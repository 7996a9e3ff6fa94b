/** Three-component vectors over the reals, standing in for the single-precision
    `vec3` of the program's vector library (rounding is not modelled). */
module Vec {

  datatype Vec3 = Vec3(x: real, y: real, z: real) {

    /** Component-wise sum, `a + b`. */
    function Plus(b: Vec3): Vec3 {
      Vec3(x + b.x, y + b.y, z + b.z)
    }

    /** Component-wise difference, `a - b`. */
    function Minus(b: Vec3): Vec3 {
      Vec3(x - b.x, y - b.y, z - b.z)
    }

    /** Scaling by a scalar, `a * k`. */
    function Times(k: real): Vec3 {
      Vec3(x * k, y * k, z * k)
    }
  }
}
