/**
 * The small part of the glm vector library the camera relies on: three- and
 * four-component vectors, 4x4 matrices stored column by column (glm's
 * layout, so `m[c][r]` is column c, row r), the cross product, clamping and
 * the matrix products. Components are exact reals.
 */
module Glm {

  datatype Vec3 = Vec3(x: real, y: real, z: real)

  datatype Vec4 = Vec4(x: real, y: real, z: real, w: real)

  /** A 4x4 matrix as glm keeps it: c0..c3 are its columns. */
  datatype Mat4 = Mat4(c0: Vec4, c1: Vec4, c2: Vec4, c3: Vec4)

  function Add(a: Vec3, b: Vec3): Vec3 {
    Vec3(a.x + b.x, a.y + b.y, a.z + b.z)
  }

  function Sub(a: Vec3, b: Vec3): Vec3 {
    Vec3(a.x - b.x, a.y - b.y, a.z - b.z)
  }

  function Neg(a: Vec3): Vec3 {
    Vec3(-a.x, -a.y, -a.z)
  }

  /** `v * k` for a vector v and a scalar k. */
  function Scale(v: Vec3, k: real): Vec3 {
    Vec3(v.x * k, v.y * k, v.z * k)
  }

  function Dot(a: Vec3, b: Vec3): real {
    a.x * b.x + a.y * b.y + a.z * b.z
  }

  /** glm::cross. */
  function Cross(a: Vec3, b: Vec3): Vec3 {
    Vec3(a.y * b.z - a.z * b.y, a.z * b.x - a.x * b.z, a.x * b.y - a.y * b.x)
  }

  /** The dot product distributes over a difference. */
  lemma DotSub(a: Vec3, p: Vec3, q: Vec3)
    ensures Dot(a, Sub(p, q)) == Dot(a, p) - Dot(a, q)
  {
  }

  /** Negating one factor negates the dot product. */
  lemma DotNeg(a: Vec3, b: Vec3)
    ensures Dot(Neg(a), b) == -Dot(a, b)
  {
  }

  /** v is v' stretched by a strictly positive factor (the effect of glm::normalize). */
  ghost predicate PositiveMultiple(v: Vec3, v': Vec3) {
    exists k: real :: k > 0.0 && v == Scale(v', k)
  }

  /**
   * glm::clamp(x, lo, hi), that is min(max(x, lo), hi): a value already in
   * [lo, hi] is kept, one outside it is replaced by the nearer bound.
   */
  function Clamp(x: real, lo: real, hi: real): (r: real)
    ensures r <= hi
    ensures lo <= hi ==> lo <= r
    ensures lo <= x <= hi ==> r == x
    ensures x > hi ==> r == hi
    ensures x < lo && lo <= hi ==> r == lo
  {
    var atLeastLo := if x < lo then lo else x;
    if hi < atLeastLo then hi else atLeastLo
  }

  /** glm::mat4(1.0f). */
  function Identity(): Mat4 {
    Mat4(Vec4(1.0, 0.0, 0.0, 0.0), Vec4(0.0, 1.0, 0.0, 0.0),
         Vec4(0.0, 0.0, 1.0, 0.0), Vec4(0.0, 0.0, 0.0, 1.0))
  }

  function Component(v: Vec4, r: nat): real
    requires r < 4
  {
    match r
    case 0 => v.x
    case 1 => v.y
    case 2 => v.z
    case 3 => v.w
  }

  function Column(m: Mat4, c: nat): Vec4
    requires c < 4
  {
    match c
    case 0 => m.c0
    case 1 => m.c1
    case 2 => m.c2
    case 3 => m.c3
  }

  /** The entry `m[c][r]`: column c, row r. */
  function At(m: Mat4, c: nat, r: nat): real
    requires c < 4 && r < 4
  {
    Component(Column(m, c), r)
  }

  function WithComponent(v: Vec4, r: nat, value: real): (v': Vec4)
    requires r < 4
    ensures Component(v', r) == value
    ensures forall r' :: 0 <= r' < 4 && r' != r ==> Component(v', r') == Component(v, r')
  {
    match r
    case 0 => v.(x := value)
    case 1 => v.(y := value)
    case 2 => v.(z := value)
    case 3 => v.(w := value)
  }

  /** The matrix after the assignment `m[c][r] = value`: that entry changes, no other does. */
  function WithEntry(m: Mat4, c: nat, r: nat, value: real): (m': Mat4)
    requires c < 4 && r < 4
    ensures At(m', c, r) == value
    ensures forall c', r' :: 0 <= c' < 4 && 0 <= r' < 4 && (c' != c || r' != r) ==> At(m', c', r') == At(m, c', r')
  {
    match c
    case 0 => m.(c0 := WithComponent(m.c0, r, value))
    case 1 => m.(c1 := WithComponent(m.c1, r, value))
    case 2 => m.(c2 := WithComponent(m.c2, r, value))
    case 3 => m.(c3 := WithComponent(m.c3, r, value))
  }

  function Combine(v: Vec4, k: real, u: Vec4): Vec4 {
    Vec4(v.x + k * u.x, v.y + k * u.y, v.z + k * u.z, v.w + k * u.w)
  }

  /** `m * v`: the columns of m weighted by the components of v. */
  function Apply(m: Mat4, v: Vec4): Vec4 {
    var zero := Vec4(0.0, 0.0, 0.0, 0.0);
    Combine(Combine(Combine(Combine(zero, v.x, m.c0), v.y, m.c1), v.z, m.c2), v.w, m.c3)
  }

  /** `a * b`: column c of the product is a applied to column c of b. */
  function Mul(a: Mat4, b: Mat4): Mat4 {
    Mat4(Apply(a, b.c0), Apply(a, b.c1), Apply(a, b.c2), Apply(a, b.c3))
  }

  /** A point (w = 1) at the coordinates of p. */
  function Point(p: Vec3): Vec4 {
    Vec4(p.x, p.y, p.z, 1.0)
  }

  /** A direction (w = 0) along d. */
  function Direction(d: Vec3): Vec4 {
    Vec4(d.x, d.y, d.z, 0.0)
  }
}
