/**
 * Quaternion algebra used by the orientation viewer (statusmon.py, lines
 * 227-249). Numbers are idealised reals: the identities proved here are exact
 * and hold only up to rounding on IEEE doubles.
 */
module Quaternions {

  datatype Option<T> = None | Some(value: T)

  /** A quaternion w + xi + yj + zk, the 4-tuple (w, x, y, z) of the source. */
  datatype Quaternion = Quaternion(w: real, x: real, y: real, z: real)

  /** A point of 3-space, the 3-tuple (x, y, z) of the source. */
  datatype Vec3 = Vec3(x: real, y: real, z: real)

  /** The identity rotation (1, 0, 0, 0). */
  const Identity := Quaternion(1.0, 0.0, 0.0, 0.0)

  function Abs(r: real): real {
    if r < 0.0 then -r else r
  }

  /** Squared norm w^2 + x^2 + y^2 + z^2. */
  function NormSq(q: Quaternion): real {
    q.w * q.w + q.x * q.x + q.y * q.y + q.z * q.z
  }

  /** Squared length of a vector. */
  function LengthSq(v: Vec3): real {
    v.x * v.x + v.y * v.y + v.z * v.z
  }

  function Sub(a: Vec3, b: Vec3): Vec3 {
    Vec3(a.x - b.x, a.y - b.y, a.z - b.z)
  }

  /** The real quaternion s + 0i + 0j + 0k. */
  function Scalar(s: real): Quaternion {
    Quaternion(s, 0.0, 0.0, 0.0)
  }

  /** The pure quaternion (0, v) that `qv_mult` builds from a vector. */
  function Pure(v: Vec3): Quaternion {
    Quaternion(0.0, v.x, v.y, v.z)
  }

  /** Vector part: the tuple slice q[1:] of the source. */
  function VectorPart(q: Quaternion): Vec3 {
    Vec3(q.x, q.y, q.z)
  }

  /** `q_mult`: the Hamilton product of two quaternions. */
  function Mult(p: Quaternion, q: Quaternion): Quaternion {
    Quaternion(
      p.w * q.w - p.x * q.x - p.y * q.y - p.z * q.z,
      p.w * q.x + p.x * q.w + p.y * q.z - p.z * q.y,
      p.w * q.y + p.y * q.w + p.z * q.x - p.x * q.z,
      p.w * q.z + p.z * q.w + p.x * q.y - p.y * q.x)
  }

  /** `q_conjugate`: negates the vector part. */
  function Conjugate(q: Quaternion): Quaternion {
    Quaternion(q.w, -q.x, -q.y, -q.z)
  }

  /** `qv_mult`: rotates v by q, the vector part of q * (0, v) * conjugate(q). */
  function Rotate(q: Quaternion, v: Vec3): Vec3 {
    VectorPart(Mult(Mult(q, Pure(v)), Conjugate(q)))
  }

  /** `normalize`: rescales a tuple to unit length, unless its squared length
      is already within `tolerance` of 1. The square root that the source takes
      with `pow(magnSqr, 1/2)` is passed in as `magn`. Dividing a non-empty
      tuple of zeros fails (None); an empty tuple has nothing to divide. */
  function Normalize(v: seq<real>, tolerance: real, magn: real): (r: Option<seq<real>>)
    requires magn >= 0.0 && magn * magn == SumSq(v)
    ensures Abs(SumSq(v) - 1.0) <= tolerance ==> r == Some(v)
    ensures r.None? <==> Abs(SumSq(v) - 1.0) > tolerance && SumSq(v) == 0.0 && v != []
    ensures r.Some? ==> |r.value| == |v|
    ensures Abs(SumSq(v) - 1.0) > tolerance && SumSq(v) != 0.0 ==>
              r.Some? && SumSq(r.value) == 1.0
    ensures r.Some? && Abs(SumSq(v) - 1.0) > tolerance ==>
              forall i :: 0 <= i < |v| ==> r.value[i] * magn == v[i]
  {
    if Abs(SumSq(v) - 1.0) > tolerance then
      // magn is zero exactly when magnSqr is; dividing by it then fails,
      // except on the empty tuple, which has no component to divide
      if SumSq(v) == 0.0 then
        if v == [] then Some([]) else None
      else
        DivideByLength(v, magn);
        Some(DivideAll(v, magn))
    else
      Some(v)
  }

  /** Sum of the squares of a tuple's components. */
  function SumSq(v: seq<real>): (r: real)
    ensures r >= 0.0
  {
    if v == [] then 0.0 else v[0] * v[0] + SumSq(v[1..])
  }

  /** Divides every component by d, keeping the order. */
  function DivideAll(v: seq<real>, d: real): (r: seq<real>)
    requires d != 0.0
    ensures |r| == |v|
    ensures forall i :: 0 <= i < |v| ==> r[i] * d == v[i]
  {
    if v == [] then [] else [v[0] / d] + DivideAll(v[1..], d)
  }

  lemma SquareOfQuotient(a: real, d: real)
    requires d != 0.0
    ensures (a / d) * (a / d) * (d * d) == a * a
  {
    var b := a / d;
    assert b * d == a;
    assert b * b * (d * d) == (b * d) * (b * d);
  }

  /** Dividing by d divides the sum of squares by d * d. */
  lemma {:induction false} SumSqDivide(v: seq<real>, d: real)
    requires d != 0.0
    ensures SumSq(DivideAll(v, d)) * (d * d) == SumSq(v)
  {
    if v != [] {
      var u := DivideAll(v, d);
      assert u[0] == v[0] / d && u[1..] == DivideAll(v[1..], d);
      SumSqDivide(v[1..], d);
      SquareOfQuotient(v[0], d);
      assert SumSq(u) * (d * d) == u[0] * u[0] * (d * d) + SumSq(u[1..]) * (d * d);
    }
  }

  /** Dividing by the length (the square root of the sum of squares) gives a
      tuple whose sum of squares is 1. */
  lemma DivideByLength(v: seq<real>, magn: real)
    requires SumSq(v) != 0.0 && magn * magn == SumSq(v)
    ensures magn != 0.0
    ensures SumSq(DivideAll(v, magn)) == 1.0
  {
    RootNonZero(magn, SumSq(v));
    SumSqDivide(v, magn);
    CancelFactor(SumSq(DivideAll(v, magn)), magn * magn, SumSq(v));
  }

  /** The root of a non-zero square is not zero. */
  lemma RootNonZero(m: real, t: real)
    requires t != 0.0 && m * m == t
    ensures m != 0.0
  {
  }

  /** s * m == t with m == t != 0 forces s == 1. The factor is passed twice,
      as `m` and `t`, because the solver loses the link between a product of
      squares and the sum it equals once both sit in one hypothesis; keeping
      them as separate names it can equate lets the cancellation go through. */
  lemma CancelFactor(s: real, m: real, t: real)
    requires t != 0.0 && m == t && s * m == t
    ensures s == 1.0
  {
    assert (s - 1.0) * t == 0.0;
  }

  /** Normalizing twice gives what normalizing once gave. */
  lemma NormalizeIdempotent(v: seq<real>, tolerance: real, magn: real, magn': real)
    requires tolerance >= 0.0
    requires magn >= 0.0 && magn * magn == SumSq(v)
    requires Normalize(v, tolerance, magn).Some?
    requires magn' >= 0.0 && magn' * magn' == SumSq(Normalize(v, tolerance, magn).value)
    ensures Normalize(Normalize(v, tolerance, magn).value, tolerance, magn') ==
            Normalize(v, tolerance, magn)
  {
  }

  lemma MultIdentityLeft(q: Quaternion)
    ensures Mult(Identity, q) == q
  {
  }

  lemma MultIdentityRight(q: Quaternion)
    ensures Mult(q, Identity) == q
  {
  }

  /** A quaternion times its conjugate, on either side, is the real
      quaternion of its squared norm. */
  lemma MultConjugate(q: Quaternion)
    ensures Mult(q, Conjugate(q)) == Scalar(NormSq(q))
    ensures Mult(Conjugate(q), q) == Scalar(NormSq(q))
  {
  }

  lemma ConjugateInvolution(q: Quaternion)
    ensures Conjugate(Conjugate(q)) == q
  {
  }

  /** Rotating by (1, 0, 0, 0) leaves every vector where it is. */
  lemma RotateIdentity(v: Vec3)
    ensures Rotate(Identity, v) == v
  {
    RotateByScalar(1.0, v);
  }

  /** Rotating by the real quaternion s scales every vector by s * s. */
  lemma RotateByScalar(s: real, v: Vec3)
    ensures Rotate(Scalar(s), v) == Vec3(s * s * v.x, s * s * v.y, s * s * v.z)
  {
  }

  lemma MultAssociative(p: Quaternion, q: Quaternion, r: Quaternion)
    ensures Mult(Mult(p, q), r) == Mult(p, Mult(q, r))
  {
    AssociativeW(p, q, r);
    AssociativeX(p, q, r);
    AssociativeY(p, q, r);
    AssociativeZ(p, q, r);
  }

  // Associativity is proved one component at a time: each side is first
  // unfolded into a polynomial in the twelve components (the two Expand
  // lemmas), and the two polynomials are then compared.

  lemma ExpandLeftW(p: Quaternion, q: Quaternion, r: Quaternion)
    ensures Mult(Mult(p, q), r).w ==
      (p.w * q.w - p.x * q.x - p.y * q.y - p.z * q.z) * r.w - (p.w * q.x + p.x * q.w + p.y * q.z - p.z * q.y) * r.x - (p.w * q.y + p.y * q.w + p.z * q.x - p.x * q.z) * r.y - (p.w * q.z + p.z * q.w + p.x * q.y - p.y * q.x) * r.z
  {
  }

  lemma ExpandRightW(p: Quaternion, q: Quaternion, r: Quaternion)
    ensures Mult(p, Mult(q, r)).w ==
      (q.w * r.w - q.x * r.x - q.y * r.y - q.z * r.z) * p.w - (q.w * r.x + q.x * r.w + q.y * r.z - q.z * r.y) * p.x - (q.w * r.y + q.y * r.w + q.z * r.x - q.x * r.z) * p.y - (q.w * r.z + q.z * r.w + q.x * r.y - q.y * r.x) * p.z
  {
  }

  lemma AssociativeW(p: Quaternion, q: Quaternion, r: Quaternion)
    ensures Mult(Mult(p, q), r).w == Mult(p, Mult(q, r)).w
  {
    ExpandLeftW(p, q, r);
    ExpandRightW(p, q, r);
  }

  lemma ExpandLeftX(p: Quaternion, q: Quaternion, r: Quaternion)
    ensures Mult(Mult(p, q), r).x ==
      (p.w * q.w - p.x * q.x - p.y * q.y - p.z * q.z) * r.x + (p.w * q.x + p.x * q.w + p.y * q.z - p.z * q.y) * r.w + (p.w * q.y + p.y * q.w + p.z * q.x - p.x * q.z) * r.z - (p.w * q.z + p.z * q.w + p.x * q.y - p.y * q.x) * r.y
  {
  }

  lemma ExpandRightX(p: Quaternion, q: Quaternion, r: Quaternion)
    ensures Mult(p, Mult(q, r)).x ==
      (q.w * r.x + q.x * r.w + q.y * r.z - q.z * r.y) * p.w + (q.w * r.w - q.x * r.x - q.y * r.y - q.z * r.z) * p.x + (q.w * r.z + q.z * r.w + q.x * r.y - q.y * r.x) * p.y - (q.w * r.y + q.y * r.w + q.z * r.x - q.x * r.z) * p.z
  {
  }

  lemma AssociativeX(p: Quaternion, q: Quaternion, r: Quaternion)
    ensures Mult(Mult(p, q), r).x == Mult(p, Mult(q, r)).x
  {
    ExpandLeftX(p, q, r);
    ExpandRightX(p, q, r);
  }

  lemma ExpandLeftY(p: Quaternion, q: Quaternion, r: Quaternion)
    ensures Mult(Mult(p, q), r).y ==
      (p.w * q.w - p.x * q.x - p.y * q.y - p.z * q.z) * r.y + (p.w * q.y + p.y * q.w + p.z * q.x - p.x * q.z) * r.w + (p.w * q.z + p.z * q.w + p.x * q.y - p.y * q.x) * r.x - (p.w * q.x + p.x * q.w + p.y * q.z - p.z * q.y) * r.z
  {
  }

  lemma ExpandRightY(p: Quaternion, q: Quaternion, r: Quaternion)
    ensures Mult(p, Mult(q, r)).y ==
      (q.w * r.y + q.y * r.w + q.z * r.x - q.x * r.z) * p.w + (q.w * r.w - q.x * r.x - q.y * r.y - q.z * r.z) * p.y + (q.w * r.x + q.x * r.w + q.y * r.z - q.z * r.y) * p.z - (q.w * r.z + q.z * r.w + q.x * r.y - q.y * r.x) * p.x
  {
  }

  lemma AssociativeY(p: Quaternion, q: Quaternion, r: Quaternion)
    ensures Mult(Mult(p, q), r).y == Mult(p, Mult(q, r)).y
  {
    ExpandLeftY(p, q, r);
    ExpandRightY(p, q, r);
  }

  lemma ExpandLeftZ(p: Quaternion, q: Quaternion, r: Quaternion)
    ensures Mult(Mult(p, q), r).z ==
      (p.w * q.w - p.x * q.x - p.y * q.y - p.z * q.z) * r.z + (p.w * q.z + p.z * q.w + p.x * q.y - p.y * q.x) * r.w + (p.w * q.x + p.x * q.w + p.y * q.z - p.z * q.y) * r.y - (p.w * q.y + p.y * q.w + p.z * q.x - p.x * q.z) * r.x
  {
  }

  lemma ExpandRightZ(p: Quaternion, q: Quaternion, r: Quaternion)
    ensures Mult(p, Mult(q, r)).z ==
      (q.w * r.z + q.z * r.w + q.x * r.y - q.y * r.x) * p.w + (q.w * r.w - q.x * r.x - q.y * r.y - q.z * r.z) * p.z + (q.w * r.y + q.y * r.w + q.z * r.x - q.x * r.z) * p.x - (q.w * r.x + q.x * r.w + q.y * r.z - q.z * r.y) * p.y
  {
  }

  lemma AssociativeZ(p: Quaternion, q: Quaternion, r: Quaternion)
    ensures Mult(Mult(p, q), r).z == Mult(p, Mult(q, r)).z
  {
    ExpandLeftZ(p, q, r);
    ExpandRightZ(p, q, r);
  }

  /** The squared norm is multiplicative (Euler's four-square identity). */
  lemma NormMultiplicative(p: Quaternion, q: Quaternion)
    ensures NormSq(Mult(p, q)) == NormSq(p) * NormSq(q)
  {
    ExpandNormOfProduct(p, q);
    FourSquareOfNorms(p, q);
  }

  lemma FourSquareOfNorms(p: Quaternion, q: Quaternion)
    ensures (p.w * q.w - p.x * q.x - p.y * q.y - p.z * q.z) * (p.w * q.w - p.x * q.x - p.y * q.y - p.z * q.z)
          + (p.w * q.x + p.x * q.w + p.y * q.z - p.z * q.y) * (p.w * q.x + p.x * q.w + p.y * q.z - p.z * q.y)
          + (p.w * q.y + p.y * q.w + p.z * q.x - p.x * q.z) * (p.w * q.y + p.y * q.w + p.z * q.x - p.x * q.z)
          + (p.w * q.z + p.z * q.w + p.x * q.y - p.y * q.x) * (p.w * q.z + p.z * q.w + p.x * q.y - p.y * q.x)
         == NormSq(p) * NormSq(q)
  {
    FourSquare(p.w, p.x, p.y, p.z, q.w, q.x, q.y, q.z);
    MultEqual(NormSq(p), p.w * p.w + p.x * p.x + p.y * p.y + p.z * p.z,
              NormSq(q), q.w * q.w + q.x * q.x + q.y * q.y + q.z * q.z);
  }

  lemma ExpandNormOfProduct(p: Quaternion, q: Quaternion)
    ensures NormSq(Mult(p, q)) ==
        (p.w * q.w - p.x * q.x - p.y * q.y - p.z * q.z) * (p.w * q.w - p.x * q.x - p.y * q.y - p.z * q.z)
      + (p.w * q.x + p.x * q.w + p.y * q.z - p.z * q.y) * (p.w * q.x + p.x * q.w + p.y * q.z - p.z * q.y)
      + (p.w * q.y + p.y * q.w + p.z * q.x - p.x * q.z) * (p.w * q.y + p.y * q.w + p.z * q.x - p.x * q.z)
      + (p.w * q.z + p.z * q.w + p.x * q.y - p.y * q.x) * (p.w * q.z + p.z * q.w + p.x * q.y - p.y * q.x)
  {
  }

  lemma FourSquare(a: real, b: real, c: real, d: real, e: real, f: real, g: real, h: real)
    ensures (a * e - b * f - c * g - d * h) * (a * e - b * f - c * g - d * h)
          + (a * f + b * e + c * h - d * g) * (a * f + b * e + c * h - d * g)
          + (a * g + c * e + d * f - b * h) * (a * g + c * e + d * f - b * h)
          + (a * h + d * e + b * g - c * f) * (a * h + d * e + b * g - c * f)
         == (a * a + b * b + c * c + d * d) * (e * e + f * f + g * g + h * h)
  {
  }

  lemma MultEqual(a: real, a': real, b: real, b': real)
    requires a == a' && b == b'
    ensures a * b == a' * b'
  {
  }

  /** Conjugation reverses the order of a product. */
  lemma ConjugateOfProduct(p: Quaternion, q: Quaternion)
    ensures Conjugate(Mult(p, q)) == Mult(Conjugate(q), Conjugate(p))
  {
    ConjugateOfProductW(p, q);
    ConjugateOfProductX(p, q);
    ConjugateOfProductY(p, q);
    ConjugateOfProductZ(p, q);
  }

  lemma ConjugateOfProductW(p: Quaternion, q: Quaternion)
    ensures Conjugate(Mult(p, q)).w == Mult(Conjugate(q), Conjugate(p)).w
  {
  }

  lemma ConjugateOfProductX(p: Quaternion, q: Quaternion)
    ensures Conjugate(Mult(p, q)).x == Mult(Conjugate(q), Conjugate(p)).x
  {
  }

  lemma ConjugateOfProductY(p: Quaternion, q: Quaternion)
    ensures Conjugate(Mult(p, q)).y == Mult(Conjugate(q), Conjugate(p)).y
  {
  }

  lemma ConjugateOfProductZ(p: Quaternion, q: Quaternion)
    ensures Conjugate(Mult(p, q)).z == Mult(Conjugate(q), Conjugate(p)).z
  {
  }

  /** q * (0, v) * conjugate(q) has no scalar part, so `qv_mult` loses nothing
      by dropping it. */
  lemma SandwichIsPure(q: Quaternion, v: Vec3)
    ensures Mult(Mult(q, Pure(v)), Conjugate(q)) == Pure(Rotate(q, v))
  {
    ExpandSandwichScalar(q, v);
  }

  lemma ExpandSandwichScalar(q: Quaternion, v: Vec3)
    ensures Mult(Mult(q, Pure(v)), Conjugate(q)).w ==
      (-q.x * v.x - q.y * v.y - q.z * v.z) * q.w + (q.w * v.x + q.y * v.z - q.z * v.y) * q.x
      + (q.w * v.y + q.z * v.x - q.x * v.z) * q.y + (q.w * v.z + q.x * v.y - q.y * v.x) * q.z
  {
  }

  /** Rotating by q and then by p is rotating by p * q. */
  lemma RotateCompose(p: Quaternion, q: Quaternion, v: Vec3)
    ensures Rotate(p, Rotate(q, v)) == Rotate(Mult(p, q), v)
  {
    var pv, cp, cq := Pure(v), Conjugate(p), Conjugate(q);
    SandwichIsPure(q, v);
    ConjugateOfProduct(p, q);
    MultAssociative(p, Mult(q, pv), cq);
    MultAssociative(p, q, pv);
    MultAssociative(Mult(Mult(p, q), pv), cq, cp);
    calc {
      Mult(Mult(p, Pure(Rotate(q, v))), cp);
      Mult(Mult(p, Mult(Mult(q, pv), cq)), cp);
      Mult(Mult(Mult(p, Mult(q, pv)), cq), cp);
      Mult(Mult(Mult(Mult(p, q), pv), cq), cp);
      Mult(Mult(Mult(p, q), pv), Mult(cq, cp));
      Mult(Mult(Mult(p, q), pv), Conjugate(Mult(p, q)));
    }
  }

  /** For a unit quaternion, rotating by its conjugate undoes the rotation. */
  lemma RotateInverse(q: Quaternion, v: Vec3)
    requires NormSq(q) == 1.0
    ensures Rotate(q, Rotate(Conjugate(q), v)) == v
    ensures Rotate(Conjugate(q), Rotate(q, v)) == v
  {
    RotateCompose(q, Conjugate(q), v);
    RotateCompose(Conjugate(q), q, v);
    MultConjugate(q);
    RotateByScalar(NormSq(q), v);
  }

  /** Rotation scales squared lengths by the square of the squared norm of q:
      a unit quaternion keeps every length, any other one stretches the shape. */
  lemma RotateLength(q: Quaternion, v: Vec3)
    ensures LengthSq(Rotate(q, v)) == NormSq(q) * NormSq(q) * LengthSq(v)
  {
    SandwichIsPure(q, v);
    NormMultiplicative(q, Pure(v));
    NormMultiplicative(Mult(q, Pure(v)), Conjugate(q));
    assert NormSq(Pure(v)) == LengthSq(v);
    assert NormSq(Pure(Rotate(q, v))) == LengthSq(Rotate(q, v));
  }

  /** Rotation is linear: it maps differences of points to differences. */
  lemma RotateLinear(q: Quaternion, a: Vec3, b: Vec3)
    ensures Rotate(q, Sub(a, b)) == Sub(Rotate(q, a), Rotate(q, b))
  {
  }

  /** A unit quaternion moves a shape rigidly: the distance between any two
      points is kept. */
  lemma RotateKeepsDistance(q: Quaternion, a: Vec3, b: Vec3)
    requires NormSq(q) == 1.0
    ensures LengthSq(Sub(Rotate(q, a), Rotate(q, b))) == LengthSq(Sub(a, b))
  {
    RotateLinear(q, a, b);
    RotateLength(q, Sub(a, b));
  }
}
