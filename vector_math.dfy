/**
  The 3-component vector algebra of PodPals/Utilities/AccelerationExtension.swift
  (an extension of CMAcceleration). Components are exact reals; the square root that
  `magnitude()` takes from the platform is a parameter `sqrt`, and the lemmas that
  depend on what a square root is require `IsSqrt(sqrt)`.
*/
module VectorMath {
  import opened Wrappers

  datatype Vector3 = Vector3(x: real, y: real, z: real)

  const Zero: Vector3 := Vector3(0.0, 0.0, 0.0)

  /** The only failure of the vector algebra: normalising a vector of length zero. */
  datatype VectorError = DegenerateVector

  /** The cross product is orthogonal to both of its operands. */
  function Cross(a: Vector3, b: Vector3): (r: Vector3)
    ensures Dot(r, a) == 0.0 && Dot(r, b) == 0.0
  {
    Vector3(a.y * b.z - a.z * b.y,
            a.z * b.x - a.x * b.z,
            a.x * b.y - a.y * b.x)
  }

  function Dot(a: Vector3, b: Vector3): real
  {
    a.x * b.x + a.y * b.y + a.z * b.z
  }

  function Scaled(a: Vector3, factor: real): Vector3
  {
    Vector3(a.x * factor, a.y * factor, a.z * factor)
  }

  /** A fresh vector with the same three components. */
  function Copy(a: Vector3): (r: Vector3)
    ensures r.x == a.x && r.y == a.y && r.z == a.z
    ensures r == a
  {
    Vector3(a.x, a.y, a.z)
  }

  /** What the platform square root promises for non-negative arguments. */
  ghost predicate IsSqrt(sqrt: real -> real)
  {
    forall v :: 0.0 <= v ==> 0.0 <= sqrt(v) && sqrt(v) * sqrt(v) == v
  }

  function Magnitude(a: Vector3, sqrt: real -> real): real
  {
    sqrt(a.x * a.x + a.y * a.y + a.z * a.z)
  }

  /**
    Each component divided by the magnitude. Where the source would divide by a zero
    magnitude (and produce NaN components), the model returns DegenerateVector.
    Scaling a successful result back by the magnitude gives the input.
  */
  function Normalized(a: Vector3, sqrt: real -> real): (r: Result<Vector3, VectorError>)
    ensures r.Failure? <==> Magnitude(a, sqrt) == 0.0
    ensures r.Success? ==> Scaled(r.value, Magnitude(a, sqrt)) == a
  {
    var mag := Magnitude(a, sqrt);
    if mag == 0.0 then Failure(DegenerateVector)
    else Success(Vector3(a.x / mag, a.y / mag, a.z / mag))
  }

  lemma CrossAntiCommutative(a: Vector3, b: Vector3)
    ensures Cross(b, a) == Scaled(Cross(a, b), -1.0)
  {
  }

  lemma CrossSelfIsZero(a: Vector3)
    ensures Cross(a, a) == Zero
  {
  }

  lemma DotCommutative(a: Vector3, b: Vector3)
    ensures Dot(a, b) == Dot(b, a)
  {
  }

  lemma DotScaledLeft(a: Vector3, b: Vector3, k: real)
    ensures Dot(Scaled(a, k), b) == k * Dot(a, b)
  {
  }

  lemma ScaledCompose(a: Vector3, j: real, k: real)
    ensures Scaled(Scaled(a, j), k) == Scaled(a, j * k)
  {
  }

  lemma ScaledByOne(a: Vector3)
    ensures Scaled(a, 1.0) == a
  {
  }

  /** The magnitude is non-negative and squares to a·a. */
  lemma MagnitudeLaws(a: Vector3, sqrt: real -> real)
    requires IsSqrt(sqrt)
    ensures Magnitude(a, sqrt) >= 0.0
    ensures Magnitude(a, sqrt) * Magnitude(a, sqrt) == Dot(a, a)
  {
    assert 0.0 <= a.x * a.x + a.y * a.y + a.z * a.z;
  }
}
