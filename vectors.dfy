/**
 * Two-dimensional vectors (sf::Vector2f, with float components taken as reals)
 * and the exact helpers of the Math and MathVec2 structs.
 */
module Vectors {

  datatype Vec2 = Vec2(x: real, y: real)

  const Zero: Vec2 := Vec2(0.0, 0.0)

  function Add(a: Vec2, b: Vec2): Vec2 { Vec2(a.x + b.x, a.y + b.y) }

  function Sub(a: Vec2, b: Vec2): Vec2 { Vec2(a.x - b.x, a.y - b.y) }

  function Neg(a: Vec2): Vec2 { Vec2(-a.x, -a.y) }

  /** `v * k` on an sf::Vector2f. */
  function Scale(v: Vec2, k: real): Vec2 { Vec2(v.x * k, v.y * k) }

  /** `v / k` on an sf::Vector2f. */
  function Div(v: Vec2, k: real): Vec2
    requires k != 0.0
  {
    Vec2(v.x / k, v.y / k)
  }

  /**
   * The Euclidean length is a square root, which is not modelled: every use
   * of it takes one of these functions, about which nothing is known except
   * that its values are never negative.
   */
  type LengthFn = f: Vec2 -> real | forall v :: f(v) >= 0.0 witness (v: Vec2) => 0.0

  /** Math::sign: -1 below zero, 1 everywhere else, zero included. */
  function Sign(v: real): (r: real)
    ensures r == -1.0 || r == 1.0
    ensures r == -1.0 <==> v < 0.0
    ensures r * v >= 0.0
  {
    if v < 0.0 then -1.0 else 1.0
  }

  /** MathVec2::dot. */
  function Dot(a: Vec2, b: Vec2): real { a.x * b.x + a.y * b.y }

  /** MathVec2::cross, the z component of the 3D cross product. */
  function Cross(a: Vec2, b: Vec2): real { a.x * b.y - a.y * b.x }

  /** MathVec2::normal: the vector turned a quarter turn counter-clockwise. */
  function Normal(v: Vec2): (r: Vec2)
    ensures Dot(v, r) == 0.0
    ensures Dot(r, r) == Dot(v, v)
    ensures Cross(v, r) == Dot(v, v)
  {
    Vec2(-v.y, v.x)
  }

  /** Multiplying and dividing by the same nonzero real cancel. */
  lemma MulDivCancel(a: real, m: real)
    requires m != 0.0
    ensures m * (a / m) == a && (a * m) / m == a
  {
  }

  lemma DotSymmetric(a: Vec2, b: Vec2)
    ensures Dot(a, b) == Dot(b, a)
  {
  }

  lemma CrossAntisymmetric(a: Vec2, b: Vec2)
    ensures Cross(a, b) == -Cross(b, a)
  {
  }

  lemma CrossSelfIsZero(v: Vec2)
    ensures Cross(v, v) == 0.0
  {
    CrossAntisymmetric(v, v);
  }

  lemma NormalTwiceIsNegation(v: Vec2)
    ensures Normal(Normal(v)) == Neg(v)
  {
  }
}
