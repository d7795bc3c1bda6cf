/**
 * Two-dimensional vectors over the reals: the part of pygame's Vector2 that
 * the game uses (addition, scaling, negation, rotation, squared length).
 *
 * Rotation needs trigonometry, which is not available here.  A rotation by
 * an angle is therefore represented by the pair (cos, sin) of that angle,
 * supplied by the caller; `Turn.Valid` says the pair lies on the unit circle.
 * pygame rotates counter-clockwise in its coordinate system, which is the
 * usual matrix [[cos, -sin], [sin, cos]].
 */
module Vector2 {

  /**
   * The square of a real.  Squares are kept behind this function: the solver
   * handles `Sq(a)` as a term of its own more reliably than the product `a * a`.
   */
  function Sq(a: real): (r: real)
    ensures r >= 0.0
  {
    a * a
  }

  lemma ProductPositive(a: real, b: real)
    requires a > 0.0 && b > 0.0
    ensures a * b > 0.0
  {
  }

  /** For non-negative reals, comparing squares is comparing the numbers. */
  lemma SquaresOrdered(a: real, b: real)
    requires 0.0 <= a && 0.0 <= b
    ensures a <= b <==> Sq(a) <= Sq(b)
  {
    assert Sq(b) - Sq(a) == (b - a) * (b + a);
    if a < b {
      ProductPositive(b - a, b + a);
    } else if b < a {
      ProductPositive(a - b, b + a);
      assert Sq(a) - Sq(b) == (a - b) * (b + a);
    }
  }

  /**
   * `v.magnitude() >= limit` written without the square root: for the true
   * length m of v, the test is the squared-length test.
   */
  lemma SpeedTest(m: real, norm2: real, limit: real)
    requires m >= 0.0 && Sq(m) == norm2 && limit >= 0.0
    ensures m >= limit <==> norm2 >= Sq(limit)
  {
    SquaresOrdered(limit, m);
  }

  datatype Vec = Vec(x: real, y: real) {

    function Plus(w: Vec): Vec {
      Vec(x + w.x, y + w.y)
    }

    function Minus(w: Vec): Vec {
      Vec(x - w.x, y - w.y)
    }

    function Scale(k: real): Vec {
      Vec(k * x, k * y)
    }

    function Neg(): Vec {
      Vec(-x, -y)
    }

    function Dot(w: Vec): real {
      x * w.x + y * w.y
    }

    /** The 2D cross product; zero exactly when the two vectors are parallel. */
    function Cross(w: Vec): real {
      x * w.y - y * w.x
    }

    /** The squared length, `magnitude() ** 2` in pygame. */
    function Norm2(): real {
      Sq(x) + Sq(y)
    }

    predicate IsUnit() {
      Norm2() == 1.0
    }

    function Rotate(t: Turn): Vec {
      Vec(t.cos * x - t.sin * y, t.sin * x + t.cos * y)
    }
  }

  const Zero := Vec(0.0, 0.0)

  /** A rotation by some angle theta, given as (cos theta, sin theta). */
  datatype Turn = Turn(cos: real, sin: real) {

    predicate Valid() {
      Sq(cos) + Sq(sin) == 1.0
    }

    /** The rotation by the opposite angle, -theta. */
    function Inverse(): Turn {
      Turn(cos, -sin)
    }
  }

  /** The squared distance between two points, `distance_to(...) ** 2` in pygame. */
  function Dist2(p: Vec, q: Vec): (d: real)
    ensures d >= 0.0
    ensures p == q ==> d == 0.0
  {
    p.Minus(q).Norm2()
  }

  /** A rotation keeps the length of every vector. */
  lemma RotateKeepsNorm(v: Vec, t: Turn)
    ensures t.Valid() ==> v.Rotate(t).Norm2() == v.Norm2()
  {
    if t.Valid() {
      TwoSquares(t.cos, t.sin, v.x, v.y);
    }
  }

  /** For c^2 + s^2 = 1: (c x - s y)^2 + (s x + c y)^2 = x^2 + y^2. */
  lemma TwoSquares(c: real, s: real, x: real, y: real)
    requires Sq(c) + Sq(s) == 1.0
    ensures Sq(c * x - s * y) + Sq(s * x + c * y) == Sq(x) + Sq(y)
  {
    calc {
      Sq(c * x - s * y) + Sq(s * x + c * y);
    ==
      (Sq(c) + Sq(s)) * Sq(x) + (Sq(c) + Sq(s)) * Sq(y);
    ==
      Sq(x) + Sq(y);
    }
  }

  /** Scaling by k multiplies the squared length by k*k. */
  lemma ScaleNorm(v: Vec, k: real)
    ensures v.Scale(k).Norm2() == k * k * v.Norm2()
  {
    calc {
      v.Scale(k).Norm2();
      (k * v.x) * (k * v.x) + (k * v.y) * (k * v.y);
      k * k * (v.x * v.x + v.y * v.y);
    }
  }

  /**
   * Turning back: a vector turned by theta and scaled by k, then turned by
   * -theta, is the vector scaled by k; and the same the other way round.
   */
  lemma TurnBack(v: Vec, t: Turn, k: real)
    ensures t.Valid() ==> v.Rotate(t).Scale(k).Rotate(t.Inverse()) == v.Scale(k)
    ensures t.Valid() ==> v.Rotate(t.Inverse()).Scale(k).Rotate(t) == v.Scale(k)
  {
    if t.Valid() {
      var c, s := t.cos, t.sin;
      assert c * c + s * s == 1.0;
      calc {
        c * (k * (c * v.x - s * v.y)) - (-s) * (k * (s * v.x + c * v.y));
        k * v.x * (c * c + s * s);
        k * v.x;
      }
      calc {
        (-s) * (k * (c * v.x - s * v.y)) + c * (k * (s * v.x + c * v.y));
        k * v.y * (c * c + s * s);
        k * v.y;
      }
      calc {
        c * (k * (c * v.x - (-s) * v.y)) - s * (k * ((-s) * v.x + c * v.y));
        k * v.x * (c * c + s * s);
        k * v.x;
      }
      calc {
        s * (k * (c * v.x - (-s) * v.y)) + c * (k * ((-s) * v.x + c * v.y));
        k * v.y * (c * c + s * s);
        k * v.y;
      }
    }
  }

  /**
   * Rotating a vector by +theta and by -theta gives two vectors that are
   * mirror images across the original: their sum points along the original.
   */
  lemma MirroredTurns(v: Vec, t: Turn)
    ensures v.Rotate(t).Plus(v.Rotate(t.Inverse())) == v.Scale(2.0 * t.cos)
  {
  }
}
