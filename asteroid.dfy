/**
 * asteroid.py: an asteroid drifts by its velocity, splits into two smaller,
 * faster asteroids when it is shot, and spawns at a screen edge heading
 * inwards.
 *
 * The random draws the source makes (`random.uniform`, `randint`, `choice`)
 * are parameters of the operations, constrained to the ranges the source
 * draws from.  Removing the parent from its groups and registering the
 * children is done by module Sprites around `Split`.
 */
module Asteroid {
  import opened Vector2
  import opened Constants
  import opened CircleShape

  /** Each child of a split moves 1.2 times as fast as its parent. */
  const SPLIT_SPEEDUP: real := 1.2

  /**
   * A rotation by an angle in [20, 50] degrees, the range of the split angle.
   * With c = cos(theta) and z = cos(3 theta) = 4c^3 - 3c: sin > 0 and c >= 1/2
   * give 0 < theta <= 60; z <= 1/2 excludes theta < 20; z >= -sqrt(3)/2
   * (written without the root) excludes 50 < theta <= 60.
   */
  predicate SplitTurnInRange(t: Turn) {
    var c := t.cos;
    var z := 4.0 * c * c * c - 3.0 * c;
    t.Valid() && t.sin > 0.0 && 2.0 * c >= 1.0 && z <= 0.5 && (z >= 0.0 || 4.0 * z * z <= 3.0)
  }

  /** A rotation by an angle in [-30, 30] degrees: cos(theta) >= sqrt(3)/2. */
  predicate SpawnTurnInRange(t: Turn) {
    t.Valid() && t.cos > 0.0 && 4.0 * Sq(t.cos) >= 3.0
  }

  /**
   * The velocities of the two children: the parent's, turned by +theta and
   * -theta, sped up.  Turning each child back by its angle gives the
   * parent's velocity sped up.
   */
  function SplitVelocities(v: Vec, t: Turn): (r: (Vec, Vec))
    ensures t.Valid() ==> r.0.Rotate(t.Inverse()) == v.Scale(SPLIT_SPEEDUP)
    ensures t.Valid() ==> r.1.Rotate(t) == v.Scale(SPLIT_SPEEDUP)
  {
    TurnBack(v, t, SPLIT_SPEEDUP);
    (v.Rotate(t).Scale(SPLIT_SPEEDUP), v.Rotate(t.Inverse()).Scale(SPLIT_SPEEDUP))
  }

  /** Both children move exactly 1.2 times as fast as the parent. */
  lemma SplitSpeeds(v: Vec, t: Turn)
    requires t.Valid()
    ensures SplitVelocities(v, t).0.Norm2() == Sq(SPLIT_SPEEDUP) * v.Norm2()
    ensures SplitVelocities(v, t).1.Norm2() == Sq(SPLIT_SPEEDUP) * v.Norm2()
  {
    RotateKeepsNorm(v, t);
    RotateKeepsNorm(v, t.Inverse());
    ScaleNorm(v.Rotate(t), SPLIT_SPEEDUP);
    ScaleNorm(v.Rotate(t.Inverse()), SPLIT_SPEEDUP);
  }

  /**
   * The children fly apart symmetrically about the parent's heading: their
   * velocities add up to the parent's, scaled by 2 * 1.2 * cos(theta).
   */
  lemma SplitSymmetric(v: Vec, t: Turn)
    ensures SplitVelocities(v, t).0.Plus(SplitVelocities(v, t).1) == v.Scale(2.0 * SPLIT_SPEEDUP * t.cos)
  {
    MirroredTurns(v, t);
  }

  /** A moving asteroid splits into two children with different velocities. */
  lemma SplitDiverges(v: Vec, t: Turn)
    requires SplitTurnInRange(t) && v != Zero
    ensures SplitVelocities(v, t).0 != SplitVelocities(v, t).1
  {
    var (a, b) := SplitVelocities(v, t);
    var s := t.sin;
    assert a.x - b.x == -2.0 * SPLIT_SPEEDUP * s * v.y;
    assert b.y - a.y == -2.0 * SPLIT_SPEEDUP * s * v.x;
    if v.x != 0.0 {
      assert s * v.x != 0.0;
    } else {
      assert s * v.y != 0.0;
    }
  }

  /** How many more times an asteroid of radius r can split before its pieces stop splitting. */
  function SplitDepth(r: real): nat
    decreases r.Floor
  {
    if r <= ASTEROID_MIN_RADIUS then 0 else 1 + SplitDepth(r - ASTEROID_MIN_RADIUS)
  }

  /**
   * A spawned asteroid of radius ASTEROID_MIN_RADIUS * k splits at most
   * k - 1 times down any chain of splits.
   */
  lemma {:induction false} SpawnedSplitDepth(k: int)
    requires k >= 1
    ensures SplitDepth(ASTEROID_MIN_RADIUS * k as real) == k - 1
  {
    if k > 1 {
      assert ASTEROID_MIN_RADIUS * k as real - ASTEROID_MIN_RADIUS == ASTEROID_MIN_RADIUS * (k - 1) as real;
      SpawnedSplitDepth(k - 1);
    }
  }

  /** The edge an asteroid spawns at. */
  datatype Edge = Top | Bottom | Left | Right

  /** The unit direction pointing from edge `e` into the screen. */
  function Inward(e: Edge): (d: Vec)
    ensures d.IsUnit()
  {
    match e
    case Top => Vec(0.0, 1.0)
    case Bottom => Vec(0.0, -1.0)
    case Left => Vec(1.0, 0.0)
    case Right => Vec(-1.0, 0.0)
  }

  /** The random draws of one `spawn`. */
  datatype SpawnDraw = SpawnDraw(mod: real, speed: int, rotation: Turn, edge: Edge, kind: int) {
    predicate Valid() {
      && 0.0 <= mod <= 1.0
      && 40 <= speed <= 100
      && SpawnTurnInRange(rotation)
      && 1 <= kind <= ASTEROID_KINDS
    }
  }

  /** How far a point is from edge `e`, measured into the screen. */
  function Depth(e: Edge, p: Vec): real {
    match e
    case Top => p.y
    case Bottom => SCREEN_HEIGHT - p.y
    case Left => p.x
    case Right => SCREEN_WIDTH - p.x
  }

  /** How far along edge `e` a point is, as a fraction of the edge's length. */
  function Along(e: Edge, p: Vec): real {
    match e
    case Top => p.x / SCREEN_WIDTH
    case Bottom => p.x / SCREEN_WIDTH
    case Left => p.y / SCREEN_HEIGHT
    case Right => p.y / SCREEN_HEIGHT
  }

  /** The spawn point: `asteroidMaxRadius` inside the edge, at `mod` along it. */
  function SpawnPosition(d: SpawnDraw, t: Tuning): (p: Vec)
    ensures Depth(d.edge, p) == t.asteroidMaxRadius
    ensures Along(d.edge, p) == d.mod
  {
    match d.edge
    case Top => Vec(SCREEN_WIDTH * d.mod, t.asteroidMaxRadius)
    case Bottom => Vec(SCREEN_WIDTH * d.mod, SCREEN_HEIGHT - t.asteroidMaxRadius)
    case Left => Vec(t.asteroidMaxRadius, SCREEN_HEIGHT * d.mod)
    case Right => Vec(SCREEN_WIDTH - t.asteroidMaxRadius, SCREEN_HEIGHT * d.mod)
  }

  /**
   * The spawn velocity: the edge's inward direction, turned by the drawn
   * rotation, at the drawn speed; so a spawned asteroid moves at exactly
   * the drawn speed.
   */
  function SpawnVelocity(d: SpawnDraw): (v: Vec)
    ensures d.rotation.Valid() ==> v.Norm2() == Sq(d.speed as real)
  {
    var u := Inward(d.edge);
    RotateKeepsNorm(u, d.rotation);
    ScaleNorm(u.Rotate(d.rotation), d.speed as real);
    u.Rotate(d.rotation).Scale(d.speed as real)
  }

  /** A spawned asteroid starts on the screen (so the out-of-bounds check keeps it). */
  lemma SpawnOnScreen(d: SpawnDraw, t: Tuning)
    requires d.Valid() && 0.0 <= t.asteroidMaxRadius <= SCREEN_HEIGHT
    ensures !OutOfBounds(SpawnPosition(d, t))
  {
  }

  /** Turning an axis direction and scaling it keeps cos * scale of it along the axis. */
  lemma AxisDot(u: Vec, r: Turn, sp: real)
    requires u in {Vec(0.0, 1.0), Vec(0.0, -1.0), Vec(1.0, 0.0), Vec(-1.0, 0.0)}
    ensures u.Dot(u.Rotate(r).Scale(sp)) == r.cos * sp
  {
    var c, s := r.cos, r.sin;
    if u == Vec(0.0, 1.0) {
      assert u.Rotate(r) == Vec(-s, c);
    } else if u == Vec(0.0, -1.0) {
      assert u.Rotate(r) == Vec(s, -c);
    } else if u == Vec(1.0, 0.0) {
      assert u.Rotate(r) == Vec(c, s);
    } else {
      assert u.Rotate(r) == Vec(-c, -s);
    }
  }

  /** A spawned asteroid moves away from its edge. */
  lemma SpawnHeadsInward(d: SpawnDraw)
    requires d.Valid()
    ensures Inward(d.edge).Dot(SpawnVelocity(d)) > 0.0
  {
    var u := Inward(d.edge);
    assert u in {Vec(0.0, 1.0), Vec(0.0, -1.0), Vec(1.0, 0.0), Vec(-1.0, 0.0)};
    AxisHeadsInward(u, d.rotation, d.speed as real);
  }

  lemma AxisHeadsInward(u: Vec, r: Turn, sp: real)
    requires u in {Vec(0.0, 1.0), Vec(0.0, -1.0), Vec(1.0, 0.0), Vec(-1.0, 0.0)}
    requires r.cos > 0.0 && sp > 0.0
    ensures u.Dot(u.Rotate(r).Scale(sp)) > 0.0
  {
    AxisDot(u, r, sp);
    ProductPositive(r.cos, sp);
  }

  class Asteroid {
    var position: Vec
    var velocity: Vec
    const radius: real

    /** `CircleShape.__init__`: a copy of the position, at rest. */
    constructor (position: Vec, radius: real)
      ensures this.position == position && this.radius == radius
      ensures velocity == Zero
    {
      this.position := position;
      this.velocity := Zero;
      this.radius := radius;
    }

    /** `update`: drift by velocity * dt. */
    method Update(dt: real)
      modifies this`position
      ensures position == Drift(old(position), velocity, dt)
    {
      position := position.Plus(velocity.Scale(dt));
    }

    /**
     * `split`, given the drawn angle: no children at or below the minimum
     * radius; otherwise two new asteroids at this position, each
     * ASTEROID_MIN_RADIUS smaller, flying off at +theta and -theta.
     * The asteroid itself is left as it was.
     */
    method Split(turn: Turn) returns (children: seq<Asteroid>)
      requires SplitTurnInRange(turn)
      ensures radius <= ASTEROID_MIN_RADIUS ==> children == []
      ensures radius > ASTEROID_MIN_RADIUS ==>
        && |children| == 2
        && fresh(children[0]) && fresh(children[1]) && children[0] != children[1]
        && children[0].position == position && children[1].position == position
        && children[0].radius == radius - ASTEROID_MIN_RADIUS
        && children[1].radius == radius - ASTEROID_MIN_RADIUS
        && (children[0].velocity, children[1].velocity) == SplitVelocities(velocity, turn)
    {
      if radius <= ASTEROID_MIN_RADIUS {
        return [];
      }
      var (v1, v2) := SplitVelocities(velocity, turn);
      var r := radius - ASTEROID_MIN_RADIUS;
      var a1 := new Asteroid(position, r);
      var a2 := new Asteroid(position, r);
      a1.velocity := v1;
      a2.velocity := v2;
      children := [a1, a2];
    }

    /** `spawn`, given the draws: at the spawn point, heading inwards, radius MIN * kind. */
    static method Spawn(d: SpawnDraw, t: Tuning) returns (a: Asteroid)
      ensures fresh(a)
      ensures a.position == SpawnPosition(d, t) && a.velocity == SpawnVelocity(d)
      ensures a.radius == ASTEROID_MIN_RADIUS * d.kind as real
    {
      a := new Asteroid(SpawnPosition(d, t), ASTEROID_MIN_RADIUS * d.kind as real);
      a.velocity := SpawnVelocity(d);
    }
  }
}
