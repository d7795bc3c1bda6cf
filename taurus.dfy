/**
 * asteroids/taurus.py: the Taurus defence platform.  It has four axis
 * thrusters driven by the arrow keys or WASD, a plasma cannon on the left
 * mouse button and the three-round Mjolnir cannon on the right button,
 * each cannon with its own cooldown.  Both cannons aim at the mouse pointer.
 *
 * `direction` is the source's `(position - mouse).normalize_ip()`, supplied
 * by the caller (`Normalizes` says what it must be, and only when a cannon
 * actually fires, as `normalize_ip` fails only then); `twenty` is the
 * rotation by 20 degrees; the sprite kinds the rounds draw are parameters.
 */
module Taurus {
  import opened Vector2
  import opened Constants
  import opened Input
  import Cooldown
  import AsteroidsShot
  import Explosion

  /** u is d normalised: a unit vector pointing the same way as d (so d is not zero). */
  predicate Normalizes(u: Vec, d: Vec) {
    u.IsUnit() && u.Cross(d) == 0.0 && u.Dot(d) > 0.0
  }

  /**
   * A rotation by exactly 20 degrees: 0 < theta < 90 and
   * cos(3 theta) = 4c^3 - 3c = 1/2, whose only solution there is 20.
   */
  predicate IsTwentyDegrees(t: Turn) {
    t.Valid() && t.cos > 0.0 && t.sin > 0.0 && 8.0 * t.cos * t.cos * t.cos - 6.0 * t.cos == 1.0
  }

  /** The four engine flags. */
  datatype Engines = Engines(top: bool, bottom: bool, left: bool, right: bool)

  /**
   * The key mapping of `update`: RIGHT/D fires the left engine, LEFT/A the
   * right one, UP/W the bottom one, DOWN/S the top one.  So each key pushes
   * the platform the way it points on the screen (y grows downwards), and
   * the arrows and WASD are interchangeable.
   */
  function EnginesFor(keys: Keys): (e: Engines)
    ensures ThrustVector(e, 1.0).x == Signed(keys.rightArrow || keys.keyD, keys.leftArrow || keys.keyA, 1.0)
    ensures ThrustVector(e, 1.0).y == Signed(keys.downArrow || keys.keyS, keys.upArrow || keys.keyW, 1.0)
  {
    Engines(
      keys.downArrow || keys.keyS,
      keys.upArrow || keys.keyW,
      keys.rightArrow || keys.keyD,
      keys.leftArrow || keys.keyA)
  }

  /** `a` if the first engine runs, minus `a` if the opposite one does. */
  function Signed(plus: bool, minus: bool, a: real): real {
    (if plus then a else 0.0) - (if minus then a else 0.0)
  }

  /**
   * The thrust of `accelerate`, v_down + v_up + v_left + v_right, where each
   * engine adds its axis times `a` when it runs: the left engine pushes right
   * (+x), the right engine left, the top engine down (+y), the bottom engine
   * up; opposite engines cancel out.
   */
  function ThrustVector(e: Engines, a: real): (v: Vec)
    ensures e.left == e.right ==> v.x == 0.0
    ensures e.top == e.bottom ==> v.y == 0.0
    ensures e.left && !e.right ==> v.x == a
    ensures e.right && !e.left ==> v.x == -a
    ensures e.top && !e.bottom ==> v.y == a
    ensures e.bottom && !e.top ==> v.y == -a
  {
    Vec(Signed(e.left, e.right, a), Signed(e.top, e.bottom, a))
  }

  /**
   * `accelerate` as the source executes it: `velocity_old` names the same
   * Vector2 object that `+=` then changes in place, so restoring it restores
   * nothing and the thrust is always kept.
   */
  function AccelerateAsWritten(v: Vec, e: Engines, dt: real, t: Tuning): (r: Vec)
    ensures r.Minus(v) == ThrustVector(e, t.taurusAcceleration * dt)
  {
    v.Plus(ThrustVector(e, t.taurusAcceleration * dt))
  }

  /**
   * The code as written agrees with the intended `accelerate` exactly when
   * the engines give no thrust or the thrust leaves the platform below the
   * top speed; every other frame it keeps a thrust the intended code undoes.
   */
  lemma AsWrittenDiffers(v: Vec, e: Engines, dt: real, t: Tuning)
    ensures var thrust := ThrustVector(e, t.taurusAcceleration * dt);
      var r := AccelerateAsWritten(v, e, dt, t);
      r == Kicked(v, thrust, t.taurusMaxSpeed) <==> thrust == Zero || r.Norm2() < Sq(t.taurusMaxSpeed)
  {
    var thrust := ThrustVector(e, t.taurusAcceleration * dt);
    var r := AccelerateAsWritten(v, e, dt, t);
    assert r == v <==> thrust == Zero;
  }

  /**
   * With the source's code a platform below the top speed can end above it:
   * with TAURUS_ACCELERATION = 100 and TAURUS_MAX_SPEED = 5, a platform at
   * rest firing its left engine for a frame of 0.1 s ends at speed 10.
   */
  lemma AsWrittenOverspeeds(t: Tuning)
    requires t.taurusAcceleration == 100.0 && t.taurusMaxSpeed == 5.0
    ensures Zero.Norm2() < Sq(t.taurusMaxSpeed)
    ensures AccelerateAsWritten(Zero, Engines(false, false, true, false), 0.1, t).Norm2() > Sq(t.taurusMaxSpeed)
  {
    assert AccelerateAsWritten(Zero, Engines(false, false, true, false), 0.1, t) == Vec(10.0, 0.0);
    assert Vec(10.0, 0.0).Norm2() > Sq(t.taurusMaxSpeed);
  }

  /**
   * `accelerate` as intended: the thrust is kept only if it leaves the
   * platform below the top speed `max`; otherwise the old velocity stays.
   * So the thrust is kept or dropped whole, a kept thrust ends below the top
   * speed, and a platform below the top speed stays below it.
   */
  function Kicked(v: Vec, thrust: Vec, max: real): (r: Vec)
    ensures r == v || r == v.Plus(thrust)
    ensures r != v ==> r.Norm2() < Sq(max)
    ensures v.Norm2() < Sq(max) ==> r.Norm2() < Sq(max)
  {
    var w := v.Plus(thrust);
    if w.Norm2() >= Sq(max) then v else w
  }

  /** The velocities of the three Mjolnir rounds: turned by +20, straight, turned by -20 degrees. */
  function MjolnirVelocities(direction: Vec, twenty: Turn, speed: real): (Vec, Vec, Vec) {
    (direction.Rotate(twenty).Neg().Scale(speed),
     direction.Neg().Scale(speed),
     direction.Rotate(twenty.Inverse()).Neg().Scale(speed))
  }

  /** The outer rounds fan out symmetrically about the middle one. */
  lemma MjolnirFan(direction: Vec, twenty: Turn, speed: real)
    ensures var (v1, v2, v3) := MjolnirVelocities(direction, twenty, speed);
      v1.Plus(v3) == v2.Scale(2.0 * twenty.cos)
  {
    var p, q := direction.Rotate(twenty), direction.Rotate(twenty.Inverse());
    MirroredTurns(direction, twenty);
    FlippedSum(p, q, speed);
    var k := 2.0 * twenty.cos;
    assert p.Plus(q) == direction.Scale(k);
    assert direction.Scale(k).Neg().Scale(speed) == direction.Neg().Scale(speed).Scale(k);
  }

  /** Reversing and scaling two vectors reverses and scales their sum. */
  lemma FlippedSum(p: Vec, q: Vec, k: real)
    ensures p.Neg().Scale(k).Plus(q.Neg().Scale(k)) == p.Plus(q).Neg().Scale(k)
  {
  }

  /** A unit vector, turned, reversed and scaled by `speed`, has length `speed`. */
  lemma TurnedSpeed(direction: Vec, r: Turn, speed: real)
    requires direction.IsUnit() && r.Valid()
    ensures direction.Rotate(r).Neg().Scale(speed).Norm2() == Sq(speed)
  {
    var u := direction.Rotate(r);
    RotateKeepsNorm(direction, r);
    assert u.Neg().Norm2() == 1.0;
    ScaleNorm(u.Neg(), speed);
  }

  /** All three rounds fly at MJOLNIR_SPEED. */
  lemma MjolnirSpeeds(direction: Vec, twenty: Turn, speed: real)
    requires direction.IsUnit() && twenty.Valid()
    ensures var (v1, v2, v3) := MjolnirVelocities(direction, twenty, speed);
      v1.Norm2() == Sq(speed) && v2.Norm2() == Sq(speed) && v3.Norm2() == Sq(speed)
  {
    TurnedSpeed(direction, twenty, speed);
    assert twenty.Inverse().Valid();
    TurnedSpeed(direction, twenty.Inverse(), speed);
    assert direction.Neg().Norm2() == 1.0;
    ScaleNorm(direction.Neg(), speed);
  }

  /** A plasma shot flies towards the mouse pointer at SHOT_SPEED. */
  lemma ShotAimsAtMouse(position: Vec, mouse: Vec, direction: Vec)
    requires Normalizes(direction, position.Minus(mouse))
    ensures direction.Neg().Scale(SHOT_SPEED).Dot(mouse.Minus(position)) > 0.0
    ensures direction.Neg().Scale(SHOT_SPEED).Norm2() == Sq(SHOT_SPEED)
  {
    var d := position.Minus(mouse);
    assert direction.Neg().Scale(SHOT_SPEED).Dot(mouse.Minus(position)) == SHOT_SPEED * direction.Dot(d);
    ProductPositive(SHOT_SPEED, direction.Dot(d));
    ScaleNorm(direction.Neg(), SHOT_SPEED);
  }

  class Taurus {
    var position: Vec
    var velocity: Vec
    const radius: real
    var shotCooldown: real
    var mjolnirCooldown: real
    var engineTop: bool
    var engineBottom: bool
    var engineLeft: bool
    var engineRight: bool

    function Thrusters(): Engines
      reads this
    {
      Engines(engineTop, engineBottom, engineLeft, engineRight)
    }

    /** A platform at rest with both cannons ready and all engines off. */
    constructor (position: Vec, t: Tuning)
      ensures this.position == position && velocity == Zero && radius == t.taurusRadius
      ensures shotCooldown == 0.0 && mjolnirCooldown == 0.0
      ensures Thrusters() == Engines(false, false, false, false)
    {
      this.position := position;
      velocity := Zero;
      radius := t.taurusRadius;
      shotCooldown := 0.0;
      mjolnirCooldown := 0.0;
      engineTop, engineBottom, engineLeft, engineRight := false, false, false, false;
    }

    /** `accelerate` (intended semantics, see `AccelerateAsWritten`). */
    method Accelerate(dt: real, t: Tuning)
      modifies this`velocity
      ensures velocity == Kicked(old(velocity), ThrustVector(Thrusters(), t.taurusAcceleration * dt), t.taurusMaxSpeed)
    {
      var v := ThrustVector(Thrusters(), t.taurusAcceleration * dt);
      var velocityOld := velocity;
      velocity := velocity.Plus(v);
      if velocity.Norm2() >= Sq(t.taurusMaxSpeed) {
        velocity := velocityOld;
      }
    }

    /** The engine part of `update`: all engines off, then on as the keys say. */
    method Steer(keys: Keys)
      modifies this`engineTop, this`engineBottom, this`engineLeft, this`engineRight
      ensures Thrusters() == EnginesFor(keys)
    {
      engineTop, engineBottom, engineLeft, engineRight := false, false, false, false;
      if keys.rightArrow || keys.keyD {
        engineLeft := true;
      }
      if keys.leftArrow || keys.keyA {
        engineRight := true;
      }
      if keys.upArrow || keys.keyW {
        engineBottom := true;
      }
      if keys.downArrow || keys.keyS {
        engineTop := true;
      }
    }

    /** `move`: one whole velocity per frame. */
    method Move()
      modifies this`position
      ensures position == old(position).Plus(velocity)
    {
      position := position.Plus(velocity);
    }

    /**
     * `shoot`: nothing while the plasma cooldown is positive; otherwise one
     * shot at the rim towards the mouse, and the plasma cooldown re-armed.
     * The Mjolnir cooldown is not touched.
     */
    method Shoot(mouse: Vec, direction: Vec, shotKind: int, t: Tuning) returns (shots: seq<AsteroidsShot.Shot>)
      requires 1 <= shotKind <= t.shotKinds
      requires shotCooldown <= 0.0 ==> Normalizes(direction, position.Minus(mouse))
      modifies this`shotCooldown
      ensures mjolnirCooldown == old(mjolnirCooldown)
      ensures old(shotCooldown) > 0.0 ==> shots == [] && shotCooldown == old(shotCooldown)
      ensures old(shotCooldown) <= 0.0 ==>
        && shotCooldown == SHOT_COOLDOWN
        && |shots| == 1 && fresh(shots[0])
        && shots[0].position == position.Minus(direction.Scale(radius))
        && shots[0].velocity == direction.Neg().Scale(SHOT_SPEED)
        && shots[0].radius == SHOT_RADIUS && shots[0].kind == shotKind
    {
      if shotCooldown > 0.0 {
        return [];
      }
      var shot := new AsteroidsShot.Shot(position.Minus(direction.Scale(radius)), shotKind, t);
      shot.velocity := direction.Neg().Scale(SHOT_SPEED);
      shotCooldown := SHOT_COOLDOWN;
      shots := [shot];
    }

    /**
     * `fire_mjolnir`: nothing while the Mjolnir cooldown is positive;
     * otherwise three rounds from one point on the rim, fanned out by 20
     * degrees, and the Mjolnir cooldown re-armed.  The plasma cooldown is
     * not touched.
     */
    method FireMjolnir(mouse: Vec, direction: Vec, twenty: Turn, kinds: seq<int>, t: Tuning)
      returns (rounds: seq<AsteroidsShot.Mjolnir>)
      requires |kinds| == 3 && forall i :: 0 <= i < 3 ==> 1 <= kinds[i] <= t.mjolnirKinds
      requires mjolnirCooldown <= 0.0 ==> Normalizes(direction, position.Minus(mouse)) && IsTwentyDegrees(twenty)
      modifies this`mjolnirCooldown
      ensures shotCooldown == old(shotCooldown)
      ensures old(mjolnirCooldown) > 0.0 ==> rounds == [] && mjolnirCooldown == old(mjolnirCooldown)
      ensures old(mjolnirCooldown) <= 0.0 ==>
        && mjolnirCooldown == t.mjolnirCooldown
        && |rounds| == 3
        && fresh(rounds[0]) && fresh(rounds[1]) && fresh(rounds[2])
        && rounds[0] != rounds[1] && rounds[1] != rounds[2] && rounds[0] != rounds[2]
        && (forall i :: 0 <= i < 3 ==> rounds[i].position == position.Minus(direction.Scale(radius)))
        && (forall i :: 0 <= i < 3 ==> rounds[i].radius == t.mjolnirRadius && rounds[i].kind == kinds[i])
        && (rounds[0].velocity, rounds[1].velocity, rounds[2].velocity)
           == MjolnirVelocities(direction, twenty, t.mjolnirSpeed)
    {
      if mjolnirCooldown > 0.0 {
        return [];
      }
      var pos := position.Minus(direction.Scale(radius));
      var shot1 := new AsteroidsShot.Mjolnir(pos, kinds[0], t);
      var shot2 := new AsteroidsShot.Mjolnir(pos, kinds[1], t);
      var shot3 := new AsteroidsShot.Mjolnir(pos, kinds[2], t);
      shot1.velocity := direction.Rotate(twenty).Neg().Scale(t.mjolnirSpeed);
      shot2.velocity := direction.Neg().Scale(t.mjolnirSpeed);
      shot3.velocity := direction.Rotate(twenty.Inverse()).Neg().Scale(t.mjolnirSpeed);
      mjolnirCooldown := t.mjolnirCooldown;
      rounds := [shot1, shot2, shot3];
    }

    /**
     * `update`: count both cooldowns down, set the engines from the keys,
     * fire the cannons whose buttons are held, thrust, then move.
     */
    method Update(dt: real, keys: Keys, buttons: Buttons, mouse: Vec, direction: Vec, twenty: Turn,
                  shotKind: int, mjolnirKinds: seq<int>, t: Tuning)
      returns (shots: seq<AsteroidsShot.Shot>, rounds: seq<AsteroidsShot.Mjolnir>)
      requires 1 <= shotKind <= t.shotKinds
      requires |mjolnirKinds| == 3 && forall i :: 0 <= i < 3 ==> 1 <= mjolnirKinds[i] <= t.mjolnirKinds
      requires buttons.left && shotCooldown - dt <= 0.0 ==> Normalizes(direction, position.Minus(mouse))
      requires buttons.right && mjolnirCooldown - dt <= 0.0 ==>
        Normalizes(direction, position.Minus(mouse)) && IsTwentyDegrees(twenty)
      modifies this
      ensures shotCooldown == Cooldown.Step(old(shotCooldown), dt, buttons.left, SHOT_COOLDOWN).next
      ensures mjolnirCooldown == Cooldown.Step(old(mjolnirCooldown), dt, buttons.right, t.mjolnirCooldown).next
      ensures Thrusters() == EnginesFor(keys)
      ensures velocity == Kicked(old(velocity), ThrustVector(EnginesFor(keys), t.taurusAcceleration * dt), t.taurusMaxSpeed)
      ensures position == old(position).Plus(velocity)
      ensures |shots| == (if Cooldown.Step(old(shotCooldown), dt, buttons.left, SHOT_COOLDOWN).fired then 1 else 0)
      ensures |shots| == 1 ==>
        && fresh(shots[0])
        && shots[0].position == old(position).Minus(direction.Scale(radius))
        && shots[0].velocity == direction.Neg().Scale(SHOT_SPEED)
        && shots[0].radius == SHOT_RADIUS && shots[0].kind == shotKind
      ensures |rounds| == (if Cooldown.Step(old(mjolnirCooldown), dt, buttons.right, t.mjolnirCooldown).fired then 3 else 0)
      ensures |rounds| == 3 ==>
        && fresh(rounds[0]) && fresh(rounds[1]) && fresh(rounds[2])
        && rounds[0] != rounds[1] && rounds[1] != rounds[2] && rounds[0] != rounds[2]
        && (forall i :: 0 <= i < 3 ==> rounds[i].position == old(position).Minus(direction.Scale(radius)))
        && (forall i :: 0 <= i < 3 ==> rounds[i].radius == t.mjolnirRadius && rounds[i].kind == mjolnirKinds[i])
        && (rounds[0].velocity, rounds[1].velocity, rounds[2].velocity)
           == MjolnirVelocities(direction, twenty, t.mjolnirSpeed)
    {
      shotCooldown := shotCooldown - dt;
      mjolnirCooldown := mjolnirCooldown - dt;
      Steer(keys);
      shots, rounds := [], [];
      if buttons.left {
        shots := Shoot(mouse, direction, shotKind, t);
      }
      if buttons.right {
        rounds := FireMjolnir(mouse, direction, twenty, mjolnirKinds, t);
      }
      Accelerate(dt, t);
      Move();
    }

    /** `explode`: an explosion at the platform, half again as large. */
    method Explode() returns (e: Explosion.Explosion)
      ensures fresh(e)
      ensures e.position == position && e.radius == radius * 1.5
      ensures e.Timer() == Explosion.START
    {
      e := new Explosion.Explosion(position, radius * 1.5);
    }
  }
}
