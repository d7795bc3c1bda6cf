/**
 * asteroids/player.py: the player's ship.  Each frame it counts its shot
 * cooldown down, turns with LEFT/RIGHT, thrusts with UP (capped at the top
 * speed), moves by its velocity and fires with SPACE when the cooldown has
 * run out.
 *
 * The forward unit vector `Vector2(0, 1).rotate(rotation)` is supplied as the
 * function `heading`; the kind of a new shot, which the shot draws at random,
 * is a parameter.  The shots and explosions the ship creates are returned;
 * module Sprites registers them in the groups as their constructors do in
 * the source.
 */
module Player {
  import opened Vector2
  import opened Constants
  import opened Input
  import Cooldown
  import AsteroidsShot
  import Explosion

  /** The ship's changing state as one value. */
  datatype Ship = Ship(position: Vec, velocity: Vec, rotation: real, cooldown: real, engine: bool)

  /** The turn of one frame: RIGHT adds dt * PLAYER_TURN_SPEED, LEFT subtracts it. */
  function TurnDelta(keys: Keys, dt: real): (d: real)
    ensures keys.leftArrow == keys.rightArrow ==> d == 0.0
    ensures keys.rightArrow && !keys.leftArrow ==> d == dt * PLAYER_TURN_SPEED
    ensures keys.leftArrow && !keys.rightArrow ==> d == -dt * PLAYER_TURN_SPEED
  {
    (if keys.rightArrow then dt * PLAYER_TURN_SPEED else 0.0)
    + (if keys.leftArrow then -dt * PLAYER_TURN_SPEED else 0.0)
  }

  /**
   * `accelerate`: add forward * PLAYER_ACCELERATION * dt; a velocity at or
   * above the top speed is replaced by forward * PLAYER_MAX_SPEED.  So the
   * result is either below the top speed or exactly the capped velocity.
   */
  function Thrust(v: Vec, forward: Vec, dt: real): (r: Vec)
    ensures r.Norm2() < Sq(PLAYER_MAX_SPEED) || r == forward.Scale(PLAYER_MAX_SPEED)
  {
    var w := v.Plus(forward.Scale(PLAYER_ACCELERATION * dt));
    if w.Norm2() >= Sq(PLAYER_MAX_SPEED) then forward.Scale(PLAYER_MAX_SPEED) else w
  }

  /** With a unit forward vector, thrust never leaves the ship above the top speed. */
  lemma ThrustBounded(v: Vec, forward: Vec, dt: real)
    ensures forward.IsUnit() ==> Thrust(v, forward, dt).Norm2() <= Sq(PLAYER_MAX_SPEED)
  {
    ScaleNorm(forward, PLAYER_MAX_SPEED);
  }

  /** Whether the ship fires in a frame: the shot timer with SPACE as the trigger. */
  predicate Fires(s: Ship, keys: Keys, dt: real) {
    Cooldown.Step(s.cooldown, dt, keys.space, SHOT_COOLDOWN).fired
  }

  /**
   * One `update` of the ship, as a value: the ship turns by the key-driven
   * turn, keeps its velocity unless UP is held (and then never exceeds the
   * top speed along a unit heading), moves by its whole new velocity, and its
   * shot timer re-arms on a fire and otherwise counts down by dt.
   */
  function Tick(s: Ship, keys: Keys, dt: real, heading: real -> Vec): (r: Ship)
    ensures r.rotation == s.rotation + TurnDelta(keys, dt)
    ensures r.position == s.position.Plus(r.velocity)
    ensures r.engine == keys.upArrow
    ensures !keys.upArrow ==> r.velocity == s.velocity
    ensures keys.upArrow && heading(r.rotation).IsUnit() ==> r.velocity.Norm2() <= Sq(PLAYER_MAX_SPEED)
    ensures r.cooldown == if Fires(s, keys, dt) then SHOT_COOLDOWN else s.cooldown - dt
  {
    var rotation := s.rotation + TurnDelta(keys, dt);
    var velocity := if keys.upArrow then Thrust(s.velocity, heading(rotation), dt) else s.velocity;
    var cooldown := Cooldown.Step(s.cooldown, dt, keys.space, SHOT_COOLDOWN).next;
    ThrustBounded(s.velocity, heading(rotation), dt);
    Ship(s.position.Plus(velocity), velocity, rotation, cooldown, keys.upArrow)
  }

  /** The input of one frame. */
  datatype Control = Control(keys: Keys, dt: real)

  /** The ship after the first n frames of `cs`. */
  function Fly(s: Ship, cs: seq<Control>, heading: real -> Vec, n: nat): Ship
    requires n <= |cs|
  {
    if n == 0 then s else Tick(Fly(s, cs, heading, n - 1), cs[n - 1].keys, cs[n - 1].dt, heading)
  }

  /** The frames as seen by the shot timer. */
  function Pulls(cs: seq<Control>): (p: seq<Cooldown.Pull>)
    ensures |p| == |cs|
    ensures forall i :: 0 <= i < |cs| ==> p[i] == Cooldown.Pull(cs[i].dt, cs[i].keys.space)
  {
    seq(|cs|, i requires 0 <= i < |cs| => Cooldown.Pull(cs[i].dt, cs[i].keys.space))
  }

  /** The ship's shot cooldown is exactly the shot timer run over the frames. */
  lemma {:induction false} FlyCooldown(s: Ship, cs: seq<Control>, heading: real -> Vec, n: nat)
    requires n <= |cs|
    ensures Fly(s, cs, heading, n).cooldown == Cooldown.After(s.cooldown, Pulls(cs), SHOT_COOLDOWN, n)
  {
    if n > 0 {
      FlyCooldown(s, cs, heading, n - 1);
    }
  }

  /**
   * Shot gating over a game: after the ship fires in frame i, it fires next
   * in frame j exactly when SPACE is held then and at least SHOT_COOLDOWN
   * seconds have passed since frame i.
   */
  lemma ShotGating(s: Ship, cs: seq<Control>, heading: real -> Vec, i: nat, j: nat)
    requires i < j < |cs|
    requires Fires(Fly(s, cs, heading, i), cs[i].keys, cs[i].dt)
    requires forall m :: i < m < j ==> !Fires(Fly(s, cs, heading, m), cs[m].keys, cs[m].dt)
    ensures Fires(Fly(s, cs, heading, j), cs[j].keys, cs[j].dt)
      <==> cs[j].keys.space && Cooldown.Elapsed(Pulls(cs), i + 1, j + 1) >= SHOT_COOLDOWN
  {
    var p := Pulls(cs);
    FlyCooldown(s, cs, heading, i);
    FlyCooldown(s, cs, heading, j);
    assert Cooldown.FiredAt(s.cooldown, p, SHOT_COOLDOWN, i);
    forall m | i < m < j
      ensures !Cooldown.FiredAt(s.cooldown, p, SHOT_COOLDOWN, m)
    {
      FlyCooldown(s, cs, heading, m);
    }
    Cooldown.Refire(s.cooldown, p, SHOT_COOLDOWN, i, j);
  }

  class Player {
    var position: Vec
    var velocity: Vec
    const radius: real
    var rotation: real
    var shotCooldown: real
    var engineRunning: bool

    function State(): Ship
      reads this
    {
      Ship(position, velocity, rotation, shotCooldown, engineRunning)
    }

    /** A ship at rest at `position`, pointing at rotation 0, ready to fire. */
    constructor (position: Vec)
      ensures State() == Ship(position, Zero, 0.0, 0.0, false)
      ensures radius == PLAYER_RADIUS
    {
      this.position := position;
      velocity := Zero;
      radius := PLAYER_RADIUS;
      rotation := 0.0;
      shotCooldown := 0.0;
      engineRunning := false;
    }

    /** `rotate`. */
    method Rotate(dt: real)
      modifies this`rotation
      ensures rotation == old(rotation) + dt * PLAYER_TURN_SPEED
    {
      rotation := rotation + dt * PLAYER_TURN_SPEED;
    }

    /** The turning part of `update`: RIGHT turns by dt, LEFT by -dt. */
    method Steer(keys: Keys, dt: real)
      modifies this`rotation
      ensures rotation == old(rotation) + TurnDelta(keys, dt)
    {
      if keys.rightArrow {
        Rotate(dt);
      }
      if keys.leftArrow {
        Rotate(-dt);
      }
    }

    /** `accelerate` along the current heading. */
    method Accelerate(dt: real, heading: real -> Vec)
      modifies this`velocity
      ensures velocity == Thrust(old(velocity), heading(rotation), dt)
    {
      var forward := heading(rotation);
      velocity := velocity.Plus(forward.Scale(PLAYER_ACCELERATION * dt));
      if velocity.Norm2() >= Sq(PLAYER_MAX_SPEED) {
        velocity := forward.Scale(PLAYER_MAX_SPEED);
      }
    }

    /** `move`: one whole velocity per frame; the frame time plays no part. */
    method Move()
      modifies this`position
      ensures position == old(position).Plus(velocity)
    {
      position := position.Plus(velocity);
    }

    /**
     * `shoot`: nothing while the cooldown is positive; otherwise one shot at
     * the nose of the ship, flying forward at SHOT_SPEED, and the cooldown
     * re-armed.
     */
    method Shoot(heading: real -> Vec, shotKind: int, t: Tuning) returns (shots: seq<AsteroidsShot.Shot>)
      requires 1 <= shotKind <= t.shotKinds
      modifies this`shotCooldown
      ensures old(shotCooldown) > 0.0 ==> shots == [] && shotCooldown == old(shotCooldown)
      ensures old(shotCooldown) <= 0.0 ==>
        && shotCooldown == SHOT_COOLDOWN
        && |shots| == 1 && fresh(shots[0])
        && shots[0].position == position.Plus(heading(rotation).Scale(radius))
        && shots[0].velocity == heading(rotation).Scale(SHOT_SPEED)
        && shots[0].radius == SHOT_RADIUS && shots[0].kind == shotKind
    {
      if shotCooldown > 0.0 {
        return [];
      }
      var forward := heading(rotation);
      var shot := new AsteroidsShot.Shot(position.Plus(forward.Scale(radius)), shotKind, t);
      shot.velocity := forward.Scale(SHOT_SPEED);
      shotCooldown := SHOT_COOLDOWN;
      shots := [shot];
    }

    /**
     * `update`: count the cooldown down, clear the engine flag, turn, thrust
     * while UP is held, fire while SPACE is held, then move.
     */
    method Update(dt: real, keys: Keys, heading: real -> Vec, shotKind: int, t: Tuning)
      returns (shots: seq<AsteroidsShot.Shot>)
      requires 1 <= shotKind <= t.shotKinds
      modifies this
      ensures State() == Tick(old(State()), keys, dt, heading)
      ensures engineRunning == keys.upArrow
      ensures Fires(old(State()), keys, dt) ==>
        && |shots| == 1 && fresh(shots[0])
        && shots[0].position == old(position).Plus(heading(rotation).Scale(radius))
        && shots[0].velocity == heading(rotation).Scale(SHOT_SPEED)
        && shots[0].radius == SHOT_RADIUS && shots[0].kind == shotKind
      ensures !Fires(old(State()), keys, dt) ==> shots == []
    {
      shotCooldown := shotCooldown - dt;
      engineRunning := false;
      Steer(keys, dt);
      if keys.upArrow {
        engineRunning := true;
        Accelerate(dt, heading);
      }
      ghost var next := Tick(old(State()), keys, dt, heading);
      assert velocity == next.velocity && rotation == next.rotation;
      shots := [];
      if keys.space {
        shots := Shoot(heading, shotKind, t);
      }
      assert shotCooldown == next.cooldown;
      Move();
    }

    /** `explode`: an explosion at the ship, half again as large as the ship. */
    method Explode() returns (e: Explosion.Explosion)
      ensures fresh(e)
      ensures e.position == position && e.radius == radius * 1.5
      ensures e.Timer() == Explosion.START
    {
      e := new Explosion.Explosion(position, radius * 1.5);
    }
  }
}
