/**
 * asteroids/shot.py: the two projectiles, the plasma `Shot` and the
 * `Mjolnir` round.  Each has a sprite kind drawn at construction (passed in
 * here, within the drawn range) and drifts by its velocity.
 */
module AsteroidsShot {
  import opened Vector2
  import opened Constants
  import opened CircleShape

  class Shot {
    var position: Vec
    var velocity: Vec
    const radius: real
    const kind: int

    /** A plasma shot of radius SHOT_RADIUS at rest, with kind in [1, SHOT_KINDS]. */
    constructor (position: Vec, kind: int, t: Tuning)
      requires 1 <= kind <= t.shotKinds
      ensures this.position == position && velocity == Zero
      ensures radius == SHOT_RADIUS && this.kind == kind
      ensures 1 <= this.kind <= t.shotKinds
    {
      this.position := position;
      velocity := Zero;
      radius := SHOT_RADIUS;
      this.kind := kind;
    }

    method Update(dt: real)
      modifies this`position
      ensures position == Drift(old(position), velocity, dt)
    {
      position := position.Plus(velocity.Scale(dt));
    }
  }

  class Mjolnir {
    var position: Vec
    var velocity: Vec
    const radius: real
    const kind: int

    /** A Mjolnir round of radius MJOLNIR_RADIUS at rest, with kind in [1, MJOLNIR_KINDS]. */
    constructor (position: Vec, kind: int, t: Tuning)
      requires 1 <= kind <= t.mjolnirKinds
      ensures this.position == position && velocity == Zero
      ensures radius == t.mjolnirRadius && this.kind == kind
      ensures 1 <= this.kind <= t.mjolnirKinds
    {
      this.position := position;
      velocity := Zero;
      radius := t.mjolnirRadius;
      this.kind := kind;
    }

    method Update(dt: real)
      modifies this`position
      ensures position == Drift(old(position), velocity, dt)
    {
      position := position.Plus(velocity.Scale(dt));
    }
  }
}
