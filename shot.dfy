/** shot.py: the plain shot of the first version of the game. */
module Shot {
  import opened Vector2
  import opened Constants
  import opened CircleShape

  class Shot {
    var position: Vec
    var velocity: Vec
    const radius: real

    /** A shot of radius SHOT_RADIUS at rest at (a copy of) `position`. */
    constructor (position: Vec)
      ensures this.position == position && velocity == Zero
      ensures radius == SHOT_RADIUS
    {
      this.position := position;
      velocity := Zero;
      radius := SHOT_RADIUS;
    }

    /** `update`: drift by velocity * dt; with dt = 0 the shot does not move. */
    method Update(dt: real)
      modifies this`position
      ensures position == Drift(old(position), velocity, dt)
      ensures dt == 0.0 ==> position == old(position)
    {
      position := position.Plus(velocity.Scale(dt));
    }
  }
}
