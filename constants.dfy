/**
 * The game's numeric configuration (constants.py), as reals where the game
 * mixes them with float positions and times.
 *
 * A number of constants that the game code uses are not defined in
 * constants.py (ASTEROID_MAX_RADIUS, EXPLOSION_STEPS, EXPLOSION_STEP_DURATION,
 * TAURUS_*, MJOLNIR_*, SHOT_KINDS).  They are gathered in `Tuning`, passed to
 * the operations that need them, and left free.  Only one proof fixes any of
 * them: `Taurus.AsWrittenOverspeeds` takes TAURUS_ACCELERATION = 100 and
 * TAURUS_MAX_SPEED = 5 to exhibit its counterexample; every other proof holds
 * whatever their values.
 */
module Constants {
  import opened Vector2

  const SCREEN_WIDTH: real := 1280.0
  const SCREEN_HEIGHT: real := 720.0
  /** The middle of the screen, where a new game puts the ship. */
  const SCREEN_CENTER: Vec := Vec(SCREEN_WIDTH / 2.0, SCREEN_HEIGHT / 2.0)

  const ASTEROID_MIN_RADIUS: real := 20.0
  const ASTEROID_KINDS: int := 3  // 1: small, 2: medium, 3: big
  const ASTEROID_SPAWN_COOLDOWN: real := 0.8  // seconds

  const PLAYER_RADIUS: real := 20.0
  const PLAYER_TURN_SPEED: real := 300.0
  const PLAYER_ACCELERATION: real := 10.0
  const PLAYER_MAX_SPEED: real := 20.0

  const SHOT_RADIUS: real := 5.0
  const SHOT_SPEED: real := 500.0
  const SHOT_COOLDOWN: real := 0.3

  /**
   * The out-of-screen test of the Endless loops: a coordinate beyond either
   * edge.  A point exactly on an edge is still on the screen.
   */
  predicate OutOfBounds(p: Vec) {
    p.x > SCREEN_WIDTH || p.x < 0.0 || p.y > SCREEN_HEIGHT || p.y < 0.0
  }

  /** The configuration values the game uses but constants.py does not define. */
  datatype Tuning = Tuning(
    asteroidMaxRadius: real,
    explosionSteps: int,
    explosionStepDuration: real,
    taurusRadius: real,
    taurusAcceleration: real,
    taurusMaxSpeed: real,
    shotKinds: int,
    mjolnirRadius: real,
    mjolnirSpeed: real,
    mjolnirCooldown: real,
    mjolnirKinds: int)
}
