/**
 * The sprites of one game and the groups that hold them.
 *
 * pygame groups hold any Sprite; the game puts ships, asteroids, shots and
 * explosions in them.  `Sprite` is the tagged union of those four classes,
 * and `Groups` is the registry of circleshape.py instantiated with it.  This
 * module also carries out the group effects that the source performs from
 * inside the entities: a new shot or explosion joins its class's default
 * groups, `kill()` leaves every group, and `split` kills the parent and
 * registers the children.
 */
module Sprites {
  import opened Vector2
  import opened Constants
  import opened Input
  import opened CircleShape
  import Asteroid
  import AsteroidsShot
  import Explosion
  import Player

  datatype Sprite =
    | PlayerSprite(player: Player.Player)
    | AsteroidSprite(asteroid: Asteroid.Asteroid)
    | ShotSprite(shot: AsteroidsShot.Shot)
    | ExplosionSprite(explosion: Explosion.Explosion)

  type Groups = Registry<Sprite>

  /** The game object behind a sprite. */
  function Obj(x: Sprite): object {
    match x
    case PlayerSprite(p) => p
    case AsteroidSprite(a) => a
    case ShotSprite(s) => s
    case ExplosionSprite(e) => e
  }

  /** Distinct sprites are distinct objects: the tag is the object's class. */
  lemma ObjInjective(x: Sprite, y: Sprite)
    requires Obj(x) == Obj(y)
    ensures x == y
  {
  }

  function Objects(s: seq<Sprite>): set<object> {
    set x <- s :: Obj(x)
  }

  function Position(x: Sprite): Vec
    reads Obj(x)
  {
    match x
    case PlayerSprite(p) => p.position
    case AsteroidSprite(a) => a.position
    case ShotSprite(s) => s.position
    case ExplosionSprite(e) => e.position
  }

  function Radius(x: Sprite): real {
    match x
    case PlayerSprite(p) => p.radius
    case AsteroidSprite(a) => a.radius
    case ShotSprite(s) => s.radius
    case ExplosionSprite(e) => e.radius
  }

  function KindOf(x: Sprite): Kind {
    match x
    case PlayerSprite(_) => PlayerKind
    case AsteroidSprite(_) => AsteroidKind
    case ShotSprite(_) => ShotKind
    case ExplosionSprite(_) => ExplosionKind
  }

  /** `a.collides_with(b)` for two sprites. */
  predicate Hits(x: Sprite, y: Sprite)
    reads Obj(x), Obj(y)
  {
    Collides(Position(x), Radius(x), Position(y), Radius(y))
  }

  /** The default groups `Endless.__init__` configures for the four classes. */
  predicate StandardDefaults(d: map<Kind, set<Role>>) {
    && Defaults(d, PlayerKind) == {Drawable, Updatable}
    && Defaults(d, AsteroidKind) == {Asteroids, Updatable, Drawable}
    && Defaults(d, ShotKind) == {Shots, Updatable, Drawable}
    && Defaults(d, ExplosionKind) == {Drawable, Updatable}
  }

  /**
   * The groups of a running game: duplicate-free, configured as above, and
   * (so) the asteroid group holds only asteroids and the shot group only shots.
   */
  ghost predicate WellFormed(g: Groups)
    reads g
  {
    && g.Valid()
    && StandardDefaults(g.defaults)
    && AllOfKind(g.asteroids, AsteroidKind)
    && AllOfKind(g.shots, ShotKind)
  }

  predicate AllOfKind(s: seq<Sprite>, k: Kind) {
    forall x :: x in s ==> KindOf(x) == k
  }

  /** `Endless.__init__`: the four `set_default_groups` calls on fresh groups. */
  method SetStandardDefaults(g: Groups)
    modifies g`defaults
    ensures g.defaults == old(g.defaults)[PlayerKind := {Drawable, Updatable}]
      [AsteroidKind := {Asteroids, Updatable, Drawable}]
      [ShotKind := {Shots, Updatable, Drawable}]
      [ExplosionKind := {Drawable, Updatable}]
    ensures StandardDefaults(g.defaults)
  {
    g.SetDefaultGroups(PlayerKind, {Drawable, Updatable});
    g.SetDefaultGroups(AsteroidKind, {Asteroids, Updatable, Drawable});
    g.SetDefaultGroups(ShotKind, {Shots, Updatable, Drawable});
    g.SetDefaultGroups(ExplosionKind, {Drawable, Updatable});
  }

  /**
   * A new sprite joins its class's default groups (the `Sprite.__init__`
   * part of every constructor).  Its object is new, so it is in no group yet
   * and simply goes to the end of each of its groups.
   */
  method Register(g: Groups, x: Sprite)
    requires WellFormed(g)
    requires x !in g.updatable && x !in g.drawable && x !in g.asteroids && x !in g.shots
    modifies g`updatable, g`drawable, g`asteroids, g`shots
    ensures WellFormed(g)
    ensures g.updatable == old(g.updatable) + [x]
    ensures g.drawable == old(g.drawable) + [x]
    ensures g.asteroids == old(g.asteroids) + (if x.AsteroidSprite? then [x] else [])
    ensures g.shots == old(g.shots) + (if x.ShotSprite? then [x] else [])
  {
    StandardRoles(g.defaults, x);
    g.Add(x, KindOf(x));
    assert g.updatable == old(g.updatable) + [x] && g.drawable == old(g.drawable) + [x];
    assert g.asteroids == old(g.asteroids) + (if x.AsteroidSprite? then [x] else []);
    assert g.shots == old(g.shots) + (if x.ShotSprite? then [x] else []);
    assert AllOfKind(g.asteroids, AsteroidKind) && AllOfKind(g.shots, ShotKind);
  }

  /** Under the standard defaults every sprite is updated and drawn, and only asteroids and shots join their groups. */
  lemma StandardRoles(d: map<Kind, set<Role>>, x: Sprite)
    requires StandardDefaults(d)
    ensures Updatable in Defaults(d, KindOf(x)) && Drawable in Defaults(d, KindOf(x))
    ensures Asteroids in Defaults(d, KindOf(x)) <==> x.AsteroidSprite?
    ensures Shots in Defaults(d, KindOf(x)) <==> x.ShotSprite?
  {
  }

  /** Two new asteroids join their groups, one after the other. */
  method RegisterRocks(g: Groups, rocks: seq<Sprite>)
    requires WellFormed(g)
    requires |rocks| == 2 && rocks[0] != rocks[1]
    requires rocks[0].AsteroidSprite? && rocks[1].AsteroidSprite?
    requires forall x :: x in rocks ==> x !in g.updatable && x !in g.drawable && x !in g.asteroids && x !in g.shots
    modifies g`updatable, g`drawable, g`asteroids, g`shots
    ensures WellFormed(g)
    ensures g.updatable == old(g.updatable) + rocks && g.drawable == old(g.drawable) + rocks
    ensures g.asteroids == old(g.asteroids) + rocks && g.shots == old(g.shots)
  {
    Register(g, rocks[0]);
    Register(g, rocks[1]);
    assert old(g.updatable) + rocks == old(g.updatable) + [rocks[0]] + [rocks[1]];
    assert old(g.drawable) + rocks == old(g.drawable) + [rocks[0]] + [rocks[1]];
    assert old(g.asteroids) + rocks == old(g.asteroids) + [rocks[0]] + [rocks[1]];
  }

  /** `sprite.kill()`, keeping the groups well formed. */
  method Kill(g: Groups, x: Sprite)
    requires WellFormed(g)
    modifies g`updatable, g`drawable, g`asteroids, g`shots
    ensures WellFormed(g)
    ensures g.updatable == Without(old(g.updatable), x)
    ensures g.drawable == Without(old(g.drawable), x)
    ensures g.asteroids == Without(old(g.asteroids), x)
    ensures g.shots == Without(old(g.shots), x)
    ensures !g.Alive(x)
  {
    g.Kill(x);
  }

  // ---------------------------------------------------------------------
  // One sprite's `update(dt)`
  // ---------------------------------------------------------------------

  /** The input of one frame, as every `update` sees it. */
  datatype Frame = Frame(dt: real, keys: Keys, heading: real -> Vec, shotKind: int)

  /** The state `update` changes, per class. */
  datatype SpriteState =
    | ShipState(ship: Player.Ship)
    | RockState(position: Vec, velocity: Vec)
    | ShotState(position: Vec, velocity: Vec)
    | BlastState(position: Vec, clock: Explosion.Clock)

  function StateOf(x: Sprite): (s: SpriteState)
    reads Obj(x)
  {
    match x
    case PlayerSprite(p) => ShipState(p.State())
    case AsteroidSprite(a) => RockState(a.position, a.velocity)
    case ShotSprite(s) => ShotState(s.position, s.velocity)
    case ExplosionSprite(e) => BlastState(e.position, e.Timer())
  }

  /**
   * What one `update(dt)` does to a sprite's state.  Every sprite stays of
   * its class; an asteroid or a shot keeps its velocity and drifts by it;
   * an explosion stays where it is, its step advancing by at most one.
   */
  function Stepped(s: SpriteState, f: Frame, t: Tuning): (r: SpriteState)
    ensures r.ShipState? == s.ShipState? && r.RockState? == s.RockState?
    ensures r.ShotState? == s.ShotState? && r.BlastState? == s.BlastState?
    ensures (s.RockState? || s.ShotState?) ==>
      r.velocity == s.velocity && r.position.Minus(s.position) == s.velocity.Scale(f.dt)
    ensures s.BlastState? ==> r.position == s.position && s.clock.step <= r.clock.step <= s.clock.step + 1
  {
    match s
    case ShipState(ship) => ShipState(Player.Tick(ship, f.keys, f.dt, f.heading))
    case RockState(p, v) => RockState(Drift(p, v, f.dt), v)
    case ShotState(p, v) => ShotState(Drift(p, v, f.dt), v)
    case BlastState(p, k) => BlastState(p, Explosion.Advance(k, f.dt, t.explosionStepDuration))
  }

  /** An explosion past its last step: its `update` killed it. */
  predicate Expired(s: SpriteState, t: Tuning) {
    s.BlastState? && s.clock.step > t.explosionSteps
  }

  /** A ship fires in this update. */
  predicate Fires(s: SpriteState, f: Frame) {
    s.ShipState? && Player.Fires(s.ship, f.keys, f.dt)
  }

  /**
   * The shot a ship fires in this update, as `shoot` makes it: at the nose
   * (`radius` along the heading the ship has after turning), flying along
   * that heading at SHOT_SPEED.
   */
  function FiredShot(ship: Player.Ship, f: Frame, radius: real): SpriteState {
    var forward := f.heading(ship.rotation + Player.TurnDelta(f.keys, f.dt));
    ShotState(ship.position.Plus(forward.Scale(radius)), forward.Scale(SHOT_SPEED))
  }

  /**
   * `x.update(dt)` together with its group effects: a ship that fires
   * registers its new shot (returned in `born`), an explosion past its last
   * step kills itself.  Nothing else joins or leaves a group.
   */
  method UpdateSprite(g: Groups, x: Sprite, f: Frame, t: Tuning) returns (born: seq<Sprite>)
    requires WellFormed(g)
    requires 1 <= f.shotKind <= t.shotKinds
    modifies g`updatable, g`drawable, g`asteroids, g`shots, Obj(x)
    ensures WellFormed(g)
    ensures StateOf(x) == Stepped(old(StateOf(x)), f, t)
    ensures Fires(old(StateOf(x)), f) ==>
      && |born| == 1 && born[0].ShotSprite? && fresh(Obj(born[0]))
      && StateOf(born[0]) == FiredShot(old(StateOf(x)).ship, f, Radius(x))
      && Radius(born[0]) == SHOT_RADIUS && born[0].shot.kind == f.shotKind
    ensures !Fires(old(StateOf(x)), f) ==> born == []
    ensures Expired(StateOf(x), t) ==>
      && g.updatable == Without(old(g.updatable), x) && g.drawable == Without(old(g.drawable), x)
      && g.asteroids == Without(old(g.asteroids), x) && g.shots == Without(old(g.shots), x)
    ensures !Expired(StateOf(x), t) ==>
      && g.updatable == old(g.updatable) + born && g.drawable == old(g.drawable) + born
      && g.asteroids == old(g.asteroids) && g.shots == old(g.shots) + born
  {
    born := [];
    match x
    case PlayerSprite(p) =>
      var shots := p.Update(f.dt, f.keys, f.heading, f.shotKind, t);
      if |shots| == 1 {
        var s := ShotSprite(shots[0]);
        Register(g, s);
        born := [s];
      }
    case AsteroidSprite(a) =>
      a.Update(f.dt);
    case ShotSprite(s) =>
      s.Update(f.dt);
    case ExplosionSprite(e) =>
      var expired := e.Update(f.dt, t);
      if expired {
        Kill(g, x);
      }
  }

  function PositionOf(s: SpriteState): Vec {
    match s
    case ShipState(ship) => ship.position
    case RockState(p, _) => p
    case ShotState(p, _) => p
    case BlastState(p, _) => p
  }

  // ---------------------------------------------------------------------
  // Asteroid group effects
  // ---------------------------------------------------------------------

  /** `Asteroid.spawn()`: the new asteroid joins the asteroid, update and draw groups. */
  method SpawnAsteroid(g: Groups, d: Asteroid.SpawnDraw, t: Tuning) returns (x: Sprite)
    requires WellFormed(g)
    modifies g`updatable, g`drawable, g`asteroids, g`shots
    ensures WellFormed(g)
    ensures x.AsteroidSprite? && fresh(Obj(x))
    ensures StateOf(x) == RockState(Asteroid.SpawnPosition(d, t), Asteroid.SpawnVelocity(d))
    ensures Radius(x) == ASTEROID_MIN_RADIUS * d.kind as real
    ensures g.updatable == old(g.updatable) + [x] && g.drawable == old(g.drawable) + [x]
    ensures g.asteroids == old(g.asteroids) + [x] && g.shots == old(g.shots)
  {
    var a := Asteroid.Asteroid.Spawn(d, t);
    x := AsteroidSprite(a);
    Register(g, x);
  }

  /** The children of a split asteroid x, as they are given back by `Split`. */
  predicate Children(x: Sprite, children: seq<Sprite>, turn: Turn)
    reads Obj(x), set c <- children :: Obj(c)
  {
    && x.AsteroidSprite?
    && (Radius(x) <= ASTEROID_MIN_RADIUS ==> children == [])
    && (Radius(x) > ASTEROID_MIN_RADIUS ==>
      && |children| == 2 && children[0] != children[1]
      && children[0].AsteroidSprite? && children[1].AsteroidSprite?
      && Radius(children[0]) == Radius(x) - ASTEROID_MIN_RADIUS
      && Radius(children[1]) == Radius(x) - ASTEROID_MIN_RADIUS
      && var (v1, v2) := Asteroid.SplitVelocities(x.asteroid.velocity, turn);
         StateOf(children[0]) == RockState(x.asteroid.position, v1)
         && StateOf(children[1]) == RockState(x.asteroid.position, v2))
  }

  /**
   * `split`: the asteroid leaves every group; an asteroid above the minimum
   * radius is replaced by two smaller ones, which join the groups after it
   * has left them.
   */
  method SplitAsteroid(g: Groups, x: Sprite, turn: Turn) returns (children: seq<Sprite>)
    requires WellFormed(g) && x.AsteroidSprite?
    requires Asteroid.SplitTurnInRange(turn)
    modifies g`updatable, g`drawable, g`asteroids, g`shots
    ensures WellFormed(g)
    ensures !g.Alive(x)
    ensures g.updatable == Without(old(g.updatable), x) + children
    ensures g.drawable == Without(old(g.drawable), x) + children
    ensures g.asteroids == Without(old(g.asteroids), x) + children
    ensures g.shots == old(g.shots)
    ensures forall c :: c in children ==> fresh(Obj(c))
    ensures Children(x, children, turn)
  {
    Kill(g, x);
    children := SpawnChildren(g, x, turn);
  }

  /** The second half of `split`: the children are made and join the groups. */
  method SpawnChildren(g: Groups, x: Sprite, turn: Turn) returns (children: seq<Sprite>)
    requires WellFormed(g) && x.AsteroidSprite?
    requires Asteroid.SplitTurnInRange(turn)
    modifies g`updatable, g`drawable, g`asteroids, g`shots
    ensures WellFormed(g)
    ensures g.updatable == old(g.updatable) + children && g.drawable == old(g.drawable) + children
    ensures g.asteroids == old(g.asteroids) + children && g.shots == old(g.shots)
    ensures forall c :: c in children ==> fresh(Obj(c))
    ensures Children(x, children, turn)
  {
    var rocks := x.asteroid.Split(turn);
    children := [];
    if |rocks| == 2 {
      children := [AsteroidSprite(rocks[0]), AsteroidSprite(rocks[1])];
      RegisterRocks(g, children);
    }
  }

  /** The asteroid's `explode`: an explosion with the asteroid's position and radius. */
  method ExplodeAsteroid(g: Groups, x: Sprite) returns (e: Sprite)
    requires WellFormed(g) && x.AsteroidSprite?
    modifies g`updatable, g`drawable, g`asteroids, g`shots
    ensures WellFormed(g)
    ensures e.ExplosionSprite? && fresh(Obj(e))
    ensures StateOf(e) == BlastState(Position(x), Explosion.START) && Radius(e) == Radius(x)
    ensures g.updatable == old(g.updatable) + [e] && g.drawable == old(g.drawable) + [e]
    ensures g.asteroids == old(g.asteroids) && g.shots == old(g.shots)
  {
    var b := new Explosion.Explosion(x.asteroid.position, x.asteroid.radius);
    e := ExplosionSprite(b);
    Register(g, e);
  }

  /** Sprites made since the earlier state are none of the sprites that existed then. */
  twostate lemma NewAreNotOld(s: set<Sprite>, new made: seq<Sprite>)
    requires forall x :: x in made ==> fresh(Obj(x))
    ensures forall x :: x in s ==> x !in made
  {
    forall x | x in s
      ensures x !in made
    {
      assert !fresh(Obj(x));
    }
  }
}
