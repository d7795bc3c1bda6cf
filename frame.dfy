/**
 * One frame of the Endless game, as the `step` methods of state.py and of
 * the older game_loops.py run it once the event scan found nothing to act
 * on: the asteroid spawner, the update pass over `updateable` (which may end
 * the game when the player's ship leaves the screen), the test of the ship
 * against every asteroid, and the shot-asteroid phase that scores.
 *
 * The two sources differ only in the order of `kill()` and `split()` in the
 * shot phase, which is the `killFirst` flag of module Collisions.
 */
module EndlessFrame {
  import opened Vector2
  import opened Constants
  import opened CircleShape
  import opened Sprites
  import opened Simulation
  import opened Collisions
  import Player
  import Asteroid
  import Cooldown

  /** How a frame ended: the game goes on, or the ship left the screen, or an asteroid hit it. */
  datatype Outcome = Continue | OutOfScreen | Crashed

  /** No sprite of `s` is in any of the four groups. */
  predicate NoneIn(m: Membership, s: set<Sprite>) {
    forall x :: x in s ==> x !in m.0 && x !in m.1 && x !in m.2 && x !in m.3
  }

  /** The sprites the update pass took out are in no group after it. */
  lemma PassDrops(cur: Membership, start: Membership, gone: set<Sprite>, born: seq<Sprite>)
    requires Grouped(cur, start, gone, born)
    requires forall x :: x in gone ==> x !in born
    ensures NoneIn(cur, gone)
  {
    DropMembers(start.0, gone);
    DropMembers(start.1, gone);
    DropMembers(start.2, gone);
    DropMembers(start.3, gone);
  }

  /** The shot phase brings back none of them: it only adds new sprites. */
  lemma ShotsKeepOut(cur: Membership, start: Membership, hit: set<Sprite>, used: set<Sprite>,
                     kids: seq<Sprite>, born: seq<Sprite>, s: set<Sprite>)
    requires Scored(cur, start, hit, used, kids, born)
    requires NoneIn(start, s)
    requires forall x :: x in s ==> x !in born
    requires forall x :: x in kids ==> x in born
    ensures NoneIn(cur, s)
  {
    DropMembers(start.0, hit + used);
    DropMembers(start.1, hit + used);
    DropMembers(start.2, hit);
    DropMembers(start.3, used);
  }

  /** The positions of a sequence of sprites. */
  function Positions(s: seq<Sprite>): (r: seq<Vec>)
    reads Objects(s)
    ensures |r| == |s| && forall j :: 0 <= j < |s| ==> r[j] == Position(s[j])
  {
    seq(|s|, j requires 0 <= j < |s| reads Objects(s) => Position(s[j]))
  }

  /** The position a sprite's state records is the sprite's position. */
  lemma StatePosition(x: Sprite)
    ensures PositionOf(StateOf(x)) == Position(x)
  {
  }

  /** The sprites of `s` are in no group of `g`. */
  lemma NoneAlive(g: Groups, s: set<Sprite>)
    requires NoneIn(Groups4(g), s)
    ensures forall x :: x in s ==> !g.Alive(x)
  {
  }

  /**
   * What one frame did, for the contracts: `spawned` is the asteroid the
   * spawner made, if any; `snap` the `updateable` group as the update pass
   * copied it and `before` its sprites' states then; `gone` the sprites the
   * pass took out and `born` the shots it fired; `mid` the four groups
   * after the pass; `rocks`, `ship` and `shots` the circles the collision
   * tests compare, and `looks` what the asteroids showed then; `kids` the
   * asteroids the shot phase split off and `hatched` every sprite it made
   * (children and explosions), in order.
   */
  datatype Trace = Trace(spawned: seq<Sprite>, snap: seq<Sprite>, before: seq<SpriteState>,
                         gone: set<Sprite>, born: seq<Sprite>, mid: Membership,
                         rocks: seq<Body>, ship: Body, shots: seq<Body>, looks: seq<Look>,
                         kids: seq<Sprite>, hatched: seq<Sprite>)

  /**
   * The spawner, from the groups `start` whose updated sprites had the
   * states `states`: the cooldown ticks, and a spawned asteroid joins after
   * every other sprite, so the update pass moves it once in this frame.
   */
  predicate Spawns(tr: Trace, start: Membership, states: seq<SpriteState>, cooldown: real, nextCooldown: real,
                   dt: real, d: Asteroid.SpawnDraw, t: Tuning)
  {
    && Cooldown.Step(cooldown, dt, true, ASTEROID_SPAWN_COOLDOWN) == Cooldown.Tick(|tr.spawned| == 1, nextCooldown)
    && |tr.spawned| <= 1
    && (forall x :: x in tr.spawned ==> x.AsteroidSprite? && Radius(x) == ASTEROID_MIN_RADIUS * d.kind as real)
    && tr.snap == start.0 + tr.spawned
    && tr.before == states + (if tr.spawned == [] then []
                              else [RockState(Asteroid.SpawnPosition(d, t), Asteroid.SpawnVelocity(d))])
  }

  /**
   * The update pass, after the spawner: every sprite of `snap` went from
   * `before` to `after` as `Visited` says, and the groups `mid` are the
   * ones after the spawner without the gone sprites, in their order, and
   * then the shots fired: plasma shots of the frame's kind whose states
   * `fired` are the ones `Volley` says the visited ships fire.
   */
  ghost predicate Passes(tr: Trace, start: Membership, ship: Sprite, after: seq<SpriteState>, fired: seq<SpriteState>,
                         f: Frame, t: Tuning)
  {
    && Walked(tr.snap, tr.before, after, |tr.snap|, tr.gone, ship, f, t)
    && Grouped(tr.mid, (start.0 + tr.spawned, start.1 + tr.spawned, start.2 + tr.spawned, start.3), tr.gone, tr.born)
    && NewShots(tr.born, f)
    && fired == Volley(tr.snap, tr.before, f, |tr.snap|)
  }

  /**
   * The circles the collision tests compare are those of the groups after
   * the pass, and of the ship; the asteroids showed `looks`.
   */
  ghost predicate Observed(tr: Trace, player: Player.Player)
    reads player, Objects(tr.mid.2), Objects(tr.mid.3)
  {
    && tr.rocks == Bodies(tr.mid.2) && tr.ship == BodyOf(PlayerSprite(player)) && tr.shots == Bodies(tr.mid.3)
    && tr.looks == Looks(tr.mid.2)
  }

  /**
   * The ship test and the shot phase, from the groups `start` to `cur`: a
   * crash changes nothing; otherwise the score grows by the number of hits
   * `Duel` finds and the groups lose the hit asteroids and used shots and
   * gain `hatched`, the asteroid group gaining `kids`.  The sprites
   * `hatched` show `shown`: for each hit asteroid, in order, its children
   * and an explosion where it was (`Debris`, from what the asteroids
   * showed, `looks`, and the split angles `turn`).
   */
  predicate Collided(start: Membership, cur: Membership, rocks: seq<Body>, ship: Body, shots: seq<Body>,
                     looks: seq<Look>, kids: seq<Sprite>, hatched: seq<Sprite>, shown: seq<Look>,
                     turn: nat -> Turn, crashed: bool, score: int, nextScore: int)
  {
    && (crashed <==> Crash(rocks, ship))
    && (crashed ==> cur == start && nextScore == score && kids == [] && hatched == [])
    && (!crashed ==>
      && nextScore == score + Count(Duel(rocks, shots))
      && Scored(cur, start, HitIds(rocks, Duel(rocks, shots)), UsedIds(Duel(rocks, shots)), kids, hatched)
      && |looks| == |rocks| && shown == Debris(looks, Duel(rocks, shots), turn))
  }

  /** The spawner, on the states of the updated sprites: a spawned asteroid's state comes last. */
  method Spawn(g: Groups, cooldown: real, dt: real, d: Asteroid.SpawnDraw, t: Tuning)
    returns (next: real, spawned: seq<Sprite>)
    requires WellFormed(g)
    modifies g`updatable, g`drawable, g`asteroids, g`shots
    ensures WellFormed(g)
    ensures Cooldown.Step(cooldown, dt, true, ASTEROID_SPAWN_COOLDOWN) == Cooldown.Tick(|spawned| == 1, next)
    ensures |spawned| <= 1 && forall x :: x in spawned ==>
      x.AsteroidSprite? && fresh(Obj(x)) && Radius(x) == ASTEROID_MIN_RADIUS * d.kind as real
    ensures Groups4(g) == (old(g.updatable) + spawned, old(g.drawable) + spawned, old(g.asteroids) + spawned, old(g.shots))
    ensures States(g.updatable) == old(States(g.updatable)) + (if spawned == [] then []
                                   else [RockState(Asteroid.SpawnPosition(d, t), Asteroid.SpawnVelocity(d))])
  {
    ghost var olds := g.updatable;
    ghost var states := States(olds);
    NotASprite(g, olds);
    next, spawned := SpawnPhase(g, cooldown, dt, d, t);
    assert States(olds) == states;
    StatesAppend(olds, spawned);
  }

  /**
   * The spawner, then the update pass.  `spawned` is the asteroid the
   * spawner made, if any; `snap` and `before` are the `updateable` group as
   * the update pass copied it and its sprites' states then; `gone` the
   * sprites the pass took out and `born` the shots it fired.
   */
  method SpawnAndUpdate(g: Groups, player: Player.Player, cooldown: real, f: Frame, d: Asteroid.SpawnDraw, t: Tuning)
    returns (lost: bool, nextCooldown: real, ghost spawned: seq<Sprite>, ghost snap: seq<Sprite>,
             ghost before: seq<SpriteState>, ghost gone: set<Sprite>, ghost born: seq<Sprite>)
    requires WellFormed(g)
    requires 1 <= f.shotKind <= t.shotKinds
    modifies g`updatable, g`drawable, g`asteroids, g`shots, Objects(g.updatable)
    ensures WellFormed(g)
    ensures Cooldown.Step(cooldown, f.dt, true, ASTEROID_SPAWN_COOLDOWN) == Cooldown.Tick(|spawned| == 1, nextCooldown)
    ensures |spawned| <= 1 && forall x :: x in spawned ==>
      x.AsteroidSprite? && fresh(Obj(x)) && Radius(x) == ASTEROID_MIN_RADIUS * d.kind as real
    ensures snap == old(g.updatable) + spawned
    ensures before == old(States(g.updatable)) + (if spawned == [] then []
                      else [RockState(Asteroid.SpawnPosition(d, t), Asteroid.SpawnVelocity(d))])
    ensures lost <==> PlayerSprite(player) in old(g.updatable) && OutOfBounds(old(player.position))
    ensures NewShots(born, f) && forall x :: x in born ==> fresh(Obj(x))
    ensures !lost ==> Walked(snap, before, States(snap), |snap|, gone, PlayerSprite(player), f, t)
    ensures !lost ==> States(born) == Volley(snap, before, f, |snap|)
    ensures !lost ==> Grouped(Groups4(g), (old(g.updatable) + spawned, old(g.drawable) + spawned,
                                           old(g.asteroids) + spawned, old(g.shots)), gone, born)
    ensures !lost ==> NoneIn(Groups4(g), gone)
  {
    ghost var olds := g.updatable;
    nextCooldown, spawned := Spawn(g, cooldown, f.dt, d, t);
    assert PlayerSprite(player) in g.updatable <==> PlayerSprite(player) in olds;
    ghost var start := Groups4(g);
    var fired;
    lost, fired, gone, snap, before := UpdatePass(g, player, f, t);
    born := fired;
    if !lost {
      forall x | x in gone
        ensures x !in born
      {
        assert x in snap;
      }
      PassDrops(Groups4(g), start, gone, born);
    }
  }

  /**
   * `ShotHits`, which changes nothing but the groups: the circles of the
   * asteroids and shots it starts from, and the states of the sprites
   * `snap`, are the same afterwards.
   */
  method ShotPass(g: Groups, score: int, turn: nat -> Turn, killFirst: bool, ghost snap: seq<Sprite>)
    returns (newScore: int, kids: seq<Sprite>, ghost rocks0: seq<Body>, ghost shots0: seq<Body>,
             ghost looks0: seq<Look>, ghost results: seq<Option<Body>>, ghost born: seq<Sprite>)
    requires WellFormed(g)
    requires forall n :: Asteroid.SplitTurnInRange(turn(n))
    modifies g`updatable, g`drawable, g`asteroids, g`shots
    ensures rocks0 == old(Bodies(g.asteroids)) && rocks0 == Bodies(old(g.asteroids))
    ensures looks0 == old(Looks(g.asteroids)) && looks0 == Looks(old(g.asteroids))
    ensures shots0 == old(Bodies(g.shots)) && shots0 == Bodies(old(g.shots))
    ensures States(snap) == old(States(snap))
    ensures results == Duel(rocks0, shots0)
    ensures Looks(born) == Debris(looks0, results, turn)
    ensures WellFormed(g)
    ensures newScore == score + Count(results)
    ensures score <= newScore <= score + |rocks0|
    ensures Bodies(g.shots) == Survivors(rocks0, shots0)
    ensures Scored(Groups4(g), old(Groups4(g)), HitIds(rocks0, results), UsedIds(results), kids, born)
    ensures forall x :: x in born ==> fresh(Obj(x))
    ensures forall x :: x in kids ==> x in born
  {
    ghost var rocks := g.asteroids;
    ghost var shots := g.shots;
    NotASprite(g, rocks);
    NotASprite(g, shots);
    NotASprite(g, snap);
    looks0 := Looks(rocks);
    var blasts;
    newScore, kids, blasts, rocks0, shots0, results, born := ShotHits(g, score, turn, killFirst);
    Kept(snap);
    Kept(shots);
    Kept(rocks);
  }

  /**
   * The shot phase, from the circles `rocks` of the asteroids: the score
   * and the groups change as `Collided` says for a frame without a crash.
   * Sprites already out of the groups stay out.
   */
  method Shoot(g: Groups, score: int, turn: nat -> Turn, killFirst: bool, ghost rocks: seq<Body>, ghost ship: Body,
               ghost looks: seq<Look>, ghost snap: seq<Sprite>, ghost out: set<Sprite>)
    returns (nextScore: int, ghost shots: seq<Body>, ghost kids: seq<Sprite>, ghost hatched: seq<Sprite>)
    requires WellFormed(g) && rocks == Bodies(g.asteroids) && looks == Looks(g.asteroids) && !Crash(rocks, ship)
    requires forall n :: Asteroid.SplitTurnInRange(turn(n))
    requires NoneIn(Groups4(g), out)
    modifies g`updatable, g`drawable, g`asteroids, g`shots
    ensures WellFormed(g)
    ensures NoneIn(Groups4(g), out)
    ensures shots == old(Bodies(g.shots)) && shots == Bodies(old(g.shots)) && rocks == Bodies(old(g.asteroids))
    ensures looks == Looks(old(g.asteroids))
    ensures States(snap) == old(States(snap))
    ensures Collided(old(Groups4(g)), Groups4(g), rocks, ship, shots, looks, kids, hatched, Looks(hatched), turn,
                     false, score, nextScore)
    ensures Bodies(g.shots) == Survivors(rocks, shots)
    ensures forall x :: x in hatched ==> fresh(Obj(x))
    ensures forall x :: x in kids ==> x in hatched
    ensures score <= nextScore <= score + |rocks|
  {
    ghost var mid := Groups4(g);
    var children;
    ghost var rocks1, looks1, results, made;
    nextScore, children, rocks1, shots, looks1, results, made := ShotPass(g, score, turn, killFirst, snap);
    kids, hatched := children, made;
    NewAreNotOld(out, hatched);
    ShotsKeepOut(Groups4(g), mid, HitIds(rocks1, results), UsedIds(results), kids, hatched, out);
  }

  /**
   * The ship test, then (when the ship is still whole) the shot phase.
   * `rocks` and `ship` are the circles the ship test compares, `shots` the
   * shots' circles at the start of the shot phase; none of the sprites they
   * belong to moves here, so the states of the sprites `snap` and `fired`
   * stay as they were.  Sprites already out of the groups stay out.
   */
  method Collide(g: Groups, player: Player.Player, score: int, turn: nat -> Turn, killFirst: bool,
                 ghost snap: seq<Sprite>, ghost fired: seq<Sprite>, ghost out: set<Sprite>)
    returns (crashed: bool, nextScore: int, ghost rocks: seq<Body>, ghost ship: Body, ghost shots: seq<Body>,
             ghost looks: seq<Look>, ghost kids: seq<Sprite>, ghost hatched: seq<Sprite>)
    requires WellFormed(g)
    requires forall n :: Asteroid.SplitTurnInRange(turn(n))
    requires NoneIn(Groups4(g), out)
    modifies g`updatable, g`drawable, g`asteroids, g`shots
    ensures WellFormed(g)
    ensures NoneIn(Groups4(g), out)
    ensures States(snap) == old(States(snap)) && States(fired) == old(States(fired))
    ensures rocks == old(Bodies(g.asteroids)) && ship == old(BodyOf(PlayerSprite(player)))
    ensures shots == old(Bodies(g.shots))
    ensures rocks == Bodies(old(g.asteroids)) && ship == BodyOf(PlayerSprite(player)) && shots == Bodies(old(g.shots))
    ensures looks == old(Looks(g.asteroids)) && looks == Looks(old(g.asteroids))
    ensures Collided(old(Groups4(g)), Groups4(g), rocks, ship, shots, looks, kids, hatched, Looks(hatched), turn,
                     crashed, score, nextScore)
    ensures !crashed ==> Bodies(g.shots) == Survivors(rocks, shots)
    ensures forall x :: x in hatched ==> fresh(Obj(x))
    ensures forall x :: x in kids ==> x in hatched
    ensures score <= nextScore <= score + |rocks|
  {
    rocks, ship, shots, looks := Bodies(g.asteroids), BodyOf(PlayerSprite(player)), Bodies(g.shots), Looks(g.asteroids);
    nextScore := score;
    kids, hatched := [], [];
    crashed := ShipHit(g, player);
    Kept(g.asteroids);
    Kept(g.shots);
    Kept(snap);
    NotASprite(g, fired);
    Kept(fired);
    if crashed {
      return;
    }
    nextScore, shots, kids, hatched := Shoot(g, score, turn, killFirst, rocks, ship, looks, snap, out);
    Kept(fired);
    assert BodyOf(PlayerSprite(player)) == ship;
  }
  /**
   * Lines of the Endless `step` after the event scan, recorded in `tr`.
   * The score grows by one for each asteroid a shot destroyed, and only
   * when the frame goes on: a lost frame returns before the shot phase.
   */
  method RunFrame(g: Groups, player: Player.Player, cooldown: real, score: int, f: Frame,
                  d: Asteroid.SpawnDraw, turn: nat -> Turn, killFirst: bool, t: Tuning)
    returns (outcome: Outcome, nextCooldown: real, nextScore: int, ghost tr: Trace)
    requires WellFormed(g)
    requires 1 <= f.shotKind <= t.shotKinds
    requires forall n :: Asteroid.SplitTurnInRange(turn(n))
    modifies g`updatable, g`drawable, g`asteroids, g`shots, Objects(g.updatable)
    ensures WellFormed(g)
    ensures forall x :: x in tr.spawned ==> fresh(Obj(x))
    ensures forall x :: x in tr.born ==> fresh(Obj(x))
    ensures forall x :: x in tr.hatched ==> fresh(Obj(x))
    // the spawner
    ensures Spawns(tr, old(Groups4(g)), old(States(g.updatable)), cooldown, nextCooldown, f.dt, d, t)
    // the update pass
    ensures outcome == OutOfScreen <==> PlayerSprite(player) in old(g.updatable) && OutOfBounds(old(player.position))
    ensures outcome != OutOfScreen ==>
      Passes(tr, old(Groups4(g)), PlayerSprite(player), States(tr.snap), States(tr.born), f, t)
    ensures outcome != OutOfScreen ==> forall x :: x in tr.gone ==> !g.Alive(x)
    ensures outcome != OutOfScreen ==>
      forall x :: x in old(g.updatable) && OutOfBounds(old(Position(x))) ==> !g.Alive(x)
    // the ship test and the shot phase
    ensures outcome != OutOfScreen ==> Observed(tr, player)
    ensures outcome != OutOfScreen ==>
      Collided(tr.mid, Groups4(g), tr.rocks, tr.ship, tr.shots, tr.looks, tr.kids, tr.hatched, Looks(tr.hatched), turn,
               outcome == Crashed, score, nextScore)
    ensures outcome == Continue ==> Bodies(g.shots) == Survivors(tr.rocks, tr.shots)
    ensures outcome != Continue ==> nextScore == score
    ensures score <= nextScore <= score + |tr.rocks|
  {
    ghost var states := States(g.updatable);
    ghost var places := Positions(g.updatable);
    PlacesOfStates(g.updatable);
    var lost;
    ghost var spawned, snap, before, gone, born;
    lost, nextCooldown, spawned, snap, before, gone, born := SpawnAndUpdate(g, player, cooldown, f, d, t);
    ghost var mid := Groups4(g);
    nextScore := score;
    tr := Trace(spawned, snap, before, gone, born, mid, [], Body(PlayerSprite(player), Zero, 0.0), [], [], [], []);
    if lost {
      outcome := OutOfScreen;
      return;
    }
    OffScreenGone(old(g.updatable), places, snap, before, States(snap), gone, PlayerSprite(player), f, t);
    forall x | x in old(g.updatable) && OutOfBounds(old(Position(x)))
      ensures x in gone
    {
      var j :| 0 <= j < |places| && old(g.updatable)[j] == x;
    }
    var crashed;
    ghost var rocks, ship, shots, looks, kids, hatched;
    crashed, nextScore, rocks, ship, shots, looks, kids, hatched :=
      Collide(g, player, score, turn, killFirst, snap, born, gone);
    tr := tr.(rocks := rocks, ship := ship, shots := shots, looks := looks, kids := kids, hatched := hatched);
    NoneAlive(g, gone);
    outcome := if crashed then Crashed else Continue;
  }

  /** The positions the states of a sequence of sprites record are the sprites' positions. */
  lemma PlacesOfStates(s: seq<Sprite>)
    ensures forall j :: 0 <= j < |s| ==> PositionOf(States(s)[j]) == Positions(s)[j]
  {
    forall j | 0 <= j < |s|
      ensures PositionOf(States(s)[j]) == Positions(s)[j]
    {
      StatePosition(s[j]);
    }
  }

  /** Every sprite of the pass that started off the screen was taken out. */
  lemma OffScreenGone(olds: seq<Sprite>, places: seq<Vec>, snap: seq<Sprite>, before: seq<SpriteState>,
                      after: seq<SpriteState>, gone: set<Sprite>, ship: Sprite, f: Frame, t: Tuning)
    requires Walked(snap, before, after, |snap|, gone, ship, f, t)
    requires |olds| == |places| <= |snap| && snap[..|olds|] == olds
    requires forall j :: 0 <= j < |olds| ==> PositionOf(before[j]) == places[j]
    ensures forall j :: 0 <= j < |olds| && OutOfBounds(places[j]) ==> olds[j] in gone
  {
    forall j | 0 <= j < |olds| && OutOfBounds(places[j])
      ensures olds[j] in gone
    {
      assert snap[j] == olds[j];
    }
  }

  /** Sprites none of whose fields changed have the same states, circles and looks. */
  twostate lemma Kept(s: seq<Sprite>)
    requires unchanged(Objects(s))
    ensures States(s) == old(States(s)) && Bodies(s) == old(Bodies(s)) && Looks(s) == old(Looks(s))
  {
  }
}
