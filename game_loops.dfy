/**
 * The older game loop (game_loops.py): a single Endless mode whose `step`
 * returns an integer state code instead of the next mode.  It differs from
 * the Endless mode of state.py in four ways: there is no pause, a lost game
 * quits the program outright, its constructor registers a second ship that
 * nothing refers to afterwards, and in the shot phase a hit asteroid splits
 * before the shot that hit it is killed.
 */
module GameLoops {
  import opened Vector2
  import opened Constants
  import opened Input
  import opened CircleShape
  import opened Sprites
  import opened Simulation
  import opened Collisions
  import opened EndlessFrame
  import opened Events
  import Player
  import Asteroid
  import Cooldown

  const STATE_QUIT: int := 1
  const STATE_ENDLESS: int := 2

  class Endless {
    const state: int
    const groups: Groups
    const player: Player.Player
    /** The ship the constructor makes a second time and keeps only in the groups. */
    ghost const spare: Player.Player
    var asteroidCooldown: real
    var score: int

    ghost predicate Valid()
      reads this, groups
    {
      WellFormed(groups) && state == STATE_ENDLESS
    }

    /**
     * The groups and default groups as in state.py, the spawn cooldown at
     * zero and no score; two ships, both at rest in the middle of the
     * screen, are registered, and only the first is the player.
     */
    constructor ()
      ensures Valid()
      ensures asteroidCooldown == 0.0 && score == 0
      ensures fresh(groups) && fresh(player) && fresh(spare) && player != spare
      ensures player.State() == Player.Ship(SCREEN_CENTER, Zero, 0.0, 0.0, false)
      ensures spare.State() == Player.Ship(SCREEN_CENTER, Zero, 0.0, 0.0, false)
      ensures groups.updatable == [PlayerSprite(player), PlayerSprite(spare)]
      ensures groups.drawable == [PlayerSprite(player), PlayerSprite(spare)]
      ensures groups.asteroids == [] && groups.shots == []
    {
      var g := new Registry<Sprite>();
      SetStandardDefaults(g);
      var ship := new Player.Player(SCREEN_CENTER);
      Register(g, PlayerSprite(ship));
      var other := new Player.Player(SCREEN_CENTER);
      Register(g, PlayerSprite(other));
      state := STATE_ENDLESS;
      groups := g;
      player := ship;
      spare := other;
      asteroidCooldown := 0.0;
      score := 0;
    }

    /**
     * One frame.  A quit event, Q or ESC returns STATE_QUIT before anything
     * moves.  Otherwise the frame runs (`RunFrame`, where a hit asteroid
     * splits before its shot is killed); losing the player's ship returns
     * STATE_QUIT with the score unchanged, and any other frame adds the
     * destroyed asteroids to the score and returns this loop's own code.
     * The second ship is an ordinary sprite: leaving the screen only
     * removes it from the groups.
     */
    method Step(events: seq<Event>, f: Frame, d: Asteroid.SpawnDraw, turn: nat -> Turn, t: Tuning)
      returns (code: int, ghost outcome: Outcome, ghost tr: Trace)
      requires Valid()
      requires 1 <= f.shotKind <= t.shotKinds
      requires forall n :: Asteroid.SplitTurnInRange(turn(n))
      modifies this, groups, Objects(groups.updatable)
      ensures Valid()
      ensures forall x :: x in tr.spawned ==> fresh(Obj(x))
      ensures forall x :: x in tr.born ==> fresh(Obj(x))
      ensures forall x :: x in tr.hatched ==> fresh(Obj(x))
      ensures code == STATE_QUIT || code == STATE_ENDLESS
      ensures Scan(events, QuitReaction) == ToQuit ==>
        code == STATE_QUIT && unchanged(this, groups) && unchanged(Objects(groups.updatable))
      ensures Scan(events, QuitReaction) == Ignore ==>
        && Spawns(tr, old(Groups4(groups)), old(States(groups.updatable)), old(asteroidCooldown), asteroidCooldown,
                  f.dt, d, t)
        && (outcome == OutOfScreen <==> PlayerSprite(player) in old(groups.updatable) && OutOfBounds(old(player.position)))
        && (code == STATE_QUIT <==> outcome != Continue)
      ensures Scan(events, QuitReaction) == Ignore && outcome != OutOfScreen ==>
        && Passes(tr, old(Groups4(groups)), PlayerSprite(player), States(tr.snap), States(tr.born), f, t)
        && Observed(tr, player)
        && Collided(tr.mid, Groups4(groups), tr.rocks, tr.ship, tr.shots, tr.looks, tr.kids, tr.hatched,
                    Looks(tr.hatched), turn, outcome == Crashed, old(score), score)
      ensures Scan(events, QuitReaction) == Ignore && outcome == Continue ==>
        && score == old(score) + Count(Duel(tr.rocks, tr.shots))
        && Bodies(groups.shots) == Survivors(tr.rocks, tr.shots)
      ensures Scan(events, QuitReaction) == Ignore && outcome != Continue ==> score == old(score)
      ensures Scan(events, QuitReaction) == Ignore && outcome != OutOfScreen &&
              PlayerSprite(spare) in old(groups.updatable) && OutOfBounds(old(spare.position)) ==>
        !groups.Alive(PlayerSprite(spare))
    {
      var r := Poll(events, QuitReaction);
      Kept(groups.updatable);
      outcome := Continue;
      tr := Trace([], [], [], {}, [], Groups4(groups), [], Body(PlayerSprite(player), Zero, 0.0), [], [], [], []);
      if r == ToQuit {
        return STATE_QUIT, outcome, tr;
      }
      code, outcome, tr := Play(f, d, turn, t);
    }

    /** The frame itself, once the events have let it run. */
    method Play(f: Frame, d: Asteroid.SpawnDraw, turn: nat -> Turn, t: Tuning)
      returns (code: int, ghost outcome: Outcome, ghost tr: Trace)
      requires Valid()
      requires 1 <= f.shotKind <= t.shotKinds
      requires forall n :: Asteroid.SplitTurnInRange(turn(n))
      modifies this, groups, Objects(groups.updatable)
      ensures Valid()
      ensures forall x :: x in tr.spawned ==> fresh(Obj(x))
      ensures forall x :: x in tr.born ==> fresh(Obj(x))
      ensures forall x :: x in tr.hatched ==> fresh(Obj(x))
      ensures Spawns(tr, old(Groups4(groups)), old(States(groups.updatable)), old(asteroidCooldown), asteroidCooldown,
                     f.dt, d, t)
      ensures outcome == OutOfScreen <==> PlayerSprite(player) in old(groups.updatable) && OutOfBounds(old(player.position))
      ensures code == (if outcome == Continue then STATE_ENDLESS else STATE_QUIT)
      ensures outcome != OutOfScreen ==>
        && Passes(tr, old(Groups4(groups)), PlayerSprite(player), States(tr.snap), States(tr.born), f, t)
        && Observed(tr, player)
        && Collided(tr.mid, Groups4(groups), tr.rocks, tr.ship, tr.shots, tr.looks, tr.kids, tr.hatched,
                    Looks(tr.hatched), turn, outcome == Crashed, old(score), score)
      ensures outcome == Continue ==>
        && score == old(score) + Count(Duel(tr.rocks, tr.shots))
        && Bodies(groups.shots) == Survivors(tr.rocks, tr.shots)
      ensures outcome != Continue ==> score == old(score)
      ensures outcome != OutOfScreen && PlayerSprite(spare) in old(groups.updatable) && OutOfBounds(old(spare.position)) ==>
        !groups.Alive(PlayerSprite(spare))
    {
      var lost, nextCooldown, nextScore;
      lost, nextCooldown, nextScore, tr := RunFrame(groups, player, asteroidCooldown, score, f, d, turn, false, t);
      ghost var g4 := Groups4(groups);
      if lost != OutOfScreen && PlayerSprite(spare) in old(groups.updatable) && OutOfBounds(old(spare.position)) {
        assert PlayerSprite(spare) !in g4.0 && PlayerSprite(spare) !in g4.1;
        assert PlayerSprite(spare) !in g4.2 && PlayerSprite(spare) !in g4.3;
      }
      outcome := lost;
      Settle(lost, nextCooldown, nextScore, tr, groups.shots);
      code := if lost == Continue then state else STATE_QUIT;
      assert score == nextScore;
    }

    /** The end of a frame: the cooldown is stored, and the score unless the frame was lost. */
    method Settle(lost: Outcome, nextCooldown: real, nextScore: int, ghost tr: Trace, ghost shots: seq<Sprite>)
      requires Valid()
      modifies this
      ensures Valid() && Groups4(groups) == old(Groups4(groups))
      ensures asteroidCooldown == nextCooldown
      ensures score == if lost == Continue then nextScore else old(score)
      ensures States(tr.snap) == old(States(tr.snap)) && States(tr.born) == old(States(tr.born))
      ensures Looks(tr.hatched) == old(Looks(tr.hatched))
      ensures Bodies(tr.mid.2) == old(Bodies(tr.mid.2)) && Bodies(tr.mid.3) == old(Bodies(tr.mid.3))
      ensures Bodies(shots) == old(Bodies(shots))
      ensures old(Observed(tr, player)) ==> Observed(tr, player)
    {
      asteroidCooldown := nextCooldown;
      if lost == Continue {
        score := nextScore;
      }
      NotSprites(tr.snap);
      Kept(tr.snap);
      NotSprites(tr.born);
      Kept(tr.born);
      NotSprites(tr.hatched);
      Kept(tr.hatched);
      NotSprites(tr.mid.2);
      Kept(tr.mid.2);
      NotSprites(tr.mid.3);
      Kept(tr.mid.3);
      NotSprites(shots);
      Kept(shots);
    }

    /** The sprites of the game are not this loop. */
    lemma NotSprites(s: seq<Sprite>)
      ensures this !in Objects(s)
    {
      forall x | x in s
        ensures Obj(x) != this
      {
        match x
        case PlayerSprite(p) =>
        case AsteroidSprite(a) =>
        case ShotSprite(b) =>
        case ExplosionSprite(e) =>
      }
    }
  }
}
