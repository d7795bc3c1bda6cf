/**
 * The modes of the game (state.py): Endless play, Pause, Game Over and Quit.
 * Each mode's `step` reads the frame's events and hands back the mode to
 * run next: itself, or a new or remembered one.  The dictionary the modes
 * share, `storage`, carries the score of a lost game to the Game Over
 * screen.
 *
 * Drawing, fonts and the screen surface are not modelled; the frame's
 * events, held keys, time step and random draws are parameters.
 */
module State {
  import opened Vector2
  import opened Constants
  import opened Input
  import opened CircleShape
  import opened Sprites
  import opened Simulation
  import opened Collisions
  import opened EndlessFrame
  import opened Events
  import Player
  import Asteroid
  import Cooldown

  // ---------------------------------------------------------------------
  // What each mode reacts to
  // ---------------------------------------------------------------------

  /** Game Over: a quit event or Q or ESC quits, N starts a new game. */
  function GameOverReaction(e: Event): (r: Reaction)
    ensures r == ToQuit <==> IsQuit(e)
    ensures r == ToRestart <==> e == KeyDown(KeyN)
    ensures r == Ignore <==> !IsQuit(e) && e != KeyDown(KeyN)
  {
    if e.QuitEvent? then ToQuit
    else if e.KeyDown? && (e.key == KeyQ || e.key == KeyEscape) then ToQuit
    else if e.KeyDown? && e.key == KeyN then ToRestart
    else Ignore
  }

  /** Pause: only P does anything (it resumes); even a window close is ignored. */
  function PauseReaction(e: Event): (r: Reaction)
    ensures r == ToResume <==> e == KeyDown(KeyP)
    ensures r == Ignore <==> e != KeyDown(KeyP)
  {
    if e.KeyDown? && e.key == KeyP then ToResume else Ignore
  }

  /** Endless: a quit event or Q or ESC quits, P pauses. */
  function EndlessReaction(e: Event): (r: Reaction)
    ensures r == ToQuit <==> IsQuit(e)
    ensures r == ToPause <==> e == KeyDown(KeyP)
    ensures r == Ignore <==> !IsQuit(e) && e != KeyDown(KeyP)
  {
    if e.QuitEvent? then ToQuit
    else if e.KeyDown? && (e.key == KeyQ || e.key == KeyEscape) then ToQuit
    else if e.KeyDown? && e.key == KeyP then ToPause
    else Ignore
  }

  /** A paused game cannot be quit from the event queue: no queue makes Pause quit. */
  lemma {:induction false} PauseOnlyResumes(events: seq<Event>)
    ensures Scan(events, PauseReaction) in {Ignore, ToResume}
    ensures Scan(events, PauseReaction) == ToResume <==> KeyDown(KeyP) in events
  {
    if events != [] {
      PauseOnlyResumes(events[1..]);
      assert events == [events[0]] + events[1..];
    }
  }

  // ---------------------------------------------------------------------
  // The modes
  // ---------------------------------------------------------------------

  /** The dictionary the modes pass on to one another. */
  class Storage {
    var entries: map<string, int>

    constructor ()
      ensures entries == map[]
    {
      entries := map[];
    }
  }

  /** A mode, as `step` returns it. */
  datatype Mode =
    | EndlessMode(endless: Endless)
    | PauseMode(pause: Pause)
    | GameOverMode(over: GameOver)
    | QuitMode(quit: Quit)

  /** The mode that ends the program; it has no `step` of its own. */
  class Quit {
    const storage: Storage

    constructor (storage: Storage)
      ensures this.storage == storage
    {
      this.storage := storage;
    }
  }

  /** The Game Over screen, showing the score the lost game left in storage. */
  class GameOver {
    const storage: Storage
    const score: int

    /** `storage.get("score", 0)`. */
    constructor (storage: Storage)
      ensures this.storage == storage
      ensures "score" in storage.entries ==> score == storage.entries["score"]
      ensures "score" !in storage.entries ==> score == 0
    {
      this.storage := storage;
      score := if "score" in storage.entries then storage.entries["score"] else 0;
    }

    /**
     * Quit with a new empty storage, or start a new Endless game that
     * shares this storage, or stay on this screen.
     */
    method Step(events: seq<Event>) returns (next: Mode)
      ensures Scan(events, GameOverReaction) == ToQuit ==>
        next.QuitMode? && fresh(next.quit) && fresh(next.quit.storage) && next.quit.storage.entries == map[]
      ensures Scan(events, GameOverReaction) == ToRestart ==>
        && next.EndlessMode? && fresh(next.endless) && next.endless.Valid()
        && next.endless.storage == storage && next.endless.score == 0 && next.endless.asteroidCooldown == 0.0
        && next.endless.player.State() == Player.Ship(SCREEN_CENTER, Zero, 0.0, 0.0, false)
        && next.endless.groups.updatable == [PlayerSprite(next.endless.player)]
        && next.endless.groups.drawable == [PlayerSprite(next.endless.player)]
        && next.endless.groups.asteroids == [] && next.endless.groups.shots == []
      ensures Scan(events, GameOverReaction) == Ignore ==> next == GameOverMode(this)
    {
      var r := Poll(events, GameOverReaction);
      if r == ToQuit {
        var empty := new Storage();
        var q := new Quit(empty);
        return QuitMode(q);
      } else if r == ToRestart {
        var game := new Endless(storage);
        return EndlessMode(game);
      }
      return GameOverMode(this);
    }
  }

  /** A paused game: it remembers the mode to go back to. */
  class Pause {
    const storage: Storage
    const previous: Mode

    constructor (storage: Storage, previous: Mode)
      ensures this.storage == storage && this.previous == previous
    {
      this.storage := storage;
      this.previous := previous;
    }

    /** P hands back the paused mode, untouched; anything else keeps the pause. */
    method Step(events: seq<Event>) returns (next: Mode)
      ensures KeyDown(KeyP) in events ==> next == previous
      ensures KeyDown(KeyP) !in events ==> next == PauseMode(this)
    {
      var r := Poll(events, PauseReaction);
      PauseOnlyResumes(events);
      if r == ToResume {
        return previous;
      }
      return PauseMode(this);
    }
  }

  /** The sprites of the game are not the storage. */
  lemma StorageNotASprite(st: Storage, s: seq<Sprite>)
    ensures st !in Objects(s)
  {
    forall x | x in s
      ensures Obj(x) != st
    {
      match x
      case PlayerSprite(p) =>
      case AsteroidSprite(a) =>
      case ShotSprite(b) =>
      case ExplosionSprite(e) =>
    }
  }

  /** Endless play: asteroids keep coming from the edges and shooting them scores. */
  class Endless {
    const storage: Storage
    const groups: Groups
    const player: Player.Player
    var asteroidCooldown: real
    var score: int

    ghost predicate Valid()
      reads this, groups
    {
      WellFormed(groups)
    }

    /**
     * Fresh groups with each class's default groups set, the spawn cooldown
     * at zero (so the first frame spawns an asteroid), the player's ship at
     * rest in the middle of the screen, and no score.
     */
    constructor (storage: Storage)
      ensures Valid()
      ensures this.storage == storage && asteroidCooldown == 0.0 && score == 0
      ensures fresh(groups) && fresh(player)
      ensures player.State() == Player.Ship(SCREEN_CENTER, Zero, 0.0, 0.0, false)
      ensures groups.updatable == [PlayerSprite(player)] && groups.drawable == [PlayerSprite(player)]
      ensures groups.asteroids == [] && groups.shots == []
    {
      var g := new Registry<Sprite>();
      SetStandardDefaults(g);
      var ship := new Player.Player(SCREEN_CENTER);
      Register(g, PlayerSprite(ship));
      this.storage := storage;
      groups := g;
      player := ship;
      asteroidCooldown := 0.0;
      score := 0;
    }

    /**
     * One frame.  An event the mode acts on ends the step before anything
     * moves: quit with a new empty storage, or pause (the Pause remembers
     * this game).  Otherwise the frame runs (`RunFrame`, where a hit
     * asteroid's shot is killed before the asteroid splits); a lost frame
     * writes the score to storage and hands over to a Game Over screen,
     * any other frame adds the destroyed asteroids to the score.
     * `outcome` and the record `tr` of the frame are as in `RunFrame`.
     */
    method Step(events: seq<Event>, f: Frame, d: Asteroid.SpawnDraw, turn: nat -> Turn, t: Tuning)
      returns (next: Mode, ghost outcome: Outcome, ghost tr: Trace)
      requires Valid()
      requires 1 <= f.shotKind <= t.shotKinds
      requires forall n :: Asteroid.SplitTurnInRange(turn(n))
      modifies this, storage, groups, Objects(groups.updatable)
      ensures Valid()
      ensures forall x :: x in tr.spawned ==> fresh(Obj(x))
      ensures forall x :: x in tr.born ==> fresh(Obj(x))
      ensures forall x :: x in tr.hatched ==> fresh(Obj(x))
      ensures Scan(events, EndlessReaction) == ToQuit ==>
        && next.QuitMode? && fresh(next.quit) && fresh(next.quit.storage) && next.quit.storage.entries == map[]
        && unchanged(this, storage, groups) && unchanged(Objects(groups.updatable))
      ensures Scan(events, EndlessReaction) == ToPause ==>
        && next.PauseMode? && fresh(next.pause)
        && next.pause.previous == EndlessMode(this) && next.pause.storage == storage
        && unchanged(this, storage, groups) && unchanged(Objects(groups.updatable))
      ensures Scan(events, EndlessReaction) == Ignore ==>
        && Spawns(tr, old(Groups4(groups)), old(States(groups.updatable)), old(asteroidCooldown), asteroidCooldown,
                  f.dt, d, t)
        && (outcome == OutOfScreen <==> PlayerSprite(player) in old(groups.updatable) && OutOfBounds(old(player.position)))
      ensures Scan(events, EndlessReaction) == Ignore && outcome != OutOfScreen ==>
        && Passes(tr, old(Groups4(groups)), PlayerSprite(player), States(tr.snap), States(tr.born), f, t)
        && Observed(tr, player)
        && Collided(tr.mid, Groups4(groups), tr.rocks, tr.ship, tr.shots, tr.looks, tr.kids, tr.hatched,
                    Looks(tr.hatched), turn, outcome == Crashed, old(score), score)
      ensures Scan(events, EndlessReaction) == Ignore && outcome == Continue ==>
        && next == EndlessMode(this) && unchanged(storage)
        && score == old(score) + Count(Duel(tr.rocks, tr.shots))
        && Bodies(groups.shots) == Survivors(tr.rocks, tr.shots)
      ensures Scan(events, EndlessReaction) == Ignore && outcome != Continue ==>
        && next.GameOverMode? && fresh(next.over) && next.over.storage == storage
        && storage.entries == old(storage.entries)["score" := old(score)]
        && next.over.score == old(score) && score == old(score)
    {
      var r := Poll(events, EndlessReaction);
      Kept(groups.updatable);
      outcome := Continue;
      tr := Trace([], [], [], {}, [], Groups4(groups), [], Body(PlayerSprite(player), Zero, 0.0), [], [], [], []);
      if r == ToQuit {
        var empty := new Storage();
        var q := new Quit(empty);
        return QuitMode(q), outcome, tr;
      } else if r == ToPause {
        var p := new Pause(storage, EndlessMode(this));
        return PauseMode(p), outcome, tr;
      }
      next, outcome, tr := Play(f, d, turn, t);
    }

    /** The frame itself, once the events have let it run. */
    method Play(f: Frame, d: Asteroid.SpawnDraw, turn: nat -> Turn, t: Tuning)
      returns (next: Mode, ghost outcome: Outcome, ghost tr: Trace)
      requires Valid()
      requires 1 <= f.shotKind <= t.shotKinds
      requires forall n :: Asteroid.SplitTurnInRange(turn(n))
      modifies this, storage, groups, Objects(groups.updatable)
      ensures Valid()
      ensures forall x :: x in tr.spawned ==> fresh(Obj(x))
      ensures forall x :: x in tr.born ==> fresh(Obj(x))
      ensures forall x :: x in tr.hatched ==> fresh(Obj(x))
      ensures Spawns(tr, old(Groups4(groups)), old(States(groups.updatable)), old(asteroidCooldown), asteroidCooldown,
                     f.dt, d, t)
      ensures outcome == OutOfScreen <==> PlayerSprite(player) in old(groups.updatable) && OutOfBounds(old(player.position))
      ensures outcome != OutOfScreen ==>
        && Passes(tr, old(Groups4(groups)), PlayerSprite(player), States(tr.snap), States(tr.born), f, t)
        && Observed(tr, player)
        && Collided(tr.mid, Groups4(groups), tr.rocks, tr.ship, tr.shots, tr.looks, tr.kids, tr.hatched,
                    Looks(tr.hatched), turn, outcome == Crashed, old(score), score)
      ensures outcome == Continue ==>
        && next == EndlessMode(this) && unchanged(storage)
        && score == old(score) + Count(Duel(tr.rocks, tr.shots))
        && Bodies(groups.shots) == Survivors(tr.rocks, tr.shots)
      ensures outcome != Continue ==>
        && next.GameOverMode? && fresh(next.over) && next.over.storage == storage
        && storage.entries == old(storage.entries)["score" := old(score)]
        && next.over.score == old(score) && score == old(score)
    {
      StorageNotASprite(storage, groups.updatable);
      var lost, nextCooldown, nextScore;
      lost, nextCooldown, nextScore, tr := RunFrame(groups, player, asteroidCooldown, score, f, d, turn, true, t);
      outcome := lost;
      next := Settle(lost, nextCooldown, nextScore, tr, groups.shots);
    }

    /**
     * The end of a frame: the cooldown and score are stored, or a lost
     * frame hands its score to a Game Over screen.  No sprite changes.
     */
    method Settle(lost: Outcome, nextCooldown: real, nextScore: int, ghost tr: Trace, ghost shots: seq<Sprite>)
      returns (next: Mode)
      requires Valid()
      modifies this, storage
      ensures Valid() && Groups4(groups) == old(Groups4(groups))
      ensures asteroidCooldown == nextCooldown
      ensures lost == Continue ==> next == EndlessMode(this) && unchanged(storage) && score == nextScore
      ensures lost != Continue ==>
        && next.GameOverMode? && fresh(next.over) && next.over.storage == storage
        && storage.entries == old(storage.entries)["score" := old(score)]
        && next.over.score == old(score) && score == old(score)
      ensures States(tr.snap) == old(States(tr.snap)) && States(tr.born) == old(States(tr.born))
      ensures Looks(tr.hatched) == old(Looks(tr.hatched))
      ensures Bodies(tr.mid.2) == old(Bodies(tr.mid.2)) && Bodies(tr.mid.3) == old(Bodies(tr.mid.3))
      ensures Bodies(shots) == old(Bodies(shots))
      ensures old(Observed(tr, player)) ==> Observed(tr, player)
    {
      asteroidCooldown := nextCooldown;
      if lost != Continue {
        storage.entries := storage.entries["score" := score];
        var over := new GameOver(storage);
        next := GameOverMode(over);
      } else {
        score := nextScore;
        next := EndlessMode(this);
      }
      NotSprites(tr.snap);
      Kept(tr.snap);
      NotSprites(tr.born);
      Kept(tr.born);
      NotSprites(tr.hatched);
      Kept(tr.hatched);
      NotSprites(tr.mid.2);
      Kept(tr.mid.2);
      NotSprites(tr.mid.3);
      Kept(tr.mid.3);
      NotSprites(shots);
      Kept(shots);
    }

    /** The sprites of the game are not this mode, nor its storage. */
    lemma NotSprites(s: seq<Sprite>)
      ensures this !in Objects(s) && storage !in Objects(s)
    {
      StorageNotASprite(storage, s);
      forall x | x in s
        ensures Obj(x) != this
      {
        match x
        case PlayerSprite(p) =>
        case AsteroidSprite(a) =>
        case ShotSprite(b) =>
        case ExplosionSprite(e) =>
      }
    }
  }
}
