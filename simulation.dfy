/**
 * The phases of one frame of the Endless game, shared by state.py and the
 * older game_loops.py: the asteroid spawner, the update pass over the
 * `updateable` group, the ship-asteroid test and the shot-asteroid test.
 *
 * The loops of the source iterate pygame groups, which hand out a copy of
 * their member list; so each loop here walks a sequence taken from the group
 * before the loop starts.  A sprite killed during a loop has left the groups
 * by the time a later loop copies them, and a sprite created during a loop is
 * not visited by it.
 */
module Simulation {
  import opened Vector2
  import opened Constants
  import opened CircleShape
  import opened Sprites
  import Player
  import Asteroid
  import Cooldown

  // ---------------------------------------------------------------------
  // Spawning
  // ---------------------------------------------------------------------

  /**
   * `asteroid_cooldown -= dt`, and when it is no longer positive one
   * asteroid spawns and the cooldown is re-armed to ASTEROID_SPAWN_COOLDOWN.
   */
  method SpawnPhase(g: Groups, cooldown: real, dt: real, d: Asteroid.SpawnDraw, t: Tuning)
    returns (next: real, spawned: seq<Sprite>)
    requires WellFormed(g)
    modifies g`updatable, g`drawable, g`asteroids, g`shots
    ensures WellFormed(g)
    ensures Cooldown.Step(cooldown, dt, true, ASTEROID_SPAWN_COOLDOWN) == Cooldown.Tick(|spawned| == 1, next)
    ensures |spawned| <= 1
    ensures forall x :: x in spawned ==>
      && x.AsteroidSprite? && fresh(Obj(x))
      && StateOf(x) == RockState(Asteroid.SpawnPosition(d, t), Asteroid.SpawnVelocity(d))
      && Radius(x) == ASTEROID_MIN_RADIUS * d.kind as real
    ensures g.updatable == old(g.updatable) + spawned && g.drawable == old(g.drawable) + spawned
    ensures g.asteroids == old(g.asteroids) + spawned && g.shots == old(g.shots)
  {
    next := cooldown - dt;
    spawned := [];
    if next <= 0.0 {
      var a := SpawnAsteroid(g, d, t);
      spawned := [a];
      next := ASTEROID_SPAWN_COOLDOWN;
    }
  }

  // ---------------------------------------------------------------------
  // The update pass
  // ---------------------------------------------------------------------

  /** What the pass does to a sprite: nothing when it is out of the screen, else one update. */
  predicate Visited(before: SpriteState, after: SpriteState, f: Frame, t: Tuning) {
    if OutOfBounds(PositionOf(before)) then after == before else after == Stepped(before, f, t)
  }

  /** The sprites the pass takes out of the groups. */
  predicate Gone(before: SpriteState, after: SpriteState, t: Tuning) {
    OutOfBounds(PositionOf(before)) || Expired(after, t)
  }

  /** The shots a sprite fires in the pass, as states: one from a ship on the screen that fires, else none. */
  function Launched(before: SpriteState, f: Frame, radius: real): seq<SpriteState> {
    if !OutOfBounds(PositionOf(before)) && Fires(before, f) then [FiredShot(before.ship, f, radius)] else []
  }

  /** The shots the first i sprites of the pass fire, in the order they fire them. */
  function Volley(snap: seq<Sprite>, before: seq<SpriteState>, f: Frame, i: nat): seq<SpriteState>
    requires i <= |snap| && i <= |before|
  {
    if i == 0 then [] else Volley(snap, before, f, i - 1) + Launched(before[i - 1], f, Radius(snap[i - 1]))
  }

  /** Shots fired in the pass: plasma shots of the frame's kind. */
  predicate NewShots(s: seq<Sprite>, f: Frame) {
    forall x :: x in s ==> x.ShotSprite? && Radius(x) == SHOT_RADIUS && x.shot.kind == f.shotKind
  }

  /**
   * One iteration of the pass for the sprite u: out of the screen, the
   * player's ship ends the game (`lost`) and any other sprite is killed
   * without an update; on the screen, u is updated.
   */
  method Visit(g: Groups, u: Sprite, player: Player.Player, f: Frame, t: Tuning)
    returns (lost: bool, born: seq<Sprite>, ghost gone: bool)
    requires WellFormed(g) && u in g.updatable
    requires 1 <= f.shotKind <= t.shotKinds
    modifies g`updatable, g`drawable, g`asteroids, g`shots, Obj(u)
    ensures WellFormed(g)
    ensures lost <==> u == PlayerSprite(player) && OutOfBounds(old(Position(u)))
    ensures NewShots(born, f) && forall x :: x in born ==> fresh(Obj(x))
    ensures !lost ==> States(born) == Launched(old(StateOf(u)), f, Radius(u))
    ensures !lost ==> Visited(old(StateOf(u)), StateOf(u), f, t)
    ensures forall x :: old(allocated(x)) && x != u ==> StateOf(x) == old(StateOf(x))
    ensures !lost ==> gone == Gone(old(StateOf(u)), StateOf(u), t)
    ensures u !in born
    ensures !lost ==> Stepped4(old(Groups4(g)), Groups4(g), u, gone, born)
  {
    born := [];
    lost := false;
    gone := false;
    if OutOfBounds(Position(u)) {
      if u == PlayerSprite(player) {
        lost := true;
        return;
      }
      gone := true;
      KillOut(g, u);
    } else {
      born, gone := UpdateOn(g, u, f, t);
    }
    forall x | old(allocated(x)) && x != u
      ensures StateOf(x) == old(StateOf(x))
    {
      if Obj(x) == Obj(u) {
        ObjInjective(x, u);
      }
    }
  }

  /** An out-of-screen sprite other than the player's ship: `u.kill()`. */
  method KillOut(g: Groups, u: Sprite)
    requires WellFormed(g)
    modifies g`updatable, g`drawable, g`asteroids, g`shots
    ensures WellFormed(g)
    ensures Stepped4(old(Groups4(g)), Groups4(g), u, true, [])
  {
    Kill(g, u);
  }

  /** An on-screen sprite: `u.update(dt)`; `gone` says whether it killed itself. */
  method UpdateOn(g: Groups, u: Sprite, f: Frame, t: Tuning) returns (born: seq<Sprite>, ghost gone: bool)
    requires WellFormed(g)
    requires 1 <= f.shotKind <= t.shotKinds
    modifies g`updatable, g`drawable, g`asteroids, g`shots, Obj(u)
    ensures WellFormed(g)
    ensures StateOf(u) == Stepped(old(StateOf(u)), f, t)
    ensures gone == Expired(StateOf(u), t)
    ensures NewShots(born, f) && forall x :: x in born ==> fresh(Obj(x))
    ensures States(born) == if Fires(old(StateOf(u)), f) then [FiredShot(old(StateOf(u)).ship, f, Radius(u))] else []
    ensures u !in born
    ensures Stepped4(old(Groups4(g)), Groups4(g), u, gone, born)
  {
    born := UpdateSprite(g, u, f, t);
    gone := Expired(StateOf(u), t);
  }

  /** The states of a sequence of sprites. */
  function States(s: seq<Sprite>): (r: seq<SpriteState>)
    reads Objects(s)
    ensures |r| == |s| && forall j :: 0 <= j < |s| ==> r[j] == StateOf(s[j])
  {
    seq(|s|, j requires 0 <= j < |s| reads Objects(s) => StateOf(s[j]))
  }

  /**
   * The pass has visited snap[..i]: those sprites went from `before` to
   * `cur` as `Visited` says, `gone` holds the ones it took out, and the ship
   * was not among the out-of-screen ones; the rest are as they were.
   */
  ghost predicate Walked(snap: seq<Sprite>, before: seq<SpriteState>, cur: seq<SpriteState>, i: int,
                         gone: set<Sprite>, ship: Sprite, f: Frame, t: Tuning)
  {
    && |before| == |snap| && |cur| == |snap| && 0 <= i <= |snap|
    && (forall j :: i <= j < |snap| ==> cur[j] == before[j])
    && (forall j :: 0 <= j < i ==> Visited(before[j], cur[j], f, t))
    && (forall j :: 0 <= j < i && snap[j] == ship ==> !OutOfBounds(PositionOf(before[j])))
    && (forall j :: 0 <= j < i ==> (snap[j] in gone <==> Gone(before[j], cur[j], t)))
    && (forall j :: i <= j < |snap| ==> snap[j] !in gone)
    && (forall x :: x in gone ==> x in snap)
  }

  /** One more sprite visited. */
  lemma WalkStep(snap: seq<Sprite>, before: seq<SpriteState>, pre: seq<SpriteState>, post: seq<SpriteState>,
                 i: int, gone: set<Sprite>, out: bool, ship: Sprite, f: Frame, t: Tuning)
    requires Walked(snap, before, pre, i, gone, ship, f, t) && i < |snap| && NoDup(snap)
    requires |post| == |snap| && forall j :: 0 <= j < |snap| && j != i ==> post[j] == pre[j]
    requires Visited(pre[i], post[i], f, t) && (out <==> Gone(pre[i], post[i], t))
    requires snap[i] == ship ==> !OutOfBounds(PositionOf(pre[i]))
    ensures Walked(snap, before, post, i + 1, if out then gone + {snap[i]} else gone, ship, f, t)
  {
  }

  /** The four groups, as values. */
  type Membership = (seq<Sprite>, seq<Sprite>, seq<Sprite>, seq<Sprite>)

  /** The sprites in a group, as a set. */
  function Members(s: seq<Sprite>): set<Sprite> {
    set x | x in s
  }

  /**
   * The groups are the starting ones without the gone sprites, in their
   * order, followed by the newborn in the order they were made (newborn
   * are shots, never asteroids).
   */
  predicate Grouped(cur: Membership, start: Membership, gone: set<Sprite>, born: seq<Sprite>) {
    && cur.0 == Drop(start.0, gone) + born
    && cur.1 == Drop(start.1, gone) + born
    && cur.2 == Drop(start.2, gone)
    && cur.3 == Drop(start.3, gone) + born
  }

  /** One visit, as it changes the groups: u is removed if it is gone, then b is appended. */
  predicate Stepped4(pre: Membership, post: Membership, u: Sprite, out: bool, b: seq<Sprite>) {
    && post.0 == (if out then Without(pre.0, u) else pre.0) + b
    && post.1 == (if out then Without(pre.1, u) else pre.1) + b
    && post.2 == (if out then Without(pre.2, u) else pre.2)
    && post.3 == (if out then Without(pre.3, u) else pre.3) + b
  }

  /** At the start of the pass nothing is gone and nothing is born. */
  lemma GroupedAtStart(start: Membership)
    ensures Grouped(start, start, {}, [])
  {
    DropNothing(start.0, {});
    DropNothing(start.1, {});
    DropNothing(start.2, {});
    DropNothing(start.3, {});
  }

  /** The pass so far followed by one more visit is again a pass so far. */
  lemma RegroupStep(start: Membership, pre: Membership, post: Membership, gone: set<Sprite>,
                    born: seq<Sprite>, u: Sprite, out: bool, b: seq<Sprite>)
    requires Grouped(pre, start, gone, born) && Stepped4(pre, post, u, out, b)
    requires u !in born
    ensures Grouped(post, start, if out then gone + {u} else gone, born + b)
  {
    RegroupOne(start.0, pre.0, post.0, gone, born, u, out, b);
    RegroupOne(start.1, pre.1, post.1, gone, born, u, out, b);
    RegroupOne(start.3, pre.3, post.3, gone, born, u, out, b);
    assert pre.2 == Drop(start.2, gone) + [];
    assert post.2 == (if out then Without(pre.2, u) else pre.2) + [];
    RegroupOne(start.2, pre.2, post.2, gone, [], u, out, []);
  }

  /** One group of `RegroupStep`. */
  lemma RegroupOne(s: seq<Sprite>, pre: seq<Sprite>, post: seq<Sprite>, gone: set<Sprite>,
                   born: seq<Sprite>, u: Sprite, out: bool, b: seq<Sprite>)
    requires pre == Drop(s, gone) + born
    requires post == (if out then Without(pre, u) else pre) + b
    requires u !in born
    ensures post == Drop(s, if out then gone + {u} else gone) + (born + b)
  {
    if out {
      DropMore(s, gone, born, u);
      AppendAssoc(Drop(s, gone + {u}), born, b);
    } else {
      AppendAssoc(Drop(s, gone), born, b);
    }
  }

  function Groups4(g: Groups): Membership
    reads g
  {
    (g.updatable, g.drawable, g.asteroids, g.shots)
  }

  /**
   * `for u in self.updateable`: every sprite of the group as it was at the
   * start of the pass is visited once, in order.  The pass stops at the
   * player's ship if it is out of the screen (`lost`); that happens exactly
   * when the ship was out of the screen at the start, because no other
   * sprite's update moves it.  Otherwise every sprite was visited (see
   * `Visited`), the gone ones left all groups, the others kept theirs, and
   * only the shots fired in the pass joined.
   */
  method UpdatePass(g: Groups, player: Player.Player, f: Frame, t: Tuning)
    returns (lost: bool, born: seq<Sprite>, ghost gone: set<Sprite>, ghost snap: seq<Sprite>, ghost before: seq<SpriteState>)
    requires WellFormed(g)
    requires 1 <= f.shotKind <= t.shotKinds
    modifies g`updatable, g`drawable, g`asteroids, g`shots, Objects(g.updatable)
    ensures snap == old(g.updatable) && before == old(States(g.updatable))
    ensures WellFormed(g)
    ensures lost <==> PlayerSprite(player) in old(g.updatable) && OutOfBounds(old(player.position))
    ensures NewShots(born, f) && forall x :: x in born ==> fresh(Obj(x))
    ensures !lost ==> Walked(snap, before, States(snap), |snap|, gone, PlayerSprite(player), f, t)
    ensures !lost ==> States(born) == Volley(snap, before, f, |snap|)
    ensures !lost ==> Grouped(Groups4(g), old(Groups4(g)), gone, born)
  {
    var sprites := g.updatable;
    snap := sprites;
    born := [];
    lost := false;
    gone := {};
    before := States(snap);
    ghost var start := Groups4(g);
    GroupedAtStart(start);
    lost, born, gone := Pass(g, player, f, t, start, before);
  }

  /** The loop of `UpdatePass`: visits the copied group `start.0`, sprite by sprite. */
  method Pass(g: Groups, player: Player.Player, f: Frame, t: Tuning, ghost start: Membership, ghost before: seq<SpriteState>)
    returns (lost: bool, born: seq<Sprite>, ghost gone: set<Sprite>)
    requires 1 <= f.shotKind <= t.shotKinds
    requires g.updatable == start.0 && NoDup(start.0)
    requires WellFormed(g) && Passed(start, before, States(start.0), 0, {}, [], States([]), Groups4(g), PlayerSprite(player), f, t)
    modifies g`updatable, g`drawable, g`asteroids, g`shots, Objects(start.0)
    ensures WellFormed(g)
    ensures lost <==> exists j :: 0 <= j < |start.0| && start.0[j] == PlayerSprite(player) && OutOfBounds(PositionOf(before[j]))
    ensures NewShots(born, f) && forall x :: x in born ==> fresh(Obj(x))
    ensures !lost ==> WellFormed(g) && Passed(start, before, States(start.0), |start.0|, gone, born, States(born), Groups4(g), PlayerSprite(player), f, t)
  {
    var sprites := g.updatable;
    born := [];
    lost := false;
    gone := {};
    ghost var cur, fired, groups := States(start.0), States(born), Groups4(g);
    var i := 0;
    while i < |sprites|
      invariant 0 <= i <= |sprites| && sprites == start.0
      invariant WellFormed(g) && cur == States(start.0) && fired == States(born) && groups == Groups4(g)
      invariant Passed(start, before, cur, i, gone, born, fired, groups, PlayerSprite(player), f, t)
      invariant forall x :: x in born ==> fresh(Obj(x))
      invariant forall j :: 0 <= j < i ==> !(sprites[j] == PlayerSprite(player) && OutOfBounds(PositionOf(before[j])))
    {
      var b;
      ghost var out;
      UnvisitedNotBorn(start, groups, gone, born, sprites[i]);
      lost, b, out := Advance(g, player, f, t, start, before, i, sprites[i], gone, born);
      if lost {
        return;
      }
      gone := if out then gone + {sprites[i]} else gone;
      born := born + b;
      cur, fired, groups := States(start.0), States(born), Groups4(g);
      i := i + 1;
    }
  }

  /**
   * The pass has visited the first i sprites of the copied group `start.0`,
   * as `Walked` says, `cur` being their states now; the groups are
   * `Grouped` from `start`; and the shots fired so far, `born` with states
   * `fired`, are the ones those visits fire.
   */
  ghost predicate Passed(start: Membership, before: seq<SpriteState>, cur: seq<SpriteState>, i: int, gone: set<Sprite>,
                         born: seq<Sprite>, fired: seq<SpriteState>, groups: Membership, ship: Sprite, f: Frame, t: Tuning)
  {
    && Walked(start.0, before, cur, i, gone, ship, f, t)
    && Grouped(groups, start, gone, born)
    && fired == Volley(start.0, before, f, i)
    && NewShots(born, f)
  }

  /** The pass so far, followed by the visit of `start.0[i]`, is the pass up to i + 1. */
  lemma PassStep(start: Membership, before: seq<SpriteState>, pre: seq<SpriteState>, post: seq<SpriteState>,
                 i: int, gone: set<Sprite>, born: seq<Sprite>, fired: seq<SpriteState>, mid: Membership, cur: Membership,
                 u: Sprite, out: bool, b: seq<Sprite>, shots: seq<SpriteState>, ship: Sprite, f: Frame, t: Tuning)
    requires Passed(start, before, pre, i, gone, born, fired, mid, ship, f, t)
    requires NoDup(start.0) && 0 <= i < |start.0| && u == start.0[i] && u !in born
    requires |post| == |start.0| && forall j :: 0 <= j < |start.0| && j != i ==> post[j] == pre[j]
    requires Visited(pre[i], post[i], f, t) && (out <==> Gone(pre[i], post[i], t))
    requires u == ship ==> !OutOfBounds(PositionOf(pre[i]))
    requires shots == Launched(pre[i], f, Radius(u)) && NewShots(b, f)
    requires Stepped4(mid, cur, u, out, b)
    ensures Passed(start, before, post, i + 1, if out then gone + {u} else gone, born + b, fired + shots, cur, ship, f, t)
  {
    WalkStep(start.0, before, pre, post, i, gone, out, ship, f, t);
    RegroupStep(start, mid, cur, gone, born, u, out, b);
  }

  /**
   * One turn of the pass's loop, on the sprite `start.0[i]`, and what it
   * adds to the pass so far.
   */
  method Advance(g: Groups, player: Player.Player, f: Frame, t: Tuning, ghost start: Membership,
                 ghost before: seq<SpriteState>, i: int, u: Sprite, ghost gone: set<Sprite>, ghost born: seq<Sprite>)
    returns (lost: bool, b: seq<Sprite>, ghost out: bool)
    requires 1 <= f.shotKind <= t.shotKinds
    requires NoDup(start.0) && 0 <= i < |start.0| && u == start.0[i] && u !in born
    requires WellFormed(g) && Passed(start, before, States(start.0), i, gone, born, States(born), Groups4(g), PlayerSprite(player), f, t)
    modifies g`updatable, g`drawable, g`asteroids, g`shots, Obj(u)
    ensures WellFormed(g)
    ensures lost <==> u == PlayerSprite(player) && OutOfBounds(PositionOf(before[i]))
    ensures forall x :: x in b ==> fresh(Obj(x))
    ensures !lost ==>
      WellFormed(g) && Passed(start, before, States(start.0), i + 1, if out then gone + {u} else gone, born + b, States(born + b), Groups4(g), PlayerSprite(player), f, t)
  {
    DropMembers(start.0, gone);
    assert u in g.updatable;
    ghost var pre := States(start.0);
    ghost var mid := Groups4(g);
    ghost var fired := States(born);
    lost, b, out := Visit(g, u, player, f, t);
    if lost {
      return;
    }
    ghost var post := States(start.0);
    assert forall j :: 0 <= j < |start.0| && j != i ==> post[j] == pre[j];
    assert States(born) == fired;
    PassStep(start, before, pre, post, i, gone, born, fired, mid, Groups4(g), u, out, b, States(b), PlayerSprite(player), f, t);
    StatesAppend(born, b);
  }

  /** A sprite of the pass not yet visited is not among the shots fired so far. */
  lemma UnvisitedNotBorn(start: Membership, groups: Membership, gone: set<Sprite>, born: seq<Sprite>, u: Sprite)
    requires NoDup(groups.0) && Grouped(groups, start, gone, born) && u in start.0 && u !in gone
    ensures u !in born
  {
    var kept := Drop(start.0, gone);
    DropMembers(start.0, gone);
    var k :| 0 <= k < |kept| && kept[k] == u;
    assert groups.0[k] == u;
    forall m | 0 <= m < |born|
      ensures born[m] != u
    {
      assert groups.0[|kept| + m] == born[m];
    }
  }

  /** The states of two sequences of sprites, one after the other. */
  lemma StatesAppend(a: seq<Sprite>, b: seq<Sprite>)
    ensures States(a + b) == States(a) + States(b)
  {
  }
}
