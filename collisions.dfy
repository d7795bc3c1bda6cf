/**
 * The two collision phases of a frame of the endless game: whether an
 * asteroid touches the ship, and which shots destroy which asteroids.
 *
 * The shot phase is `for a in asteroids: for s in shots: if a.collides_with(s):
 * ... break`.  Both loops run over copies of the groups taken when the loop
 * starts (iterating a pygame group iterates a list of its sprites), the inner
 * one afresh for every asteroid.  Nothing moves during the phase, so it is
 * specified by `Duel`, a function on the sprites' circles: each asteroid in
 * turn takes the first remaining shot it touches, if any.
 */
module Collisions {
  import opened Vector2
  import opened Constants
  import opened CircleShape
  import opened Sprites
  import opened Simulation
  import Asteroid
  import Explosion
  import Player

  /** A sprite's circle, frozen: the sprite, its centre and its radius. */
  datatype Body = Body(id: Sprite, center: Vec, radius: real)

  function BodyOf(x: Sprite): Body
    reads Obj(x)
  {
    Body(x, Position(x), Radius(x))
  }

  function Bodies(s: seq<Sprite>): (r: seq<Body>)
    reads Objects(s)
    ensures |r| == |s| && forall j :: 0 <= j < |s| ==> r[j] == BodyOf(s[j])
  {
    seq(|s|, j requires 0 <= j < |s| reads Objects(s) => BodyOf(s[j]))
  }

  /** `collides_with` on two circles. */
  predicate Touch(a: Body, b: Body) {
    Collides(a.center, a.radius, b.center, b.radius)
  }

  datatype Option<T> = None | Some(value: T)

  /** The index of the first circle of `ss` that `a` touches, or -1. */
  function FirstHit(a: Body, ss: seq<Body>): (k: int)
    ensures -1 <= k < |ss|
    ensures 0 <= k ==> Touch(a, ss[k]) && forall m :: 0 <= m < k ==> !Touch(a, ss[m])
    ensures k < 0 ==> forall m :: 0 <= m < |ss| ==> !Touch(a, ss[m])
  {
    if ss == [] then -1
    else if Touch(a, ss[0]) then 0
    else
      var k := FirstHit(a, ss[1..]);
      if k < 0 then -1 else k + 1
  }

  /**
   * The shot phase on circles: for each asteroid in order, the shot it
   * destroys (the first of the remaining shots it touches) or None.  A
   * destroyed shot is no longer there for the asteroids after it.
   */
  function Duel(rocks: seq<Body>, shots: seq<Body>): (r: seq<Option<Body>>)
    ensures |r| == |rocks|
  {
    if rocks == [] then []
    else
      var k := FirstHit(rocks[0], shots);
      if k < 0 then [None] + Duel(rocks[1..], shots)
      else [Some(shots[k])] + Duel(rocks[1..], Without(shots, shots[k]))
  }

  /** The shots left after the phase: some of the original ones. */
  function Survivors(rocks: seq<Body>, shots: seq<Body>): (r: seq<Body>)
    ensures forall b :: b in r ==> b in shots
  {
    if rocks == [] then shots
    else
      var k := FirstHit(rocks[0], shots);
      if k < 0 then Survivors(rocks[1..], shots)
      else Survivors(rocks[1..], Without(shots, shots[k]))
  }

  /** The number of hits. */
  function Count(r: seq<Option<Body>>): (n: nat)
    ensures n <= |r|
  {
    if r == [] then 0 else (if r[0].Some? then 1 else 0) + Count(r[1..])
  }

  /** The asteroids that were hit. */
  function HitIds(rocks: seq<Body>, r: seq<Option<Body>>): set<Sprite>
    requires |r| <= |rocks|
  {
    set j | 0 <= j < |r| && r[j].Some? :: rocks[j].id
  }

  /** The shots that were used up. */
  function UsedIds(r: seq<Option<Body>>): set<Sprite> {
    set j | 0 <= j < |r| && r[j].Some? :: r[j].value.id
  }

  /** Every hit is a real collision with one of the shots. */
  lemma {:induction false} DuelHits(rocks: seq<Body>, shots: seq<Body>)
    ensures forall j :: 0 <= j < |rocks| && Duel(rocks, shots)[j].Some? ==>
      Touch(rocks[j], Duel(rocks, shots)[j].value) && Duel(rocks, shots)[j].value in shots
  {
    if rocks != [] {
      var k := FirstHit(rocks[0], shots);
      var rest := if k < 0 then shots else Without(shots, shots[k]);
      DuelHits(rocks[1..], rest);
      var r := Duel(rocks, shots);
      assert r == [if k < 0 then None else Some(shots[k])] + Duel(rocks[1..], rest);
      forall j | 1 <= j < |rocks| && r[j].Some?
        ensures Touch(rocks[j], r[j].value) && r[j].value in shots
      {
        assert r[j] == Duel(rocks[1..], rest)[j - 1];
        assert rocks[j] == rocks[1..][j - 1];
      }
    }
  }

  /** A missed asteroid touches none of the shots left at the end. */
  lemma {:induction false} DuelMisses(rocks: seq<Body>, shots: seq<Body>)
    ensures forall j, b :: 0 <= j < |rocks| && Duel(rocks, shots)[j].None? && b in Survivors(rocks, shots) ==>
      !Touch(rocks[j], b)
  {
    if rocks != [] {
      var k := FirstHit(rocks[0], shots);
      var rest := if k < 0 then shots else Without(shots, shots[k]);
      DuelMisses(rocks[1..], rest);
      var r := Duel(rocks, shots);
      assert r == [if k < 0 then None else Some(shots[k])] + Duel(rocks[1..], rest);
      forall j, b | 0 <= j < |rocks| && r[j].None? && b in Survivors(rocks, shots)
        ensures !Touch(rocks[j], b)
      {
        assert b in Survivors(rocks[1..], rest);
        if j == 0 {
          var m :| 0 <= m < |shots| && shots[m] == b;
        } else {
          assert r[j] == Duel(rocks[1..], rest)[j - 1];
          assert rocks[j] == rocks[1..][j - 1];
        }
      }
    }
  }

  /** Each hit uses up exactly one shot: hits and survivors add up to the shots. */
  lemma {:induction false} DuelConserves(rocks: seq<Body>, shots: seq<Body>)
    requires NoDup(shots)
    ensures Count(Duel(rocks, shots)) + |Survivors(rocks, shots)| == |shots|
    ensures NoDup(Survivors(rocks, shots))
  {
    if rocks != [] {
      var k := FirstHit(rocks[0], shots);
      if k < 0 {
        DuelConserves(rocks[1..], shots);
        assert Duel(rocks, shots)[1..] == Duel(rocks[1..], shots);
      } else {
        var rest := Without(shots, shots[k]);
        WithoutNoDup(shots, shots[k]);
        DuelConserves(rocks[1..], rest);
        assert Duel(rocks, shots)[1..] == Duel(rocks[1..], rest);
      }
    }
  }

  /** The score gained is at most the number of asteroids and at most the number of shots. */
  lemma DuelBounded(rocks: seq<Body>, shots: seq<Body>)
    requires NoDup(shots)
    ensures Count(Duel(rocks, shots)) <= |rocks| && Count(Duel(rocks, shots)) <= |shots|
  {
    DuelConserves(rocks, shots);
  }

  /**
   * `for a in self.asteroids: if a.collides_with(self.player)`: the ship is
   * hit exactly when some asteroid touches it.  Nothing changes.
   */
  method ShipHit(g: Groups, player: Player.Player) returns (hit: bool)
    ensures hit <==> exists j :: 0 <= j < |g.asteroids| && Hits(g.asteroids[j], PlayerSprite(player))
    ensures hit == Crash(Bodies(g.asteroids), BodyOf(PlayerSprite(player)))
  {
    var rocks := g.asteroids;
    var i := 0;
    while i < |rocks|
      invariant 0 <= i <= |rocks|
      invariant forall j :: 0 <= j < i ==> !Hits(rocks[j], PlayerSprite(player))
    {
      if Hits(rocks[i], PlayerSprite(player)) {
        return true;
      }
      i := i + 1;
    }
    return false;
  }

  /** Some asteroid's circle overlaps the ship's. */
  predicate Crash(rocks: seq<Body>, ship: Body) {
    exists j :: 0 <= j < |rocks| && Touch(rocks[j], ship)
  }

  /** `remove(x)` on sprites is `remove` of x's circle on their circles. */
  lemma {:induction false} BodiesWithout(s: seq<Sprite>, x: Sprite)
    ensures Bodies(Without(s, x)) == Without(Bodies(s), BodyOf(x))
  {
    if s != [] {
      var tail := Without(s[1..], x);
      BodiesWithout(s[1..], x);
      BodiesCons(s);
      if s[0] == x {
        assert Without(s, x) == tail;
      } else {
        assert Without(s, x) == [s[0]] + tail;
        BodiesCons([s[0]] + tail);
        assert ([s[0]] + tail)[1..] == tail;
      }
    }
  }

  /** Bodies of a non-empty sequence: the head's circle, then the tail's. */
  lemma BodiesCons(s: seq<Sprite>)
    requires s != []
    ensures Bodies(s) == [BodyOf(s[0])] + Bodies(s[1..])
  {
  }

  /**
   * What one hit does to the groups: the asteroid and the shot are removed,
   * then the children and the explosion are appended, in that order.
   */
  predicate Struck(pre: Membership, post: Membership, rock: Sprite, shot: Sprite,
                   children: seq<Sprite>, blast: seq<Sprite>)
  {
    && post.0 == Drop(pre.0, {rock, shot}) + children + blast
    && post.1 == Drop(pre.1, {rock, shot}) + children + blast
    && post.2 == Without(pre.2, rock) + children
    && post.3 == Without(pre.3, shot)
  }

  /**
   * The inner loop for asteroid `a`: the index of the first shot it touches,
   * or |shots| when there is none.  Nothing changes.
   */
  method FindShot(a: Sprite, shots: seq<Sprite>) returns (j: int)
    ensures j == (if FirstHit(BodyOf(a), Bodies(shots)) < 0 then |shots| else FirstHit(BodyOf(a), Bodies(shots)))
  {
    j := 0;
    while j < |shots| && !Hits(a, shots[j])
      invariant 0 <= j <= |shots|
      invariant forall m :: 0 <= m < j ==> !Hits(a, shots[m])
    {
      j := j + 1;
    }
    ghost var k := FirstHit(BodyOf(a), Bodies(shots));
    assert forall m :: 0 <= m < |shots| ==> (Hits(a, shots[m]) <==> Touch(BodyOf(a), Bodies(shots)[m]));
  }

  /**
   * Asteroid `a` hit by `shot`: kill the shot, split the asteroid and explode
   * it.  endless mode kills the shot first (`killFirst`), the older loop last;
   * the groups end up the same either way.
   */
  method Destroy(g: Groups, a: Sprite, shot: Sprite, turn: Turn, killFirst: bool, ghost rest: seq<Sprite>)
    returns (children: seq<Sprite>, blast: seq<Sprite>)
    requires WellFormed(g) && a.AsteroidSprite? && shot.ShotSprite?
    requires Asteroid.SplitTurnInRange(turn)
    modifies g`updatable, g`drawable, g`asteroids, g`shots
    ensures WellFormed(g)
    ensures Struck(old(Groups4(g)), Groups4(g), a, shot, children, blast)
    ensures Children(a, children, turn)
    ensures |blast| == 1 && blast[0].ExplosionSprite?
    ensures StateOf(blast[0]) == BlastState(Position(a), Explosion.START) && Radius(blast[0]) == Radius(a)
    ensures forall x :: x in children + blast ==> fresh(Obj(x))
    ensures Looks(children + blast) == Remains(old(LookOf(a)), turn)
    ensures BodyOf(a) == old(BodyOf(a)) && Bodies(rest) == old(Bodies(rest))
  {
    NotASprite(g, rest);
    NotASprite(g, [a]);
    if killFirst {
      children, blast := DestroyShotFirst(g, a, shot, turn);
    } else {
      children, blast := DestroyShotLast(g, a, shot, turn);
    }
    assert Bodies(rest) == old(Bodies(rest));
    LeftBehind(a, children, blast, turn);
  }

  /** `s.kill(); a.split(); a.explode()`, as in endless mode. */
  method DestroyShotFirst(g: Groups, a: Sprite, shot: Sprite, turn: Turn)
    returns (children: seq<Sprite>, blast: seq<Sprite>)
    requires WellFormed(g) && a.AsteroidSprite? && shot.ShotSprite?
    requires Asteroid.SplitTurnInRange(turn)
    modifies g`updatable, g`drawable, g`asteroids, g`shots
    ensures WellFormed(g)
    ensures Struck(old(Groups4(g)), Groups4(g), a, shot, children, blast)
    ensures Children(a, children, turn)
    ensures |blast| == 1 && blast[0].ExplosionSprite?
    ensures StateOf(blast[0]) == BlastState(Position(a), Explosion.START) && Radius(blast[0]) == Radius(a)
    ensures forall x :: x in children + blast ==> fresh(Obj(x))
  {
    ghost var g0 := Groups4(g);
    KillShot(g, shot);
    ghost var g1 := Groups4(g);
    children := Break(g, a, turn);
    ghost var g2 := Groups4(g);
    var e := Blast(g, a);
    blast := [e];
    ComposeShotFirst(g0, g1, g2, Groups4(g), a, shot, children, e);
  }

  /** `a.split(); a.explode(); s.kill()`, as in the older loop. */
  method DestroyShotLast(g: Groups, a: Sprite, shot: Sprite, turn: Turn)
    returns (children: seq<Sprite>, blast: seq<Sprite>)
    requires WellFormed(g) && a.AsteroidSprite? && shot.ShotSprite?
    requires Asteroid.SplitTurnInRange(turn)
    modifies g`updatable, g`drawable, g`asteroids, g`shots
    ensures WellFormed(g)
    ensures Struck(old(Groups4(g)), Groups4(g), a, shot, children, blast)
    ensures Children(a, children, turn)
    ensures |blast| == 1 && blast[0].ExplosionSprite?
    ensures StateOf(blast[0]) == BlastState(Position(a), Explosion.START) && Radius(blast[0]) == Radius(a)
    ensures forall x :: x in children + blast ==> fresh(Obj(x))
  {
    ghost var g0 := Groups4(g);
    children := Break(g, a, turn);
    ghost var g1 := Groups4(g);
    var e := Blast(g, a);
    ghost var g2 := Groups4(g);
    KillShot(g, shot);
    blast := [e];
    assert shot != e && shot !in children;
    ComposeShotLast(g0, g1, g2, Groups4(g), a, shot, children, e);
  }

  /** `s.kill()` for a shot, on the members of the groups. */
  method KillShot(g: Groups, shot: Sprite)
    requires WellFormed(g) && shot.ShotSprite?
    modifies g`updatable, g`drawable, g`asteroids, g`shots
    ensures WellFormed(g)
    ensures ShotKilled(old(Groups4(g)), Groups4(g), shot)
  {
    assert shot !in g.asteroids;
    Kill(g, shot);
  }

  /** `a.split()`, on the members of the groups. */
  method Break(g: Groups, a: Sprite, turn: Turn) returns (children: seq<Sprite>)
    requires WellFormed(g) && a.AsteroidSprite?
    requires Asteroid.SplitTurnInRange(turn)
    modifies g`updatable, g`drawable, g`asteroids, g`shots
    ensures WellFormed(g)
    ensures Broken(old(Groups4(g)), Groups4(g), a, children)
    ensures forall c :: c in children ==> fresh(Obj(c))
    ensures Children(a, children, turn)
  {
    children := SplitAsteroid(g, a, turn);
  }

  /** `a.explode()`, on the members of the groups. */
  method Blast(g: Groups, a: Sprite) returns (e: Sprite)
    requires WellFormed(g) && a.AsteroidSprite?
    modifies g`updatable, g`drawable, g`asteroids, g`shots
    ensures WellFormed(g)
    ensures Blasted(old(Groups4(g)), Groups4(g), e)
    ensures e.ExplosionSprite? && fresh(Obj(e))
    ensures StateOf(e) == BlastState(Position(a), Explosion.START) && Radius(e) == Radius(a)
  {
    e := ExplodeAsteroid(g, a);
  }

  /** The groups after `kill()` of a shot, which is in no asteroid group. */
  predicate ShotKilled(pre: Membership, post: Membership, shot: Sprite) {
    post == (Without(pre.0, shot), Without(pre.1, shot), pre.2, Without(pre.3, shot))
  }

  /** The groups after `split()` of an asteroid: it leaves, its children join. */
  predicate Broken(pre: Membership, post: Membership, a: Sprite, children: seq<Sprite>) {
    post == (Without(pre.0, a) + children, Without(pre.1, a) + children, Without(pre.2, a) + children, pre.3)
  }

  /** The groups after `explode()`: the explosion joins the drawn and updated sprites. */
  predicate Blasted(pre: Membership, post: Membership, e: Sprite) {
    post == (pre.0 + [e], pre.1 + [e], pre.2, pre.3)
  }

  /** Removing one sprite and then another is removing both. */
  lemma WithoutTwice(s: seq<Sprite>, x: Sprite, y: Sprite)
    ensures Without(Without(s, x), y) == Drop(s, {y, x})
  {
    WithoutIsDrop(s, x);
    WithoutIsDrop(Drop(s, {x}), y);
    DropDrop(s, {x}, {y});
    assert {x} + {y} == {y, x};
  }

  /** Kill, split, explode: one hit. */
  lemma ComposeShotFirst(g0: Membership, g1: Membership, g2: Membership, g3: Membership,
                         a: Sprite, shot: Sprite, children: seq<Sprite>, e: Sprite)
    requires ShotKilled(g0, g1, shot) && Broken(g1, g2, a, children) && Blasted(g2, g3, e)
    ensures Struck(g0, g3, a, shot, children, [e])
  {
    WithoutTwice(g0.0, shot, a);
    WithoutTwice(g0.1, shot, a);
  }

  /** Split, explode, kill: the same hit. */
  lemma ComposeShotLast(g0: Membership, g1: Membership, g2: Membership, g3: Membership,
                        a: Sprite, shot: Sprite, children: seq<Sprite>, e: Sprite)
    requires Broken(g0, g1, a, children) && Blasted(g1, g2, e) && ShotKilled(g2, g3, shot)
    requires shot != e && shot !in children
    ensures Struck(g0, g3, a, shot, children, [e])
  {
    ShotLastOne(g0.0, a, shot, children, e);
    ShotLastOne(g0.1, a, shot, children, e);
  }

  /** One drawn or updated group of `ComposeShotLast`. */
  lemma ShotLastOne(s: seq<Sprite>, a: Sprite, shot: Sprite, children: seq<Sprite>, e: Sprite)
    requires shot != e && shot !in children
    ensures Without((Without(s, a) + children) + [e], shot) == Drop(s, {a, shot}) + children + [e]
  {
    WithoutIsDrop(s, a);
    AppendAssoc(Drop(s, {a}), children, [e]);
    DropMore(s, {a}, children + [e], shot);
    assert {a} + {shot} == {a, shot};
    AppendAssoc(Drop(s, {a, shot}), children, [e]);
  }

  /**
   * One turn of the outer loop, for asteroid `a`: the first shot it touches
   * is destroyed together with it, or nothing happens.  `hit` and, on a hit,
   * the shot are what `FirstHit` picks on the circles.
   */
  method Strike(g: Groups, a: Sprite, turn: Turn, killFirst: bool)
    returns (hit: bool, shot: Sprite, children: seq<Sprite>, blast: seq<Sprite>)
    requires WellFormed(g) && a.AsteroidSprite?
    requires Asteroid.SplitTurnInRange(turn)
    modifies g`updatable, g`drawable, g`asteroids, g`shots
    ensures WellFormed(g)
    ensures Turned(BodyOf(a), old(Bodies(g.shots)), Bodies(g.shots), old(Groups4(g)), Groups4(g),
                   hit, shot, children, blast)
    ensures hit ==> Children(a, children, turn)
    ensures hit ==> Looks(children + blast) == Remains(old(LookOf(a)), turn)
    ensures forall x :: x in children + blast ==> fresh(Obj(x))
  {
    var shots := g.shots;
    ghost var rock, before := BodyOf(a), Bodies(shots);
    NotASprite(g, shots);
    var j := FindShot(a, shots);
    assert BodyOf(a) == rock && Bodies(shots) == before;
    shot := a;
    if j == |shots| {
      TurnedMiss(rock, before, Groups4(g), shot);
      return false, shot, [], [];
    }
    hit := true;
    shot := shots[j];
    children, blast := StrikeHit(g, a, shots, j, turn, killFirst);
  }

  /** A turn whose asteroid touched no shot. */
  lemma TurnedMiss(rock: Body, before: seq<Body>, pre: Membership, shot: Sprite)
    requires FirstHit(rock, before) < 0
    ensures Turned(rock, before, before, pre, pre, false, shot, [], [])
  {
  }

  /** The hit case of `Strike`: asteroid `a` takes the j-th shot, its first. */
  method StrikeHit(g: Groups, a: Sprite, shots: seq<Sprite>, j: int, turn: Turn, killFirst: bool)
    returns (children: seq<Sprite>, blast: seq<Sprite>)
    requires WellFormed(g) && a.AsteroidSprite? && shots == g.shots && 0 <= j < |shots|
    requires FirstHit(BodyOf(a), Bodies(shots)) == j
    requires Asteroid.SplitTurnInRange(turn)
    modifies g`updatable, g`drawable, g`asteroids, g`shots
    ensures WellFormed(g)
    ensures Turned(BodyOf(a), old(Bodies(shots)), Bodies(g.shots), old(Groups4(g)), Groups4(g),
                   true, shots[j], children, blast)
    ensures Children(a, children, turn)
    ensures Looks(children + blast) == Remains(old(LookOf(a)), turn)
    ensures forall x :: x in children + blast ==> fresh(Obj(x))
  {
    ghost var pre := Groups4(g);
    ghost var rock := BodyOf(a);
    ghost var before := Bodies(shots);
    var shot := shots[j];
    var rest := Without(shots, shot);
    ghost var after := Bodies(rest);
    assert before[j] == BodyOf(shot);
    BodiesWithout(shots, shot);
    children, blast := Destroy(g, a, shot, turn, killFirst, rest);
    TurnedHit(rock, before, after, pre, Groups4(g), shot, children, blast, j);
  }

  /** A turn whose asteroid took the j-th shot. */
  lemma TurnedHit(rock: Body, before: seq<Body>, after: seq<Body>, pre: Membership, post: Membership,
                  shot: Sprite, children: seq<Sprite>, blast: seq<Sprite>, j: int)
    requires 0 <= j < |before| && FirstHit(rock, before) == j
    requires shot == before[j].id && shot in pre.3 && after == Without(before, before[j])
    requires Struck(pre, post, rock.id, shot, children, blast) && |blast| == 1
    ensures Turned(rock, before, after, pre, post, true, shot, children, blast)
  {
  }

  /**
   * One turn of the outer loop on circles: `rock` takes the first of the
   * shots `before` it touches, which leaves the shots `after`, or nothing
   * happens.
   */
  predicate Turned(rock: Body, before: seq<Body>, after: seq<Body>, pre: Membership, post: Membership,
                   hit: bool, shot: Sprite, children: seq<Sprite>, blast: seq<Sprite>)
  {
    var k := FirstHit(rock, before);
    && (hit <==> k >= 0)
    && (!hit ==> after == before && post == pre && children == [] && blast == [])
    && (hit ==>
      && shot == before[k].id && shot in pre.3 && after == Without(before, before[k])
      && Struck(pre, post, rock.id, shot, children, blast) && |blast| == 1)
  }

  /**
   * The groups part way through the shot phase: the hit asteroids and the
   * used shots have been removed, the others keep their order, and after
   * them come the new sprites in the order they were made: `kids` the
   * children in the asteroid group, `born` the children and explosions in
   * the drawn and updated groups.
   */
  predicate Scored(cur: Membership, start: Membership, hit: set<Sprite>, used: set<Sprite>,
                   kids: seq<Sprite>, born: seq<Sprite>)
  {
    && cur.0 == Drop(start.0, hit + used) + born
    && cur.1 == Drop(start.1, hit + used) + born
    && cur.2 == Drop(start.2, hit) + kids
    && cur.3 == Drop(start.3, used)
  }

  /** Nothing has been hit yet. */
  lemma ScoredAtStart(start: Membership)
    ensures Scored(start, start, {}, {}, [], [])
  {
    var none: set<Sprite> := {};
    assert none + none == none;
    DropNothing(start.0, {});
    DropNothing(start.1, {});
    DropNothing(start.2, {});
    DropNothing(start.3, {});
  }

  /** The shot phase before the first asteroid. */
  lemma PhaseStart(rocks0: seq<Body>, shots0: seq<Body>, start: Membership)
    ensures Phase(rocks0, shots0, 0, start, start, shots0, [], 0, [], [], [])
  {
    ScoredAtStart(start);
    assert rocks0[0..] == rocks0;
    assert HitIds(rocks0, []) == {} && UsedIds([]) == {};
  }

  /**
   * A drawn or updated group after one more hit: removing two old sprites
   * leaves the new ones after the others, and the hit's new sprites follow.
   */
  lemma DropPair(s: seq<Sprite>, out: set<Sprite>, born: seq<Sprite>, rock: Sprite, shot: Sprite,
                 pre: seq<Sprite>, post: seq<Sprite>, added: seq<Sprite>)
    requires rock !in born && shot !in born
    requires pre == Drop(s, out) + born && post == Drop(pre, {rock, shot}) + added
    ensures post == Drop(s, out + {rock, shot}) + (born + added)
  {
    var pair := {rock, shot};
    DropAppend(Drop(s, out), born, pair);
    DropDrop(s, out, pair);
    DropNothing(born, pair);
    AppendAssoc(Drop(s, out + pair), born, added);
  }

  /** The asteroid group after one more hit: the asteroid leaves, its children follow. */
  lemma DropRock(s: seq<Sprite>, out: set<Sprite>, kids: seq<Sprite>, rock: Sprite,
                 pre: seq<Sprite>, post: seq<Sprite>, children: seq<Sprite>)
    requires rock !in kids
    requires pre == Drop(s, out) + kids && post == Without(pre, rock) + children
    ensures post == Drop(s, out + {rock}) + (kids + children)
  {
    DropMore(s, out, kids, rock);
    AppendAssoc(Drop(s, out + {rock}), kids, children);
  }

  /** The shot group after one more hit: the shot leaves. */
  lemma DropShot(s: seq<Sprite>, out: set<Sprite>, shot: Sprite, pre: seq<Sprite>, post: seq<Sprite>)
    requires pre == Drop(s, out) && post == Without(pre, shot)
    ensures post == Drop(s, out + {shot})
  {
    WithoutIsDrop(pre, shot);
    DropDrop(s, out, {shot});
  }

  /** One more hit, on top of the earlier ones. */
  lemma ScoredStep(start: Membership, pre: Membership, post: Membership, hit: set<Sprite>, used: set<Sprite>,
                   kids: seq<Sprite>, born: seq<Sprite>, rock: Sprite, shot: Sprite,
                   children: seq<Sprite>, blast: seq<Sprite>)
    requires Scored(pre, start, hit, used, kids, born)
    requires Struck(pre, post, rock, shot, children, blast)
    requires rock !in kids && rock !in born && shot !in born
    ensures Scored(post, start, hit + {rock}, used + {shot}, kids + children, born + children + blast)
  {
    DropPair(start.0, hit + used, born, rock, shot, pre.0, post.0, children + blast);
    DropPair(start.1, hit + used, born, rock, shot, pre.1, post.1, children + blast);
    assert hit + used + {rock, shot} == (hit + {rock}) + (used + {shot});
    assert born + (children + blast) == born + children + blast;
    DropRock(start.2, hit, kids, rock, pre.2, post.2, children);
    DropShot(start.3, used, shot, pre.3, post.3);
  }

  /** The outer loop's bookkeeping for asteroid i, on circles. */
  lemma DuelStep(rocks: seq<Body>, i: int, rest: seq<Body>, done: seq<Option<Body>>)
    requires 0 <= i < |rocks| && |done| == i
    ensures var k := FirstHit(rocks[i], rest);
      var res := if k < 0 then None else Some(rest[k]);
      var next := if k < 0 then rest else Without(rest, rest[k]);
      && Duel(rocks[i..], rest) == [res] + Duel(rocks[i + 1..], next)
      && Survivors(rocks[i..], rest) == Survivors(rocks[i + 1..], next)
      && Count(done + [res]) == Count(done) + (if k < 0 then 0 else 1)
      && HitIds(rocks, done + [res]) == HitIds(rocks, done) + (if k < 0 then {} else {rocks[i].id})
      && UsedIds(done + [res]) == UsedIds(done) + (if k < 0 then {} else {rest[k].id})
  {
    assert rocks[i..][0] == rocks[i] && rocks[i..][1..] == rocks[i + 1..];
    var k := FirstHit(rocks[i], rest);
    var res := if k < 0 then None else Some(rest[k]);
    CountAppend(done, res);
    IdsAppend(rocks, done, res);
  }

  lemma IdsAppend(rocks: seq<Body>, done: seq<Option<Body>>, res: Option<Body>)
    requires |done| < |rocks|
    ensures HitIds(rocks, done + [res]) == HitIds(rocks, done) + (if res.None? then {} else {rocks[|done|].id})
    ensures UsedIds(done + [res]) == UsedIds(done) + (if res.None? then {} else {res.value.id})
  {
    var r := done + [res];
    assert forall j :: 0 <= j < |done| ==> r[j] == done[j];
  }

  lemma {:induction false} CountAppend(r: seq<Option<Body>>, x: Option<Body>)
    ensures Count(r + [x]) == Count(r) + (if x.Some? then 1 else 0)
  {
    if r != [] {
      assert (r + [x])[1..] == r[1..] + [x];
      CountAppend(r[1..], x);
    }
  }

  /** Distinct sprites have distinct circles. */
  lemma BodiesNoDup(s: seq<Sprite>)
    requires NoDup(s)
    ensures NoDup(Bodies(s))
  {
  }

  /**
   * `for a in self.asteroids: for s in self.shots: if a.collides_with(s):
   * ... self.score += 1; break`.  On the circles the groups had when the
   * phase began, the hits are `Duel`'s: the score grows by their number,
   * which is at most the number of asteroids and at most the number of
   * shots; the shots left are `Survivors`; the hit asteroids and the used
   * shots have left the groups and their children and explosions (one per
   * hit) have joined, in the order they were made (`born`).  `turn(i)` is
   * the angle drawn if the i-th asteroid splits.
   */
  method ShotHits(g: Groups, score: int, turn: nat -> Turn, killFirst: bool)
    returns (newScore: int, kids: seq<Sprite>, blasts: seq<Sprite>,
             ghost rocks0: seq<Body>, ghost shots0: seq<Body>, ghost results: seq<Option<Body>>,
             ghost born: seq<Sprite>)
    requires WellFormed(g)
    requires forall n :: Asteroid.SplitTurnInRange(turn(n))
    modifies g`updatable, g`drawable, g`asteroids, g`shots
    ensures rocks0 == old(Bodies(g.asteroids)) && shots0 == old(Bodies(g.shots))
    ensures results == Duel(rocks0, shots0)
    ensures WellFormed(g)
    ensures newScore == score + Count(results)
    ensures score <= newScore <= score + |rocks0| && newScore <= score + |shots0|
    ensures Bodies(g.shots) == Survivors(rocks0, shots0)
    ensures Scored(Groups4(g), old(Groups4(g)), HitIds(rocks0, results), UsedIds(results), kids, born)
    ensures |blasts| == Count(results)
    ensures forall x :: x in born <==> x in kids || x in blasts
    ensures Looks(born) == Debris(old(Looks(g.asteroids)), results, turn)
    ensures forall x :: x in born ==> fresh(Obj(x))
  {
    var rocks := g.asteroids;
    NotASprite(g, rocks);
    BodiesNoDup(g.shots);
    rocks0 := Bodies(rocks);
    shots0 := Bodies(g.shots);
    ghost var start := Groups4(g);
    PhaseStart(rocks0, shots0, start);
    var hits;
    ghost var cur, live, made;
    hits, kids, blasts, results, born, cur, live, made :=
      EveryAsteroid(g, rocks, turn, killFirst, rocks0, Looks(rocks), shots0, start);
    newScore := score + hits;
    PhaseDone(rocks0, shots0, start, cur, live, results, hits, kids, blasts, born);
  }

  /** The outer loop of the shot phase: each asteroid in turn meets the shots left. */
  method EveryAsteroid(g: Groups, rocks: seq<Sprite>, turn: nat -> Turn, killFirst: bool,
                       ghost rocks0: seq<Body>, ghost looks0: seq<Look>, ghost shots0: seq<Body>, ghost start: Membership)
    returns (hits: int, kids: seq<Sprite>, blasts: seq<Sprite>, ghost results: seq<Option<Body>>,
             ghost born: seq<Sprite>, ghost cur: Membership, ghost live: seq<Body>, ghost made: seq<Look>)
    requires AllOfKind(rocks, AsteroidKind) && g !in Objects(rocks) && start.2 == rocks
    requires Held(g, rocks, rocks0, looks0, start, shots0, [], [])
    requires Progress(rocks0, looks0, shots0, start, turn, 0, start, shots0, [], 0, [], [], [], [])
    requires forall n :: Asteroid.SplitTurnInRange(turn(n))
    modifies g`updatable, g`drawable, g`asteroids, g`shots
    ensures Held(g, rocks, rocks0, looks0, cur, live, born, made)
    ensures Progress(rocks0, looks0, shots0, start, turn, |rocks|, cur, live, results, hits, kids, blasts, born, made)
    ensures forall x :: x in born ==> fresh(Obj(x))
  {
    hits, kids, blasts, results, born := 0, [], [], [], [];
    cur, live, made := start, shots0, [];
    var i := 0;
    while i < |rocks|
      invariant 0 <= i <= |rocks|
      invariant Held(g, rocks, rocks0, looks0, cur, live, born, made)
      invariant Progress(rocks0, looks0, shots0, start, turn, i, cur, live, results, hits, kids, blasts, born, made)
      invariant forall x :: x in born ==> fresh(Obj(x))
    {
      hits, kids, blasts, results, born, cur, live, made :=
        ShotTurn(g, rocks, i, turn, killFirst, rocks0, looks0, shots0, start, hits, kids, blasts, results, born,
                 cur, live, made);
      i := i + 1;
    }
  }

  /**
   * The heap side of the shot phase: the groups are well formed and are
   * `cur`, the shots show `live`, the snapshot's asteroids still show what
   * they showed at the start, and the sprites made so far show `made`.
   */
  ghost predicate Held(g: Groups, rocks: seq<Sprite>, rocks0: seq<Body>, looks0: seq<Look>, cur: Membership,
                       live: seq<Body>, born: seq<Sprite>, made: seq<Look>)
    reads g, Objects(rocks), Objects(born), Objects(g.shots)
  {
    && WellFormed(g) && rocks0 == Bodies(rocks) && looks0 == Looks(rocks)
    && cur == Groups4(g) && live == Bodies(g.shots) && made == Looks(born)
  }

  /**
   * The value side of the shot phase after i asteroids: `Phase`, the
   * sprites made so far, and what they show, the `Debris` of the
   * asteroids hit so far.
   */
  ghost predicate Progress(rocks0: seq<Body>, looks0: seq<Look>, shots0: seq<Body>, start: Membership,
                           turn: nat -> Turn, i: int, cur: Membership, live: seq<Body>, results: seq<Option<Body>>,
                           gain: int, kids: seq<Sprite>, blasts: seq<Sprite>, born: seq<Sprite>, made: seq<Look>)
  {
    && Phase(rocks0, shots0, i, start, cur, live, results, gain, kids, blasts, born)
    && Hatched(born, kids, blasts, start)
    && |looks0| == |rocks0| && made == Debris(looks0, results, turn)
  }

  /** The shot phase after the last asteroid. */
  lemma PhaseDone(rocks0: seq<Body>, shots0: seq<Body>, start: Membership, cur: Membership,
                  shots: seq<Body>, results: seq<Option<Body>>, gain: int, kids: seq<Sprite>, blasts: seq<Sprite>,
                  born: seq<Sprite>)
    requires Phase(rocks0, shots0, |rocks0|, start, cur, shots, results, gain, kids, blasts, born)
    requires NoDup(shots0)
    ensures results == Duel(rocks0, shots0) && shots == Survivors(rocks0, shots0)
    ensures gain == Count(results) && 0 <= gain <= |rocks0| && gain <= |shots0|
  {
    assert rocks0[|rocks0|..] == [];
    DuelBounded(rocks0, shots0);
  }

  /**
   * One turn of the outer loop, for the i-th asteroid of the snapshot, with
   * its bookkeeping: the phase so far extends by this asteroid's result.
   */
  method ShotTurn(g: Groups, rocks: seq<Sprite>, i: int, turn: nat -> Turn, killFirst: bool,
                  ghost rocks0: seq<Body>, ghost looks0: seq<Look>, ghost shots0: seq<Body>, ghost start: Membership,
                  hits: int, kids: seq<Sprite>, blasts: seq<Sprite>, ghost results: seq<Option<Body>>,
                  ghost born: seq<Sprite>, ghost cur: Membership, ghost live: seq<Body>, ghost made: seq<Look>)
    returns (hits': int, kids': seq<Sprite>, blasts': seq<Sprite>, ghost results': seq<Option<Body>>,
             ghost born': seq<Sprite>, ghost cur': Membership, ghost live': seq<Body>, ghost made': seq<Look>)
    requires AllOfKind(rocks, AsteroidKind) && 0 <= i < |rocks| && g !in Objects(rocks) && start.2 == rocks
    requires Held(g, rocks, rocks0, looks0, cur, live, born, made)
    requires Progress(rocks0, looks0, shots0, start, turn, i, cur, live, results, hits, kids, blasts, born, made)
    requires Asteroid.SplitTurnInRange(turn(i))
    modifies g`updatable, g`drawable, g`asteroids, g`shots
    ensures Held(g, rocks, rocks0, looks0, cur', live', born', made')
    ensures Progress(rocks0, looks0, shots0, start, turn, i + 1, cur', live', results', hits', kids', blasts', born', made')
    ensures forall x :: x in born' ==> x in born || fresh(Obj(x))
  {
    var hit, shot, children, blast;
    hit, shot, children, blast := StrikeNth(g, rocks, i, turn(i), killFirst, rocks0, looks0, cur, live, born, made);
    hits' := if hit then hits + 1 else hits;
    kids', blasts' := kids + children, blasts + blast;
    ghost var res := if hit then Some(live[FirstHit(rocks0[i], live)]) else None;
    ghost var left := Looks(children + blast);
    results', born' := results + [res], born + children + blast;
    cur', live', made' := Groups4(g), Bodies(g.shots), made + left;
    assert rocks0[i].id in start.2;
    NewAreNotOld(Members(start.2) + Members(start.3), children + blast);
    TurnStep(rocks0, looks0, shots0, i, turn, start, cur, cur', live, live', results, hits,
             kids, blasts, born, hit, shot, children, blast, res, made, left);
    LooksAppend(born, children + blast);
    AppendAssoc(born, children, blast);
  }

  /** `ShotTurn`'s bookkeeping, as values: the phase, the hatched sprites and the debris extend by one turn. */
  lemma TurnStep(rocks0: seq<Body>, looks0: seq<Look>, shots0: seq<Body>, i: int, turn: nat -> Turn,
                 start: Membership, pre: Membership, post: Membership, before: seq<Body>, after: seq<Body>,
                 results: seq<Option<Body>>, gain: int, kids: seq<Sprite>, blasts: seq<Sprite>, born: seq<Sprite>,
                 hit: bool, shot: Sprite, children: seq<Sprite>, blast: seq<Sprite>, res: Option<Body>,
                 made: seq<Look>, left: seq<Look>)
    requires Progress(rocks0, looks0, shots0, start, turn, i, pre, before, results, gain, kids, blasts, born, made)
    requires i < |rocks0| && rocks0[i].id in start.2
    requires Turned(rocks0[i], before, after, pre, post, hit, shot, children, blast)
    requires res == if hit then Some(before[FirstHit(rocks0[i], before)]) else None
    requires forall x :: x in Members(start.2) + Members(start.3) ==> x !in children + blast
    requires left == if hit then Remains(looks0[i], turn(i)) else []
    ensures Progress(rocks0, looks0, shots0, start, turn, i + 1, post, after, results + [res],
                     if hit then gain + 1 else gain, kids + children, blasts + blast, born + children + blast,
                     made + left)
  {
    forall x | x in children + blast
      ensures x !in start.2 && x !in start.3
    {
      assert x !in Members(start.2) + Members(start.3);
    }
    PhaseStep(rocks0, shots0, i, start, pre, post, before, after, results, gain,
              kids, blasts, born, hit, shot, children, blast, res);
    DebrisAppend(looks0, results, res, turn, made, left, hit);
  }

  /** `Strike` for the i-th asteroid of the snapshot, which the turn leaves as it was. */
  method StrikeNth(g: Groups, rocks: seq<Sprite>, i: int, turn: Turn, killFirst: bool,
                   ghost rocks0: seq<Body>, ghost looks0: seq<Look>, ghost cur: Membership, ghost live: seq<Body>,
                   ghost born: seq<Sprite>, ghost made: seq<Look>)
    returns (hit: bool, shot: Sprite, children: seq<Sprite>, blast: seq<Sprite>)
    requires AllOfKind(rocks, AsteroidKind) && 0 <= i < |rocks|
    requires Held(g, rocks, rocks0, looks0, cur, live, born, made)
    requires Asteroid.SplitTurnInRange(turn)
    modifies g`updatable, g`drawable, g`asteroids, g`shots
    ensures Held(g, rocks, rocks0, looks0, Groups4(g), Bodies(g.shots), born, made)
    ensures Turned(rocks0[i], live, Bodies(g.shots), cur, Groups4(g), hit, shot, children, blast)
    ensures Looks(children + blast) == if hit then Remains(looks0[i], turn) else []
    ensures forall x :: x in children + blast ==> fresh(Obj(x))
  {
    NotASprite(g, born);
    NotASprite(g, rocks);
    var a := rocks[i];
    assert a in rocks && KindOf(a) == AsteroidKind;
    hit, shot, children, blast := Strike(g, a, turn, killFirst);
  }

  /** What a sprite shows of itself: its state and its radius. */
  datatype Look = Look(state: SpriteState, radius: real)

  function LookOf(x: Sprite): Look
    reads Obj(x)
  {
    Look(StateOf(x), Radius(x))
  }

  function Looks(s: seq<Sprite>): (r: seq<Look>)
    reads Objects(s)
    ensures |r| == |s|
  {
    seq(|s|, j requires 0 <= j < |s| reads Objects(s) => LookOf(s[j]))
  }

  lemma LooksAppend(a: seq<Sprite>, b: seq<Sprite>)
    ensures Looks(a + b) == Looks(a) + Looks(b)
  {
  }

  /** The velocity a state records; an explosion has none. */
  function VelocityOf(s: SpriteState): Vec {
    match s
    case ShipState(ship) => ship.velocity
    case RockState(_, v) => v
    case ShotState(_, v) => v
    case BlastState(_, _) => Zero
  }

  /**
   * What a hit asteroid `rock` leaves, in the order it is made: when it is
   * larger than the smallest kind, two asteroids at its centre, one kind
   * smaller, flying at the velocities `SplitVelocities` gives for `turn`;
   * then an explosion at its centre, at its first step, with its radius.
   */
  function Remains(rock: Look, turn: Turn): seq<Look> {
    var p := PositionOf(rock.state);
    var (v1, v2) := Asteroid.SplitVelocities(VelocityOf(rock.state), turn);
    var blast := Look(BlastState(p, Explosion.START), rock.radius);
    if rock.radius > ASTEROID_MIN_RADIUS then
      [Look(RockState(p, v1), rock.radius - ASTEROID_MIN_RADIUS), Look(RockState(p, v2), rock.radius - ASTEROID_MIN_RADIUS), blast]
    else
      [blast]
  }

  /**
   * Everything the shot phase makes, in order, from the looks `rocks` of the
   * asteroids when it starts and its `results` so far: the `Remains` of each
   * hit asteroid, `turn(i)` being the angle drawn for the i-th.
   */
  function Debris(rocks: seq<Look>, results: seq<Option<Body>>, turn: nat -> Turn): seq<Look>
    requires |results| <= |rocks|
  {
    if results == [] then []
    else
      var i := |results| - 1;
      Debris(rocks, results[..i], turn) + (if results[i].Some? then Remains(rocks[i], turn(i)) else [])
  }

  /**
   * The children `split` gives back and the explosion `explode` makes are
   * what `Remains` says the asteroid leaves.
   */
  lemma LeftBehind(a: Sprite, children: seq<Sprite>, blast: seq<Sprite>, turn: Turn)
    requires Children(a, children, turn) && |blast| == 1
    requires StateOf(blast[0]) == BlastState(Position(a), Explosion.START) && Radius(blast[0]) == Radius(a)
    ensures Looks(children + blast) == Remains(LookOf(a), turn)
  {
    assert PositionOf(StateOf(a)) == Position(a) && VelocityOf(StateOf(a)) == a.asteroid.velocity;
  }

  /** One more asteroid's turn extends the debris by its remains if it was hit. */
  lemma DebrisAppend(rocks: seq<Look>, results: seq<Option<Body>>, res: Option<Body>, turn: nat -> Turn,
                     made: seq<Look>, left: seq<Look>, hit: bool)
    requires |results| < |rocks| && made == Debris(rocks, results, turn) && (res.Some? <==> hit)
    requires left == if hit then Remains(rocks[|results|], turn(|results|)) else []
    ensures made + left == Debris(rocks, results + [res], turn)
  {
    assert (results + [res])[..|results|] == results;
  }

  /** The groups object is none of the game objects in them. */
  lemma NotASprite(g: Groups, s: seq<Sprite>)
    ensures g !in Objects(s)
  {
    forall x | x in s ensures Obj(x) != g {
      match x
      case PlayerSprite(p) =>
      case AsteroidSprite(a) =>
      case ShotSprite(sh) =>
      case ExplosionSprite(e) =>
    }
  }

  /** The sprites the shot phase made so far: the children and the explosions, none of them there at its start. */
  predicate Hatched(born: seq<Sprite>, kids: seq<Sprite>, blasts: seq<Sprite>, start: Membership) {
    && (forall x :: x in born ==> x in kids || x in blasts)
    && (forall x :: x in kids ==> x in born)
    && (forall x :: x in blasts ==> x in born)
    && (forall x :: x in born ==> x !in start.2 && x !in start.3)
  }

  /** The shot phase after i asteroids, as values. */
  predicate Phase(rocks0: seq<Body>, shots0: seq<Body>, i: int, start: Membership, cur: Membership,
                  shots: seq<Body>, results: seq<Option<Body>>, gain: int, kids: seq<Sprite>, blasts: seq<Sprite>,
                  born: seq<Sprite>)
  {
    && 0 <= i <= |rocks0| && |results| == i
    && Duel(rocks0, shots0) == results + Duel(rocks0[i..], shots)
    && Survivors(rocks0, shots0) == Survivors(rocks0[i..], shots)
    && gain == Count(results) && |blasts| == Count(results)
    && Scored(cur, start, HitIds(rocks0, results), UsedIds(results), kids, born)
  }

  lemma PhaseStep(rocks0: seq<Body>, shots0: seq<Body>, i: int, start: Membership, pre: Membership,
                  post: Membership, before: seq<Body>, after: seq<Body>, results: seq<Option<Body>>, gain: int,
                  kids: seq<Sprite>, blasts: seq<Sprite>, born: seq<Sprite>, hit: bool, shot: Sprite,
                  children: seq<Sprite>, blast: seq<Sprite>, res: Option<Body>)
    requires Phase(rocks0, shots0, i, start, pre, before, results, gain, kids, blasts, born)
    requires i < |rocks0|
    requires Turned(rocks0[i], before, after, pre, post, hit, shot, children, blast)
    requires res == if hit then Some(before[FirstHit(rocks0[i], before)]) else None
    requires rocks0[i].id in start.2
    requires forall x :: x in born ==> x !in start.2 && x !in start.3
    requires forall x :: x in kids ==> x in born
    ensures hit ==> shot in start.3
    ensures Phase(rocks0, shots0, i + 1, start, post, after, results + [res], gain + (if hit then 1 else 0),
                  kids + children, blasts + blast, born + children + blast)
  {
    ghost var hits, used := HitIds(rocks0, results), UsedIds(results);
    DuelStep(rocks0, i, before, results);
    AppendAssoc(results, [res], Duel(rocks0[i + 1..], after));
    if hit {
      DropMembers(start.3, used);
      assert shot in start.3;
      ScoredStep(start, pre, post, hits, used, kids, born, rocks0[i].id, shot, children, blast);
      assert HitIds(rocks0, results + [res]) == hits + {rocks0[i].id};
      assert UsedIds(results + [res]) == used + {shot};
    } else {
      assert HitIds(rocks0, results + [res]) == hits && UsedIds(results + [res]) == used;
      assert kids + children == kids && born + children + blast == born;
    }
  }
}
