/**
 * circleshape.py: the base of every game object.  A CircleShape has a
 * position, a velocity and a radius, collides with another shape when the
 * circles overlap, and joins the sprite groups that `set_default_groups` last
 * configured for its class.
 *
 * The sprite groups (pygame.sprite.Group) are modelled by `Registry`: one
 * insertion-ordered, duplicate-free sequence per group role, plus the table of
 * per-class default groups.  `Registry` is generic in the sprite handle `S`,
 * so that it can be instantiated with the tagged union of the concrete
 * classes (module Sprites).
 */
module CircleShape {
  import opened Vector2

  /**
   * `collides_with`: the distance of the centres is at most the sum of the
   * radii.  Written without the square root: a distance d >= 0 satisfies
   * d <= s exactly when s >= 0 and d*d <= s*s (see `CollidesIsDistanceTest`).
   */
  predicate Collides(p: Vec, pr: real, q: Vec, qr: real) {
    var s := pr + qr;
    s >= 0.0 && Dist2(p, q) <= Sq(s)
  }

  /** The squared test agrees with the source's test on the true distance. */
  lemma CollidesIsDistanceTest(p: Vec, pr: real, q: Vec, qr: real, d: real)
    requires d >= 0.0 && Sq(d) == Dist2(p, q)
    ensures Collides(p, pr, q, qr) <==> d <= pr + qr
  {
    var s := pr + qr;
    if s >= 0.0 {
      SquaresOrdered(d, s);
    }
  }

  lemma CollidesSymmetric(p: Vec, pr: real, q: Vec, qr: real)
    ensures Collides(p, pr, q, qr) <==> Collides(q, qr, p, pr)
  {
    assert p.Minus(q).Norm2() == q.Minus(p).Norm2();
  }

  /** Every shape with a non-negative radius collides with itself. */
  lemma CollidesWithItself(p: Vec, r: real)
    requires r >= 0.0
    ensures Collides(p, r, p, r)
  {
  }

  /**
   * The `update` of every drifting shape: `position += velocity * dt`.
   * The displacement is velocity * dt; with dt = 0 nothing moves.
   */
  function Drift(p: Vec, v: Vec, dt: real): (q: Vec)
    ensures q.Minus(p) == v.Scale(dt)
    ensures dt == 0.0 ==> q == p
  {
    p.Plus(v.Scale(dt))
  }

  /** Two drifts in a row are one drift over the summed time. */
  lemma DriftComposes(p: Vec, v: Vec, dt1: real, dt2: real)
    ensures Drift(Drift(p, v, dt1), v, dt2) == Drift(p, v, dt1 + dt2)
  {
  }

  // ---------------------------------------------------------------------
  // Sprite groups
  // ---------------------------------------------------------------------

  /** The groups one game creates: `updateable`, `drawable`, `asteroids`, `shots`. */
  datatype Role = Updatable | Drawable | Asteroids | Shots

  /** The CircleShape subclasses, each with its own default-group attribute. */
  datatype Kind = PlayerKind | AsteroidKind | ShotKind | ExplosionKind | MjolnirKind | TaurusKind

  ghost predicate NoDup<S>(s: seq<S>) {
    forall i, j :: 0 <= i < j < |s| ==> s[i] != s[j]
  }

  /** pygame's `Group.remove`: the group without `x`, others in their order. */
  function Without<S(==)>(s: seq<S>, x: S): (r: seq<S>)
    ensures x !in r
    ensures forall i :: 0 <= i < |r| ==> r[i] in s
    ensures forall i :: 0 <= i < |s| && s[i] != x ==> s[i] in r
    ensures x !in s ==> r == s
  {
    if s == [] then []
    else if s[0] == x then Without(s[1..], x)
    else [s[0]] + Without(s[1..], x)
  }

  /** The members of a group after `remove(x)`: the old ones but x. */
  lemma WithoutMembers<S>(s: seq<S>, x: S)
    ensures forall y :: y in Without(s, x) <==> y in s && y != x
  {
    forall y | y in s && y != x ensures y in Without(s, x) {
      var i :| 0 <= i < |s| && s[i] == y;
    }
  }

  /** Removing a sprite keeps a group free of duplicates and shortens it by one. */
  lemma {:induction false} WithoutNoDup<S>(s: seq<S>, x: S)
    requires NoDup(s)
    ensures NoDup(Without(s, x))
    ensures x in s ==> |Without(s, x)| == |s| - 1
  {
    if s != [] {
      var tail := s[1..];
      TailNoDup(s);
      WithoutNoDup(tail, x);
      if s[0] != x {
        ConsNoDup(s[0], Without(tail, x));
        assert x in s ==> x in tail;
      }
    }
  }

  /** The tail of a duplicate-free group is duplicate-free and lacks the head. */
  lemma TailNoDup<S>(s: seq<S>)
    requires NoDup(s) && s != []
    ensures NoDup(s[1..]) && s[0] !in s[1..]
  {
    var tail := s[1..];
    forall i, j | 0 <= i < j < |tail| ensures tail[i] != tail[j] {
      assert tail[i] == s[i + 1] && tail[j] == s[j + 1];
    }
    forall j | 0 <= j < |tail| ensures tail[j] != s[0] {
      assert tail[j] == s[j + 1];
    }
  }

  /** Putting a new sprite in front of a duplicate-free group keeps it duplicate-free. */
  lemma ConsNoDup<S>(x: S, rest: seq<S>)
    requires NoDup(rest) && x !in rest
    ensures NoDup([x] + rest)
  {
    var r := [x] + rest;
    forall i, j | 0 <= i < j < |r| ensures r[i] != r[j] {
      if i == 0 {
        assert r[j] == rest[j - 1];
      } else {
        assert r[i] == rest[i - 1] && r[j] == rest[j - 1];
      }
    }
  }

  /** The group after removing every member of `out`: the others, in their order. */
  function Drop<S(==)>(s: seq<S>, out: set<S>): (r: seq<S>)
    ensures |r| <= |s|
    ensures forall i :: 0 <= i < |r| ==> r[i] in s && r[i] !in out
  {
    if s == [] then []
    else if s[0] in out then Drop(s[1..], out)
    else [s[0]] + Drop(s[1..], out)
  }

  /** What is left after a removal is exactly the sprites not removed. */
  lemma {:induction false} DropMembers<S>(s: seq<S>, out: set<S>)
    ensures forall x :: x in Drop(s, out) <==> x in s && x !in out
  {
    if s != [] {
      DropMembers(s[1..], out);
      assert s == [s[0]] + s[1..];
    }
  }

  /** Removing from a group that is two parts removes from each part. */
  lemma {:induction false} DropAppend<S>(a: seq<S>, b: seq<S>, out: set<S>)
    ensures Drop(a + b, out) == Drop(a, out) + Drop(b, out)
  {
    if a == [] {
      assert a + b == b;
    } else {
      assert (a + b)[0] == a[0] && (a + b)[1..] == a[1..] + b;
      DropAppend(a[1..], b, out);
    }
  }

  /** Two removals in turn are one removal of both sets. */
  lemma {:induction false} DropDrop<S>(s: seq<S>, first: set<S>, later: set<S>)
    ensures Drop(Drop(s, first), later) == Drop(s, first + later)
  {
    if s != [] {
      DropDrop(s[1..], first, later);
      if s[0] !in first {
        var rest := Drop(s[1..], first);
        assert ([s[0]] + rest)[0] == s[0] && ([s[0]] + rest)[1..] == rest;
      }
    }
  }

  /** Removing sprites that are not there changes nothing. */
  lemma {:induction false} DropNothing<S>(s: seq<S>, out: set<S>)
    requires forall x :: x in s ==> x !in out
    ensures Drop(s, out) == s
  {
    if s != [] {
      DropNothing(s[1..], out);
      assert s == [s[0]] + s[1..];
    }
  }

  /** `remove(x)` is removing the set {x}. */
  lemma {:induction false} WithoutIsDrop<S>(s: seq<S>, x: S)
    ensures Without(s, x) == Drop(s, {x})
  {
    if s != [] {
      WithoutIsDrop(s[1..], x);
    }
  }

  /** A removal after earlier removals and additions: the additions stay, in order. */
  lemma DropMore<S>(s: seq<S>, out: set<S>, added: seq<S>, x: S)
    requires x !in added
    ensures Without(Drop(s, out) + added, x) == Drop(s, out + {x}) + added
  {
    WithoutIsDrop(Drop(s, out) + added, x);
    DropAppend(Drop(s, out), added, {x});
    DropDrop(s, out, {x});
    DropNothing(added, {x});
  }

  lemma AppendAssoc<T>(a: seq<T>, b: seq<T>, c: seq<T>)
    ensures (a + b) + c == a + (b + c)
  {
  }

  /** pygame's `Group.add`: a sprite already in the group is not added again. */
  function Join<S(==)>(s: seq<S>, x: S): (r: seq<S>)
    ensures x in r
    ensures forall i :: 0 <= i < |s| ==> s[i] in r
    ensures forall i :: 0 <= i < |r| ==> r[i] in s || r[i] == x
    ensures x !in s ==> |r| == |s| + 1
  {
    if x in s then s else s + [x]
  }

  lemma JoinNoDup<S>(s: seq<S>, x: S)
    requires NoDup(s)
    ensures NoDup(Join(s, x))
  {
    if x !in s {
      var r := s + [x];
      forall i, j | 0 <= i < j < |r| ensures r[i] != r[j] {
        if j == |s| {
          assert r[i] == s[i];
        } else {
          assert r[i] == s[i] && r[j] == s[j];
        }
      }
    }
  }

  /**
   * The default-group table: the attribute `__groups` as seen from a class.
   * A class that never called `set_default_groups` sees the base class's
   * empty default.
   */
  function Defaults(table: map<Kind, set<Role>>, k: Kind): set<Role> {
    if k in table then table[k] else {}
  }

  /**
   * Setting the default groups of one class leaves every other class's
   * defaults alone, because the attribute is written on `cls`.
   */
  lemma SetDefaultsIsolated(table: map<Kind, set<Role>>, k: Kind, roles: set<Role>, other: Kind)
    ensures Defaults(table[k := roles], k) == roles
    ensures other != k ==> Defaults(table[k := roles], other) == Defaults(table, other)
  {
  }

  class Registry<S(==)> {
    var updatable: seq<S>
    var drawable: seq<S>
    var asteroids: seq<S>
    var shots: seq<S>
    var defaults: map<Kind, set<Role>>

    function Members(r: Role): seq<S>
      reads this
    {
      match r
      case Updatable => updatable
      case Drawable => drawable
      case Asteroids => asteroids
      case Shots => shots
    }

    /** `sprite.alive()`: the sprite belongs to at least one group. */
    predicate Alive(x: S)
      reads this
    {
      x in updatable || x in drawable || x in asteroids || x in shots
    }

    ghost predicate Valid()
      reads this
    {
      NoDup(updatable) && NoDup(drawable) && NoDup(asteroids) && NoDup(shots)
    }

    /** Four fresh, empty groups and no class defaults configured yet. */
    constructor ()
      ensures Valid()
      ensures updatable == [] && drawable == [] && asteroids == [] && shots == []
      ensures defaults == map[]
    {
      updatable, drawable, asteroids, shots := [], [], [], [];
      defaults := map[];
    }

    /** `cls.set_default_groups(*groups)`. */
    method SetDefaultGroups(k: Kind, roles: set<Role>)
      modifies this`defaults
      ensures defaults == old(defaults)[k := roles]
      ensures Defaults(defaults, k) == roles
      ensures forall other :: other != k ==> Defaults(defaults, other) == Defaults(old(defaults), other)
    {
      defaults := defaults[k := roles];
      forall other | other != k
        ensures Defaults(defaults, other) == Defaults(old(defaults), other)
      {
        SetDefaultsIsolated(old(defaults), k, roles, other);
      }
    }

    /**
     * `Sprite.__init__(*cls.__groups)`: a new instance of class `k` joins
     * exactly the groups configured for `k`, at the end of each.
     */
    method Add(x: S, k: Kind)
      requires Valid()
      modifies this`updatable, this`drawable, this`asteroids, this`shots
      ensures Valid()
      ensures updatable == if Updatable in Defaults(defaults, k) then Join(old(updatable), x) else old(updatable)
      ensures drawable == if Drawable in Defaults(defaults, k) then Join(old(drawable), x) else old(drawable)
      ensures asteroids == if Asteroids in Defaults(defaults, k) then Join(old(asteroids), x) else old(asteroids)
      ensures shots == if Shots in Defaults(defaults, k) then Join(old(shots), x) else old(shots)
    {
      var roles := Defaults(defaults, k);
      JoinNoDup(updatable, x);
      JoinNoDup(drawable, x);
      JoinNoDup(asteroids, x);
      JoinNoDup(shots, x);
      if Updatable in roles { updatable := Join(updatable, x); }
      if Drawable in roles { drawable := Join(drawable, x); }
      if Asteroids in roles { asteroids := Join(asteroids, x); }
      if Shots in roles { shots := Join(shots, x); }
    }

    /** `sprite.kill()`: the sprite leaves every group it belongs to. */
    method Kill(x: S)
      requires Valid()
      modifies this`updatable, this`drawable, this`asteroids, this`shots
      ensures Valid()
      ensures updatable == Without(old(updatable), x)
      ensures drawable == Without(old(drawable), x)
      ensures asteroids == Without(old(asteroids), x)
      ensures shots == Without(old(shots), x)
      ensures !Alive(x)
    {
      WithoutNoDup(updatable, x);
      WithoutNoDup(drawable, x);
      WithoutNoDup(asteroids, x);
      WithoutNoDup(shots, x);
      updatable := Without(updatable, x);
      drawable := Without(drawable, x);
      asteroids := Without(asteroids, x);
      shots := Without(shots, x);
    }
  }
}
