/**
 * The weapon and spawn timers.  Every timer of the game follows one pattern:
 * each frame the cooldown drops by the frame time `dt`; if the action is
 * wanted and the cooldown is no longer positive, the action happens and the
 * cooldown is re-armed to a fixed period (Player.shot_cooldown,
 * Taurus.shot_cooldown, Taurus.mjolnir_cooldown, Endless.asteroid_cooldown).
 */
module Cooldown {

  /** What one frame does to a timer: whether the action fired, and the new cooldown. */
  datatype Tick = Tick(fired: bool, next: real)

  /**
   * One frame of a timer at `c`: the action fires exactly when it is wanted
   * and the frame time has used the cooldown up; a fired timer is re-armed to
   * `period`, any other timer just counts down by `dt`, so a timer that was
   * asked and did not fire is still positive.
   */
  function Step(c: real, dt: real, want: bool, period: real): (r: Tick)
    ensures r.fired <==> want && c <= dt
    ensures r.fired ==> r.next == period
    ensures !r.fired ==> r.next + dt == c
    ensures want && !r.fired ==> r.next > 0.0
  {
    var left := c - dt;
    if want && left <= 0.0 then Tick(true, period) else Tick(false, left)
  }

  /** A timer that was ready and is asked again after a non-negative frame fires. */
  lemma ReadyFires(c: real, dt: real, period: real)
    requires c <= 0.0 && dt >= 0.0
    ensures Step(c, dt, true, period).fired
  {
  }

  /**
   * A timer that is wanted every frame (the asteroid spawner) is positive
   * after every frame: re-armed, or still counting down.
   */
  lemma WantedTimerStaysArmed(c: real, dt: real, period: real)
    requires period > 0.0
    ensures Step(c, dt, true, period).next > 0.0
  {
  }

  /** One frame of input to a timer. */
  datatype Pull = Pull(dt: real, want: bool)

  /** The cooldown after the first `n` frames of `pulls`. */
  function After(c: real, pulls: seq<Pull>, period: real, n: nat): real
    requires n <= |pulls|
  {
    if n == 0 then c
    else Step(After(c, pulls, period, n - 1), pulls[n - 1].dt, pulls[n - 1].want, period).next
  }

  /** Whether the action fires in frame `n` (counting from 0). */
  predicate FiredAt(c: real, pulls: seq<Pull>, period: real, n: nat)
    requires n < |pulls|
  {
    Step(After(c, pulls, period, n), pulls[n].dt, pulls[n].want, period).fired
  }

  /** The time that passes in frames i .. j-1. */
  function Elapsed(pulls: seq<Pull>, i: nat, j: nat): real
    requires i <= j <= |pulls|
    decreases j - i
  {
    if i == j then 0.0 else Elapsed(pulls, i, j - 1) + pulls[j - 1].dt
  }

  /** After firing in frame i and staying quiet up to frame k, the cooldown is the period minus the time since. */
  lemma {:induction false} QuietCountdown(c: real, pulls: seq<Pull>, period: real, i: nat, k: nat)
    requires i <= k < |pulls|
    requires FiredAt(c, pulls, period, i)
    requires forall m :: i < m <= k ==> !FiredAt(c, pulls, period, m)
    ensures After(c, pulls, period, k + 1) == period - Elapsed(pulls, i + 1, k + 1)
  {
    if k > i {
      QuietCountdown(c, pulls, period, i, k - 1);
      assert !FiredAt(c, pulls, period, k);
      assert After(c, pulls, period, k + 1) == After(c, pulls, period, k) - pulls[k].dt;
    } else {
      assert After(c, pulls, period, k + 1) == Step(After(c, pulls, period, k), pulls[k].dt, pulls[k].want, period).next;
    }
  }

  /**
   * Gating: after the action fires in frame i, it fires next in frame j
   * exactly when it is wanted there and at least `period` has passed since
   * frame i.  In particular two consecutive firings are at least `period`
   * apart.
   */
  lemma Refire(c: real, pulls: seq<Pull>, period: real, i: nat, j: nat)
    requires i < j < |pulls|
    requires FiredAt(c, pulls, period, i)
    requires forall m :: i < m < j ==> !FiredAt(c, pulls, period, m)
    ensures FiredAt(c, pulls, period, j) <==> pulls[j].want && Elapsed(pulls, i + 1, j + 1) >= period
  {
    QuietCountdown(c, pulls, period, i, j - 1);
  }
}
