/**
 * asteroids/explosion.py: an explosion animation that advances one step
 * every EXPLOSION_STEP_DURATION seconds and disappears after its last step.
 *
 * `Update` reports whether the explosion has run out; module Sprites then
 * removes it from its groups, which is what `self.kill()` does in the source.
 */
module Explosion {
  import opened Vector2
  import opened Constants

  /** The animation state: the current step and the time spent in it. */
  datatype Clock = Clock(step: int, time: real)

  /** One `update` of the animation clock. */
  function Advance(k: Clock, dt: real, duration: real): (r: Clock)
    ensures r.step == k.step || r.step == k.step + 1
    ensures r.step == k.step + 1 <==> k.time + dt >= duration
  {
    var time := k.time + dt;
    if time >= duration then Clock(k.step + 1, 0.0) else Clock(k.step, time)
  }

  /** With non-negative frame times the step timer stays in [0, duration). */
  lemma AdvanceTimeBounded(k: Clock, dt: real, duration: real)
    requires 0.0 <= k.time && 0.0 <= dt
    ensures 0.0 <= Advance(k, dt, duration).time
    ensures Advance(k, dt, duration).time < duration || duration <= 0.0
  {
  }

  /** The clock after a sequence of updates. */
  function Replay(k: Clock, dts: seq<real>, duration: real): Clock
    decreases |dts|
  {
    if dts == [] then k else Replay(Advance(k, dts[0], duration), dts[1..], duration)
  }

  /** Each update adds at most one step, so n updates add at most n steps. */
  lemma {:induction false} ReplayStepBounds(k: Clock, dts: seq<real>, duration: real)
    ensures k.step <= Replay(k, dts, duration).step <= k.step + |dts|
    decreases |dts|
  {
    if dts != [] {
      ReplayStepBounds(Advance(k, dts[0], duration), dts[1..], duration);
    }
  }

  /** Frames at least one step long advance the animation by one step each. */
  lemma {:induction false} ReplaySlowFrames(k: Clock, dts: seq<real>, duration: real)
    requires forall i :: 0 <= i < |dts| ==> dts[i] >= duration
    requires k.time >= 0.0
    ensures Replay(k, dts, duration).step == k.step + |dts|
    decreases |dts|
  {
    if dts != [] {
      ReplaySlowFrames(Advance(k, dts[0], duration), dts[1..], duration);
    }
  }

  /** A new explosion's clock. */
  const START := Clock(1, 0.0)

  /**
   * Lifetime: whatever the frame times, an explosion survives at least its
   * first EXPLOSION_STEPS - 1 updates.
   */
  lemma SurvivesFirstUpdates(dts: seq<real>, t: Tuning)
    requires |dts| < t.explosionSteps
    ensures Replay(START, dts, t.explosionStepDuration).step <= t.explosionSteps
  {
    ReplayStepBounds(START, dts, t.explosionStepDuration);
  }

  /**
   * When every frame lasts at least one step, an explosion is gone exactly
   * after EXPLOSION_STEPS updates.
   */
  lemma ExpiresAfterAllSteps(dts: seq<real>, t: Tuning)
    requires forall i :: 0 <= i < |dts| ==> dts[i] >= t.explosionStepDuration
    ensures Replay(START, dts, t.explosionStepDuration).step > t.explosionSteps <==> |dts| >= t.explosionSteps
  {
    ReplaySlowFrames(START, dts, t.explosionStepDuration);
  }

  class Explosion {
    var position: Vec
    var velocity: Vec
    const radius: real
    var step: int
    var stepTime: real
    const size: real

    function Timer(): Clock
      reads this
    {
      Clock(step, stepTime)
    }

    /** A still explosion at the first step, drawn 2 * radius wide. */
    constructor (position: Vec, radius: real)
      ensures this.position == position && this.radius == radius
      ensures velocity == Zero
      ensures Timer() == START
      ensures size == 2.0 * radius
    {
      this.position := position;
      this.velocity := Zero;
      this.radius := radius;
      step := 1;
      stepTime := 0.0;
      size := 2.0 * radius;
    }

    /** `update`; `expired` is the condition under which the source kills the sprite. */
    method Update(dt: real, t: Tuning) returns (expired: bool)
      modifies this`step, this`stepTime
      ensures Timer() == Advance(old(Timer()), dt, t.explosionStepDuration)
      ensures expired <==> step > t.explosionSteps
    {
      stepTime := stepTime + dt;
      if stepTime >= t.explosionStepDuration {
        step := step + 1;
        stepTime := 0.0;
      }
      expired := step > t.explosionSteps;
    }
  }
}
