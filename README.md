# Asteroids game core in Dafny

A model of the game-state core of a pygame Asteroids clone, with proofs about it.
The core covered here is:

- the modes of state.py: Endless play, Pause, Game Over and Quit, with the storage dictionary they pass on;
- the older integer-coded loop of game_loops.py;
- the per-frame simulation:
  - the asteroid spawner;
  - the update pass that removes sprites that left the screen;
  - the ship-asteroid test;
  - the shot-asteroid phase that splits, explodes and scores;
- the entities:
  - the circle base class with its default groups (circleshape.py);
  - asteroids (asteroid.py);
  - the player's ship (asteroids/player.py);
  - the Taurus defence platform (asteroids/taurus.py);
  - plasma shots and Mjolnir rounds (asteroids/shot.py and the older shot.py);
  - explosions (asteroids/explosion.py).

## Modelling choices

- **Mutable entities are classes.** Ships, asteroids, shots, explosions, the group registry and the modes are classes whose methods change fields, as in the source.
- **Pure computations are functions.** Velocities, timers, collision results and the event scan are functions over datatypes. Each method is proved against them.
- **Groups are sequences.** pygame `Group`s become `seq` fields of `CircleShape.Registry`: `updatable`, `drawable`, `asteroids`, `shots`. A registry holds no duplicates. Iterating a group walks a copy taken before the loop, as pygame does.
- **Sprites are a tagged union.** `Sprites.Sprite` stands for the four sprite classes. `Sprites.Register` puts a new sprite in its class's default groups. `Sprites.Kill` removes it from every group.
- **`killFirst` captures the one difference between the two frames.** The frames of state.py and game_loops.py differ only in whether a hit shot is killed before or after its asteroid splits. `Collisions.Strike` takes that order as a parameter. Both orders are proved to reach the same group contents (`Collisions.Struck`).
- **The shot phase has a value-level specification.** `Collisions.Duel` pairs each asteroid with the first remaining shot touching it. `Collisions.Survivors` is the shots left after that. `Collisions.Count` is the score gained. `Collisions.ShotHits` runs the nested loops of the source and is proved equal to these.
- **Floats are reals.** Positions, velocities and times are `real`, with no rounding.
- **Trigonometry becomes parameters.** Rotating a vector by an angle uses a `Turn` (a cosine and sine pair with cos² + sin² = 1), or a `heading` function giving the forward unit vector for a rotation in degrees.
- **Normalisation is a predicate.** `Taurus.Normalizes` says a vector is the normalised version of another.
- **The outside world becomes parameters.** The frame's event queue, held keys, mouse buttons and position, time step, and every random draw are passed in. These draws are the spawn edge, offset, speed, rotation and size; the split angle; and the shot and Mjolnir image kinds.
- **Missing constants go in `Tuning`.** constants.py does not define some constants the game code uses: ASTEROID_MAX_RADIUS, EXPLOSION_STEPS, EXPLOSION_STEP_DURATION, TAURUS_*, MJOLNIR_* and SHOT_KINDS. These are fields of `Constants.Tuning`, a parameter of the operations that need them. The defined constants keep constants.py's values.

## Source decisions

- **Which player, shot and explosion modules.** state.py and game_loops.py import `player`, `shot` and `explosion` from the top level. Yet the top-level player.py calls its base constructor with a different signature than circleshape.py takes, and there is no top-level explosion.py. The game therefore runs with the classes of the `asteroids/` package. So the sprites of the model are `asteroids/player.py`'s Player, `asteroids/shot.py`'s Shot and `asteroids/explosion.py`'s Explosion. The older top-level shot.py is modelled on its own as `Shot.Shot`.
- **`Asteroid.explode` is missing.** Both frames call `a.explode()` on a hit asteroid, but asteroid.py defines no such method. The model gives an asteroid the behaviour the other entities' `explode` has: a new Explosion at the asteroid's position. Its radius is the asteroid's own radius; the ships use 1.5 times theirs. The choice is in `Sprites.ExplodeAsteroid`.
- **game_loops.py's `step` return value.** Its documentation says `step` returns 0 when nothing changes, but the code returns `self.state`, which is STATE_ENDLESS. The model follows the code.
- **The second ship in game_loops.py.** Its constructor creates a second, unused Player at the centre of the screen. That ship joins the default groups like any other, so it is updated, moves, and is killed once it leaves the screen. The model keeps it as `spare`.
- **Pause ignores quitting.** A paused game reacts to P only. Even a window close is ignored, which `State.PauseOnlyResumes` states.
- **Default groups are per game.** pygame's `set_default_groups` writes a class attribute that every later instance uses. The model keeps that table in the registry of the running game. This matches the source because a new game sets all four classes' defaults before creating any sprite.

## Model

| member | source | states |
|---|---|---|
| Cooldown.ReadyFires | asteroids/player.py:110-117 | a timer at or below zero that is asked to fire after a non-negative frame fires |
| Cooldown.WantedTimerStaysArmed | state.py:177-180 | after a step in which firing is wanted, the timer is positive again whether or not it fired |
| Cooldown.QuietCountdown | asteroids/player.py:71-73 | after firing and then n quiet frames, the timer is the period minus the time elapsed since firing |
| Cooldown.Refire | asteroids/player.py:110-117 | after firing, the next request fires iff at least one period of frame time has elapsed since firing |
| Cooldown.Step | state.py:177-180 | a timer fires iff its action is wanted and the frame time has used the cooldown up; firing re-arms it to the period, otherwise it counts down by dt, so a wanted timer that did not fire is still positive |
| CircleShape.CollidesIsDistanceTest | circleshape.py:53-57 | the squared-distance collision test is equivalent to distance ≤ sum of radii |
| CircleShape.CollidesSymmetric | circleshape.py:53-57 | a collides with b iff b collides with a |
| CircleShape.CollidesWithItself | circleshape.py:53-57 | a circle of non-negative radius collides with itself |
| CircleShape.Drift | asteroid.py:25-27 | one update moves a position by velocity times dt, and not at all when dt is zero |
| CircleShape.DriftComposes | asteroid.py:25-27 | two updates of dt1 and dt2 equal one update of dt1 + dt2 |
| CircleShape.SetDefaultsIsolated | circleshape.py:13-16 | setting one class's default groups leaves every other class's defaults as they were |
| CircleShape.Registry.constructor | state.py:137-140 | four new empty groups and no defaults |
| CircleShape.Registry.SetDefaultGroups | circleshape.py:13-16 | the class gets the given groups; other classes keep theirs |
| CircleShape.Registry.Add | circleshape.py:18-19 | a new sprite joins exactly its class's default groups, once |
| CircleShape.Registry.Kill | state.py:194 | `kill()` removes the sprite from every group and nothing else |
| Asteroid.SplitSpeeds | asteroid.py:42-44 | both children move exactly 1.2 times as fast as the parent |
| Asteroid.SplitSymmetric | asteroid.py:42-44 | the two child velocities are mirror images about the parent's direction |
| Asteroid.SplitDiverges | asteroid.py:42-44 | for a moving parent and a split angle of 20 to 50 degrees, the two children fly apart |
| Asteroid.SpawnedSplitDepth | asteroid.py:39-45 | an asteroid of size kind k splits k − 1 times before it is too small to split |
| Asteroid.SplitVelocities | asteroid.py:42-44 | turning each child's velocity back by its split angle gives the parent's velocity times 1.2 |
| Asteroid.Inward | asteroid.py:62-82 | the base direction of every edge is a unit vector |
| Asteroid.SpawnPosition | asteroid.py:62-82 | the spawn point lies ASTEROID_MAX_RADIUS inside the drawn edge, at the drawn fraction of the way along it |
| Asteroid.SpawnOnScreen | asteroid.py:58-82 | a spawned asteroid starts inside the screen, so the out-of-screen check keeps it |
| Asteroid.SpawnHeadsInward | asteroid.py:60-82 | a spawned asteroid moves away from its edge, into the screen |
| Asteroid.SpawnVelocity | asteroid.py:59-82 | a spawned asteroid moves at exactly the drawn speed, whatever the drawn rotation |
| Asteroid.Asteroid.constructor | circleshape.py:18-26 | the given position and radius, at rest |
| Asteroid.Asteroid.Update | asteroid.py:25-27 | the position drifts by velocity times dt |
| Asteroid.Asteroid.Split | asteroid.py:38-49 | no children at or below the minimum radius; otherwise two new children at the parent's position, each with radius less the minimum, moving at the split velocities |
| Asteroid.Asteroid.Spawn | asteroid.py:51-88 | a new asteroid at the spawn point of the drawn edge and offset, moving inwards at the drawn speed and rotation, with radius ASTEROID_MIN_RADIUS times the drawn size |
| AsteroidsShot.Shot.constructor | asteroids/shot.py:13-15 | shot radius, at rest, with an image kind in 1..SHOT_KINDS |
| AsteroidsShot.Shot.Update | asteroids/shot.py:28-29 | the position drifts by velocity times dt |
| AsteroidsShot.Mjolnir.constructor | asteroids/shot.py:35-37 | Mjolnir radius, at rest, with an image kind in 1..MJOLNIR_KINDS |
| AsteroidsShot.Mjolnir.Update | asteroids/shot.py:50-51 | the position drifts by velocity times dt |
| Shot.Shot.constructor | shot.py:9-10 | shot radius at the given position, at rest |
| Shot.Shot.Update | shot.py:22-24 | the position drifts by velocity times dt; a zero step leaves it in place |
| Explosion.Advance | asteroids/explosion.py:21-25 | one update advances the step by at most one, exactly when the accumulated time reaches the step duration |
| Explosion.AdvanceTimeBounded | asteroids/explosion.py:21-25 | the accumulated step time stays in [0, duration) |
| Explosion.ReplayStepBounds | asteroids/explosion.py:21-25 | n updates advance the step by at most n |
| Explosion.ReplaySlowFrames | asteroids/explosion.py:21-25 | with frames at least one step duration long, every update advances the step |
| Explosion.SurvivesFirstUpdates | asteroids/explosion.py:21-27 | fewer than EXPLOSION_STEPS updates never kill an explosion |
| Explosion.ExpiresAfterAllSteps | asteroids/explosion.py:21-27 | with slow frames, an explosion is past its last step iff it had at least EXPLOSION_STEPS updates |
| Explosion.Explosion.constructor | asteroids/explosion.py:15-19 | the given position and radius, step 1, no step time, size twice the radius |
| Explosion.Explosion.Update | asteroids/explosion.py:21-27 | the timer advances as `Advance` says; the explosion expires iff its step passed EXPLOSION_STEPS |
| Player.TurnDelta | asteroids/player.py:77-80 | right turns by dt·PLAYER_TURN_SPEED, left by the negative, both or neither not at all |
| Player.Thrust | asteroids/player.py:93-101 | after thrust the speed is below PLAYER_MAX_SPEED, or it is clamped to exactly that speed along the heading |
| Player.ThrustBounded | asteroids/player.py:93-101 | the ship never moves faster than PLAYER_MAX_SPEED after thrust |
| Player.FlyCooldown | asteroids/player.py:58-87 | over any sequence of frames, the ship's shot timer is the cooldown timer driven by the frame times and SPACE presses |
| Player.ShotGating | asteroids/player.py:110-117 | after a shot, the next shot fires iff SPACE is held and at least SHOT_COOLDOWN seconds have passed |
| Player.Tick | asteroids/player.py:58-87 | one update turns the ship by the key-driven turn; keeps the velocity unless UP is held, and then never exceeds PLAYER_MAX_SPEED along a unit heading; moves by the whole new velocity; sets the engine flag to UP; re-arms the shot timer on a fire and otherwise counts it down by dt |
| Player.Player.constructor | asteroids/player.py:16-21 | at the given position, at rest, rotation 0, shot timer 0, engine off, player radius |
| Player.Player.Rotate | asteroids/player.py:89-91 | the rotation grows by dt·PLAYER_TURN_SPEED |
| Player.Player.Steer | asteroids/player.py:77-80 | the rotation changes by the key-driven turn |
| Player.Player.Accelerate | asteroids/player.py:93-101 | the velocity becomes the clamped thrust result |
| Player.Player.Move | asteroids/player.py:103-108 | the position moves by the whole velocity, not scaled by dt |
| Player.Player.Shoot | asteroids/player.py:110-117 | no shot while the timer is positive; otherwise one new shot at the nose, moving forward at SHOT_SPEED, and the timer re-armed |
| Player.Player.Update | asteroids/player.py:58-87 | the ship's state after the frame is `Tick` of its old state; the engine flag is UP; a shot is made exactly when the timer lets SPACE fire |
| Player.Player.Explode | asteroids/player.py:119-120 | a new explosion at the ship, 1.5 times its radius |
| Taurus.ThrustVector | asteroids/taurus.py:100-107 | each engine pushes along its axis by a; opposite engines cancel out |
| Taurus.EnginesFor | asteroids/taurus.py:76-89 | RIGHT/D pushes the platform towards +x and LEFT/A towards −x, DOWN/S towards +y (down the screen) and UP/W towards −y; opposite keys cancel |
| Taurus.AccelerateAsWritten | asteroids/taurus.py:100-111 | as the code is written, the whole thrust is kept at any speed |
| Taurus.AsWrittenDiffers | asteroids/taurus.py:108-111 | the code as written agrees with the intended clamp exactly when there is no thrust or the new speed is below TAURUS_MAX_SPEED |
| Taurus.AsWrittenOverspeeds | asteroids/taurus.py:108-111 | with the code as written, a platform below top speed ends above it |
| Taurus.Kicked | asteroids/taurus.py:108-111 | the thrust is kept only when the new speed is below the maximum; a platform below the maximum stays below it |
| Taurus.MjolnirFan | asteroids/taurus.py:144-146 | the outer Mjolnir rounds fan out symmetrically about the middle one |
| Taurus.MjolnirSpeeds | asteroids/taurus.py:144-146 | all three rounds fly at MJOLNIR_SPEED |
| Taurus.ShotAimsAtMouse | asteroids/taurus.py:125-129 | a plasma shot moves towards the mouse at SHOT_SPEED |
| Taurus.Taurus.constructor | asteroids/taurus.py:15-27 | at the given position, at rest, both timers 0, all engines off, Taurus radius |
| Taurus.Taurus.Accelerate | asteroids/taurus.py:100-111 | the velocity is the engines' thrust kept or undone as `Kicked` says |
| Taurus.Taurus.Steer | asteroids/taurus.py:76-89 | the engines are the ones the arrow and WASD keys select |
| Taurus.Taurus.Move | asteroids/taurus.py:113-117 | the position moves by the whole velocity |
| Taurus.Taurus.Shoot | asteroids/taurus.py:119-130 | no shot while the timer is positive; otherwise one shot at the rim facing the mouse, moving towards it, and the timer re-armed; the Mjolnir timer untouched |
| Taurus.Taurus.FireMjolnir | asteroids/taurus.py:132-148 | no rounds while the timer is positive; otherwise three new distinct rounds at the rim, at ±20° and straight, and the timer re-armed |
| Taurus.Taurus.Update | asteroids/taurus.py:68-98 | both timers count down and fire on the mouse buttons; the keys select the engines; the velocity is kicked and the platform moves; shots and rounds appear exactly when their timers fire: a new plasma shot of the drawn kind and shot radius at the rim facing the mouse, flying towards it, or three new distinct Mjolnir rounds of the drawn kinds and Mjolnir radius, all at the same rim point, at ±20° and straight |
| Taurus.Taurus.Explode | asteroids/taurus.py:150-151 | a new explosion at the platform, 1.5 times its radius |
| Sprites.SetStandardDefaults | state.py:143-146 | ships and explosions are drawn and updated; asteroids and shots are also in their own groups |
| Sprites.StandardRoles | state.py:143-146 | under these defaults every sprite is updated and drawn, and only asteroids and shots are in the asteroid and shot groups |
| Sprites.Register | circleshape.py:18-19 | a new sprite is appended to the update and draw groups and to its own kind's group |
| Sprites.Kill | state.py:194 | the sprite leaves every group and nothing else changes |
| Sprites.Stepped | state.py:196 | `update(dt)` keeps every sprite's class; an asteroid or shot keeps its velocity and drifts by velocity times dt; an explosion stays in place and its step advances by at most one |
| Sprites.UpdateSprite | state.py:196 | `update(dt)` steps the sprite's state as `Stepped` says; a ship that fires registers exactly one new plasma shot, of shot radius and the frame's kind, in the state `FiredShot` gives (at the nose, moving forward at SHOT_SPEED); an expired explosion leaves every group; otherwise the groups only gain that shot |
| Sprites.SpawnAsteroid | state.py:176-180 | `Asteroid.spawn()`: one new asteroid with the drawn position, velocity and size, in the asteroid, update and draw groups |
| Sprites.SplitAsteroid | asteroid.py:29-49 | the parent leaves every group and its children join the asteroid, update and draw groups |
| Sprites.SpawnChildren | asteroid.py:38-49 | the children are new, registered, and as `Asteroid.Split` makes them |
| Sprites.ExplodeAsteroid | state.py:210 | one new explosion at the asteroid's position with its radius, in the draw and update groups |
| Simulation.SpawnPhase | state.py:176-180 | the spawn timer steps as a cooldown; an asteroid spawns exactly when it fires |
| Simulation.Visit | state.py:184-196 | the game is lost iff the sprite is the ship and off screen; an off-screen sprite is left as it was and otherwise updated (`Visited`); it leaves the groups iff it was off screen or expired (`Gone`); the new sprites are the shots it fired, fresh, in the states `Launched` gives; no other sprite's state changes |
| Simulation.KillOut | state.py:194 | the sprite leaves every group |
| Simulation.UpdateOn | state.py:196 | the sprite's state is stepped; it leaves the groups iff it expired; the only new sprite is the shot a firing ship makes, fresh, of the frame's kind, in the state `FiredShot` gives |
| Simulation.UpdatePass | state.py:183-196 | the game is lost iff the ship was registered and off screen; otherwise every sprite of the copied group was visited once, in order, as `Walked` says; the groups are the old ones less the removed sprites, in their order, followed by the new shots in the order they were fired; those shots are fresh, of the frame's kind, and their states are the `Volley` the visited ships fire |
| Simulation.Advance | state.py:184-196 | one turn of the update loop: lost iff the sprite is the ship and off screen; otherwise the walk, the groups and the fired shots (`Passed`) extend by this sprite's visit, the new shots being fresh |
| Simulation.Pass | state.py:183-196 | the loop of the update pass: it stops exactly at the off-screen ship; otherwise every copied sprite was visited, in order, and the groups and fired shots are as `Passed` says, the shots being fresh |
| Simulation.PassStep | state.py:184-196 | the pass so far followed by one visit is the pass one sprite further: walk, groups and fired shots |
| Simulation.UnvisitedNotBorn | state.py:183-196 | a sprite of the copied group not yet visited is none of the shots fired so far |
| Collisions.ShipHit | state.py:199-202 | the ship is hit iff some asteroid collides with it |
| Collisions.FindShot | state.py:206-207 | the index of the first shot touching the asteroid, or the length when none does |
| Collisions.Destroy | state.py:207-212 | kill and split in either order give the same groups, as `Struck` states them: the shot and the asteroid removed with the others in order, then the children and one explosion appended; the circles of the asteroid and of the other shots unchanged |
| Collisions.DestroyShotFirst | state.py:208-210 | killing the shot, then splitting and exploding the asteroid, has the effect `Struck` describes |
| Collisions.DestroyShotLast | game_loops.py:112-114 | splitting and exploding, then killing the shot, has the same effect |
| Collisions.Strike | state.py:205-212 | one asteroid's turn of the shot loop: a hit iff some shot touches it, using the first such shot; on a hit the new sprites are fresh and show `Remains`: the two children when the asteroid can split, then an explosion at its position with its radius |
| Collisions.ShotHits | state.py:205-212 | the score rises by the number of duels won; the remaining shots are the survivors; the groups lose the hit asteroids and used shots, keeping their order, and gain the children and explosions in the order they were made; one explosion per hit; those new sprites are fresh and show `Debris`: for each hit asteroid in turn, its children at its position with the split velocities and an explosion where it was, with its radius |
| Collisions.EveryAsteroid | state.py:205-212 | the outer loop over the asteroids: after all of them the duels, the score, the groups and the debris are those of the whole shot phase, and the new sprites are fresh |
| Collisions.ShotTurn | state.py:205-212 | one turn of the outer loop extends the duels, the score, the groups and the debris by one asteroid; only fresh sprites are added |
| Collisions.LeftBehind | state.py:208-210 | the children a split makes and the explosion at the asteroid show `Remains` of the asteroid |
| Collisions.DebrisAppend | state.py:205-212 | the debris of the asteroids so far followed by that of the next one is the debris one asteroid further |
| Collisions.FirstHit | state.py:206-207 | the first shot touching the asteroid, or −1 when none does |
| Collisions.Duel | state.py:205-212 | one result per asteroid, in the order of the asteroid group |
| Collisions.DuelHits | state.py:205-212 | every hit asteroid touches its shot, and that shot was one of the shots |
| Collisions.DuelMisses | state.py:205-212 | an asteroid that scored nothing touches no surviving shot |
| Collisions.DuelConserves | state.py:205-212 | hits plus surviving shots equal the shots at the start, and the survivors have no duplicates |
| Collisions.DuelBounded | state.py:205-212 | a frame scores at most one point per asteroid and per shot |
| Collisions.Survivors | state.py:205-212 | the shots left after the shot phase are among the shots it started with |
| EndlessFrame.SpawnAndUpdate | state.py:176-196 | the spawner's cooldown and asteroid, then the update pass over the copied group with the new asteroid last: lost iff the ship was registered and off screen; otherwise every copied sprite went from its state before to its state now as `Walked` says, and the groups are the old ones plus the asteroid, less the removed sprites in their order, followed by the new shots; the asteroid and the shots are fresh, and the shots are of the frame's kind with the states of the `Volley` the ships fire |
| EndlessFrame.Spawn | state.py:176-180 | the spawn timer steps as a cooldown; a spawned asteroid with the drawn state is appended to the update, draw and asteroid groups; every other sprite's state is unchanged |
| EndlessFrame.Collide | state.py:198-212 | the circles compared are those of the asteroids, the ship and the shots at the start; a crash iff an asteroid touches the ship, and then nothing changes; otherwise the score rises by the duels won, the groups change as `Scored` says, the shots left are the survivors, and the new sprites are fresh and show the `Debris` of the hit asteroids as they were at the start; the states of the given sprites stay as they were |
| EndlessFrame.Shoot | state.py:204-212 | the shot phase of a frame without a crash: the score and groups change as `Collided` says, including the `Debris` the new, fresh sprites show; the shots left are the survivors, and sprites already removed stay out |
| EndlessFrame.ShotPass | state.py:205-212 | `ShotHits` as the frame sees it: the circles and looks of the asteroids and shots at the start; the score, survivors, groups and debris as `ShotHits` says; the states of the given sprites unchanged |
| EndlessFrame.RunFrame | state.py:176-212 | one whole frame, recorded in a trace: the spawner (`Spawns`), the update pass with the shots it fires (`Passes`), then the ship test and shot phase with the debris it leaves (`Collided`) on the circles and looks of the groups after the pass (`Observed`); every sprite the frame made is fresh; every sprite that started off screen ends dead; the score only changes on a frame that goes on |
| Events.Scan | state.py:160-171 | the reaction is that of the first event the mode acts on, and Ignore iff it acts on none |
| Events.ScanAppend | state.py:160-171 | scanning two queues in turn is scanning their concatenation |
| Events.Poll | state.py:160-171 | the event loop returns the `Scan` reaction |
| Events.QuitReaction | game_loops.py:67-76 | quit iff a window close, Q or ESC |
| State.GameOverReaction | state.py:42-53 | quit iff a window close, Q or ESC; restart iff N |
| State.PauseReaction | state.py:108-110 | resume iff P |
| State.PauseOnlyResumes | state.py:108-110 | no event queue makes the pause quit; it resumes iff the queue holds P |
| State.Storage.constructor | state.py:45 | an empty dictionary |
| State.Quit.constructor | state.py:93-94 | keeps the given storage |
| State.GameOver.constructor | state.py:35-38 | the score is the stored "score", or 0 when absent |
| State.GameOver.Step | state.py:40-87 | quit gives a Quit with new empty storage; N gives a new Endless game on the same storage, with score and spawn timer 0, the ship at rest in the centre and the only sprite of the update and draw groups, and no asteroids or shots; anything else stays |
| State.Pause.constructor | state.py:102-105 | keeps the storage and the paused mode |
| State.Pause.Step | state.py:107-127 | P hands back the paused mode itself; otherwise the pause stays |
| State.EndlessReaction | state.py:160-171 | quit iff a window close, Q or ESC; pause iff P |
| State.Endless.constructor | state.py:133-155 | new groups with the standard defaults; one ship at rest in the centre; spawn timer 0 and score 0 |
| State.Endless.Step | state.py:157-221 | quit and pause change nothing; otherwise the frame runs as `RunFrame`'s trace says, including the shots fired and the debris left, all of them fresh sprites; a loss (off screen or crash) stores the score and shows Game Over with it; a frame that goes on adds the duels won to the score and keeps the surviving shots |
| State.Endless.Settle | state.py:190-202 | a lost frame writes the score to the storage and hands it to a new Game Over screen; a frame that goes on keeps this mode with the new score; no sprite changes |
| GameLoops.Endless.constructor | game_loops.py:37-62 | state STATE_ENDLESS, new groups, the ship and the unused second ship at rest in the centre, timer and score 0 |
| GameLoops.Endless.Step | game_loops.py:64-125 | a quit returns STATE_QUIT and changes nothing; otherwise the frame runs as `RunFrame`'s trace says, including the shots fired and the debris left, all of them fresh sprites; it returns STATE_QUIT iff the game was lost, else STATE_ENDLESS; the score grows by the duels won only on a frame that goes on; the second ship, once off screen, leaves every group |

## Left out

- Drawing, images, fonts, the background, the scoreboard and the debug hitboxes: score.py, text.py, assets.py and every `draw` method. They only paint pixels.
- main.py, the window, the clock and the frame-rate cap: process glue outside the core.
- The top-level player.py: its constructor does not fit circleshape.py's signature, and the loops use the `asteroids/` ship.
- The shape of the ship as a triangle (`Player.triangle`): used only for drawing.
- The `step` of the base Loop classes: it only raises NotImplementedError. Quit has no `step` of its own, so `State.Quit` has no Step.
- The score that game_loops.py prints on losing: output only. The model keeps the score.
- pygame's event queue: the loops drain it, and the events after the one they act on are lost. The model takes the frame's events as a sequence and does not model what happens to the rest.
- Randomness: every random draw is a parameter of the operation that uses it. `Asteroid.SpawnDraw.Valid` keeps the draws in the ranges the source draws from.
- Trigonometry and `normalize_ip`: rotations are `Turn` values or a `heading` function; a normalised vector is related to its source by a predicate.
- Asteroid.SpawnTurnInRange: the spawn rotation is a whole number of degrees in [-30, 30]; the model admits any angle in that range, whole or not.
- Taurus.Taurus.Shoot: its requires asks for a unit `direction` from the mouse to the platform, so a mouse exactly on the platform's centre with the cannon ready is excluded. There asteroids/taurus.py:126-127 calls `normalize_ip` on a zero vector, pygame raises ValueError and the game stops; the model has no such failure outcome.
- Taurus.Taurus.FireMjolnir: the same exclusion of a mouse on the platform's centre with the cannon ready, where asteroids/taurus.py:138-139 raises ValueError from `normalize_ip`.
- Taurus.Taurus.Update: inherits both exclusions: its requires rule out a mouse on the platform's centre whenever a held button's cannon is ready, the case in which the source crashes.
- Floating-point rounding: positions, velocities and times are exact reals.
- The values of the constants missing from constants.py: they are fields of `Tuning`. Only `Taurus.AsWrittenOverspeeds` fixes two of them, TAURUS_ACCELERATION = 100 and TAURUS_MAX_SPEED = 5, to exhibit its counterexample; every other proof holds whatever their values.
- Sprites.Frame: the shot image kind is drawn once per frame (`shotKind`), so two ships firing in the same frame (game_loops.py's spare ship) get the same kind, while asteroids/shot.py:13-15 draws a kind for each new shot. The kind only chooses an image.
- `DEBUG_SHOW_HITBOX`: a drawing switch, not defined in constants.py.

## Findings

| source | as written | input that shows it | evidently intended | confidence | as-written member | corrected member |
|---|---|---|---|---|---|---|
| asteroids/taurus.py:108-111 | `velocity_old` names the same Vector2 that `+=` then changes in place, so restoring it keeps the new velocity and the speed limit never applies | TAURUS_ACCELERATION = 100, TAURUS_MAX_SPEED = 5, platform at rest, left engine on, dt = 0.1: the speed becomes 10 | the thrust is undone when it would reach the top speed, so a platform below the top speed stays below it | not executed | Taurus.AsWrittenOverspeeds | Taurus.Kicked |
