# Cyber Runner: a verified model of the game loop

Cyber Runner is an endless-runner browser game. A player character stands on
the ground line at the left of a canvas. Obstacles scroll in from the right:
cacti stand on the ground and birds fly above it. The player jumps
(Space/ArrowUp) or ducks (ArrowDown) to avoid them. Shield power-ups float by
from time to time. Picking one up protects against exactly one hit, for 300
frames. The score grows by 0.1 per frame. The interval between two obstacles
shrinks as the score grows, and never drops below 40 frames. A hit without a
shield stops the loop and reports the floored score to the page. The page
keeps the best score, both on screen and in the browser's local storage.

The model has seven modules:

- `Geometry`: boxes and the strict overlap test (`checkCollision`).
- `Entities`: the canvas constants, plus obstacles and power-ups as values with
  their constructors and their one-step move.
- `PlayerPhysics`: the player's update, jump, duck and shield rules as
  functions on a `PlayerState`. The `Player` class is the mutable player
  record, and each of its methods is proved equal to the matching function.
- `Spawning`: the obstacle interval as a function of the score.
- `Sweeps`: the two per-frame loops over obstacles and power-ups.
  - `ObstaclePass` follows the loop as written: it walks the list front to
    back and stops at a fatal hit.
  - `Hits`, `Survivors`, `Collected` and `PowerUpSurvivors` are independent
    filters and counts that say what the walk amounts to.
- `Session`: one frame of `animate` as the function `Step` on a `World` value,
  and the sequence of frames as `Run`. The `GameSession` class holds the
  effect's mutable variables. Its `Tick` runs the frame in place and is
  proved equal to `Step`. The two splicing loops are the `while` loops of
  `SweepObstacleList` and `SweepPowerUpList`, proved equal to the walks in
  `Sweeps`. `Mount` is the game effect, which builds a fresh session and runs
  its first frame.
- `HighScore`: the page. `handleGameOver`, the high-score load and the start
  button live in the `GamePage` class, with `Best` and `BestAfter` as their
  specification. `PlayFrame` wires a session's frame to the page.

Randomness becomes parameters. `Math.random()` is a `Draws` record of five
values in `[0, 1)`, one per draw that a frame can make. The canvas width and
height and `SCALE_FACTOR` are a `Canvas` value, fixed for one session.
Coordinates and the score are `real`.

The code's behaviour on these points is modelled as written:

- The spawn interval is `max(40, 100 - floor(score / 100))`, recomputed when
  an obstacle spawns. It therefore reaches its floor of 40 only from score
  6000 on. At score 1000 it is still 90 (`Spawning.SpawnIntervalFloor`,
  `Spawning.SpawnIntervalExamples`).
- A shielded hit clears the shield flag but leaves the countdown where it was.
  So a raised flag always has a positive countdown behind it, but a positive
  countdown does not mean the flag is up (`PlayerPhysics.ShieldConverseFails`).
- `duck` sets heights of 25 and 50 without `SCALE_FACTOR`. The player starts
  10 units above the ground line, which `InitialPlayer` keeps.
- `isPaused` is one of the game effect's dependencies. Toggling it therefore
  ends the running effect and starts a new one from the initial variables, so
  within one session the pause flag is a constant. A pause followed by a
  resume therefore starts the run over from score 0 with no obstacles.
  `GameSession.KeyDown` reports the toggle request, and `Mount` is the fresh
  session that follows.

## Model

| member | source | states |
|---|---|---|
| Geometry.Collides | src/components/game/DinoGame.tsx:518-525 | any point strictly inside both boxes makes the test hold; for boxes of positive size, when it holds the centre of the overlap is strictly inside both |
| Geometry.CollidesSymmetric | src/components/game/DinoGame.tsx:518-525 | the overlap test gives the same answer whichever box comes first |
| Geometry.EdgeContactIsNoCollision | src/components/game/DinoGame.tsx:518-525 | the comparisons are strict, so boxes that only share an edge do not collide |
| Geometry.CollidesIffCommonInteriorPoint | src/components/game/DinoGame.tsx:518-525 | for boxes of positive size, the test holds exactly when some point is strictly inside both |
| Entities.Obstacle.Moved | src/components/game/DinoGame.tsx:409-412 | an obstacle moves left by the speed captured at its creation; kind, size, height and speed are unchanged |
| Entities.PowerUp.Moved | src/components/game/DinoGame.tsx:471-474 | a power-up moves left by its captured speed; everything else is unchanged |
| Entities.KindOf | src/components/game/DinoGame.tsx:698 | for a roll in [0, 1), a bird comes from [0, 0.3] and a cactus from (0.3, 1) |
| Entities.NewObstacle | src/components/game/DinoGame.tsx:312-330 | a new obstacle starts at the right border with the current game speed and its requested kind; a cactus stands on the ground line |
| Entities.NewCactusGeometry | src/components/game/DinoGame.tsx:317-322 | a new cactus is between 20 and 40 units wide, between 50 and 80 units tall, and stands on the ground line |
| Entities.NewBirdGeometry | src/components/game/DinoGame.tsx:323-329 | a new bird is 40 by 20 units, and its top edge is between 50 and 170 units above the ground line |
| Entities.NewPowerUp | src/components/game/DinoGame.tsx:423-429 | a new power-up is square and starts at the right border with the current game speed |
| Entities.NewPowerUpGeometry | src/components/game/DinoGame.tsx:423-429 | a new power-up is 20 by 20 units, and its top edge is between 150 and 250 units above the ground line |
| PlayerPhysics.InitialPlayer | src/components/game/DinoGame.tsx:82-94 | the player starts standing, not ducking, unshielded and at rest, with its feet 10 units above the ground line; for a valid canvas its box is positive and it is consistent |
| PlayerPhysics.Jumped | src/components/game/DinoGame.tsx:274-280 | a jump from the ground sets the jump velocity and cancels ducking; in the air it changes nothing; box and shield are untouched |
| PlayerPhysics.Ducked | src/components/game/DinoGame.tsx:282-293 | in the air nothing changes; on the ground the player takes the short (25) or tall (50) height and stands on the ground line; other fields are kept |
| PlayerPhysics.Updated | src/components/game/DinoGame.tsx:251-272 | in the air: position, then velocity plus gravity; the player lands exactly when the new position reaches the ground line, and is then snapped onto it and stopped; on the ground the player stays put; a running shield loses one frame and stays up exactly when its countdown was above 1; an update never raises the flag |
| PlayerPhysics.Shielded | src/components/game/DinoGame.tsx:295-298 | the flag is up with a countdown of 300; box, jump, duck and velocity are untouched |
| PlayerPhysics.ShieldBroken | src/components/game/DinoGame.tsx:719-724 | a shielded hit takes the flag down and leaves the countdown, box, jump, duck and velocity as they were |
| PlayerPhysics.InvPreserved | src/components/game/DinoGame.tsx:251-298 | update, jump, duck, activateShield and a shield break each keep the player above the ground line, a raised shield backed by a positive countdown, no ducking in the air, and the short box while ducking |
| PlayerPhysics.JumpIdempotent | src/components/game/DinoGame.tsx:274-280 | jumping again in mid-air is the same as jumping once |
| PlayerPhysics.LoweredShieldStaysDown | src/components/game/DinoGame.tsx:266-271 | with the flag down, any number of updates leave it down and the countdown where it was |
| PlayerPhysics.ShieldConverseFails | src/components/game/DinoGame.tsx:266-271 | after a shielded hit the flag is down while the countdown stays at 300, and after any number of updates the flag is still down and the countdown still 300: flag implies countdown, but not the converse |
| PlayerPhysics.ShieldCountdown | src/components/game/DinoGame.tsx:266-271 | a shield with countdown t loses one per update and is up after n updates exactly when n < t |
| PlayerPhysics.ShieldLasts300Frames | src/components/game/DinoGame.tsx:295-298 | without a hit, a fresh shield is up for exactly the next 299 updates and gone after the 300th |
| PlayerPhysics.ShieldedKeepsBoxAndIsIdempotent | src/components/game/DinoGame.tsx:295-298 | activateShield does not move or resize the player, and activating twice is the same as activating once |
| PlayerPhysics.Player.constructor | src/components/game/DinoGame.tsx:82-94 | the player record starts as the initial player state, consistent, with the session's gravity, jump power and ground line |
| PlayerPhysics.Player.Update | src/components/game/DinoGame.tsx:251-272 | the in-place update produces exactly `Updated` of the old state and keeps the player consistent |
| PlayerPhysics.Player.Jump | src/components/game/DinoGame.tsx:274-280 | the in-place jump produces exactly `Jumped` of the old state |
| PlayerPhysics.Player.Duck | src/components/game/DinoGame.tsx:282-293 | the in-place duck produces exactly `Ducked` of the old state |
| PlayerPhysics.Player.ActivateShield | src/components/game/DinoGame.tsx:295-298 | the shield is raised with a fresh 300-frame countdown, even over a running one |
| Spawning.SpawnInterval | src/components/game/DinoGame.tsx:702 | the interval is never below 40, and for a non-negative score never above 100 |
| Spawning.SpawnIntervalMonotone | src/components/game/DinoGame.tsx:701-702 | a higher score never gives a longer interval |
| Spawning.SpawnIntervalFloor | src/components/game/DinoGame.tsx:702 | the interval is 40 exactly when the score is at least 6000 |
| Spawning.SpawnIntervalExamples | src/components/game/DinoGame.tsx:702 | scores 0, 100, 1000 and 6000 give intervals 100, 99, 90 and 40 |
| Sweeps.ObstaclePass | src/components/game/DinoGame.tsx:714-739 | the walk never raises the shield, a crash leaves the shield down, and the list never grows |
| Sweeps.Survivors | src/components/game/DinoGame.tsx:734-738 | no obstacle that remains hits the player or has left the screen |
| Sweeps.SurvivorsKeepEverySafeObstacle | src/components/game/DinoGame.tsx:714-739 | every moved obstacle that neither hits the player nor has left the screen remains |
| Sweeps.ObstaclePassMeaning | src/components/game/DinoGame.tsx:714-739 | the game ends exactly when more moved obstacles hit than the shield absorbs (one if up, else none); otherwise the survivors remain and the shield stays up only if it was up and nothing hit |
| Sweeps.SurvivorsInOrder | src/components/game/DinoGame.tsx:722-737 | the splices keep the remaining obstacles in their original order |
| Sweeps.ShieldAbsorbsOneHit | src/components/game/DinoGame.tsx:719-724 | with the shield up and exactly one hit, the game goes on, the obstacle that hit is gone, and the shield is spent |
| Sweeps.PowerUpSurvivors | src/components/game/DinoGame.tsx:742-759 | no power-up that remains touches the player or has left the screen |
| Sweeps.PowerUpSurvivorsKeepEverySafePowerUp | src/components/game/DinoGame.tsx:742-759 | every moved power-up that neither touches the player nor has left the screen remains |
| Sweeps.CollectedMeaning | src/components/game/DinoGame.tsx:746-748 | the loop calls activateShield exactly when some moved power-up touches the player |
| Sweeps.PowerUpSurvivorsInOrder | src/components/game/DinoGame.tsx:749-756 | the splices keep the remaining power-ups in their original order |
| Session.ObstacleSpawned | src/components/game/DinoGame.tsx:696-704 | the timer counts the frame; when it reaches the interval, exactly the obstacle of the kind and sizes drawn is appended, the interval becomes the one the score gives, and the timer restarts at 0; otherwise the list and the interval are kept; player, power-ups and score are untouched |
| Session.PowerUpSpawned | src/components/game/DinoGame.tsx:707-711 | once the counted timer reaches 500 and the gate draw exceeds 0.7, exactly the power-up at the drawn altitude is appended and the timer restarts at 0; otherwise the list is kept and the timer counts the frame; obstacles and their timers are untouched |
| Session.ObstacleSpawnerWaits | src/components/game/DinoGame.tsx:696-704 | while the timer stays below the interval, the spawner only counts frames |
| Session.ObstacleSpawnPeriod | src/components/game/DinoGame.tsx:696-704 | from a timer t below an interval i, the next i - t - 1 frames add nothing and the following one appends the drawn obstacle, restarts the timer and takes the interval of the current score |
| Session.PowerUpSpawnerWaits | src/components/game/DinoGame.tsx:707-711 | whatever the gate draws, no power-up appears before its timer reaches 500 |
| Session.SweepObstacleList | src/components/game/DinoGame.tsx:714-739 | the in-place splicing loop over the obstacle list returns exactly the list, shield flag and crash verdict of the walk `ObstaclePass` |
| Session.SweepPowerUpList | src/components/game/DinoGame.tsx:742-759 | the in-place splicing loop over the power-up list returns exactly `PowerUpSurvivors`, and reports a pick-up exactly when `Collected` holds |
| Session.InitialWorld | src/components/game/DinoGame.tsx:71-94 | a session starts with no obstacles or power-ups, both timers and the score at 0, the initial player, and the interval score 0 gives, which no non-negative score exceeds |
| Session.InitialWorldInv | src/components/game/DinoGame.tsx:71-94 | the initial variables satisfy the frame invariant |
| Session.ObstacleSpawnedInv | src/components/game/DinoGame.tsx:696-704 | the obstacle spawner keeps the timer below the interval and never lengthens the interval |
| Session.PreparedInv | src/components/game/DinoGame.tsx:689-711 | the player update and both spawners keep the frame invariant and leave the score alone |
| Session.ObstaclesSweptInv | src/components/game/DinoGame.tsx:714-739 | the obstacle sweep keeps the frame invariant |
| Session.FinishedInv | src/components/game/DinoGame.tsx:742-765 | the power-up sweep and the score increment keep the frame invariant |
| Session.Step | src/components/game/DinoGame.tsx:651-779 | a paused frame changes nothing; a stopped frame reports the floored score and leaves the score alone; a continuing frame adds 0.1; the spawn timers and interval are those the spawners give |
| Session.StepPreservesInv | src/components/game/DinoGame.tsx:651-779 | every frame keeps the invariant: a consistent player, interval within [40, 100] and no smaller than the score's own, timer below the interval, non-negative counters and score |
| Session.StepMeaning | src/components/game/DinoGame.tsx:651-779 | a paused frame changes nothing; otherwise the player is first moved by one `Updated` step; the loop stops exactly when hits exceed the shield, reports the floored score, leaves the score as it was and the shield down; a continuing frame adds 0.1, keeps exactly the surviving obstacles and power-ups, and leaves the updated player with the shield the sweep left, or a fresh 300-frame shield after a pick-up; the interval never grows |
| Session.FirstFrameContinues | src/components/game/DinoGame.tsx:782 | the first frame of a session never ends the game |
| Session.Run | src/components/game/DinoGame.tsx:762-778 | a run that ends reports the floor of its final score; an unpaused run that goes on adds 0.1 per frame to the score |
| Session.RunPreservesInv | src/components/game/DinoGame.tsx:778 | over any number of frames the invariant holds, the interval never grows, the score never falls, and the player stays above the ground line |
| Session.PausedRunIsFrozen | src/components/game/DinoGame.tsx:654-658 | a paused session is left completely unchanged however many frames pass |
| Session.OnKeyDown | src/components/game/DinoGame.tsx:483-497 | during play and not paused, Space and ArrowUp jump and ArrowDown ducks; without play, while paused, or for any other key, the player is unchanged; consistency is kept |
| Session.OnKeyUp | src/components/game/DinoGame.tsx:505-512 | releasing ArrowDown stands a grounded player up on the ground line at the tall height, whether or not the game is paused; other keys change nothing; consistency is kept |
| Session.GameSession.constructor | src/components/game/DinoGame.tsx:71-94 | a new session holds the initial variables and satisfies the invariant |
| Session.GameSession.SpawnObstacle | src/components/game/DinoGame.tsx:696-704 | the obstacle spawner, in place, is exactly `ObstacleSpawned` |
| Session.GameSession.SpawnPowerUp | src/components/game/DinoGame.tsx:707-711 | the power-up spawner, in place, is exactly `PowerUpSpawned` |
| Session.GameSession.Prepare | src/components/game/DinoGame.tsx:689-711 | the player update and both spawners, in place, give exactly `Prepared` of the old world |
| Session.GameSession.SweepObstacles | src/components/game/DinoGame.tsx:714-739 | the session's obstacle list and the player's shield flag become those the walk leaves, and the crash verdict is the walk's |
| Session.GameSession.SweepPowerUps | src/components/game/DinoGame.tsx:742-759 | the session's power-up list becomes the survivors, and the player gets a fresh shield exactly when a power-up was picked up |
| Session.GameSession.Tick | src/components/game/DinoGame.tsx:651-779 | the frame, run in place, produces exactly the world and outcome of `Step`; the loop is stopped exactly when the frame reported a game over |
| Session.GameSession.KeyDown | src/components/game/DinoGame.tsx:483-503 | the player becomes `OnKeyDown` of its old state; a pause toggle is requested exactly for Escape or P during play |
| Session.GameSession.KeyUp | src/components/game/DinoGame.tsx:505-512 | the player becomes `OnKeyUp` of its old state |
| Session.Mount | src/components/game/DinoGame.tsx:16-25 | a session exists exactly when the game is playing and the canvas exists; it is fresh and runs the first frame from the initial world |
| HighScore.Best | src/pages/game.tsx:19-25 | the new best score is at least the old one and at least the score reported, and is one of the two |
| HighScore.BestAfter | src/pages/game.tsx:19-25 | after a series of game overs the best score is at least its starting value and at least the last score reported |
| HighScore.BestAfterIsMaximum | src/pages/game.tsx:19-25 | after any series of game overs the best score is at least its starting value and every score reported, and is one of them |
| HighScore.GamePage.constructor | src/pages/game.tsx:8-9 | the page starts not playing, with best score 0, over whatever storage holds |
| HighScore.GamePage.LoadHighScore | src/pages/game.tsx:11-17 | a stored value replaces the shown best score; from the initial 0, shown and stored values then agree |
| HighScore.GamePage.Start | src/components/game/DinoGame.tsx:840 | the start button sets the game playing |
| HighScore.GamePage.HandleGameOver | src/pages/game.tsx:19-25 | a strictly better score becomes the best score and is stored; otherwise both stay; the game stops either way; agreement between shown and stored values is kept |
| HighScore.PlayFrame | src/components/game/DinoGame.tsx:726-730 | a frame that ends the game hands its floored score to handleGameOver: the best score and the stored value take it only if it is a strict improvement, and play stops; a continuing frame leaves the page alone |

## Left out

- Drawing: canvas painting, the grid, scanlines, glitches and the pause screen. The leg and wing animation counters and `gameFrame` feed only the drawing.
- The React state `score` is not modelled. It is written on every frame and at a game over but never read: the canvas shows the loop's own score.
- The resize listener and `updateCanvasSize` are not modelled. A session's canvas size and `SCALE_FACTOR` are fixed by the `Canvas` value, as they are when the effect runs.
- `requestAnimationFrame`, `cancelAnimationFrame` and listener registration and cleanup are not modelled. They are lifecycle; `Run` stands for the frames one after another, and `stopped` and `Frame` stand for whether another frame was requested.
- Session.Step: the speed-up `gameSpeed += 0.1` when `score % 100 === 0` is not modelled, so game speed stays at its initial value. The score is accumulated in binary floating point, where repeated 0.1 steps generally do not land exactly on multiples of 100. Modelling the check on exact reals would fire it where the program does not.
- PlayerPhysics.Updated: positions, velocities and the score are exact reals, not IEEE doubles, so rounding is not modelled.
- HighScore.GamePage.LoadHighScore: storage holds an `Option<int>`, so `parseInt` of a text that is not a number, and an empty stored text, are not modelled.
- The `keys` map written by the key handlers is not modelled. Nothing reads it.
- Session.GameSession.SweepPowerUps: `activateShield` runs once after the loop rather than at each pick-up inside it. The loop reads only the player's box, which activation leaves alone, and a second activation changes nothing (`PlayerPhysics.ShieldedKeepsBoxAndIsIdempotent`), so the resulting state is the same.
- `KeyDown` returns the pause toggle request rather than performing it. The toggle re-runs the game effect, which `Mount` models as a fresh session.
- `Math.random()` is not modelled. Each frame's draws are a `Draws` parameter. The geometry lemmas require each draw to lie in `[0, 1)`.
- Obstacles and power-ups are class instances in the program and values here. The program never shares an instance between the two lists or keeps another reference to one, so no aliasing is lost.
- The rest of the site is not part of this model: navigation, the 3D hero scene, the portfolio sections and the help panel.
