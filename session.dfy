/** One run of the game loop: the state of a session as a value, one frame
    of `animate` as a function on it, and the mutable session whose `Tick`,
    spawners, sweeps and key handlers are proved to follow that function. */
module Session {
  import opened Geometry
  import opened Entities
  import opened PlayerPhysics
  import opened Spawning
  import opened Sweeps

  /** Frames the power-up spawner waits before its random gate is tried. */
  const PowerUpDelay: int := 500

  /** The session variables that a frame reads and writes. */
  datatype World = World(
    player: PlayerState,
    obstacles: seq<Obstacle>,
    powerUps: seq<PowerUp>,
    spawnTimer: int,
    spawnInterval: int,
    powerUpTimer: int,
    score: real)

  /** The Math.random() values one frame consumes: obstacle kind, the
      obstacle's two size draws, the power-up gate and the power-up altitude. */
  datatype Draws = Draws(kindRoll: real, sizeRoll: real, heightRoll: real, gateRoll: real, placeRoll: real)

  /** Whether the frame asked for another animation frame, or stopped the
      loop and reported a final score to onGameOver. */
  datatype Frame = NextFrame | Stopped(finalScore: int)

  datatype Outcome = Outcome(world: World, frame: Frame)

  /** The game variables as a session starts: nothing on screen, both timers
      and the score at zero, and the spawn interval the one score 0 gives,
      the longest any non-negative score gives. */
  function InitialWorld(c: Canvas): (w: World)
    ensures w.obstacles == [] && w.powerUps == [] && w.score == 0.0
    ensures w.spawnTimer == 0 && w.powerUpTimer == 0
    ensures w.spawnInterval == SpawnInterval(w.score) && forall s: real :: 0.0 <= s ==> SpawnInterval(s) <= w.spawnInterval
    ensures w.player == InitialPlayer(c)
  {
    World(InitialPlayer(c), [], [], 0, InitialInterval, 0, 0.0)
  }

  /** What every frame keeps: a consistent player; a spawn interval within
      [40, 100] and no smaller than the score's own interval; a spawn timer
      below the interval; a non-negative power-up timer and score. */
  predicate WorldInv(w: World, c: Canvas) {
    && Inv(w.player, c.height)
    && MinInterval <= w.spawnInterval <= InitialInterval
    && SpawnInterval(w.score) <= w.spawnInterval
    && 0 <= w.spawnTimer < w.spawnInterval
    && 0 <= w.powerUpTimer
    && 0.0 <= w.score
  }

  lemma InitialWorldInv(c: Canvas)
    requires c.Valid()
    ensures WorldInv(InitialWorld(c), c)
  {
  }

  /** The obstacle spawner: count the frame; once the timer reaches the
      interval, append one new obstacle, recompute the interval from the score
      and restart the timer. */
  function ObstacleSpawned(w: World, c: Canvas, d: Draws): (r: World)
    ensures r.player == w.player && r.powerUps == w.powerUps && r.powerUpTimer == w.powerUpTimer && r.score == w.score
    ensures w.spawnTimer + 1 >= w.spawnInterval ==>
      && r.obstacles == w.obstacles + [NewObstacle(KindOf(d.kindRoll), d.sizeRoll, d.heightRoll, c, c.GameSpeed())]
      && r.spawnInterval == SpawnInterval(w.score)
      && r.spawnTimer == 0
    ensures w.spawnTimer + 1 < w.spawnInterval ==>
      r.obstacles == w.obstacles && r.spawnInterval == w.spawnInterval && r.spawnTimer == w.spawnTimer + 1
  {
    var t := w.spawnTimer + 1;
    if t >= w.spawnInterval then
      var o := NewObstacle(KindOf(d.kindRoll), d.sizeRoll, d.heightRoll, c, c.GameSpeed());
      w.(obstacles := w.obstacles + [o], spawnInterval := SpawnInterval(w.score), spawnTimer := 0)
    else
      w.(spawnTimer := t)
  }

  /** The power-up spawner: count the frame; from 500 frames on, each
      frame's gate draw above 0.7 appends a power-up and restarts the timer. */
  function PowerUpSpawned(w: World, c: Canvas, d: Draws): (r: World)
    ensures r.player == w.player && r.obstacles == w.obstacles && r.score == w.score
    ensures r.spawnTimer == w.spawnTimer && r.spawnInterval == w.spawnInterval
    ensures w.powerUpTimer + 1 >= PowerUpDelay && d.gateRoll > 0.7 ==>
      r.powerUps == w.powerUps + [NewPowerUp(d.placeRoll, c, c.GameSpeed())] && r.powerUpTimer == 0
    ensures !(w.powerUpTimer + 1 >= PowerUpDelay && d.gateRoll > 0.7) ==>
      r.powerUps == w.powerUps && r.powerUpTimer == w.powerUpTimer + 1
  {
    var t := w.powerUpTimer + 1;
    if t >= PowerUpDelay && d.gateRoll > 0.7 then
      w.(powerUps := w.powerUps + [NewPowerUp(d.placeRoll, c, c.GameSpeed())], powerUpTimer := 0)
    else
      w.(powerUpTimer := t)
  }

  /** The obstacle spawner alone over a series of frames, one draw each. */
  function ObstacleSpawnedN(w: World, c: Canvas, ds: seq<Draws>): World
    decreases |ds|
  {
    if ds == [] then w else ObstacleSpawned(ObstacleSpawnedN(w, c, ds[..|ds| - 1]), c, ds[|ds| - 1])
  }

  /** Until the timer reaches the interval, the spawner only counts frames. */
  lemma {:induction false} ObstacleSpawnerWaits(w: World, c: Canvas, ds: seq<Draws>)
    requires w.spawnTimer + |ds| < w.spawnInterval
    ensures ObstacleSpawnedN(w, c, ds) == w.(spawnTimer := w.spawnTimer + |ds|)
    decreases |ds|
  {
    if ds != [] {
      ObstacleSpawnerWaits(w, c, ds[..|ds| - 1]);
    }
  }

  /** The spawn period: from timer `t` below the interval `i`, the first
      `i - t - 1` frames append nothing and the next one appends exactly the
      obstacle its draws describe, restarts the timer and takes the interval
      the score now gives. */
  lemma ObstacleSpawnPeriod(w: World, c: Canvas, ds: seq<Draws>)
    requires 0 <= w.spawnTimer < w.spawnInterval && |ds| == w.spawnInterval - w.spawnTimer
    ensures var last := ds[|ds| - 1];
      var r := ObstacleSpawnedN(w, c, ds);
      && ObstacleSpawnedN(w, c, ds[..|ds| - 1]).obstacles == w.obstacles
      && r.obstacles == w.obstacles + [NewObstacle(KindOf(last.kindRoll), last.sizeRoll, last.heightRoll, c, c.GameSpeed())]
      && r.spawnTimer == 0
      && r.spawnInterval == SpawnInterval(w.score)
  {
    ObstacleSpawnerWaits(w, c, ds[..|ds| - 1]);
  }

  /** The power-up spawner alone over a series of frames, one draw each. */
  function PowerUpSpawnedN(w: World, c: Canvas, ds: seq<Draws>): World
    decreases |ds|
  {
    if ds == [] then w else PowerUpSpawned(PowerUpSpawnedN(w, c, ds[..|ds| - 1]), c, ds[|ds| - 1])
  }

  /** Whatever the gate draws, no power-up appears within 500 frames of the
      last one (or of the start): the spawner only counts frames. */
  lemma {:induction false} PowerUpSpawnerWaits(w: World, c: Canvas, ds: seq<Draws>)
    requires w.powerUpTimer + |ds| < PowerUpDelay
    ensures PowerUpSpawnedN(w, c, ds) == w.(powerUpTimer := w.powerUpTimer + |ds|)
    decreases |ds|
  {
    if ds != [] {
      PowerUpSpawnerWaits(w, c, ds[..|ds| - 1]);
    }
  }

  /** The world just before the two sweeps: player updated, spawners run. */
  function Prepared(w: World, c: Canvas, d: Draws): World {
    PowerUpSpawned(ObstacleSpawned(w.(player := Updated(w.player, c.Gravity(), c.height)), c, d), c, d)
  }

  /** Whether the obstacle sweep of a prepared world ends the game. */
  predicate Crashes(w: World) {
    ObstaclePass(w.player.Bounds(), w.player.hasShield, w.obstacles).crashed
  }

  /** The world after the obstacle sweep: the list and the shield flag it
      leaves. */
  function ObstaclesSwept(w: World): World {
    var sweep := ObstaclePass(w.player.Bounds(), w.player.hasShield, w.obstacles);
    w.(player := w.player.(hasShield := sweep.shield), obstacles := sweep.kept)
  }

  /** The power-up sweep: the survivors remain, and a pick-up grants a fresh
      shield. */
  function PowerUpsSwept(w: World): World {
    var box := w.player.Bounds();
    var p := if Collected(box, w.powerUps) then Shielded(w.player) else w.player;
    w.(player := p, powerUps := PowerUpSurvivors(box, w.powerUps))
  }

  /** The rest of a frame that goes on: the power-up sweep, then the score
      grows by 0.1. */
  function Finished(w: World): World {
    var v := PowerUpsSwept(w);
    v.(score := v.score + 0.1)
  }

  /** One call of `animate`. Paused, nothing changes and the loop goes on.
      Otherwise the player is updated, the spawners run and the obstacles are
      swept; a fatal hit stops the loop with the floored score, before the
      power-ups are swept and before the score grows. Else the frame is
      finished and the loop goes on. */
  function Step(w: World, c: Canvas, d: Draws, paused: bool): (r: Outcome)
    ensures paused ==> r == Outcome(w, NextFrame)
    ensures r.frame.Stopped? ==> r.frame.finalScore == w.score.Floor && r.world.score == w.score
    ensures !paused && r.frame.NextFrame? ==> r.world.score == w.score + 0.1
    ensures !paused ==>
      && r.world.spawnTimer == ObstacleSpawned(w, c, d).spawnTimer
      && r.world.spawnInterval == ObstacleSpawned(w, c, d).spawnInterval
      && r.world.powerUpTimer == PowerUpSpawned(w, c, d).powerUpTimer
  {
    if paused then Outcome(w, NextFrame)
    else
      var w2 := Prepared(w, c, d);
      if Crashes(w2) then Outcome(ObstaclesSwept(w2), Stopped(w.score.Floor))
      else Outcome(Finished(ObstaclesSwept(w2)), NextFrame)
  }

  /** The spawner keeps its timer below the interval, and the interval
      never grows. */
  lemma ObstacleSpawnedInv(w: World, c: Canvas, d: Draws)
    requires WorldInv(w, c)
    ensures var r := ObstacleSpawned(w, c, d);
      && WorldInv(r, c)
      && r.spawnInterval <= w.spawnInterval
  {
  }

  /** The start of a frame keeps the invariant and the score. */
  lemma PreparedInv(w: World, c: Canvas, d: Draws)
    requires WorldInv(w, c)
    ensures WorldInv(Prepared(w, c, d), c) && Prepared(w, c, d).score == w.score
  {
    var w1 := w.(player := Updated(w.player, c.Gravity(), c.height));
    InvPreserved(w.player, c.height, c.Gravity(), c.JumpPower(), false);
    ObstacleSpawnedInv(w1, c, d);
  }

  /** The obstacle sweep keeps the invariant: it can only lower the shield. */
  lemma ObstaclesSweptInv(w: World, c: Canvas)
    requires WorldInv(w, c)
    ensures WorldInv(ObstaclesSwept(w), c)
  {
    InvPreserved(w.player, c.height, c.Gravity(), c.JumpPower(), false);
  }

  /** The rest of a continuing frame keeps the invariant. */
  lemma FinishedInv(w: World, c: Canvas)
    requires WorldInv(w, c)
    ensures WorldInv(Finished(w), c)
  {
    InvPreserved(w.player, c.height, c.Gravity(), c.JumpPower(), false);
    SpawnIntervalMonotone(w.score, w.score + 0.1);
  }

  /** Every frame keeps the invariant. */
  lemma StepPreservesInv(w: World, c: Canvas, d: Draws, paused: bool)
    requires WorldInv(w, c)
    ensures WorldInv(Step(w, c, d, paused).world, c)
  {
    if !paused {
      var w2 := Prepared(w, c, d);
      PreparedInv(w, c, d);
      ObstaclesSweptInv(w2, c);
      if !Crashes(w2) {
        FinishedInv(ObstaclesSwept(w2), c);
      }
    }
  }

  /** What one frame promises. A paused frame changes nothing. Otherwise the
      player is first moved by one update; the loop stops exactly when more
      moved obstacles hit the updated player than the shield absorbs; a
      stopped frame reports the floored score, leaves the score as it was and
      the shield down; a continuing frame adds 0.1 to the score, keeps exactly
      the surviving obstacles and power-ups, and leaves the updated player
      with the shield the sweep left, or a fresh 300-frame shield after a
      pick-up. The spawn interval
      never grows. */
  lemma StepMeaning(w: World, c: Canvas, d: Draws, paused: bool)
    requires WorldInv(w, c)
    ensures var r := Step(w, c, d, paused);
      && (paused ==> r == Outcome(w, NextFrame))
      && r.world.spawnInterval <= w.spawnInterval
      && (!paused ==>
            var w2 := Prepared(w, c, d);
            var box := w2.player.Bounds();
            var shield := w2.player.hasShield;
            && w2.player == Updated(w.player, c.Gravity(), c.height)
            && (r.frame.Stopped? <==> Hits(box, w2.obstacles) > (if shield then 1 else 0))
            && (r.frame.Stopped? ==>
                  && r.frame.finalScore == w.score.Floor && r.world.score == w.score
                  && r.world.player == w2.player.(hasShield := false))
            && (r.frame.NextFrame? ==>
                  && r.world.score == w.score + 0.1
                  && r.world.player ==
                       (var u := w2.player.(hasShield := shield && Hits(box, w2.obstacles) == 0);
                        if Collected(box, w2.powerUps) then Shielded(u) else u)
                  && r.world.obstacles == Survivors(box, w2.obstacles)
                  && r.world.powerUps == PowerUpSurvivors(box, w2.powerUps)
                  && (r.world.player.hasShield <==>
                        (shield && Hits(box, w2.obstacles) == 0) || Collected(box, w2.powerUps))))
  {
    if !paused {
      var w2 := Prepared(w, c, d);
      ObstaclePassMeaning(w2.player.Bounds(), w2.player.hasShield, w2.obstacles);
      ObstacleSpawnedInv(w.(player := Updated(w.player, c.Gravity(), c.height)), c, d);
    }
  }

  /** The first frame of a session never ends it: no obstacle exists yet. */
  lemma FirstFrameContinues(c: Canvas, d: Draws, paused: bool)
    ensures Step(InitialWorld(c), c, d, paused).frame == NextFrame
  {
  }

  /** Frames one after another until the loop stops or the draws run out. */
  function Run(w: World, c: Canvas, ds: seq<Draws>, paused: bool): (r: Outcome)
    ensures r.frame.Stopped? ==> r.frame.finalScore == r.world.score.Floor
    ensures !paused && r.frame.NextFrame? ==> r.world.score == w.score + (|ds| as real) / 10.0
    decreases |ds|
  {
    if ds == [] then Outcome(w, NextFrame)
    else
      var o := Step(w, c, ds[0], paused);
      if o.frame.Stopped? then o else Run(o.world, c, ds[1..], paused)
  }

  /** Over any sequence of frames: the invariant holds throughout (so the
      player never sinks below the ground line and the interval stays within
      [40, 100]), the interval never grows and the score never falls. */
  lemma {:induction false} RunPreservesInv(w: World, c: Canvas, ds: seq<Draws>, paused: bool)
    requires WorldInv(w, c)
    ensures var r := Run(w, c, ds, paused).world;
      && WorldInv(r, c)
      && r.spawnInterval <= w.spawnInterval
      && r.score >= w.score
      && r.player.y + r.player.height <= c.height
    decreases |ds|
  {
    if ds != [] {
      var o := Step(w, c, ds[0], paused);
      StepPreservesInv(w, c, ds[0], paused);
      StepMeaning(w, c, ds[0], paused);
      if !o.frame.Stopped? {
        RunPreservesInv(o.world, c, ds[1..], paused);
      }
    }
  }

  /** A paused session stays frozen however many frames pass. */
  lemma {:induction false} PausedRunIsFrozen(w: World, c: Canvas, ds: seq<Draws>)
    ensures Run(w, c, ds, true) == Outcome(w, NextFrame)
    decreases |ds|
  {
    if ds != [] {
      PausedRunIsFrozen(w, c, ds[1..]);
    }
  }

  // --------------------------------------------------------------- input

  datatype Key = Space | ArrowUp | ArrowDown | Escape | KeyP | OtherKey

  /** handleKeyDown's effect on the player: jump on Space or ArrowUp, duck
      on ArrowDown, both only while playing and not paused. */
  function OnKeyDown(p: PlayerState, key: Key, isPlaying: bool, isPaused: bool, c: Canvas): (r: PlayerState)
    ensures !isPlaying || isPaused ==> r == p
    ensures key != Space && key != ArrowUp && key != ArrowDown ==> r == p
    ensures isPlaying && !isPaused && (key == Space || key == ArrowUp) ==> r == Jumped(p, c.JumpPower())
    ensures isPlaying && !isPaused && key == ArrowDown ==> r == Ducked(p, true, c.height)
    ensures Inv(p, c.height) ==> Inv(r, c.height)
  {
    if (key == Space || key == ArrowUp) && isPlaying && !isPaused then Jumped(p, c.JumpPower())
    else if key == ArrowDown && isPlaying && !isPaused then Ducked(p, true, c.height)
    else p
  }

  /** handleKeyUp: releasing ArrowDown stands the player up (this one is not
      gated on pause). */
  function OnKeyUp(p: PlayerState, key: Key, c: Canvas): (r: PlayerState)
    ensures key != ArrowDown ==> r == p
    ensures key == ArrowDown ==> r == Ducked(p, false, c.height)
    ensures key == ArrowDown && !p.jumping ==> !r.ducking && r.height == StandHeight && r.y + r.height == c.height
    ensures Inv(p, c.height) ==> Inv(r, c.height)
  {
    if key == ArrowDown then Ducked(p, false, c.height) else p
  }

  // ------------------------------------------------------------- the loops

  /** The obstacle loop of `animate`, splicing the list in place: each
      obstacle is moved, then tested against the player's box; it reports the
      list, the shield flag and whether a hit ended the game. */
  method SweepObstacleList(box: Box, shield0: bool, obs: seq<Obstacle>)
      returns (list: seq<Obstacle>, shield: bool, crashed: bool)
    ensures ObstacleSweep(list, shield, crashed) == ObstaclePass(box, shield0, obs)
  {
    list := obs;
    shield := shield0;
    ghost var whole := ObstaclePass(box, shield, list);
    ghost var done: seq<Obstacle> := [];
    ghost var rest := list;
    var i := 0;
    crashed := false;
    while i < |list|
      invariant |done| == i && list == done + rest
      invariant Prepend(done, ObstaclePass(box, shield, rest)) == whole
      decreases |list| - i
    {
      SpliceAt(done, rest, rest[0].Moved());
      ObstacleStep(box, shield, done, rest);
      var o := list[i].Moved();
      list := list[i := o];
      if Collides(box, o.Bounds()) {
        if shield {
          shield := false;
          list := list[..i] + list[i + 1..];
          rest := rest[1..];
        } else {
          crashed := true;
          assert whole == ObstacleSweep(list, false, true);
          return;
        }
      } else if o.OffScreen() {
        list := list[..i] + list[i + 1..];
        rest := rest[1..];
      } else {
        done := done + [o];
        rest := rest[1..];
        i := i + 1;
      }
    }
    assert list == done;
  }

  /** The power-up loop of `animate`, splicing the list in place: each
      power-up is moved, then tested against the player's box; it reports the
      list and whether anything was picked up. */
  method SweepPowerUpList(box: Box, ups: seq<PowerUp>) returns (list: seq<PowerUp>, collected: bool)
    ensures list == PowerUpSurvivors(box, ups)
    ensures collected == Collected(box, ups)
  {
    list := ups;
    collected := false;
    ghost var done: seq<PowerUp> := [];
    ghost var rest := list;
    var i := 0;
    while i < |list|
      invariant |done| == i && list == done + rest
      invariant done + PowerUpSurvivors(box, rest) == PowerUpSurvivors(box, ups)
      invariant (collected || Collected(box, rest)) == Collected(box, ups)
      decreases |list| - i
    {
      SpliceAt(done, rest, rest[0].Moved());
      PowerUpStep(box, done, rest);
      var u := list[i].Moved();
      list := list[i := u];
      if Collides(box, u.Bounds()) {
        collected := true;
        list := list[..i] + list[i + 1..];
        rest := rest[1..];
      } else if u.OffScreen() {
        list := list[..i] + list[i + 1..];
        rest := rest[1..];
      } else {
        done := done + [u];
        rest := rest[1..];
        i := i + 1;
      }
    }
    assert list == done;
  }

  // ------------------------------------------------------------- the session

  /** The variables of one run of the game effect. `isPlaying` and
      `isPaused` are the values the effect captured when it started. */
  class GameSession {
    const canvas: Canvas
    const isPlaying: bool
    const isPaused: bool
    const player: Player
    var obstacles: seq<Obstacle>
    var powerUps: seq<PowerUp>
    var spawnTimer: int
    var spawnInterval: int
    var powerUpTimer: int
    var score: real
    /** The loop stopped: no further animation frame was requested. */
    var stopped: bool

    function Snapshot(): World
      reads this, player
    {
      World(player.State(), obstacles, powerUps, spawnTimer, spawnInterval, powerUpTimer, score)
    }

    predicate Valid()
      reads this, player
    {
      && canvas.Valid()
      && player.ground == canvas.height
      && player.gravity == canvas.Gravity()
      && player.jumpPower == canvas.JumpPower()
      && WorldInv(Snapshot(), canvas)
    }

    constructor (c: Canvas, isPlaying: bool, isPaused: bool)
      requires c.Valid()
      ensures Valid() && Snapshot() == InitialWorld(c) && !stopped
      ensures canvas == c && this.isPlaying == isPlaying && this.isPaused == isPaused
      ensures fresh(player)
    {
      canvas := c;
      this.isPlaying := isPlaying;
      this.isPaused := isPaused;
      player := new Player(c);
      obstacles := [];
      powerUps := [];
      spawnTimer := 0;
      spawnInterval := InitialInterval;
      powerUpTimer := 0;
      score := 0.0;
      stopped := false;
    }

    method SpawnObstacle(d: Draws)
      modifies this`obstacles, this`spawnTimer, this`spawnInterval
      ensures Snapshot() == ObstacleSpawned(old(Snapshot()), canvas, d)
    {
      spawnTimer := spawnTimer + 1;
      if spawnTimer >= spawnInterval {
        var kind := KindOf(d.kindRoll);
        obstacles := obstacles + [NewObstacle(kind, d.sizeRoll, d.heightRoll, canvas, canvas.GameSpeed())];
        spawnInterval := SpawnInterval(score);
        spawnTimer := 0;
      }
    }

    method SpawnPowerUp(d: Draws)
      modifies this`powerUps, this`powerUpTimer
      ensures Snapshot() == PowerUpSpawned(old(Snapshot()), canvas, d)
    {
      powerUpTimer := powerUpTimer + 1;
      if powerUpTimer >= PowerUpDelay && d.gateRoll > 0.7 {
        powerUps := powerUps + [NewPowerUp(d.placeRoll, canvas, canvas.GameSpeed())];
        powerUpTimer := 0;
      }
    }

    /** The obstacle loop over the session's list and the player's shield. */
    method SweepObstacles() returns (crashed: bool)
      modifies this`obstacles, player`hasShield
      ensures old(player.Valid()) ==> player.Valid()
      ensures Snapshot() == ObstaclesSwept(old(Snapshot())) && crashed == Crashes(old(Snapshot()))
    {
      var kept, shield;
      kept, shield, crashed := SweepObstacleList(player.Bounds(), player.hasShield, obstacles);
      obstacles := kept;
      player.hasShield := shield;
    }

    /** The power-up loop over the session's list; a pick-up activates the
        shield. */
    method SweepPowerUps()
      requires player.Valid()
      modifies this`powerUps, player`hasShield, player`shieldTimer
      ensures player.Valid()
      ensures Snapshot() == PowerUpsSwept(old(Snapshot()))
    {
      var kept, collected := SweepPowerUpList(player.Bounds(), powerUps);
      powerUps := kept;
      if collected {
        player.ActivateShield();
      }
    }

    /** The start of a frame: the player update, then both spawners. */
    method Prepare(d: Draws)
      requires player.Valid() && player.gravity == canvas.Gravity() && player.ground == canvas.height
      modifies this`obstacles, this`spawnTimer, this`spawnInterval, this`powerUps, this`powerUpTimer
      modifies player`y, player`velocityY, player`jumping, player`shieldTimer, player`hasShield
      ensures player.Valid()
      ensures Snapshot() == Prepared(old(Snapshot()), canvas, d)
    {
      ghost var w := Snapshot();
      player.Update();
      ghost var w1 := w.(player := Updated(w.player, canvas.Gravity(), canvas.height));
      assert Snapshot() == w1;
      SpawnObstacle(d);
      assert Snapshot() == ObstacleSpawned(w1, canvas, d);
      SpawnPowerUp(d);
    }

    /** animate: one frame. */
    method Tick(d: Draws) returns (frame: Frame)
      requires Valid() && !stopped
      modifies this, player
      ensures Valid()
      ensures Outcome(Snapshot(), frame) == Step(old(Snapshot()), canvas, d, isPaused)
      ensures stopped <==> frame.Stopped?
    {
      ghost var w := Snapshot();
      StepPreservesInv(w, canvas, d, isPaused);
      if isPaused {
        frame := NextFrame;
        return;
      }
      Prepare(d);
      var crashed := SweepObstacles();
      if crashed {
        stopped := true;
        frame := Stopped(score.Floor);
        return;
      }
      SweepPowerUps();
      ghost var w4 := Snapshot();
      score := score + 0.1;
      frame := NextFrame;
      assert Snapshot() == w4.(score := w4.score + 0.1);
    }

    /** handleKeyDown. Returns whether it asked to toggle the pause state. */
    method KeyDown(key: Key) returns (togglePause: bool)
      requires Valid()
      modifies player`jumping, player`velocityY, player`ducking, player`height, player`y
      ensures Valid()
      ensures player.State() == OnKeyDown(old(player.State()), key, isPlaying, isPaused, canvas)
      ensures togglePause <==> (key == Escape || key == KeyP) && isPlaying
    {
      if (key == Space || key == ArrowUp) && isPlaying && !isPaused {
        player.Jump();
      }
      if key == ArrowDown && isPlaying && !isPaused {
        player.Duck(true);
      }
      togglePause := (key == Escape || key == KeyP) && isPlaying;
    }

    /** handleKeyUp. */
    method KeyUp(key: Key)
      requires Valid()
      modifies player`ducking, player`height, player`y
      ensures Valid()
      ensures player.State() == OnKeyUp(old(player.State()), key, canvas)
    {
      if key == ArrowDown {
        player.Duck(false);
      }
    }
  }

  /** The game effect: no session unless the game is playing and the canvas
      and its drawing context exist; otherwise a fresh session whose first
      frame runs at once. */
  method Mount(isPlaying: bool, hasCanvas: bool, c: Canvas, isPaused: bool, d: Draws)
      returns (s: GameSession?, frame: Frame)
    requires c.Valid()
    ensures (s != null) <==> isPlaying && hasCanvas
    ensures s != null ==>
      && fresh(s) && fresh(s.player) && s.Valid() && !s.stopped
      && s.canvas == c && s.isPaused == isPaused && s.isPlaying
      && Outcome(s.Snapshot(), frame) == Step(InitialWorld(c), c, d, isPaused)
  {
    if !isPlaying || !hasCanvas {
      return null, NextFrame;
    }
    s := new GameSession(c, isPlaying, isPaused);
    FirstFrameContinues(c, d, isPaused);
    frame := s.Tick(d);
  }
}
