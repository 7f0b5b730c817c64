/** The two loops of a frame that move every obstacle and every power-up,
    test it against the player and splice it out: first as the loops walk the
    lists (front to back, stopping at a fatal hit), then as plain filters and
    counts that say what the walk amounts to. */
module Sweeps {
  import opened Geometry
  import opened Entities

  /** `a` is `b` with some elements left out, in the same order. */
  predicate Subsequence<T(==)>(a: seq<T>, b: seq<T>)
    decreases |b|
  {
    if a == [] then true
    else if b == [] then false
    else (a[0] == b[0] && Subsequence(a[1..], b[1..])) || Subsequence(a, b[1..])
  }

  // ---------------------------------------------------------------- obstacles

  /** What the obstacle loop leaves: the obstacle list, the shield flag, and
      whether it ended the game. */
  datatype ObstacleSweep = ObstacleSweep(kept: seq<Obstacle>, shield: bool, crashed: bool)

  /** The same sweep with obstacles already handled in front of its list. */
  function Prepend(done: seq<Obstacle>, s: ObstacleSweep): ObstacleSweep {
    s.(kept := done + s.kept)
  }

  /** The obstacle loop as it walks the list. Each obstacle is moved, then
      tested against the player's box `p`: a hit with the shield up removes
      that obstacle and drops the shield; a hit without it stops the walk with
      the rest of the list untouched; an obstacle past the left border is
      removed; any other stays. */
  function ObstaclePass(p: Box, shield: bool, obs: seq<Obstacle>): (r: ObstacleSweep)
    ensures r.shield ==> shield
    ensures r.crashed ==> !r.shield
    ensures |r.kept| <= |obs|
    decreases |obs|
  {
    if obs == [] then ObstacleSweep([], shield, false)
    else
      var o := obs[0].Moved();
      if Collides(p, o.Bounds()) then
        if shield then ObstaclePass(p, false, obs[1..])
        else ObstacleSweep([o] + obs[1..], false, true)
      else if o.OffScreen() then ObstaclePass(p, shield, obs[1..])
      else Prepend([o], ObstaclePass(p, shield, obs[1..]))
  }

  /** One step of the walk, case by case. */
  lemma PassHead(p: Box, shield: bool, obs: seq<Obstacle>)
    requires obs != []
    ensures var o := obs[0].Moved();
      && (Collides(p, o.Bounds()) && shield ==> ObstaclePass(p, shield, obs) == ObstaclePass(p, false, obs[1..]))
      && (Collides(p, o.Bounds()) && !shield ==> ObstaclePass(p, shield, obs) == ObstacleSweep([o] + obs[1..], false, true))
      && (!Collides(p, o.Bounds()) && o.OffScreen() ==> ObstaclePass(p, shield, obs) == ObstaclePass(p, shield, obs[1..]))
      && (!Collides(p, o.Bounds()) && !o.OffScreen() ==> ObstaclePass(p, shield, obs) == Prepend([o], ObstaclePass(p, shield, obs[1..])))
  {
  }

  lemma PrependTwice(a: seq<Obstacle>, b: seq<Obstacle>, s: ObstacleSweep)
    ensures Prepend(a, Prepend(b, s)) == Prepend(a + b, s)
  {
    assert a + (b + s.kept) == (a + b) + s.kept;
  }

  /** The list algebra of one loop step at index |done| of `done + rest`:
      reading the element there, replacing it in place, splicing it out, or
      stepping past it. */
  lemma SpliceAt<T>(done: seq<T>, rest: seq<T>, y: T)
    requires rest != []
    ensures var s := done + rest;
      && |done| < |s|
      && s[|done|] == rest[0]
      && s[|done| := y] == done + ([y] + rest[1..])
      && s[|done| := y][..|done|] + s[|done| := y][|done| + 1..] == done + rest[1..]
      && done + ([y] + rest[1..]) == (done + [y]) + rest[1..]
  {
    var t := (done + rest)[|done| := y];
    assert t == done + ([y] + rest[1..]);
    assert t[..|done|] == done;
    assert t[|done| + 1..] == rest[1..];
  }

  /** One step of the obstacle walk behind an already handled prefix
      `done`: where the walk of the whole list stands after the head of
      `rest` is handled. */
  lemma ObstacleStep(p: Box, shield: bool, done: seq<Obstacle>, rest: seq<Obstacle>)
    requires rest != []
    ensures var o := rest[0].Moved();
      var whole := Prepend(done, ObstaclePass(p, shield, rest));
      && (Collides(p, o.Bounds()) && shield ==> whole == Prepend(done, ObstaclePass(p, false, rest[1..])))
      && (Collides(p, o.Bounds()) && !shield ==> whole == ObstacleSweep(done + ([o] + rest[1..]), false, true))
      && (!Collides(p, o.Bounds()) && o.OffScreen() ==> whole == Prepend(done, ObstaclePass(p, shield, rest[1..])))
      && (!Collides(p, o.Bounds()) && !o.OffScreen() ==> whole == Prepend(done + [o], ObstaclePass(p, shield, rest[1..])))
  {
    var o := rest[0].Moved();
    PassHead(p, shield, rest);
    if !Collides(p, o.Bounds()) && !o.OffScreen() {
      PrependTwice(done, [o], ObstaclePass(p, shield, rest[1..]));
    }
  }

  /** Every obstacle moved one step. */
  function MovedObstacles(obs: seq<Obstacle>): (r: seq<Obstacle>)
    ensures |r| == |obs|
  {
    seq(|obs|, k requires 0 <= k < |obs| => obs[k].Moved())
  }

  /** How many obstacles hit the player once moved. */
  function Hits(p: Box, obs: seq<Obstacle>): nat
    decreases |obs|
  {
    if obs == [] then 0
    else (if Collides(p, obs[0].Moved().Bounds()) then 1 else 0) + Hits(p, obs[1..])
  }

  /** The moved obstacles that neither hit the player nor left the screen. */
  function Survivors(p: Box, obs: seq<Obstacle>): (r: seq<Obstacle>)
    ensures |r| <= |obs|
    ensures forall k :: 0 <= k < |r| ==> !Collides(p, r[k].Bounds()) && !r[k].OffScreen()
    decreases |obs|
  {
    if obs == [] then []
    else
      var o := obs[0].Moved();
      if Collides(p, o.Bounds()) || o.OffScreen() then Survivors(p, obs[1..])
      else [o] + Survivors(p, obs[1..])
  }

  /** What the obstacle walk amounts to. The game ends exactly when more
      moved obstacles hit the player than the shield can absorb (one if it is
      up, none otherwise). Otherwise the survivors remain and the shield stays
      up only if it was up and nothing hit. */
  lemma {:induction false} ObstaclePassMeaning(p: Box, shield: bool, obs: seq<Obstacle>)
    ensures var r := ObstaclePass(p, shield, obs);
      && (r.crashed <==> Hits(p, obs) > (if shield then 1 else 0))
      && (!r.crashed ==> r.kept == Survivors(p, obs) && r.shield == (shield && Hits(p, obs) == 0))
    decreases |obs|
  {
    if obs != [] {
      var o := obs[0].Moved();
      if Collides(p, o.Bounds()) {
        if shield {
          ObstaclePassMeaning(p, false, obs[1..]);
        }
      } else {
        ObstaclePassMeaning(p, shield, obs[1..]);
      }
    }
  }

  /** Removal keeps order: the survivors are the moved list with some
      obstacles left out. */
  lemma {:induction false} SurvivorsInOrder(p: Box, obs: seq<Obstacle>)
    ensures Subsequence(Survivors(p, obs), MovedObstacles(obs))
    decreases |obs|
  {
    if obs != [] {
      var m := MovedObstacles(obs);
      assert m[0] == obs[0].Moved();
      assert m[1..] == MovedObstacles(obs[1..]);
      SurvivorsInOrder(p, obs[1..]);
    }
  }

  /** Nothing but a hit or an exit removes an obstacle: every moved obstacle
      that is clear of the player and still on screen remains. */
  lemma {:induction false} SurvivorsKeepEverySafeObstacle(p: Box, obs: seq<Obstacle>, k: int)
    requires 0 <= k < |obs|
    requires !Collides(p, obs[k].Moved().Bounds()) && !obs[k].Moved().OffScreen()
    ensures obs[k].Moved() in Survivors(p, obs)
    decreases |obs|
  {
    if k > 0 {
      assert obs[1..][k - 1] == obs[k];
      SurvivorsKeepEverySafeObstacle(p, obs[1..], k - 1);
    }
  }

  /** One shielded hit and nothing else in the way: the game goes on, the
      hit obstacle is removed and the shield is spent. */
  lemma ShieldAbsorbsOneHit(p: Box, obs: seq<Obstacle>)
    requires Hits(p, obs) == 1
    ensures var r := ObstaclePass(p, true, obs);
      !r.crashed && !r.shield && r.kept == Survivors(p, obs)
  {
    ObstaclePassMeaning(p, true, obs);
  }

  // ----------------------------------------------------------------- power-ups

  /** Every power-up moved one step. */
  function MovedPowerUps(ups: seq<PowerUp>): (r: seq<PowerUp>)
    ensures |r| == |ups|
  {
    seq(|ups|, k requires 0 <= k < |ups| => ups[k].Moved())
  }

  /** The power-up loop's list: moved power-ups that were neither picked up
      nor left the screen, in their order. */
  function PowerUpSurvivors(p: Box, ups: seq<PowerUp>): (r: seq<PowerUp>)
    ensures |r| <= |ups|
    ensures forall k :: 0 <= k < |r| ==> !Collides(p, r[k].Bounds()) && !r[k].OffScreen()
    decreases |ups|
  {
    if ups == [] then []
    else
      var u := ups[0].Moved();
      if Collides(p, u.Bounds()) || u.OffScreen() then PowerUpSurvivors(p, ups[1..])
      else [u] + PowerUpSurvivors(p, ups[1..])
  }

  /** The power-up loop picks something up (and so calls activateShield). */
  predicate Collected(p: Box, ups: seq<PowerUp>)
    decreases |ups|
  {
    ups != [] && (Collides(p, ups[0].Moved().Bounds()) || Collected(p, ups[1..]))
  }

  /** One step of the power-up walk behind an already handled prefix `done`. */
  lemma PowerUpStep(p: Box, done: seq<PowerUp>, rest: seq<PowerUp>)
    requires rest != []
    ensures var u := rest[0].Moved();
      var whole := done + PowerUpSurvivors(p, rest);
      && (Collides(p, u.Bounds()) || u.OffScreen() ==> whole == done + PowerUpSurvivors(p, rest[1..]))
      && (!Collides(p, u.Bounds()) && !u.OffScreen() ==> whole == (done + [u]) + PowerUpSurvivors(p, rest[1..]))
      && (Collected(p, rest) <==> Collides(p, u.Bounds()) || Collected(p, rest[1..]))
  {
    var u := rest[0].Moved();
    var tail := PowerUpSurvivors(p, rest[1..]);
    if Collides(p, u.Bounds()) || u.OffScreen() {
      assert PowerUpSurvivors(p, rest) == tail;
    } else {
      assert PowerUpSurvivors(p, rest) == [u] + tail;
      assert done + ([u] + tail) == (done + [u]) + tail;
    }
  }

  /** A pick-up happens exactly when some moved power-up touches the player. */
  lemma {:induction false} CollectedMeaning(p: Box, ups: seq<PowerUp>)
    ensures Collected(p, ups) <==> exists k :: 0 <= k < |ups| && Collides(p, ups[k].Moved().Bounds())
    decreases |ups|
  {
    if ups != [] {
      CollectedMeaning(p, ups[1..]);
      if Collected(p, ups[1..]) {
        var k :| 0 <= k < |ups| - 1 && Collides(p, ups[1..][k].Moved().Bounds());
        assert ups[k + 1] == ups[1..][k];
      }
      if exists k :: 0 <= k < |ups| && Collides(p, ups[k].Moved().Bounds()) {
        var k :| 0 <= k < |ups| && Collides(p, ups[k].Moved().Bounds());
        if k > 0 {
          assert ups[1..][k - 1] == ups[k];
        }
      }
    }
  }

  /** Nothing but a pick-up or an exit removes a power-up. */
  lemma {:induction false} PowerUpSurvivorsKeepEverySafePowerUp(p: Box, ups: seq<PowerUp>, k: int)
    requires 0 <= k < |ups|
    requires !Collides(p, ups[k].Moved().Bounds()) && !ups[k].Moved().OffScreen()
    ensures ups[k].Moved() in PowerUpSurvivors(p, ups)
    decreases |ups|
  {
    if k > 0 {
      assert ups[1..][k - 1] == ups[k];
      PowerUpSurvivorsKeepEverySafePowerUp(p, ups[1..], k - 1);
    }
  }

  /** Removal keeps order for power-ups too. */
  lemma {:induction false} PowerUpSurvivorsInOrder(p: Box, ups: seq<PowerUp>)
    ensures Subsequence(PowerUpSurvivors(p, ups), MovedPowerUps(ups))
    decreases |ups|
  {
    if ups != [] {
      var m := MovedPowerUps(ups);
      assert m[0] == ups[0].Moved();
      assert m[1..] == MovedPowerUps(ups[1..]);
      PowerUpSurvivorsInOrder(p, ups[1..]);
    }
  }
}
