/** Difficulty: the number of frames between two obstacles, recomputed from
    the score each time an obstacle spawns. */
module Spawning {

  /** Frames between obstacles at the start of a session. */
  const InitialInterval: int := 100
  /** The interval never drops below this floor. */
  const MinInterval: int := 40

  /** `Math.max(40, 100 - Math.floor(score / 100))`. */
  function SpawnInterval(score: real): (r: int)
    ensures MinInterval <= r
    ensures score >= 0.0 ==> r <= InitialInterval
  {
    var candidate := InitialInterval - (score / 100.0).Floor;
    if MinInterval < candidate then candidate else MinInterval
  }

  /** A higher score never makes obstacles rarer. */
  lemma SpawnIntervalMonotone(s1: real, s2: real)
    requires s1 <= s2
    ensures SpawnInterval(s2) <= SpawnInterval(s1)
  {
    assert (s1 / 100.0).Floor <= (s2 / 100.0).Floor;
  }

  /** The floor of 40 frames is reached exactly from score 6000 on. */
  lemma SpawnIntervalFloor(score: real)
    requires score >= 0.0
    ensures SpawnInterval(score) == MinInterval <==> score >= 6000.0
  {
    var f := (score / 100.0).Floor;
    if score >= 6000.0 {
      assert f >= 60;
    } else {
      assert f < 60;
    }
  }

  /** At score 100 the interval is 99; at score 1000 it is 90. */
  lemma SpawnIntervalExamples()
    ensures SpawnInterval(0.0) == 100
    ensures SpawnInterval(100.0) == 99
    ensures SpawnInterval(1000.0) == 90
    ensures SpawnInterval(6000.0) == 40
  {
    assert (100.0 / 100.0).Floor == 1;
    assert (1000.0 / 100.0).Floor == 10;
    assert (6000.0 / 100.0).Floor == 60;
  }
}
