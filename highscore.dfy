/** The game page: whether a game is running, the best score shown, and the
    best score kept in the browser's local storage under one fixed key. */
module HighScore {
  import opened Session

  datatype Option<T> = None | Some(value: T)

  /** The best score after a game over with `score`. */
  function Best(high: int, score: int): (r: int)
    ensures r >= high && r >= score
    ensures r == high || r == score
  {
    if score > high then score else high
  }

  /** The best score after a series of game overs: never below where it
      started, nor below the last score reported. */
  function BestAfter(high: int, scores: seq<int>): (r: int)
    ensures r >= high
    ensures scores != [] ==> r >= scores[|scores| - 1]
    decreases |scores|
  {
    if scores == [] then high else BestAfter(Best(high, scores[0]), scores[1..])
  }

  /** Across any series of game overs the best score never falls, is at
      least every score reported, and is either the starting value or one of
      those scores. */
  lemma {:induction false} BestAfterIsMaximum(high: int, scores: seq<int>)
    ensures var r := BestAfter(high, scores);
      && r >= high
      && (forall k :: 0 <= k < |scores| ==> scores[k] <= r)
      && (r == high || exists k :: 0 <= k < |scores| && r == scores[k])
    decreases |scores|
  {
    if scores != [] {
      var h := Best(high, scores[0]);
      BestAfterIsMaximum(h, scores[1..]);
      var r := BestAfter(h, scores[1..]);
      forall k | 0 <= k < |scores|
        ensures scores[k] <= r
      {
        if k > 0 {
          assert scores[k] == scores[1..][k - 1];
        }
      }
      if r != h {
        var k :| 0 <= k < |scores| - 1 && r == scores[1..][k];
        assert r == scores[k + 1];
      }
    }
  }

  class GamePage {
    var isPlaying: bool
    var highScore: int
    /** The stored best score, if any. */
    var stored: Option<int>

    /** The shown best score and the stored one agree: either both are
        there and equal, or nothing is stored and the shown value is 0. */
    predicate Synced()
      reads this
    {
      stored == Some(highScore) || (stored == None && highScore == 0)
    }

    /** The page's initial state, over whatever the storage already holds. */
    constructor (saved: Option<int>)
      ensures !isPlaying && highScore == 0 && stored == saved
    {
      isPlaying := false;
      highScore := 0;
      stored := saved;
    }

    /** The load effect: a stored value replaces the initial 0. */
    method LoadHighScore()
      modifies this`highScore
      ensures highScore == (if stored.Some? then stored.value else old(highScore))
      ensures old(highScore) == 0 ==> Synced()
    {
      if stored.Some? {
        highScore := stored.value;
      }
    }

    /** The start button, shown only while no game runs. */
    method Start()
      modifies this`isPlaying
      ensures isPlaying
    {
      isPlaying := true;
    }

    /** handleGameOver: a strictly better score becomes the best score and is
        stored; an equal or lower one changes neither. The game stops either
        way. */
    method HandleGameOver(score: int)
      modifies this
      ensures highScore == Best(old(highScore), score)
      ensures stored == (if score > old(highScore) then Some(score) else old(stored))
      ensures !isPlaying
      ensures old(Synced()) ==> Synced()
    {
      if score > highScore {
        highScore := score;
        stored := Some(score);
      }
      isPlaying := false;
    }
  }

  /** One frame of a session wired to the page: a frame that stops the loop
      hands its floored score to handleGameOver. */
  method PlayFrame(s: GameSession, page: GamePage, d: Draws) returns (frame: Frame)
    requires s.Valid() && !s.stopped
    modifies s, s.player, page
    ensures s.Valid()
    ensures Outcome(s.Snapshot(), frame) == Step(old(s.Snapshot()), s.canvas, d, s.isPaused)
    ensures frame.Stopped? ==>
      && page.highScore == Best(old(page.highScore), frame.finalScore)
      && page.stored == (if frame.finalScore > old(page.highScore) then Some(frame.finalScore) else old(page.stored))
      && !page.isPlaying
    ensures frame.NextFrame? ==>
      page.highScore == old(page.highScore) && page.stored == old(page.stored) && page.isPlaying == old(page.isPlaying)
  {
    frame := s.Tick(d);
    if frame.Stopped? {
      page.HandleGameOver(frame.finalScore);
    }
  }
}
