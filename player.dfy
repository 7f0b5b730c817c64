/** The runner: its physics and input rules as functions on a player value,
    and the mutable player object of one session, whose methods are proved
    to follow those functions. */
module PlayerPhysics {
  import opened Geometry
  import opened Entities

  /** The player's simulation fields (the leg-animation counter is drawing only). */
  datatype PlayerState = PlayerState(
    x: real, y: real, width: real, height: real,
    jumping: bool, ducking: bool, velocityY: real,
    hasShield: bool, shieldTimer: int)
  {
    function Bounds(): Box { Box(x, y, width, height) }
  }

  /** Frames a shield lasts. */
  const ShieldFrames: int := 300
  /** Heights set by duck; they are not multiplied by SCALE_FACTOR. */
  const DuckHeight: real := 25.0
  const StandHeight: real := 50.0

  /** The player record at the start of a session: standing 10 units above
      the ground line, not jumping. */
  function InitialPlayer(c: Canvas): (p: PlayerState)
    ensures p.y + p.height == c.height - 10.0 * c.scale
    ensures !p.jumping && !p.ducking && !p.hasShield && p.velocityY == 0.0
    ensures c.Valid() ==> Positive(p.Bounds()) && Inv(p, c.height)
  {
    PlayerState(50.0 * c.scale, c.height - 60.0 * c.scale, 30.0 * c.scale, 50.0 * c.scale,
                false, false, 0.0, false, 0)
  }

  /** The consistency the game keeps: the player's feet never go below the
      ground line, a shield flag is backed by a positive countdown, the player
      never ducks in the air, and ducking means the short box. */
  predicate Inv(p: PlayerState, ground: real) {
    && p.y + p.height <= ground
    && (p.hasShield ==> p.shieldTimer > 0)
    && (p.jumping ==> !p.ducking)
    && (p.ducking ==> p.height == DuckHeight)
  }

  /** player.jump: takes off only from the ground; in the air it is ignored. */
  function Jumped(p: PlayerState, jumpPower: real): (r: PlayerState)
    ensures r.jumping
    ensures p.jumping ==> r == p
    ensures !p.jumping ==> r.velocityY == jumpPower && !r.ducking
    ensures r.Bounds() == p.Bounds() && r.hasShield == p.hasShield && r.shieldTimer == p.shieldTimer
  {
    if !p.jumping then p.(jumping := true, velocityY := jumpPower, ducking := false) else p
  }

  /** player.duck: ignored in the air; on the ground it switches between the
      short and the tall box and re-seats the player on the ground line. */
  function Ducked(p: PlayerState, isDucking: bool, ground: real): (r: PlayerState)
    ensures p.jumping ==> r == p
    ensures !p.jumping ==>
      && r.ducking == isDucking
      && r.height == (if isDucking then DuckHeight else StandHeight)
      && r.y + r.height == ground
    ensures r.x == p.x && r.width == p.width && r.jumping == p.jumping && r.velocityY == p.velocityY
    ensures r.hasShield == p.hasShield && r.shieldTimer == p.shieldTimer
  {
    if p.jumping then p
    else
      var h := if isDucking then DuckHeight else StandHeight;
      p.(ducking := isDucking, height := h, y := ground - h)
  }

  /** Ground collision: a player at or below the ground line is snapped onto
      it and stops. */
  function Landed(p: PlayerState, ground: real): PlayerState {
    if p.y >= ground - p.height then p.(y := ground - p.height, jumping := false, velocityY := 0.0) else p
  }

  /** One frame of the shield countdown. */
  function ShieldTicked(p: PlayerState): PlayerState {
    if p.hasShield then
      var t := p.shieldTimer - 1;
      p.(shieldTimer := t, hasShield := !(t <= 0))
    else p
  }

  /** player.update: integrate the jump (position first, then velocity),
      land, then count the shield down. */
  function Updated(p: PlayerState, gravity: real, ground: real): (r: PlayerState)
    ensures r.hasShield ==> r.shieldTimer > 0
    ensures p.jumping ==> r.y + r.height <= ground
    ensures p.jumping && !r.jumping ==> r.y + r.height == ground && r.velocityY == 0.0
    ensures p.jumping && r.jumping ==> r.y == p.y + p.velocityY && r.velocityY == p.velocityY + gravity
    ensures !p.jumping ==> !r.jumping && r.y == p.y && r.velocityY == p.velocityY
    ensures r.x == p.x && r.width == p.width && r.height == p.height && r.ducking == p.ducking
    ensures p.jumping ==> (r.jumping <==> p.y + p.velocityY < ground - p.height)
    ensures r.shieldTimer == (if p.hasShield then p.shieldTimer - 1 else p.shieldTimer)
    ensures r.hasShield <==> p.hasShield && p.shieldTimer > 1
  {
    var q := if p.jumping then Landed(p.(y := p.y + p.velocityY, velocityY := p.velocityY + gravity), ground) else p;
    ShieldTicked(q)
  }

  /** player.activateShield: a fresh full-length shield, even over a running one. */
  function Shielded(p: PlayerState): (r: PlayerState)
    ensures r.hasShield && r.shieldTimer == ShieldFrames
    ensures r.Bounds() == p.Bounds() && r.jumping == p.jumping && r.ducking == p.ducking && r.velocityY == p.velocityY
  {
    p.(hasShield := true, shieldTimer := ShieldFrames)
  }

  /** activateShield leaves the player's box alone, and a second activation
      in the same frame changes nothing more. */
  lemma ShieldedKeepsBoxAndIsIdempotent(p: PlayerState)
    ensures Shielded(p).Bounds() == p.Bounds()
    ensures Shielded(Shielded(p)) == Shielded(p)
  {
  }

  /** What a shielded obstacle hit does: the flag goes, the countdown stays. */
  function ShieldBroken(p: PlayerState): (r: PlayerState)
    ensures !r.hasShield && r.shieldTimer == p.shieldTimer
    ensures r.Bounds() == p.Bounds() && r.jumping == p.jumping && r.ducking == p.ducking && r.velocityY == p.velocityY
  {
    p.(hasShield := false)
  }

  /** Every player operation keeps the consistency predicate. */
  lemma InvPreserved(p: PlayerState, ground: real, gravity: real, jumpPower: real, isDucking: bool)
    requires Inv(p, ground)
    ensures Inv(Jumped(p, jumpPower), ground)
    ensures Inv(Ducked(p, isDucking, ground), ground)
    ensures Inv(Updated(p, gravity, ground), ground)
    ensures Inv(Shielded(p), ground)
    ensures Inv(ShieldBroken(p), ground)
  {
  }

  /** A second jump in mid-air changes nothing: jumping twice is jumping once. */
  lemma JumpIdempotent(p: PlayerState, jumpPower: real)
    ensures Jumped(Jumped(p, jumpPower), jumpPower) == Jumped(p, jumpPower)
  {
  }

  /** `n` consecutive player updates. */
  function UpdatedN(p: PlayerState, gravity: real, ground: real, n: nat): PlayerState
    decreases n
  {
    if n == 0 then p else UpdatedN(Updated(p, gravity, ground), gravity, ground, n - 1)
  }

  /** With the flag down, updates neither raise it nor touch the countdown. */
  lemma {:induction false} LoweredShieldStaysDown(p: PlayerState, gravity: real, ground: real, n: nat)
    requires !p.hasShield
    ensures var q := UpdatedN(p, gravity, ground, n);
      !q.hasShield && q.shieldTimer == p.shieldTimer
    decreases n
  {
    if n > 0 {
      LoweredShieldStaysDown(Updated(p, gravity, ground), gravity, ground, n - 1);
    }
  }

  /** The flag-implies-countdown half of the shield consistency holds, but the
      converse does not: a shielded hit leaves a positive countdown behind
      while the flag is down, and no number of later updates either counts
      it down or raises the flag again. */
  lemma ShieldConverseFails(c: Canvas, n: nat)
    requires c.Valid()
    ensures var p := ShieldBroken(Shielded(InitialPlayer(c)));
      var q := UpdatedN(p, c.Gravity(), c.height, n);
      && Inv(p, c.height)
      && !p.hasShield && p.shieldTimer == ShieldFrames
      && !q.hasShield && q.shieldTimer == ShieldFrames
  {
    LoweredShieldStaysDown(ShieldBroken(Shielded(InitialPlayer(c))), c.Gravity(), c.height, n);
  }

  /** A running shield with countdown `t` survives the next `n < t` updates,
      losing one frame per update, and is gone after exactly `t`. */
  lemma {:induction false} ShieldCountdown(p: PlayerState, gravity: real, ground: real, n: nat)
    requires p.hasShield && 0 < p.shieldTimer && n <= p.shieldTimer
    ensures var q := UpdatedN(p, gravity, ground, n);
      && q.shieldTimer == p.shieldTimer - n
      && (q.hasShield <==> n < p.shieldTimer)
    decreases n
  {
    if n > 0 {
      var p' := Updated(p, gravity, ground);
      if n == 1 {
        assert UpdatedN(p', gravity, ground, 0) == p';
      } else {
        ShieldCountdown(p', gravity, ground, n - 1);
      }
    }
  }

  /** activateShield protects for exactly 300 frames, absent a hit. */
  lemma ShieldLasts300Frames(p: PlayerState, gravity: real, ground: real, n: nat)
    requires n <= ShieldFrames
    ensures UpdatedN(Shielded(p), gravity, ground, n).hasShield <==> n < ShieldFrames
  {
    ShieldCountdown(Shielded(p), gravity, ground, n);
  }

  /** The player object of one session (the `player` literal). */
  class Player {
    var x: real
    var y: real
    var width: real
    var height: real
    var jumping: bool
    var ducking: bool
    var velocityY: real
    var hasShield: bool
    var shieldTimer: int
    const jumpPower: real
    /** The session's `gravity`. */
    const gravity: real
    /** canvas.height: the ground line. */
    const ground: real

    function State(): PlayerState
      reads this
    {
      PlayerState(x, y, width, height, jumping, ducking, velocityY, hasShield, shieldTimer)
    }

    function Bounds(): (b: Box)
      reads this
      ensures b == State().Bounds()
    {
      Box(x, y, width, height)
    }

    predicate Valid()
      reads this
    {
      Inv(State(), ground)
    }

    constructor (c: Canvas)
      requires c.Valid()
      ensures State() == InitialPlayer(c) && Valid()
      ensures jumpPower == c.JumpPower() && gravity == c.Gravity() && ground == c.height
    {
      x := 50.0 * c.scale;
      y := c.height - 60.0 * c.scale;
      width := 30.0 * c.scale;
      height := 50.0 * c.scale;
      jumping := false;
      ducking := false;
      velocityY := 0.0;
      jumpPower := -12.0 * c.scale;
      hasShield := false;
      shieldTimer := 0;
      gravity := 0.5 * c.scale;
      ground := c.height;
    }

    method Update()
      requires Valid()
      modifies this`y, this`velocityY, this`jumping, this`shieldTimer, this`hasShield
      ensures Valid()
      ensures State() == Updated(old(State()), gravity, ground)
    {
      if jumping {
        y := y + velocityY;
        velocityY := velocityY + gravity;
        if y >= ground - height {
          y := ground - height;
          jumping := false;
          velocityY := 0.0;
        }
      }
      if hasShield {
        shieldTimer := shieldTimer - 1;
        if shieldTimer <= 0 {
          hasShield := false;
        }
      }
      InvPreserved(old(State()), ground, gravity, jumpPower, false);
    }

    method Jump()
      requires Valid()
      modifies this`jumping, this`velocityY, this`ducking
      ensures Valid()
      ensures State() == Jumped(old(State()), jumpPower)
    {
      if !jumping {
        jumping := true;
        velocityY := jumpPower;
        ducking := false;
      }
    }

    method Duck(isDucking: bool)
      requires Valid()
      modifies this`ducking, this`height, this`y
      ensures Valid()
      ensures State() == Ducked(old(State()), isDucking, ground)
    {
      if !jumping {
        ducking := isDucking;
        if isDucking {
          height := DuckHeight;
          y := ground - height;
        } else {
          height := StandHeight;
          y := ground - height;
        }
      }
    }

    method ActivateShield()
      requires Valid()
      modifies this`hasShield, this`shieldTimer
      ensures Valid()
      ensures State() == Shielded(old(State()))
    {
      hasShield := true;
      shieldTimer := ShieldFrames;
    }
  }
}
