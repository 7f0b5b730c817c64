/** The session's fixed canvas and the two kinds of scrolling entity:
    obstacles (cacti on the ground, birds in the air) and shield power-ups. */
module Entities {
  import opened Geometry

  /** canvas.width, canvas.height and SCALE_FACTOR, fixed for one session. */
  datatype Canvas = Canvas(width: real, height: real, scale: real) {
    predicate Valid() {
      width > 0.0 && height > 0.0 && scale > 0.0
    }

    /** gameSpeed at the start of a session. */
    function GameSpeed(): real { 5.0 * scale }

    function Gravity(): real { 0.5 * scale }

    function JumpPower(): real { -12.0 * scale }
  }

  /** A value of Math.random(): in [0, 1). */
  predicate IsRoll(r: real) {
    0.0 <= r < 1.0
  }

  /** `(a + r * b) * s`: a roll stretched over [a, a + b) and scaled. */
  function Spread(a: real, r: real, b: real, s: real): real {
    (a + r * b) * s
  }

  lemma SpreadRange(a: real, r: real, b: real, s: real)
    requires IsRoll(r) && b > 0.0 && s > 0.0
    ensures a * s <= Spread(a, r, b, s) < a * s + b * s
  {
    assert (a + r * b) * s == a * s + r * (b * s);
    assert r * (b * s) < b * s;
  }

  datatype Kind = Cactus | Bird

  datatype Obstacle = Obstacle(kind: Kind, x: real, y: real, width: real, height: real, speed: real) {
    function Bounds(): Box { Box(x, y, width, height) }

    /** Obstacle.update: one step to the left at the speed captured when it was built. */
    function Moved(): (o: Obstacle)
      ensures o.x == x - speed && o.width == width && o.height == height && o.y == y && o.kind == kind && o.speed == speed
    {
      this.(x := x - speed)
    }

    /** Its trailing edge has passed the left border. */
    predicate OffScreen() { x + width < 0.0 }
  }

  datatype PowerUp = PowerUp(x: real, y: real, width: real, height: real, speed: real) {
    function Bounds(): Box { Box(x, y, width, height) }

    /** PowerUp.update: one step to the left at its captured speed. */
    function Moved(): (u: PowerUp)
      ensures u.x == x - speed && u.width == width && u.y == y && u.height == height && u.speed == speed
    {
      this.(x := x - speed)
    }

    predicate OffScreen() { x + width < 0.0 }
  }

  /** The draw `Math.random() > 0.3` decides between a cactus and a bird: a
      roll in [0, 1) gives a bird on its lowest three tenths, [0, 0.3], and a
      cactus on the rest, (0.3, 1). */
  function KindOf(roll: real): (k: Kind)
    ensures IsRoll(roll) ==> (k == Bird <==> 0.0 <= roll <= 0.3) && (k == Cactus <==> 0.3 < roll < 1.0)
  {
    if roll > 0.3 then Cactus else Bird
  }

  /** The Obstacle constructor. A cactus draws its width from `r1` and its
      height from `r2`; a bird draws its altitude from `r1`. */
  function NewObstacle(kind: Kind, r1: real, r2: real, c: Canvas, speed: real): (o: Obstacle)
    ensures o.kind == kind && o.x == c.width && o.speed == speed
    ensures kind == Cactus ==> o.y + o.height == c.height
  {
    match kind
    case Cactus =>
      var h := Spread(50.0, r2, 30.0, c.scale);
      Obstacle(Cactus, c.width, c.height - h, Spread(20.0, r1, 20.0, c.scale), h, speed)
    case Bird =>
      Obstacle(Bird, c.width, c.height - Spread(50.0, r1, 120.0, c.scale), 40.0 * c.scale, 20.0 * c.scale, speed)
  }

  /** A fresh cactus stands on the ground line and is 20 to 40 units wide
      and 50 to 80 units tall (units of SCALE_FACTOR). */
  lemma NewCactusGeometry(r1: real, r2: real, c: Canvas, speed: real)
    requires c.Valid() && IsRoll(r1) && IsRoll(r2)
    ensures var o := NewObstacle(Cactus, r1, r2, c, speed);
      && 20.0 * c.scale <= o.width < 40.0 * c.scale
      && 50.0 * c.scale <= o.height < 80.0 * c.scale
      && o.y + o.height == c.height
  {
    SpreadRange(20.0, r1, 20.0, c.scale);
    SpreadRange(50.0, r2, 30.0, c.scale);
  }

  /** A fresh bird is 40 by 20 units and flies with its top edge between 50
      and 170 units above the ground line. */
  lemma NewBirdGeometry(r1: real, r2: real, c: Canvas, speed: real)
    requires c.Valid() && IsRoll(r1)
    ensures var o := NewObstacle(Bird, r1, r2, c, speed);
      && Positive(o.Bounds())
      && o.width == 40.0 * c.scale && o.height == 20.0 * c.scale
      && c.height - 170.0 * c.scale < o.y <= c.height - 50.0 * c.scale
  {
    SpreadRange(50.0, r1, 120.0, c.scale);
  }

  /** The PowerUp constructor; `r` draws its altitude. */
  function NewPowerUp(r: real, c: Canvas, speed: real): (u: PowerUp)
    ensures u.x == c.width && u.speed == speed && u.width == u.height
  {
    PowerUp(c.width, c.height - Spread(150.0, r, 100.0, c.scale), 20.0 * c.scale, 20.0 * c.scale, speed)
  }

  /** A fresh power-up is 20 by 20 units and floats between 150 and 250
      units above the ground line. */
  lemma NewPowerUpGeometry(r: real, c: Canvas, speed: real)
    requires c.Valid() && IsRoll(r)
    ensures var u := NewPowerUp(r, c, speed);
      && Positive(u.Bounds())
      && u.width == 20.0 * c.scale && u.height == 20.0 * c.scale
      && c.height - 250.0 * c.scale < u.y <= c.height - 150.0 * c.scale
  {
    SpreadRange(150.0, r, 100.0, c.scale);
  }
}
