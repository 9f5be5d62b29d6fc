/**
 * The third generation's entities (package `com.albertzhang.spaceevasion`):
 * the abstract `Sprite` base with `double` position and health, and the
 * `DyingEnemy` corpse that fades out. The `Enemy`, `Player` and `Projectile`
 * classes this generation's engine calls are not part of this model: the
 * engine takes their behaviour as parameters, and the lists hold their states
 * as values.
 */
module SpaceEvasionSprites {
  import opened Geometry

  /** `Sprite.health`'s initial value. */
  const FullHealth: real := 1000.0

  /** A sprite's state: position, image and health; used for the player. */
  datatype Body = Body(x: real, y: real, image: Image, health: real)

  function BodyBounds(b: Body): Rect {
    BoxAt(b.x, b.y, b.image)
  }

  /**
   * An enemy: a sprite with the heading `getTheta()` reports and the engine's
   * difficulty at the moment it was created (`new Enemy(difficulty, p)`).
   */
  datatype Ship = Ship(x: real, y: real, image: Image, health: real, theta: real, difficulty: real)

  function ShipBounds(s: Ship): Rect {
    BoxAt(s.x, s.y, s.image)
  }

  /**
   * A projectile: a sprite with its heading, which is always one of the
   * player's eight directions, kept as its count of quarter turns of pi/4.
   */
  datatype Shot = Shot(x: real, y: real, image: Image, heading: nat)

  function ShotBounds(s: Shot): Rect {
    BoxAt(s.x, s.y, s.image)
  }

  /** `deathStage`'s start, 1.0, in twentieths: each `getDeathStage` call takes 0.05, one twentieth. */
  const FullStage: int := 20

  /** A `DyingEnemy`: where the enemy died, its heading then, and how far it has faded. */
  datatype Corpse = Corpse(x: real, y: real, theta: real, stage: int)

  /** `new DyingEnemy(x, y, theta)`. */
  function NewCorpse(x: real, y: real, theta: real): (c: Corpse)
    ensures c.stage == FullStage && c.x == x && c.y == y && c.theta == theta
  {
    Corpse(x, y, theta, FullStage)
  }

  /** One `getDeathStage()` call: the stage drops by one twentieth; nothing else changes. */
  function Fade(c: Corpse): (r: Corpse)
    ensures r.stage == c.stage - 1 && r.stage < c.stage
    ensures r.x == c.x && r.y == c.y && r.theta == c.theta
  {
    c.(stage := c.stage - 1)
  }

  function FadeTimes(c: Corpse, n: nat): Corpse
    decreases n
  {
    if n == 0 then c else Fade(FadeTimes(c, n - 1))
  }

  /**
   * Successive `getDeathStage()` calls strictly decrease: after n calls on a
   * fresh corpse the stage is 20 - n twentieths, with position and heading
   * frozen, so the twentieth call reports 0.
   */
  lemma {:induction false} FadeTimesCountsDown(c: Corpse, n: nat)
    ensures FadeTimes(c, n).stage == c.stage - n
    ensures FadeTimes(c, n).x == c.x && FadeTimes(c, n).y == c.y && FadeTimes(c, n).theta == c.theta
    ensures c.stage == FullStage && n == FullStage ==> FadeTimes(c, n).stage == 0
  {
    if n > 0 {
      FadeTimesCountsDown(c, n - 1);
    }
  }

  /** `spaceevasion.Sprite`: position, image and health with their setters. */
  class Sprite {
    var x: real
    var y: real
    var image: Image
    var health: real

    /** `new Sprite(x, y, source)`: starts at full health. */
    constructor (x: real, y: real, image: Image)
      ensures State() == Body(x, y, image, FullHealth)
    {
      this.x, this.y, this.image, health := x, y, image, FullHealth;
    }

    function State(): Body
      reads this
    {
      Body(x, y, image, health)
    }

    function Bounds(): Rect
      reads this`x, this`y, this`image
    {
      BoxAt(x, y, image)
    }

    /** `intersects(b)`: `b.intersects(getBounds())`. */
    predicate Intersects(b: Rect)
      reads this`x, this`y, this`image
    {
      Geometry.Intersects(b, Bounds())
    }

    method SetHealth(d: real)
      modifies this`health
      ensures health == d
    {
      health := d;
    }

    method SetX(v: real)
      modifies this`x
      ensures x == v
    {
      x := v;
    }

    method SetY(v: real)
      modifies this`y
      ensures y == v
    {
      y := v;
    }
  }

  /** `DyingEnemy`: the corpse of an enemy, fading out. */
  class DyingEnemy {
    var x: real
    var y: real
    var image: Image
    var health: real
    /** The heading, fixed by the constructor. */
    const theta: real
    /** `deathStage`, in twentieths. */
    var stage: int

    constructor (x: real, y: real, image: Image, theta: real)
      ensures State() == NewCorpse(x, y, theta) && this.image == image && health == FullHealth
    {
      this.x, this.y, this.image, health := x, y, image, FullHealth;
      this.theta := theta;
      stage := FullStage;
    }

    function State(): Corpse
      reads this
    {
      Corpse(x, y, theta, stage)
    }

    /** `getDeathStage()`: lowers the stage, then reports it. */
    method GetDeathStage() returns (s: int)
      modifies this`stage
      ensures State() == Fade(old(State())) && s == stage
    {
      stage := stage - 1;
      s := stage;
    }

    /** `onCollideWithSprite(s)`: a corpse changes nothing. */
    method OnCollideWithSprite(s: Sprite)
    {
    }
  }
}
