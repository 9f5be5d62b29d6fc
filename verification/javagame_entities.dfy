/**
 * The second generation's entities (package `com.albertzhang.javagame`):
 * `Sprite` with `double` coordinates and health, the difficulty-scaled
 * chasing `Enemy`, and the straight-flying `Projectile`. Coordinates and
 * health are exact reals.
 */
module JavaGameEntities {
  import opened Geometry

  /** `Sprite.health`'s initial value. */
  const FullHealth: real := 1000.0
  /** `Projectile.DAMAGE_AMT`. */
  const ProjectileDamage: real := 1001.0
  /** `Projectile.MOV_SPEED`: the length of every projectile move. */
  const ProjectileSpeed: real := 8.0

  /** The player's state: position, image and health. */
  datatype Hero = Hero(x: real, y: real, image: Image, health: real)

  function HeroBounds(h: Hero): Rect {
    BoxAt(h.x, h.y, h.image)
  }

  /** An `Enemy` in the engine's list. */
  datatype Foe = Foe(x: real, y: real, image: Image, health: real, difficulty: int)

  function FoeBounds(f: Foe): Rect {
    BoxAt(f.x, f.y, f.image)
  }

  /** `MOVE_SPEED * (0.9 + 0.1 * difficulty)`: the per-axis step of an enemy. */
  function EnemyStep(difficulty: int): (step: real)
    ensures difficulty == 1 ==> step == 1.0
    ensures difficulty == 3 ==> step == 1.2
    ensures difficulty >= 1 ==> step >= 1.0
  {
    0.9 + 0.1 * (difficulty as real)
  }

  /** One axis of the chase: up by `step` when strictly below the target, down otherwise. */
  function StepToward(c: real, t: real, step: real): (r: real)
    ensures r - c == step || c - r == step
    ensures c < t && step > 0.0 ==> r > c
    ensures c >= t && step > 0.0 ==> r < c
  {
    if c < t then c + step else c - step
  }

  /**
   * `Enemy.doSpecialAction(p)`: an enemy overlapping the player stays put;
   * otherwise each axis moves by exactly the difficulty's step. Only the
   * position changes.
   */
  function Chase(f: Foe, px: real, py: real, pBounds: Rect): (r: Foe)
    ensures r.image == f.image && r.health == f.health && r.difficulty == f.difficulty
    ensures Intersects(pBounds, FoeBounds(f)) ==> r == f
    ensures !Intersects(pBounds, FoeBounds(f)) ==>
      Abs(r.x - f.x) == Abs(EnemyStep(f.difficulty)) && Abs(r.y - f.y) == Abs(EnemyStep(f.difficulty))
    ensures !Intersects(pBounds, FoeBounds(f)) && f.difficulty >= 1 ==>
      (f.x < px ==> r.x > f.x) && (f.x >= px ==> r.x < f.x) &&
      (f.y < py ==> r.y > f.y) && (f.y >= py ==> r.y < f.y)
  {
    if Intersects(pBounds, FoeBounds(f)) then f
    else
      var step := EnemyStep(f.difficulty);
      f.(x := StepToward(f.x, px, step), y := StepToward(f.y, py, step))
  }

  /** `BASE_DAMAGE_AMT * difficulty`: what one contact with the enemy takes from the player. */
  function ContactDamage(f: Foe): (d: real)
    ensures f.difficulty >= 1 ==> d >= 1.0
    ensures f.difficulty == 1 ==> d == 1.0
  {
    1.0 * (f.difficulty as real)
  }

  /**
   * A `Projectile`: `theta` is fixed at construction and so is the move
   * `(dx, dy)`, which stands for `(8 sin(theta + pi/2), 8 cos(theta + pi/2))`.
   */
  datatype Bolt = Bolt(x: real, y: real, image: Image, health: real, theta: real, dx: real, dy: real)

  function BoltBounds(b: Bolt): Rect {
    BoxAt(b.x, b.y, b.image)
  }

  /** `Projectile.doSpecialAction()`: add the fixed move to the position, nothing else. */
  function Fly(b: Bolt): (r: Bolt)
    ensures r.x - b.x == b.dx && r.y - b.y == b.dy
    ensures r.theta == b.theta && r.health == b.health && r.image == b.image
    ensures r.dx == b.dx && r.dy == b.dy
  {
    b.(x := b.x + b.dx, y := b.y + b.dy)
  }

  function FlyTimes(b: Bolt, n: nat): Bolt
    decreases n
  {
    if n == 0 then b else Fly(FlyTimes(b, n - 1))
  }

  /** After n moves a projectile has gone n times its fixed move, with theta and health untouched. */
  lemma {:induction false} FlyTimesIsLinear(b: Bolt, n: nat)
    ensures FlyTimes(b, n).x == b.x + (n as real) * b.dx
    ensures FlyTimes(b, n).y == b.y + (n as real) * b.dy
    ensures FlyTimes(b, n).theta == b.theta && FlyTimes(b, n).health == b.health
    ensures FlyTimes(b, n).dx == b.dx && FlyTimes(b, n).dy == b.dy
  {
    if n > 0 {
      FlyTimesIsLinear(b, n - 1);
    }
  }

  /** `Projectile.onCollideWithEntity(s)`: the target loses 1001, which kills a full-health sprite. */
  function Strike(f: Foe): (r: Foe)
    ensures r.health == f.health - ProjectileDamage
    ensures r.x == f.x && r.y == f.y && r.image == f.image && r.difficulty == f.difficulty
    ensures f.health <= FullHealth ==> r.health < 0.0
  {
    f.(health := f.health - ProjectileDamage)
  }

  /** `javagame.Sprite`, used for the player. */
  class Sprite {
    var x: real
    var y: real
    var image: Image
    var health: real

    /** `new Sprite(x, y, source)`: starts at full health. */
    constructor (x: real, y: real, image: Image)
      ensures State() == Hero(x, y, image, FullHealth)
    {
      this.x, this.y, this.image, health := x, y, image, FullHealth;
    }

    function State(): Hero
      reads this
    {
      Hero(x, y, image, health)
    }

    function Bounds(): Rect
      reads this`x, this`y, this`image
    {
      BoxAt(x, y, image)
    }

    /** `intersects(b)`: `b.intersects(getBounds())`. */
    predicate Intersects(b: Rect)
      reads this`x, this`y, this`image
    {
      Geometry.Intersects(b, Bounds())
    }

    method SetHealth(d: real)
      modifies this`health
      ensures health == d
    {
      health := d;
    }

    method SetX(v: real)
      modifies this`x
      ensures x == v
    {
      x := v;
    }

    method SetY(v: real)
      modifies this`y
      ensures y == v
    {
      y := v;
    }

    /** The default `doSpecialAction`: nothing. */
    method DoSpecialAction()
    {
    }

    /** The default `onCollideWithEntity`: nothing. */
    method OnCollideWithEntity(other: Sprite)
    {
    }
  }

  /** `javagame.Enemy`. */
  class Enemy {
    var x: real
    var y: real
    var image: Image
    var health: real
    const difficulty: int

    /** `new Enemy(d)` at a random position `(x, y)`; `new Enemy(source)` is the case `d == 1`. */
    constructor (x: real, y: real, image: Image, d: int)
      ensures State() == Foe(x, y, image, FullHealth, d)
    {
      this.x, this.y, this.image, health := x, y, image, FullHealth;
      difficulty := d;
    }

    function State(): Foe
      reads this
    {
      Foe(x, y, image, health, difficulty)
    }

    /** `doSpecialAction(p)`. */
    method DoSpecialAction(p: Sprite)
      modifies this`x, this`y
      ensures State() == Chase(old(State()), p.x, p.y, p.Bounds())
    {
      if !Geometry.Intersects(p.Bounds(), BoxAt(x, y, image)) {
        var step := 0.9 + 0.1 * (difficulty as real);
        if x < p.x {
          x := x + step;
        } else {
          x := x - step;
        }
        if y < p.y {
          y := y + step;
        } else {
          y := y - step;
        }
      }
    }

    /** `onCollideWithEntity(p)`: the player loses `difficulty`; nothing else changes. */
    method OnCollideWithEntity(p: Sprite)
      modifies p`health
      ensures p.health == old(p.health) - ContactDamage(State())
    {
      p.health := p.health - 1.0 * (difficulty as real);
    }
  }

  /** `javagame.Projectile`. */
  class Projectile {
    var x: real
    var y: real
    var image: Image
    var health: real
    const theta: real
    const dx: real
    const dy: real

    /**
     * `new Projectile(x, y, theta)`; `(dx, dy)` is the move that `theta`
     * determines, a vector of length 8.
     */
    constructor (x: real, y: real, image: Image, theta: real, dx: real, dy: real)
      requires dx * dx + dy * dy == ProjectileSpeed * ProjectileSpeed
      ensures State() == Bolt(x, y, image, FullHealth, theta, dx, dy)
    {
      this.x, this.y, this.image, health := x, y, image, FullHealth;
      this.theta, this.dx, this.dy := theta, dx, dy;
    }

    /** `new Projectile()`: at the origin with theta 0, so it moves (8, 0) each time. */
    constructor Default(image: Image)
      ensures State() == Bolt(0.0, 0.0, image, FullHealth, 0.0, ProjectileSpeed, 0.0)
    {
      x, y, this.image, health := 0.0, 0.0, image, FullHealth;
      theta, dx, dy := 0.0, ProjectileSpeed, 0.0;
    }

    function State(): Bolt
      reads this
    {
      Bolt(x, y, image, health, theta, dx, dy)
    }

    function Theta(): real
      reads this
    {
      theta
    }

    /** `doSpecialAction()`. */
    method DoSpecialAction()
      modifies this`x, this`y
      ensures State() == Fly(old(State()))
    {
      x := x + dx;
      y := y + dy;
    }

    /** `onCollideWithEntity(s)`: the target loses 1001. */
    method OnCollideWithEntity(s: Enemy)
      modifies s`health
      ensures s.State() == Strike(old(s.State()))
    {
      s.health := s.health - ProjectileDamage;
    }
  }
}
