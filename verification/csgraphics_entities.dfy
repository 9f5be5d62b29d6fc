/**
 * The first generation's entities (package `CSGraphics`): `Sprite` with
 * integer coordinates and eight move methods, `Player` with its facing
 * direction, the chasing `Enemy` and the unguarded `FollowerEntityTest`.
 *
 * `CSGraphics.Sprite` has no health field although `Enemy` and the
 * `LogicEngine` read and write one; the model gives `Player` and `Enemy` an
 * integer `health`.
 */
module CSGraphicsEntities {
  import opened JavaInt
  import opened Geometry
  import opened Compass

  /** `Enemy.DAMAGE_AMT`: what one enemy contact takes from the player. */
  const DamageAmt: int := 1

  function BoundsAt(x: int, y: int, img: Image): Rect {
    BoxAt(x as real, y as real, img)
  }

  /**
   * The unit displacement of the base `Sprite` move named `d`, as written:
   * north and south change x, east and west change y.
   */
  function SpriteOffset(d: Direction): (int, int) {
    match d
    case NORTH => (-1, 0)
    case SOUTH => (1, 0)
    case EAST => (0, 1)
    case WEST => (0, -1)
    case NE => (-1, 1)
    case NW => (-1, -1)
    case SE => (1, 1)
    case SW => (1, -1)
  }

  /**
   * The base moves are the player's moves with the axes swapped, and each
   * base move is undone by the move in the opposite direction.
   */
  lemma SpriteOffsetTransposesStep(d: Direction)
    ensures SpriteOffset(d) == (Step(d).1, Step(d).0)
    ensures SpriteOffset(Opposite(d)) == (-SpriteOffset(d).0, -SpriteOffset(d).1)
    ensures d in {NORTH, SOUTH} ==> SpriteOffset(d).1 == 0
    ensures d in {EAST, WEST} ==> SpriteOffset(d).0 == 0
  {
  }

  /** One chase step of a coordinate: +1 when strictly below the target, -1 otherwise (also when equal). */
  function StepToward(c: int, t: int): (r: int)
    ensures IntAbs(r - c) == 1
    ensures c != t ==> IntAbs(r - t) == IntAbs(c - t) - 1
    ensures c == t ==> IntAbs(r - t) == 1
  {
    if c < t then c + 1 else c - 1
  }

  /** `n` successive chase steps toward a fixed target. */
  function StepsToward(c: int, t: int, n: nat): int
    decreases n
  {
    if n == 0 then c else StepsToward(StepToward(c, t), t, n - 1)
  }

  /**
   * A chaser reaches the target coordinate after exactly as many steps as it
   * was away, and from there it oscillates between t - 1 and t.
   */
  lemma {:induction false} ChaseReachesTarget(c: int, t: int)
    ensures StepsToward(c, t, IntAbs(c - t)) == t
    ensures StepsToward(t, t, 2) == t && StepToward(t, t) == t - 1
    decreases IntAbs(c - t)
  {
    if c != t {
      ChaseReachesTarget(StepToward(c, t), t);
    }
  }

  /** An enemy in the engine's lists: position, image and health. */
  datatype Foe = Foe(x: int, y: int, image: Image, health: int)

  function FoeBounds(f: Foe): Rect {
    BoundsAt(f.x, f.y, f.image)
  }

  /**
   * `Enemy.doSpecialAction(p)`: an enemy already overlapping the player stays;
   * otherwise it takes one chase step on each axis. Nothing but the position changes.
   */
  function Chase(f: Foe, px: int, py: int, pBounds: Rect): (r: Foe)
    ensures r.image == f.image && r.health == f.health
    ensures Intersects(pBounds, FoeBounds(f)) ==> r == f
    ensures !Intersects(pBounds, FoeBounds(f)) ==>
      IntAbs(r.x - f.x) == 1 && IntAbs(r.y - f.y) == 1 &&
      (f.x != px ==> IntAbs(r.x - px) < IntAbs(f.x - px)) &&
      (f.y != py ==> IntAbs(r.y - py) < IntAbs(f.y - py))
  {
    if Intersects(pBounds, FoeBounds(f)) then f
    else f.(x := StepToward(f.x, px), y := StepToward(f.y, py))
  }

  /** The base sprite: a position and an image. */
  class Sprite {
    var x: int
    var y: int
    var image: Image

    constructor (x: int, y: int, image: Image)
      ensures this.x == x && this.y == y && this.image == image
    {
      this.x, this.y, this.image := x, y, image;
    }

    function Bounds(): Rect
      reads this
    {
      BoundsAt(x, y, image)
    }

    /** `intersects(b)`: `b.intersects(getBounds())`. */
    predicate Intersects(b: Rect)
      reads this
    {
      Geometry.Intersects(b, Bounds())
    }

    method SetX(v: int)
      modifies this`x
      ensures x == v
    {
      x := v;
    }

    method SetY(v: int)
      modifies this`y
      ensures y == v
    {
      y := v;
    }

    /** `moveNorth` ... `moveSW` by `amount`, as written in the base class. */
    method Move(d: Direction, amount: int)
      modifies this`x, this`y
      ensures x == old(x) + amount * SpriteOffset(d).0
      ensures y == old(y) + amount * SpriteOffset(d).1
    {
      match d
      case NORTH => SetX(x - amount);
      case SOUTH => SetX(x + amount);
      case EAST => SetY(y + amount);
      case WEST => SetY(y - amount);
      case NE => SetX(x - amount); SetY(y + amount);
      case NW => SetX(x - amount); SetY(y - amount);
      case SE => SetX(x + amount); SetY(y + amount);
      case SW => SetX(x + amount); SetY(y - amount);
    }
  }

  /** A move followed by the opposite move by the same amount puts a base sprite back. */
  method MoveThereAndBack(s: Sprite, d: Direction, amount: int)
    modifies s
    ensures s.x == old(s.x) && s.y == old(s.y)
  {
    SpriteOffsetTransposesStep(d);
    s.Move(d, amount);
    s.Move(Opposite(d), amount);
  }

  /** The player: a position, a facing direction, one image per direction, and health. */
  class Player {
    var x: int
    var y: int
    var direction: Direction
    var images: seq<Image>
    var health: int

    /** `new Player(x, y)`: faces north; `images` are the eight loaded `PlayerN.png` images. */
    constructor (x: int, y: int, images: seq<Image>, health: int)
      requires |images| == 8
      ensures this.x == x && this.y == y && this.images == images && this.health == health
      ensures direction == NORTH && Valid()
    {
      this.x, this.y, this.images, this.health := x, y, images, health;
      direction := NORTH;
    }

    predicate Valid()
      reads this`images
    {
      |images| == 8
    }

    /** `getImage()`: the image slot of the facing direction. */
    function Image(): Image
      reads this`images, this`direction
      requires Valid()
    {
      images[Value(direction)]
    }

    function Bounds(): Rect
      reads this`x, this`y, this`images, this`direction
      requires Valid()
    {
      BoundsAt(x, y, Image())
    }

    /** `setImage(BufferedImage)`: always refused with an `UnsupportedOperationException`; nothing changes. */
    method SetImage(img: Image) returns (unsupported: bool)
      ensures unsupported
    {
      return true;
    }

    /** `setImages(i)`: any array is accepted, so the player stays valid only when it holds eight images. */
    method SetImages(imgs: seq<Image>)
      modifies this`images
      ensures images == imgs
      ensures Valid() <==> |imgs| == 8
    {
      images := imgs;
    }

    method SetX(v: int)
      modifies this`x
      ensures x == v
    {
      x := v;
    }

    method SetY(v: int)
      modifies this`y
      ensures y == v
    {
      y := v;
    }

    method SetHealth(h: int)
      modifies this`health
      ensures health == h
    {
      health := h;
    }

    /** `moveNorth` ... `moveSW` by `amount`: face that way, then step along it. */
    method Move(d: Direction, amount: int)
      modifies this`x, this`y, this`direction
      ensures direction == d
      ensures x == old(x) + amount * Step(d).0
      ensures y == old(y) + amount * Step(d).1
    {
      direction := d;
      match d
      case NORTH => SetY(y - amount);
      case SOUTH => SetY(y + amount);
      case EAST => SetX(x + amount);
      case WEST => SetX(x - amount);
      case NE => SetY(y - amount); SetX(x + amount);
      case NW => SetY(y - amount); SetX(x - amount);
      case SE => SetY(y + amount); SetX(x + amount);
      case SW => SetY(y + amount); SetX(x - amount);
    }
  }

  /** Every player move faces the moved direction and is undone by the opposite move, which faces back. */
  method PlayerThereAndBack(p: Player, d: Direction, amount: int)
    modifies p
    ensures p.x == old(p.x) && p.y == old(p.y) && p.direction == Opposite(d)
  {
    StepFollowsAngle(d);
    p.Move(d, amount);
    p.Move(Opposite(d), amount);
  }

  /** `CSGraphics.Enemy`. */
  class Enemy {
    var x: int
    var y: int
    var image: Image
    var health: int

    constructor (x: int, y: int, image: Image, health: int)
      ensures State() == Foe(x, y, image, health)
    {
      this.x, this.y, this.image, this.health := x, y, image, health;
    }

    function State(): Foe
      reads this
    {
      Foe(x, y, image, health)
    }

    /** `doSpecialAction(p)`. */
    method DoSpecialAction(p: Player)
      requires p.Valid()
      modifies this`x, this`y
      ensures State() == Chase(old(State()), p.x, p.y, p.Bounds())
    {
      if !Geometry.Intersects(p.Bounds(), BoundsAt(x, y, image)) {
        if x < p.x {
          x := x + 1;
        } else {
          x := x - 1;
        }
        if y < p.y {
          y := y + 1;
        } else {
          y := y - 1;
        }
      }
    }

    /** `onCollideWithEntity(p)`: the player loses `DAMAGE_AMT`; nothing else changes. */
    method OnCollideWithEntity(p: Player)
      modifies p`health
      ensures p.health == old(p.health) - DamageAmt
    {
      p.health := p.health - DamageAmt;
    }
  }

  /** `FollowerEntityTest`: chases the player on every call, overlapping or not. */
  class Follower {
    var x: int
    var y: int
    var image: Image
    var target: Player?

    constructor (x: int, y: int, image: Image)
      ensures this.x == x && this.y == y && this.image == image && target == null
    {
      this.x, this.y, this.image, target := x, y, image, null;
    }

    /** `doSpecialAction(p)`: records the player and takes one chase step on each axis. */
    method DoSpecialAction(p: Player)
      modifies this`x, this`y, this`target
      ensures target == p
      ensures x == StepToward(old(x), p.x) && y == StepToward(old(y), p.y)
      ensures IntAbs(x - old(x)) == 1 && IntAbs(y - old(y)) == 1
    {
      target := p;
      if x < p.x {
        x := x + 1;
      } else {
        x := x - 1;
      }
      if y < p.y {
        y := y + 1;
      } else {
        y := y - 1;
      }
    }
  }
}
