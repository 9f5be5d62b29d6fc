/**
 * `CSGraphics.LogicEngine`: the entity lists and one `doLogic` tick.
 *
 * The tick, in order: a pause request when the player's health is below zero
 * (the tick still runs in full); a spawn when the draw is below 0.03 and fewer
 * than 35 enemies exist; the enemy pass; the projectile pass. Both passes walk
 * an `ArrayList` by index and call `remove(index)` without stepping the index
 * back, so the element that slides into the freed slot is skipped; a
 * projectile that hits an enemy and is also off the window is removed twice,
 * which removes its successor or, when it was last, throws.
 *
 * `Math.random()` and the spawned enemy's random position are parameters.
 * Projectiles in this generation are plain sprites: their move does nothing
 * and the damage they deal (`onCollideWithEntity`, which `CSGraphics.Sprite`
 * does not define) is the parameter `hitDamage`.
 */
module CSGraphicsEngine {
  import opened JavaInt
  import opened JavaList
  import opened Geometry
  import opened Lifecycle
  import opened CSGraphicsEntities

  const MaxEnemies: int := 35
  const Difficulty: real := 0.03
  /** Enemy pre-filter: the largest offset between two touching 64-pixel sprites, as the source puts it. */
  const EnemyReach: int := 91
  /** Projectile pre-filter: a 32-pixel sprite against a 64-pixel one. */
  const ShotReach: int := 68

  /** A projectile: a plain sprite. */
  datatype Shot = Shot(x: int, y: int, image: Image)

  function ShotBounds(s: Shot): Rect {
    BoundsAt(s.x, s.y, s.image)
  }

  /** The enemy (already moved) passes the 91 pre-filter and overlaps the player. */
  predicate Strikes(f: Foe, px: int, py: int, pBounds: Rect) {
    IntAbs(f.x - px) < EnemyReach && IntAbs(f.y - py) < EnemyReach && Intersects(pBounds, FoeBounds(f))
  }

  /**
   * One turn of the enemy loop at index `i`: the enemy there is moved and
   * tested even when it is dead, in which case it is removed instead of
   * being written back.
   */
  function Visit(es: seq<Foe>, i: nat, health: int, px: int, py: int, pBounds: Rect): (r: (seq<Foe>, int))
    requires i < |es|
    ensures |r.0| == |es| || |r.0| == |es| - 1
    ensures r.0[..i] == es[..i]
    ensures r.1 == health || r.1 == health - DamageAmt
  {
    var s := es[i];
    var moved := Chase(s, px, py, pBounds);
    var h := if Strikes(moved, px, py, pBounds) then health - DamageAmt else health;
    if s.health < 0 then (RemoveAt(es, i), h) else (es[i := moved], h)
  }

  /** The enemy loop from index `i` on: enemies `es`, player health `health`. */
  function EnemyPass(es: seq<Foe>, i: nat, health: int, px: int, py: int, pBounds: Rect): (r: (seq<Foe>, int))
    ensures |r.0| <= |es|
    ensures i >= |es| ==> r == (es, health)
    ensures i <= |es| ==> i <= |r.0| && r.0[..i] == es[..i]
    ensures r.1 <= health
    ensures i <= |es| ==> r.1 >= health - (|es| - i)
    decreases |es| - i
  {
    if i >= |es| then (es, health)
    else
      var v := Visit(es, i, health, px, py, pBounds);
      EnemyPass(v.0, i + 1, v.1, px, py, pBounds)
  }

  /** A dead enemy is removed but still moved and tested: one that reaches the player still hurts it. */
  lemma DeadEnemyStillStrikes(es: seq<Foe>, i: nat, health: int, px: int, py: int, pBounds: Rect)
    requires i < |es| && es[i].health < 0 && Strikes(Chase(es[i], px, py, pBounds), px, py, pBounds)
    ensures Visit(es, i, health, px, py, pBounds) == (RemoveAt(es, i), health - DamageAmt)
  {
  }

  /**
   * When the enemy at `i` is dead, its successor slides into slot `i` and is
   * skipped: it survives the pass unmoved, even if it is dead as well.
   */
  lemma DeadEnemySuccessorSkipped(es: seq<Foe>, i: nat, health: int, px: int, py: int, pBounds: Rect)
    requires i + 1 < |es| && es[i].health < 0
    ensures EnemyPass(es, i, health, px, py, pBounds).0[i] == es[i + 1]
  {
    var s := es[i];
    var moved := Chase(s, px, py, pBounds);
    var h := if Strikes(moved, px, py, pBounds) then health - DamageAmt else health;
    var r := EnemyPass(RemoveAt(es, i), i + 1, h, px, py, pBounds);
    assert r.0[..i + 1] == RemoveAt(es, i)[..i + 1];
    assert r.0[i] == RemoveAt(es, i)[i];
  }

  /** The first enemy from index `k` on that the projectile hits: within the 68 pre-filter and overlapping. */
  predicate Hits(p: Shot, en: Foe) {
    IntAbs(p.x - en.x) < ShotReach && IntAbs(p.y - en.y) < ShotReach && Intersects(FoeBounds(en), ShotBounds(p))
  }

  function FirstHit(p: Shot, es: seq<Foe>, k: nat): (r: Option<nat>)
    ensures r.Some? ==> k <= r.value < |es| && Hits(p, es[r.value])
    ensures r.Some? ==> forall j :: k <= j < r.value ==> !Hits(p, es[j])
    ensures r.None? ==> forall j :: k <= j < |es| ==> !Hits(p, es[j])
    decreases |es| - k
  {
    if k >= |es| then None
    else if Hits(p, es[k]) then Some(k)
    else FirstHit(p, es, k + 1)
  }

  /** The projectile loop's result: the lists afterwards, or the exception a second `remove` throws. */
  datatype ShotPass = ShotPass(shots: seq<Shot>, enemies: seq<Foe>) | ShotCrash

  /** `proj.onCollideWithEntity(en)` on the enemy the projectile hit, if any. */
  function Strike(es: seq<Foe>, hit: Option<nat>, hitDamage: int): (r: seq<Foe>)
    requires hit.Some? ==> hit.value < |es|
    ensures |r| == |es|
    ensures forall j :: 0 <= j < |es| && hit != Some(j) ==> r[j] == es[j]
    ensures hit.Some? ==> r[hit.value].health == es[hit.value].health - hitDamage
    ensures hit.Some? ==> r[hit.value].x == es[hit.value].x && r[hit.value].y == es[hit.value].y
    ensures hit.Some? ==> r[hit.value].image == es[hit.value].image
  {
    if hit.None? then es else es[hit.value := es[hit.value].(health := es[hit.value].health - hitDamage)]
  }

  /**
   * One iteration of the projectile loop at index `i`: the projectile damages
   * the first enemy it hits and is removed; then, separately, it is removed
   * when it no longer overlaps the window. `None` when that second removal
   * throws because the index is past the end. A projectile removed for both
   * reasons takes its successor with it.
   */
  function ShotStep(ps: seq<Shot>, es: seq<Foe>, i: nat, window: Rect, hitDamage: int): (r: Option<(seq<Shot>, seq<Foe>)>)
    requires i < |ps|
    ensures r.Some? ==> |r.value.0| <= |ps| && |r.value.1| == |es|
    ensures r.Some? ==> i <= |r.value.0| && r.value.0[..i] == ps[..i]
    ensures r.None? <==> FirstHit(ps[i], es, 0).Some? && !Intersects(window, ShotBounds(ps[i])) && i + 1 == |ps|
    ensures r.Some? ==> r.value.1 == Strike(es, FirstHit(ps[i], es, 0), hitDamage)
    ensures var gone := Removals(FirstHit(ps[i], es, 0).Some?, !Intersects(window, ShotBounds(ps[i])));
      r.Some? ==> i + gone <= |ps| && r.value.0 == ps[..i] + ps[i + gone..]
  {
    var hit := FirstHit(ps[i], es, 0);
    var es1 := Strike(es, hit, hitDamage);
    var ps1 := if hit.Some? then RemoveAt(ps, i) else ps;
    if Intersects(window, ShotBounds(ps[i])) then Some((ps1, es1))
    else if i < |ps1| then Some((RemoveAt(ps1, i), es1))
    else None
  }

  /** The projectile loop from index `i` on. */
  function ProjectilePass(ps: seq<Shot>, es: seq<Foe>, i: nat, window: Rect, hitDamage: int): (r: ShotPass)
    ensures i >= |ps| ==> r == ShotPass(ps, es)
    ensures r.ShotPass? ==> |r.enemies| == |es| && |r.shots| <= |ps|
    decreases |ps| - i
  {
    if i >= |ps| then ShotPass(ps, es)
    else
      match ShotStep(ps, es, i, window, hitDamage)
      case None => ShotCrash
      case Some((ps1, es1)) => ProjectilePass(ps1, es1, i + 1, window, hitDamage)
  }

  /** The last projectile hitting an enemy while off the window makes the second `remove(index)` throw. */
  lemma HitOffWindowLastThrows(ps: seq<Shot>, es: seq<Foe>, i: nat, window: Rect, hitDamage: int)
    requires i + 1 == |ps| && FirstHit(ps[i], es, 0).Some? && !Intersects(window, ShotBounds(ps[i]))
    ensures ProjectilePass(ps, es, i, window, hitDamage) == ShotCrash
  {
  }

  /**
   * A projectile hitting an enemy while off the window takes its successor
   * with it: the loop goes on after the successor, which is never tested.
   */
  lemma HitOffWindowDropsSuccessor(ps: seq<Shot>, es: seq<Foe>, i: nat, window: Rect, hitDamage: int)
    requires i + 1 < |ps| && FirstHit(ps[i], es, 0).Some? && !Intersects(window, ShotBounds(ps[i]))
    ensures ProjectilePass(ps, es, i, window, hitDamage) ==
      ProjectilePass(ps[..i] + ps[i + 2..], Strike(es, FirstHit(ps[i], es, 0), hitDamage), i + 1, window, hitDamage)
  {
  }

  /** What a tick leaves: the lists, the player's health and whether it asked to pause; or the crash. */
  datatype TickResult = Ticked(enemies: seq<Foe>, shots: seq<Shot>, health: int, pauseRequested: bool) | TickCrashed

  predicate Spawns(es: seq<Foe>, draw: real) {
    draw < Difficulty && |es| < MaxEnemies
  }

  /**
   * One `doLogic` call on the lists and the player's health. It adds at most
   * one enemy, and none unless the draw is below 0.03 with fewer than 35
 * present, so the count never passes 35 once it is at most 35; it never
   * adds projectiles, never raises the player's health, and asks to pause
   * exactly when health was already below zero. Only a projectile can make it
   * throw.
   */
  function Tick(es: seq<Foe>, ps: seq<Shot>, health: int, px: int, py: int, pBounds: Rect, window: Rect,
                draw: real, newcomer: Foe, hitDamage: int): (t: TickResult)
    ensures t.Ticked? ==> |t.enemies| <= |es| + 1 && (|es| <= MaxEnemies ==> |t.enemies| <= MaxEnemies)
    ensures t.Ticked? ==> |t.shots| <= |ps| && t.health <= health && t.pauseRequested == (health < 0)
    ensures t.TickCrashed? ==> ps != []
    ensures t.Ticked? && !Spawns(es, draw) ==> |t.enemies| <= |es|
  {
    var es1 := if Spawns(es, draw) then es + [newcomer] else es;
    var (es2, h) := EnemyPass(es1, 0, health, px, py, pBounds);
    var r := ProjectilePass(ps, es2, 0, window, hitDamage);
    if r.ShotCrash? then TickCrashed else Ticked(r.enemies, r.shots, h, health < 0)
  }

  /** The engine: its two lists, the player, and the loop's control flags. */
  class Engine {
    var enemies: seq<Foe>
    var projectiles: seq<Shot>
    var p: Player
    const control: LoopControl
    /** The window's size. */
    const width: int
    const height: int

    /**
     * `new LogicEngine()`, i.e. `initSprites()`: the player centred in the
     * window, facing north, one enemy, no projectiles.
     */
    constructor (width: int, height: int, playerImages: seq<Image>, playerHealth: int, first: Foe)
      requires width >= 0 && height >= 0 && |playerImages| == 8
      requires playerImages[0].width >= 0 && playerImages[0].height >= 0
      ensures enemies == [first] && projectiles == []
      ensures p.Valid() && p.images == playerImages && p.health == playerHealth
      ensures p.x == width / 2 - playerImages[0].width / 2 && p.y == height / 2 - playerImages[0].height / 2
      ensures fresh(p) && fresh(control) && !control.hasThread
      ensures this.width == width && this.height == height
    {
      this.width, this.height := width, height;
      control := new LoopControl();
      var player := new Player(0, 0, playerImages, playerHealth);
      player.SetX(width / 2 - player.Image().width / 2);
      player.SetY(height / 2 - player.Image().height / 2);
      p := player;
      enemies := [first];
      projectiles := [];
    }

    function Window(): Rect
      reads this
    {
      Rect(0.0, 0.0, width as real, height as real)
    }

    /** One turn of the enemy loop: the body of `doLogic`'s enemy `for` loop at `index`. */
    method EnemyIteration(index: nat, pX: int, pY: int, pBounds: Rect)
      requires index < |enemies|
      modifies this`enemies, p`health
      ensures (enemies, p.health) == Visit(old(enemies), index, old(p.health), pX, pY, pBounds)
    {
      var s := enemies[index];
      if s.health < 0 {
        enemies := RemoveAt(enemies, index);
      }
      var moved := Chase(s, pX, pY, pBounds);
      if IntAbs(moved.x - pX) < EnemyReach && IntAbs(moved.y - pY) < EnemyReach {
        if Intersects(pBounds, FoeBounds(moved)) {
          p.health := p.health - DamageAmt;
        }
      }
      if s.health >= 0 {
        enemies := enemies[index := moved];
      }
    }

    /** The enemy loop of `doLogic`. */
    method EnemyLoop()
      requires p.Valid()
      modifies this`enemies, p`health
      ensures (enemies, p.health) == EnemyPass(old(enemies), 0, old(p.health), p.x, p.y, p.Bounds())
    {
      var pBounds := p.Bounds();
      var pX := p.x;
      var pY := p.y;
      ghost var target := EnemyPass(enemies, 0, p.health, pX, pY, pBounds);
      var index := 0;
      while index < |enemies|
        invariant EnemyPass(enemies, index, p.health, pX, pY, pBounds) == target
        invariant p.x == pX && p.y == pY && p.Valid() && p.Bounds() == pBounds
        decreases |enemies| - index
      {
        EnemyIteration(index, pX, pY, pBounds);
        index := index + 1;
      }
    }

    /** The inner `for (Sprite en : enemies)` scan: the first enemy the projectile hits. */
    method FindHit(proj: Shot) returns (hit: Option<nat>)
      ensures hit == FirstHit(proj, enemies, 0)
    {
      var k := 0;
      while k < |enemies|
        invariant k <= |enemies| && FirstHit(proj, enemies, k) == FirstHit(proj, enemies, 0)
      {
        if IntAbs(proj.x - enemies[k].x) < ShotReach && IntAbs(proj.y - enemies[k].y) < ShotReach {
          if Intersects(FoeBounds(enemies[k]), ShotBounds(proj)) {
            return Some(k);
          }
        }
        k := k + 1;
      }
      return None;
    }

    /** The body of the projectile loop at `index`; `crashed` is the exception of a second `remove` past the end. */
    method ProjectileIteration(index: nat, window: Rect, hitDamage: int) returns (crashed: bool)
      requires index < |projectiles|
      modifies this`enemies, this`projectiles
      ensures var step := ShotStep(old(projectiles), old(enemies), index, window, hitDamage);
        crashed == step.None? && (step.Some? ==> step.value == (projectiles, enemies))
    {
      var proj := projectiles[index];
      ghost var es0, ps0 := enemies, projectiles;
      var hit := FindHit(proj);
      if hit.Some? {
        var en := enemies[hit.value];
        enemies := enemies[hit.value := en.(health := en.health - hitDamage)];
        projectiles := RemoveAt(projectiles, index);
      }
      ghost var ps1 := projectiles;
      assert enemies == Strike(es0, hit, hitDamage);
      assert ps1 == if hit.Some? then RemoveAt(ps0, index) else ps0;
      var inWindow := Intersects(window, ShotBounds(proj));
      if !inWindow {
        if index >= |projectiles| {
          return true;
        }
        projectiles := RemoveAt(projectiles, index);
      }
      assert projectiles == if inWindow then ps1 else RemoveAt(ps1, index);
      return false;
    }

    /** The projectile loop of `doLogic`; `crashed` is the exception of a second `remove` past the end. */
    method ProjectileLoop(hitDamage: int) returns (crashed: bool)
      modifies this`enemies, this`projectiles
      ensures var r := ProjectilePass(old(projectiles), old(enemies), 0, Window(), hitDamage);
        crashed == r.ShotCrash? && (r.ShotPass? ==> projectiles == r.shots && enemies == r.enemies)
    {
      var window := Window();
      ghost var target := ProjectilePass(projectiles, enemies, 0, window, hitDamage);
      var index := 0;
      while index < |projectiles|
        invariant ProjectilePass(projectiles, enemies, index, window, hitDamage) == target
        decreases |projectiles| - index
      {
        crashed := ProjectileIteration(index, window, hitDamage);
        if crashed {
          return;
        }
        index := index + 1;
      }
      return false;
    }

    /** The spawn and the two passes of `doLogic`; `crashed` is the exception of a second `remove` past the end. */
    method AdvanceLists(draw: real, newcomer: Foe, hitDamage: int) returns (crashed: bool)
      requires p.Valid()
      modifies this`enemies, this`projectiles, p`health
      ensures var t := Tick(old(enemies), old(projectiles), old(p.health), p.x, p.y, p.Bounds(), Window(),
                            draw, newcomer, hitDamage);
        crashed == t.TickCrashed? &&
        (t.Ticked? ==> enemies == t.enemies && projectiles == t.shots && p.health == t.health)
    {
      if draw < Difficulty && |enemies| < MaxEnemies {
        enemies := enemies + [newcomer];
      }
      EnemyLoop();
      crashed := ProjectileLoop(hitDamage);
    }

    /** `doLogic()`, run by the logic thread: a pause request when the player's health is below zero, then the lists. */
    method DoLogic(draw: real, newcomer: Foe, hitDamage: int) returns (crashed: bool)
      requires p.Valid() && control.hasThread
      modifies this`enemies, this`projectiles, p`health, control`isPaused
      ensures var t := Tick(old(enemies), old(projectiles), old(p.health), p.x, p.y, p.Bounds(), Window(),
                            draw, newcomer, hitDamage);
        crashed == t.TickCrashed? &&
        (t.Ticked? ==> enemies == t.enemies && projectiles == t.shots && p.health == t.health)
      ensures control.isPaused == (old(control.isPaused) || old(p.health) < 0)
    {
      if p.health < 0 {
        var _ := control.Pause();
      }
      crashed := AdvanceLists(draw, newcomer, hitDamage);
    }
  }
}
