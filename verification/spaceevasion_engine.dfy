/**
 * `com.albertzhang.spaceevasion.LogicEngine`: the entity lists, the corpses,
 * the score, the growing difficulty and one `doLogic` tick.
 *
 * The tick, in order: the loss check (health below zero: health set to 0,
 * pause, then either a fresh start and resume, or the end of the process);
 * a spawn when the draw is below `0.007 * getDifficulty()` and fewer than 100
 * enemies exist; the enemy pass, which turns dead enemies into corpses and
 * score and raises the alarm on contact; the projectile pass; the growth of
 * the difficulty by a factor 1.0005. Both passes walk an `ArrayList` by index
 * and call `remove(index)` without stepping back.
 *
 * The `Enemy`, `Player` and `Projectile` classes the engine calls are not part
 * of this model: how an enemy moves, what its contact does to the player's
 * health, how a projectile moves and what its hit does to an enemy are the
 * parameters `Rules`. Random draws, spawn positions and the answer to "play
 * again?" are parameters too.
 */
module SpaceEvasionEngine {
  import opened JavaInt
  import opened JavaList
  import opened Geometry
  import opened Lifecycle
  import opened SpaceEvasionSprites

  const MaxEnemies: int := 100
  const BaseDifficulty: real := 0.007
  /** `difficulty += 0.0005 * difficulty` at the end of every tick. */
  const Growth: real := 0.0005
  const ScorePerKill: int := 55
  const EnemyReach: real := 91.0
  const ShotReach: real := 64.0
  const SpawnClearance: real := 128.0
  /** How far past the top or left border a projectile may go before it is dropped. */
  const Margin: real := 32.0

  /** The behaviour of the classes this model does not include. */
  datatype Rules = Rules(
    move: (Ship, real, real) -> Ship,  // `moveTowardsPlayer()`: the enemy homes on the player at (x, y)
    hurt: (Ship, real) -> real,        // `onCollideWithSprite(p)`: the player's new health
    fly: Shot -> Shot,                 // `Projectile.move()`
    strike: Ship -> Ship               // `proj.onCollideWithSprite(en)`: the enemy afterwards
  )

  /** `getDifficulty()`: within 0.1 of the "insane" level 3 it plays as 10, otherwise as 1.1 times the level. */
  function EffectiveDifficulty(d: real): (r: real)
    ensures Abs(d - 3.0) <= 0.1 ==> r == 10.0
    ensures Abs(d - 3.0) > 0.1 ==> r == 1.1 * d
    ensures d >= 0.0 ==> r >= d
  {
    if Abs(d - 3.0) <= 0.1 then 10.0 else d * 1.1
  }

  /** One tick's growth of the difficulty. */
  function Grow(d: real): (r: real)
    ensures r == d * (1.0 + Growth)
    ensures d > 0.0 ==> r > d
  {
    d + Growth * d
  }

  function GrowTimes(d: real, n: nat): real
    decreases n
  {
    if n == 0 then d else Grow(GrowTimes(d, n - 1))
  }

  /** Compound growth is at least linear: after n ticks the level is at least d (1 + n/2000). */
  lemma {:induction false} GrowTimesAtLeastLinear(d: real, n: nat)
    requires d >= 0.0
    ensures GrowTimes(d, n) >= d * (1.0 + (n as real) * Growth)
  {
    if n > 0 {
      GrowTimesAtLeastLinear(d, n - 1);
      var g := GrowTimes(d, n - 1);
      var lin := d * (1.0 + ((n - 1) as real) * Growth);
      assert g >= lin;
      assert GrowTimes(d, n) == g * (1.0 + Growth);
      assert g * (1.0 + Growth) >= lin * (1.0 + Growth);
      assert lin * (1.0 + Growth) == d * (1.0 + (n as real) * Growth) + d * ((n - 1) as real) * Growth * Growth;
      assert d * ((n - 1) as real) * Growth * Growth >= 0.0;
    }
  }

  /**
   * The "insane" level does not last: it starts out playing as 10, but from
   * the 67th tick on the stored level is above 3.1 and plays as only 1.1
   * times itself.
   */
  lemma InsaneBoostEnds(n: nat)
    ensures EffectiveDifficulty(GrowTimes(3.0, 0)) == 10.0
    ensures n >= 67 ==> GrowTimes(3.0, n) > 3.1 && EffectiveDifficulty(GrowTimes(3.0, n)) == 1.1 * GrowTimes(3.0, n)
  {
    if n >= 67 {
      GrowTimesAtLeastLinear(3.0, n);
      assert (n as real) * Growth >= 67.0 * Growth;
      assert GrowTimes(3.0, n) >= 3.1005;
    }
  }

  /** `setScore(x)`: the stored score is never negative. */
  function ClampScore(x: int): (r: int)
    ensures r >= 0
    ensures x >= 0 ==> r == x
    ensures x < 0 ==> r == 0
  {
    if x > 0 then x else 0
  }

  /** `setScore(getScore() + 55)`, in Java `int` arithmetic. */
  function AddKill(score: int): (r: int)
    ensures r >= 0
    ensures 0 <= score && score + ScorePerKill <= IntMax ==> r == score + ScorePerKill
  {
    ClampScore(Wrap(score + ScorePerKill))
  }

  /** A score that overflows wraps negative, and the clamp then resets it to 0. */
  lemma ScoreOverflowResets()
    ensures AddKill(IntMax) == 0
    ensures AddKill(IntMax - ScorePerKill) == IntMax
  {
    assert Wrap(IntMax + ScorePerKill) == IntMax + ScorePerKill - Modulus by {
      WrapOfSmall(IntMax + ScorePerKill);
    }
  }

  predicate Spawns(es: seq<Ship>, draw: real, difficulty: real) {
    draw < BaseDifficulty * EffectiveDifficulty(difficulty) && |es| < MaxEnemies
  }

  predicate TooClose(e: Ship, px: real, py: real) {
    Abs(e.x - px) < SpawnClearance && Abs(e.y - py) < SpawnClearance
  }

  /**
   * `spawnEnemy()` fed the candidates `cands[k..]`: the first candidate at
   * least 128 from the player on some axis; `None` when the supplied draws
   * hold none.
   */
  function SpawnPick(cands: seq<Ship>, k: nat, px: real, py: real): (r: Option<Ship>)
    ensures r.Some? ==> !TooClose(r.value, px, py)
    ensures r.Some? ==> exists j :: k <= j < |cands| && cands[j] == r.value && forall i :: k <= i < j ==> TooClose(cands[i], px, py)
    ensures r.None? <==> forall j :: k <= j < |cands| ==> TooClose(cands[j], px, py)
    decreases |cands| - k
  {
    if k >= |cands| then None
    else if !TooClose(cands[k], px, py) then Some(cands[k])
    else SpawnPick(cands, k + 1, px, py)
  }

  /** The moved enemy passes the 91 pre-filter and overlaps the player. */
  predicate Strikes(f: Ship, px: real, py: real, pBounds: Rect) {
    Abs(f.x - px) < EnemyReach && Abs(f.y - py) < EnemyReach && Intersects(pBounds, ShipBounds(f))
  }

  /**
   * The state the enemy loop carries: the list, the player's health, the
   * corpses, the score, the alarm flag, and (for the specification only) the
   * moved enemies the loop has tested so far.
   */
  datatype Sweep = Sweep(enemies: seq<Ship>, health: real, corpses: seq<Corpse>, score: int, alarm: bool, tested: seq<Ship>)

  /**
   * One iteration of the enemy loop at index `i`. A dead enemy leaves a
   * corpse where it died, is removed and scores 55; it is then still moved
   * and tested like a live one.
   */
  function Visit(s: Sweep, i: nat, rules: Rules, px: real, py: real, pBounds: Rect): (r: Sweep)
    requires i < |s.enemies|
    ensures s.enemies[i].health < 0.0 ==> r.enemies == RemoveAt(s.enemies, i) && r.corpses == s.corpses + [NewCorpse(s.enemies[i].x, s.enemies[i].y, s.enemies[i].theta)]
    ensures s.enemies[i].health >= 0.0 ==> r.enemies == s.enemies[i := rules.move(s.enemies[i], px, py)] && r.corpses == s.corpses
    ensures r.tested == s.tested + [rules.move(s.enemies[i], px, py)]
    ensures r.alarm == (s.alarm || Strikes(rules.move(s.enemies[i], px, py), px, py, pBounds))
    ensures |r.enemies| == |s.enemies| || |r.enemies| == |s.enemies| - 1
    ensures r.enemies[..i] == s.enemies[..i]
  {
    var e := s.enemies[i];
    var dead := e.health < 0.0;
    var moved := rules.move(e, px, py);
    var hit := Strikes(moved, px, py, pBounds);
    Sweep(
      if dead then RemoveAt(s.enemies, i) else s.enemies[i := moved],
      if hit then rules.hurt(moved, s.health) else s.health,
      if dead then s.corpses + [NewCorpse(e.x, e.y, e.theta)] else s.corpses,
      if dead then AddKill(s.score) else s.score,
      s.alarm || hit,
      s.tested + [moved])
  }

  /**
   * The enemy loop from index `i` on. The index advances after every visit,
   * so when a dead enemy is removed its successor, which slides into its
   * slot, is skipped.
   */
  function EnemyPass(s: Sweep, i: nat, rules: Rules, px: real, py: real, pBounds: Rect): (r: Sweep)
    ensures |r.enemies| <= |s.enemies|
    ensures i >= |s.enemies| ==> r == s
    ensures i <= |s.enemies| ==> i <= |r.enemies| && r.enemies[..i] == s.enemies[..i]
    decreases |s.enemies| - i
  {
    if i >= |s.enemies| then s
    else EnemyPass(Visit(s, i, rules, px, py, pBounds), i + 1, rules, px, py, pBounds)
  }

  /** Being a prefix (`<=` on sequences) is transitive. */
  lemma PrefixTransitive<T>(a: seq<T>, b: seq<T>, c: seq<T>)
    requires a <= b && b <= c
    ensures a <= c
  {
    assert forall k :: 0 <= k < |a| ==> a[k] == b[k];
  }

  /** Every enemy the pass removes leaves exactly one corpse, appended after the old ones. */
  lemma {:induction false} EnemyPassCorpses(s: Sweep, i: nat, rules: Rules, px: real, py: real, pBounds: Rect)
    ensures var r := EnemyPass(s, i, rules, px, py, pBounds);
      |r.corpses| - |s.corpses| == |s.enemies| - |r.enemies| && s.corpses <= r.corpses
    decreases |s.enemies| - i
  {
    if i < |s.enemies| {
      var next := Visit(s, i, rules, px, py, pBounds);
      EnemyPassCorpses(next, i + 1, rules, px, py, pBounds);
      var r := EnemyPass(next, i + 1, rules, px, py, pBounds);
      PrefixTransitive(s.corpses, next.corpses, r.corpses);
    }
  }

  /** The score stays non-negative, and without overflow it rises by 55 per enemy removed. */
  lemma {:induction false} EnemyPassScore(s: Sweep, i: nat, rules: Rules, px: real, py: real, pBounds: Rect)
    ensures s.score >= 0 ==> EnemyPass(s, i, rules, px, py, pBounds).score >= 0
    ensures 0 <= s.score && s.score + 55 * |s.enemies| <= IntMax ==>
      var r := EnemyPass(s, i, rules, px, py, pBounds);
      r.score == s.score + 55 * (|s.enemies| - |r.enemies|)
    decreases |s.enemies| - i
  {
    if i < |s.enemies| {
      var next := Visit(s, i, rules, px, py, pBounds);
      assert next.score == if s.enemies[i].health < 0.0 then AddKill(s.score) else s.score;
      EnemyPassScore(next, i + 1, rules, px, py, pBounds);
    }
  }

  /** Some enemy in `t` from index `lo` on was within the 91 pre-filter of the player and overlapped it. */
  predicate StrikesFrom(t: seq<Ship>, lo: nat, px: real, py: real, pBounds: Rect) {
    exists j :: lo <= j < |t| && Strikes(t[j], px, py, pBounds)
  }

  lemma StrikesFromStep(t: seq<Ship>, lo: nat, px: real, py: real, pBounds: Rect)
    requires lo < |t|
    ensures StrikesFrom(t, lo, px, py, pBounds) == (Strikes(t[lo], px, py, pBounds) || StrikesFrom(t, lo + 1, px, py, pBounds))
  {
    if StrikesFrom(t, lo, px, py, pBounds) && !Strikes(t[lo], px, py, pBounds) {
      var j :| lo <= j < |t| && Strikes(t[j], px, py, pBounds);
      assert lo + 1 <= j;
    }
  }

  /** The pass only appends to the moved enemies it has tested. */
  lemma {:induction false} EnemyPassTested(s: Sweep, i: nat, rules: Rules, px: real, py: real, pBounds: Rect)
    ensures var r := EnemyPass(s, i, rules, px, py, pBounds);
      s.tested <= r.tested
    decreases |s.enemies| - i
  {
    if i < |s.enemies| {
      var next := Visit(s, i, rules, px, py, pBounds);
      EnemyPassTested(next, i + 1, rules, px, py, pBounds);
      var r := EnemyPass(next, i + 1, rules, px, py, pBounds);
      PrefixTransitive(s.tested, next.tested, r.tested);
    }
  }

  /**
   * The alarm sounds exactly when some enemy the loop tested, dead or alive,
   * was within the 91 pre-filter of the player and overlapped it.
   */
  lemma {:induction false} EnemyPassAlarm(s: Sweep, i: nat, rules: Rules, px: real, py: real, pBounds: Rect)
    ensures var r := EnemyPass(s, i, rules, px, py, pBounds);
      s.tested <= r.tested &&
      r.alarm == (s.alarm || StrikesFrom(r.tested, |s.tested|, px, py, pBounds))
    decreases |s.enemies| - i
  {
    EnemyPassTested(s, i, rules, px, py, pBounds);
    if i < |s.enemies| {
      var next := Visit(s, i, rules, px, py, pBounds);
      EnemyPassAlarm(next, i + 1, rules, px, py, pBounds);
      var r := EnemyPass(next, i + 1, rules, px, py, pBounds);
      assert r == EnemyPass(s, i, rules, px, py, pBounds);
      assert |next.tested| == |s.tested| + 1;
      assert r.tested[|s.tested|] == next.tested[|s.tested|] == rules.move(s.enemies[i], px, py);
      StrikesFromStep(r.tested, |s.tested|, px, py, pBounds);
    } else {
      assert !StrikesFrom(s.tested, |s.tested|, px, py, pBounds);
    }
  }

  /**
   * A dead enemy is removed, leaves a corpse and scores, but is still moved
   * and tested: one that reaches the player still hurts it and sounds the alarm.
   */
  lemma DeadEnemyStillStrikes(s: Sweep, i: nat, rules: Rules, px: real, py: real, pBounds: Rect)
    requires i < |s.enemies| && s.enemies[i].health < 0.0
    requires Strikes(rules.move(s.enemies[i], px, py), px, py, pBounds)
    ensures var e := s.enemies[i];
      var moved := rules.move(e, px, py);
      Visit(s, i, rules, px, py, pBounds) ==
        Sweep(RemoveAt(s.enemies, i), rules.hurt(moved, s.health), s.corpses + [NewCorpse(e.x, e.y, e.theta)],
              AddKill(s.score), true, s.tested + [moved])
  {
  }

  /**
   * When the enemy at `i` is dead, its successor slides into slot `i` and is
   * skipped: it survives the pass unmoved, even if it is dead as well.
   */
  lemma DeadEnemySuccessorSkipped(s: Sweep, i: nat, rules: Rules, px: real, py: real, pBounds: Rect)
    requires i + 1 < |s.enemies| && s.enemies[i].health < 0.0
    ensures EnemyPass(s, i, rules, px, py, pBounds).enemies[i] == s.enemies[i + 1]
  {
    var next := Visit(s, i, rules, px, py, pBounds);
    var r := EnemyPass(next, i + 1, rules, px, py, pBounds);
    assert r.enemies[..i + 1] == next.enemies[..i + 1];
    assert r.enemies[i] == next.enemies[i];
  }

  /** The moved projectile is within the 64 pre-filter of the enemy and overlaps it. */
  predicate Hits(p: Shot, en: Ship) {
    Abs(p.x - en.x) < ShotReach && Abs(p.y - en.y) < ShotReach && Intersects(ShipBounds(en), ShotBounds(p))
  }

  /**
   * The 64 pre-filter is exact for sprites no larger than 64 pixels: a
   * projectile hits an enemy exactly when their bounds overlap.
   */
  lemma ShotPrefilterSound(p: Shot, en: Ship)
    requires 0 <= p.image.width <= 64 && 0 <= p.image.height <= 64
    requires 0 <= en.image.width <= 64 && 0 <= en.image.height <= 64
    ensures Hits(p, en) <==> Intersects(ShipBounds(en), ShotBounds(p))
  {
    if Intersects(ShipBounds(en), ShotBounds(p)) {
      PrefilterSound(ShipBounds(en), ShotBounds(p), ShotReach);
    }
  }

  /** The first enemy from index `k` on that the projectile hits. */
  function FirstHit(p: Shot, es: seq<Ship>, k: nat): (r: Option<nat>)
    ensures r.Some? ==> k <= r.value < |es| && Hits(p, es[r.value])
    ensures r.Some? ==> forall j :: k <= j < r.value ==> !Hits(p, es[j])
    ensures r.None? ==> forall j :: k <= j < |es| ==> !Hits(p, es[j])
    decreases |es| - k
  {
    if k >= |es| then None
    else if Hits(p, es[k]) then Some(k)
    else FirstHit(p, es, k + 1)
  }

  /** The projectile is past the field: more than 32 beyond the top or left border, or beyond the bottom or right one. */
  predicate OutOfField(p: Shot, width: int, height: int) {
    p.x < -Margin || p.x > width as real || p.y < -Margin || p.y > height as real
  }

  /** The projectile loop's result: the lists afterwards, or the exception a second `remove` throws. */
  datatype ShotPass = ShotPass(shots: seq<Shot>, enemies: seq<Ship>) | ShotCrash

  /**
   * One iteration of the projectile loop at index `i`: the projectile moves,
   * strikes the first enemy it hits and is removed; then, separately, it is
   * removed when out of the field. `None` when that second removal throws.
   * A projectile removed for both reasons takes its successor with it; one
   * kept is written back moved.
   */
  function ShotStep(ps: seq<Shot>, es: seq<Ship>, i: nat, rules: Rules, width: int, height: int): (r: Option<(seq<Shot>, seq<Ship>)>)
    requires i < |ps|
    ensures r.Some? ==> |r.value.0| <= |ps| && |r.value.1| == |es|
    ensures r.Some? ==> i <= |r.value.0| && r.value.0[..i] == ps[..i]
    ensures r.None? <==> FirstHit(rules.fly(ps[i]), es, 0).Some? && OutOfField(rules.fly(ps[i]), width, height) && i + 1 == |ps|
    ensures r.Some? ==> forall j :: 0 <= j < |es| && FirstHit(rules.fly(ps[i]), es, 0) != Some(j) ==> r.value.1[j] == es[j]
    ensures var hit := FirstHit(rules.fly(ps[i]), es, 0);
      r.Some? && hit.Some? ==> r.value.1[hit.value] == rules.strike(es[hit.value])
    ensures var gone := Removals(FirstHit(rules.fly(ps[i]), es, 0).Some?, OutOfField(rules.fly(ps[i]), width, height));
      r.Some? ==> (i + gone <= |ps| &&
                   r.value.0 == if gone == 0 then ps[i := rules.fly(ps[i])] else ps[..i] + ps[i + gone..])
  {
    var proj := rules.fly(ps[i]);
    var ps0 := ps[i := proj];
    var hit := FirstHit(proj, es, 0);
    var es1 := if hit.Some? then es[hit.value := rules.strike(es[hit.value])] else es;
    var ps1 := if hit.Some? then RemoveAt(ps0, i) else ps0;
    if !OutOfField(proj, width, height) then Some((ps1, es1))
    else if i < |ps1| then Some((RemoveAt(ps1, i), es1))
    else None
  }

  /** The projectile loop from index `i` on. */
  function ProjectilePass(ps: seq<Shot>, es: seq<Ship>, i: nat, rules: Rules, width: int, height: int): (r: ShotPass)
    ensures i >= |ps| ==> r == ShotPass(ps, es)
    ensures r.ShotPass? ==> |r.enemies| == |es| && |r.shots| <= |ps|
    decreases |ps| - i
  {
    if i >= |ps| then ShotPass(ps, es)
    else
      match ShotStep(ps, es, i, rules, width, height)
      case None => ShotCrash
      case Some((ps1, es1)) => ProjectilePass(ps1, es1, i + 1, rules, width, height)
  }

  /** The last projectile hitting an enemy while leaving the field makes the second `remove(index)` throw. */
  lemma HitOutOfFieldLastThrows(ps: seq<Shot>, es: seq<Ship>, i: nat, rules: Rules, width: int, height: int)
    requires i + 1 == |ps| && FirstHit(rules.fly(ps[i]), es, 0).Some? && OutOfField(rules.fly(ps[i]), width, height)
    ensures ProjectilePass(ps, es, i, rules, width, height) == ShotCrash
  {
  }

  /** A projectile hitting an enemy while leaving the field takes its successor with it, untested. */
  lemma HitOutOfFieldDropsSuccessor(ps: seq<Shot>, es: seq<Ship>, i: nat, rules: Rules, width: int, height: int)
    requires i + 1 < |ps| && FirstHit(rules.fly(ps[i]), es, 0).Some? && OutOfField(rules.fly(ps[i]), width, height)
    ensures var hit := FirstHit(rules.fly(ps[i]), es, 0).value;
      ProjectilePass(ps, es, i, rules, width, height) ==
        ProjectilePass(ps[..i] + ps[i + 2..], es[hit := rules.strike(es[hit])], i + 1, rules, width, height)
  {
  }

  /** The engine's whole state. */
  datatype World = World(enemies: seq<Ship>, shots: seq<Shot>, corpses: seq<Corpse>, player: Body, score: int, difficulty: real)

  /** The player `initSprites` creates: full health, centred in the window with integer halves. */
  function Centred(width: int, height: int, img: Image): (b: Body)
    ensures b.health == FullHealth && b.image == img
    ensures width >= 0 && img.width >= 0 ==> b.x == (width / 2 - img.width / 2) as real
    ensures height >= 0 && img.height >= 0 ==> b.y == (height / 2 - img.height / 2) as real
  {
    Body((Half(width) - Half(img.width)) as real, (Half(height) - Half(img.height)) as real, img, FullHealth)
  }

  /**
   * The loss check: below zero, "play again" restarts with score 0, no
   * enemies, no projectiles and a centred player, keeping the corpses and the
   * difficulty; otherwise the process exits (`None`).
   */
  function LossCheck(w: World, playAgain: bool, centred: Body): (r: Option<World>)
    ensures w.player.health >= 0.0 ==> r == Some(w)
    ensures w.player.health < 0.0 ==> (r.None? <==> !playAgain)
    ensures w.player.health < 0.0 && playAgain ==>
      r == Some(World([], [], w.corpses, centred, 0, w.difficulty))
  {
    if w.player.health < 0.0 then
      if playAgain then Some(w.(enemies := [], shots := [], player := centred, score := 0)) else None
    else Some(w)
  }

  /** What a tick leaves: the new world and whether the alarm sounds; or the end of the process; or the exception. */
  datatype TickResult = Ticked(world: World, alarm: bool) | TickExited | TickCrashed

  /** What `new Enemy(difficulty, p)` creates: full health, and the engine's difficulty at that moment. */
  predicate Fresh(e: Ship, difficulty: real) {
    e.health == FullHealth && e.difficulty == difficulty
  }

  /**
   * The enemies after the spawn step: at most one is appended, only under the
   * chance and the cap, and it is a drawn candidate clear of the player; so
   * when every draw is a fresh enemy, the newcomer carries full health and
   * the current difficulty.
   */
  function AfterSpawn(es: seq<Ship>, difficulty: real, draw: real, cands: seq<Ship>, px: real, py: real): (r: seq<Ship>)
    ensures |es| <= |r| <= |es| + 1 && r[..|es|] == es
    ensures |es| <= MaxEnemies ==> |r| <= MaxEnemies
    ensures |r| == |es| + 1 ==> Spawns(es, draw, difficulty) && r[|es|] in cands && !TooClose(r[|es|], px, py)
    ensures (forall c :: c in cands ==> Fresh(c, difficulty)) && |r| == |es| + 1 ==> Fresh(r[|es|], difficulty)
  {
    if Spawns(es, draw, difficulty) then
      match SpawnPick(cands, 0, px, py)
      case Some(e) => es + [e]
      case None => es
    else es
  }

  /**
   * The tick after the loss check. It never ends the process, never moves
   * the player, never adds projectiles, adds at most one enemy, and grows the
   * difficulty by 0.05%.
   */
  function Advance(w: World, rules: Rules, width: int, height: int, draw: real, cands: seq<Ship>): (t: TickResult)
    ensures !t.TickExited?
    ensures t.Ticked? ==> t.world.player == w.player.(health := t.world.player.health)
    ensures t.Ticked? ==> |t.world.shots| <= |w.shots| && |t.world.enemies| <= |w.enemies| + 1
    ensures t.Ticked? ==> t.world.difficulty == w.difficulty * (1.0 + Growth)
  {
    var p := w.player;
    var es1 := AfterSpawn(w.enemies, w.difficulty, draw, cands, p.x, p.y);
    var sw := EnemyPass(Sweep(es1, p.health, w.corpses, w.score, false, []), 0, rules, p.x, p.y, BodyBounds(p));
    var r := ProjectilePass(w.shots, sw.enemies, 0, rules, width, height);
    if r.ShotCrash? then TickCrashed
    else Ticked(World(r.enemies, r.shots, sw.corpses, p.(health := sw.health), sw.score, Grow(w.difficulty)), sw.alarm)
  }

  /** One `doLogic` call: it ends the process exactly on a loss the player declines to replay. */
  function Tick(w: World, rules: Rules, width: int, height: int, draw: real, playAgain: bool,
                centred: Body, cands: seq<Ship>): (t: TickResult)
    ensures t.TickExited? <==> w.player.health < 0.0 && !playAgain
  {
    match LossCheck(w, playAgain, centred)
    case None => TickExited
    case Some(w1) => Advance(w1, rules, width, height, draw, cands)
  }

  /**
   * What every completed tick keeps: at most 100 enemies, never more
   * projectiles, the corpses only extended, a non-negative score, the player
   * unmoved (or centred after a restart), and the difficulty grown by 0.05%.
   */
  lemma TickInvariants(w: World, rules: Rules, width: int, height: int, draw: real, playAgain: bool,
                       centred: Body, cands: seq<Ship>)
    requires |w.enemies| <= MaxEnemies && w.score >= 0
    ensures var t := Tick(w, rules, width, height, draw, playAgain, centred, cands);
      (t.TickExited? <==> w.player.health < 0.0 && !playAgain) &&
      (t.Ticked? ==>
        |t.world.enemies| <= MaxEnemies && |t.world.shots| <= |w.shots| &&
        w.corpses <= t.world.corpses &&
        t.world.score >= 0 && t.world.difficulty == w.difficulty * (1.0 + Growth) &&
        t.world.player.x == (if w.player.health < 0.0 then centred.x else w.player.x) &&
        t.world.player.y == (if w.player.health < 0.0 then centred.y else w.player.y))
  {
    match LossCheck(w, playAgain, centred)
    case None =>
    case Some(w1) =>
      var p := w1.player;
      var es1 := AfterSpawn(w1.enemies, w1.difficulty, draw, cands, p.x, p.y);
      var s0 := Sweep(es1, p.health, w1.corpses, w1.score, false, []);
      EnemyPassCorpses(s0, 0, rules, p.x, p.y, BodyBounds(p));
      EnemyPassScore(s0, 0, rules, p.x, p.y, BodyBounds(p));
  }

  /** The engine: lists, corpses, player, score, difficulty and the loop's control flags. */
  class Engine {
    var enemies: seq<Ship>
    var projectiles: seq<Shot>
    var corpses: seq<Corpse>
    var p: Sprite
    var score: int
    var difficulty: real
    const control: LoopControl
    /** The window's size and the player's image. */
    const width: int
    const height: int
    const playerImage: Image
    const rules: Rules

    /** `new LogicEngine(difficulty, debug)`: `initSprites()`, then the chosen level. */
    constructor (difficulty: int, width: int, height: int, playerImage: Image, rules: Rules)
      ensures State() == World([], [], [], Centred(width, height, playerImage), 0, difficulty as real)
      ensures fresh(p) && fresh(control) && !control.hasThread
      ensures this.width == width && this.height == height && this.playerImage == playerImage && this.rules == rules
    {
      this.width, this.height, this.playerImage, this.rules := width, height, playerImage, rules;
      control := new LoopControl();
      p := new Sprite(0.0, 0.0, playerImage);
      corpses := [];
      this.difficulty := 1.0;
      new;
      InitSprites();
      this.difficulty := difficulty as real;
    }

    function State(): World
      reads this, p
    {
      World(enemies, projectiles, corpses, p.State(), score, difficulty)
    }

    /** `setScore(score)`. */
    method SetScore(x: int)
      modifies this`score
      ensures score == ClampScore(x)
    {
      score := if x > 0 then x else 0;
    }

    /** `initSprites()`: score 0, a new centred player, empty lists; corpses and difficulty stay. */
    method InitSprites()
      modifies this`p, this`enemies, this`projectiles, this`score
      ensures fresh(p)
      ensures State() == old(State()).(enemies := [], shots := [], player := Centred(width, height, playerImage), score := 0)
    {
      SetScore(0);
      var player := new Sprite(0.0, 0.0, playerImage);
      player.SetX((Half(width) - Half(playerImage.width)) as real);
      player.SetY((Half(height) - Half(playerImage.height)) as real);
      p := player;
      enemies := [];
      projectiles := [];
    }

    /** `spawnEnemy()`, drawing candidates from `cands[k..]`. */
    method SpawnEnemy(cands: seq<Ship>, k: nat) returns (e: Option<Ship>)
      ensures e == SpawnPick(cands, k, p.x, p.y)
      decreases |cands| - k
    {
      if k >= |cands| {
        return None;
      }
      var c := cands[k];
      if Abs(c.x - p.x) < SpawnClearance && Abs(c.y - p.y) < SpawnClearance {
        e := SpawnEnemy(cands, k + 1);
      } else {
        e := Some(c);
      }
    }

    function Progress(alarm: bool, tested: seq<Ship>): Sweep
      reads this, p
    {
      Sweep(enemies, p.health, corpses, score, alarm, tested)
    }

    /** The body of the enemy loop at `index`. */
    method EnemyIteration(index: nat, pX: real, pY: real, pBounds: Rect, alarm: bool, ghost tested: seq<Ship>)
      returns (alarm': bool, ghost tested': seq<Ship>)
      requires index < |enemies|
      modifies this`enemies, this`corpses, this`score, p`health
      ensures Progress(alarm', tested') == Visit(old(Progress(alarm, tested)), index, rules, pX, pY, pBounds)
    {
      var s := enemies[index];
      if s.health < 0.0 {
        corpses := corpses + [NewCorpse(s.x, s.y, s.theta)];
        enemies := RemoveAt(enemies, index);
        SetScore(Wrap(score + ScorePerKill));
      }
      var moved := rules.move(s, pX, pY);
      alarm' := alarm;
      if Abs(moved.x - pX) < EnemyReach && Abs(moved.y - pY) < EnemyReach {
        if Intersects(pBounds, ShipBounds(moved)) {
          p.health := rules.hurt(moved, p.health);
          alarm' := true;
        }
      }
      if s.health >= 0.0 {
        enemies := enemies[index := moved];
      }
      tested' := tested + [moved];
    }

    /** The enemy loop of `doLogic`; `alarm` is `playAlarm`. */
    method EnemyLoop() returns (alarm: bool)
      modifies this`enemies, this`corpses, this`score, p`health
      ensures var r := EnemyPass(Sweep(old(enemies), old(p.health), old(corpses), old(score), false, []), 0,
                                 rules, p.x, p.y, p.Bounds());
        enemies == r.enemies && p.health == r.health && corpses == r.corpses && score == r.score && alarm == r.alarm
    {
      var pBounds := p.Bounds();
      var pX := p.x;
      var pY := p.y;
      alarm := false;
      ghost var tested: seq<Ship> := [];
      ghost var target := EnemyPass(Progress(alarm, tested), 0, rules, pX, pY, pBounds);
      var index := 0;
      while index < |enemies|
        invariant EnemyPass(Progress(alarm, tested), index, rules, pX, pY, pBounds) == target
        invariant p.x == pX && p.y == pY && p.Bounds() == pBounds
        decreases |enemies| - index
      {
        alarm, tested := EnemyIteration(index, pX, pY, pBounds, alarm, tested);
        index := index + 1;
      }
    }

    /** The inner `for (Sprite en : enemies)` scan: the first enemy the projectile hits. */
    method FindHit(proj: Shot) returns (hit: Option<nat>)
      ensures hit == FirstHit(proj, enemies, 0)
    {
      var k := 0;
      while k < |enemies|
        invariant k <= |enemies| && FirstHit(proj, enemies, k) == FirstHit(proj, enemies, 0)
      {
        if Abs(proj.x - enemies[k].x) < ShotReach && Abs(proj.y - enemies[k].y) < ShotReach {
          if Intersects(ShipBounds(enemies[k]), ShotBounds(proj)) {
            return Some(k);
          }
        }
        k := k + 1;
      }
      return None;
    }

    /** The body of the projectile loop at `index`; `crashed` is the exception of a second `remove` past the end. */
    method ProjectileIteration(index: nat) returns (crashed: bool)
      requires index < |projectiles|
      modifies this`enemies, this`projectiles
      ensures var step := ShotStep(old(projectiles), old(enemies), index, rules, width, height);
        crashed == step.None? && (step.Some? ==> step.value == (projectiles, enemies))
    {
      ghost var es0 := enemies;
      var proj := rules.fly(projectiles[index]);
      projectiles := projectiles[index := proj];
      ghost var ps0 := projectiles;
      var hit := FindHit(proj);
      if hit.Some? {
        enemies := enemies[hit.value := rules.strike(enemies[hit.value])];
        projectiles := RemoveAt(projectiles, index);
      }
      ghost var ps1 := projectiles;
      assert enemies == if hit.Some? then es0[hit.value := rules.strike(es0[hit.value])] else es0;
      assert ps1 == if hit.Some? then RemoveAt(ps0, index) else ps0;
      var out := proj.x < -Margin || proj.x > width as real || proj.y < -Margin || proj.y > height as real;
      if out {
        if index >= |projectiles| {
          return true;
        }
        projectiles := RemoveAt(projectiles, index);
      }
      assert projectiles == if out then RemoveAt(ps1, index) else ps1;
      return false;
    }

    /** The projectile loop of `doLogic`. */
    method ProjectileLoop() returns (crashed: bool)
      modifies this`enemies, this`projectiles
      ensures var r := ProjectilePass(old(projectiles), old(enemies), 0, rules, width, height);
        crashed == r.ShotCrash? && (r.ShotPass? ==> projectiles == r.shots && enemies == r.enemies)
    {
      ghost var target := ProjectilePass(projectiles, enemies, 0, rules, width, height);
      var index := 0;
      while index < |projectiles|
        invariant ProjectilePass(projectiles, enemies, index, rules, width, height) == target
        decreases |projectiles| - index
      {
        crashed := ProjectileIteration(index);
        if crashed {
          return;
        }
        index := index + 1;
      }
      return false;
    }

    /** The loss check at the head of `doLogic`; `exited` is `System.exit(0)`. */
    method CheckLoss(playAgain: bool) returns (exited: bool)
      requires control.hasThread
      modifies this`p, this`enemies, this`projectiles, this`score, p`health, control`isPaused
      ensures var r := LossCheck(old(State()), playAgain, Centred(width, height, playerImage));
        exited == r.None? && (r.Some? ==> State() == r.value)
      ensures old(p.health) >= 0.0 ==> p == old(p) && control.isPaused == old(control.isPaused)
      ensures old(p.health) < 0.0 ==> old(p).health == 0.0 && control.isPaused == exited
      ensures p == old(p) || fresh(p)
    {
      if p.health < 0.0 {
        p.SetHealth(0.0);
        var _ := control.Pause();
        if playAgain {
          InitSprites();
          var _ := control.Resume();
        } else {
          return true;
        }
      }
      return false;
    }

    /** The spawn step of `doLogic`: below the difficulty-scaled chance and the cap, one `spawnEnemy`. */
    method SpawnStep(draw: real, cands: seq<Ship>)
      requires forall c :: c in cands ==> Fresh(c, difficulty)
      modifies this`enemies
      ensures enemies == AfterSpawn(old(enemies), difficulty, draw, cands, p.x, p.y)
    {
      if draw < BaseDifficulty * EffectiveDifficulty(difficulty) && |enemies| < MaxEnemies {
        var e := SpawnEnemy(cands, 0);
        if e.Some? {
          enemies := enemies + [e.value];
        }
      }
    }

    /** The rest of `doLogic` once the loss check has passed; `alarm` is `playAlarm`. */
    method AdvanceWorld(draw: real, cands: seq<Ship>) returns (crashed: bool, alarm: bool)
      requires forall c :: c in cands ==> Fresh(c, difficulty)
      modifies this`enemies, this`projectiles, this`corpses, this`score, this`difficulty, p`health
      ensures var t := Advance(old(State()), rules, width, height, draw, cands);
        crashed == t.TickCrashed? && (t.Ticked? ==> State() == t.world && alarm == t.alarm)
    {
      SpawnStep(draw, cands);
      alarm := EnemyLoop();
      crashed := ProjectileLoop();
      if crashed {
        return;
      }
      difficulty := difficulty + Growth * difficulty;
    }

    /** `doLogic()`, run by the logic thread. */
    method DoLogic(draw: real, playAgain: bool, cands: seq<Ship>) returns (exited: bool, crashed: bool, alarm: bool)
      requires control.hasThread && forall c :: c in cands ==> Fresh(c, difficulty)
      modifies this`p, this`enemies, this`projectiles, this`corpses, this`score, this`difficulty, p`health, control`isPaused
      ensures var t := Tick(old(State()), rules, width, height, draw, playAgain, Centred(width, height, playerImage), cands);
        exited == t.TickExited? && crashed == t.TickCrashed? && (t.Ticked? ==> State() == t.world && alarm == t.alarm)
      ensures old(p.health) >= 0.0 ==> p == old(p) && control.isPaused == old(control.isPaused)
      ensures old(p.health) < 0.0 ==> old(p).health == 0.0 && control.isPaused == exited
    {
      exited := CheckLoss(playAgain);
      if exited {
        return true, false, false;
      }
      crashed, alarm := AdvanceWorld(draw, cands);
    }
  }
}
