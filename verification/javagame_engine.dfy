/**
 * `com.albertzhang.javagame.LogicEngine`: the entity lists, the player and
 * one `doLogic` tick.
 *
 * The tick, in order: the loss check (health below zero: health set to 0,
 * pause, then either a fresh start and resume, or the end of the process);
 * a spawn attempt when the draw is below `0.01 * getDifficulty()` and fewer
 * than 40 enemies exist; the enemy pass; the projectile pass. Both passes walk
 * an `ArrayList` by index and call `remove(index)` without stepping back.
 *
 * `Math.random()` draws, the spawned enemies' positions and the answer to
 * "play again?" are parameters; the window's size and the sprites' image
 * sizes are fixed at construction.
 */
module JavaGameEngine {
  import opened JavaInt
  import opened JavaList
  import opened Geometry
  import opened Lifecycle
  import opened JavaGameEntities

  const MaxEnemies: int := 40
  const BaseDifficulty: real := 0.01
  /** Enemy pre-filter between the player and a moved enemy. */
  const EnemyReach: real := 91.0
  /** Projectile pre-filter between a moved projectile and an enemy. */
  const ShotReach: real := 46.0
  /** A spawn candidate closer than this on both axes is redrawn. */
  const SpawnClearance: real := 128.0

  /** `getDifficulty()`: the "insane" level 3 plays as 10, and no level ever plays as 3. */
  function EffectiveDifficulty(difficulty: int): (r: int)
    ensures r != 3
    ensures difficulty != 3 ==> r == difficulty
    ensures difficulty == 3 ==> r == 10
  {
    if difficulty == 3 then 10 else difficulty
  }

  predicate Spawns(es: seq<Foe>, draw: real, difficulty: int) {
    draw < BaseDifficulty * (EffectiveDifficulty(difficulty) as real) && |es| < MaxEnemies
  }

  /** The candidate is within 128 of the player on both axes. */
  predicate TooClose(e: Foe, px: real, py: real) {
    Abs(e.x - px) < SpawnClearance && Abs(e.y - py) < SpawnClearance
  }

  /**
   * `spawnEnemy(list)` fed the candidates `cands[k..]`: a candidate too close
   * to the player first spawns again, recursively, and is appended
   * afterwards regardless. So the enemies appended are every candidate drawn
   * up to and including the first acceptable one, in reverse order of
   * drawing.
   */
  function SpawnAppend(cands: seq<Foe>, k: nat, px: real, py: real): (r: seq<Foe>)
    ensures |r| <= |cands| - k || (k >= |cands| && r == [])
    ensures forall e :: e in r ==> e in cands[k..]
    ensures k < |cands| ==> |r| >= 1 && r[|r| - 1] == cands[k]
    ensures forall j :: 1 <= j < |r| ==> TooClose(r[j], px, py)
    decreases |cands| - k
  {
    if k >= |cands| then []
    else if !TooClose(cands[k], px, py) then [cands[k]]
    else SpawnAppend(cands, k + 1, px, py) + [cands[k]]
  }

  function Reversed<T>(s: seq<T>): (r: seq<T>)
    ensures |r| == |s|
    ensures forall j :: 0 <= j < |s| ==> r[j] == s[|s| - 1 - j]
  {
    if s == [] then [] else Reversed(s[1..]) + [s[0]]
  }

  /** The index of the first acceptable candidate from `k` on. */
  function FirstAcceptable(cands: seq<Foe>, k: nat, px: real, py: real): (f: nat)
    requires exists j :: k <= j < |cands| && !TooClose(cands[j], px, py)
    ensures k <= f < |cands| && !TooClose(cands[f], px, py)
    ensures forall j :: k <= j < f ==> TooClose(cands[j], px, py)
    decreases |cands| - k
  {
    if !TooClose(cands[k], px, py) then k
    else
      assert exists j :: k + 1 <= j < |cands| && !TooClose(cands[j], px, py);
      FirstAcceptable(cands, k + 1, px, py)
  }

  /**
   * When an acceptable candidate exists, one attempt appends exactly the
   * draws up to and including the first acceptable one, newest first: the
   * acceptable enemy lands first, the rejected ones after it.
   */
  lemma {:induction false} SpawnAppendIsReversedDraws(cands: seq<Foe>, k: nat, px: real, py: real)
    requires exists j :: k <= j < |cands| && !TooClose(cands[j], px, py)
    ensures SpawnAppend(cands, k, px, py) == Reversed(cands[k..FirstAcceptable(cands, k, px, py) + 1])
    ensures !TooClose(SpawnAppend(cands, k, px, py)[0], px, py)
    decreases |cands| - k
  {
    var f := FirstAcceptable(cands, k, px, py);
    if TooClose(cands[k], px, py) {
      assert exists j :: k + 1 <= j < |cands| && !TooClose(cands[j], px, py);
      SpawnAppendIsReversedDraws(cands, k + 1, px, py);
      assert FirstAcceptable(cands, k + 1, px, py) == f;
      var rest := SpawnAppend(cands, k + 1, px, py);
      assert SpawnAppend(cands, k, px, py) == rest + [cands[k]];
      var drawn := cands[k..f + 1];
      assert drawn[1..] == cands[k + 1..f + 1];
      assert Reversed(drawn) == Reversed(drawn[1..]) + [drawn[0]];
    } else {
      assert f == k;
      assert cands[k..f + 1] == [cands[k]];
    }
  }

  /**
   * The 40-enemy cap is not kept: with 39 enemies, one rejected candidate and
   * then an acceptable one, the list grows to 41.
   */
  lemma SpawnCanPassCap(es: seq<Foe>, near: Foe, far: Foe, px: real, py: real)
    requires |es| == MaxEnemies - 1
    requires TooClose(near, px, py) && !TooClose(far, px, py)
    ensures |es + SpawnAppend([near, far], 0, px, py)| == MaxEnemies + 1
  {
    assert SpawnAppend([near, far], 1, px, py) == [far];
  }

  /** The moved enemy passes the 91 pre-filter and overlaps the player. */
  predicate Strikes(f: Foe, px: real, py: real, pBounds: Rect) {
    Abs(f.x - px) < EnemyReach && Abs(f.y - py) < EnemyReach && Intersects(pBounds, FoeBounds(f))
  }

  /** No enemy from index `i` on has a negative difficulty, so none can heal the player. */
  predicate HarmlessOrWorse(es: seq<Foe>, i: nat) {
    forall j :: i <= j < |es| ==> es[j].difficulty >= 0
  }

  /**
   * One turn of the enemy loop at index `i`: the enemy there is moved and
   * tested even when it is dead, in which case it is removed instead of
   * being written back.
   */
  function Visit(es: seq<Foe>, i: nat, health: real, px: real, py: real, pBounds: Rect): (r: (seq<Foe>, real))
    requires i < |es|
    ensures |r.0| == |es| || |r.0| == |es| - 1
    ensures r.0[..i] == es[..i]
  {
    var s := es[i];
    var moved := Chase(s, px, py, pBounds);
    var h := if Strikes(moved, px, py, pBounds) then health - ContactDamage(moved) else health;
    if s.health < 0.0 then (RemoveAt(es, i), h) else (es[i := moved], h)
  }

  /** The enemy loop from index `i` on: enemies `es`, player health `health`. */
  function EnemyPass(es: seq<Foe>, i: nat, health: real, px: real, py: real, pBounds: Rect): (r: (seq<Foe>, real))
    ensures |r.0| <= |es|
    ensures i >= |es| ==> r == (es, health)
    ensures i <= |es| ==> i <= |r.0| && r.0[..i] == es[..i]
    ensures HarmlessOrWorse(es, i) ==> r.1 <= health
    decreases |es| - i
  {
    if i >= |es| then (es, health)
    else
      var v := Visit(es, i, health, px, py, pBounds);
      assert HarmlessOrWorse(es, i) ==> HarmlessOrWorse(v.0, i + 1) && v.1 <= health;
      EnemyPass(v.0, i + 1, v.1, px, py, pBounds)
  }

  /** A dead enemy is removed but still moved and tested: one that reaches the player still hurts it. */
  lemma DeadEnemyStillStrikes(es: seq<Foe>, i: nat, health: real, px: real, py: real, pBounds: Rect)
    requires i < |es| && es[i].health < 0.0 && Strikes(Chase(es[i], px, py, pBounds), px, py, pBounds)
    ensures Visit(es, i, health, px, py, pBounds) == (RemoveAt(es, i), health - ContactDamage(es[i]))
  {
  }

  /**
   * When the enemy at `i` is dead, its successor slides into slot `i` and is
   * skipped: it survives the pass unmoved, even if it is dead as well.
   */
  lemma DeadEnemySuccessorSkipped(es: seq<Foe>, i: nat, health: real, px: real, py: real, pBounds: Rect)
    requires i + 1 < |es| && es[i].health < 0.0
    ensures EnemyPass(es, i, health, px, py, pBounds).0[i] == es[i + 1]
  {
    var s := es[i];
    var moved := Chase(s, px, py, pBounds);
    var h := if Strikes(moved, px, py, pBounds) then health - ContactDamage(moved) else health;
    var r := EnemyPass(RemoveAt(es, i), i + 1, h, px, py, pBounds);
    assert r.0[..i + 1] == RemoveAt(es, i)[..i + 1];
    assert r.0[i] == RemoveAt(es, i)[i];
  }

  /** The moved projectile is within the 46 pre-filter of the enemy and overlaps it. */
  predicate Hits(p: Bolt, en: Foe) {
    Abs(p.x - en.x) < ShotReach && Abs(p.y - en.y) < ShotReach && Intersects(FoeBounds(en), BoltBounds(p))
  }

  /** The first enemy from index `k` on that the projectile hits. */
  function FirstHit(p: Bolt, es: seq<Foe>, k: nat): (r: Option<nat>)
    ensures r.Some? ==> k <= r.value < |es| && Hits(p, es[r.value])
    ensures r.Some? ==> forall j :: k <= j < r.value ==> !Hits(p, es[j])
    ensures r.None? ==> forall j :: k <= j < |es| ==> !Hits(p, es[j])
    decreases |es| - k
  {
    if k >= |es| then None
    else if Hits(p, es[k]) then Some(k)
    else FirstHit(p, es, k + 1)
  }

  /**
   * The 46 pre-filter is narrower than the sprites: a 32-pixel projectile
   * 50 to the right of a 64-pixel enemy overlaps it, yet is not counted as a
   * hit, and flies on with the enemy unharmed.
   */
  lemma ShotPrefilterMissesOverlap(p: Bolt, en: Foe)
    requires p.image == Image(32, 32) && en.image == Image(64, 64)
    requires p.x == en.x + 50.0 && p.y == en.y
    ensures Intersects(FoeBounds(en), BoltBounds(p))
    ensures !Hits(p, en)
    ensures FirstHit(p, [en], 0) == None
  {
  }

  /** `proj.onCollideWithEntity(en)` on the enemy the projectile hit, if any. */
  function StrikeAt(es: seq<Foe>, hit: Option<nat>): (r: seq<Foe>)
    requires hit.Some? ==> hit.value < |es|
    ensures |r| == |es|
    ensures forall j :: 0 <= j < |es| && hit != Some(j) ==> r[j] == es[j]
    ensures hit.Some? ==> r[hit.value] == Strike(es[hit.value])
  {
    if hit.None? then es else es[hit.value := Strike(es[hit.value])]
  }

  /** The projectile loop's result: the lists afterwards, or the exception a second `remove` throws. */
  datatype ShotPass = ShotPass(shots: seq<Bolt>, enemies: seq<Foe>) | ShotCrash

  /**
   * One iteration of the projectile loop at index `i`: the projectile moves,
   * damages the first enemy it hits and is removed; then, separately, it is
   * removed when it no longer overlaps the window. `None` when that second
   * removal throws because the index is past the end. A projectile removed
   * for both reasons takes its successor with it; one kept is written back
   * moved.
   */
  function ShotStep(ps: seq<Bolt>, es: seq<Foe>, i: nat, window: Rect): (r: Option<(seq<Bolt>, seq<Foe>)>)
    requires i < |ps|
    ensures r.Some? ==> |r.value.0| <= |ps| && |r.value.1| == |es|
    ensures r.Some? ==> i <= |r.value.0| && r.value.0[..i] == ps[..i]
    ensures r.None? <==> FirstHit(Fly(ps[i]), es, 0).Some? && !Intersects(window, BoltBounds(Fly(ps[i]))) && i + 1 == |ps|
    ensures r.Some? ==> r.value.1 == StrikeAt(es, FirstHit(Fly(ps[i]), es, 0))
    ensures var gone := Removals(FirstHit(Fly(ps[i]), es, 0).Some?, !Intersects(window, BoltBounds(Fly(ps[i]))));
      r.Some? ==> (i + gone <= |ps| &&
                   r.value.0 == if gone == 0 then ps[i := Fly(ps[i])] else ps[..i] + ps[i + gone..])
  {
    var proj := Fly(ps[i]);
    var ps0 := ps[i := proj];
    var hit := FirstHit(proj, es, 0);
    var es1 := StrikeAt(es, hit);
    var ps1 := if hit.Some? then RemoveAt(ps0, i) else ps0;
    if Intersects(window, BoltBounds(proj)) then Some((ps1, es1))
    else if i < |ps1| then Some((RemoveAt(ps1, i), es1))
    else None
  }

  /** The projectile loop from index `i` on. */
  function ProjectilePass(ps: seq<Bolt>, es: seq<Foe>, i: nat, window: Rect): (r: ShotPass)
    ensures i >= |ps| ==> r == ShotPass(ps, es)
    ensures r.ShotPass? ==> |r.enemies| == |es| && |r.shots| <= |ps|
    decreases |ps| - i
  {
    if i >= |ps| then ShotPass(ps, es)
    else
      match ShotStep(ps, es, i, window)
      case None => ShotCrash
      case Some((ps1, es1)) => ProjectilePass(ps1, es1, i + 1, window)
  }

  /** The last projectile moving onto an enemy and off the window makes the second `remove(index)` throw. */
  lemma HitOffWindowLastThrows(ps: seq<Bolt>, es: seq<Foe>, i: nat, window: Rect)
    requires i + 1 == |ps| && FirstHit(Fly(ps[i]), es, 0).Some? && !Intersects(window, BoltBounds(Fly(ps[i])))
    ensures ProjectilePass(ps, es, i, window) == ShotCrash
  {
  }

  /**
   * A projectile hitting an enemy while off the window takes its successor
   * with it: the loop goes on after the successor, which is never moved or tested.
   */
  lemma HitOffWindowDropsSuccessor(ps: seq<Bolt>, es: seq<Foe>, i: nat, window: Rect)
    requires i + 1 < |ps| && FirstHit(Fly(ps[i]), es, 0).Some? && !Intersects(window, BoltBounds(Fly(ps[i])))
    ensures ProjectilePass(ps, es, i, window) ==
      ProjectilePass(ps[..i] + ps[i + 2..], StrikeAt(es, FirstHit(Fly(ps[i]), es, 0)), i + 1, window)
  {
  }

  /** A projectile that hits nothing and stays in the window is kept, one move further on. */
  lemma MissInWindowFliesOn(ps: seq<Bolt>, es: seq<Foe>, i: nat, window: Rect)
    requires i < |ps| && FirstHit(Fly(ps[i]), es, 0).None? && Intersects(window, BoltBounds(Fly(ps[i])))
    ensures ProjectilePass(ps, es, i, window) == ProjectilePass(ps[i := Fly(ps[i])], es, i + 1, window)
  {
  }

  /** The lists and the player. */
  datatype World = World(enemies: seq<Foe>, shots: seq<Bolt>, player: Hero)

  /** The player `initSprites` creates: full health, centred in the window with integer halves. */
  function Centred(width: int, height: int, img: Image): (h: Hero)
    ensures h.health == FullHealth && h.image == img
    ensures width >= 0 && img.width >= 0 ==> h.x == (width / 2 - img.width / 2) as real
    ensures height >= 0 && img.height >= 0 ==> h.y == (height / 2 - img.height / 2) as real
  {
    Hero((Half(width) - Half(img.width)) as real, (Half(height) - Half(img.height)) as real, img, FullHealth)
  }

  /**
   * The loss check: below zero, "play again" restarts with one fresh enemy,
   * no projectiles and a centred player; otherwise the process exits (`None`).
   */
  function LossCheck(w: World, playAgain: bool, restart: Foe, centred: Hero): (r: Option<World>)
    ensures w.player.health >= 0.0 ==> r == Some(w)
    ensures w.player.health < 0.0 ==> (r.None? <==> !playAgain)
    ensures w.player.health < 0.0 && playAgain ==> r == Some(World([restart], [], centred))
  {
    if w.player.health < 0.0 then
      if playAgain then Some(World([restart], [], centred)) else None
    else Some(w)
  }

  /** What a tick leaves: the new world; or the end of the process; or the exception. */
  datatype TickResult = Ticked(world: World) | TickExited | TickCrashed

  /**
   * The tick after the loss check: spawn attempt, enemy pass, projectile
   * pass. It never ends the process, never moves the player, never adds
   * projectiles, and adds at most the candidates drawn, none unless the
   * draw is below 0.01 times the difficulty with fewer than 40 present.
   */
  function Advance(w: World, difficulty: int, window: Rect, draw: real, cands: seq<Foe>): (t: TickResult)
    ensures !t.TickExited?
    ensures t.Ticked? ==> t.world.player == w.player.(health := t.world.player.health)
    ensures t.Ticked? ==> |t.world.shots| <= |w.shots| && |t.world.enemies| <= |w.enemies| + |cands|
    ensures t.Ticked? && !Spawns(w.enemies, draw, difficulty) ==> |t.world.enemies| <= |w.enemies|
  {
    var p := w.player;
    var es1 := if Spawns(w.enemies, draw, difficulty) then w.enemies + SpawnAppend(cands, 0, p.x, p.y) else w.enemies;
    var (es2, h) := EnemyPass(es1, 0, p.health, p.x, p.y, HeroBounds(p));
    var r := ProjectilePass(w.shots, es2, 0, window);
    if r.ShotCrash? then TickCrashed else Ticked(World(r.enemies, r.shots, p.(health := h)))
  }

  /**
   * One `doLogic` call: it ends the process exactly on a loss the player
   * declines to replay, and without a successful spawn draw (checked against
   * the world after the loss check) it adds no enemy.
   */
  function Tick(w: World, difficulty: int, window: Rect, draw: real, playAgain: bool, restart: Foe,
                centred: Hero, cands: seq<Foe>): (t: TickResult)
    ensures t.TickExited? <==> w.player.health < 0.0 && !playAgain
    ensures t.Ticked? && w.player.health >= 0.0 && !Spawns(w.enemies, draw, difficulty) ==>
      |t.world.enemies| <= |w.enemies|
    ensures t.Ticked? && w.player.health < 0.0 && !Spawns([restart], draw, difficulty) ==> |t.world.enemies| <= 1
  {
    match LossCheck(w, playAgain, restart, centred)
    case None => TickExited
    case Some(w1) => Advance(w1, difficulty, window, draw, cands)
  }

  /** What `new Enemy(difficulty)` creates: full health and the engine's difficulty. */
  predicate Fresh(f: Foe, difficulty: int) {
    f.health == FullHealth && f.difficulty == difficulty
  }

  /** Every enemy in the list was created by this engine: its difficulty, and no more than full health. */
  predicate Spawned(es: seq<Foe>, difficulty: int) {
    forall j :: 0 <= j < |es| ==> es[j].difficulty == difficulty && es[j].health <= FullHealth
  }

  /** The enemy pass only moves and removes enemies, so it keeps them all the engine's own. */
  lemma {:induction false} EnemyPassKeepsSpawned(es: seq<Foe>, i: nat, health: real, px: real, py: real,
                                                 pBounds: Rect, difficulty: int)
    requires Spawned(es, difficulty)
    ensures Spawned(EnemyPass(es, i, health, px, py, pBounds).0, difficulty)
    decreases |es| - i
  {
    if i < |es| {
      var v := Visit(es, i, health, px, py, pBounds);
      assert Spawned(v.0, difficulty);
      EnemyPassKeepsSpawned(v.0, i + 1, v.1, px, py, pBounds, difficulty);
    }
  }

  /** The projectile pass only lowers the health of the enemies it hits. */
  lemma {:induction false} ProjectilePassKeepsSpawned(ps: seq<Bolt>, es: seq<Foe>, i: nat, window: Rect, difficulty: int)
    requires Spawned(es, difficulty)
    ensures var r := ProjectilePass(ps, es, i, window);
      r.ShotPass? ==> Spawned(r.enemies, difficulty)
    decreases |ps| - i
  {
    if i < |ps| {
      match ShotStep(ps, es, i, window)
      case None =>
      case Some((ps1, es1)) =>
        ProjectilePassKeepsSpawned(ps1, es1, i + 1, window, difficulty);
    }
  }

  /**
   * With every new enemy fresh, each tick keeps all enemies at the engine's
   * difficulty and at most full health; and at a difficulty of at least 0,
   * the player's health never rises within a tick (from where it stood, or
   * from the centred player's after a restart).
   */
  lemma TickKeepsSpawned(w: World, difficulty: int, window: Rect, draw: real, playAgain: bool, restart: Foe,
                         centred: Hero, cands: seq<Foe>)
    requires Spawned(w.enemies, difficulty) && Fresh(restart, difficulty)
    requires forall c :: c in cands ==> Fresh(c, difficulty)
    ensures var t := Tick(w, difficulty, window, draw, playAgain, restart, centred, cands);
      t.Ticked? ==> Spawned(t.world.enemies, difficulty)
    ensures var t := Tick(w, difficulty, window, draw, playAgain, restart, centred, cands);
      t.Ticked? && difficulty >= 0 ==>
        t.world.player.health <= (if w.player.health < 0.0 then centred.health else w.player.health)
  {
    match LossCheck(w, playAgain, restart, centred)
    case None =>
    case Some(w1) =>
      var p := w1.player;
      var es1 := if Spawns(w1.enemies, draw, difficulty) then w1.enemies + SpawnAppend(cands, 0, p.x, p.y) else w1.enemies;
      var drawn := SpawnAppend(cands, 0, p.x, p.y);
      assert cands[0..] == cands;
      assert forall j :: 0 <= j < |drawn| ==> drawn[j] in drawn && Fresh(drawn[j], difficulty);
      assert Spawned(es1, difficulty);
      EnemyPassKeepsSpawned(es1, 0, p.health, p.x, p.y, HeroBounds(p), difficulty);
      var (es2, h) := EnemyPass(es1, 0, p.health, p.x, p.y, HeroBounds(p));
      ProjectilePassKeepsSpawned(w1.shots, es2, 0, window, difficulty);
      assert difficulty >= 0 ==> HarmlessOrWorse(es1, 0);
  }

  /**
   * A tick never moves the player and never adds projectiles; a loss without
   * "play again" ends the process; a loss with it starts from the centred
   * player and at most the fresh enemy plus one spawn attempt.
   */
  lemma TickFacts(w: World, difficulty: int, window: Rect, draw: real, playAgain: bool, restart: Foe,
                  centred: Hero, cands: seq<Foe>)
    ensures var t := Tick(w, difficulty, window, draw, playAgain, restart, centred, cands);
      (w.player.health < 0.0 && !playAgain <==> t.TickExited?) &&
      (t.Ticked? && w.player.health >= 0.0 ==>
        t.world.player == w.player.(health := t.world.player.health) && |t.world.shots| <= |w.shots|) &&
      (t.Ticked? && w.player.health < 0.0 ==>
        t.world.player == centred.(health := t.world.player.health) && t.world.shots == [] &&
        |t.world.enemies| <= 1 + |cands|)
  {
  }

  /** The engine: its lists, the player, the fixed difficulty and the loop's control flags. */
  class Engine {
    var enemies: seq<Foe>
    var projectiles: seq<Bolt>
    var p: Sprite
    const difficulty: int
    const control: LoopControl
    /** The window's size and the player's image. */
    const width: int
    const height: int
    const playerImage: Image

    /**
     * `new LogicEngine(difficulty, debug)`, i.e. `initSprites()`; `first` is
     * the fresh `Enemy(difficulty)`.
     */
    constructor (difficulty: int, width: int, height: int, playerImage: Image, first: Foe)
      requires Fresh(first, difficulty)
      ensures Spawned(enemies, difficulty)
      ensures enemies == [first] && projectiles == [] && fresh(p) && fresh(control) && !control.hasThread
      ensures p.State() == Centred(width, height, playerImage)
      ensures this.difficulty == difficulty && this.width == width && this.height == height
      ensures this.playerImage == playerImage
    {
      this.difficulty, this.width, this.height, this.playerImage := difficulty, width, height, playerImage;
      control := new LoopControl();
      p := new Sprite(0.0, 0.0, playerImage);
      new;
      InitSprites(first);
    }

    function State(): World
      reads this, p
    {
      World(enemies, projectiles, p.State())
    }

    function Window(): Rect
      reads this
    {
      Rect(0.0, 0.0, width as real, height as real)
    }

    /** `initSprites()`: a new centred player, the one fresh enemy `first`, no projectiles. */
    method InitSprites(first: Foe)
      requires Fresh(first, difficulty)
      modifies this`p, this`enemies, this`projectiles
      ensures fresh(p) && State() == World([first], [], Centred(width, height, playerImage))
    {
      var player := new Sprite(0.0, 0.0, playerImage);
      player.SetX((Half(width) - Half(playerImage.width)) as real);
      player.SetY((Half(height) - Half(playerImage.height)) as real);
      p := player;
      enemies := [first];
      projectiles := [];
    }

    /** `spawnEnemy(list)` on the enemy list, drawing candidates from `cands[k..]`. */
    method SpawnEnemy(cands: seq<Foe>, k: nat)
      requires forall c :: c in cands ==> Fresh(c, difficulty)
      modifies this`enemies
      ensures enemies == old(enemies) + SpawnAppend(cands, k, p.x, p.y)
      decreases |cands| - k
    {
      if k >= |cands| {
        return;
      }
      var e := cands[k];
      if Abs(e.x - p.x) < SpawnClearance && Abs(e.y - p.y) < SpawnClearance {
        SpawnEnemy(cands, k + 1);
      }
      enemies := enemies + [e];
    }

    /** One turn of the enemy loop: the body of `doLogic`'s enemy `for` loop at `index`. */
    method EnemyIteration(index: nat, pX: real, pY: real, pBounds: Rect)
      requires index < |enemies|
      modifies this`enemies, p`health
      ensures (enemies, p.health) == Visit(old(enemies), index, old(p.health), pX, pY, pBounds)
    {
      var s := enemies[index];
      if s.health < 0.0 {
        enemies := RemoveAt(enemies, index);
      }
      var moved := Chase(s, pX, pY, pBounds);
      if Abs(moved.x - pX) < EnemyReach && Abs(moved.y - pY) < EnemyReach {
        if Intersects(pBounds, FoeBounds(moved)) {
          p.health := p.health - 1.0 * (moved.difficulty as real);
        }
      }
      if s.health >= 0.0 {
        enemies := enemies[index := moved];
      }
    }

    /** The enemy loop of `doLogic`. */
    method EnemyLoop()
      modifies this`enemies, p`health
      ensures (enemies, p.health) == EnemyPass(old(enemies), 0, old(p.health), p.x, p.y, p.Bounds())
    {
      var pBounds := p.Bounds();
      var pX := p.x;
      var pY := p.y;
      ghost var target := EnemyPass(enemies, 0, p.health, pX, pY, pBounds);
      var index := 0;
      while index < |enemies|
        invariant EnemyPass(enemies, index, p.health, pX, pY, pBounds) == target
        invariant p.x == pX && p.y == pY && p.Bounds() == pBounds
        decreases |enemies| - index
      {
        EnemyIteration(index, pX, pY, pBounds);
        index := index + 1;
      }
    }

    /** The inner `for (Sprite en : enemies)` scan: the first enemy the projectile hits. */
    method FindHit(proj: Bolt) returns (hit: Option<nat>)
      ensures hit == FirstHit(proj, enemies, 0)
    {
      var k := 0;
      while k < |enemies|
        invariant k <= |enemies| && FirstHit(proj, enemies, k) == FirstHit(proj, enemies, 0)
      {
        if Abs(proj.x - enemies[k].x) < ShotReach && Abs(proj.y - enemies[k].y) < ShotReach {
          if Intersects(FoeBounds(enemies[k]), BoltBounds(proj)) {
            return Some(k);
          }
        }
        k := k + 1;
      }
      return None;
    }

    /** The body of the projectile loop at `index`; `crashed` is the exception of a second `remove` past the end. */
    method ProjectileIteration(index: nat, window: Rect) returns (crashed: bool)
      requires index < |projectiles|
      modifies this`enemies, this`projectiles
      ensures var step := ShotStep(old(projectiles), old(enemies), index, window);
        crashed == step.None? && (step.Some? ==> step.value == (projectiles, enemies))
    {
      ghost var es0 := enemies;
      var proj := Fly(projectiles[index]);
      projectiles := projectiles[index := proj];
      ghost var ps0 := projectiles;
      var hit := FindHit(proj);
      if hit.Some? {
        var en := enemies[hit.value];
        enemies := enemies[hit.value := en.(health := en.health - ProjectileDamage)];
        projectiles := RemoveAt(projectiles, index);
      }
      ghost var ps1 := projectiles;
      assert enemies == StrikeAt(es0, hit);
      assert ps1 == if hit.Some? then RemoveAt(ps0, index) else ps0;
      var inWindow := Intersects(window, BoltBounds(proj));
      if !inWindow {
        if index >= |projectiles| {
          return true;
        }
        projectiles := RemoveAt(projectiles, index);
      }
      assert projectiles == if inWindow then ps1 else RemoveAt(ps1, index);
      return false;
    }

    /** The projectile loop of `doLogic`. */
    method ProjectileLoop() returns (crashed: bool)
      modifies this`enemies, this`projectiles
      ensures var r := ProjectilePass(old(projectiles), old(enemies), 0, Window());
        crashed == r.ShotCrash? && (r.ShotPass? ==> projectiles == r.shots && enemies == r.enemies)
    {
      var window := Window();
      ghost var target := ProjectilePass(projectiles, enemies, 0, window);
      var index := 0;
      while index < |projectiles|
        invariant ProjectilePass(projectiles, enemies, index, window) == target
        decreases |projectiles| - index
      {
        crashed := ProjectileIteration(index, window);
        if crashed {
          return;
        }
        index := index + 1;
      }
      return false;
    }

    /** The loss check at the head of `doLogic`; `exited` is `System.exit(0)`. */
    method CheckLoss(playAgain: bool, restart: Foe) returns (exited: bool)
      requires control.hasThread && Fresh(restart, difficulty)
      modifies this`p, this`enemies, this`projectiles, p`health, control`isPaused
      ensures var r := LossCheck(old(State()), playAgain, restart, Centred(width, height, playerImage));
        exited == r.None? && (r.Some? ==> State() == r.value)
      ensures old(p.health) >= 0.0 ==> p == old(p) && control.isPaused == old(control.isPaused)
      ensures old(p.health) < 0.0 ==> old(p).health == 0.0 && control.isPaused == exited
      ensures old(p.health) < 0.0 && playAgain ==> fresh(p)
    {
      if p.health < 0.0 {
        p.SetHealth(0.0);
        var _ := control.Pause();
        if playAgain {
          InitSprites(restart);
          var _ := control.Resume();
        } else {
          return true;
        }
      }
      return false;
    }

    /** The rest of `doLogic` once the loss check has passed. */
    method AdvanceLists(draw: real, cands: seq<Foe>) returns (crashed: bool)
      requires forall c :: c in cands ==> Fresh(c, difficulty)
      modifies this`enemies, this`projectiles, p`health
      ensures var t := Advance(old(State()), difficulty, Window(), draw, cands);
        crashed == t.TickCrashed? && (t.Ticked? ==> State() == t.world)
    {
      if draw < BaseDifficulty * (EffectiveDifficulty(difficulty) as real) && |enemies| < MaxEnemies {
        SpawnEnemy(cands, 0);
      }
      EnemyLoop();
      crashed := ProjectileLoop();
    }

    /**
     * `doLogic()`, run by the logic thread. `restart` is the fresh enemy a
     * restart creates, `cands` the positions `spawnEnemy` draws.
     */
    method DoLogic(draw: real, playAgain: bool, restart: Foe, cands: seq<Foe>) returns (exited: bool, crashed: bool)
      requires control.hasThread && Spawned(enemies, difficulty)
      requires Fresh(restart, difficulty) && forall c :: c in cands ==> Fresh(c, difficulty)
      modifies this`p, this`enemies, this`projectiles, p`health, control`isPaused
      ensures var t := Tick(old(State()), difficulty, Window(), draw, playAgain, restart,
                            Centred(width, height, playerImage), cands);
        exited == t.TickExited? && crashed == t.TickCrashed? && (t.Ticked? ==> State() == t.world)
      ensures old(p.health) >= 0.0 ==> p == old(p) && control.isPaused == old(control.isPaused)
      ensures old(p.health) < 0.0 ==> old(p).health == 0.0 && control.isPaused == exited
      ensures !exited && !crashed ==> Spawned(enemies, difficulty)
      ensures !exited && !crashed && difficulty >= 0 ==>
        p.health <= if old(p.health) < 0.0 then FullHealth else old(p.health)
    {
      TickKeepsSpawned(State(), difficulty, Window(), draw, playAgain, restart, Centred(width, height, playerImage), cands);
      exited := CheckLoss(playAgain, restart);
      if exited {
        return true, false;
      }
      crashed := AdvanceLists(draw, cands);
    }
  }
}
