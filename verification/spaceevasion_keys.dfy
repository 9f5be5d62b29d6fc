/**
 * `com.albertzhang.spaceevasion.KeyHandling`: the four held-key flags, the
 * key events (SPACE fires, ESC asks whether to quit), the classification of
 * the player's rectangle against four edge strips, and the decision table
 * that turns held keys and the region into one move of the player.
 *
 * The move itself is carried out by `Player`, which is not part of this
 * model: `CheckKeys` returns the command. The player's facing, which SPACE
 * reads, is a parameter for the same reason.
 */
module SpaceEvasionKeys {
  import opened JavaInt
  import opened Geometry
  import Compass
  import opened Lifecycle
  import opened TinySound
  import opened SpaceEvasionSprites
  import opened SpaceEvasionEngine

  /** `dX_DIRECTIONAL` and `dX_DIAGONAL`. */
  const Straight: int := 5
  const Diagonal: int := 3

  /** The keys the handler distinguishes. */
  datatype Key = KeyW | KeyA | KeyS | KeyD | Space | Escape | OtherKey

  /** The private `Bounds` enum: which edge strips the player touches. */
  datatype Region = North | South | East | West | NorthEast | NorthWest | SouthEast | SouthWest | Interior

  /** One call of a `Player` move method, or none. */
  datatype Command = Stay | Move(dir: Compass.Direction, amount: int)

  /** The four strips around a `width` by `height` window, for a player `playerHeight` tall. */
  function TopStrip(width: int): Rect { Rect(-10.0, -10.0, (width + 20) as real, 10.0) }
  function BottomStrip(width: int, height: int, playerHeight: int): Rect {
    Rect(-10.0, (height - Half(playerHeight)) as real, (width + 20) as real, 10.0)
  }
  function LeftStrip(height: int): Rect { Rect(-10.0, -10.0, 10.0, (height + 20) as real) }
  function RightStrip(width: int, height: int): Rect { Rect((width - 10) as real, -10.0, 10.0, (height + 10) as real) }

  /**
   * `checkBounds()`: top is tested before bottom and left before right, so a
   * rectangle touching both the top and the bottom strip counts as north,
   * and one touching both side strips as west: each vertical and each
   * horizontal component is determined exactly by the strips.
   */
  function Classify(pb: Rect, width: int, height: int, playerHeight: int): (r: Region)
    ensures r == Interior <==>
      !Intersects(pb, TopStrip(width)) && !Intersects(pb, BottomStrip(width, height, playerHeight)) &&
      !Intersects(pb, LeftStrip(height)) && !Intersects(pb, RightStrip(width, height))
    ensures TouchesTop(r) <==> Intersects(pb, TopStrip(width))
    ensures TouchesLeft(r) <==> Intersects(pb, LeftStrip(height))
    ensures TouchesRight(r) <==> Intersects(pb, RightStrip(width, height)) && !Intersects(pb, LeftStrip(height))
    ensures TouchesBottom(r) <==>
      Intersects(pb, BottomStrip(width, height, playerHeight)) && !Intersects(pb, TopStrip(width))
  {
    var top := TopStrip(width);
    var bottom := BottomStrip(width, height, playerHeight);
    var left := LeftStrip(height);
    var right := RightStrip(width, height);
    if Intersects(pb, top) then
      if Intersects(pb, left) then NorthWest
      else if Intersects(pb, right) then NorthEast
      else North
    else if Intersects(pb, bottom) then
      if Intersects(pb, left) then SouthWest
      else if Intersects(pb, right) then SouthEast
      else South
    else if Intersects(pb, left) then West
    else if Intersects(pb, right) then East
    else Interior
  }

  predicate TouchesTop(r: Region) { r == North || r == NorthEast || r == NorthWest }
  predicate TouchesBottom(r: Region) { r == South || r == SouthEast || r == SouthWest }
  predicate TouchesLeft(r: Region) { r == West || r == NorthWest || r == SouthWest }
  predicate TouchesRight(r: Region) { r == East || r == NorthEast || r == SouthEast }

  /**
   * `checkKeys()`: the move for the held keys in the given region. Every
   * component of a move comes from a held key (south only without W), no
   * key means no move, and a move is 3 per axis diagonally, 5 otherwise.
   */
  function Decide(w: bool, a: bool, s: bool, d: bool, r: Region): (c: Command)
    ensures !(w || a || s || d) ==> c == Stay
    ensures (HasNorth(c) ==> w) && (HasSouth(c) ==> s && !w) && (HasWest(c) ==> a) && (HasEast(c) ==> d)
    ensures c.Move? ==> (c.amount == Straight || c.amount == Diagonal)
    ensures c.Move? ==> (c.amount == Diagonal <==> (HasNorth(c) || HasSouth(c)) && (HasWest(c) || HasEast(c)))
  {
    if w then
      if a then
        if r == North then Move(Compass.WEST, Straight)
        else if r == West then Move(Compass.NORTH, Straight)
        else if r != NorthWest then Move(Compass.NW, Diagonal)
        else Stay
      else if d then
        if r == North then Move(Compass.EAST, Straight)
        else if r == East then Move(Compass.NORTH, Straight)
        else if r != NorthEast then Move(Compass.NE, Diagonal)
        else Stay
      else if !TouchesTop(r) then Move(Compass.NORTH, Straight)
      else Stay
    else if s then
      if a then
        if r == South then Move(Compass.WEST, Straight)
        else if r == West then Move(Compass.SOUTH, Straight)
        else if r != SouthWest then Move(Compass.SW, Diagonal)
        else Stay
      else if d then
        if r == South then Move(Compass.EAST, Straight)
        else if r == East then Move(Compass.SOUTH, Straight)
        else if r != SouthEast then Move(Compass.SE, Diagonal)
        else Stay
      else if !TouchesBottom(r) then Move(Compass.SOUTH, Straight)
      else Stay
    else if a && !TouchesLeft(r) then Move(Compass.WEST, Straight)
    else if d && !TouchesRight(r) then Move(Compass.EAST, Straight)
    else Stay
  }

  /** The direction the held keys point at, with W over S and A over D: a reference for the interior. */
  function Intended(w: bool, a: bool, s: bool, d: bool): Command {
    var up := w;
    var down := !w && s;
    var left := a;
    var right := !a && d;
    if up && left then Move(Compass.NW, Diagonal)
    else if up && right then Move(Compass.NE, Diagonal)
    else if down && left then Move(Compass.SW, Diagonal)
    else if down && right then Move(Compass.SE, Diagonal)
    else if up then Move(Compass.NORTH, Straight)
    else if down then Move(Compass.SOUTH, Straight)
    else if left then Move(Compass.WEST, Straight)
    else if right then Move(Compass.EAST, Straight)
    else Stay
  }

  /** Away from every edge the table is the plain reading of the keys: 5 along an axis, 3 on each axis diagonally. */
  lemma InteriorFollowsKeys(w: bool, a: bool, s: bool, d: bool)
    ensures Decide(w, a, s, d, Interior) == Intended(w, a, s, d)
  {
  }

  /** Holding W makes S irrelevant, and with W or S held, A makes D irrelevant. */
  lemma KeyPrecedence(w: bool, a: bool, s: bool, d: bool, r: Region)
    ensures w ==> Decide(w, a, s, d, r) == Decide(w, a, false, d, r)
    ensures (w || s) && a ==> Decide(w, a, s, d, r) == Decide(w, a, s, false, r)
  {
  }

  predicate HasNorth(c: Command) { c.Move? && (c.dir == Compass.NORTH || c.dir == Compass.NE || c.dir == Compass.NW) }
  predicate HasSouth(c: Command) { c.Move? && (c.dir == Compass.SOUTH || c.dir == Compass.SE || c.dir == Compass.SW) }
  predicate HasWest(c: Command) { c.Move? && (c.dir == Compass.WEST || c.dir == Compass.NW || c.dir == Compass.SW) }
  predicate HasEast(c: Command) { c.Move? && (c.dir == Compass.EAST || c.dir == Compass.NE || c.dir == Compass.SE) }

  /**
   * On a side (not a corner) the player is never moved toward that side; in
   * a corner it is never moved straight toward either of its edges, nor
   * diagonally into the corner.
   */
  lemma EdgesHold(w: bool, a: bool, s: bool, d: bool, r: Region)
    ensures var c := Decide(w, a, s, d, r);
      (r == North ==> !HasNorth(c)) && (r == South ==> !HasSouth(c)) &&
      (r == West ==> !HasWest(c)) && (r == East ==> !HasEast(c)) &&
      (r == NorthWest ==> c != Move(Compass.NORTH, Straight) && c != Move(Compass.WEST, Straight) && c != Move(Compass.NW, Diagonal)) &&
      (r == NorthEast ==> c != Move(Compass.NORTH, Straight) && c != Move(Compass.EAST, Straight) && c != Move(Compass.NE, Diagonal)) &&
      (r == SouthWest ==> c != Move(Compass.SOUTH, Straight) && c != Move(Compass.WEST, Straight) && c != Move(Compass.SW, Diagonal)) &&
      (r == SouthEast ==> c != Move(Compass.SOUTH, Straight) && c != Move(Compass.EAST, Straight) && c != Move(Compass.SE, Diagonal))
  {
  }

  /**
   * The corners leak through the diagonal of the other key pair: in the
   * north-west corner W+D moves north-east (into the top edge) and S+A moves
   * south-west (into the left edge).
   */
  lemma CornerDiagonalsLeak()
    ensures Decide(true, false, false, true, NorthWest) == Move(Compass.NE, Diagonal)
    ensures HasNorth(Decide(true, false, false, true, NorthWest))
    ensures Decide(false, true, true, false, NorthWest) == Move(Compass.SW, Diagonal)
    ensures HasWest(Decide(false, true, true, false, NorthWest))
  {
  }

  /** The key handler: its held-key flags, its own loop's control, the logic engine and the mixer. */
  class KeyHandler {
    var wPressed: bool
    var aPressed: bool
    var sPressed: bool
    var dPressed: bool
    const control: LoopControl
    const engine: Engine
    const audio: Audio
    /** The image of the projectiles SPACE fires. */
    const shotImage: Image

    constructor (engine: Engine, audio: Audio, shotImage: Image)
      ensures !wPressed && !aPressed && !sPressed && !dPressed
      ensures this.engine == engine && this.audio == audio && this.shotImage == shotImage
      ensures fresh(control) && !control.hasThread
    {
      this.engine, this.audio, this.shotImage := engine, audio, shotImage;
      control := new LoopControl();
      wPressed, aPressed, sPressed, dPressed := false, false, false, false;
    }

    function Held(): (bool, bool, bool, bool)
      reads this
    {
      (wPressed, aPressed, sPressed, dPressed)
    }

    /** `keyPressed(e)`: W, A, S or D raise their own flag; every other key changes nothing. */
    method KeyPressed(k: Key)
      modifies this`wPressed, this`aPressed, this`sPressed, this`dPressed
      ensures Held() == Pressed(old(Held()), k)
    {
      match k {
        case KeyW => wPressed := true;
        case KeyA => aPressed := true;
        case KeyS => sPressed := true;
        case KeyD => dPressed := true;
        case _ =>
      }
    }

    /**
     * `keyReleased(e)`. W, A, S and D lower their own flag. SPACE appends one
     * projectile centred on the player, heading the way it faces. ESC lowers
     * all four flags, pauses the logic engine, mutes the mixer and asks
     * whether to quit: yes ends the process (`Exit(0)`); no resumes the
     * engine and restores the volume. A pause before the engine's thread
     * exists throws (`IllegalState`) after the flags are cleared.
     */
    method KeyReleased(k: Key, facing: Compass.Direction, quit: bool) returns (r: Outcome)
      modifies this`wPressed, this`aPressed, this`sPressed, this`dPressed
      modifies engine`projectiles, engine.control`isPaused, audio`volume
      ensures Held() == Released(old(Held()), k)
      ensures k == Space ==>
        engine.projectiles == old(engine.projectiles) + [Fired(engine.p.State(), shotImage, facing)]
      ensures k != Space ==> engine.projectiles == old(engine.projectiles)
      ensures k != Escape ==> r == Done && unchanged(engine.control) && audio.volume == old(audio.volume)
      ensures k == Escape && !old(engine.control.hasThread) ==> r == IllegalState && audio.volume == old(audio.volume)
      ensures k == Escape && old(engine.control.hasThread) ==>
        (r == (if quit then Exit(0) else Done)) &&
        engine.control.isPaused == quit &&
        (audio.inited ==> audio.GlobalVolume() == (if quit then 0.0 else old(audio.GlobalVolume())))
    {
      r := Done;
      match k {
        case KeyW => wPressed := false;
        case KeyA => aPressed := false;
        case KeyS => sPressed := false;
        case KeyD => dPressed := false;
        case Space =>
          var shot := Fired(engine.p.State(), shotImage, facing);
          engine.projectiles := engine.projectiles + [shot];
        case Escape =>
          wPressed, aPressed, sPressed, dPressed := false, false, false, false;
          var paused := engine.control.Pause();
          if paused == IllegalState {
            return IllegalState;
          }
          var priorVol := audio.GlobalVolume();
          audio.SetGlobalVolume(0.0);
          if quit {
            return Exit(0);
          }
          var _ := engine.control.Resume();
          audio.SetGlobalVolume(priorVol);
        case OtherKey =>
      }
    }

    /** `checkKeys()`: the move for the held keys and the player's region. */
    method CheckKeys() returns (c: Command)
      ensures c == Decide(wPressed, aPressed, sPressed, dPressed,
                          Classify(engine.p.Bounds(), engine.width, engine.height, engine.p.image.height))
    {
      var region := Classify(engine.p.Bounds(), engine.width, engine.height, engine.p.image.height);
      c := Decide(wPressed, aPressed, sPressed, dPressed, region);
    }
  }

  /** The flags after pressing `k`. */
  function Pressed(held: (bool, bool, bool, bool), k: Key): (bool, bool, bool, bool) {
    match k
    case KeyW => (true, held.1, held.2, held.3)
    case KeyA => (held.0, true, held.2, held.3)
    case KeyS => (held.0, held.1, true, held.3)
    case KeyD => (held.0, held.1, held.2, true)
    case _ => held
  }

  /** The flags after releasing `k`: ESC lowers all four. */
  function Released(held: (bool, bool, bool, bool), k: Key): (bool, bool, bool, bool) {
    match k
    case KeyW => (false, held.1, held.2, held.3)
    case KeyA => (held.0, false, held.2, held.3)
    case KeyS => (held.0, held.1, false, held.3)
    case KeyD => (held.0, held.1, held.2, false)
    case Escape => (false, false, false, false)
    case _ => held
  }

  /**
   * Flag by flag: a flag is up after a press exactly when it was up or its
   * own key was pressed, and up after a release exactly when it was up and
   * neither its own key nor ESC was released.
   */
  lemma KeyEventsTouchOnlyTheirFlag(held: (bool, bool, bool, bool), k: Key)
    ensures Pressed(held, k) == (held.0 || k == KeyW, held.1 || k == KeyA, held.2 || k == KeyS, held.3 || k == KeyD)
    ensures Released(held, k) ==
      (held.0 && k != KeyW && k != Escape, held.1 && k != KeyA && k != Escape,
       held.2 && k != KeyS && k != Escape, held.3 && k != KeyD && k != Escape)
  {
  }

  /**
   * The projectile SPACE fires: its top-left corner 16 up and left of the
   * player's centre (integer halves of the image), heading `dirToRad(facing)`,
   * kept as the count of quarter turns of pi/4.
   */
  function Fired(player: Body, img: Image, facing: Compass.Direction): (s: Shot)
    ensures s.image == img && s.heading == Compass.QuarterTurns(facing)
    ensures player.image.width >= 0 ==> s.x == player.x + (player.image.width / 2 - 16) as real
    ensures player.image.height >= 0 ==> s.y == player.y + (player.image.height / 2 - 16) as real
  {
    Shot(player.x + (Half(player.image.width) - 16) as real, player.y + (Half(player.image.height) - 16) as real,
         img, Compass.QuarterTurns(facing))
  }
}
