/**
 * The player's eight facing directions (`Player.Direction`) and `dirToRad`,
 * which maps each to an angle in radians. Every angle it returns is a multiple
 * of pi/4, so the model records the angle as that multiple: `k` stands for k*pi/4.
 */
module Compass {

  datatype Direction = NORTH | SOUTH | EAST | WEST | NE | NW | SE | SW

  /** The enum's `value`, used to index the player's eight images. */
  function Value(d: Direction): (v: nat)
    ensures v < 8
  {
    match d
    case NORTH => 0
    case SOUTH => 1
    case EAST => 2
    case WEST => 3
    case NE => 4
    case NW => 5
    case SE => 6
    case SW => 7
  }

  function FromValue(v: nat): Direction
    requires v < 8
  {
    [NORTH, SOUTH, EAST, WEST, NE, NW, SE, SW][v]
  }

  /** `getImage` indexes a distinct image slot for each direction. */
  lemma ValueIsBijection(d: Direction, v: nat)
    requires v < 8
    ensures FromValue(Value(d)) == d
    ensures Value(FromValue(v)) == v
  {
  }

  /** `dirToRad(d)` equals QuarterTurns(d) * pi/4. */
  function QuarterTurns(d: Direction): (k: nat)
    ensures k < 8
  {
    match d
    case NORTH => 2
    case SOUTH => 6
    case EAST => 0
    case WEST => 4
    case NE => 1
    case NW => 3
    case SE => 7
    case SW => 5
  }

  function Opposite(d: Direction): Direction {
    match d
    case NORTH => SOUTH
    case SOUTH => NORTH
    case EAST => WEST
    case WEST => EAST
    case NE => SW
    case SW => NE
    case NW => SE
    case SE => NW
  }

  /**
   * The eight angles are distinct multiples of pi/4 covering a full turn, and
   * opposite directions are half a turn (pi) apart.
   */
  lemma QuarterTurnsDistinctAndOpposed(d: Direction, e: Direction)
    ensures QuarterTurns(d) == QuarterTurns(e) <==> d == e
    ensures (QuarterTurns(d) + 4) % 8 == QuarterTurns(Opposite(d))
    ensures Opposite(Opposite(d)) == d
  {
  }

  /** The unit step of the player's move in direction `d` (screen y grows downward). */
  function Step(d: Direction): (int, int) {
    match d
    case NORTH => (0, -1)
    case SOUTH => (0, 1)
    case EAST => (1, 0)
    case WEST => (-1, 0)
    case NE => (1, -1)
    case NW => (-1, -1)
    case SE => (1, 1)
    case SW => (-1, 1)
  }

  /** Sign of cos(k*pi/4). */
  function CosSign(k: nat): int requires k < 8 { [1, 1, 0, -1, -1, -1, 0, 1][k] }

  /** Sign of sin(k*pi/4). */
  function SinSign(k: nat): int requires k < 8 { [0, 1, 1, 1, 0, -1, -1, -1][k] }

  /**
   * The angle `dirToRad` assigns to a direction points the way the player's
   * move in that direction goes, with the y axis flipped for the screen.
   */
  lemma StepFollowsAngle(d: Direction)
    ensures Step(d) == (CosSign(QuarterTurns(d)), -SinSign(QuarterTurns(d)))
    ensures Step(Opposite(d)) == (-Step(d).0, -Step(d).1)
  {
  }
}
