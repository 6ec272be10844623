/** The four compass headings, their turns, displacements and printed names. */
module Headings {
  datatype Direction = North | East | South | West

  /** A quarter turn clockwise: North, East, South, West, North. */
  function TurnRight(d: Direction): Direction {
    match d
    case North => East
    case East => South
    case South => West
    case West => North
  }

  /** A quarter turn counter-clockwise: North, West, South, East, North. It is undone by TurnRight. */
  function TurnLeft(d: Direction): (r: Direction)
    ensures TurnRight(r) == d
    ensures r != d && r != TurnRight(d)
  {
    match d
    case North => West
    case West => South
    case South => East
    case East => North
  }

  /** TurnLeft undoes TurnRight as well, so the two are mutual inverses. */
  lemma LeftUndoesRight(d: Direction)
    ensures TurnLeft(TurnRight(d)) == d
  {
  }

  /** Four quarter turns the same way bring every heading back. */
  lemma FourTurnsRestore(d: Direction)
    ensures TurnLeft(TurnLeft(TurnLeft(TurnLeft(d)))) == d
    ensures TurnRight(TurnRight(TurnRight(TurnRight(d)))) == d
  {
  }

  /** The unit step taken by a move: North (0, 1), East (1, 0), South (0, -1), West (-1, 0). */
  function Delta(d: Direction): (r: (int, int))
    ensures -1 <= r.0 <= 1 && -1 <= r.1 <= 1
    ensures (r.0 == 0) != (r.1 == 0)
  {
    match d
    case North => (0, 1)
    case East => (1, 0)
    case South => (0, -1)
    case West => (-1, 0)
  }

  /** A right turn rotates the step vector by 90 degrees clockwise, (dx, dy) to (dy, -dx). */
  lemma TurnRightRotatesClockwise(d: Direction)
    ensures Delta(TurnRight(d)) == (Delta(d).1, -Delta(d).0)
  {
  }

  /** A left turn rotates the step vector by 90 degrees counter-clockwise, (dx, dy) to (-dy, dx). */
  lemma TurnLeftRotatesCounterClockwise(d: Direction)
    ensures Delta(TurnLeft(d)) == (-Delta(d).1, Delta(d).0)
  {
  }

  /** The heading's capitalised English name, as the enum prints. */
  function Name(d: Direction): (r: string)
    ensures 4 <= |r| <= 5
    ensures forall i :: 0 <= i < |r| ==> r[i] != ','
  {
    match d
    case North => "North"
    case East => "East"
    case South => "South"
    case West => "West"
  }

  /** Different headings print differently. */
  lemma NameInjective(a: Direction, b: Direction)
    requires Name(a) == Name(b)
    ensures a == b
  {
  }
}
