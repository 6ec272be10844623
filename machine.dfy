/**
 * The robot's state and the service's five operations as functions of that state.
 * The imperative service in module Simulator is proved to follow these functions;
 * the lemmas below state what the operations promise.
 */
module Machine {
  import opened Grid
  import opened Headings
  import opened Formatting

  /** The four fields of the robot record: position, heading and the placed flag. */
  datatype RobotState = RobotState(x: int, y: int, direction: Direction, placed: bool)

  /** A freshly created robot: not placed, every other field at its default. */
  const Initial: RobotState := RobotState(0, 0, North, false)

  const NotPlacedMessage: string := "Not placed yet"

  /** The invariant: a placed robot stands on the table. Nothing is asked of an unplaced one. */
  predicate OnGrid(s: RobotState) {
    s.placed ==> IsValidPosition(s.x, s.y)
  }

  /** Place the robot at (x, y) facing d, or ignore the request when (x, y) is off the table. */
  function Place(s: RobotState, x: int, y: int, d: Direction): RobotState {
    if !IsValidPosition(x, y) then s else RobotState(x, y, d, true)
  }

  /** One step along the heading, unless the robot is unplaced or the step would leave the table. */
  function Move(s: RobotState): RobotState {
    if !s.placed then s
    else
      var (xChange, yChange) := Delta(s.direction);
      var newX := s.x + xChange;
      var newY := s.y + yChange;
      if !IsValidPosition(newX, newY) then s else s.(x := newX, y := newY)
  }

  /** A quarter turn counter-clockwise of a placed robot. */
  function Left(s: RobotState): RobotState {
    if !s.placed then s else s.(direction := TurnLeft(s.direction))
  }

  /** A quarter turn clockwise of a placed robot. */
  function Right(s: RobotState): RobotState {
    if !s.placed then s else s.(direction := TurnRight(s.direction))
  }

  /** "X,Y,Heading" for a placed robot, the fixed message otherwise. */
  function Report(s: RobotState): string {
    if !s.placed then NotPlacedMessage
    else IntToString(s.x) + "," + IntToString(s.y) + "," + Name(s.direction)
  }

  // ---------------------------------------------------------------- Place

  /** An on-table placement is accepted whatever the earlier state, and sets all four fields. */
  lemma PlaceOnTable(s: RobotState, x: int, y: int, d: Direction)
    requires IsValidPosition(x, y)
    ensures var t := Place(s, x, y, d); t.x == x && t.y == y && t.direction == d && t.placed
    ensures OnGrid(Place(s, x, y, d))
  {
  }

  /** An off-table placement changes nothing, an earlier placement included. */
  lemma PlaceOffTable(s: RobotState, x: int, y: int, d: Direction)
    requires !IsValidPosition(x, y)
    ensures Place(s, x, y, d) == s
  {
  }

  /** Placing on the table and then reporting prints the requested cell and heading. */
  lemma PlaceThenReport(s: RobotState, x: int, y: int, d: Direction)
    requires IsValidPosition(x, y)
    ensures Report(Place(s, x, y, d)) == [DigitChar(x), ',', DigitChar(y), ','] + Name(d)
  {
  }

  // ---------------------------------------------------------------- Invariant

  /** Place keeps a placed robot on the table, whether it accepts the request or not. */
  lemma PlacePreservesOnGrid(s: RobotState, x: int, y: int, d: Direction)
    requires OnGrid(s)
    ensures OnGrid(Place(s, x, y, d))
  {
  }

  /** Move never takes a placed robot off the table. */
  lemma MovePreservesOnGrid(s: RobotState)
    requires OnGrid(s)
    ensures OnGrid(Move(s))
  {
  }

  /** Turns keep a placed robot on the table. */
  lemma TurnsPreserveOnGrid(s: RobotState)
    requires OnGrid(s)
    ensures OnGrid(Left(s)) && OnGrid(Right(s))
  {
  }

  /** The initial robot satisfies the invariant. */
  lemma InitialOnGrid()
    ensures OnGrid(Initial) && !Initial.placed
  {
  }

  // ---------------------------------------------------------------- Unplaced robot

  /** Until the first accepted placement, moves and turns are ignored. */
  lemma UnplacedIgnoresMotion(s: RobotState)
    requires !s.placed
    ensures Move(s) == s && Left(s) == s && Right(s) == s
    ensures Report(s) == NotPlacedMessage
  {
  }

  // ---------------------------------------------------------------- Move

  /**
   * A move changes the state exactly when the robot is placed and the next cell along its
   * heading is on the table; then it adds the heading's unit step and changes nothing else.
   */
  lemma MoveSteps(s: RobotState)
    ensures Move(s) != s <==> s.placed && IsValidPosition(s.x + Delta(s.direction).0, s.y + Delta(s.direction).1)
    ensures Move(s) != s ==> Move(s) == RobotState(s.x + Delta(s.direction).0, s.y + Delta(s.direction).1, s.direction, true)
    ensures Move(s).direction == s.direction && Move(s).placed == s.placed
  {
  }

  /** The robot faces the edge of the table it stands on. */
  predicate FacesEdge(s: RobotState) {
    match s.direction
    case North => s.y == GridSize - 1
    case East => s.x == GridSize - 1
    case South => s.y == 0
    case West => s.x == 0
  }

  /** A placed robot on the table is held back exactly when it faces the edge it stands on. */
  lemma MoveBlockedExactlyAtEdge(s: RobotState)
    requires s.placed && OnGrid(s)
    ensures Move(s) == s <==> FacesEdge(s)
  {
  }

  /** At (0, 4) facing North the robot stays put. */
  lemma MoveOffNorthEdge()
    ensures Move(RobotState(0, 4, North, true)) == RobotState(0, 4, North, true)
  {
  }

  // ---------------------------------------------------------------- Left and Right

  /** A turn changes only the heading, and only of a placed robot. */
  lemma TurnsChangeOnlyHeading(s: RobotState)
    ensures Left(s).(direction := s.direction) == s
    ensures Right(s).(direction := s.direction) == s
    ensures s.placed ==> Left(s) != s && Right(s) != s
  {
  }

  /** Left and Right undo each other. */
  lemma LeftRightInverse(s: RobotState)
    ensures Right(Left(s)) == s
    ensures Left(Right(s)) == s
  {
  }

  /** Four turns the same way restore the state. */
  lemma FourTurnsRestoreState(s: RobotState)
    ensures Left(Left(Left(Left(s)))) == s
    ensures Right(Right(Right(Right(s)))) == s
  {
  }

  // ---------------------------------------------------------------- Report

  /** On the table every coordinate is one digit, so the report is "d,d,Heading". */
  lemma ReportOnTable(s: RobotState)
    requires s.placed && OnGrid(s)
    ensures Report(s) == [DigitChar(s.x), ',', DigitChar(s.y), ','] + Name(s.direction)
  {
  }

  /** The report says "Not placed yet" exactly when the robot is not placed. */
  lemma ReportDistinguishesPlacement(s: RobotState)
    ensures Report(s) == NotPlacedMessage <==> !s.placed
  {
    if s.placed {
      var r := Report(s);
      var k := |IntToString(s.x)|;
      assert r[k] == ',';
      assert forall i :: 0 <= i < |NotPlacedMessage| ==> NotPlacedMessage[i] != ',';
    }
  }

  /** Two placed robots on the table with equal reports are in the same state. */
  lemma ReportInjective(s: RobotState, t: RobotState)
    requires s.placed && OnGrid(s) && t.placed && OnGrid(t)
    requires Report(s) == Report(t)
    ensures s == t
  {
    ReportOnTable(s);
    ReportOnTable(t);
    var r := Report(s);
    assert DigitChar(s.x) == r[0] == DigitChar(t.x);
    assert DigitChar(s.y) == r[2] == DigitChar(t.y);
    assert Name(s.direction) == r[4..] == Name(t.direction);
    NameInjective(s.direction, t.direction);
  }
}
