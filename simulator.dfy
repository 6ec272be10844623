/**
 * The service that owns a robot record by reference and changes its fields in place.
 * Each method is proved to leave the record in the state the matching function of
 * module Machine computes from the record's previous state.
 */
module Simulator {
  import opened Grid
  import opened Headings
  import Machine
  import Formatting

  /** The robot record: position, heading and whether it has been placed yet. */
  class Robot {
    var x: int
    var y: int
    var direction: Direction
    var isPlaced: bool

    /** A new robot is not placed; its other fields hold their default values. */
    constructor ()
      ensures x == 0 && y == 0 && direction == North && !isPlaced
    {
      x := 0;
      y := 0;
      direction := North;
      isPlaced := false;
    }
  }

  class RobotSimulatorService {
    const robot: Robot

    constructor (robot: Robot)
      ensures this.robot == robot
      ensures unchanged(robot)
    {
      this.robot := robot;
    }

    /** The robot's four fields as a value. */
    function Snapshot(): Machine.RobotState
      reads this, robot
    {
      Machine.RobotState(robot.x, robot.y, robot.direction, robot.isPlaced)
    }

    /** The object invariant: a placed robot is on the table. */
    predicate Valid()
      reads this, robot
    {
      Machine.OnGrid(Snapshot())
    }

    /** Accept an on-table placement (from any state) and reject any other. */
    method Place(x: int, y: int, direction: Direction) returns (ok: bool)
      modifies robot
      ensures ok == IsValidPosition(x, y)
      ensures Snapshot() == Machine.Place(old(Snapshot()), x, y, direction)
      ensures ok ==> Valid() && robot.isPlaced
      ensures old(Valid()) ==> Valid()
    {
      if !IsValidPosition(x, y) {
        return false;
      }
      robot.x := x;
      robot.y := y;
      robot.direction := direction;
      robot.isPlaced := true;
      return true;
    }

    /** Step one cell along the heading when placed and the target cell is on the table. */
    method Move()
      modifies robot
      ensures Snapshot() == Machine.Move(old(Snapshot()))
      ensures old(Valid()) ==> Valid()
    {
      if !robot.isPlaced {
        return;
      }
      var (xChange, yChange) := Delta(robot.direction);
      var newX := robot.x + xChange;
      var newY := robot.y + yChange;
      if !IsValidPosition(newX, newY) {
        return;
      }
      robot.x := newX;
      robot.y := newY;
    }

    /** Turn a placed robot a quarter turn counter-clockwise. */
    method Left()
      modifies robot
      ensures Snapshot() == Machine.Left(old(Snapshot()))
      ensures old(Valid()) ==> Valid()
    {
      if !robot.isPlaced {
        return;
      }
      robot.direction := TurnLeft(robot.direction);
    }

    /** Turn a placed robot a quarter turn clockwise. */
    method Right()
      modifies robot
      ensures Snapshot() == Machine.Right(old(Snapshot()))
      ensures old(Valid()) ==> Valid()
    {
      if !robot.isPlaced {
        return;
      }
      robot.direction := TurnRight(robot.direction);
    }

    /** The robot's position and heading as text; reading it changes nothing. */
    function Report(): (r: string)
      reads this, robot
      ensures r == Machine.Report(Snapshot())
      ensures r == Machine.NotPlacedMessage <==> !robot.isPlaced
      ensures Valid() && robot.isPlaced ==>
        r == [Formatting.DigitChar(robot.x), ',', Formatting.DigitChar(robot.y), ','] + Name(robot.direction)
    {
      Machine.ReportDistinguishesPlacement(Snapshot());
      Machine.Report(Snapshot())
    }
  }
}
