# Robot simulator: the placement and movement state machine

A robot sits on a 5x5 table. The origin (0, 0) is one corner, x grows east and y grows north. A
`RobotSimulatorService` holds one `Robot` record by reference and changes its four fields in place:
`X`, `Y`, `Direction` and `IsPlaced`. It has five operations:

- `Place(x, y, direction)` puts the robot on the table and returns `true`. It returns `false` and ignores
  the request when the cell is off the table.
- `Move` steps one cell along the heading. It does nothing when the robot is unplaced or when the step
  would leave the table.
- `Left` and `Right` turn a placed robot a quarter turn.
- `Report` prints `"X,Y,Heading"`, or `"Not placed yet"` while the robot is unplaced.

`Place` and `Move` consult the bounds predicate `IsValidPosition`; `Left`, `Right` and `Report` only
read the robot's fields. Off-table requests are silently absorbed: nothing in the core throws or
fails. The invariant is that a placed robot is always on the table.

Layout, one module per file:

- `grid.dfy` (`Grid`): the table size and `IsValidPosition`.
- `headings.dfy` (`Headings`): the `Direction` enum as a datatype. It holds the two turn tables, the
  unit step of each heading and the printed names. Turns are related to rotations of the step vector.
- `formatting.dfy` (`Formatting`): decimal rendering of an `int`, as string interpolation prints one.
  A round-trip lemma shows that the rendering loses nothing.
- `machine.dfy` (`Machine`): the robot's fields as a value `RobotState`. The five operations are
  functions of it, and the lemmas state what the service promises.
- `simulator.dfy` (`Simulator`): the classes `Robot` and `RobotSimulatorService`. Each service method
  assigns the robot's fields behind the same early-return guards as the C# code. Each is proved to
  leave the record in the state the matching `Machine` function computes, and to keep the invariant
  `Valid()`. `Report` reads the fields and changes nothing. It is a function, so two calls in a row
  give equal strings.
- `interpreter.dfy` (`Interpreter`): the command loop of `Program.cs` over commands that are already
  parsed. It dispatches each command to the service and stops at the first `Exit`. The output is the
  sequence of report lines. `Run` is its pure specification.
- `scenarios.dfy` (`Scenarios`): the documented command sequences, run against freshly allocated
  objects and through the interpreter.

Dafny's style asks for camelCase fields, so the C# fields `X`, `Y`, `Direction` and `IsPlaced` are
`x`, `y`, `direction` and `isPlaced` here. The `Robot` and `Direction` sources are not part of this
model. Their shape follows from how the service uses them: an enum with North, East, South and West,
and a record with int `X` and `Y`, a `Direction` and a bool `IsPlaced` that starts unplaced. That a new
robot stands at (0, 0) facing North is an assumption: it takes North to be value 0 of the enum, whose
declaration is not shown. It cannot be observed. Every operation reads `IsPlaced` before any other
field (RobotSimulatorService.cs lines 28, 50, 64 and 78) and stops there while it is false, and
`Place` overwrites all four fields.

## Model

| member | source | states |
|---|---|---|
| Grid.IsValidPosition | RobotSimulator/Services/RobotSimulatorService.cs:83-88 | the 5x5 bounds check; its properties are the invariant `Machine.OnGrid` it defines, kept by `Machine.PlacePreservesOnGrid` and `Machine.MovePreservesOnGrid`, and the edge characterisation `Machine.MoveBlockedExactlyAtEdge` |
| Headings.TurnRight | RobotSimulator/Services/RobotSimulatorService.cs:66-73 | the right-turn table; `Headings.TurnLeft`'s ensures and `Headings.LeftUndoesRight` make it the inverse of the left turn, `Headings.FourTurnsRestore` gives its 4-cycle and `Headings.TurnRightRotatesClockwise` its geometry |
| Headings.TurnLeft | RobotSimulator/Services/RobotSimulatorService.cs:54-59 | the left-turn table North→West→South→East→North is undone by a right turn and always changes the heading |
| Headings.LeftUndoesRight | RobotSimulator/Services/RobotSimulatorService.cs:68-73 | a left turn undoes a right turn, so the two tables are mutual inverses |
| Headings.FourTurnsRestore | RobotSimulator/Services/RobotSimulatorService.cs:52-73 | four left turns, or four right turns, give back the original heading |
| Headings.Delta | RobotSimulator/Services/RobotSimulatorService.cs:30-37 | the displacement of every heading is a unit step along exactly one axis |
| Headings.TurnRightRotatesClockwise | RobotSimulator/Services/RobotSimulatorService.cs:66-73 | a right turn rotates the step vector 90° clockwise, (dx, dy) to (dy, −dx) |
| Headings.TurnLeftRotatesCounterClockwise | RobotSimulator/Services/RobotSimulatorService.cs:52-59 | a left turn rotates the step vector 90° counter-clockwise, (dx, dy) to (−dy, dx) |
| Headings.Name | RobotSimulator/Services/RobotSimulatorService.cs:80 | a heading prints as a 4- or 5-letter name containing no comma |
| Headings.NameInjective | RobotSimulator/Services/RobotSimulatorService.cs:80 | different headings print as different names |
| Formatting.NatToString | RobotSimulator/Services/RobotSimulatorService.cs:80 | a natural prints as at least one decimal digit, exactly one below 10, with no leading zero |
| Formatting.NatToStringRoundTrip | RobotSimulator/Services/RobotSimulatorService.cs:80 | reading the printed digits back gives the number |
| Formatting.IntToString | RobotSimulator/Services/RobotSimulatorService.cs:80 | an int prints with a leading '-' exactly when it is negative, contains no comma, and 0..9 print as their one digit |
| Machine.Place | RobotSimulator/Services/RobotSimulatorService.cs:14-24 | the placement transition; stated by `Machine.PlaceOnTable`, `Machine.PlaceOffTable`, `Machine.PlaceThenReport` and `Machine.PlacePreservesOnGrid` |
| Machine.Move | RobotSimulator/Services/RobotSimulatorService.cs:26-46 | the move transition; stated by `Machine.MoveSteps`, `Machine.MoveBlockedExactlyAtEdge`, `Machine.MoveOffNorthEdge`, `Machine.MovePreservesOnGrid` and `Machine.UnplacedIgnoresMotion` |
| Machine.Left | RobotSimulator/Services/RobotSimulatorService.cs:48-60 | the left-turn transition; stated by `Machine.TurnsChangeOnlyHeading`, `Machine.LeftRightInverse`, `Machine.FourTurnsRestoreState`, `Machine.TurnsPreserveOnGrid` and `Machine.UnplacedIgnoresMotion` |
| Machine.Right | RobotSimulator/Services/RobotSimulatorService.cs:62-74 | the right-turn transition; stated by the same lemmas as `Machine.Left` |
| Machine.Report | RobotSimulator/Services/RobotSimulatorService.cs:76-81 | the report text; stated by `Machine.ReportOnTable`, `Machine.ReportDistinguishesPlacement`, `Machine.ReportInjective` and `Machine.PlaceThenReport` |
| Machine.PlaceOnTable | RobotSimulator/Services/RobotSimulatorService.cs:14-24 | an on-table placement, from any state, sets X, Y, Direction and IsPlaced to the arguments and true, and leaves the robot on the table |
| Machine.PlaceOffTable | RobotSimulator/Services/RobotSimulatorService.cs:16 | an off-table placement changes nothing, an earlier placement included |
| Machine.PlaceThenReport | RobotSimulator/Services/RobotSimulatorService.cs:14-24 | after an on-table placement the report is "x,y,Heading" for exactly the requested cell and heading |
| Machine.PlacePreservesOnGrid | RobotSimulator/Services/RobotSimulatorService.cs:16-21 | Place keeps a placed robot on the 5x5 table, whether it accepts the request or not |
| Machine.MovePreservesOnGrid | RobotSimulator/Services/RobotSimulatorService.cs:39-45 | Move never takes a placed robot off the 5x5 table |
| Machine.TurnsPreserveOnGrid | RobotSimulator/Services/RobotSimulatorService.cs:48-74 | Left and Right keep a placed robot on the 5x5 table |
| Machine.InitialOnGrid | RobotSimulator/Program.cs:12 | a new robot is unplaced and satisfies the invariant |
| Machine.UnplacedIgnoresMotion | RobotSimulator/Services/RobotSimulatorService.cs:28 | on an unplaced robot Move, Left and Right change nothing and the report is "Not placed yet" |
| Machine.MoveSteps | RobotSimulator/Services/RobotSimulatorService.cs:26-46 | a move changes the state if and only if the robot is placed and the next cell along its heading is on the table; it then adds exactly the heading's unit step; the heading and the placed flag never change |
| Machine.MoveBlockedExactlyAtEdge | RobotSimulator/Services/RobotSimulatorService.cs:42 | a placed robot is held back if and only if it faces the edge of the table it stands on |
| Machine.MoveOffNorthEdge | RobotSimulator/Services/RobotSimulatorService.cs:39-42 | at (0,4) facing North the robot stays at (0,4) facing North |
| Machine.TurnsChangeOnlyHeading | RobotSimulator/Services/RobotSimulatorService.cs:48-74 | Left and Right change nothing but the heading, and they do change the heading of a placed robot |
| Machine.LeftRightInverse | RobotSimulator/Services/RobotSimulatorService.cs:48-74 | Right after Left, and Left after Right, restore the state |
| Machine.FourTurnsRestoreState | RobotSimulator/Services/RobotSimulatorService.cs:48-74 | four Lefts, or four Rights, restore the state |
| Machine.ReportOnTable | RobotSimulator/Services/RobotSimulatorService.cs:80 | for a placed robot the report is digit, comma, digit, comma, heading name |
| Machine.ReportDistinguishesPlacement | RobotSimulator/Services/RobotSimulatorService.cs:76-81 | the report is "Not placed yet" if and only if the robot is unplaced |
| Machine.ReportInjective | RobotSimulator/Services/RobotSimulatorService.cs:76-81 | two placed robots on the table with equal reports are in the same state |
| Simulator.Robot.constructor | RobotSimulator/Program.cs:12 | a new robot is unplaced; its other fields hold the assumed defaults (0,0) and North, which no operation reads while it is unplaced |
| Simulator.RobotSimulatorService.constructor | RobotSimulator/Services/RobotSimulatorService.cs:9-12 | the service holds the given robot by reference and does not change it |
| Simulator.RobotSimulatorService.Place | RobotSimulator/Services/RobotSimulatorService.cs:14-24 | returns whether (x, y) is on the table; the robot's fields become those Machine.Place computes; an accepted placement leaves a valid placed robot; the invariant is kept |
| Simulator.RobotSimulatorService.Move | RobotSimulator/Services/RobotSimulatorService.cs:26-46 | the robot's fields become those Machine.Move computes from the old fields; the invariant is kept |
| Simulator.RobotSimulatorService.Left | RobotSimulator/Services/RobotSimulatorService.cs:48-60 | the robot's fields become those Machine.Left computes from the old fields; the invariant is kept |
| Simulator.RobotSimulatorService.Right | RobotSimulator/Services/RobotSimulatorService.cs:62-74 | the robot's fields become those Machine.Right computes from the old fields; the invariant is kept |
| Simulator.RobotSimulatorService.Report | RobotSimulator/Services/RobotSimulatorService.cs:76-81 | the result is the Machine.Report of the robot's fields; it is "Not placed yet" if and only if the robot is unplaced; for a valid placed robot it is "d,d,Heading" from its fields |
| Interpreter.Step | RobotSimulator/Program.cs:124-156 | one dispatch of a parsed command; `Interpreter.ProcessCommand` is proved to follow it and `Interpreter.RunCons` to compose it |
| Interpreter.Run | RobotSimulator/Program.cs:91-108 | the command loop up to the first Exit; stated by `Interpreter.RunPreservesOnGrid`, `Interpreter.RunConcat`, `Interpreter.RunStopsAtFirstExit` and `Interpreter.ReportTwice`, and followed by `Interpreter.ProcessCommands` |
| Interpreter.RunCons | RobotSimulator/Program.cs:91-108 | processing a non-Exit command and then more is one dispatch followed by the rest |
| Interpreter.RunPreservesOnGrid | RobotSimulator/Program.cs:91-108 | any sequence of commands keeps a placed robot on the table |
| Interpreter.RunConcat | RobotSimulator/Program.cs:91-108 | processing Exit-free commands a and then b is processing a + b, with the reports concatenated |
| Interpreter.RunStopsAtFirstExit | RobotSimulator/Program.cs:101-105 | nothing after the first Exit is processed |
| Interpreter.ReportTwice | RobotSimulator/Program.cs:147-149 | two reports in a row print the same text and leave the state alone |
| Interpreter.ProcessCommand | RobotSimulator/Program.cs:124-156 | dispatching one command leaves the robot in the state Step computes and returns the report it prints; Exit and Unknown change nothing |
| Interpreter.ProcessCommands | RobotSimulator/Program.cs:91-108 | the loop leaves the robot in the state Run computes and returns exactly the reports Run lists |
| Scenarios.ReportBeforePlace | RobotSimulator/Services/RobotSimulatorService.cs:78 | a new robot reports exactly "Not placed yet" |
| Scenarios.PlaceAndMoveNorth | RobotSimulator.Tests/RobotSimulatorTests.cs:60-70 | Place(0,0,North), Move reports "0,1,North" |
| Scenarios.PlaceAndTurnLeft | RobotSimulator.Tests/RobotSimulatorTests.cs:72-82 | Place(0,0,North), Left reports "0,0,West" |
| Scenarios.PlaceMoveMoveLeftMove | RobotSimulator.Tests/RobotSimulatorTests.cs:84-97 | Place(1,2,East), Move, Move, Left, Move reports "3,3,North" |
| Scenarios.MoveNorthFromEdge | RobotSimulator.Tests/RobotSimulatorTests.cs:101-112 | Place(0,4,North), Move reports "0,4,North" |
| Scenarios.SequentialMoves | RobotSimulator.Tests/RobotSimulatorTests.cs:114-129 | Place(2,2,North), three Moves, Left, Move reports "1,4,West" |
| Scenarios.RejectedPlaceKeepsPlacement | RobotSimulator/Services/RobotSimulatorService.cs:16 | after Place(1,1,South), Place(5,0,East) returns false and the report is still "1,1,South" |
| Scenarios.SequentialMovesRun | RobotSimulator.Tests/RobotSimulatorTests.cs:114-129 | the same scenario as a command sequence prints exactly ["1,4,West"] |
| Scenarios.SequentialMovesAsCommands | RobotSimulator/Program.cs:101-105 | with an Exit and more commands appended, the printed reports stay ["1,4,West"] |

## Left out

- Console and file handling in `RobotSimulator/Program.cs` is not modelled: `Main`, `RunInteractiveMode`, `HandleFileSelection`, the file reading in `ProcessCommandsFromFile` and `DisplayUserInstructions`. This is I/O. The interpreter starts from a sequence of commands that are already parsed. An empty file is the empty sequence, which `Run` maps to no change.
- The confirmation and error messages printed by `ProcessCommand` and `ProcessPlaceCommand` are not modelled, because they are user messaging. The interpreter's output holds only the lines `Report` returns.
- Text parsing is not modelled: `ParseCommand`, the field checks of `ProcessPlaceCommand`, and skipping blank lines. They rest on .NET `string.Split`, `int.TryParse` and case-insensitive `Enum.TryParse`, which are library code. A whitespace-only line is skipped before dispatch, so it never reaches the model. A PLACE line in the wrong format prints a message and changes nothing, which is the effect of `Unknown`.
- Out-of-range enum values are not modelled. `Direction` here is a closed datatype, so the fallback arms of the three switches cannot occur: the `throw` in `Move` and the `_ => _robot.Direction` arms of `Left` and `Right`. In C#, `Enum.TryParse` also accepts a numeric string such as "7" (RobotSimulator/Program.cs:163). That yields an undeclared `Direction` value, for which `Move` would throw and `Left`/`Right` would keep the heading. The closed datatype leaves this outside the model.
- 32-bit integers are not modelled: the model uses unbounded `int`. `Place` only compares its arguments, and a placed robot's coordinates stay in 0..4, so `Move` cannot overflow.
- `Formatting.IntToString` follows the invariant-culture rendering of an `int` (a leading '-' and decimal digits). Culture-specific number formats are not modelled.
