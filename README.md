# Toy Robot Simulator in Dafny

This project models the toy robot simulator in `robotSimulator.js`. A robot sits on a 5 x 5 table, with (0, 0) at the south-west corner. It is driven by text commands:

- `PLACE X,Y,DIRECTION`
- `MOVE`
- `LEFT`
- `RIGHT`
- `REPORT`

The robot ignores every command until a PLACE puts it on the table. Once placed, it refuses any move that would make it fall off.

The model has two parts, as the source does.

- **The robot** (`robot.dfy`, module `Robots`). The four fields of the JavaScript `Robot` are `x`, `y`, `direction` and `isPlaced`; JavaScript `null` is modelled as `None`. They are both:
  - a value, `State`, with the invariant `Valid()`: a placed robot stands on the table and faces one of the four directions, and an unplaced one has every field unset;
  - a `class Robot` whose methods `Place`, `Move`, `TurnLeft` and `TurnRight` assign those fields step by step.

  Each method is proved against a function on `State`:
  - `AfterPlace`, built on `CheckPlacement`;
  - `AfterMove`;
  - `AfterTurnLeft` and `AfterTurnRight`.

  The read-only `report` is the function `Report`, tied to `ReportOf`. The turns use the source's index arithmetic on `DIRECTIONS` = NORTH, EAST, SOUTH, WEST.
- **The interpreter** (`simulator.dfy`, module `Simulator`). `RunCommands` has the source's `for` loop: a fresh robot, each line split at its first space, a PLACE branch, the `continue` for non-PLACE lines while the robot is unplaced, and the `switch` on the verb. It collects the output lines in a `seq<string>`. It is proved equal to `Run`, which folds `Step` over the lines; `Step` is one pass of the loop as a function of the robot's state.

PLACE arguments are matched against the pattern `(-?\d+)\s*,\s*(-?\d+)\s*,\s*([a-zA-Z]+)` (`place_pattern.dfy`, module `PlacePattern`). The pattern is unanchored and the leftmost match wins, as `String.prototype.match` does. `FirstMatch` searches position by position. Its contract relates the result to a declarative definition of a match, `IsMatch`: the result is a match, it starts no later than any other match, and none is found only when there is none.

The JavaScript built-ins the code relies on are in `js_strings.dfy` (module `JsStrings`): `indexOf`, `trim`, `parseInt(s, 10)`, the plain decimal rendering a template literal gives the coordinates, and `toUpperCase`.

`scenarios.dfy` (module `Scenarios`) has two kinds of examples from `test.js`:
- the single-operation examples, as facts about the transition functions;
- the five example runs, each stated as the exact list of lines `Run` produces.

Where the tests and the code disagree, the model follows the code. In scenario 5, `test.js:247` expects one output line. The code also appends the notice for the REPORT that follows the refused PLACE, so it produces two lines. `Scenarios.Scenario5` proves the two lines.

Integers are unbounded, as JavaScript numbers are for the values the simulator handles. Strings are sequences of characters.

## Model

| member | source | states |
|---|---|---|
| Robots.DirectionNamed | robotSimulator.js:74 | `DIRECTIONS.includes(t)`: a direction is found exactly when `t` is its name; none is found only when no direction has that name |
| Robots.NamesAreRecognised | robotSimulator.js:19 | every direction's name is recognised as that direction |
| Robots.NameIsUpperCaseLetters | robotSimulator.js:19 | every direction name is a non-empty run of upper-case letters, so the PLACE pattern's last group can capture it |
| Robots.CoordinatesMessage | robotSimulator.js:68 | the coordinates rejection is never empty and never the "Robot not placed." text |
| Robots.DirectionMessage | robotSimulator.js:75 | the direction rejection is never empty and never the "Robot not placed." text |
| Robots.IsValidPosition | robotSimulator.js:45-49 | `_isValidPosition`: the cell is on the 5 x 5 table, 0 <= x < 5 and 0 <= y < 5; every transition's invariant and `MovesStopAtTheEdge` are stated through it |
| Robots.CheckPlacement | robotSimulator.js:61-79 | accepted exactly when both coordinates parse, lie on the table, and the direction is one of the four; an accepted placement carries the parsed values; coordinates are checked first, so bad coordinates give the coordinates message whatever the direction, and good coordinates with an unknown direction give the direction message |
| Robots.AfterPlace | robotSimulator.js:61-87 | all or nothing: a rejected place leaves every field as it was, placed or not; an accepted one sets all four fields to the parsed values; the invariant holds after |
| Robots.Ahead | robotSimulator.js:105-110 | the cell ahead in each direction is exactly one unit step away |
| Robots.AfterMove | robotSimulator.js:95-123 | no change when unplaced or when the cell ahead is off the table; otherwise one coordinate changes by exactly 1; direction and placement never change; the invariant is preserved |
| Robots.LeftOf | robotSimulator.js:137-139 | the index arithmetic of a left turn always gives a different direction |
| Robots.RightOf | robotSimulator.js:155-157 | the index arithmetic of a right turn always gives a different direction |
| Robots.AfterTurnLeft | robotSimulator.js:130-141 | position and placement unchanged; a no-op when unplaced; a placed robot ends up facing a different direction; invariant preserved |
| Robots.AfterTurnRight | robotSimulator.js:148-159 | position and placement unchanged; a no-op when unplaced; a placed robot ends up facing a different direction; invariant preserved |
| Robots.ReportOf | robotSimulator.js:166-176 | the text is "Robot not placed." exactly when the robot is unplaced |
| Robots.DirectionIndices | robotSimulator.js:19 | NORTH, EAST, SOUTH, WEST sit at indices 0 to 3 of the cycle |
| Robots.TurnsFollowTheCompass | robotSimulator.js:130-159 | right turns go NORTH, EAST, SOUTH, WEST and back to NORTH; left turns go the other way |
| Robots.TurnsCancel | robotSimulator.js:130-159 | a left turn then a right turn, or a right turn then a left turn, is the identity on every valid state |
| Robots.FourTurnsRestore | robotSimulator.js:130-159 | four left turns, or four right turns, restore the original state |
| Robots.TurnAbout | robotSimulator.js:148-159 | two right turns keep the position and face the opposite direction |
| Robots.RightTwiceIsOpposite | robotSimulator.js:155-157 | two steps clockwise through the cycle give the opposite direction |
| Robots.MoveIsReversible | robotSimulator.js:95-123 | a move that happened is undone by turning about, moving and turning about again |
| Robots.MoveUsesRoom | robotSimulator.js:102-117 | a move is refused exactly when there is no room ahead, and otherwise uses up one unit of room |
| Robots.Moves | robotSimulator.js:95-123 | any number of moves keeps the invariant, the placement and the direction |
| Robots.MovesUseRoom | robotSimulator.js:95-123 | n moves use up n units of room ahead, or all the room there was |
| Robots.MovesStopAtTheEdge | robotSimulator.js:113-117 | after four moves in any direction, every further move is refused: the robot never leaves the table |
| Robots.SmallIntToString | robotSimulator.js:173 | a coordinate on the table prints as a single digit |
| Robots.ReportIdentifiesState | robotSimulator.js:173 | two placed robots with the same report text are in the same state |
| Robots.Robot.constructor | robotSimulator.js:30-36 | a new robot is unplaced with every field unset |
| Robots.Robot.Place | robotSimulator.js:61-87 | the fields become `AfterPlace` of the old fields; the result is "" on success and the rejection message otherwise |
| Robots.Robot.Move | robotSimulator.js:95-123 | the fields become `AfterMove` of the old fields |
| Robots.Robot.TurnLeft | robotSimulator.js:130-141 | the fields become `AfterTurnLeft` of the old fields |
| Robots.Robot.TurnRight | robotSimulator.js:148-159 | the fields become `AfterTurnRight` of the old fields |
| Robots.Robot.Report | robotSimulator.js:166-176 | reads the fields only: "Robot not placed." exactly when the robot is unplaced, otherwise `ReportOf` of the fields |
| JsStrings.IndexOf | robotSimulator.js:196 | `indexOf`: -1 exactly when the element is absent, otherwise the first position holding it |
| JsStrings.Span | robotSimulator.js:215 | a greedy `\s*`, `\d+` or `[a-zA-Z]+` run: everything from the start to the result is in the class, and the character at the result is not |
| JsStrings.Trim | robotSimulator.js:202-206 | `trim` drops exactly the leading and trailing whitespace: the result is the middle of the input and starts and ends with non-whitespace |
| JsStrings.TrimKeeps | robotSimulator.js:202-206 | trimming a string that neither starts nor ends with whitespace changes nothing |
| JsStrings.TrimPadded | robotSimulator.js:202-206 | trimming a word wrapped in whitespace on both sides gives back exactly the word |
| JsStrings.ParseInt | robotSimulator.js:63-64 | `parseInt(s, 10)`: skip whitespace, an optional sign, the longest digit run, `NaN` (None) without a digit; its partners `JsStrings.ParseIntOfIntToString` (it reads back every printed integer) and `PlacePattern.ParseIntOfSignedInteger` (it reads every `-?\d+` group, leading zeros and `-0` included) for the number direction, and `JsStrings.ParseIntWithoutDigits` and `JsStrings.ParseIntOfNonNumeral` for the `NaN` direction |
| JsStrings.IntToString | robotSimulator.js:173 | the plain decimal rendering of an integer, which is what the template literal prints for the coordinates `report` prints: a leading `-` exactly for negatives, then digits whose value is the magnitude |
| JsStrings.NatToString | robotSimulator.js:173 | the decimal rendering of a number is digits with that value and no leading zero |
| JsStrings.ParseIntWithoutDigits | robotSimulator.js:63-64 | a string with no digit anywhere (`""`, `"-"`, `"+"`, ...) reads as `NaN` |
| JsStrings.ParseIntOfNonNumeral | robotSimulator.js:63-64 | a string that starts with anything but whitespace, a sign or a digit reads as `NaN`, whatever follows |
| JsStrings.ParseIntOfIntToString | robotSimulator.js:63-64 | `parseInt` reads back the decimal rendering of any integer, whatever non-digit text follows |
| JsStrings.ToUpperCase | robotSimulator.js:220 | `toUpperCase` on the letters the pattern admits: same length, each character kept or a lower-case letter replaced by its upper-case partner, no lower-case letter left, and letters stay letters |
| JsStrings.ToUpperCaseOfVariant | robotSimulator.js:220 | every spelling of an upper-case word, each letter in either case, upper-cases to that word |
| JsStrings.ToUpperCaseKeeps | robotSimulator.js:220 | a string without lower-case letters is its own upper case |
| PlacePattern.IsMatch | robotSimulator.js:215 | what it means for `(-?\d+)\s*,\s*(-?\d+)\s*,\s*([a-zA-Z]+)` to match at a position, the reference definition `FirstMatch` is proved against |
| PlacePattern.Groups | robotSimulator.js:215-220 | the three captured groups of a match: two signed integers and a non-empty run of letters |
| PlacePattern.SignedIntegerEnd | robotSimulator.js:215 | where `-?\d+` ends from a position: what it spans is a signed integer, and no digit follows it |
| PlacePattern.SignedIntegerEndFinds | robotSimulator.js:215 | every signed integer that no digit follows is the one found |
| PlacePattern.MatchAt | robotSimulator.js:215 | a match reported at a position is a match of the pattern starting there |
| PlacePattern.MatchAtFindsEveryMatch | robotSimulator.js:215 | every match of the pattern is the one found at its start |
| PlacePattern.MatchIsDeterminedByStart | robotSimulator.js:215 | two matches that start at the same place are equal, so the leftmost match is unique |
| PlacePattern.SearchFrom | robotSimulator.js:215 | the search returns a match at or after the position, no later than any other such match, and fails only when there is none |
| PlacePattern.FirstMatch | robotSimulator.js:215 | `args.match(pattern)`: the leftmost match of the unanchored pattern, and none exactly when no substring matches |
| PlacePattern.WrittenArgumentsMatch | robotSimulator.js:215-220 | `X,Y,DIRECTION` written without spaces matches as a whole, with the three parts as the groups |
| PlacePattern.PaddedArgsAreAMatch | robotSimulator.js:215 | `X`, `Y` and `DIRECTION` with whitespace, spaces included, on either side of each comma are a match of the pattern |
| PlacePattern.PaddedArgumentsMatch | robotSimulator.js:215-220 | such padded arguments match as a whole, and the groups are still the three parts |
| PlacePattern.IntToStringIsSignedInteger | robotSimulator.js:215 | a printed number is a signed integer in the pattern's sense |
| PlacePattern.ParseIntOfDigits | robotSimulator.js:63-64 | `parseInt` reads a run of digits as its decimal value, leading zeros included |
| PlacePattern.ParseIntOfNegative | robotSimulator.js:63-64 | `parseInt` reads a minus sign and a digit run as the negated value, so `-0` reads as 0 |
| PlacePattern.ParseIntOfSignedInteger | robotSimulator.js:63-64 | `parseInt` reads every `-?\d+` string as its value: a number, never `NaN` |
| PlacePattern.GroupsParse | robotSimulator.js:215-220 | both coordinate groups of any match parse to numbers, so a PLACE that matches is never refused for `NaN` |
| Simulator.FormatMessage | robotSimulator.js:229 | the format notice is never the "Robot not placed." text |
| Simulator.IgnoredMessage | robotSimulator.js:236 | the "ignored" notice is never the "Robot not placed." text |
| Simulator.UnknownMessage | robotSimulator.js:258 | the unknown-command warning is never the "Robot not placed." text |
| Simulator.SplitLine | robotSimulator.js:196-207 | the line split at its first space: there are arguments exactly when the line holds a space, and the verb then holds none; the verb and the arguments are trimmed, neither starting nor ending with whitespace; `SplitAtFirstSpace` is proved equal to it |
| Simulator.PlaceArguments | robotSimulator.js:215 | `args ? args.match(pattern) : null`: no arguments exactly when the string is missing, empty, or has no match of the pattern |
| Simulator.PlaceArgumentsAreLeftmost | robotSimulator.js:215 | the arguments found are the groups of a match that starts no later than any other |
| Simulator.PlaceWith | robotSimulator.js:217-227 | `place` on the groups with the direction upper-cased: nothing is appended exactly when the placement is accepted, and then the robot stands at the parsed cell; otherwise the robot is unchanged and the rejection is appended |
| Simulator.PlaceLine | robotSimulator.js:213-232 | a PLACE line with missing or non-matching arguments appends the format notice containing the line and leaves the robot as it was (`place` is not called); otherwise it behaves as `place` on the groups |
| Simulator.OtherLine | robotSimulator.js:233-262 | a line other than PLACE: while unplaced, the notice is appended and the state is unchanged; once placed, MOVE applies `AfterMove`, LEFT `AfterTurnLeft` and RIGHT `AfterTurnRight`, appending nothing; REPORT appends the report; any other verb appends the warning and changes nothing; only the three motion verbs change the state |
| Simulator.Step | robotSimulator.js:193-263 | one pass of the loop keeps the invariant, never unplaces the robot, and never appends "Robot not placed." |
| Simulator.Run | robotSimulator.js:187-268 | the loop over all lines: at most one output line per input line, never "Robot not placed.", invariant kept |
| Simulator.SplitAtFirstSpace | robotSimulator.js:196-207 | the head of the loop splits the line as `SplitLine` does |
| Simulator.PlaceCommand | robotSimulator.js:213-232 | the PLACE branch changes the robot and appends exactly what `PlaceLine` says |
| Simulator.Dispatch | robotSimulator.js:242-262 | the `switch` changes the robot and appends exactly what `OtherLine` says for a placed robot |
| Simulator.RunOneMore | robotSimulator.js:193-263 | one more iteration of the loop is one more `Step` |
| Simulator.RunCommands | robotSimulator.js:187-268 | the collected lines are exactly the output of `Run` from a new robot |
| Simulator.RunAppend | robotSimulator.js:193-263 | running `a + b` is running `a` then `b` from where `a` left the robot; the output of `a` comes first, so output follows input order |
| Simulator.IgnoredMessages | robotSimulator.js:236 | one notice per line, in order |
| Simulator.IgnoredLine | robotSimulator.js:235-240 | a non-PLACE line before placement appends its notice and changes nothing |
| Simulator.IgnoredUntilPlaced | robotSimulator.js:235-240 | until a PLACE line comes, each line is answered with its own notice, in order, and the robot stays off the table |
| Simulator.SplitBareWord | robotSimulator.js:196-207 | a word padded on either side with whitespace other than spaces (tabs, `\r`, ...) is that word as the verb, with no arguments |
| Simulator.PaddedVerbStep | robotSimulator.js:196-207 | a verb other than PLACE, padded with whitespace other than spaces, is dispatched on the trimmed verb |
| Simulator.BareVerbStep | robotSimulator.js:233-262 | a verb other than PLACE, alone on its line, is dispatched on itself |
| Simulator.PlaceWithoutArguments | robotSimulator.js:215-231 | a bare `PLACE` gets the format notice and leaves the robot where it is |
| Simulator.SplitAtSpace | robotSimulator.js:196-203 | a line is split at its first space: the verb is the trimmed text before it and the arguments are the trimmed text after it, later spaces included |
| Simulator.SplitPlaceLine | robotSimulator.js:196-203 | `PLACE`, a space, and an argument string that neither starts nor ends with whitespace (inner spaces allowed) split into the verb and that whole argument string |
| Simulator.ReadPlaceParts | robotSimulator.js:63-78 | the parts of a PLACE line written from a position and a direction name in any case: `place` parses the numbers back and finds the direction |
| Simulator.ReadPlaceLine | robotSimulator.js:213-224 | a PLACE line written from a position and a direction name in any mix of cases is read back: the groups are the three parts, the name upper-cases to the direction, and `place` parses them to the values they came from |
| Simulator.PlaceLineInAnyCase | robotSimulator.js:213-227 | a PLACE line on the table places the robot whatever the case of the direction's letters |
| Simulator.ReadSpacedPlaceLine | robotSimulator.js:196-220 | a PLACE line with whitespace around its commas keeps its whole argument string, and the pattern gives back the three parts |
| Simulator.PlaceSpacedLine | robotSimulator.js:196-227 | such a line on the table places the robot exactly there from any state, appending nothing |
| Simulator.PlaceLineOnTable | robotSimulator.js:213-227 | a PLACE line on the table puts the robot exactly there from any state and appends nothing |
| Simulator.PlaceLineOffTable | robotSimulator.js:213-227 | a PLACE line off the table leaves any state unchanged and appends the coordinates notice |
| Simulator.ReportCanBePlacedAgain | robotSimulator.js:166-176 | a report, given back to PLACE, puts any robot exactly into the reported state |
| Scenarios.RunFollowsTrace | robotSimulator.js:187-268 | a run ends in the state its line-by-line trace ends in, and prints the trace's answers in order |
| Scenarios.PlaceAtOrigin | test.js:32-37 | `place('0','0','NORTH')` places a new robot at 0,0 facing north |
| Scenarios.PlaceOffTableRefused | test.js:40-45 | `place('5','5','NORTH')` is refused with the coordinates message, and every field stays unset |
| Scenarios.PlaceUnknownDirectionRefused | test.js:48-50 | `place('0','0','INVALID')` is refused with the direction message |
| Scenarios.PlaceNonNumericRefused | test.js:53-55 | `place('A','B','NORTH')` is refused with the coordinates message |
| Scenarios.PlaceWithoutDigitsRefused | robotSimulator.js:63-70 | `place('','','NORTH')` and `place('-','-','NORTH')` are refused with the coordinates message and change nothing |
| Scenarios.MoveExamples | test.js:66-100 | one step north, east, south and west, and the refused steps at the north and east edges |
| Scenarios.ReportExamples | test.js:143-150 | the report after placing at 1,2,SOUTH, and after one move from there |
| Scenarios.MoveWithCarriageReturn | robotSimulator.js:196-207 | `MOVE\r` is trimmed to MOVE and moves a placed robot |
| Scenarios.PlaceWithSpacedArguments | robotSimulator.js:196-227 | `PLACE 1, 2, NORTH` places the robot at 1,2 facing north |
| Scenarios.PlaceLowerCase | robotSimulator.js:213-227 | `PLACE 0,0,north` places the robot at 0,0 facing north |
| Scenarios.Scenario1 | test.js:187-195 | PLACE 0,0,NORTH; MOVE; REPORT prints exactly `0,1,NORTH` |
| Scenarios.Scenario2 | test.js:197-205 | PLACE 0,0,NORTH; LEFT; REPORT prints exactly `0,0,WEST` |
| Scenarios.Scenario3 | test.js:207-218 | PLACE 1,2,EAST; MOVE; MOVE; LEFT; MOVE; REPORT prints exactly `3,3,NORTH` |
| Scenarios.Scenario4 | test.js:220-239 | two notices for MOVE and REPORT before placement, then `0,4,NORTH`; the fifth MOVE at the north edge is dropped |
| Scenarios.Scenario5 | test.js:241-248 | the off-table PLACE is answered with the coordinates notice, then REPORT with its notice: two lines |

## Left out

- `Logger.log` calls are left out. They are diagnostics and change neither state nor results.
- `Web_App_Handler.js` is not part of this model. It serves the page, joins the output lines and captures the log.
- `test_utils.js` is not part of this model. It only compares and logs.
- Scenario 5's test expects a single line (`test.js:247`), but the code produces two. `Scenarios.Scenario5` states what the code produces.
- JsStrings.ParseInt: models `parseInt(s, 10)` on integers of any size. JavaScript loses precision past 2^53 and reads a run of many digits as `Infinity`. Those inputs are not modelled.
- JsStrings.IntToString: renders every integer as plain decimal digits. JavaScript prints numbers of 10^21 and above in exponent notation (`1e+21`, which `parseInt` reads as 1) and rounds digits past 2^53. `report` prints only the coordinates 0 to 4, where the two agree, so neither case arises there.
- JsStrings.ToUpperCase: upper-cases ASCII letters only. It is applied only to the pattern's `[a-zA-Z]+` group, where that is exact.
- JsStrings.IsWhitespace: characters are Unicode code points. JavaScript works on UTF-16 code units, which differ only for characters outside the Basic Multilingual Plane. The simulator treats those characters as ordinary non-whitespace either way.
- Directions are a datatype rather than strings. A placed robot's `direction` can only be one of the four names, because `place` checks it against `DIRECTIONS`.
- `runCommands` is split into three helper methods: the split at the first space, the PLACE branch and the `switch`. Each is proved against its function, and the loop itself stays in `RunCommands`.
