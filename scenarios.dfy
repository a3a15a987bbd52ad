/**
 * The simulator's worked examples. The single-operation ones are facts about
 * the robot's transitions; the example runs are facts about `Run`: each input
 * below produces exactly the listed output lines. A run is followed through a
 * trace (the robot's state before every line and what every line answers), and
 * each line's effect comes from the lemmas about single lines.
 */
module Scenarios {
  import opened Wrappers
  import opened JsStrings
  import opened Robots
  import opened PlacePattern
  import opened Simulator

  /** A robot on the table at `(x, y)` facing `d`. */
  function Placed(x: int, y: int, d: Direction): (r: State)
    requires IsValidPosition(x, y)
    ensures r.Valid() && r.isPlaced
  {
    State(Some(x), Some(y), Some(d), true)
  }

  // ---------------------------------------------------------------- single operations

  /** `place('0', '0', 'NORTH')` puts a new robot at the origin facing north. */
  lemma PlaceAtOrigin()
    ensures AfterPlace(UNPLACED, "0", "0", "NORTH") == Placed(0, 0, NORTH)
  {
    ParseIntOfIntToString(0, []);
    assert IntToString(0) + [] == "0";
  }

  /** `place('5', '5', 'NORTH')` is off the 5 x 5 table: refused, nothing set. */
  lemma PlaceOffTableRefused()
    ensures CheckPlacement("5", "5", "NORTH") == Rejected(CoordinatesMessage("5", "5"))
    ensures AfterPlace(UNPLACED, "5", "5", "NORTH") == UNPLACED
  {
    ParseIntOfIntToString(5, []);
    assert IntToString(5) + [] == "5";
  }

  /** `place('0', '0', 'INVALID')` names no direction: refused. */
  lemma PlaceUnknownDirectionRefused()
    ensures CheckPlacement("0", "0", "INVALID") == Rejected(DirectionMessage("INVALID"))
    ensures AfterPlace(UNPLACED, "0", "0", "INVALID") == UNPLACED
  {
    ParseIntOfIntToString(0, []);
    assert IntToString(0) + [] == "0";
  }

  /** `place('A', 'B', 'NORTH')` has no numbers: refused as bad coordinates. */
  lemma PlaceNonNumericRefused()
    ensures CheckPlacement("A", "B", "NORTH") == Rejected(CoordinatesMessage("A", "B"))
    ensures AfterPlace(UNPLACED, "A", "B", "NORTH") == UNPLACED
  {
  }

  /** `place('', '', 'NORTH')` and `place('-', '-', 'NORTH')`: no digit, so `NaN`,
      refused as bad coordinates. */
  lemma PlaceWithoutDigitsRefused()
    ensures CheckPlacement("", "", "NORTH") == Rejected(CoordinatesMessage("", ""))
    ensures AfterPlace(UNPLACED, "", "", "NORTH") == UNPLACED
    ensures CheckPlacement("-", "-", "NORTH") == Rejected(CoordinatesMessage("-", "-"))
    ensures AfterPlace(UNPLACED, "-", "-", "NORTH") == UNPLACED
  {
    ParseIntWithoutDigits("");
    ParseIntWithoutDigits("-");
  }

  /** One step in each direction, and the steps refused at the north and east edges. */
  lemma MoveExamples()
    ensures AfterMove(Placed(0, 0, NORTH)) == Placed(0, 1, NORTH)
    ensures AfterMove(Placed(0, 0, EAST)) == Placed(1, 0, EAST)
    ensures AfterMove(Placed(0, 1, SOUTH)) == Placed(0, 0, SOUTH)
    ensures AfterMove(Placed(1, 0, WEST)) == Placed(0, 0, WEST)
    ensures AfterMove(Placed(0, 4, NORTH)) == Placed(0, 4, NORTH)
    ensures AfterMove(Placed(4, 0, EAST)) == Placed(4, 0, EAST)
  {
  }

  /** What `report` prints after placing at `1,2,SOUTH` and after one move from there. */
  lemma ReportExamples()
    ensures ReportOf(Placed(1, 2, SOUTH)) == "1,2,SOUTH"
    ensures ReportOf(AfterMove(Placed(1, 2, SOUTH))) == "1,1,SOUTH"
  {
    SmallNumbers();
    assert AfterMove(Placed(1, 2, SOUTH)) == Placed(1, 1, SOUTH);
  }

  // ---------------------------------------------------------------- traces

  /** The lines printed by the first `n` answers of `outs`, in order. */
  function Collected(outs: seq<Option<string>>, n: nat): (r: seq<string>)
    requires n <= |outs|
    ensures |r| <= n
  {
    if n == 0 then [] else Collected(outs, n - 1) + Lines(outs[n - 1])
  }

  /** Line `line` takes the robot from `s` to `t` and answers `out`. */
  predicate StepsTo(s: State, line: string, t: State, out: Option<string>) {
    s.Valid() && Step(s, line) == (t, out)
  }

  /** `states` and `outs` trace the run of `lines` from `s`: line `k` takes the
      robot from `states[k]` to `states[k + 1]` and answers `outs[k]`. */
  predicate Traces(s: State, lines: seq<string>, states: seq<State>, outs: seq<Option<string>>) {
    |states| == |lines| + 1 && |outs| == |lines| && states[0] == s && s.Valid() &&
    (forall k :: 0 <= k < |lines| ==> StepsTo(states[k], lines[k], states[k + 1], outs[k]))
  }

  /** Every prefix of the traced run ends where the trace says. */
  lemma {:induction false} RunFollowsTracePrefix(s: State, lines: seq<string>, states: seq<State>,
                                                 outs: seq<Option<string>>, j: nat)
    requires Traces(s, lines, states, outs) && j <= |lines|
    ensures Run(s, lines[..j]) == (states[j], Collected(outs, j))
    decreases j
  {
    if j == 0 {
      assert lines[..0] == [];
    } else {
      var k := j - 1;
      RunFollowsTracePrefix(s, lines, states, outs, k);
      RunOneMore(s, lines, k);
      assert Step(states[k], lines[k]) == (states[j], outs[k]);
    }
  }

  /** A run ends where its trace ends and prints what the trace's answers print. */
  lemma RunFollowsTrace(s: State, lines: seq<string>, states: seq<State>, outs: seq<Option<string>>)
    requires Traces(s, lines, states, outs)
    ensures Run(s, lines) == (states[|lines|], Collected(outs, |lines|))
  {
    RunFollowsTracePrefix(s, lines, states, outs, |lines|);
    assert lines[..|lines|] == lines;
  }

  // ---------------------------------------------------------------- single lines

  /** The numbers the example runs print. */
  lemma SmallNumbers()
    ensures IntToString(0) == "0" && IntToString(1) == "1" && IntToString(2) == "2"
    ensures IntToString(3) == "3" && IntToString(4) == "4" && IntToString(5) == "5"
  {
  }

  /** A PLACE line on the table, written out from its position and direction. */
  lemma PlaceStep(s: State, line: string, t: State, x: int, y: int, d: Direction)
    requires s.Valid() && IsValidPosition(x, y) && line == "PLACE " + PlaceArgsText(x, y, d)
    requires t == Placed(x, y, d)
    ensures StepsTo(s, line, t, None)
  {
    PlaceLineOnTable(s, x, y, d);
  }

  /** A PLACE line off the table, written out from its position and direction. */
  lemma OffTableStep(s: State, line: string, out: Option<string>, x: int, y: int, d: Direction)
    requires s.Valid() && !IsValidPosition(x, y) && line == "PLACE " + PlaceArgsText(x, y, d)
    requires out == Some(CoordinatesMessage(IntToString(x), IntToString(y)))
    ensures StepsTo(s, line, s, out)
  {
    PlaceLineOffTable(s, x, y, d);
  }

  /** MOVE on a placed robot, given where the move takes it. */
  lemma MoveStep(s: State, line: string, t: State)
    requires s.Valid() && s.isPlaced && line == "MOVE" && AfterMove(s) == t
    ensures StepsTo(s, line, t, None)
  {
    assert NoWhitespace("MOVE");
    BareVerbStep(s, "MOVE");
  }

  /** LEFT on a placed robot, given where the turn leaves it. */
  lemma LeftStep(s: State, line: string, t: State)
    requires s.Valid() && s.isPlaced && line == "LEFT" && AfterTurnLeft(s) == t
    ensures StepsTo(s, line, t, None)
  {
    assert NoWhitespace("LEFT");
    BareVerbStep(s, "LEFT");
  }

  /** REPORT on a placed robot, given the text it reports. */
  lemma ReportStep(s: State, line: string, t: State, out: Option<string>, text: string)
    requires s.Valid() && s.isPlaced && line == "REPORT" && t == s && ReportOf(s) == text && out == Some(text)
    ensures StepsTo(s, line, t, out)
  {
    assert NoWhitespace("REPORT");
    BareVerbStep(s, "REPORT");
  }

  /** MOVE or REPORT before any placement, answered with its notice. */
  lemma IgnoredStep(s: State, line: string, t: State, out: Option<string>)
    requires s == UNPLACED && t == UNPLACED && (line == "MOVE" || line == "REPORT")
    requires out == Some(IgnoredMessage(line))
    ensures StepsTo(s, line, t, out)
  {
    assert NoWhitespace(line);
    BareVerbStep(UNPLACED, line);
  }

  /** A line ending in a carriage return is trimmed before the verb is read: `MOVE\r`
      moves a placed robot. */
  lemma MoveWithCarriageReturn(line: string)
    requires line == "MOVE\r"
    ensures StepsTo(Placed(0, 0, NORTH), line, Placed(0, 1, NORTH), None)
  {
    assert IsPadding("\r") && NoWhitespace("MOVE");
    assert line == [] + "MOVE" + "\r";
    PaddedVerbStep(Placed(0, 0, NORTH), [], "MOVE", "\r");
    MoveExamples();
  }

  /** `PLACE 1, 2, NORTH` is the line for 1, 2, NORTH with a space after each comma. */
  lemma SpacedLineSpelled(line: string)
    requires line == "PLACE 1, 2, NORTH"
    ensures line == "PLACE " + PaddedArgs(IntToString(1), [], " ", IntToString(2), [], " ", "NORTH")
  {
    SmallNumbers();
    assert PaddedArgs(IntToString(1), [], " ", IntToString(2), [], " ", "NORTH") == "1, 2, NORTH";
  }

  /** The arguments are everything after the first space, and the pattern allows
      whitespace around the commas: `PLACE 1, 2, NORTH` places. */
  lemma PlaceWithSpacedArguments(line: string)
    requires line == "PLACE 1, 2, NORTH"
    ensures StepsTo(UNPLACED, line, Placed(1, 2, NORTH), None)
  {
    assert AllWhitespaceIn(" ", 0, 1) && CaseVariant("NORTH", Name(NORTH));
    SpacedLineSpelled(line);
    PlaceSpacedLine(UNPLACED, 1, 2, [], " ", [], " ", "NORTH", NORTH);
  }

  /** The direction is upper-cased before it is looked up: `PLACE 0,0,north` places. */
  lemma PlaceLowerCase(line: string)
    requires line == "PLACE 0,0,north"
    ensures StepsTo(UNPLACED, line, Placed(0, 0, NORTH), None)
  {
    assert CaseVariant("north", Name(NORTH));
    SmallNumbers();
    assert line == "PLACE " + SpelledArgs(0, 0, "north");
    PlaceLineInAnyCase(UNPLACED, 0, 0, "north", NORTH);
  }

  /** The texts the example runs print. */
  lemma ReportsZeroOneNorth()
    ensures ReportOf(Placed(0, 1, NORTH)) == "0,1,NORTH"
  {
    SmallNumbers();
  }

  lemma ReportsZeroZeroWest()
    ensures ReportOf(Placed(0, 0, WEST)) == "0,0,WEST"
  {
    SmallNumbers();
  }

  lemma ReportsThreeThreeNorth()
    ensures ReportOf(Placed(3, 3, NORTH)) == "3,3,NORTH"
  {
    SmallNumbers();
  }

  lemma ReportsZeroFourNorth()
    ensures ReportOf(Placed(0, 4, NORTH)) == "0,4,NORTH"
  {
    SmallNumbers();
  }

  lemma IgnoredMoveText()
    ensures IgnoredMessage("MOVE") == "Command 'MOVE' ignored: Robot not placed."
  {
  }

  lemma IgnoredReportText()
    ensures IgnoredMessage("REPORT") == "Command 'REPORT' ignored: Robot not placed."
  {
  }

  lemma OffTableText()
    ensures CoordinatesMessage("5", "5") == "PLACE command ignored: Invalid coordinates (5,5) or off table."
  {
  }

  // ---------------------------------------------------------------- the scenarios

  // Each scenario lemma takes its input as a parameter `lines` pinned by
  // `requires lines == SCENARIOn` rather than naming the constant in its body: the
  // solver then works on the parameter and unfolds the constant's elements only
  // where a step needs them, which keeps these proofs cheap.

  const SCENARIO1: seq<string> := ["PLACE 0,0,NORTH", "MOVE", "REPORT"]
  const SCENARIO1_STATES: seq<State> := [UNPLACED, Placed(0, 0, NORTH), Placed(0, 1, NORTH), Placed(0, 1, NORTH)]
  const SCENARIO1_ANSWERS: seq<Option<string>> := [None, None, Some("0,1,NORTH")]

  /** How scenario 1 goes, line by line. */
  lemma Scenario1Traced(lines: seq<string>)
    requires lines == SCENARIO1
    ensures Traces(UNPLACED, lines, SCENARIO1_STATES, SCENARIO1_ANSWERS)
  {
    var states, outs := SCENARIO1_STATES, SCENARIO1_ANSWERS;
    forall k | 0 <= k < |lines| ensures StepsTo(states[k], lines[k], states[k + 1], outs[k]) {
      if k == 0 {
        SmallNumbers();
        PlaceStep(states[k], lines[k], states[k + 1], 0, 0, NORTH);
      } else if k == 1 {
        MoveStep(states[k], lines[k], states[k + 1]);
      } else {
        ReportsZeroOneNorth();
        ReportStep(states[k], lines[k], states[k + 1], outs[k], "0,1,NORTH");
      }
    }
  }

  /** Where scenario 1 ends and what it prints, answer by answer. */
  lemma Scenario1Runs(lines: seq<string>)
    requires lines == SCENARIO1
    ensures Run(UNPLACED, lines) == (Placed(0, 1, NORTH), Collected(SCENARIO1_ANSWERS, 3))
  {
    Scenario1Traced(lines);
    RunFollowsTrace(UNPLACED, lines, SCENARIO1_STATES, SCENARIO1_ANSWERS);
  }

  /** The answers of scenario 1, collected. */
  lemma Scenario1Prints()
    ensures Collected(SCENARIO1_ANSWERS, 3) == ["0,1,NORTH"]
  {
  }

  /** `PLACE 0,0,NORTH`, `MOVE`, `REPORT` reports `0,1,NORTH`. */
  lemma Scenario1(lines: seq<string>)
    requires lines == SCENARIO1
    ensures Run(UNPLACED, lines).1 == ["0,1,NORTH"]
  {
    Scenario1Runs(lines);
    Scenario1Prints();
  }

  const SCENARIO2: seq<string> := ["PLACE 0,0,NORTH", "LEFT", "REPORT"]
  const SCENARIO2_STATES: seq<State> := [UNPLACED, Placed(0, 0, NORTH), Placed(0, 0, WEST), Placed(0, 0, WEST)]
  const SCENARIO2_ANSWERS: seq<Option<string>> := [None, None, Some("0,0,WEST")]

  /** How scenario 2 goes, line by line. */
  lemma Scenario2Traced(lines: seq<string>)
    requires lines == SCENARIO2
    ensures Traces(UNPLACED, lines, SCENARIO2_STATES, SCENARIO2_ANSWERS)
  {
    var states, outs := SCENARIO2_STATES, SCENARIO2_ANSWERS;
    forall k | 0 <= k < |lines| ensures StepsTo(states[k], lines[k], states[k + 1], outs[k]) {
      if k == 0 {
        SmallNumbers();
        PlaceStep(states[k], lines[k], states[k + 1], 0, 0, NORTH);
      } else if k == 1 {
        LeftStep(states[k], lines[k], states[k + 1]);
      } else {
        ReportsZeroZeroWest();
        ReportStep(states[k], lines[k], states[k + 1], outs[k], "0,0,WEST");
      }
    }
  }

  /** Where scenario 2 ends and what it prints, answer by answer. */
  lemma Scenario2Runs(lines: seq<string>)
    requires lines == SCENARIO2
    ensures Run(UNPLACED, lines) == (Placed(0, 0, WEST), Collected(SCENARIO2_ANSWERS, 3))
  {
    Scenario2Traced(lines);
    RunFollowsTrace(UNPLACED, lines, SCENARIO2_STATES, SCENARIO2_ANSWERS);
  }

  /** The answers of scenario 2, collected. */
  lemma Scenario2Prints()
    ensures Collected(SCENARIO2_ANSWERS, 3) == ["0,0,WEST"]
  {
  }

  /** `PLACE 0,0,NORTH`, `LEFT`, `REPORT` reports `0,0,WEST`. */
  lemma Scenario2(lines: seq<string>)
    requires lines == SCENARIO2
    ensures Run(UNPLACED, lines).1 == ["0,0,WEST"]
  {
    Scenario2Runs(lines);
    Scenario2Prints();
  }

  const SCENARIO3: seq<string> := ["PLACE 1,2,EAST", "MOVE", "MOVE", "LEFT", "MOVE", "REPORT"]
  const SCENARIO3_STATES: seq<State> := 
    [UNPLACED, Placed(1, 2, EAST), Placed(2, 2, EAST), Placed(3, 2, EAST),
     Placed(3, 2, NORTH), Placed(3, 3, NORTH), Placed(3, 3, NORTH)]
  const SCENARIO3_ANSWERS: seq<Option<string>> := [None, None, None, None, None, Some("3,3,NORTH")]

  /** Scenario 3's PLACE line puts the robot on the table. */
  lemma Scenario3Starts(lines: seq<string>)
    requires lines == SCENARIO3
    ensures StepsTo(SCENARIO3_STATES[0], lines[0], SCENARIO3_STATES[1], SCENARIO3_ANSWERS[0])
  {
    SmallNumbers();
    PlaceStep(SCENARIO3_STATES[0], lines[0], SCENARIO3_STATES[1], 1, 2, EAST);
  }

  /** Scenario 3 after its PLACE line: two moves east, a left turn, a move north, a report. */
  lemma Scenario3Goes(lines: seq<string>)
    requires lines == SCENARIO3
    ensures forall k | 1 <= k < 6 ::
      StepsTo(SCENARIO3_STATES[k], lines[k], SCENARIO3_STATES[k + 1], SCENARIO3_ANSWERS[k])
  {
    var states, outs := SCENARIO3_STATES, SCENARIO3_ANSWERS;
    forall k | 1 <= k < 6 ensures StepsTo(states[k], lines[k], states[k + 1], outs[k]) {
      if k == 3 {
        LeftStep(states[k], lines[k], states[k + 1]);
      } else if k < 5 {
        MoveStep(states[k], lines[k], states[k + 1]);
      } else {
        ReportsThreeThreeNorth();
        ReportStep(states[k], lines[k], states[k + 1], outs[k], "3,3,NORTH");
      }
    }
  }

  /** How scenario 3 goes, line by line. */
  lemma Scenario3Traced(lines: seq<string>)
    requires lines == SCENARIO3
    ensures Traces(UNPLACED, lines, SCENARIO3_STATES, SCENARIO3_ANSWERS)
  {
    Scenario3Starts(lines);
    Scenario3Goes(lines);
  }

  /** Where scenario 3 ends and what it prints, answer by answer. */
  lemma Scenario3Runs(lines: seq<string>)
    requires lines == SCENARIO3
    ensures Run(UNPLACED, lines) == (Placed(3, 3, NORTH), Collected(SCENARIO3_ANSWERS, 6))
  {
    Scenario3Traced(lines);
    RunFollowsTrace(UNPLACED, lines, SCENARIO3_STATES, SCENARIO3_ANSWERS);
  }

  /** The answers of scenario 3, collected. */
  lemma Scenario3Prints()
    ensures Collected(SCENARIO3_ANSWERS, 6) == ["3,3,NORTH"]
  {
  }

  /** `PLACE 1,2,EAST`, `MOVE`, `MOVE`, `LEFT`, `MOVE`, `REPORT` reports `3,3,NORTH`. */
  lemma Scenario3(lines: seq<string>)
    requires lines == SCENARIO3
    ensures Run(UNPLACED, lines).1 == ["3,3,NORTH"]
  {
    Scenario3Runs(lines);
    Scenario3Prints();
  }

  const SCENARIO4: seq<string> := ["MOVE", "REPORT", "PLACE 0,0,NORTH", "MOVE", "MOVE", "MOVE", "MOVE", "MOVE", "REPORT"]

  const SCENARIO4_STATES: seq<State> :=
    [UNPLACED, UNPLACED, UNPLACED, Placed(0, 0, NORTH), Placed(0, 1, NORTH), Placed(0, 2, NORTH),
     Placed(0, 3, NORTH), Placed(0, 4, NORTH), Placed(0, 4, NORTH), Placed(0, 4, NORTH)]
  const SCENARIO4_ANSWERS: seq<Option<string>> :=
    [Some("Command 'MOVE' ignored: Robot not placed."), Some("Command 'REPORT' ignored: Robot not placed."), None, None, None, None, None, None, Some("0,4,NORTH")]

  /** Scenario 4 up to its PLACE line: two notices, then the robot is placed. */
  lemma Scenario4Starts(lines: seq<string>)
    requires lines == SCENARIO4
    ensures forall k | 0 <= k < 3 ::
      StepsTo(SCENARIO4_STATES[k], lines[k], SCENARIO4_STATES[k + 1], SCENARIO4_ANSWERS[k])
  {
    var states, outs := SCENARIO4_STATES, SCENARIO4_ANSWERS;
    forall k | 0 <= k < 3 ensures StepsTo(states[k], lines[k], states[k + 1], outs[k]) {
      if k == 0 {
        IgnoredMoveText();
        IgnoredStep(states[k], lines[k], states[k + 1], outs[k]);
      } else if k == 1 {
        IgnoredReportText();
        IgnoredStep(states[k], lines[k], states[k + 1], outs[k]);
      } else {
        SmallNumbers();
        PlaceStep(states[k], lines[k], states[k + 1], 0, 0, NORTH);
      }
    }
  }

  /** Scenario 4 after its PLACE line: four moves north, one dropped at the edge, a report. */
  lemma Scenario4Goes(lines: seq<string>)
    requires lines == SCENARIO4
    ensures forall k | 3 <= k < 9 ::
      StepsTo(SCENARIO4_STATES[k], lines[k], SCENARIO4_STATES[k + 1], SCENARIO4_ANSWERS[k])
  {
    var states, outs := SCENARIO4_STATES, SCENARIO4_ANSWERS;
    forall k | 3 <= k < 9 ensures StepsTo(states[k], lines[k], states[k + 1], outs[k]) {
      if k < 8 {
        MoveStep(states[k], lines[k], states[k + 1]);
      } else {
        ReportsZeroFourNorth();
        ReportStep(states[k], lines[k], states[k + 1], outs[k], "0,4,NORTH");
      }
    }
  }

  /** How scenario 4 goes, line by line. */
  lemma Scenario4Traced(lines: seq<string>)
    requires lines == SCENARIO4
    ensures Traces(UNPLACED, lines, SCENARIO4_STATES, SCENARIO4_ANSWERS)
  {
    Scenario4Starts(lines);
    Scenario4Goes(lines);
  }

  /** Where scenario 4 ends and what it prints, answer by answer. */
  lemma Scenario4Runs(lines: seq<string>)
    requires lines == SCENARIO4
    ensures Run(UNPLACED, lines) == (Placed(0, 4, NORTH), Collected(SCENARIO4_ANSWERS, 9))
  {
    Scenario4Traced(lines);
    RunFollowsTrace(UNPLACED, lines, SCENARIO4_STATES, SCENARIO4_ANSWERS);
  }

  /** The answers of scenario 4, collected. */
  lemma Scenario4Prints()
    ensures Collected(SCENARIO4_ANSWERS, 9) ==
      ["Command 'MOVE' ignored: Robot not placed.", "Command 'REPORT' ignored: Robot not placed.", "0,4,NORTH"]
  {
  }

  /** MOVE and REPORT before PLACE are each answered with a notice; the fifth MOVE
      north from row 0 would leave the table and is dropped, so REPORT prints
      `0,4,NORTH`. */
  lemma Scenario4(lines: seq<string>)
    requires lines == SCENARIO4
    ensures Run(UNPLACED, lines).1 ==
      ["Command 'MOVE' ignored: Robot not placed.", "Command 'REPORT' ignored: Robot not placed.", "0,4,NORTH"]
  {
    Scenario4Runs(lines);
    Scenario4Prints();
  }

  const SCENARIO5: seq<string> := ["PLACE 5,5,NORTH", "REPORT"]
  const SCENARIO5_STATES: seq<State> := [UNPLACED, UNPLACED, UNPLACED]
  const SCENARIO5_ANSWERS: seq<Option<string>> := [Some("PLACE command ignored: Invalid coordinates (5,5) or off table."), Some("Command 'REPORT' ignored: Robot not placed.")]

  /** How scenario 5 goes, line by line. */
  lemma Scenario5Traced(lines: seq<string>)
    requires lines == SCENARIO5
    ensures Traces(UNPLACED, lines, SCENARIO5_STATES, SCENARIO5_ANSWERS)
  {
    var states, outs := SCENARIO5_STATES, SCENARIO5_ANSWERS;
    forall k | 0 <= k < |lines| ensures StepsTo(states[k], lines[k], states[k + 1], outs[k]) {
      if k == 0 {
        SmallNumbers();
        OffTableText();
        OffTableStep(states[k], lines[k], outs[k], 5, 5, NORTH);
      } else {
        IgnoredReportText();
        IgnoredStep(states[k], lines[k], states[k + 1], outs[k]);
      }
    }
  }

  /** Where scenario 5 ends and what it prints, answer by answer. */
  lemma Scenario5Runs(lines: seq<string>)
    requires lines == SCENARIO5
    ensures Run(UNPLACED, lines) == (UNPLACED, Collected(SCENARIO5_ANSWERS, 2))
  {
    Scenario5Traced(lines);
    RunFollowsTrace(UNPLACED, lines, SCENARIO5_STATES, SCENARIO5_ANSWERS);
  }

  /** The answers of scenario 5, collected. */
  lemma Scenario5Prints()
    ensures Collected(SCENARIO5_ANSWERS, 2) == ["PLACE command ignored: Invalid coordinates (5,5) or off table.", "Command 'REPORT' ignored: Robot not placed."]
  {
  }

  /** `PLACE 5,5,NORTH` is off the table and answered with a notice; the robot stays
      unplaced, so the following REPORT is answered with a notice too: two lines. */
  lemma Scenario5(lines: seq<string>)
    requires lines == SCENARIO5
    ensures Run(UNPLACED, lines).1 == ["PLACE command ignored: Invalid coordinates (5,5) or off table.", "Command 'REPORT' ignored: Robot not placed."]
  {
    Scenario5Runs(lines);
    Scenario5Prints();
  }
}
