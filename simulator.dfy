/**
 * The command interpreter `runCommands`: one robot per run, each input line
 * split into a verb and its arguments, PLACE arguments matched against the
 * PLACE pattern, other verbs dispatched only once the robot is placed, and the
 * reports and notices collected in input order.
 */
module Simulator {
  import opened Wrappers
  import opened JsStrings
  import opened PlacePattern
  import opened Robots

  const FORMAT_PREFIX: string := "PLACE command ignored: Invalid format or missing/incorrect arguments. Expected 'X,Y,DIRECTION'. Input: '"

  /** A PLACE line whose arguments do not match the PLACE pattern. */
  function FormatMessage(line: string): (m: string)
    ensures m != NOT_PLACED
  {
    var m := FORMAT_PREFIX + line + "'";
    assert m[0] == FORMAT_PREFIX[0];
    m
  }

  const IGNORED_PREFIX: string := "Command '"
  const IGNORED_SUFFIX: string := "' ignored: Robot not placed."

  /** A line other than PLACE while the robot is off the table. */
  function IgnoredMessage(line: string): (m: string)
    ensures m != NOT_PLACED
  {
    var m := IGNORED_PREFIX + line + IGNORED_SUFFIX;
    assert m[0] == IGNORED_PREFIX[0];
    m
  }

  const UNKNOWN_PREFIX: string := "Warning: Unknown command '"
  const UNKNOWN_SUFFIX: string := "' was encountered and ignored."

  /** A line whose verb is none of the five, once the robot is placed. */
  function UnknownMessage(line: string): (m: string)
    ensures m != NOT_PLACED
  {
    var m := UNKNOWN_PREFIX + line + UNKNOWN_SUFFIX;
    assert m[0] == UNKNOWN_PREFIX[0];
    m
  }

  /** A line's verb and, when the line has a space, its argument string. */
  datatype Command = Command(verb: string, args: Option<string>)

  /** A line split at its first space character, both halves trimmed. */
  function SplitLine(line: string): (r: Command)
    ensures r.args.None? <==> ' ' !in line
    ensures r.args.Some? ==> ' ' !in r.verb
    ensures r.verb == [] || (!IsWhitespace(r.verb[0]) && !IsWhitespace(r.verb[|r.verb| - 1]))
    ensures r.args.Some? ==>
      r.args.value == [] || (!IsWhitespace(r.args.value[0]) && !IsWhitespace(r.args.value[|r.args.value| - 1]))
  {
    var firstSpaceIndex := IndexOf(line, ' ');
    if firstSpaceIndex != -1 then
      Command(Trim(line[..firstSpaceIndex]), Some(Trim(line[firstSpaceIndex + 1..])))
    else
      Command(Trim(line), None)
  }

  /** The groups of the PLACE pattern in the argument string. A missing or empty
      argument string is falsy in JavaScript and is not searched. */
  function PlaceArguments(args: Option<string>): (r: Option<PlaceArgs>)
    ensures r.None? <==> args.None? || args.value == "" || forall m :: !IsMatch(args.value, m)
  {
    if args.None? || args.value == "" then None
    else
      match FirstMatch(args.value)
      case None => None
      case Some(m) => Some(Groups(args.value, m))
  }

  /** `place` on the groups of the PLACE pattern, the direction upper-cased: the
      robot's new state and the rejection, if there is one, to be reported. */
  function PlaceWith(s: State, a: PlaceArgs): (r: (State, Option<string>))
    requires s.Valid()
    ensures r.0.Valid()
    ensures s.isPlaced ==> r.0.isPlaced
    ensures r.1 != Some(NOT_PLACED)
    ensures r.1.None? <==> CheckPlacement(a.x, a.y, ToUpperCase(a.direction)).Accepted?
    ensures r.1.Some? ==> r.0 == s && r.1.value == CheckPlacement(a.x, a.y, ToUpperCase(a.direction)).message
    ensures r.1.None? ==>
      var p := CheckPlacement(a.x, a.y, ToUpperCase(a.direction));
      r.0 == State(Some(p.x), Some(p.y), Some(p.direction), true)
  {
    var direction := ToUpperCase(a.direction);
    var reply := PlaceReply(CheckPlacement(a.x, a.y, direction));
    (AfterPlace(s, a.x, a.y, direction), if reply != "" then Some(reply) else None)
  }

  /** A PLACE line: a parse failure is reported without calling `place`. */
  function PlaceLine(s: State, line: string, args: Option<string>): (r: (State, Option<string>))
    requires s.Valid()
    ensures r.0.Valid()
    ensures s.isPlaced ==> r.0.isPlaced
    ensures r.1 != Some(NOT_PLACED)
    ensures PlaceArguments(args).None? ==> r == (s, Some(FormatMessage(line)))
    ensures PlaceArguments(args).Some? ==> r == PlaceWith(s, PlaceArguments(args).value)
  {
    match PlaceArguments(args)
    case None => (s, Some(FormatMessage(line)))
    case Some(a) => PlaceWith(s, a)
  }

  /** The arguments found are the groups of the leftmost match of the PLACE pattern. */
  lemma PlaceArgumentsAreLeftmost(args: string)
    ensures PlaceArguments(Some(args)).Some? ==>
      exists m :: IsMatch(args, m) && PlaceArguments(Some(args)).value == Groups(args, m) &&
                  forall m' :: IsMatch(args, m') ==> m.start <= m'.start
  {
    if PlaceArguments(Some(args)).Some? {
      var m := FirstMatch(args).value;
      assert IsMatch(args, m) && PlaceArguments(Some(args)).value == Groups(args, m);
    }
  }

  /** The verbs that may change a placed robot's state. */
  predicate IsMotion(verb: string) {
    verb == "MOVE" || verb == "LEFT" || verb == "RIGHT"
  }

  /** Any other line: ignored while the robot is unplaced, otherwise dispatched on
      its verb, matched case-sensitively. */
  function OtherLine(s: State, line: string, verb: string): (r: (State, Option<string>))
    requires s.Valid()
    ensures r.0.Valid()
    ensures s.isPlaced ==> r.0.isPlaced
    ensures r.1 != Some(NOT_PLACED)
    ensures r.0 != s ==> IsMotion(verb)
    ensures !s.isPlaced ==> r == (s, Some(IgnoredMessage(line)))
    ensures s.isPlaced && IsMotion(verb) ==> r.1 == None
    ensures s.isPlaced && verb == "MOVE" ==> r.0 == AfterMove(s)
    ensures s.isPlaced && verb == "LEFT" ==> r.0 == AfterTurnLeft(s)
    ensures s.isPlaced && verb == "RIGHT" ==> r.0 == AfterTurnRight(s)
    ensures s.isPlaced && verb == "REPORT" ==> r == (s, Some(ReportOf(s)))
    ensures s.isPlaced && !IsMotion(verb) && verb != "REPORT" ==> r == (s, Some(UnknownMessage(line)))
  {
    if !s.isPlaced then
      (s, Some(IgnoredMessage(line)))
    else if verb == "MOVE" then
      (AfterMove(s), None)
    else if verb == "LEFT" then
      (AfterTurnLeft(s), None)
    else if verb == "RIGHT" then
      (AfterTurnRight(s), None)
    else if verb == "REPORT" then
      (s, Some(ReportOf(s)))
    else
      (s, Some(UnknownMessage(line)))
  }

  /** One pass of the loop of `runCommands`: the robot's new state and the line
      it appends, if any. */
  function Step(s: State, line: string): (r: (State, Option<string>))
    requires s.Valid()
    ensures r.0.Valid()
    ensures s.isPlaced ==> r.0.isPlaced
    ensures r.1 != Some(NOT_PLACED)
  {
    var command := SplitLine(line);
    if command.verb == "PLACE" then PlaceLine(s, line, command.args)
    else OtherLine(s, line, command.verb)
  }

  function Lines(o: Option<string>): seq<string> {
    if o.Some? then [o.value] else []
  }

  /** The robot's state and the collected lines after the loop of `runCommands`
      has processed `lines`, starting from the state `s`. */
  function Run(s: State, lines: seq<string>): (r: (State, seq<string>))
    requires s.Valid()
    ensures r.0.Valid()
    ensures s.isPlaced ==> r.0.isPlaced
    ensures |r.1| <= |lines|
    ensures NOT_PLACED !in r.1
    decreases |lines|
  {
    if lines == [] then (s, [])
    else
      var before := Run(s, lines[..|lines| - 1]);
      var step := Step(before.0, lines[|lines| - 1]);
      (step.0, before.1 + Lines(step.1))
  }

  /** The head of the loop of `runCommands`: the verb and, when the line has a
      space, the argument string. */
  method SplitAtFirstSpace(commandLine: string) returns (command: string, args: Option<string>)
    ensures Command(command, args) == SplitLine(commandLine)
  {
    var firstSpaceIndex := IndexOf(commandLine, ' ');
    args := None;
    if firstSpaceIndex != -1 {
      command := Trim(commandLine[..firstSpaceIndex]);
      args := Some(Trim(commandLine[firstSpaceIndex + 1..]));
    } else {
      command := Trim(commandLine);
    }
  }

  /** The PLACE branch of `runCommands`: the argument string matched against the
      PLACE pattern, `place` called on its groups, and the line to collect, if any. */
  method PlaceCommand(robot: Robot, args: Option<string>, commandLine: string) returns (output: Option<string>)
    requires robot.Valid()
    modifies robot
    ensures robot.Valid()
    ensures (robot.Snapshot(), output) == PlaceLine(old(robot.Snapshot()), commandLine, args)
  {
    var placeMatch := if args.Some? && args.value != "" then FirstMatch(args.value) else None;
    if placeMatch.Some? {
      var groups := Groups(args.value, placeMatch.value);
      var direction := ToUpperCase(groups.direction);
      var placeResult := robot.Place(groups.x, groups.y, direction);
      output := if placeResult != "" then Some(placeResult) else None;
    } else {
      output := Some(FormatMessage(commandLine));
    }
  }

  /** The `switch` of `runCommands` on the verb of a line other than PLACE, once
      the robot is placed: the robot's new state and the line to collect, if any. */
  method Dispatch(robot: Robot, command: string, commandLine: string) returns (output: Option<string>)
    requires robot.Valid() && robot.isPlaced
    modifies robot
    ensures robot.Valid()
    ensures (robot.Snapshot(), output) == OtherLine(old(robot.Snapshot()), commandLine, command)
  {
    output := None;
    if command == "MOVE" {
      robot.Move();
    } else if command == "LEFT" {
      robot.TurnLeft();
    } else if command == "RIGHT" {
      robot.TurnRight();
    } else if command == "REPORT" {
      var reportOutput := robot.Report();
      output := Some(reportOutput);
    } else {
      output := Some(UnknownMessage(commandLine));
    }
  }

  /** One more line: the loop's state after `lines[..i + 1]` is one `Step` on from
      its state after `lines[..i]`. */
  lemma RunOneMore(s: State, lines: seq<string>, i: nat)
    requires s.Valid() && i < |lines|
    ensures var before := Run(s, lines[..i]);
            var step := Step(before.0, lines[i]);
            Run(s, lines[..i + 1]) == (step.0, before.1 + Lines(step.1))
  {
    assert lines[..i + 1][..i] == lines[..i];
  }

  /** `runCommands`: a fresh robot, then every line in order. */
  method RunCommands(commands: seq<string>) returns (reports: seq<string>)
    ensures reports == Run(UNPLACED, commands).1
  {
    var robot := new Robot();
    reports := [];
    for i := 0 to |commands|
      invariant robot.Valid()
      invariant Run(UNPLACED, commands[..i]) == (robot.Snapshot(), reports)
    {
      RunOneMore(UNPLACED, commands, i);
      var commandLine := commands[i];
      var command, args := SplitAtFirstSpace(commandLine);
      if command == "PLACE" {
        var output := PlaceCommand(robot, args, commandLine);
        reports := reports + Lines(output);
      } else {
        if !robot.isPlaced {
          reports := reports + [IgnoredMessage(commandLine)];
          continue;
        }
        var output := Dispatch(robot, command, commandLine);
        reports := reports + Lines(output);
      }
    }
    assert commands[..|commands|] == commands;
  }

  // ---------------------------------------------------------------- properties

  /** Regrouping the collected lines. Stated apart so that `RunAppend` does not
      prove a sequence equality in a context holding several unfolded steps. */
  lemma AppendIsAssociative(a: seq<string>, b: seq<string>, c: seq<string>)
    ensures a + b + c == a + (b + c)
  {
  }

  /** The run over `a + b` is the run over `a` followed by the run over `b` from
      where `a` left the robot: the output of each line comes after the output of
      every line before it. */
  lemma {:induction false} RunAppend(s: State, a: seq<string>, b: seq<string>)
    requires s.Valid()
    ensures Run(s, a + b) == (Run(Run(s, a).0, b).0, Run(s, a).1 + Run(Run(s, a).0, b).1)
    decreases |b|
  {
    var left := Run(s, a);
    if b == [] {
      assert a + b == a;
      assert Run(left.0, b) == (left.0, []);
      assert left.1 + [] == left.1;
    } else {
      var front := b[..|b| - 1];
      var last := b[|b| - 1];
      assert (a + b)[..|a + b| - 1] == a + front;
      assert (a + b)[|a + b| - 1] == last;
      RunAppend(s, a, front);
      var middle := Run(left.0, front);
      var whole := Run(s, a + front);
      assert whole.0 == middle.0 && whole.1 == left.1 + middle.1;
      var step := Step(middle.0, last);
      assert Run(s, a + b) == (step.0, whole.1 + Lines(step.1));
      assert Run(left.0, b) == (step.0, middle.1 + Lines(step.1));
      AppendIsAssociative(left.1, middle.1, Lines(step.1));
    }
  }

  /** The notice for each of `lines`, in order. */
  function IgnoredMessages(lines: seq<string>): (r: seq<string>)
    ensures |r| == |lines|
    ensures forall k :: 0 <= k < |lines| ==> r[k] == IgnoredMessage(lines[k])
  {
    if lines == [] then []
    else IgnoredMessages(lines[..|lines| - 1]) + [IgnoredMessage(lines[|lines| - 1])]
  }

  /** A line other than PLACE, while the robot is off the table, is answered with
      its notice and changes nothing. */
  lemma IgnoredLine(line: string)
    requires SplitLine(line).verb != "PLACE"
    ensures Step(UNPLACED, line) == (UNPLACED, Some(IgnoredMessage(line)))
  {
  }

  /** Until a PLACE line comes, every line is answered with its own notice and the
      robot stays off the table. */
  lemma {:induction false} IgnoredUntilPlaced(lines: seq<string>)
    requires forall line | line in lines :: SplitLine(line).verb != "PLACE"
    ensures Run(UNPLACED, lines) == (UNPLACED, IgnoredMessages(lines))
    decreases |lines|
  {
    if lines != [] {
      var front := lines[..|lines| - 1];
      var last := lines[|lines| - 1];
      assert Run(UNPLACED, front) == (UNPLACED, IgnoredMessages(front)) by {
        forall line | line in front
          ensures SplitLine(line).verb != "PLACE"
        {
          assert line in lines;
        }
        IgnoredUntilPlaced(front);
      }
      assert Step(UNPLACED, last) == (UNPLACED, Some(IgnoredMessage(last))) by {
        assert last in lines;
        IgnoredLine(last);
      }
    }
  }

  /** Whitespace other than the space character, such as a tab or a carriage return. */
  predicate IsPadding(p: string) {
    forall k :: 0 <= k < |p| ==> IsWhitespace(p[k]) && p[k] != ' '
  }

  /** A word padded with whitespace other than spaces is a verb without arguments:
      the padding is trimmed away. */
  lemma SplitBareWord(a: string, w: string, b: string)
    requires IsPadding(a) && IsPadding(b) && NoWhitespace(w)
    ensures SplitLine(a + w + b) == Command(w, None)
  {
    var line := a + w + b;
    forall k | 0 <= k < |line|
      ensures line[k] != ' '
    {
      if k < |a| {
        assert line[k] == a[k];
      } else if k < |a| + |w| {
        assert line[k] == w[k - |a|];
        assert IsWhitespace(' ');
      } else {
        assert line[k] == b[k - |a| - |w|];
      }
    }
    assert ' ' !in line;
    TrimPadded(a, w, b);
  }

  /** A verb other than PLACE, alone on its line but for padding, is dispatched on
      itself; the notices still quote the line as written. */
  lemma PaddedVerbStep(s: State, a: string, verb: string, b: string)
    requires s.Valid() && IsPadding(a) && IsPadding(b) && NoWhitespace(verb) && verb != "PLACE"
    ensures Step(s, a + verb + b) == OtherLine(s, a + verb + b, verb)
  {
    SplitBareWord(a, verb, b);
  }

  /** A verb other than PLACE, alone on its line, is dispatched on itself. */
  lemma BareVerbStep(s: State, verb: string)
    requires s.Valid() && NoWhitespace(verb) && verb != "PLACE"
    ensures Step(s, verb) == OtherLine(s, verb, verb)
  {
    PaddedVerbStep(s, [], verb, []);
    assert [] + verb + [] == verb;
  }

  /** PLACE with no arguments is a format error and leaves the robot where it is. */
  lemma PlaceWithoutArguments(s: State)
    requires s.Valid()
    ensures Step(s, "PLACE") == (s, Some(FormatMessage("PLACE")))
  {
    assert NoWhitespace("PLACE");
    SplitBareWord([], "PLACE", []);
    assert [] + "PLACE" + [] == "PLACE";
  }

  /** A line is split at its first space: the verb is the trimmed text before it and
      the argument string the trimmed text after it, spaces and all. */
  lemma SplitAtSpace(v: string, rest: string)
    requires ' ' !in v
    ensures SplitLine(v + " " + rest) == Command(Trim(v), Some(Trim(rest)))
  {
    var line := v + " " + rest;
    var i := IndexOf(line, ' ');
    assert line[..|v|] == v && line[|v|] == ' ';
    assert i == |v|;
    assert line[..i] == v && line[i + 1..] == rest;
  }

  /** `PLACE` and its arguments, separated by one space; the arguments may hold
      spaces, but neither start nor end with whitespace. */
  lemma SplitPlaceLine(args: string)
    requires args == [] || (!IsWhitespace(args[0]) && !IsWhitespace(args[|args| - 1]))
    ensures SplitLine("PLACE " + args) == Command("PLACE", Some(args))
  {
    var line := "PLACE " + args;
    assert line[..5] == "PLACE" && line[5] == ' ' && line[6..] == args;
    assert IndexOf(line, ' ') == 5;
    assert NoWhitespace("PLACE");
    TrimKeeps("PLACE");
    TrimKeeps(args);
  }

  /** The arguments `x,y,t` of a PLACE line, with the direction written as `t`. */
  function SpelledArgs(x: int, y: int, t: string): string {
    IntToString(x) + "," + IntToString(y) + "," + t
  }

  /** The arguments `x,y,DIRECTION` of a PLACE line written out from a position
      and a direction. */
  function PlaceArgsText(x: int, y: int, d: Direction): string {
    SpelledArgs(x, y, Name(d))
  }

  /** A PLACE line's arguments, the direction written in letters, hold no whitespace. */
  lemma SpelledArgsHaveNoWhitespace(x: int, y: int, t: string)
    requires |t| >= 1 && forall k :: 0 <= k < |t| ==> IsAsciiLetter(t[k])
    ensures |SpelledArgs(x, y, t)| >= 1 && NoWhitespace(SpelledArgs(x, y, t))
  {
    var xs := IntToString(x);
    var ys := IntToString(y);
    IntToStringIsSignedInteger(x);
    IntToStringIsSignedInteger(y);
    SignedIntegerHasNoWhitespace(xs);
    SignedIntegerHasNoWhitespace(ys);
    assert NoWhitespace(",");
    assert NoWhitespace(t);
    NoWhitespaceAppend(xs, ",");
    NoWhitespaceAppend(xs + ",", ys);
    NoWhitespaceAppend(xs + "," + ys, ",");
    NoWhitespaceAppend(xs + "," + ys + ",", t);
  }

  /** The three parts of a PLACE line written out from a position and a direction,
      the direction's name in any mix of upper and lower case: `place` parses the
      numbers back, and the upper-cased name back to the direction. */
  lemma ReadPlaceParts(x: int, y: int, t: string, d: Direction)
    requires CaseVariant(t, Name(d))
    ensures ToUpperCase(t) == Name(d)
    ensures ParseInt(IntToString(x)) == Some(x) && ParseInt(IntToString(y)) == Some(y)
    ensures DirectionNamed(Name(d)) == Some(d)
  {
    NameIsUpperCaseLetters(d);
    ToUpperCaseOfVariant(t, Name(d));
    ParseIntOfIntToString(x, []);
    ParseIntOfIntToString(y, []);
    assert IntToString(x) + [] == IntToString(x) && IntToString(y) + [] == IntToString(y);
    NamesAreRecognised(d);
  }

  /** How the interpreter reads a PLACE line written out from a position and a
      direction, the direction's name in any mix of upper and lower case: the
      pattern gives back the three parts, the name is upper-cased, and `place`
      parses them to the values they were written from. */
  lemma ReadPlaceLine(x: int, y: int, t: string, d: Direction)
    requires CaseVariant(t, Name(d))
    ensures SplitLine("PLACE " + SpelledArgs(x, y, t)) == Command("PLACE", Some(SpelledArgs(x, y, t)))
    ensures PlaceArguments(Some(SpelledArgs(x, y, t))) ==
      Some(PlaceArgs(IntToString(x), IntToString(y), t))
    ensures ToUpperCase(t) == Name(d)
    ensures ParseInt(IntToString(x)) == Some(x) && ParseInt(IntToString(y)) == Some(y)
    ensures DirectionNamed(Name(d)) == Some(d)
  {
    NameIsUpperCaseLetters(d);
    assert |t| >= 1 && forall k :: 0 <= k < |t| ==> IsAsciiLetter(t[k]);
    SpelledArgsHaveNoWhitespace(x, y, t);
    SplitPlaceLine(SpelledArgs(x, y, t));
    IntToStringIsSignedInteger(x);
    IntToStringIsSignedInteger(y);
    WrittenArgumentsMatch(IntToString(x), IntToString(y), t);
    ReadPlaceParts(x, y, t, d);
  }

  /** A PLACE line on the table, its direction in any mix of upper and lower case,
      puts the robot exactly there facing that direction, from any state, and adds
      nothing to the output. */
  lemma PlaceLineInAnyCase(s: State, x: int, y: int, t: string, d: Direction)
    requires s.Valid() && IsValidPosition(x, y) && CaseVariant(t, Name(d))
    ensures Step(s, "PLACE " + SpelledArgs(x, y, t)) == (State(Some(x), Some(y), Some(d), true), None)
  {
    ReadPlaceLine(x, y, t, d);
  }

  /** How the interpreter reads a PLACE line whose arguments have whitespace,
      spaces included, around their commas: the split at the first space keeps the
      whole argument string, and the pattern gives back the three parts. */
  lemma ReadSpacedPlaceLine(x: int, y: int, a: string, b: string, c: string, e: string, t: string, d: Direction)
    requires AllWhitespaceIn(a, 0, |a|) && AllWhitespaceIn(b, 0, |b|)
    requires AllWhitespaceIn(c, 0, |c|) && AllWhitespaceIn(e, 0, |e|)
    requires CaseVariant(t, Name(d))
    ensures var args := PaddedArgs(IntToString(x), a, b, IntToString(y), c, e, t);
      SplitLine("PLACE " + args) == Command("PLACE", Some(args)) &&
      PlaceArguments(Some(args)) == Some(PlaceArgs(IntToString(x), IntToString(y), t))
  {
    var xs, ys := IntToString(x), IntToString(y);
    var args := PaddedArgs(xs, a, b, ys, c, e, t);
    NameIsUpperCaseLetters(d);
    assert |t| >= 1 && forall k :: 0 <= k < |t| ==> IsAsciiLetter(t[k]);
    IntToStringIsSignedInteger(x);
    IntToStringIsSignedInteger(y);
    PaddedArgumentsMatch(xs, a, b, ys, c, e, t);
    PaddedArgsAreTrimmed(xs, a, b, ys, c, e, t);
    SplitPlaceLine(args);
  }

  /** A PLACE line on the table, with whitespace around its commas and the
      direction in any case, puts the robot exactly there from any state. */
  lemma PlaceSpacedLine(s: State, x: int, y: int, a: string, b: string, c: string, e: string, t: string, d: Direction)
    requires s.Valid() && IsValidPosition(x, y)
    requires AllWhitespaceIn(a, 0, |a|) && AllWhitespaceIn(b, 0, |b|)
    requires AllWhitespaceIn(c, 0, |c|) && AllWhitespaceIn(e, 0, |e|)
    requires CaseVariant(t, Name(d))
    ensures Step(s, "PLACE " + PaddedArgs(IntToString(x), a, b, IntToString(y), c, e, t)) ==
      (State(Some(x), Some(y), Some(d), true), None)
  {
    ReadSpacedPlaceLine(x, y, a, b, c, e, t, d);
    ReadPlaceParts(x, y, t, d);
  }

  /** A PLACE line on the table puts the robot exactly there, from any state, and
      adds nothing to the output. */
  lemma PlaceLineOnTable(s: State, x: int, y: int, d: Direction)
    requires s.Valid() && IsValidPosition(x, y)
    ensures Step(s, "PLACE " + PlaceArgsText(x, y, d)) == (State(Some(x), Some(y), Some(d), true), None)
  {
    ReadPlaceLine(x, y, Name(d), d);
  }

  /** A PLACE line off the table leaves the robot as it was, placed or not, and is
      answered with the coordinates notice. */
  lemma PlaceLineOffTable(s: State, x: int, y: int, d: Direction)
    requires s.Valid() && !IsValidPosition(x, y)
    ensures Step(s, "PLACE " + PlaceArgsText(x, y, d)) ==
      (s, Some(CoordinatesMessage(IntToString(x), IntToString(y))))
  {
    ReadPlaceLine(x, y, Name(d), d);
  }

  /** What `report` prints, handed back to PLACE, puts a robot in any state into
      exactly the reported state. */
  lemma ReportCanBePlacedAgain(s: State, t: State)
    requires s.Valid() && s.isPlaced && t.Valid()
    ensures Step(t, "PLACE " + ReportOf(s)) == (s, None)
  {
    assert ReportOf(s) == PlaceArgsText(s.x.value, s.y.value, s.direction.value);
    PlaceLineOnTable(t, s.x.value, s.y.value, s.direction.value);
  }
}
