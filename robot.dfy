/**
 * The robot state machine: the 5x5 table, the clockwise direction cycle, the
 * robot's state as a value with its invariant, each transition as a function
 * of that value, and the class `Robot` whose methods update its fields in
 * place and are proved against those functions.
 */
module Robots {
  import opened Wrappers
  import opened JsStrings

  const TABLE_WIDTH: int := 5
  const TABLE_HEIGHT: int := 5

  /** The four compass directions. */
  datatype Direction = NORTH | EAST | SOUTH | WEST

  /** Clockwise: a right turn moves one place along this sequence, a left turn one place back. */
  const DIRECTIONS: seq<Direction> := [NORTH, EAST, SOUTH, WEST]

  /** The name of a direction: what `place` accepts and `report` prints. */
  function Name(d: Direction): string {
    match d
    case NORTH => "NORTH"
    case EAST => "EAST"
    case SOUTH => "SOUTH"
    case WEST => "WEST"
  }

  /** `DIRECTIONS.includes(t)`: the direction whose name is exactly `t`, if any. */
  function DirectionNamed(t: string): (r: Option<Direction>)
    ensures r.Some? ==> Name(r.value) == t
    ensures r.None? ==> forall d: Direction :: Name(d) != t
  {
    if t == "NORTH" then Some(NORTH)
    else if t == "EAST" then Some(EAST)
    else if t == "SOUTH" then Some(SOUTH)
    else if t == "WEST" then Some(WEST)
    else None
  }

  /** Each name is recognised as its own direction. */
  lemma NamesAreRecognised(d: Direction)
    ensures DirectionNamed(Name(d)) == Some(d)
  {
  }

  /** Every name is a non-empty run of upper-case ASCII letters. */
  lemma NameIsUpperCaseLetters(d: Direction)
    ensures |Name(d)| >= 1
    ensures forall k :: 0 <= k < |Name(d)| ==> 'A' <= Name(d)[k] <= 'Z'
  {
  }

  /** What `report` answers before any successful placement. */
  const NOT_PLACED: string := "Robot not placed."

  /** The cell (x, y) lies on the table; (0, 0) is its south-west corner. */
  predicate IsValidPosition(x: int, y: int) {
    0 <= x < TABLE_WIDTH && 0 <= y < TABLE_HEIGHT
  }

  /** The four fields of a robot; `None` stands for JavaScript's `null`. */
  datatype State = State(x: Option<int>, y: Option<int>, direction: Option<Direction>, isPlaced: bool)
  {
    /** A placed robot is on the table facing a direction; an unplaced one has
        every field unset. */
    predicate Valid() {
      if isPlaced then x.Some? && y.Some? && direction.Some? && IsValidPosition(x.value, y.value)
      else x.None? && y.None? && direction.None?
    }
  }

  /** A new robot: off the table. */
  const UNPLACED: State := State(None, None, None, false)

  function Abs(n: int): nat {
    if n < 0 then -n else n
  }

  // ---------------------------------------------------------------- place

  const COORDINATES_PREFIX: string := "PLACE command ignored: Invalid coordinates ("
  const COORDINATES_SUFFIX: string := ") or off table."
  const DIRECTION_PREFIX: string := "PLACE command ignored: Invalid direction '"

  /** `place` refusing coordinates that are not integers or are off the table. */
  function CoordinatesMessage(xs: string, ys: string): (m: string)
    ensures |m| > 0 && m != NOT_PLACED
  {
    var m := COORDINATES_PREFIX + xs + "," + ys + COORDINATES_SUFFIX;
    assert m[0] == COORDINATES_PREFIX[0];
    m
  }

  /** `place` refusing a direction that is not one of the four names. */
  function DirectionMessage(d: string): (m: string)
    ensures |m| > 0 && m != NOT_PLACED
  {
    var m := DIRECTION_PREFIX + d + "'.";
    assert m[0] == DIRECTION_PREFIX[0];
    m
  }

  /** Both coordinates parse as integers and name a cell of the table. */
  predicate CoordinatesOnTable(xs: string, ys: string) {
    ParseInt(xs).Some? && ParseInt(ys).Some? && IsValidPosition(ParseInt(xs).value, ParseInt(ys).value)
  }

  /** The verdict of `place` on its three arguments. */
  datatype Placement = Accepted(x: int, y: int, direction: Direction) | Rejected(message: string)

  /** The checks `place` makes, coordinates first, then the direction. */
  function CheckPlacement(xs: string, ys: string, d: string): (r: Placement)
    ensures r.Accepted? <==> CoordinatesOnTable(xs, ys) && DirectionNamed(d).Some?
    ensures r.Accepted? ==>
      ParseInt(xs) == Some(r.x) && ParseInt(ys) == Some(r.y) && Name(r.direction) == d &&
      IsValidPosition(r.x, r.y)
    ensures r.Rejected? ==> |r.message| > 0 && r.message != NOT_PLACED
    ensures !CoordinatesOnTable(xs, ys) ==> r == Rejected(CoordinatesMessage(xs, ys))
    ensures CoordinatesOnTable(xs, ys) && DirectionNamed(d).None? ==> r == Rejected(DirectionMessage(d))
  {
    var parsedX := ParseInt(xs);
    var parsedY := ParseInt(ys);
    if parsedX.None? || parsedY.None? || !IsValidPosition(parsedX.value, parsedY.value) then
      Rejected(CoordinatesMessage(xs, ys))
    else
      match DirectionNamed(d)
      case None => Rejected(DirectionMessage(d))
      case Some(direction) => Accepted(parsedX.value, parsedY.value, direction)
  }

  /** What `place` returns: the empty string on success, the rejection otherwise. */
  function PlaceReply(p: Placement): string {
    match p
    case Accepted(_, _, _) => ""
    case Rejected(message) => message
  }

  /** The state after `place(xs, ys, d)`: all four fields committed at once, or none. */
  function AfterPlace(s: State, xs: string, ys: string, d: string): (r: State)
    requires s.Valid()
    ensures r.Valid()
    ensures PlaceReply(CheckPlacement(xs, ys, d)) != "" ==> r == s
    ensures PlaceReply(CheckPlacement(xs, ys, d)) == "" ==>
      r.isPlaced && r.x == ParseInt(xs) && r.y == ParseInt(ys) && r.direction == DirectionNamed(d)
  {
    match CheckPlacement(xs, ys, d)
    case Accepted(x, y, direction) => State(Some(x), Some(y), Some(direction), true)
    case Rejected(_) => s
  }

  // ---------------------------------------------------------------- move

  /** The cell one step ahead of (x, y) facing `d`. */
  function Ahead(x: int, y: int, d: Direction): (r: (int, int))
    ensures Abs(r.0 - x) + Abs(r.1 - y) == 1
  {
    match d
    case NORTH => (x, y + 1)
    case EAST => (x + 1, y)
    case SOUTH => (x, y - 1)
    case WEST => (x - 1, y)
  }

  /** The state after `move`. */
  function AfterMove(s: State): (r: State)
    requires s.Valid()
    ensures r.Valid()
    ensures r.isPlaced == s.isPlaced && r.direction == s.direction
    ensures !s.isPlaced ==> r == s
    ensures s.isPlaced ==>
      (r == s <==> !IsValidPosition(Ahead(s.x.value, s.y.value, s.direction.value).0,
                                    Ahead(s.x.value, s.y.value, s.direction.value).1))
    ensures r != s ==> Abs(r.x.value - s.x.value) + Abs(r.y.value - s.y.value) == 1
  {
    if !s.isPlaced then s
    else
      var (newX, newY) := Ahead(s.x.value, s.y.value, s.direction.value);
      if IsValidPosition(newX, newY) then s.(x := Some(newX), y := Some(newY)) else s
  }

  // ---------------------------------------------------------------- turns

  /** A quarter turn counter-clockwise from `d`, by the index arithmetic of `turnLeft`. */
  function LeftOf(d: Direction): (r: Direction)
    ensures r != d
  {
    var currentIndex := IndexOf(DIRECTIONS, d);
    DIRECTIONS[(currentIndex - 1 + |DIRECTIONS|) % |DIRECTIONS|]
  }

  /** A quarter turn clockwise from `d`, by the index arithmetic of `turnRight`. */
  function RightOf(d: Direction): (r: Direction)
    ensures r != d
  {
    var currentIndex := IndexOf(DIRECTIONS, d);
    DIRECTIONS[(currentIndex + 1) % |DIRECTIONS|]
  }

  /** The state after `turnLeft`. */
  function AfterTurnLeft(s: State): (r: State)
    requires s.Valid()
    ensures r.Valid()
    ensures r.x == s.x && r.y == s.y && r.isPlaced == s.isPlaced
    ensures !s.isPlaced ==> r == s
    ensures s.isPlaced ==> r.direction != s.direction
  {
    if !s.isPlaced then s else s.(direction := Some(LeftOf(s.direction.value)))
  }

  /** The state after `turnRight`. */
  function AfterTurnRight(s: State): (r: State)
    requires s.Valid()
    ensures r.Valid()
    ensures r.x == s.x && r.y == s.y && r.isPlaced == s.isPlaced
    ensures !s.isPlaced ==> r == s
    ensures s.isPlaced ==> r.direction != s.direction
  {
    if !s.isPlaced then s else s.(direction := Some(RightOf(s.direction.value)))
  }

  // ---------------------------------------------------------------- report

  /** What `report` returns. */
  function ReportOf(s: State): (r: string)
    requires s.Valid()
    ensures r == NOT_PLACED <==> !s.isPlaced
  {
    if !s.isPlaced then NOT_PLACED
    else
      var r := IntToString(s.x.value) + "," + IntToString(s.y.value) + "," + Name(s.direction.value);
      assert r[0] == IntToString(s.x.value)[0];
      r
  }

  // ---------------------------------------------------------------- properties

  /** Where each direction sits in the cycle. */
  lemma DirectionIndices()
    ensures IndexOf(DIRECTIONS, NORTH) == 0 && IndexOf(DIRECTIONS, EAST) == 1
    ensures IndexOf(DIRECTIONS, SOUTH) == 2 && IndexOf(DIRECTIONS, WEST) == 3
  {
    assert DIRECTIONS[0] == NORTH && NORTH !in DIRECTIONS[..0];
    assert DIRECTIONS[1] == EAST && EAST !in DIRECTIONS[..1];
    assert DIRECTIONS[2] == SOUTH && SOUTH !in DIRECTIONS[..2];
    assert DIRECTIONS[3] == WEST && WEST !in DIRECTIONS[..3];
  }

  /** The index arithmetic of the turns walks the compass: a right turn goes
      NORTH, EAST, SOUTH, WEST and back to NORTH, a left turn the other way. */
  lemma TurnsFollowTheCompass()
    ensures RightOf(NORTH) == EAST && RightOf(EAST) == SOUTH
    ensures RightOf(SOUTH) == WEST && RightOf(WEST) == NORTH
    ensures LeftOf(NORTH) == WEST && LeftOf(WEST) == SOUTH
    ensures LeftOf(SOUTH) == EAST && LeftOf(EAST) == NORTH
  {
    DirectionIndices();
  }

  /** A left turn and a right turn cancel out, in either order. */
  lemma TurnsCancel(s: State)
    requires s.Valid()
    ensures AfterTurnRight(AfterTurnLeft(s)) == s
    ensures AfterTurnLeft(AfterTurnRight(s)) == s
  {
    if s.isPlaced {
      var d := s.direction.value;
      TurnsFollowTheCompass();
      assert RightOf(LeftOf(d)) == d && LeftOf(RightOf(d)) == d by {
        match d
        case NORTH =>
        case EAST =>
        case SOUTH =>
        case WEST =>
      }
    }
  }

  /** Four left turns, or four right turns, face the robot the way it started. */
  lemma FourTurnsRestore(s: State)
    requires s.Valid()
    ensures AfterTurnLeft(AfterTurnLeft(AfterTurnLeft(AfterTurnLeft(s)))) == s
    ensures AfterTurnRight(AfterTurnRight(AfterTurnRight(AfterTurnRight(s)))) == s
  {
    if s.isPlaced {
      var d := s.direction.value;
      TurnsFollowTheCompass();
      assert LeftOf(LeftOf(LeftOf(LeftOf(d)))) == d by {
        match d
        case NORTH =>
        case EAST =>
        case SOUTH =>
        case WEST =>
      }
      assert RightOf(RightOf(RightOf(RightOf(d)))) == d by {
        match d
        case NORTH =>
        case EAST =>
        case SOUTH =>
        case WEST =>
      }
    }
  }

  /** The direction opposite `d`. */
  function Opposite(d: Direction): Direction {
    match d
    case NORTH => SOUTH
    case EAST => WEST
    case SOUTH => NORTH
    case WEST => EAST
  }

  /** Turning about: two quarter turns. */
  function TurnAbout(s: State): (r: State)
    requires s.Valid()
    ensures r.Valid()
    ensures !s.isPlaced ==> r == s
    ensures s.isPlaced ==> r == s.(direction := Some(Opposite(s.direction.value)))
  {
    if s.isPlaced then RightTwiceIsOpposite(s.direction.value); AfterTurnRight(AfterTurnRight(s))
    else AfterTurnRight(AfterTurnRight(s))
  }

  /** Two right turns face the opposite way. */
  lemma RightTwiceIsOpposite(d: Direction)
    ensures RightOf(RightOf(d)) == Opposite(d)
  {
    TurnsFollowTheCompass();
    match d
    case NORTH =>
    case EAST =>
    case SOUTH =>
    case WEST =>
  }

  /** A move that happened is undone by turning about, moving, and turning about again. */
  lemma MoveIsReversible(s: State)
    requires s.Valid() && AfterMove(s) != s
    ensures TurnAbout(AfterMove(TurnAbout(AfterMove(s)))) == s
  {
    var d := s.direction.value;
    var p := Ahead(s.x.value, s.y.value, d);
    assert Ahead(p.0, p.1, Opposite(d)) == (s.x.value, s.y.value);
    var m := AfterMove(s);
    assert m == s.(x := Some(p.0), y := Some(p.1));
    var back := AfterMove(TurnAbout(m));
    assert back == s.(direction := Some(Opposite(d)));
    assert Opposite(Opposite(d)) == d;
  }

  /** How many moves a placed robot can still make before it reaches the edge it faces. */
  function RoomAhead(s: State): nat
    requires s.Valid() && s.isPlaced
  {
    match s.direction.value
    case NORTH => TABLE_HEIGHT - 1 - s.y.value
    case EAST => TABLE_WIDTH - 1 - s.x.value
    case SOUTH => s.y.value
    case WEST => s.x.value
  }

  /** One move uses up one unit of room, and is refused exactly when there is none. */
  lemma MoveUsesRoom(s: State)
    requires s.Valid() && s.isPlaced
    ensures AfterMove(s) == s <==> RoomAhead(s) == 0
    ensures RoomAhead(AfterMove(s)) == if RoomAhead(s) == 0 then 0 else RoomAhead(s) - 1
  {
  }

  /** The state after `n` moves. */
  function Moves(s: State, n: nat): (r: State)
    requires s.Valid()
    ensures r.Valid() && r.isPlaced == s.isPlaced && r.direction == s.direction
  {
    if n == 0 then s else AfterMove(Moves(s, n - 1))
  }

  /** `n` moves use up `n` units of room, or all there was. */
  lemma {:induction false} MovesUseRoom(s: State, n: nat)
    requires s.Valid() && s.isPlaced
    ensures RoomAhead(Moves(s, n)) == if n <= RoomAhead(s) then RoomAhead(s) - n else 0
  {
    if n > 0 {
      MovesUseRoom(s, n - 1);
      MoveUsesRoom(Moves(s, n - 1));
    }
  }

  /** However a robot is placed, after four moves it stands at the edge it faces and
      every further move is refused: the robot never falls off the table. */
  lemma MovesStopAtTheEdge(s: State)
    requires s.Valid()
    ensures AfterMove(Moves(s, TABLE_WIDTH - 1)) == Moves(s, TABLE_WIDTH - 1)
  {
    if s.isPlaced {
      MovesUseRoom(s, TABLE_WIDTH - 1);
      MoveUsesRoom(Moves(s, TABLE_WIDTH - 1));
    }
  }

  /** A coordinate on the table prints as one digit. */
  lemma SmallIntToString(n: int)
    requires 0 <= n < 10
    ensures IntToString(n) == [DigitChar(n)]
  {
  }

  /** Two placed robots that report the same text are in the same state. */
  lemma ReportIdentifiesState(s1: State, s2: State)
    requires s1.Valid() && s2.Valid() && s1.isPlaced && s2.isPlaced
    requires ReportOf(s1) == ReportOf(s2)
    ensures s1 == s2
  {
    SmallIntToString(s1.x.value);
    SmallIntToString(s1.y.value);
    SmallIntToString(s2.x.value);
    SmallIntToString(s2.y.value);
    var r := ReportOf(s1);
    assert DigitValue(r[0]) == s1.x.value == s2.x.value;
    assert DigitValue(r[2]) == s1.y.value == s2.y.value;
    assert r[4..] == Name(s1.direction.value) == Name(s2.direction.value);
    NamesAreRecognised(s1.direction.value);
    NamesAreRecognised(s2.direction.value);
  }

  // ---------------------------------------------------------------- the class

  /** The robot, whose methods change its four fields in place. */
  class Robot {
    var x: Option<int>
    var y: Option<int>
    var direction: Option<Direction>
    var isPlaced: bool

    /** The four fields as a value. */
    function Snapshot(): State
      reads this
    {
      State(x, y, direction, isPlaced)
    }

    predicate Valid()
      reads this
    {
      Snapshot().Valid()
    }

    constructor ()
      ensures Valid() && Snapshot() == UNPLACED
    {
      x := None;
      y := None;
      direction := None;
      isPlaced := false;
    }

    method Place(xs: string, ys: string, d: string) returns (message: string)
      requires Valid()
      modifies this
      ensures Valid()
      ensures Snapshot() == AfterPlace(old(Snapshot()), xs, ys, d)
      ensures message == PlaceReply(CheckPlacement(xs, ys, d))
    {
      var parsedX := ParseInt(xs);
      var parsedY := ParseInt(ys);
      if parsedX.None? || parsedY.None? || !IsValidPosition(parsedX.value, parsedY.value) {
        return CoordinatesMessage(xs, ys);
      }
      var named := DirectionNamed(d);
      if named.None? {
        return DirectionMessage(d);
      }
      x := parsedX;
      y := parsedY;
      direction := named;
      isPlaced := true;
      return "";
    }

    method Move()
      requires Valid()
      modifies this
      ensures Valid() && Snapshot() == AfterMove(old(Snapshot()))
    {
      if !isPlaced {
        return;
      }
      var newX := x.value;
      var newY := y.value;
      match direction.value {
        case NORTH => newY := newY + 1;
        case EAST => newX := newX + 1;
        case SOUTH => newY := newY - 1;
        case WEST => newX := newX - 1;
      }
      if !IsValidPosition(newX, newY) {
        return;
      }
      x := Some(newX);
      y := Some(newY);
    }

    method TurnLeft()
      requires Valid()
      modifies this
      ensures Valid() && Snapshot() == AfterTurnLeft(old(Snapshot()))
    {
      if !isPlaced {
        return;
      }
      var currentIndex := IndexOf(DIRECTIONS, direction.value);
      var newIndex := (currentIndex - 1 + |DIRECTIONS|) % |DIRECTIONS|;
      direction := Some(DIRECTIONS[newIndex]);
    }

    method TurnRight()
      requires Valid()
      modifies this
      ensures Valid() && Snapshot() == AfterTurnRight(old(Snapshot()))
    {
      if !isPlaced {
        return;
      }
      var currentIndex := IndexOf(DIRECTIONS, direction.value);
      var newIndex := (currentIndex + 1) % |DIRECTIONS|;
      direction := Some(DIRECTIONS[newIndex]);
    }

    function Report(): (r: string)
      reads this
      requires Valid()
      ensures r == NOT_PLACED <==> !isPlaced
      ensures r == ReportOf(Snapshot())
    {
      ReportOf(Snapshot())
    }
  }
}
