/**
 * Directions and grid positions of the rover: the four points of the wind
 * rose, their names, positions as integer pairs with componentwise addition
 * and subtraction, the unit step for each direction, and the text "(x, y)".
 */
module Positioning {
  import Decimal

  /** Number of directions (`DIRECTION_NO`, `DIRECTION_CNT`). */
  const DIRECTION_NO: nat := 4

  /** The wind rose, clockwise from north. */
  datatype Direction = North | East | South | West

  /** The enum value of a direction: NORTH = 0, then clockwise. */
  function Code(d: Direction): (c: nat)
    ensures c < DIRECTION_NO
  {
    match d
    case North => 0
    case East => 1
    case South => 2
    case West => 3
  }

  /** The direction with a given enum value (the cast `Direction(c)`). */
  function FromCode(c: int): (d: Direction)
    requires 0 <= c < DIRECTION_NO
    ensures Code(d) == c
  {
    if c == 0 then North else if c == 1 then East else if c == 2 then South else West
  }

  lemma CodeRoundTrip(d: Direction, c: int)
    requires 0 <= c < DIRECTION_NO
    ensures FromCode(Code(d)) == d
    ensures Code(FromCode(c)) == c
    ensures (Code(d) == c) == (d == FromCode(c))
  {
  }

  /** `Direction_names`, indexed by the enum value. */
  const DirectionNames: seq<string> := ["NORTH", "EAST", "SOUTH", "WEST"]

  /** The name printed for a direction. */
  function Name(d: Direction): (s: string)
    ensures |s| > 0 && ' ' !in s
  {
    DirectionNames[Code(d)]
  }

  /** The printed names tell the directions apart. */
  lemma NameInjective(d1: Direction, d2: Direction)
    requires Name(d1) == Name(d2)
    ensures d1 == d2
  {
  }

  /** A cell of the grid. The getters `get_x` and `get_y` are the fields. */
  datatype Position = Position(x: int, y: int)

  /** `operator+`: componentwise sum. */
  function Plus(p: Position, q: Position): (r: Position)
    ensures Minus(r, q) == p
  {
    Position(p.x + q.x, p.y + q.y)
  }

  /** `operator-`: componentwise difference. */
  function Minus(p: Position, q: Position): Position {
    Position(p.x - q.x, p.y - q.y)
  }

  /** Subtracting a vector undoes adding it, and the other way round. */
  lemma PlusMinusCancel(p: Position, v: Position)
    ensures Minus(Plus(p, v), v) == p
    ensures Plus(Minus(p, v), v) == p
  {
  }

  /** `move_vector`, indexed by the enum value. */
  const MoveVectors: seq<Position> := [Position(0, 1), Position(1, 0), Position(0, -1), Position(-1, 0)]

  /** The step a rover facing `d` takes when moving forward. */
  function MoveVector(d: Direction): (v: Position)
    ensures (v.x == 0 && (v.y == 1 || v.y == -1)) || (v.y == 0 && (v.x == 1 || v.x == -1))
  {
    MoveVectors[Code(d)]
  }

  /** The direction half a turn round from `d`. */
  function Opposite(d: Direction): Direction {
    match d
    case North => South
    case East => West
    case South => North
    case West => East
  }

  /** Half a turn is two quarters: the enum value `(d + 2) % 4`. */
  lemma OppositeCode(d: Direction)
    ensures Code(Opposite(d)) == (Code(d) + 2) % DIRECTION_NO
    ensures Opposite(d) == FromCode((Code(d) + 2) % DIRECTION_NO)
  {
  }

  /** The opposite direction steps the other way. */
  lemma OppositeStep(d: Direction)
    ensures MoveVector(Opposite(d)) == Minus(Position(0, 0), MoveVector(d))
  {
    match d
    case North => assert MoveVector(North) == Position(0, 1) && MoveVector(South) == Position(0, -1);
    case East => assert MoveVector(East) == Position(1, 0) && MoveVector(West) == Position(-1, 0);
    case South => assert MoveVector(North) == Position(0, 1) && MoveVector(South) == Position(0, -1);
    case West => assert MoveVector(East) == Position(1, 0) && MoveVector(West) == Position(-1, 0);
  }

  /** `move_vector[(d + 2) % 4]` is the negated `move_vector[d]`. */
  lemma MoveVectorOpposite(d: Direction)
    ensures MoveVector(FromCode((Code(d) + 2) % DIRECTION_NO)) == Minus(Position(0, 0), MoveVector(d))
  {
    OppositeCode(d);
    OppositeStep(d);
  }

  /** Turning clockwise rotates the step by a quarter turn clockwise. */
  lemma MoveVectorClockwise(d: Direction)
    ensures MoveVector(FromCode((Code(d) + 1) % DIRECTION_NO)) ==
            Position(MoveVector(d).y, -MoveVector(d).x)
  {
  }

  /** The text of a position, "(x, y)". */
  function Text(p: Position): (s: string)
    ensures |s| >= 6 && s[0] == '(' && s[|s| - 1] == ')'
  {
    Opening(p) + ")"
  }

  /** The text of a position up to its closing parenthesis, "(x, y". */
  function Opening(p: Position): (s: string)
    ensures ')' !in s
  {
    IntTextPlain(p.x);
    IntTextPlain(p.y);
    "(" + Decimal.IntText(p.x) + ", " + Decimal.IntText(p.y)
  }

  /** The part of `s` before the first `c` (all of `s` if there is none). */
  function Until(s: string, c: char): string {
    if s == [] || s[0] == c then [] else [s[0]] + Until(s[1..], c)
  }

  /** When `c` does not occur in `a` and `r` is empty or begins with `c`,
      the part of `a + r` before the first `c` is `a`. */
  lemma {:induction false} UntilPrefix(a: string, r: string, c: char)
    requires c !in a
    requires r == [] || r[0] == c
    ensures Until(a + r, c) == a
  {
    if a != [] {
      assert (a + r)[1..] == a[1..] + r;
      UntilPrefix(a[1..], r, c);
    } else {
      assert a + r == r;
    }
  }

  /** A string `a + r`, with no `c` in `a` and `r` empty or beginning with
      `c`, splits in only one way. */
  lemma SplitAt(a: string, r: string, a': string, r': string, c: char)
    requires c !in a && c !in a'
    requires r == [] || r[0] == c
    requires r' == [] || r'[0] == c
    requires a + r == a' + r'
    ensures a == a' && r == r'
  {
    UntilPrefix(a, r, c);
    UntilPrefix(a', r', c);
    assert r == (a + r)[|a|..];
    assert r' == (a' + r')[|a'|..];
  }

  /** The text of an integer has no comma and no closing parenthesis. */
  lemma IntTextPlain(i: int)
    ensures ',' !in Decimal.IntText(i) && ')' !in Decimal.IntText(i)
  {
  }

  /** The text "(a, b)" of two parts without commas or closing parentheses
      determines both parts. */
  lemma PairTextSplit(a: string, b: string, a': string, b': string)
    requires ',' !in a && ',' !in a' && ')' !in b && ')' !in b'
    requires "(" + a + ", " + b + ")" == "(" + a' + ", " + b' + ")"
    ensures a == a' && b == b'
  {
    var t, t' := "(" + a + ", " + b + ")", "(" + a' + ", " + b' + ")";
    assert t[1..] == a + (", " + b + ")");
    assert t'[1..] == a' + (", " + b' + ")");
    SplitAt(a, ", " + b + ")", a', ", " + b' + ")", ',');
    assert (", " + b + ")")[2..] == b + ")";
    assert (", " + b' + ")")[2..] == b' + ")";
    SplitAt(b, ")", b', ")", ')');
  }

  /** The text of a position determines the position. */
  lemma TextInjective(p: Position, q: Position)
    requires Text(p) == Text(q)
    ensures p == q
  {
    IntTextPlain(p.x); IntTextPlain(p.y);
    IntTextPlain(q.x); IntTextPlain(q.y);
    PairTextSplit(Decimal.IntText(p.x), Decimal.IntText(p.y), Decimal.IntText(q.x), Decimal.IntText(q.y));
    Decimal.IntTextInjective(p.x, q.x);
    Decimal.IntTextInjective(p.y, q.y);
  }
}
