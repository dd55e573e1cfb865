/** The direction algebra of src/directions.py: the four directions, their
    opposite, the two quarter turns and the neighbouring cell one step away.
    Coordinates follow the screen: `x` grows to the right, `y` grows down. */
module Directions {
  import opened Optional

  datatype Direction = Left | Right | Up | Down

  /** The string the source uses for a direction. */
  function Name(d: Direction): string {
    match d
    case Left => "left"
    case Right => "right"
    case Up => "up"
    case Down => "down"
  }

  /** `assert_direction`: a string passes exactly when it is the name of one of
      the four directions; `None` stands for the failed assertion. */
  function Parse(s: string): (r: Option<Direction>)
    ensures r.Some? ==> Name(r.value) == s
    ensures r.None? ==> forall d: Direction :: Name(d) != s
  {
    if s == "left" then Some(Left)
    else if s == "right" then Some(Right)
    else if s == "up" then Some(Up)
    else if s == "down" then Some(Down)
    else None
  }

  /** Parsing a direction's own name gives the direction back. */
  lemma ParseName(d: Direction)
    ensures Parse(Name(d)) == Some(d)
  {
  }

  /** Exactly the four strings `left`, `right`, `up` and `down` are accepted. */
  lemma ParseAcceptsExactlyFour(s: string)
    ensures Parse(s).Some? <==> s == "left" || s == "right" || s == "up" || s == "down"
  {
  }

  predicate IsHorizontal(d: Direction) {
    d == Left || d == Right
  }

  /** `opposite_direction`. */
  function Opposite(d: Direction): (r: Direction)
    ensures r != d && IsHorizontal(r) == IsHorizontal(d)
  {
    match d
    case Left => Right
    case Right => Left
    case Up => Down
    case Down => Up
  }

  /** `left_direction`: a quarter turn counter-clockwise on the screen. */
  function TurnLeft(d: Direction): (r: Direction)
    ensures IsHorizontal(r) != IsHorizontal(d)
  {
    match d
    case Left => Down
    case Down => Right
    case Right => Up
    case Up => Left
  }

  /** `right_direction`: a quarter turn clockwise on the screen. */
  function TurnRight(d: Direction): (r: Direction)
    ensures IsHorizontal(r) != IsHorizontal(d)
  {
    match d
    case Left => Up
    case Up => Right
    case Right => Down
    case Down => Left
  }

  lemma OppositeInvolution(d: Direction)
    ensures Opposite(Opposite(d)) == d
  {
  }

  lemma TurnsAreInverse(d: Direction)
    ensures TurnRight(TurnLeft(d)) == d && TurnLeft(TurnRight(d)) == d
  {
  }

  /** Four left turns make a full circle, two make a U-turn. */
  lemma TurnLeftCycle(d: Direction)
    ensures TurnLeft(TurnLeft(d)) == Opposite(d)
    ensures TurnLeft(TurnLeft(TurnLeft(TurnLeft(d)))) == d
  {
  }

  /** `position_after_moving`. */
  function PositionAfterMoving(x: int, y: int, d: Direction): (r: (int, int))
    ensures IsHorizontal(d) ==> r.1 == y && (r.0 == x - 1 || r.0 == x + 1)
    ensures !IsHorizontal(d) ==> r.0 == x && (r.1 == y - 1 || r.1 == y + 1)
  {
    match d
    case Left => (x - 1, y)
    case Right => (x + 1, y)
    case Up => (x, y - 1)
    case Down => (x, y + 1)
  }

  function Abs(n: int): nat {
    if n < 0 then -n else n
  }

  /** Manhattan distance between two cells. */
  function Distance(a: (int, int), b: (int, int)): nat {
    Abs(a.0 - b.0) + Abs(a.1 - b.1)
  }

  /** One step always lands on one of the four cells at distance one, and
      different directions land on different cells. */
  lemma StepIsNeighbour(x: int, y: int, d: Direction, e: Direction)
    ensures Distance((x, y), PositionAfterMoving(x, y, d)) == 1
    ensures d != e ==> PositionAfterMoving(x, y, d) != PositionAfterMoving(x, y, e)
  {
  }

  /** Stepping in `d` and then in `Opposite(d)` returns to the start. */
  lemma StepBack(x: int, y: int, d: Direction)
    ensures var p := PositionAfterMoving(x, y, d);
      PositionAfterMoving(p.0, p.1, Opposite(d)) == (x, y)
  {
  }

  /** The cell reached after `n` steps in direction `d`. */
  function Walk(p: (int, int), d: Direction, n: nat): (int, int) {
    if n == 0 then p else
      var q := Walk(p, d, n - 1);
      PositionAfterMoving(q.0, q.1, d)
  }

  /** `n` steps in one direction move one coordinate by exactly `n`. */
  lemma {:induction false} WalkOffset(p: (int, int), d: Direction, n: nat)
    ensures Walk(p, d, n) == match d
      case Left => (p.0 - n, p.1)
      case Right => (p.0 + n, p.1)
      case Up => (p.0, p.1 - n)
      case Down => (p.0, p.1 + n)
  {
    if n > 0 {
      WalkOffset(p, d, n - 1);
    }
  }
}
