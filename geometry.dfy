/**
 * Exact stand-in for the geometry package, which the model does not include.
 *
 * A Direction is an integer modulo FullCircle (one quarter turn is Quarter
 * units), so every comparison of directions in the formation rules becomes
 * plain equality. A Position is a pair of coordinates. Everything the
 * geometry package computes from floating point (the direction from one
 * position to another, an offset in a direction, the centre of a group of
 * positions) is a field of a Space, so the rules see those computations
 * as uninterpreted functions.
 */
module Geometry {

  /** One quarter turn, in direction units. */
  const Quarter: int := 90

  /** A full turn; a multiple of four as the quarter turns need. */
  const FullCircle: int := 4 * Quarter

  /** A facing direction, already reduced modulo FullCircle. */
  type Direction = d: int | 0 <= d < FullCircle

  /** Reduces any integer angle to the Direction it denotes. */
  function Norm(x: int): (r: Direction)
    ensures (x - r) % FullCircle == 0
  {
    x % FullCircle
  }

  /** Norm of an angle within one turn of the range is a single correction. */
  lemma NormNear(x: int)
    requires -FullCircle <= x < 2 * FullCircle
    ensures Norm(x) == if x < 0 then x + FullCircle else if x >= FullCircle then x - FullCircle else x
  {
  }

  /** Reducing before adding changes nothing: turns compose. */
  lemma NormAdd(x: int, a: int)
    ensures Norm(Norm(x) + a) == Norm(x + a)
  {
    var q := x / FullCircle;
    assert x == FullCircle * q + Norm(x);
    assert (x + a) - (Norm(x) + a) == FullCircle * q;
    ModShift(Norm(x) + a, q);
  }

  /** Adding whole turns does not change a reduced angle. */
  lemma ModShift(y: int, q: int)
    ensures (y + FullCircle * q) % FullCircle == y % FullCircle
  {
  }

  /** Direction.Add: turn d by the relative direction rel. */
  function Add(d: Direction, rel: int): Direction
  {
    Norm(d + rel)
  }

  /** Direction.QuarterLeft: one quarter turn counter-clockwise. */
  function QuarterLeft(d: Direction): Direction
  {
    Norm(d + Quarter)
  }

  /** Direction.QuarterRight: one quarter turn clockwise. */
  function QuarterRight(d: Direction): Direction
  {
    Norm(d - Quarter)
  }

  /** Direction.Opposite: a half turn. */
  function Opposite(d: Direction): Direction
  {
    Norm(d + 2 * Quarter)
  }

  /** Direction 0, the direction the #1 couple faces in a squared set. */
  const Direction0: Direction := 0

  /** The four quarter-turn images of a direction are pairwise distinct. */
  lemma QuarterTurnsDistinct(d: Direction)
    ensures QuarterLeft(d) != QuarterRight(d)
    ensures QuarterLeft(d) != d && QuarterRight(d) != d && Opposite(d) != d
    ensures Opposite(d) != QuarterLeft(d) && Opposite(d) != QuarterRight(d)
  {
    NormNear(d + Quarter);
    NormNear(d - Quarter);
    NormNear(d + 2 * Quarter);
  }

  /** Turning right twice is the same as turning around. */
  lemma TwoRightsMakeOpposite(d: Direction)
    ensures QuarterRight(QuarterRight(d)) == Opposite(d)
  {
    NormNear(d - Quarter);
    NormNear(QuarterRight(d) - Quarter);
    NormNear(d + 2 * Quarter);
  }

  lemma OppositeInvolution(d: Direction)
    ensures Opposite(Opposite(d)) == d
  {
    NormNear(d + 2 * Quarter);
    NormNear(Opposite(d) + 2 * Quarter);
  }

  lemma QuarterLeftUndoesQuarterRight(d: Direction)
    ensures QuarterLeft(QuarterRight(d)) == d && QuarterRight(QuarterLeft(d)) == d
  {
    NormNear(d + Quarter);
    NormNear(d - Quarter);
    NormNear(QuarterRight(d) + Quarter);
    NormNear(QuarterLeft(d) - Quarter);
  }

  /** Each quarter turn, and the half turn, is one-to-one. */
  lemma TurnsInjective(a: Direction, b: Direction)
    ensures QuarterLeft(a) == QuarterLeft(b) ==> a == b
    ensures QuarterRight(a) == QuarterRight(b) ==> a == b
    ensures Opposite(a) == Opposite(b) ==> a == b
  {
    NormNear(a + Quarter);
    NormNear(b + Quarter);
    NormNear(a - Quarter);
    NormNear(b - Quarter);
    NormNear(a + 2 * Quarter);
    NormNear(b + 2 * Quarter);
  }

  /** Turning around and then a quarter turn one way is a quarter turn the other way. */
  lemma OppositeOfQuarterTurns(d: Direction)
    ensures Opposite(QuarterRight(d)) == QuarterLeft(d)
    ensures Opposite(QuarterLeft(d)) == QuarterRight(d)
    ensures QuarterRight(Opposite(d)) == QuarterLeft(d)
    ensures QuarterLeft(Opposite(d)) == QuarterRight(d)
  {
    NormNear(d + Quarter);
    NormNear(d - Quarter);
    NormNear(d + 2 * Quarter);
    NormNear(QuarterRight(d) + 2 * Quarter);
    NormNear(QuarterLeft(d) + 2 * Quarter);
    NormNear(Opposite(d) - Quarter);
    NormNear(Opposite(d) + Quarter);
  }

  /** A point on the floor. */
  datatype Position = Position(down: real, left: real)
  {
    /** Position.Add: component-wise sum of two positions. */
    function Plus(delta: Position): (r: Position)
      ensures r.down - down == delta.down && r.left - left == delta.left
    {
      Position(down + delta.down, left + delta.left)
    }
  }

  const Origin: Position := Position(0.0, 0.0)

  /**
   * The floating-point geometry the model does not compute, as
   * uninterpreted functions:
   *  - directionTo(p, q): Position.Direction, the direction from p towards q;
   *  - polar(dir, dist): NewPosition, the offset of length dist in direction dir;
   *  - center(ps): Center, the centre of a group of positions;
   *  - coupleDistance: CoupleDistance.
   */
  datatype Space = Space(
    directionTo: (Position, Position) -> Direction,
    polar: (Direction, real) -> Position,
    center: seq<Position> -> Position,
    coupleDistance: real)
}
