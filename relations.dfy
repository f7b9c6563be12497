/**
 * Where one dancer stands relative to another, judged from the first
 * dancer's facing direction. Only the first dancer's direction matters.
 */
module Relations {
  import opened Geometry
  import opened Dancers

  /** The direction from dancer1's position towards dancer2's position. */
  function Bearing(sp: Space, dancer1: Dancer, dancer2: Dancer): Direction
    reads dancer1, dancer2
  {
    sp.directionTo(dancer1.position, dancer2.position)
  }

  /** dancer2 is to the left of dancer1. */
  predicate LeftOf(sp: Space, dancer1: Dancer, dancer2: Dancer)
    reads dancer1, dancer2
  {
    QuarterLeft(dancer1.direction) == Bearing(sp, dancer1, dancer2)
  }

  /** dancer2 is to the right of dancer1. */
  predicate RightOf(sp: Space, dancer1: Dancer, dancer2: Dancer)
    reads dancer1, dancer2
  {
    QuarterRight(dancer1.direction) == Bearing(sp, dancer1, dancer2)
  }

  /** dancer2 is in front of dancer1: dancer1 faces dancer2. */
  predicate InFrontOf(sp: Space, dancer1: Dancer, dancer2: Dancer)
    reads dancer1, dancer2
  {
    dancer1.direction == Bearing(sp, dancer1, dancer2)
  }

  /** dancer2 is behind dancer1: two quarter turns right of dancer1's facing. */
  predicate Behind(sp: Space, dancer1: Dancer, dancer2: Dancer)
    reads dancer1, dancer2
  {
    QuarterRight(QuarterRight(dancer1.direction)) == Bearing(sp, dancer1, dancer2)
  }

  /** Behind means the bearing is the opposite of dancer1's facing. */
  lemma BehindIsOpposite(sp: Space, dancer1: Dancer, dancer2: Dancer)
    ensures Behind(sp, dancer1, dancer2) <==> Opposite(dancer1.direction) == Bearing(sp, dancer1, dancer2)
  {
    TwoRightsMakeOpposite(dancer1.direction);
  }

  /** For one ordered pair of dancers at most one of the four relations holds. */
  lemma AtMostOneRelation(sp: Space, dancer1: Dancer, dancer2: Dancer)
    ensures LeftOf(sp, dancer1, dancer2) ==> !RightOf(sp, dancer1, dancer2) && !InFrontOf(sp, dancer1, dancer2) && !Behind(sp, dancer1, dancer2)
    ensures RightOf(sp, dancer1, dancer2) ==> !InFrontOf(sp, dancer1, dancer2) && !Behind(sp, dancer1, dancer2)
    ensures InFrontOf(sp, dancer1, dancer2) ==> !Behind(sp, dancer1, dancer2)
  {
    QuarterTurnsDistinct(dancer1.direction);
    BehindIsOpposite(sp, dancer1, dancer2);
  }

  /** dancer2 matters only through its position: a dancer at the same place in any direction gives the same answers. */
  lemma OnlyPositionOfSecondDancerMatters(sp: Space, dancer1: Dancer, dancer2: Dancer, other: Dancer)
    requires other.position == dancer2.position
    ensures LeftOf(sp, dancer1, dancer2) == LeftOf(sp, dancer1, other)
    ensures RightOf(sp, dancer1, dancer2) == RightOf(sp, dancer1, other)
    ensures InFrontOf(sp, dancer1, dancer2) == InFrontOf(sp, dancer1, other)
    ensures Behind(sp, dancer1, dancer2) == Behind(sp, dancer1, other)
  {
  }

  /**
   * The bearing between two distinct positions reverses when the roles
   * swap; the geometry package's directions are assumed to behave so.
   */
  ghost predicate Antipodal(sp: Space, dancer1: Dancer, dancer2: Dancer)
    reads dancer1, dancer2
  {
    dancer1.position != dancer2.position
    && Bearing(sp, dancer2, dancer1) == Opposite(Bearing(sp, dancer1, dancer2))
  }
}
