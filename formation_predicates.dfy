/**
 * The formationpredicates package: an experimental second home for the
 * side-by-side relations and for an unordered-looking pair of dancers
 * that in fact keeps its argument order.
 */
module FormationPredicates {
  import opened Geometry
  import opened Dancers
  import Relations

  /** dancer2 stands a quarter turn to the left of where dancer1 faces. */
  predicate LeftOf(sp: Space, dancer1: Dancer, dancer2: Dancer)
    reads dancer1, dancer2
  {
    QuarterLeft(dancer1.direction) == sp.directionTo(dancer1.position, dancer2.position)
  }

  /** dancer2 stands a quarter turn to the right of where dancer1 faces. */
  predicate RightOf(sp: Space, dancer1: Dancer, dancer2: Dancer)
    reads dancer1, dancer2
  {
    QuarterRight(dancer1.direction) == sp.directionTo(dancer1.position, dancer2.position)
  }

  /** The two packages' relations agree on every pair of dancers. */
  lemma AgreeWithReasoning(sp: Space, dancer1: Dancer, dancer2: Dancer)
    ensures LeftOf(sp, dancer1, dancer2) <==> Relations.LeftOf(sp, dancer1, dancer2)
    ensures RightOf(sp, dancer1, dancer2) <==> Relations.RightOf(sp, dancer1, dancer2)
  {
  }

  /** No dancer is both to the left and to the right of another. */
  lemma NeverBothSides(sp: Space, dancer1: Dancer, dancer2: Dancer)
    ensures !(LeftOf(sp, dancer1, dancer2) && RightOf(sp, dancer1, dancer2))
  {
    QuarterTurnsDistinct(dancer1.direction);
  }

  /** Only dancer1's facing matters: turning dancer2 changes neither answer. */
  lemma SecondDirectionIrrelevant(sp: Space, dancer1: Dancer, dancer2: Dancer, turned: Dancer)
    requires turned.position == dancer2.position
    ensures LeftOf(sp, dancer1, dancer2) <==> LeftOf(sp, dancer1, turned)
    ensures RightOf(sp, dancer1, dancer2) <==> RightOf(sp, dancer1, turned)
  {
  }

  /** pair: two dancers in the order given; Dancer1 and Dancer2 read them back. */
  datatype Pair = Pair(dancer1: Dancer, dancer2: Dancer)
  {
    function Dancer1(): Dancer { dancer1 }
    function Dancer2(): Dancer { dancer2 }
  }

  /** MakePair: no ordering by ordinal and no check that the dancers differ. */
  function MakePair(dancer1: Dancer, dancer2: Dancer): (p: Pair)
    ensures p.Dancer1() == dancer1 && p.Dancer2() == dancer2
  {
    Pair(dancer1, dancer2)
  }

  /**
   * The accessors give back the arguments; swapping the arguments swaps
   * the accessors, so two pairs of the same dancers differ unless the
   * dancers are the same one.
   */
  lemma MakePairKeepsOrder(a: Dancer, b: Dancer)
    ensures MakePair(b, a).Dancer1() == MakePair(a, b).Dancer2()
    ensures MakePair(b, a).Dancer2() == MakePair(a, b).Dancer1()
    ensures MakePair(a, b) == MakePair(b, a) <==> a == b
  {
  }
}
