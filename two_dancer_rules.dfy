/**
 * The rules that recognise two-dancer formations. A rule either emits one
 * formation or emits nothing; it is modelled as a function returning an
 * Option of the formation it would emit.
 */
module TwoDancerRules {
  import opened Geometry
  import opened Dancers
  import Hands
  import opened Relations
  import opened Formations
  import opened Wrappers

  /** Two dancers considered together, as Dancer1 and Dancer2. */
  datatype Pair = Pair(dancer1: Dancer, dancer2: Dancer)

  /**
   * MakePair as written: whichever argument has the lower ordinal becomes
   * Dancer1; on equal ordinals the second argument comes first.
   */
  function MakePair(d1: Dancer, d2: Dancer): (p: Pair)
    reads d1, d2
    ensures p == Pair(d1, d2) || p == Pair(d2, d1)
    ensures p.dancer1.ordinal <= p.dancer2.ordinal
    ensures d1.ordinal == d2.ordinal ==> p == Pair(d2, d1)
  {
    if d1.ordinal < d2.ordinal then Pair(d1, d2) else Pair(d2, d1)
  }

  /** The order of MakePair's arguments is lost when the ordinals differ. */
  lemma MakePairForgetsArgumentOrder(d1: Dancer, d2: Dancer)
    requires d1.ordinal != d2.ordinal
    ensures MakePair(d1, d2) == MakePair(d2, d1)
    ensures MakePair(d1, d2).dancer1.ordinal < MakePair(d1, d2).dancer2.ordinal
  {
  }

  /** rule_PairOfDancers: every two distinct dancers make a Pair; a dancer makes none with itself. */
  function PairOfDancers(d1: Dancer, d2: Dancer): (r: Option<Pair>)
    reads d1, d2
    ensures r.Some? <==> d1 != d2
    ensures r.Some? ==> r.value.dancer1 != r.value.dancer2
    ensures r.Some? ==> {r.value.dancer1, r.value.dancer2} == {d1, d2}
    ensures r.Some? ==> r.value.dancer1.ordinal <= r.value.dancer2.ordinal
  {
    if d1 != d2 then Some(MakePair(d1, d2)) else None
  }

  // ---------------------------------------------------------------
  // Couple

  /** rule_GeneralizedCouple: Dancer2 to the right of Dancer1, who is to Dancer2's left. */
  function GeneralizedCouple(sp: Space, p: Pair): (r: Option<Couple>)
    reads p.dancer1, p.dancer2
    ensures r.Some? <==> RightOf(sp, p.dancer1, p.dancer2) && LeftOf(sp, p.dancer2, p.dancer1)
    ensures r.Some? ==> r.value.beau == p.dancer1 && r.value.belle == p.dancer2
  {
    if RightOf(sp, p.dancer1, p.dancer2) && LeftOf(sp, p.dancer2, p.dancer1) then
      Some(Couple(p.dancer1, p.dancer2))
    else
      None
  }

  /** Two dancers make a Couple only one way round, and never with themselves. */
  lemma CoupleOnlyOneWay(sp: Space, p: Pair)
    requires GeneralizedCouple(sp, p).Some?
    ensures p.dancer1 != p.dancer2
    ensures GeneralizedCouple(sp, Pair(p.dancer2, p.dancer1)).None?
  {
    AtMostOneRelation(sp, p.dancer1, p.dancer2);
  }

  /** Where bearings reverse, the two dancers of a Couple face the same way. */
  lemma CoupleFacesOneWay(sp: Space, p: Pair)
    requires Antipodal(sp, p.dancer1, p.dancer2)
    requires GeneralizedCouple(sp, p).Some?
    ensures p.dancer1.direction == p.dancer2.direction
  {
    var d1, d2 := p.dancer1.direction, p.dancer2.direction;
    OppositeOfQuarterTurns(d1);
    assert QuarterLeft(d2) == QuarterLeft(d1);
    TurnsInjective(d1, d2);
  }

  // ---------------------------------------------------------------
  // MiniWave

  /** MakeMiniWave: the dancer with the lower ordinal becomes Dancer1. */
  function MakeMiniWave(d1: Dancer, d2: Dancer): (mw: MiniWave)
    reads d1, d2
    ensures mw == MiniWave(d1, d2) || mw == MiniWave(d2, d1)
    ensures mw.dancer1.ordinal <= mw.dancer2.ordinal
    ensures d1.ordinal < d2.ordinal ==> mw == MiniWave(d1, d2)
  {
    if d1.ordinal < d2.ordinal then MiniWave(d1, d2) else MiniWave(d2, d1)
  }

  /** rule_MiniWave: each dancer to the same side of the other, the pair in ordinal order. */
  function MiniWaveRule(sp: Space, p: Pair): (r: Option<MiniWave>)
    reads p.dancer1, p.dancer2
    ensures r.Some? <==> (p.dancer1.ordinal < p.dancer2.ordinal
      && ((RightOf(sp, p.dancer1, p.dancer2) && RightOf(sp, p.dancer2, p.dancer1))
       || (LeftOf(sp, p.dancer1, p.dancer2) && LeftOf(sp, p.dancer2, p.dancer1))))
    ensures r.Some? ==> r.value == MiniWave(p.dancer1, p.dancer2)
  {
    var d1, d2 := p.dancer1, p.dancer2;
    if d1.ordinal >= d2.ordinal then None
    else if RightOf(sp, d1, d2) && RightOf(sp, d2, d1) then Some(MakeMiniWave(d1, d2))
    else if LeftOf(sp, d1, d2) && LeftOf(sp, d2, d1) then Some(MakeMiniWave(d1, d2))
    else None
  }

  /**
   * An emitted MiniWave is right-handed exactly when its dancers are to
   * each other's right, and where bearings reverse its dancers face
   * opposite ways.
   */
  lemma MiniWaveFacts(sp: Space, p: Pair)
    requires MiniWaveRule(sp, p).Some?
    ensures p.dancer1 != p.dancer2
    ensures MiniWaveRule(sp, p).value.Handedness(sp) == Hands.RightHanded <==> RightOf(sp, p.dancer2, p.dancer1)
    ensures Antipodal(sp, p.dancer1, p.dancer2) ==> p.dancer2.direction == Opposite(p.dancer1.direction)
  {
    var d1, d2 := p.dancer1.direction, p.dancer2.direction;
    AtMostOneRelation(sp, p.dancer1, p.dancer2);
    AtMostOneRelation(sp, p.dancer2, p.dancer1);
    if Antipodal(sp, p.dancer1, p.dancer2) {
      OppositeOfQuarterTurns(d1);
      OppositeOfQuarterTurns(d2);
      OppositeInvolution(d1);
      OppositeInvolution(d2);
      if RightOf(sp, p.dancer1, p.dancer2) {
        assert QuarterRight(d2) == QuarterRight(Opposite(d1));
      } else {
        assert QuarterLeft(d2) == QuarterLeft(Opposite(d1));
      }
      TurnsInjective(d2, Opposite(d1));
    }
  }

  // ---------------------------------------------------------------
  // FaceToFace, BackToBack, Tandem

  /** rule_FaceToFace: each dancer in front of the other, the pair in ordinal order. */
  function FaceToFaceRule(sp: Space, p: Pair): (r: Option<FaceToFace>)
    reads p.dancer1, p.dancer2
    ensures r.Some? <==> (p.dancer1.ordinal < p.dancer2.ordinal
      && InFrontOf(sp, p.dancer1, p.dancer2) && InFrontOf(sp, p.dancer2, p.dancer1))
    ensures r.Some? ==> r.value.dancer1 == p.dancer1 && r.value.dancer2 == p.dancer2
  {
    var d1, d2 := p.dancer1, p.dancer2;
    if d1.ordinal >= d2.ordinal then None
    else if InFrontOf(sp, d1, d2) && InFrontOf(sp, d2, d1) then Some(FaceToFace(d1, d2))
    else None
  }

  /** Where bearings reverse, dancers face to face face opposite ways. */
  lemma FaceToFaceFacesOpposite(sp: Space, p: Pair)
    requires Antipodal(sp, p.dancer1, p.dancer2)
    requires FaceToFaceRule(sp, p).Some?
    ensures p.dancer2.direction == Opposite(p.dancer1.direction)
  {
  }

  /** rule_BackToBack: each dancer behind the other, the pair in ordinal order. */
  function BackToBackRule(sp: Space, p: Pair): (r: Option<BackToBack>)
    reads p.dancer1, p.dancer2
    ensures r.Some? <==> (p.dancer1.ordinal < p.dancer2.ordinal
      && Behind(sp, p.dancer1, p.dancer2) && Behind(sp, p.dancer2, p.dancer1))
    ensures r.Some? ==> r.value.dancer1 == p.dancer1 && r.value.dancer2 == p.dancer2
  {
    var d1, d2 := p.dancer1, p.dancer2;
    if d1.ordinal >= d2.ordinal then None
    else if Behind(sp, d1, d2) && Behind(sp, d2, d1) then Some(BackToBack(d1, d2))
    else None
  }

  /** Where bearings reverse, dancers back to back face opposite ways. */
  lemma BackToBackFacesOpposite(sp: Space, p: Pair)
    requires Antipodal(sp, p.dancer1, p.dancer2)
    requires BackToBackRule(sp, p).Some?
    ensures p.dancer2.direction == Opposite(p.dancer1.direction)
  {
    var d1, d2 := p.dancer1.direction, p.dancer2.direction;
    BehindIsOpposite(sp, p.dancer1, p.dancer2);
    BehindIsOpposite(sp, p.dancer2, p.dancer1);
    OppositeInvolution(d1);
    assert Opposite(d2) == Opposite(Opposite(d1));
    TurnsInjective(d2, Opposite(d1));
  }

  /** rule_Tandem: both face the same way, Dancer2 behind Dancer1 and Dancer1 in front of Dancer2. */
  function TandemRule(sp: Space, p: Pair): (r: Option<Tandem>)
    reads p.dancer1, p.dancer2
    ensures r.Some? <==> (p.dancer1.direction == p.dancer2.direction
      && Behind(sp, p.dancer1, p.dancer2) && InFrontOf(sp, p.dancer2, p.dancer1))
    ensures r.Some? ==> r.value.leader == p.dancer1 && r.value.trailer == p.dancer2
  {
    var d1, d2 := p.dancer1, p.dancer2;
    if d1.direction != d2.direction then None
    else if Behind(sp, d1, d2) && InFrontOf(sp, d2, d1) then Some(Tandem(d1, d2))
    else None
  }

  /**
   * A Tandem's leader and trailer are different dancers, the tandem faces
   * its trailer's way too, and where bearings reverse the two relations
   * already imply the same-direction test.
   */
  lemma TandemFacts(sp: Space, p: Pair)
    ensures TandemRule(sp, p).Some? ==> p.dancer1 != p.dancer2
    ensures TandemRule(sp, p).Some? ==> TandemRule(sp, p).value.Direction() == p.dancer2.direction
    ensures Antipodal(sp, p.dancer1, p.dancer2) && Behind(sp, p.dancer1, p.dancer2) && InFrontOf(sp, p.dancer2, p.dancer1)
      ==> TandemRule(sp, p).Some?
  {
    var d1 := p.dancer1.direction;
    AtMostOneRelation(sp, p.dancer1, p.dancer2);
    BehindIsOpposite(sp, p.dancer1, p.dancer2);
    OppositeInvolution(d1);
  }

  /** Because pairs come from MakePair, an emitted Couple's beau and Tandem's leader have the lower ordinal. */
  lemma FirstOfPairHasLowerOrdinal(sp: Space, d1: Dancer, d2: Dancer)
    requires PairOfDancers(d1, d2).Some?
    ensures GeneralizedCouple(sp, PairOfDancers(d1, d2).value).Some? ==>
      GeneralizedCouple(sp, PairOfDancers(d1, d2).value).value.beau.ordinal <= GeneralizedCouple(sp, PairOfDancers(d1, d2).value).value.belle.ordinal
    ensures TandemRule(sp, PairOfDancers(d1, d2).value).Some? ==>
      TandemRule(sp, PairOfDancers(d1, d2).value).value.leader.ordinal <= TandemRule(sp, PairOfDancers(d1, d2).value).value.trailer.ordinal
  {
  }

  // ---------------------------------------------------------------
  // Pairs in both orderings

  /**
   * The pairing the comment on Pair describes: the dancers in the order
   * given, so that the join, which offers every two dancers in both
   * orders, makes both Pairs.
   */
  function PairInOrder(d1: Dancer, d2: Dancer): (r: Option<Pair>)
    ensures r.Some? <==> d1 != d2
    ensures r.Some? ==> r.value.dancer1 == d1 && r.value.dancer2 == d2
  {
    if d1 != d2 then Some(Pair(d1, d2)) else None
  }

  /**
   * As written, a Couple whose beau has the higher ordinal is never
   * emitted: both orderings give the same Pair, with the belle first.
   */
  lemma MakePairHidesCouple(sp: Space, beau: Dancer, belle: Dancer)
    requires belle.ordinal < beau.ordinal
    requires RightOf(sp, beau, belle) && LeftOf(sp, belle, beau)
    ensures PairOfDancers(beau, belle).Some? && PairOfDancers(belle, beau).Some?
    ensures GeneralizedCouple(sp, PairOfDancers(beau, belle).value).None?
    ensures GeneralizedCouple(sp, PairOfDancers(belle, beau).value).None?
  {
    AtMostOneRelation(sp, belle, beau);
  }

  /**
   * With pairs in both orderings, every couple is emitted from exactly
   * one of them, with its beau and belle in place, whatever the ordinals.
   */
  lemma PairsInOrderFindEveryCouple(sp: Space, beau: Dancer, belle: Dancer)
    requires RightOf(sp, beau, belle) && LeftOf(sp, belle, beau)
    ensures PairInOrder(beau, belle).Some? && PairInOrder(belle, beau).Some?
    ensures GeneralizedCouple(sp, PairInOrder(beau, belle).value) == Some(Couple(beau, belle))
    ensures GeneralizedCouple(sp, PairInOrder(belle, beau).value).None?
  {
    AtMostOneRelation(sp, beau, belle);
    AtMostOneRelation(sp, belle, beau);
  }

  /**
   * With pairs in both orderings, the ordinal tests of rule_MiniWave,
   * rule_FaceToFace and rule_BackToBack let each formation through from
   * exactly one of the two Pairs, and that one emits what MakePair's
   * pair does.
   */
  lemma PairsInOrderEmitOnce(sp: Space, d1: Dancer, d2: Dancer)
    requires d1.ordinal < d2.ordinal
    ensures PairInOrder(d1, d2).Some? && PairInOrder(d2, d1).Some?
    ensures MiniWaveRule(sp, PairInOrder(d2, d1).value).None?
    ensures FaceToFaceRule(sp, PairInOrder(d2, d1).value).None?
    ensures BackToBackRule(sp, PairInOrder(d2, d1).value).None?
    ensures MiniWaveRule(sp, PairInOrder(d1, d2).value) == MiniWaveRule(sp, MakePair(d1, d2))
    ensures FaceToFaceRule(sp, PairInOrder(d1, d2).value) == FaceToFaceRule(sp, MakePair(d1, d2))
    ensures BackToBackRule(sp, PairInOrder(d1, d2).value) == BackToBackRule(sp, MakePair(d1, d2))
  {
  }
}
