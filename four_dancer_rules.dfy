/**
 * The rules that recognise four-dancer formations from two-dancer ones,
 * each a function returning an Option of the formation it would emit,
 * and the swap of two dancers' places used when building samples.
 */
module FourDancerRules {
  import opened Geometry
  import opened Dancers
  import Hands
  import opened Relations
  import opened Formations
  import opened Wrappers

  /** swap_positions: the two dancers exchange places, each keeping its own facing. */
  method SwapPositions(dancer1: Dancer, dancer2: Dancer)
    modifies dancer1`position, dancer1`direction, dancer2`position, dancer2`direction
    ensures dancer1.position == old(dancer2.position) && dancer2.position == old(dancer1.position)
    ensures dancer1.direction == old(dancer1.direction) && dancer2.direction == old(dancer2.direction)
  {
    var d1pos := dancer1.position;
    var _ := dancer1.Move(dancer2.position, dancer1.direction);
    var _ := dancer2.Move(d1pos, dancer2.direction);
  }

  /**
   * rule_FacingCouples: couple1's beau has the lower ordinal, facing1
   * holds couple1's beau and couple2's belle, facing2 holds couple2's
   * beau and couple1's belle.
   */
  function FacingCouplesRule(couple1: Couple, couple2: Couple, facing1: FaceToFace, facing2: FaceToFace): (r: Option<FacingCouples>)
    reads couple1.beau, couple2.beau
    ensures r.Some? <==> (couple1.beau.ordinal < couple2.beau.ordinal
      && couple1.beau in facing1.Dancers() && couple2.belle in facing1.Dancers()
      && couple2.beau in facing2.Dancers() && couple1.belle in facing2.Dancers())
    ensures r.Some? ==> r.value == FacingCouples(couple1, couple2, facing1, facing2)
  {
    TwoDancerTests(OfFaceToFace(facing1), couple1.beau, couple2.belle);
    TwoDancerTests(OfFaceToFace(facing2), couple2.beau, couple1.belle);
    if !OrderedDancers([couple1.beau, couple2.beau]) then None
    else if !HasDancers(OfFaceToFace(facing1), [couple1.beau, couple2.belle]) then None
    else if !HasDancers(OfFaceToFace(facing2), [couple2.beau, couple1.belle]) then None
    else Some(FacingCouples(couple1, couple2, facing1, facing2))
  }

  /**
   * rule_TandemCouples: couple1's beau has the lower ordinal, tandem1
   * holds the two beaus and tandem2 the two belles.
   */
  function TandemCouplesRule(couple1: Couple, couple2: Couple, tandem1: Tandem, tandem2: Tandem): (r: Option<TandemCouples>)
    reads couple1.beau, couple2.beau
    ensures r.Some? <==> (couple1.beau.ordinal < couple2.beau.ordinal
      && couple1.beau in tandem1.Dancers() && couple2.beau in tandem1.Dancers()
      && couple1.belle in tandem2.Dancers() && couple2.belle in tandem2.Dancers())
    ensures r.Some? ==> r.value == TandemCouples(couple1, couple2, tandem1, tandem2)
  {
    TwoDancerTests(OfTandem(tandem1), couple1.beau, couple2.beau);
    TwoDancerTests(OfTandem(tandem2), couple1.belle, couple2.belle);
    if !OrderedDancers([couple1.beau, couple2.beau]) then None
    else if !HasDancers(OfTandem(tandem1), [couple1.beau, couple2.beau]) then None
    else if !HasDancers(OfTandem(tandem2), [couple1.belle, couple2.belle]) then None
    else Some(TandemCouples(couple1, couple2, tandem1, tandem2))
  }

  /**
   * rule_BackToBackCouples: couple1's beau has the lower ordinal, bb1
   * holds couple1's beau and couple2's belle, bb2 holds couple2's beau
   * and couple1's belle.
   */
  function BackToBackCouplesRule(couple1: Couple, couple2: Couple, bb1: BackToBack, bb2: BackToBack): (r: Option<BackToBackCouples>)
    reads couple1.beau, couple2.beau
    ensures r.Some? <==> (couple1.beau.ordinal < couple2.beau.ordinal
      && couple1.beau in bb1.Dancers() && couple2.belle in bb1.Dancers()
      && couple2.beau in bb2.Dancers() && couple1.belle in bb2.Dancers())
    ensures r.Some? ==> r.value == BackToBackCouples(couple1, couple2, bb1, bb2)
  {
    TwoDancerTests(OfBackToBack(bb1), couple1.beau, couple2.belle);
    TwoDancerTests(OfBackToBack(bb2), couple2.beau, couple1.belle);
    if !OrderedDancers([couple1.beau, couple2.beau]) then None
    else if !HasDancers(OfBackToBack(bb1), [couple1.beau, couple2.belle]) then None
    else if !HasDancers(OfBackToBack(bb2), [couple2.beau, couple1.belle]) then None
    else Some(BackToBackCouples(couple1, couple2, bb1, bb2))
  }

  /**
   * Where the couples are different dancers, a FacingCouples is only
   * emitted for one order of the two couples: the ordinal test keeps out
   * the swapped arguments.
   */
  lemma FacingCouplesOnce(couple1: Couple, couple2: Couple, facing1: FaceToFace, facing2: FaceToFace)
    requires FacingCouplesRule(couple1, couple2, facing1, facing2).Some?
    ensures couple1.beau != couple2.beau
    ensures FacingCouplesRule(couple2, couple1, facing2, facing1).None?
    ensures FacingCouplesRule(couple2, couple1, facing1, facing2).None?
  {
  }

  /**
   * rule_BoxOfFour: two different miniwaves, tandems facing opposite
   * ways, miniWave1 holding tandem1's leader and tandem2's trailer, and
   * miniWave2 holding tandem2's leader and tandem1's trailer.
   */
  function BoxOfFourRule(mw1: MiniWave, mw2: MiniWave, tandem1: Tandem, tandem2: Tandem): (r: Option<BoxOfFour>)
    reads tandem1.leader, tandem2.leader
    ensures r.Some? <==> (mw1 != mw2
      && Opposite(tandem1.Direction()) == tandem2.Direction()
      && tandem1.leader in mw1.Dancers() && tandem2.trailer in mw1.Dancers()
      && tandem2.leader in mw2.Dancers() && tandem1.trailer in mw2.Dancers())
    ensures r.Some? ==> r.value == BoxOfFour(mw1, mw2, tandem1, tandem2)
  {
    if mw1 == mw2 then None
    else if Opposite(tandem1.Direction()) != tandem2.Direction() then None
    else if !OfMiniWave(mw1).HasDancer(tandem1.leader) then None
    else if !OfMiniWave(mw1).HasDancer(tandem2.trailer) then None
    else if !OfMiniWave(mw2).HasDancer(tandem2.leader) then None
    else if !OfMiniWave(mw2).HasDancer(tandem1.trailer) then None
    else Some(BoxOfFour(mw1, mw2, tandem1, tandem2))
  }

  /** The direction test also keeps out a tandem paired with itself. */
  lemma BoxOfFourTandemsDiffer(mw1: MiniWave, mw2: MiniWave, tandem1: Tandem, tandem2: Tandem)
    requires BoxOfFourRule(mw1, mw2, tandem1, tandem2).Some?
    ensures tandem1 != tandem2
  {
    QuarterTurnsDistinct(tandem1.Direction());
  }

  /**
   * Go compares the two mini-waves by reference and the model by value.
   * Two mini-waves holding the same dancers never pass the later tests
   * when the tandems are real ones (two different dancers facing one
   * way), so the comparison cannot change what the rule emits.
   */
  lemma SameDancersMakeNoBox(mw1: MiniWave, mw2: MiniWave, tandem1: Tandem, tandem2: Tandem)
    requires forall d :: d in mw1.Dancers() <==> d in mw2.Dancers()
    requires tandem1.leader != tandem1.trailer && tandem1.leader.direction == tandem1.trailer.direction
    requires tandem2.leader != tandem2.trailer && tandem2.leader.direction == tandem2.trailer.direction
    ensures !(Opposite(tandem1.Direction()) == tandem2.Direction()
      && tandem1.leader in mw1.Dancers() && tandem2.trailer in mw1.Dancers()
      && tandem2.leader in mw2.Dancers() && tandem1.trailer in mw2.Dancers())
  {
    QuarterTurnsDistinct(tandem1.Direction());
  }

  /** dancer.Positions: the positions of the dancers, in order. */
  function Positions(ds: seq<Dancer>): (r: seq<Position>)
    reads ds
    ensures |r| == |ds|
    ensures forall i :: 0 <= i < |ds| ==> r[i] == ds[i].position
  {
    if ds == [] then [] else Positions(ds[..|ds| - 1]) + [ds[|ds| - 1].position]
  }

  /**
   * rule_Star: the two miniwaves share a centre, and one dancer of
   * miniWave2 faces a quarter left of miniWave1's Dancer1.
   */
  function StarRule(sp: Space, mw1: MiniWave, mw2: MiniWave): (r: Option<Star>)
    reads mw1.dancer1, mw1.dancer2, mw2.dancer1, mw2.dancer2
    ensures r.Some? <==> (sp.center(Positions(mw1.Dancers())) == sp.center(Positions(mw2.Dancers()))
      && (mw2.dancer1.direction == QuarterLeft(mw1.dancer1.direction)
       || mw2.dancer2.direction == QuarterLeft(mw1.dancer1.direction)))
    ensures r.Some? ==> r.value == Star(mw1, mw2)
  {
    if sp.center(Positions(mw1.Dancers())) != sp.center(Positions(mw2.Dancers())) then None
    else
      var dir := QuarterLeft(mw1.dancer1.direction);
      if !(dir == mw2.dancer1.direction || dir == mw2.dancer2.direction) then None
      else Some(Star(mw1, mw2))
  }

  /** A star is never made of one miniwave twice: a dancer never faces a quarter turn from itself. */
  lemma StarMiniWavesDiffer(sp: Space, mw1: MiniWave, mw2: MiniWave)
    requires StarRule(sp, mw1, mw2).Some?
    requires mw2.dancer2.direction == Opposite(mw2.dancer1.direction)
    ensures mw1 != mw2
  {
    QuarterTurnsDistinct(mw1.dancer1.direction);
  }

  /** rule_LineOfFour: couple1's belle is the centre couple's beau, whose belle is couple3's beau. */
  function LineOfFourRule(c1: Couple, c2: Couple, c3: Couple): (r: Option<LineOfFour>)
    ensures r.Some? <==> (c1.belle == c2.beau && c2.belle == c3.beau)
    ensures r.Some? ==> r.value == LineOfFour(c1, c2, c3)
  {
    if c1.belle != c2.beau then None
    else if c2.belle != c3.beau then None
    else Some(LineOfFour(c1, c2, c3))
  }

  /**
   * In a line of four distinct dancers the centres are the inner dancers
   * of the outer couples, the ends their outer dancers, and the beaus and
   * belles alternate along the line.
   */
  lemma LineOfFourShape(c1: Couple, c2: Couple, c3: Couple)
    requires LineOfFourRule(c1, c2, c3).Some?
    requires NoDuplicates([c1.beau, c1.belle, c3.beau, c3.belle])
    ensures LineOfFourRule(c1, c2, c3).value.Dancers() == [c1.beau, c1.belle, c3.beau, c3.belle]
    ensures LineOfFourRule(c1, c2, c3).value.Centers() == [c1.belle, c3.beau]
    ensures LineOfFourRule(c1, c2, c3).value.Ends() == [c1.beau, c3.belle]
    ensures LineOfFourRule(c1, c2, c3).value.Beaus() == [c1.beau, c3.beau]
    ensures LineOfFourRule(c1, c2, c3).value.Belles() == [c1.belle, c3.belle]
  {
    var a, b, c, d := c1.beau, c1.belle, c3.beau, c3.belle;
    assert [a, b, c, d][0] == a && [a, b, c, d][1] == b && [a, b, c, d][2] == c && [a, b, c, d][3] == d;
    assert a != b && a != c && a != d && b != c && b != d && c != d;
    UnionOfDisjoint(c1.Dancers(), c3.Dancers());
    assert c1.Dancers() + c3.Dancers() == [a, b, c, d];
    UnionOfDisjoint(c1.Beaus(), c3.Beaus());
    UnionOfDisjoint(c1.Belles(), c3.Belles());
    DifferenceOfFour(a, b, c, d);
  }

  /** Removing the inner two of four distinct dancers leaves the outer two. */
  lemma DifferenceOfFour(a: Dancer, b: Dancer, c: Dancer, d: Dancer)
    requires a != b && a != c && a != d && b != c && b != d && c != d
    ensures Difference([a, b, c, d], [b, c]) == [a, d]
  {
    var all := [a, b, c, d];
    assert all[..1] == [a] && all[..1][..0] == [];
    assert Difference(all[..1], [b, c]) == [a];
    assert all[..2][..1] == all[..1];
    assert Difference(all[..2], [b, c]) == [a];
    assert all[..3][..2] == all[..2];
    assert Difference(all[..3], [b, c]) == [a];
    assert all[..3] == all[..|all| - 1];
  }

  /** Two duplicate-free sequences with nothing in common unite to their concatenation. */
  lemma UnionOfDisjoint(a: seq<Dancer>, b: seq<Dancer>)
    requires NoDuplicates(a + b)
    ensures UnionOf(a, b) == a + b
  {
    DedupOfDistinct(a + b);
  }

  /** Dedup leaves a sequence without duplicates as it is. */
  lemma {:induction false} DedupOfDistinct(s: seq<Dancer>)
    requires NoDuplicates(s)
    ensures Dedup(s) == s
  {
    if s != [] {
      var init := s[..|s| - 1];
      assert NoDuplicates(init) by {
        forall i, j | 0 <= i < j < |init| ensures init[i] != init[j] {
          assert init[i] == s[i] && init[j] == s[j];
        }
      }
      DedupOfDistinct(init);
      assert s[|s| - 1] !in init;
      assert s == init + [s[|s| - 1]];
    }
  }

  /**
   * rule_WaveOfFour: the outer miniwaves both have the handedness
   * opposite to the centre one. The membership tests that follow never
   * reject, since a miniwave always holds its own dancers.
   */
  function WaveOfFourRule(sp: Space, mw1: MiniWave, mw2: MiniWave, mw3: MiniWave): (r: Option<WaveOfFour>)
    reads mw1.dancer1, mw1.dancer2, mw2.dancer1, mw2.dancer2, mw3.dancer1, mw3.dancer2
    ensures r.Some? <==> (mw1.Handedness(sp) == Hands.Opposite(mw2.Handedness(sp))
      && mw3.Handedness(sp) == Hands.Opposite(mw2.Handedness(sp))
      && CentreShared(mw1, mw2))
    ensures r.Some? ==> r.value == WaveOfFour(mw2, mw1, mw3)
  {
    var centre := mw2.Handedness(sp);
    if mw1.Handedness(sp) != Hands.Opposite(centre) then None
    else if mw3.Handedness(sp) != Hands.Opposite(centre) then None
    else if !CentreShared(mw1, mw2) then None
    else Some(WaveOfFour(mw2, mw1, mw3))
  }

  /**
   * The membership test of rule_WaveOfFour: when miniWave1 holds one of
   * the centre miniwave's dancers, the centre must hold the other.
   */
  function CentreShared(mw1: MiniWave, mw2: MiniWave): bool
  {
    if OfMiniWave(mw1).HasDancer(mw2.dancer1) then OfMiniWave(mw2).HasDancer(mw2.dancer2)
    else if OfMiniWave(mw1).HasDancer(mw2.dancer2) then OfMiniWave(mw2).HasDancer(mw2.dancer1)
    else true
  }

  /**
   * The membership test of rule_WaveOfFour never rejects, since a
   * miniwave holds both of its own dancers: the rule emits exactly when
   * the handedness alternates.
   */
  lemma CentreSharedAlways(sp: Space, mw1: MiniWave, mw2: MiniWave, mw3: MiniWave)
    ensures CentreShared(mw1, mw2)
    ensures WaveOfFourRule(sp, mw1, mw2, mw3).Some? <==> (mw1.Handedness(sp) == Hands.Opposite(mw2.Handedness(sp))
      && mw3.Handedness(sp) == Hands.Opposite(mw2.Handedness(sp)))
  {
    assert mw2.Dancers()[0] == mw2.dancer1 && mw2.Dancers()[1] == mw2.dancer2;
  }

  /**
   * In an emitted wave the handedness alternates: the outer miniwaves
   * agree with each other, differ from the centre, and the wave takes
   * the handedness of its first outer miniwave.
   */
  lemma WaveOfFourHandedness(sp: Space, mw1: MiniWave, mw2: MiniWave, mw3: MiniWave)
    requires WaveOfFourRule(sp, mw1, mw2, mw3).Some?
    ensures mw1.Handedness(sp) == mw3.Handedness(sp)
    ensures mw1.Handedness(sp) != mw2.Handedness(sp)
    ensures mw2.Handedness(sp) == Hands.Opposite(mw1.Handedness(sp))
    ensures WaveOfFourRule(sp, mw1, mw2, mw3).value.Handedness(sp) == mw1.Handedness(sp)
  {
    Hands.OppositeInvolution(mw2.Handedness(sp));
  }

  /**
   * rule_TwoFacedLine: two different couples, with the centre miniwave
   * holding both beaus or both belles.
   */
  function TwoFacedLineRule(c1: Couple, c2: Couple, mw: MiniWave): (r: Option<TwoFacedLine>)
    ensures r.Some? <==> (!(c1.beau == c2.beau && c1.belle == c2.belle)
      && ((c1.beau in mw.Dancers() && c2.beau in mw.Dancers())
       || (c1.belle in mw.Dancers() && c2.belle in mw.Dancers())))
    ensures r.Some? ==> r.value == TwoFacedLine(c1, c2, mw)
  {
    if c1.beau == c2.beau && c1.belle == c2.belle then None
    else if !((OfMiniWave(mw).HasDancer(c1.beau) && OfMiniWave(mw).HasDancer(c2.beau))
           || (OfMiniWave(mw).HasDancer(c1.belle) && OfMiniWave(mw).HasDancer(c2.belle))) then None
    else Some(TwoFacedLine(c1, c2, mw))
  }

  /** An emitted two-faced line takes the handedness of its centre miniwave, and is never NoHanded. */
  lemma TwoFacedLineHandedness(sp: Space, c1: Couple, c2: Couple, mw: MiniWave)
    requires TwoFacedLineRule(c1, c2, mw).Some?
    ensures TwoFacedLineRule(c1, c2, mw).value.Handedness(sp) == mw.Handedness(sp)
    ensures TwoFacedLineRule(c1, c2, mw).value.Handedness(sp) != Hands.NoHanded
    ensures c1 != c2
  {
  }
}
