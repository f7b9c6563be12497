/**
 * The formations of the reasoning package: the Formation interface, the
 * two- and four-dancer formation types with their role accessors, the
 * HasDancers and OrderedDancers guards the rules use, and the registry
 * of formation type names.
 *
 * Go formations are pointers to generated structs; here each formation
 * kind is a datatype holding its dancers (references) and sub-formations,
 * and the Formation interface is the union datatype Formation. The
 * generated Dancers() of a composite formation is the union of the
 * dancers of the sub-formations its declaration marks fe:"dancers".
 */
module Formations {
  import opened Geometry
  import opened Dancers
  import opened Hands
  import opened Relations
  import opened Wrappers

  // ---------------------------------------------------------------
  // Two-dancer formations

  /** Two dancers side by side facing the same way; the beau on the left. */
  datatype Couple = Couple(beau: Dancer, belle: Dancer)
  {
    function Dancers(): seq<Dancer> { [beau, belle] }
    function Beaus(): seq<Dancer> { [beau] }
    function Belles(): seq<Dancer> { [belle] }
  }

  /** Two dancers facing opposite ways, each to the same side of the other. */
  datatype MiniWave = MiniWave(dancer1: Dancer, dancer2: Dancer)
  {
    function Dancers(): seq<Dancer> { [dancer1, dancer2] }

    /** Right-handed when dancer2 is to dancer1's right, left-handed otherwise. */
    function Handedness(sp: Space): (h: Handedness)
      reads dancer1, dancer2
      ensures h == RightHanded <==> RightOf(sp, dancer1, dancer2)
      ensures h != NoHanded
    {
      if RightOf(sp, dancer1, dancer2) then RightHanded else LeftHanded
    }

    function Beaus(sp: Space): seq<Dancer>
      reads dancer1, dancer2
    {
      var h := Handedness(sp);
      assert h == RightHanded || h == LeftHanded;
      if h == RightHanded then [dancer1, dancer2] else []
    }

    function Belles(sp: Space): seq<Dancer>
      reads dancer1, dancer2
    {
      var h := Handedness(sp);
      assert h == RightHanded || h == LeftHanded;
      if h == RightHanded then [] else [dancer1, dancer2]
    }
  }

  /** Two dancers facing each other. */
  datatype FaceToFace = FaceToFace(dancer1: Dancer, dancer2: Dancer)
  {
    function Dancers(): seq<Dancer> { [dancer1, dancer2] }
    function Leaders(): seq<Dancer> { [] }
    function Trailers(): seq<Dancer> { [dancer1, dancer2] }
  }

  /** Two dancers with their backs to each other. */
  datatype BackToBack = BackToBack(dancer1: Dancer, dancer2: Dancer)
  {
    function Dancers(): seq<Dancer> { [dancer1, dancer2] }
    function Leaders(): seq<Dancer> { [dancer1, dancer2] }
  }

  /** Two dancers facing the same way, the leader in front of the trailer. */
  datatype Tandem = Tandem(leader: Dancer, trailer: Dancer)
  {
    function Dancers(): seq<Dancer> { [leader, trailer] }
    function Leaders(): seq<Dancer> { [leader] }
    function Trailers(): seq<Dancer> { [trailer] }

    /** The direction the tandem faces: its leader's. */
    function Direction(): Direction
      reads leader
    {
      leader.direction
    }
  }

  // ---------------------------------------------------------------
  // Four-dancer formations

  datatype FacingCouples = FacingCouples(couple1: Couple, couple2: Couple, facing1: FaceToFace, facing2: FaceToFace)
  {
    function Dancers(): seq<Dancer> { UnionOf(couple1.Dancers(), couple2.Dancers()) }
    function Beaus(): seq<Dancer> { UnionOf(couple1.Beaus(), couple2.Beaus()) }
    function Belles(): seq<Dancer> { UnionOf(couple1.Belles(), couple2.Belles()) }
    function Leaders(): seq<Dancer> { UnionOf(facing1.Leaders(), facing2.Leaders()) }
    function Trailers(): seq<Dancer> { UnionOf(facing1.Trailers(), facing2.Trailers()) }
  }

  datatype TandemCouples = TandemCouples(couple1: Couple, couple2: Couple, beausTandem: Tandem, bellesTandem: Tandem)
  {
    function Dancers(): seq<Dancer> { UnionOf(couple1.Dancers(), couple2.Dancers()) }
    function Beaus(): seq<Dancer> { beausTandem.Dancers() }
    function Belles(): seq<Dancer> { bellesTandem.Dancers() }
    function Leaders(): seq<Dancer> { UnionOf(beausTandem.Leaders(), bellesTandem.Leaders()) }
    function Trailers(): seq<Dancer> { UnionOf(beausTandem.Trailers(), bellesTandem.Trailers()) }
  }

  datatype BackToBackCouples = BackToBackCouples(couple1: Couple, couple2: Couple, backToBack1: BackToBack, backToBack2: BackToBack)
  {
    function Dancers(): seq<Dancer> { UnionOf(couple1.Dancers(), couple2.Dancers()) }
    function Beaus(): seq<Dancer> { UnionOf(couple1.Beaus(), couple2.Beaus()) }
    function Belles(): seq<Dancer> { UnionOf(couple1.Belles(), couple2.Belles()) }
    function Leaders(): seq<Dancer> { Dancers() }
    function Trailers(): seq<Dancer> { [] }
  }

  datatype BoxOfFour = BoxOfFour(miniWave1: MiniWave, miniWave2: MiniWave, tandem1: Tandem, tandem2: Tandem)
  {
    function Dancers(): seq<Dancer> { UnionOf(miniWave1.Dancers(), miniWave2.Dancers()) }

    function Handedness(sp: Space): Handedness
      reads miniWave1.dancer1, miniWave1.dancer2
    {
      miniWave1.Handedness(sp)
    }

    function Beaus(sp: Space): seq<Dancer>
      reads miniWave1.dancer1, miniWave1.dancer2, miniWave2.dancer1, miniWave2.dancer2
    {
      UnionOf(miniWave1.Beaus(sp), miniWave2.Beaus(sp))
    }

    function Belles(sp: Space): seq<Dancer>
      reads miniWave1.dancer1, miniWave1.dancer2, miniWave2.dancer1, miniWave2.dancer2
    {
      UnionOf(miniWave1.Belles(sp), miniWave2.Belles(sp))
    }

    function Leaders(): seq<Dancer> { UnionOf(tandem1.Leaders(), tandem2.Leaders()) }
    function Trailers(): seq<Dancer> { UnionOf(tandem1.Trailers(), tandem2.Trailers()) }
  }

  datatype Star = Star(miniWave1: MiniWave, miniWave2: MiniWave)
  {
    function Dancers(): seq<Dancer> { UnionOf(miniWave1.Dancers(), miniWave2.Dancers()) }

    function Handedness(sp: Space): Handedness
      reads miniWave1.dancer1, miniWave1.dancer2
    {
      miniWave1.Handedness(sp)
    }

    function Beaus(sp: Space): seq<Dancer>
      reads miniWave1.dancer1, miniWave1.dancer2, miniWave2.dancer1, miniWave2.dancer2
    {
      UnionOf(miniWave1.Beaus(sp), miniWave2.Beaus(sp))
    }

    function Belles(sp: Space): seq<Dancer>
      reads miniWave1.dancer1, miniWave1.dancer2, miniWave2.dancer1, miniWave2.dancer2
    {
      UnionOf(miniWave1.Belles(sp), miniWave2.Belles(sp))
    }
  }

  /** The centre couple is not part of Dancers(): it is made of the inner dancers of the other two. */
  datatype LineOfFour = LineOfFour(leftCouple: Couple, centerCouple: Couple, rightCouple: Couple)
  {
    function Dancers(): seq<Dancer> { UnionOf(leftCouple.Dancers(), rightCouple.Dancers()) }
    function Beaus(): seq<Dancer> { UnionOf(leftCouple.Beaus(), rightCouple.Beaus()) }
    function Belles(): seq<Dancer> { UnionOf(leftCouple.Belles(), rightCouple.Belles()) }
    function Centers(): seq<Dancer> { centerCouple.Dancers() }
    function Ends(): seq<Dancer> { Difference(Dancers(), Centers()) }
  }

  datatype WaveOfFour = WaveOfFour(centerMiniWave: MiniWave, miniWave1: MiniWave, miniWave2: MiniWave)
  {
    function Dancers(): seq<Dancer> { UnionOf(miniWave1.Dancers(), miniWave2.Dancers()) }

    function Handedness(sp: Space): Handedness
      reads miniWave1.dancer1, miniWave1.dancer2
    {
      miniWave1.Handedness(sp)
    }

    function Beaus(sp: Space): seq<Dancer>
      reads miniWave1.dancer1, miniWave1.dancer2, miniWave2.dancer1, miniWave2.dancer2
    {
      UnionOf(miniWave1.Beaus(sp), miniWave2.Beaus(sp))
    }

    function Belles(sp: Space): seq<Dancer>
      reads miniWave1.dancer1, miniWave1.dancer2, miniWave2.dancer1, miniWave2.dancer2
    {
      UnionOf(miniWave1.Belles(sp), miniWave2.Belles(sp))
    }

    function Centers(): seq<Dancer> { centerMiniWave.Dancers() }
    function Ends(): seq<Dancer> { Difference(Dancers(), Centers()) }
  }

  datatype TwoFacedLine = TwoFacedLine(couple1: Couple, couple2: Couple, centerMiniWave: MiniWave)
  {
    function Dancers(): seq<Dancer> { UnionOf(couple1.Dancers(), couple2.Dancers()) }

    function Handedness(sp: Space): Handedness
      reads centerMiniWave.dancer1, centerMiniWave.dancer2
    {
      centerMiniWave.Handedness(sp)
    }

    function Beaus(): seq<Dancer> { UnionOf(couple1.Beaus(), couple2.Beaus()) }
    function Belles(): seq<Dancer> { UnionOf(couple1.Belles(), couple2.Belles()) }
    function Centers(): seq<Dancer> { centerMiniWave.Dancers() }
    function Ends(): seq<Dancer> { Difference(Dancers(), Centers()) }
  }

  // ---------------------------------------------------------------
  // The Formation interface

  /**
   * Anything with dancers: a single dancer, a group of dancers, or one of
   * the formation kinds above.
   */
  datatype Formation =
    | OfDancer(dancer: Dancer)
    | OfDancers(group: seq<Dancer>)
    | OfCouple(couple: Couple)
    | OfMiniWave(miniWave: MiniWave)
    | OfFaceToFace(faceToFace: FaceToFace)
    | OfBackToBack(backToBack: BackToBack)
    | OfTandem(tandem: Tandem)
    | OfFacingCouples(facingCouples: FacingCouples)
    | OfTandemCouples(tandemCouples: TandemCouples)
    | OfBackToBackCouples(backToBackCouples: BackToBackCouples)
    | OfBoxOfFour(boxOfFour: BoxOfFour)
    | OfStar(star: Star)
    | OfLineOfFour(lineOfFour: LineOfFour)
    | OfWaveOfFour(waveOfFour: WaveOfFour)
    | OfTwoFacedLine(twoFacedLine: TwoFacedLine)
  {
    function Dancers(): seq<Dancer>
    {
      match this
      case OfDancer(d) => d.Dancers()
      case OfDancers(g) => g
      case OfCouple(f) => f.Dancers()
      case OfMiniWave(f) => f.Dancers()
      case OfFaceToFace(f) => f.Dancers()
      case OfBackToBack(f) => f.Dancers()
      case OfTandem(f) => f.Dancers()
      case OfFacingCouples(f) => f.Dancers()
      case OfTandemCouples(f) => f.Dancers()
      case OfBackToBackCouples(f) => f.Dancers()
      case OfBoxOfFour(f) => f.Dancers()
      case OfStar(f) => f.Dancers()
      case OfLineOfFour(f) => f.Dancers()
      case OfWaveOfFour(f) => f.Dancers()
      case OfTwoFacedLine(f) => f.Dancers()
    }

    function NumberOfDancers(): (r: int)
      ensures r == |Dancers()|
    {
      match this
      case OfDancer(d) => d.NumberOfDancers()
      case OfDancers(g) => NumberOfDancersIn(g)
      case _ => |Dancers()|
    }

    function HasDancer(d: Dancer): (r: bool)
      ensures r <==> d in Dancers()
    {
      match this
      case OfDancer(d1) => d1.HasDancer(d)
      case _ => HasDancerIn(Dancers(), d)
    }
  }

  /** HasDancers: f contains every one of the dancers (so any f contains none). */
  function HasDancers(f: Formation, ds: seq<Dancer>): (r: bool)
    ensures r <==> forall i :: 0 <= i < |ds| ==> ds[i] in f.Dancers()
  {
    if ds == [] then true
    else if !f.HasDancer(ds[0]) then false
    else HasDancers(f, ds[1..])
  }

  /** OrderedDancers: each dancer's ordinal is below the next one's. */
  function OrderedDancers(ds: seq<Dancer>): (r: bool)
    reads ds
    ensures r <==> forall i :: 0 <= i < |ds| - 1 ==> ds[i].ordinal < ds[i + 1].ordinal
  {
    if |ds| < 2 then true
    else if ds[0].ordinal >= ds[1].ordinal then false
    else OrderedDancers(ds[1..])
  }

  /** The two-dancer forms of HasDancers and OrderedDancers that the four-dancer rules use. */
  lemma TwoDancerTests(f: Formation, a: Dancer, b: Dancer)
    ensures HasDancers(f, [a, b]) <==> a in f.Dancers() && b in f.Dancers()
    ensures OrderedDancers([a, b]) <==> a.ordinal < b.ordinal
  {
    assert [a, b][0] == a && [a, b][1] == b;
  }

  /** Dancers in order are strictly ascending by ordinal, hence all distinct. */
  lemma {:induction false} OrderedDancersAscending(ds: seq<Dancer>)
    requires OrderedDancers(ds)
    ensures forall i, j :: 0 <= i < j < |ds| ==> ds[i].ordinal < ds[j].ordinal
    ensures NoDuplicates(ds)
  {
    if |ds| >= 2 {
      OrderedDancersAscending(ds[1..]);
      forall i, j | 0 <= i < j < |ds| ensures ds[i].ordinal < ds[j].ordinal {
        if i > 0 {
          assert ds[i] == ds[1..][i - 1] && ds[j] == ds[1..][j - 1];
        } else if j > 1 {
          assert ds[1] == ds[1..][0] && ds[j] == ds[1..][j - 1];
        }
      }
    }
  }

  // ---------------------------------------------------------------
  // Role lemmas

  /** A MiniWave is exactly one of right- or left-handed, and its dancers are either both beaus or both belles. */
  lemma MiniWaveRoles(sp: Space, mw: MiniWave)
    ensures mw.Handedness(sp) == RightHanded || mw.Handedness(sp) == LeftHanded
    ensures mw.Handedness(sp) == RightHanded ==> mw.Beaus(sp) == mw.Dancers() && mw.Belles(sp) == []
    ensures mw.Handedness(sp) == LeftHanded ==> mw.Belles(sp) == mw.Dancers() && mw.Beaus(sp) == []
    ensures mw.Beaus(sp) + mw.Belles(sp) == mw.Dancers()
  {
  }

  /**
   * The two-dancer roles split each formation's dancers: a couple into
   * its beau and its belle, a tandem into its leader and its trailer;
   * face-to-face dancers all trail and back-to-back dancers all lead.
   */
  lemma TwoDancerRoles(c: Couple, ff: FaceToFace, bb: BackToBack, t: Tandem)
    ensures c.Beaus() + c.Belles() == c.Dancers()
    ensures ff.Leaders() == [] && ff.Trailers() == ff.Dancers()
    ensures bb.Leaders() == bb.Dancers()
    ensures t.Leaders() + t.Trailers() == t.Dancers()
  {
  }

  /** Every dancer of two couples is a beau or a belle of one of them, and every beau and belle is one of the dancers. */
  lemma CouplesRolesCover(c1: Couple, c2: Couple, dancers: seq<Dancer>, beaus: seq<Dancer>, belles: seq<Dancer>)
    requires dancers == UnionOf(c1.Dancers(), c2.Dancers())
    requires beaus == UnionOf(c1.Beaus(), c2.Beaus()) && belles == UnionOf(c1.Belles(), c2.Belles())
    ensures forall i :: 0 <= i < |dancers| ==> dancers[i] in beaus || dancers[i] in belles
    ensures forall i :: 0 <= i < |beaus| ==> beaus[i] in dancers
    ensures forall i :: 0 <= i < |belles| ==> belles[i] in dancers
  {
    assert c1.Beaus()[0] in beaus && c2.Beaus()[0] in beaus;
    assert c1.Belles()[0] in belles && c2.Belles()[0] in belles;
    assert c1.Dancers()[0] in dancers && c1.Dancers()[1] in dancers;
    assert c2.Dancers()[0] in dancers && c2.Dancers()[1] in dancers;
  }

  /** FacingCouples: every dancer is a trailer, no dancer is a leader, and beaus and belles cover the dancers. */
  lemma FacingCouplesRoles(f: FacingCouples)
    ensures f.Leaders() == []
    ensures forall i :: 0 <= i < |f.Trailers()| ==> f.Trailers()[i] in f.facing1.Dancers() || f.Trailers()[i] in f.facing2.Dancers()
    ensures forall d :: d in f.facing1.Dancers() || d in f.facing2.Dancers() ==> d in f.Trailers()
    ensures forall i :: 0 <= i < |f.Dancers()| ==> f.Dancers()[i] in f.Beaus() || f.Dancers()[i] in f.Belles()
  {
    assert UnionOf([], []) == [];
    CouplesRolesCover(f.couple1, f.couple2, f.Dancers(), f.Beaus(), f.Belles());
    var t := f.Trailers();
    assert f.facing1.Trailers()[0] in t && f.facing1.Trailers()[1] in t;
    assert f.facing2.Trailers()[0] in t && f.facing2.Trailers()[1] in t;
  }

  /** TandemCouples: the beaus are the beaus' tandem, and every leader or trailer comes from one of the tandems. */
  lemma TandemCouplesRoles(f: TandemCouples)
    ensures f.Beaus() == [f.beausTandem.leader, f.beausTandem.trailer]
    ensures f.Belles() == [f.bellesTandem.leader, f.bellesTandem.trailer]
    ensures forall i :: 0 <= i < |f.Leaders()| ==> f.Leaders()[i] == f.beausTandem.leader || f.Leaders()[i] == f.bellesTandem.leader
    ensures f.beausTandem.leader in f.Leaders() && f.bellesTandem.leader in f.Leaders()
    ensures forall i :: 0 <= i < |f.Trailers()| ==> f.Trailers()[i] == f.beausTandem.trailer || f.Trailers()[i] == f.bellesTandem.trailer
    ensures f.beausTandem.trailer in f.Trailers() && f.bellesTandem.trailer in f.Trailers()
  {
    assert f.beausTandem.Leaders()[0] in f.Leaders() && f.bellesTandem.Leaders()[0] in f.Leaders();
    assert f.beausTandem.Trailers()[0] in f.Trailers() && f.bellesTandem.Trailers()[0] in f.Trailers();
  }

  /** BackToBackCouples: every dancer leads, none trails, and beaus and belles cover the dancers. */
  lemma BackToBackCouplesRoles(f: BackToBackCouples)
    ensures f.Leaders() == f.Dancers() && f.Trailers() == []
    ensures forall i :: 0 <= i < |f.Dancers()| ==> f.Dancers()[i] in f.Beaus() || f.Dancers()[i] in f.Belles()
    ensures forall i :: 0 <= i < |f.Beaus()| ==> f.Beaus()[i] == f.couple1.beau || f.Beaus()[i] == f.couple2.beau
  {
    CouplesRolesCover(f.couple1, f.couple2, f.Dancers(), f.Beaus(), f.Belles());
  }

  /** In a line, the ends are the dancers that are not centres: disjoint from the centres and together covering the line. */
  lemma EndsAndCenters(dancers: seq<Dancer>, centers: seq<Dancer>, ends: seq<Dancer>)
    requires ends == Difference(dancers, centers)
    ensures forall i :: 0 <= i < |ends| ==> ends[i] in dancers && ends[i] !in centers
    ensures forall i :: 0 <= i < |dancers| ==> dancers[i] in ends || dancers[i] in centers
  {
  }

  /** LineOfFour, WaveOfFour and TwoFacedLine split their dancers into ends and centres. */
  lemma LinesSplitIntoEndsAndCenters(line: LineOfFour, wave: WaveOfFour, tfl: TwoFacedLine)
    ensures forall i :: 0 <= i < |line.Ends()| ==> line.Ends()[i] !in line.Centers()
    ensures forall i :: 0 <= i < |line.Dancers()| ==> line.Dancers()[i] in line.Ends() || line.Dancers()[i] in line.Centers()
    ensures forall i :: 0 <= i < |wave.Ends()| ==> wave.Ends()[i] !in wave.Centers()
    ensures forall i :: 0 <= i < |wave.Dancers()| ==> wave.Dancers()[i] in wave.Ends() || wave.Dancers()[i] in wave.Centers()
    ensures forall i :: 0 <= i < |tfl.Ends()| ==> tfl.Ends()[i] !in tfl.Centers()
    ensures forall i :: 0 <= i < |tfl.Dancers()| ==> tfl.Dancers()[i] in tfl.Ends() || tfl.Dancers()[i] in tfl.Centers()
  {
    EndsAndCenters(line.Dancers(), line.Centers(), line.Ends());
    EndsAndCenters(wave.Dancers(), wave.Centers(), wave.Ends());
    EndsAndCenters(tfl.Dancers(), tfl.Centers(), tfl.Ends());
  }

  /** The miniwave-based four-dancer formations are never NoHanded. */
  lemma FourDancerHandedness(sp: Space, box: BoxOfFour, star: Star, wave: WaveOfFour, tfl: TwoFacedLine)
    ensures box.Handedness(sp) != NoHanded && star.Handedness(sp) != NoHanded
    ensures wave.Handedness(sp) != NoHanded && tfl.Handedness(sp) != NoHanded
  {
  }

  // ---------------------------------------------------------------
  // Registered formation types

  /** A formation type, known by its name. */
  datatype FormationType = FormationType(name: string)

  /** AllFormationTypes: formation types by name. */
  class FormationTypeRegistry {
    var types: map<string, FormationType>

    /** Every entry is filed under its own name. */
    ghost predicate Valid()
      reads this
    {
      forall name :: name in types ==> types[name].name == name
    }

    /** The registry as initialised: only the Dancer and Dancers entries. */
    constructor()
      ensures Valid()
      ensures types == map["Dancer" := FormationType("Dancer"), "Dancers" := FormationType("Dancers")]
    {
      types := map["Dancer" := FormationType("Dancer"), "Dancers" := FormationType("Dancers")];
    }

    /** Files a formation type under its name, as the generated formation code does. */
    method Register(t: FormationType)
      requires Valid()
      modifies this
      ensures Valid()
      ensures types == old(types)[t.name := t]
    {
      types := types[t.name := t];
    }

    /** LookupFormationType: the type registered under name; a failure (Go panics) for an unknown name. */
    function LookupFormationType(name: string): (r: Result<FormationType, string>)
      reads this
      ensures r.Success? <==> name in types
      ensures r.Success? ==> r.value == types[name]
    {
      if name in types then Success(types[name]) else Failure("No formation named " + name)
    }

    /** A successful lookup returns a type with the name asked for. */
    lemma LookupByName(name: string)
      requires Valid()
      ensures LookupFormationType(name).Success? ==> LookupFormationType(name).value.name == name
    {
    }
  }
}
