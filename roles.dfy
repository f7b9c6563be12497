/**
 * Roles that depend only on the dancers themselves: which dancers of a
 * formation are original or current heads and sides.
 */
module Roles {
  import opened Geometry
  import opened Dancers
  import opened Formations

  /** The role functions, one constructor each. */
  datatype Role = OriginalHead | OriginalSide | CurrentHead | CurrentSide

  /** Roles: the registered role functions, in registration order. */
  const AllRoles: seq<Role> := [OriginalHead, OriginalSide, CurrentHead, CurrentSide]

  /** The registry lists every role exactly once. */
  lemma AllRolesRegisteredOnce(role: Role)
    ensures role in AllRoles
    ensures |AllRoles| == 4 && forall i, j :: 0 <= i < j < |AllRoles| ==> AllRoles[i] != AllRoles[j]
  {
  }

  /**
   * Whether a dancer plays the role: heads are couples 1 and 3 (or face
   * direction 0 or its opposite), sides are couples 2 and 4 (or face a
   * quarter turn from direction 0).
   */
  predicate Plays(d: Dancer, role: Role)
    reads d
  {
    match role
    case OriginalHead => d.coupleNumber == 1 || d.coupleNumber == 3
    case OriginalSide => d.coupleNumber == 2 || d.coupleNumber == 4
    case CurrentHead => d.direction == Direction0 || d.direction == Opposite(Direction0)
    case CurrentSide => d.direction == QuarterRight(Direction0) || d.direction == QuarterLeft(Direction0)
  }

  /** The dancers of ds that play the role, in the order of ds. */
  function Filter(ds: seq<Dancer>, role: Role): seq<Dancer>
    reads ds
  {
    if ds == [] then []
    else Filter(ds[..|ds| - 1], role) + (if Plays(ds[|ds| - 1], role) then [ds[|ds| - 1]] else [])
  }

  /** The filter keeps exactly the dancers that play the role, and never more dancers than it was given. */
  lemma {:induction false} FilterMembership(ds: seq<Dancer>, role: Role)
    ensures forall i :: 0 <= i < |Filter(ds, role)| ==> Filter(ds, role)[i] in ds && Plays(Filter(ds, role)[i], role)
    ensures forall i :: 0 <= i < |ds| && Plays(ds[i], role) ==> ds[i] in Filter(ds, role)
    ensures |Filter(ds, role)| <= |ds|
  {
    if ds != [] {
      var init := ds[..|ds| - 1];
      FilterMembership(init, role);
      assert ds == init + [ds[|ds| - 1]];
      forall i | 0 <= i < |ds| && Plays(ds[i], role)
        ensures ds[i] in Filter(ds, role)
      {
        if i < |ds| - 1 {
          assert ds[i] == init[i];
        }
      }
    }
  }

  /** r is s with some elements left out, the rest kept in order. */
  ghost predicate SubsequenceOf(r: seq<Dancer>, s: seq<Dancer>)
    decreases |s|
  {
    r == []
    || (s != [] && SubsequenceOf(r, s[..|s| - 1]))
    || (s != [] && r != [] && r[|r| - 1] == s[|s| - 1] && SubsequenceOf(r[..|r| - 1], s[..|s| - 1]))
  }

  /**
   * OriginalHead, OriginalSide, CurrentHead and CurrentSide: the role's
   * dancers, collected in a loop over the formation's dancers.
   */
  method Apply(role: Role, f: Formation) returns (result: seq<Dancer>)
    ensures result == Filter(f.Dancers(), role)
  {
    var ds := f.Dancers();
    result := [];
    for i := 0 to |ds|
      invariant result == Filter(ds[..i], role)
    {
      assert ds[..i + 1][..i] == ds[..i];
      if Plays(ds[i], role) {
        result := result + [ds[i]];
      }
    }
    assert ds[..|ds|] == ds;
  }

  /** Every role keeps the formation's order: its result is a subsequence of the dancers. */
  lemma {:induction false} FilterIsSubsequence(ds: seq<Dancer>, role: Role)
    ensures SubsequenceOf(Filter(ds, role), ds)
  {
    if ds != [] {
      var init := ds[..|ds| - 1];
      FilterIsSubsequence(init, role);
      var r := Filter(ds, role);
      if Plays(ds[|ds| - 1], role) {
        assert r[..|r| - 1] == Filter(init, role) && r[|r| - 1] == ds[|ds| - 1];
      } else {
        assert r == Filter(init, role);
      }
    }
  }

  /** No dancer is both a head and a side, by couple number or by facing. */
  lemma HeadsAndSidesDisjoint(ds: seq<Dancer>)
    ensures forall i :: 0 <= i < |Filter(ds, OriginalHead)| ==> Filter(ds, OriginalHead)[i] !in Filter(ds, OriginalSide)
    ensures forall i :: 0 <= i < |Filter(ds, CurrentHead)| ==> Filter(ds, CurrentHead)[i] !in Filter(ds, CurrentSide)
  {
    FilterMembership(ds, OriginalHead);
    FilterMembership(ds, OriginalSide);
    FilterMembership(ds, CurrentHead);
    FilterMembership(ds, CurrentSide);
    QuarterTurnsDistinct(Direction0);
    QuarterTurnsDistinct(Opposite(Direction0));
    OppositeOfQuarterTurns(Direction0);
  }

  /** Dancers without a couple number (as MakeSomeDancers makes them) are neither original heads nor sides. */
  lemma NoCoupleNoOriginalRole(ds: seq<Dancer>)
    requires forall i :: 0 <= i < |ds| ==> ds[i].coupleNumber == -1
    ensures Filter(ds, OriginalHead) == [] && Filter(ds, OriginalSide) == []
  {
    FilterMembership(ds, OriginalHead);
    FilterMembership(ds, OriginalSide);
  }

  /** Two roles that every dancer of ds plays alike pick the same dancers. */
  lemma {:induction false} FilterAgrees(ds: seq<Dancer>, role1: Role, role2: Role)
    requires forall i :: 0 <= i < |ds| ==> (Plays(ds[i], role1) <==> Plays(ds[i], role2))
    ensures Filter(ds, role1) == Filter(ds, role2)
  {
    if ds != [] {
      FilterAgrees(ds[..|ds| - 1], role1, role2);
    }
  }

  /**
   * In a freshly squared set of four couples the head couples face
   * direction 0 or its opposite and the side couples a quarter turn
   * away, so original and current heads (and sides) are the same dancers.
   */
  lemma SquaredFourCouplesHeadsFaceHeads(sp: Space, s: DancerSet)
    requires Squared(sp, s, 4)
    ensures Filter(s.dancers, OriginalHead) == Filter(s.dancers, CurrentHead)
    ensures Filter(s.dancers, OriginalSide) == Filter(s.dancers, CurrentSide)
  {
    forall i | 0 <= i < |s.dancers|
      ensures Plays(s.dancers[i], OriginalHead) <==> Plays(s.dancers[i], CurrentHead)
      ensures Plays(s.dancers[i], OriginalSide) <==> Plays(s.dancers[i], CurrentSide)
    {
      assert SquaredAt(sp, s, 4, s.dancers[i], i);
      SquaredCoupleRoles(s.dancers[i], i / 2);
    }
    FilterAgrees(s.dancers, OriginalHead, CurrentHead);
    FilterAgrees(s.dancers, OriginalSide, CurrentSide);
  }

  /** Couple index c (0 to 3) of a four-couple square: a head couple exactly when it faces 0 or 180. */
  lemma SquaredCoupleRoles(d: Dancer, c: int)
    requires 0 <= c < 4
    requires d.coupleNumber == c + 1 && d.direction == SquaredFacing(4, c)
    ensures Plays(d, OriginalHead) <==> Plays(d, CurrentHead)
    ensures Plays(d, OriginalSide) <==> Plays(d, CurrentSide)
  {
    assert Opposite(Direction0) == 2 * Quarter;
    assert QuarterLeft(Direction0) == Quarter;
    assert QuarterRight(Direction0) == 3 * Quarter;
    assert d.direction == Quarter * c;
  }
}
