/**
 * The dancer package: genders, dancers, squared sets and the set
 * operations on groups of dancers.
 *
 * A Dancer is a reference: its position, direction, ordinal and original
 * partner change in place, and formations compare dancers by identity.
 * A group of dancers (Go's Dancers slice) is a seq<Dancer>.
 */
module Dancers {
  import opened Geometry
  import opened Wrappers

  datatype Gender = Unspecified | Guy | Gal
  {
    /** Two genders are the same only when both are specified. */
    function Equal(g2: Gender): (r: bool)
      ensures r ==> this != Unspecified && g2 != Unspecified
      ensures r <==> this.Specified() && this == g2
    {
      if this == Unspecified then false
      else if g2 == Unspecified then false
      else this == g2
    }

    /** Guy and Gal swap; Unspecified stays Unspecified. */
    function Opposite(): (r: Gender)
      ensures r.Specified() <==> this.Specified()
      ensures this.Specified() ==> r != this
    {
      match this
      case Unspecified => Unspecified
      case Guy => Gal
      case Gal => Guy
    }

    predicate Specified() { this != Unspecified }
  }

  /** Equal is symmetric, never holds between a gender and its opposite, and Opposite is an involution. */
  lemma GenderLaws(g: Gender, g2: Gender)
    ensures g.Equal(g2) == g2.Equal(g)
    ensures !g.Equal(g.Opposite())
    ensures g.Opposite().Opposite() == g
    ensures g.Equal(g) <==> g.Specified()
  {
  }

  /** A square dancer. */
  class Dancer {
    /** The squared set the dancer belongs to; null for MakeSomeDancers' dancers. */
    const squaredSet: DancerSet?
    const gender: Gender
    /** 1 for the #1 head couple; only meaningful for dancers of a squared set. */
    const coupleNumber: int
    /** Unique within a set; used to avoid finding a symmetric formation twice. */
    var ordinal: int
    var position: Position
    var direction: Direction
    var originalPartner: Dancer?

    constructor(squaredSet: DancerSet?, ordinal: int, gender: Gender, coupleNumber: int,
                position: Position, direction: Direction)
      ensures this.squaredSet == squaredSet && this.ordinal == ordinal && this.gender == gender
      ensures this.coupleNumber == coupleNumber && this.position == position
      ensures this.direction == direction && this.originalPartner == null
    {
      this.squaredSet := squaredSet;
      this.ordinal := ordinal;
      this.gender := gender;
      this.coupleNumber := coupleNumber;
      this.position := position;
      this.direction := direction;
      this.originalPartner := null;
    }

    method SetOriginalPartner(d2: Dancer?)
      modifies this`originalPartner
      ensures originalPartner == d2
    {
      originalPartner := d2;
    }

    /** Turns the dancer by a relative direction; the dancer is returned. */
    method Rotate(relative: int) returns (r: Dancer)
      modifies this`direction
      ensures r == this
      ensures direction == Add(old(direction), relative)
    {
      direction := Add(direction, relative);
      r := this;
    }

    /** Sets the dancer's position and direction. */
    method Move(newPosition: Position, newDirection: Direction) returns (r: Dancer)
      modifies this`position, this`direction
      ensures r == this
      ensures position == newPosition && direction == newDirection
    {
      position := newPosition;
      direction := newDirection;
      r := this;
    }

    /** Displaces the dancer by a vector; the direction is kept. */
    method MoveBy(delta: Position) returns (r: Dancer)
      modifies this`position
      ensures r == this
      ensures position == old(position).Plus(delta)
    {
      position := position.Plus(delta);
      r := this;
    }

    /** A single dancer is a formation of one. */
    function NumberOfDancers(): (r: int)
      ensures r == |Dancers()|
    {
      1
    }

    function Dancers(): seq<Dancer>
    {
      [this]
    }

    function HasDancer(d2: Dancer): (r: bool)
      ensures r <==> d2 in Dancers()
    {
      this == d2
    }
  }

  /** A square of dancers around a flagpole centre. */
  class DancerSet {
    const flagpoleCenter: Position
    var dancers: seq<Dancer>

    constructor(center: Position)
      ensures flagpoleCenter == center && dancers == []
    {
      flagpoleCenter := center;
      dancers := [];
    }

    function NumberOfDancers(): (r: int)
      reads this
      ensures r == |dancers| && r == NumberOfDancersIn(dancers)
    {
      NumberOfDancersIn(dancers)
    }

    function HasDancer(d: Dancer): (r: bool)
      reads this
      ensures r <==> d in dancers
    {
      HasDancerIn(dancers, d)
    }
  }

  // ---------------------------------------------------------------
  // Groups of dancers

  ghost predicate NoDuplicates<T>(s: seq<T>)
  {
    forall i, j :: 0 <= i < j < |s| ==> s[i] != s[j]
  }

  /** Number of dancers of a group, counting repetitions. */
  function NumberOfDancersIn(ds: seq<Dancer>): (r: int)
    ensures r == |ds|
    ensures r == 0 <==> ds == []
  {
    |ds|
  }

  /** The slice's HasDancer: a linear search by identity. */
  function HasDancerIn(ds: seq<Dancer>, d2: Dancer): (r: bool)
    ensures r <==> d2 in ds
  {
    if ds == [] then false
    else if ds[0] == d2 then true
    else HasDancerIn(ds[1..], d2)
  }

  /** The concatenation of a sequence of groups. */
  function Flatten(sets: seq<seq<Dancer>>): (r: seq<Dancer>)
    ensures forall j :: 0 <= j < |r| ==> exists i :: 0 <= i < |sets| && r[j] in sets[i]
    ensures forall i, j :: 0 <= i < |sets| && 0 <= j < |sets[i]| ==> sets[i][j] in r
  {
    if sets == [] then []
    else
      var init := sets[..|sets| - 1];
      assert forall i :: 0 <= i < |init| ==> init[i] == sets[i];
      Flatten(init) + sets[|sets| - 1]
  }

  /** The first occurrence of every dancer of s, in the order of s. */
  function Dedup(s: seq<Dancer>): (r: seq<Dancer>)
    ensures forall i :: 0 <= i < |r| ==> r[i] in s
    ensures forall i :: 0 <= i < |s| ==> s[i] in r
    ensures NoDuplicates(r)
    ensures |r| <= |s|
  {
    if s == [] then []
    else
      var rest := Dedup(s[..|s| - 1]);
      if s[|s| - 1] in rest then rest else rest + [s[|s| - 1]]
  }

  /**
   * The pure counterpart of Union for two groups: every dancer of a or b
   * once. Union's map order is unspecified; this one keeps first
   * occurrences in the order of a then b.
   */
  function UnionOf(a: seq<Dancer>, b: seq<Dancer>): (r: seq<Dancer>)
    ensures forall i :: 0 <= i < |r| ==> r[i] in a || r[i] in b
    ensures forall i :: 0 <= i < |a| ==> a[i] in r
    ensures forall i :: 0 <= i < |b| ==> b[i] in r
    ensures NoDuplicates(r)
  {
    var ab := a + b;
    assert forall i :: 0 <= i < |a| ==> ab[i] == a[i];
    assert forall i :: 0 <= i < |b| ==> ab[|a| + i] == b[i];
    Dedup(ab)
  }

  /** The dancers of universe that are not in minus, in universe order. */
  function Difference(universe: seq<Dancer>, minus: seq<Dancer>): (r: seq<Dancer>)
    ensures forall i :: 0 <= i < |r| ==> r[i] in universe && r[i] !in minus
    ensures forall i :: 0 <= i < |universe| && universe[i] !in minus ==> universe[i] in r
    ensures |r| <= |universe|
  {
    if universe == [] then []
    else
      var last := universe[|universe| - 1];
      Difference(universe[..|universe| - 1], minus) + (if last in minus then [] else [last])
  }

  /** Difference keeps no repetition that universe did not have. */
  lemma {:induction false} DifferenceNoDuplicates(universe: seq<Dancer>, minus: seq<Dancer>)
    requires NoDuplicates(universe)
    ensures NoDuplicates(Difference(universe, minus))
  {
    if universe != [] {
      var init := universe[..|universe| - 1];
      var last := universe[|universe| - 1];
      assert NoDuplicates(init) by {
        forall i, j | 0 <= i < j < |init| ensures init[i] != init[j] {
          assert init[i] == universe[i] && init[j] == universe[j];
        }
      }
      DifferenceNoDuplicates(init, minus);
      assert last !in init;
    }
  }

  /** Difference works element by element: the difference of a concatenation is the concatenation of the differences. */
  lemma {:induction false} DifferenceAppend(a: seq<Dancer>, b: seq<Dancer>, minus: seq<Dancer>)
    ensures Difference(a + b, minus) == Difference(a, minus) + Difference(b, minus)
  {
    if b == [] {
      assert a + b == a;
    } else {
      var init := b[..|b| - 1];
      DifferenceAppend(a, init, minus);
      assert (a + b)[..|a + b| - 1] == a + init;
      assert (a + b)[|a + b| - 1] == b[|b| - 1];
    }
  }

  /** Every dancer not in minus is kept as often as universe has it, and every other one never. */
  lemma {:induction false} DifferenceCounts(universe: seq<Dancer>, minus: seq<Dancer>, d: Dancer)
    ensures multiset(Difference(universe, minus))[d] == if d in minus then 0 else multiset(universe)[d]
  {
    if universe != [] {
      var init := universe[..|universe| - 1];
      DifferenceCounts(init, minus, d);
      assert universe == init + [universe[|universe| - 1]];
    }
  }

  /** Union: every dancer present in any of the groups, each once, in no particular order. */
  method Union(dancerSets: seq<seq<Dancer>>) returns (result: seq<Dancer>)
    ensures forall d :: d in result <==> d in Flatten(dancerSets)
    ensures NoDuplicates(result)
  {
    var got: map<Dancer, bool> := map[];
    for i := 0 to |dancerSets|
      invariant forall d :: d in got <==> d in Flatten(dancerSets[..i])
      invariant forall d :: d in got ==> got[d]
    {
      assert dancerSets[..i + 1][..i] == dancerSets[..i];
      for j := 0 to |dancerSets[i]|
        invariant forall d :: d in got <==> d in Flatten(dancerSets[..i]) || d in dancerSets[i][..j]
        invariant forall d :: d in got ==> got[d]
      {
        assert dancerSets[i][..j + 1] == dancerSets[i][..j] + [dancerSets[i][j]];
        got := got[dancerSets[i][j] := true];
      }
      assert dancerSets[i][..|dancerSets[i]|] == dancerSets[i];
    }
    assert dancerSets[..|dancerSets|] == dancerSets;
    // Go ranges over the map in an unspecified order.
    result := [];
    var pending := got.Keys;
    while pending != {}
      invariant pending <= got.Keys
      invariant forall d :: d in result <==> d in got && d !in pending
      invariant NoDuplicates(result)
      decreases |pending|
    {
      var d :| d in pending;
      if got[d] {
        result := result + [d];
      }
      pending := pending - {d};
    }
  }

  /** The attendance table of Intersection: for every dancer of any group, which groups it is in. */
  method Attendance(dancerSets: seq<seq<Dancer>>) returns (attendance: map<Dancer, seq<bool>>)
    ensures forall d :: d in attendance <==> d in Flatten(dancerSets)
    ensures forall d :: d in attendance ==> |attendance[d]| == |dancerSets|
    ensures forall d, k :: d in attendance && 0 <= k < |dancerSets| ==> (attendance[d][k] <==> d in dancerSets[k])
  {
    var n := |dancerSets|;
    attendance := map[];
    for i := 0 to n
      invariant forall d :: d in attendance <==> d in Flatten(dancerSets[..i])
      invariant forall d :: d in attendance ==> |attendance[d]| == n
      invariant forall d, k :: d in attendance && 0 <= k < i ==> (attendance[d][k] <==> d in dancerSets[k])
      invariant forall d, k :: d in attendance && i <= k < n ==> !attendance[d][k]
    {
      assert dancerSets[..i + 1][..i] == dancerSets[..i];
      attendance := MarkGroup(attendance, dancerSets[i], i, n);
    }
    assert dancerSets[..n] == dancerSets;
  }

  /**
   * The inner loop of Intersection: sets entry i of the row of every
   * dancer of group, giving a dancer seen for the first time an all-false
   * row.
   */
  method MarkGroup(before: map<Dancer, seq<bool>>, group: seq<Dancer>, i: nat, n: nat) returns (after: map<Dancer, seq<bool>>)
    requires i < n
    requires forall d :: d in before ==> |before[d]| == n && !before[d][i]
    ensures forall d :: d in after <==> d in before || d in group
    ensures forall d :: d in after ==> |after[d]| == n
    ensures forall d :: d in after ==> (after[d][i] <==> d in group)
    ensures forall d, k :: d in after && 0 <= k < n && k != i ==> after[d][k] == (if d in before then before[d][k] else false)
  {
    after := before;
    for j := 0 to |group|
      invariant forall d :: d in after <==> d in before || d in group[..j]
      invariant forall d :: d in after ==> |after[d]| == n
      invariant forall d :: d in after ==> (after[d][i] <==> d in group[..j])
      invariant forall d, k :: d in after && 0 <= k < n && k != i ==> after[d][k] == (if d in before then before[d][k] else false)
    {
      var d := group[j];
      assert group[..j + 1] == group[..j] + [d];
      var b := if d in after then after[d] else seq(n, _ => false);
      after := after[d := b[i := true]];
    }
    assert group[..|group|] == group;
  }

  /** Whether every entry of an attendance row is set. */
  method AllPresent(b: seq<bool>) returns (all: bool)
    ensures all <==> forall m :: 0 <= m < |b| ==> b[m]
  {
    var k := 0;
    while k < |b| && b[k]
      invariant 0 <= k <= |b|
      invariant forall m :: 0 <= m < k ==> b[m]
    {
      k := k + 1;
    }
    all := k == |b|;
  }

  /** d is in every one of the groups. */
  ghost predicate InEvery(dancerSets: seq<seq<Dancer>>, d: Dancer)
  {
    forall i :: 0 <= i < |dancerSets| ==> d in dancerSets[i]
  }

  /** The dancers whose attendance row is all set, each once, in map iteration order. */
  method PresentEverywhere(attendance: map<Dancer, seq<bool>>) returns (result: seq<Dancer>)
    ensures forall d :: d in result <==> d in attendance && forall m :: 0 <= m < |attendance[d]| ==> attendance[d][m]
    ensures NoDuplicates(result)
  {
    result := [];
    // Go ranges over the map in an unspecified order.
    var pending := attendance.Keys;
    while pending != {}
      invariant pending <= attendance.Keys
      invariant forall d :: d in result <==> d in attendance && d !in pending && forall m :: 0 <= m < |attendance[d]| ==> attendance[d][m]
      invariant NoDuplicates(result)
      decreases |pending|
    {
      var d :| d in pending;
      var all := AllPresent(attendance[d]);
      if all {
        result := result + [d];
      }
      pending := pending - {d};
    }
  }

  /** Intersection: the dancers present in every one of the groups, each once, in no particular order. */
  method Intersection(dancerSets: seq<seq<Dancer>>) returns (result: seq<Dancer>)
    ensures forall d :: d in result <==> |dancerSets| > 0 && InEvery(dancerSets, d)
    ensures NoDuplicates(result)
  {
    var attendance := Attendance(dancerSets);
    result := PresentEverywhere(attendance);
    if |dancerSets| == 0 {
      assert Flatten(dancerSets) == [];
    }
    forall d
      ensures d in result <==> |dancerSets| > 0 && InEvery(dancerSets, d)
    {
      if |dancerSets| > 0 && InEvery(dancerSets, d) {
        var j :| 0 <= j < |dancerSets[0]| && dancerSets[0][j] == d;
        assert d in Flatten(dancerSets);
        assert d in attendance;
      }
      if d in attendance {
        var row := attendance[d];
        assert |row| == |dancerSets|;
        assert forall m :: 0 <= m < |row| ==> (row[m] <==> d in dancerSets[m]);
        assert (forall m :: 0 <= m < |row| ==> row[m]) <==> InEvery(dancerSets, d);
      }
    }
  }

  /** SetDifference: the dancers of universe not in minus, in universe order. */
  method SetDifference(universe: seq<Dancer>, minus: seq<Dancer>) returns (result: seq<Dancer>)
    ensures result == Difference(universe, minus)
    ensures forall d :: d in result <==> d in universe && d !in minus
  {
    result := [];
    for i := 0 to |universe|
      invariant result == Difference(universe[..i], minus)
    {
      var d := universe[i];
      var skip := false;
      for k := 0 to |minus|
        invariant skip <==> d in minus[..k]
      {
        if d == minus[k] {
          skip := true;
        }
      }
      assert minus[..|minus|] == minus;
      if !skip {
        result := result + [d];
      }
      assert universe[..i + 1][..i] == universe[..i];
    }
    assert universe[..|universe|] == universe;
  }

  // ---------------------------------------------------------------
  // Ordinals

  /** i is the last index at which ds[i] occurs. */
  ghost predicate LastOccurrence(ds: seq<Dancer>, i: int)
    requires 0 <= i < |ds|
  {
    forall j :: i < j < |ds| ==> ds[j] != ds[i]
  }

  /** Reorder: numbers the dancers 1, 2, ... in the order given; only ordinals change. */
  method Reorder(ds: seq<Dancer>)
    modifies ds`ordinal
    ensures forall i :: 0 <= i < |ds| && LastOccurrence(ds, i) ==> ds[i].ordinal == i + 1
    ensures NoDuplicates(ds) ==> forall i :: 0 <= i < |ds| ==> ds[i].ordinal == i + 1
  {
    for i := 0 to |ds|
      invariant forall k :: 0 <= k < i && (forall j :: k < j < i ==> ds[j] != ds[k]) ==> ds[k].ordinal == k + 1
    {
      ds[i].ordinal := i + 1;
    }
  }

  ghost predicate SortedByOrdinal(s: seq<Dancer>)
    reads s
  {
    forall i, j :: 0 <= i < j < |s| ==> s[i].ordinal <= s[j].ordinal
  }

  /** Ordered: sorts the dancers by ordinal in place and returns them. */
  method Ordered(a: array<Dancer>) returns (r: array<Dancer>)
    modifies a
    ensures r == a
    ensures SortedByOrdinal(a[..])
    ensures multiset(a[..]) == multiset(old(a[..]))
  {
    for i := 0 to a.Length
      invariant SortedByOrdinal(a[..i])
      invariant multiset(a[..]) == multiset(old(a[..]))
    {
      SinkLast(a, i);
    }
    assert a[..a.Length] == a[..];
    r := a;
  }

  /** One insertion step: moves a[i] down into the sorted prefix a[..i]. */
  method SinkLast(a: array<Dancer>, i: int)
    requires 0 <= i < a.Length
    requires SortedByOrdinal(a[..i])
    modifies a
    ensures SortedByOrdinal(a[..i + 1])
    ensures multiset(a[..]) == multiset(old(a[..]))
  {
    var j := i;
    while j > 0 && a[j - 1].ordinal > a[j].ordinal
      invariant 0 <= j <= i
      invariant multiset(a[..]) == multiset(old(a[..]))
      invariant forall k, l :: 0 <= k < l <= i && k != j && l != j ==> a[k].ordinal <= a[l].ordinal
      invariant forall l :: j < l <= i ==> a[j].ordinal <= a[l].ordinal
    {
      Swap(a, j - 1, j);
      j := j - 1;
    }
  }

  /** Dancers.Swap: exchanges two entries. */
  method Swap(a: array<Dancer>, i: int, j: int)
    requires 0 <= i < a.Length && 0 <= j < a.Length
    modifies a
    ensures a[..] == old(a[..])[i := old(a[j])][j := old(a[i])]
    ensures multiset(a[..]) == multiset(old(a[..]))
  {
    a[i], a[j] := a[j], a[i];
  }

  // ---------------------------------------------------------------
  // Squared sets

  /** The index of the original partner: Go's index ^ 1. */
  function PartnerIndex(i: nat): (r: nat)
    ensures r / 2 == i / 2 && r % 2 != i % 2
  {
    if i % 2 == 0 then i + 1 else i - 1
  }

  /** Couple number c (from 0) faces c fractions of a circle. */
  function SquaredFacing(couples: int, couple: int): Direction
    requires couples > 0
  {
    Norm((FullCircle / couples) * couple)
  }

  /** Where the dancer with the given index stands: behind the flagpole, to the left or right of the couple's centre. */
  function SquaredPosition(sp: Space, center: Position, facing: Direction, guy: bool): Position
  {
    var side := if guy then 1.0 else -1.0;
    center.Plus(sp.polar(Opposite(facing), 1.5 * sp.coupleDistance))
          .Plus(sp.polar(Add(facing, FullCircle / 4), side * sp.coupleDistance / 2.0))
  }

  /** What NewSquaredSet promises about the dancer it puts at index i of set s. */
  ghost predicate SquaredAt(sp: Space, s: DancerSet, couples: int, d: Dancer, i: int)
    reads d
  {
    couples > 0 && 0 <= i
    && d.squaredSet == s && d.ordinal == i && d.coupleNumber == i / 2 + 1
    && d.gender == (if i % 2 == 0 then Guy else Gal)
    && d.direction == SquaredFacing(couples, i / 2)
    && d.position == SquaredPosition(sp, s.flagpoleCenter, SquaredFacing(couples, i / 2), i % 2 == 0)
  }

  /** The dancers built so far, each fresh and as SquaredAt describes. */
  twostate predicate SquaredPrefix(sp: Space, new s: DancerSet, couples: int, new ds: seq<Dancer>)
    reads ds
  {
    NoDuplicates(ds)
    && (forall k :: 0 <= k < |ds| ==> fresh(ds[k]))
    && (forall k :: 0 <= k < |ds| ==> SquaredAt(sp, s, couples, ds[k], k))
  }

  /** The shape of a squared set: 2 * couples distinct dancers, each as SquaredAt describes and partnered with index ^ 1. */
  ghost predicate Squared(sp: Space, s: DancerSet, couples: int)
    reads s, s.dancers
  {
    couples >= 0 && |s.dancers| == 2 * couples && NoDuplicates(s.dancers)
    && (forall i :: 0 <= i < |s.dancers| ==> SquaredAt(sp, s, couples, s.dancers[i], i))
    && (forall i :: 0 <= i < |s.dancers| ==> s.dancers[i].originalPartner == s.dancers[PartnerIndex(i)])
  }

  /**
   * NewSquaredSet: a square of the given number of couples around a
   * flagpole at the origin; a Failure for a negative count, where Go's
   * make panics.
   */
  method NewSquaredSet(sp: Space, couples: int) returns (r: Result<DancerSet, string>)
    ensures r.Failure? <==> couples < 0
    ensures r.Success? ==> fresh(r.value) && r.value.flagpoleCenter == Origin
    ensures r.Success? ==> forall d :: d in r.value.dancers ==> fresh(d)
    ensures r.Success? ==> Squared(sp, r.value, couples)
  {
    if couples < 0 {
      return Failure("makeslice: len out of range");
    }
    var s := new DancerSet(Origin);
    var ds := PlaceSquaredDancers(sp, s, couples);
    s.dancers := ds;
    LinkPartners(ds);
    r := Success(s);
  }

  /** The nested loops of NewSquaredSet: per couple a Guy then a Gal, at indices 2c and 2c+1. */
  method PlaceSquaredDancers(sp: Space, s: DancerSet, couples: int) returns (ds: seq<Dancer>)
    requires couples >= 0
    ensures |ds| == 2 * couples
    ensures SquaredPrefix(sp, s, couples, ds)
  {
    ds := [];
    for couple := 0 to couples
      invariant |ds| == 2 * couple
      invariant SquaredPrefix(sp, s, couples, ds)
    {
      var facing := SquaredFacing(couples, couple);
      for adjustment := 0 to 2
        invariant |ds| == 2 * couple + adjustment
        invariant SquaredPrefix(sp, s, couples, ds)
      {
        var gender := if adjustment == 0 then Guy else Gal;
        var index := 2 * couple + adjustment;
        var d := new Dancer(s, index, gender, couple + 1,
                            SquaredPosition(sp, s.flagpoleCenter, facing, gender == Guy), facing);
        assert SquaredAt(sp, s, couples, d, index);
        ds := ds + [d];
      }
    }
  }

  /** The last loop of NewSquaredSet: each dancer's original partner is the dancer at index ^ 1. */
  method LinkPartners(ds: seq<Dancer>)
    requires |ds| % 2 == 0 && NoDuplicates(ds)
    modifies ds`originalPartner
    ensures forall k :: 0 <= k < |ds| ==> ds[k].originalPartner == ds[PartnerIndex(k)]
  {
    for index := 0 to |ds|
      invariant forall k :: 0 <= k < index ==> ds[k].originalPartner == ds[PartnerIndex(k)]
    {
      ds[index].SetOriginalPartner(ds[PartnerIndex(index)]);
    }
  }

  /** Partners in a squared set are mutual, distinct, of opposite gender and of the same couple. */
  lemma SquaredPartners(sp: Space, s: DancerSet, couples: int, i: int)
    requires Squared(sp, s, couples) && 0 <= i < |s.dancers|
    ensures s.dancers[i].originalPartner != null
    ensures s.dancers[i].originalPartner != s.dancers[i]
    ensures s.dancers[i].originalPartner.originalPartner == s.dancers[i]
    ensures s.dancers[i].originalPartner.gender == s.dancers[i].gender.Opposite()
    ensures s.dancers[i].originalPartner.coupleNumber == s.dancers[i].coupleNumber
  {
    var p := PartnerIndex(i);
    assert SquaredAt(sp, s, couples, s.dancers[i], i) && SquaredAt(sp, s, couples, s.dancers[p], p);
    assert PartnerIndex(p) == i;
  }

  /** In a squared set the #1 couple faces direction 0 and every couple faces the same way as its partner. */
  lemma SquaredFacings(sp: Space, s: DancerSet, couples: int, i: int)
    requires Squared(sp, s, couples) && 0 <= i < |s.dancers|
    ensures s.dancers[i].coupleNumber == 1 ==> s.dancers[i].direction == Direction0
    ensures s.dancers[i].direction == s.dancers[PartnerIndex(i)].direction
  {
    var p := PartnerIndex(i);
    assert SquaredAt(sp, s, couples, s.dancers[i], i);
    assert SquaredAt(sp, s, couples, s.dancers[p], p);
    SquaredAtFacing(sp, s, couples, s.dancers[i], i, s.dancers[p], p);
  }

  /** The facing SquaredAt gives a dancer depends only on the couple. */
  lemma SquaredAtFacing(sp: Space, s: DancerSet, couples: int, d: Dancer, i: int, e: Dancer, p: int)
    requires SquaredAt(sp, s, couples, d, i) && SquaredAt(sp, s, couples, e, p) && p / 2 == i / 2
    ensures d.coupleNumber == 1 ==> d.direction == Direction0
    ensures d.direction == e.direction
  {
    if d.coupleNumber == 1 {
      assert (FullCircle / couples) * (i / 2) == 0;
    }
  }

  /** MakeSomeDancers: count gender-neutral dancers outside any set, with ordinals 0, 1, .... */
  method MakeSomeDancers(count: int) returns (dancers: seq<Dancer>)
    ensures |dancers| == if count < 0 then 0 else count
    ensures NoDuplicates(dancers)
    ensures forall i :: 0 <= i < |dancers| ==> fresh(dancers[i])
    ensures forall i :: 0 <= i < |dancers| ==> dancers[i].ordinal == i && dancers[i].squaredSet == null
    ensures forall i :: 0 <= i < |dancers| ==> dancers[i].gender == Unspecified && dancers[i].coupleNumber == -1
    ensures forall i :: 0 <= i < |dancers| ==> dancers[i].position == Origin && dancers[i].direction == Direction0 && dancers[i].originalPartner == null
  {
    dancers := [];
    var ordinal := 0;
    while ordinal < count
      invariant ordinal == |dancers| && ordinal <= (if count < 0 then 0 else count)
      invariant NoDuplicates(dancers)
      invariant forall i :: 0 <= i < |dancers| ==> fresh(dancers[i])
      invariant forall i :: 0 <= i < |dancers| ==> dancers[i].ordinal == i && dancers[i].squaredSet == null
      invariant forall i :: 0 <= i < |dancers| ==> dancers[i].gender == Unspecified && dancers[i].coupleNumber == -1
      invariant forall i :: 0 <= i < |dancers| ==> dancers[i].position == Origin && dancers[i].direction == Direction0 && dancers[i].originalPartner == null
    {
      var d := new Dancer(null, ordinal, Unspecified, -1, Origin, Direction0);
      dancers := dancers + [d];
      ordinal := ordinal + 1;
    }
  }
}
