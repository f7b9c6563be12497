/**
 * Actions: named pieces of choreography, each with one FormationAction
 * per formation type it can be performed from, kept in a registry of
 * unique names. The turn-only primitives and TurnToFace are modelled;
 * Go's reflect type relations are the fields of a TypeSystem.
 */
module Actions {
  import opened Geometry
  import opened Dancers
  import opened Relations
  import opened Formations
  import opened Wrappers

  // ---------------------------------------------------------------
  // Levels

  /** The level of a call list an action belongs to. */
  type Level = int

  const Primitive: Level := 0
  const Basic1: Level := 1
  const Basic2: Level := 2
  const Mainstream: Level := 3
  const Plus: Level := 4
  const A1: Level := 5
  const A2: Level := 6
  const C1: Level := 7
  const C2: Level := 8
  const C3A: Level := 9
  const C3B: Level := 10
  const C4: Level := 11
  const NotOnList: Level := 12

  /** The levels in declaration order. */
  const AllLevels: seq<Level> := [Primitive, Basic1, Basic2, Mainstream, Plus, A1, A2, C1, C2, C3A, C3B, C4, NotOnList]

  /** Each level is above the ones declared before it. */
  lemma LevelsAscend()
    ensures |AllLevels| == 13
    ensures forall i, j :: 0 <= i < j < |AllLevels| ==> AllLevels[i] < AllLevels[j]
  {
  }

  // ---------------------------------------------------------------
  // Formation types and applicability

  /**
   * The reflect package's relations between formation types, which the
   * model does not include: AssignableTo, ConvertibleTo and TypeOf.
   */
  datatype TypeSystem = TypeSystem(
    assignableTo: (FormationType, FormationType) -> bool,
    convertibleTo: (FormationType, FormationType) -> bool,
    typeOf: Formation -> FormationType)

  // ---------------------------------------------------------------
  // What a formation action does

  /** The three facing changes of the primitives. */
  datatype Turn = TurnRight | TurnLeft | TurnAround

  /** The turn as a relative direction. */
  function Amount(t: Turn): int
  {
    match t
    case TurnRight => -Quarter
    case TurnLeft => Quarter
    case TurnAround => 2 * Quarter
  }

  /** A direction after the turn: a quarter right, a quarter left, or the opposite. */
  function Turned(d: Direction, t: Turn): (r: Direction)
    ensures t == TurnRight ==> r == QuarterRight(d)
    ensures t == TurnLeft ==> r == QuarterLeft(d)
    ensures t == TurnAround ==> r == Opposite(d)
    ensures r != d
  {
    QuarterTurnsDistinct(d);
    Add(d, Amount(t))
  }

  /** A direction after the same turn made k times. */
  function TurnedTimes(d: Direction, t: Turn, k: nat): Direction
  {
    if k == 0 then d else Turned(TurnedTimes(d, t, k - 1), t)
  }

  /** Turning k times adds k times the turn's amount, modulo a full circle. */
  lemma {:induction false} TurnedTimesIsMultiple(d: Direction, t: Turn, k: nat)
    ensures TurnedTimes(d, t, k) == Norm(d + k * Amount(t))
  {
    if k == 0 {
      assert Norm(d) == d;
    } else {
      TurnedTimesIsMultiple(d, t, k - 1);
      OneMoreTurn(d, Amount(t), k, TurnedTimes(d, t, k - 1));
    }
  }

  /** After k - 1 turns of a, one more lands at k turns of a. */
  lemma OneMoreTurn(d: int, a: int, k: int, before: int)
    requires before == Norm(d + (k - 1) * a)
    ensures Norm(before + a) == Norm(d + k * a)
  {
    NormAdd(d + (k - 1) * a, a);
    assert d + (k - 1) * a + a == d + k * a;
  }

  /** A whole circle of turns brings a dancer back to its facing: four quarter turns or two about-faces. */
  lemma FullTurnsRestore(d: Direction, t: Turn, k: nat)
    requires k == if t == TurnAround then 2 else 4
    ensures TurnedTimes(d, t, k) == d
  {
    if t == TurnAround {
      TurnedTimesIsMultiple(d, t, 2);
      assert 2 * Amount(t) == FullCircle;
      NormNear(d + FullCircle);
    } else if t == TurnLeft {
      TurnedTimesIsMultiple(d, t, 4);
      assert 4 * Amount(t) == FullCircle;
      NormNear(d + FullCircle);
    } else {
      TurnedTimesIsMultiple(d, t, 4);
      assert 4 * Amount(t) == -FullCircle;
      NormNear(d - FullCircle);
    }
  }

  /**
   * The doItFunc closures of the primitives: turn the formation's first
   * dancer (the Dancer variants), turn every dancer (the Dancers
   * variants), or turn two dancers to face each other (TurnToFace).
   */
  datatype DoItFunc = TurnFirst(turn: Turn) | TurnEach(each: Turn) | FaceEachOther

  /** Where a closure panics: no first dancer, or not exactly two dancers. */
  predicate Panics(doIt: DoItFunc, ds: seq<Dancer>)
  {
    match doIt
    case TurnFirst(_) => |ds| == 0
    case TurnEach(_) => false
    case FaceEachOther => |ds| != 2
  }

  /** How many times d is listed in ds. */
  function Occurrences(ds: seq<Dancer>, d: Dancer): nat
  {
    if ds == [] then 0
    else Occurrences(ds[..|ds| - 1], d) + if ds[|ds| - 1] == d then 1 else 0
  }

  /** Listing one more dancer counts it once more. */
  lemma OccurrencesStep(ds: seq<Dancer>, i: nat, d: Dancer)
    requires i < |ds|
    ensures Occurrences(ds[..i + 1], d) == Occurrences(ds[..i], d) + if ds[i] == d then 1 else 0
  {
    assert ds[..i + 1][..i] == ds[..i];
  }

  /**
   * In a formation whose dancers are distinct every dancer is listed
   * once, so a Dancers variant turns each dancer exactly once.
   */
  lemma {:induction false} DistinctListedOnce(ds: seq<Dancer>, i: nat)
    requires forall j, k :: 0 <= j < k < |ds| ==> ds[j] != ds[k]
    requires i < |ds|
    ensures Occurrences(ds, ds[i]) == 1
  {
    var n := |ds| - 1;
    if i == n {
      NotListed(ds[..n], ds[i]);
    } else {
      DistinctListedOnce(ds[..n], i);
    }
  }

  /** A dancer not listed has no occurrences. */
  lemma {:induction false} NotListed(ds: seq<Dancer>, d: Dancer)
    requires d !in ds
    ensures Occurrences(ds, d) == 0
  {
    if ds != [] {
      NotListed(ds[..|ds| - 1], d);
    }
  }

  /** Occurrences is the multiplicity of d in the multiset of ds; a dancer not listed is never turned. */
  lemma {:induction false} OccurrencesIsMultiplicity(ds: seq<Dancer>, d: Dancer)
    ensures Occurrences(ds, d) == multiset(ds)[d]
    ensures Occurrences(ds, d) == 0 <==> d !in ds
  {
    if ds != [] {
      OccurrencesIsMultiplicity(ds[..|ds| - 1], d);
      assert ds == ds[..|ds| - 1] + [ds[|ds| - 1]];
    }
  }

  /** Every dancer of ds is where it was and faces as it did. */
  twostate predicate Unmoved(ds: seq<Dancer>)
    reads ds
  {
    forall i :: 0 <= i < |ds| ==> ds[i].position == old(ds[i].position) && ds[i].direction == old(ds[i].direction)
  }

  /** No dancer of ds has changed position. */
  twostate predicate InPlace(ds: seq<Dancer>)
    reads ds
  {
    forall i :: 0 <= i < |ds| ==> ds[i].position == old(ds[i].position)
  }

  /** The first dancer has made the turn; every other dancer faces as it did. */
  twostate predicate FirstTurned(ds: seq<Dancer>, t: Turn)
    reads ds
  {
    |ds| > 0 && ds[0].direction == Turned(old(ds[0].direction), t)
    && forall i :: 0 <= i < |ds| && ds[i] != ds[0] ==> ds[i].direction == old(ds[i].direction)
  }

  /** Every dancer has made the turn once per time it is listed. */
  twostate predicate EachTurned(ds: seq<Dancer>, t: Turn)
    reads ds
  {
    forall i :: 0 <= i < |ds| ==> ds[i].direction == TurnedTimes(old(ds[i].direction), t, Occurrences(ds, ds[i]))
  }

  /** Each of the two dancers faces where the other stood; the second one's turn is the last word. */
  twostate predicate FacedEachOther(sp: Space, ds: seq<Dancer>)
    reads ds
  {
    |ds| == 2
    && ds[1].direction == sp.directionTo(old(ds[1].position), old(ds[0].position))
    && (ds[0] != ds[1] ==> ds[0].direction == sp.directionTo(old(ds[0].position), old(ds[1].position)))
  }

  /**
   * What a closure that does not panic has done to the dancers: no one
   * has moved, and the facings are turned as the closure says.
   */
  twostate predicate Performed(sp: Space, doIt: DoItFunc, ds: seq<Dancer>)
    reads ds
  {
    InPlace(ds)
    && match doIt
      case TurnFirst(t) => FirstTurned(ds, t)
      case TurnEach(t) => EachTurned(ds, t)
      case FaceEachOther => FacedEachOther(sp, ds)
  }

  /** The Dancer variants: the formation's first dancer turns in place. */
  method TurnFirstDancer(ds: seq<Dancer>, t: Turn) returns (r: Result<(), string>)
    modifies ds`position, ds`direction
    ensures r.Failure? <==> Panics(TurnFirst(t), ds)
    ensures r.Failure? ==> Unmoved(ds)
    ensures r.Success? ==> InPlace(ds) && FirstTurned(ds, t)
  {
    if |ds| == 0 {
      return Failure("index out of range");
    }
    var d := ds[0];
    var _ := d.Move(d.position, Turned(d.direction, t));
    r := Success(());
  }

  /** The Dancers variants: every dancer listed turns in place, once per listing. */
  method TurnEveryDancer(ds: seq<Dancer>, t: Turn)
    modifies ds`position, ds`direction
    ensures InPlace(ds) && EachTurned(ds, t)
  {
    for i := 0 to |ds|
      invariant forall j :: 0 <= j < |ds| ==> ds[j].position == old(ds[j].position)
      invariant forall j :: 0 <= j < |ds| ==> ds[j].direction == TurnedTimes(old(ds[j].direction), t, Occurrences(ds[..i], ds[j]))
    {
      var d := ds[i];
      var _ := d.Move(d.position, Turned(d.direction, t));
      forall j | 0 <= j < |ds|
        ensures ds[j].direction == TurnedTimes(old(ds[j].direction), t, Occurrences(ds[..i + 1], ds[j]))
      {
        OccurrencesStep(ds, i, ds[j]);
      }
    }
    assert ds[..|ds|] == ds;
  }

  /**
   * TurnToFace: exactly two dancers, each turning to face where the
   * other stands; with two distinct dancers they end up face to face.
   */
  method TurnToFace(sp: Space, ds: seq<Dancer>) returns (r: Result<(), string>)
    modifies ds`position, ds`direction
    ensures r.Failure? <==> Panics(FaceEachOther, ds)
    ensures r.Failure? ==> Unmoved(ds)
    ensures r.Success? ==> InPlace(ds) && FacedEachOther(sp, ds)
    ensures r.Success? && ds[0] != ds[1] ==> InFrontOf(sp, ds[0], ds[1]) && InFrontOf(sp, ds[1], ds[0])
  {
    if |ds| != 2 {
      return Failure("The TurnToFace action requires two dancers");
    }
    var mover, other := ds[0], ds[1];
    var _ := mover.Move(mover.position, sp.directionTo(mover.position, other.position));
    mover, other := ds[1], ds[0];
    var _ := mover.Move(mover.position, sp.directionTo(mover.position, other.position));
    r := Success(());
  }

  // ---------------------------------------------------------------
  // Formation actions and actions

  /** How an action is performed from one formation type. */
  datatype FormationAction = FormationAction(actionName: string, level: Level, formationType: FormationType, doIt: DoItFunc)
  {
    /** ApplicableToFormationType: ft is assignable to this action's formation type. */
    predicate ApplicableToFormationType(ts: TypeSystem, ft: FormationType)
    {
      ts.assignableTo(ft, formationType)
    }

    /** ApplicableTo: the formation's own type is. */
    predicate ApplicableTo(ts: TypeSystem, f: Formation)
    {
      ApplicableToFormationType(ts, ts.typeOf(f))
    }
  }

  /**
   * DoIt: a failure (Go panics) when the action does not apply to the
   * formation or its closure panics, leaving every dancer as it was;
   * otherwise the closure runs once on the formation's dancers.
   */
  method DoIt(sp: Space, ts: TypeSystem, fa: FormationAction, f: Formation) returns (r: Result<(), string>)
    modifies f.Dancers()`position, f.Dancers()`direction
    ensures r.Success? <==> fa.ApplicableTo(ts, f) && !Panics(fa.doIt, f.Dancers())
    ensures r.Failure? ==> Unmoved(f.Dancers())
    ensures r.Success? ==> Performed(sp, fa.doIt, f.Dancers())
  {
    if !fa.ApplicableTo(ts, f) {
      return Failure("action does not apply to the formation");
    }
    var ds := f.Dancers();
    match fa.doIt
    case TurnFirst(t) =>
      r := TurnFirstDancer(ds, t);
    case TurnEach(t) =>
      TurnEveryDancer(ds, t);
      r := Success(());
    case FaceEachOther =>
      r := TurnToFace(sp, ds);
  }

  /** The first element of s that satisfies p, if any. */
  function FirstWhere<T>(s: seq<T>, p: T -> bool): (r: Option<T>)
    ensures r.None? <==> forall i :: 0 <= i < |s| ==> !p(s[i])
    ensures r.Some? ==> exists i :: (0 <= i < |s| && s[i] == r.value && p(s[i])
      && forall j :: 0 <= j < i ==> !p(s[j]))
  {
    if s == [] then None
    else if p(s[0]) then Some(s[0])
    else
      var r := FirstWhere(s[1..], p);
      assert forall i :: 1 <= i < |s| ==> s[i] == s[1..][i - 1];
      r
  }

  /** The test of GetFormationAction: the formation type is assignable to the action's. */
  function AssignableFrom(ts: TypeSystem, ft: FormationType): FormationAction -> bool
  {
    (fa: FormationAction) => fa.ApplicableToFormationType(ts, ft)
  }

  /** The test of GetFormationActionFor: the formation's type converts to the action's. */
  function ConvertibleFrom(ts: TypeSystem, f: Formation): FormationAction -> bool
  {
    (fa: FormationAction) => ts.convertibleTo(ts.typeOf(f), fa.formationType)
  }

  /** ActionImpl: a named action and its formation actions in registration order. */
  class Action {
    const name: string
    const description: string
    var formationActions: seq<FormationAction>

    constructor(name: string, description: string)
      ensures this.name == name && this.description == description && formationActions == []
    {
      this.name := name;
      this.description := description;
      formationActions := [];
    }

    /** AddFormationAction: appends the given formation actions, in order. */
    method AddFormationAction(fas: seq<FormationAction>)
      modifies this`formationActions
      ensures formationActions == old(formationActions) + fas
    {
      formationActions := formationActions + fas;
    }

    /** GetFormationAction: the first formation action applicable to the type, or None. */
    method GetFormationAction(ts: TypeSystem, ft: FormationType) returns (found: Option<FormationAction>)
      ensures found == FirstWhere(formationActions, AssignableFrom(ts, ft))
    {
      found := FirstIn(formationActions, AssignableFrom(ts, ft));
    }

    /** GetFormationActionFor: the first formation action the formation's type converts to, or None. */
    method GetFormationActionFor(ts: TypeSystem, f: Formation) returns (found: Option<FormationAction>)
      ensures found == FirstWhere(formationActions, ConvertibleFrom(ts, f))
    {
      found := FirstIn(formationActions, ConvertibleFrom(ts, f));
    }
  }

  /** The search loop of FindAction and GetFormationAction(For): stops at the first match. */
  method FirstIn<T(==)>(fas: seq<T>, p: T -> bool) returns (found: Option<T>)
    ensures found == FirstWhere(fas, p)
  {
    for i := 0 to |fas|
      invariant forall j :: 0 <= j < i ==> !p(fas[j])
    {
      if p(fas[i]) {
        var k :| 0 <= k < |fas| && fas[k] == FirstWhere(fas, p).value && p(fas[k])
          && forall j :: 0 <= j < k ==> !p(fas[j]);
        assert k == i;
        return Some(fas[i]);
      }
    }
    return None;
  }

  // ---------------------------------------------------------------
  // The registry of actions

  /** The test of FindAction: the action has that name. */
  function Named(name: string): Action -> bool
  {
    (a: Action) => a.name == name
  }

  /** AllActions: every action defined so far, in definition order. */
  class ActionRegistry {
    var actions: seq<Action>

    constructor()
      ensures actions == []
    {
      actions := [];
    }

    /** No two actions share a name. */
    ghost predicate Valid()
      reads this
    {
      forall i, j :: 0 <= i < j < |actions| ==> actions[i].name != actions[j].name
    }

    /** The name of some action of the registry. */
    ghost predicate Defined(name: string)
      reads this
    {
      exists i :: 0 <= i < |actions| && actions[i].name == name
    }

    /** FindAction: the first action with that name, or None. */
    method FindAction(name: string) returns (found: Option<Action>)
      ensures found == FirstWhere(actions, Named(name))
      ensures found.None? <==> !Defined(name)
      ensures found.Some? ==> found.value in actions && found.value.name == name
    {
      found := FirstIn(actions, Named(name));
    }

    /**
     * defineAction: a failure (Go panics) when the name is taken, with
     * the registry as it was; otherwise one fresh action with no
     * formation actions is appended.
     */
    method DefineAction(name: string, description: string) returns (r: Result<Action, string>)
      modifies this`actions
      ensures r.Failure? <==> old(Defined(name))
      ensures r.Failure? ==> actions == old(actions)
      ensures r.Success? ==> (fresh(r.value) && actions == old(actions) + [r.value]
        && r.value.name == name && r.value.description == description && r.value.formationActions == [])
      ensures old(Valid()) ==> Valid()
    {
      var found := FindAction(name);
      if found.Some? {
        return Failure("Attempt to redefine action " + name);
      }
      var a := new Action(name, description);
      actions := actions + [a];
      r := Success(a);
    }

    /**
     * defineFormationAction: appends one formation action to the action
     * of that name, creating it (with no description) when none exists.
     * No other action changes.
     */
    method DefineFormationAction(actionName: string, level: Level, formationType: FormationType, doIt: DoItFunc)
      returns (a: Action)
      modifies this`actions, actions
      ensures old(Defined(actionName)) ==> actions == old(actions) && a == old(FirstWhere(actions, Named(actionName))).value
      ensures !old(Defined(actionName)) ==> fresh(a) && actions == old(actions) + [a] && a.description == ""
      ensures a in actions && a.name == actionName
      ensures old(Defined(actionName)) ==> a.formationActions == old(a.formationActions) + [FormationAction(actionName, level, formationType, doIt)]
      ensures !old(Defined(actionName)) ==> a.formationActions == [FormationAction(actionName, level, formationType, doIt)]
      ensures forall b :: b in old(actions) && b != a ==> b.formationActions == old(b.formationActions)
      ensures old(Valid()) ==> Valid()
    {
      var found := FindAction(actionName);
      if found.Some? {
        a := found.value;
      } else {
        a := new Action(actionName, "");
        actions := actions + [a];
      }
      a.AddFormationAction([FormationAction(actionName, level, formationType, doIt)]);
    }
  }

  // ---------------------------------------------------------------
  // The primitive actions

  /** With unique names, the last action is the one FindAction finds under its name. */
  lemma FirstNamedIsLast(reg: ActionRegistry, name: string)
    requires reg.Valid() && |reg.actions| > 0 && reg.actions[|reg.actions| - 1].name == name
    ensures reg.Defined(name)
    ensures FirstWhere(reg.actions, Named(name)) == Some(reg.actions[|reg.actions| - 1])
  {
    var n := |reg.actions|;
    assert Named(name)(reg.actions[n - 1]);
    var k :| 0 <= k < n && reg.actions[k] == FirstWhere(reg.actions, Named(name)).value && Named(name)(reg.actions[k])
      && forall j :: 0 <= j < k ==> !Named(name)(reg.actions[j]);
    assert k == n - 1;
  }

  /**
   * A defineFormationAction call for the action defined last: it extends
   * that action by one formation action and changes nothing else.
   */
  method AddToLast(reg: ActionRegistry, name: string, ft: FormationType, doIt: DoItFunc)
    requires reg.Valid() && |reg.actions| > 0 && reg.actions[|reg.actions| - 1].name == name
    modifies reg`actions, reg.actions
    ensures reg.actions == old(reg.actions) && reg.Valid()
    ensures reg.actions[|reg.actions| - 1].formationActions ==
      old(reg.actions[|reg.actions| - 1].formationActions) + [FormationAction(name, Primitive, ft, doIt)]
    ensures forall i :: 0 <= i < |reg.actions| - 1 ==> reg.actions[i].formationActions == old(reg.actions[i].formationActions)
  {
    FirstNamedIsLast(reg, name);
    var a := reg.DefineFormationAction(name, Primitive, ft, doIt);
    forall i | 0 <= i < |reg.actions| - 1
      ensures reg.actions[i] != a
    {
      assert reg.actions[i].name != reg.actions[|reg.actions| - 1].name;
    }
  }

  /**
   * One defineAction followed by two defineFormationAction calls for
   * the same name, as each primitive is registered.
   */
  method DefineWithTwoFormationActions(reg: ActionRegistry, name: string, description: string,
                                       ft1: FormationType, doIt1: DoItFunc, ft2: FormationType, doIt2: DoItFunc)
    returns (a: Action)
    requires reg.Valid() && !reg.Defined(name)
    modifies reg`actions, reg.actions
    ensures reg.Valid()
    ensures fresh(a) && reg.actions == old(reg.actions) + [a]
    ensures forall i :: 0 <= i < |old(reg.actions)| ==> reg.actions[i].formationActions == old(reg.actions[i].formationActions)
    ensures a.name == name && a.description == description
    ensures a.formationActions == [FormationAction(name, Primitive, ft1, doIt1), FormationAction(name, Primitive, ft2, doIt2)]
  {
    var r := reg.DefineAction(name, description);
    if r.Failure? {
      assert false;
    }
    a := r.value;
    AddToLast(reg, name, ft1, doIt1);
    AddToLast(reg, name, ft2, doIt2);
  }

  /** The names the primitives of this model register. */
  const PrimitiveNames: seq<string> := ["QuarterRight", "QuarterLeft", "AboutFace", "TurnToFace"]

  /**
   * The package initialisation for the turn-only primitives: QuarterRight,
   * QuarterLeft and AboutFace each get a Dancer variant (the first dancer
   * turns) and a Dancers variant (every dancer turns). The types are those
   * LookupFormationType returns for "Dancer" and "Dancers". The registry
   * is empty when the package's initialisation runs.
   */
  method DefineTurnPrimitives(reg: ActionRegistry, dancerType: FormationType, dancersType: FormationType)
    returns (qr: Action, ql: Action, af: Action)
    requires reg.actions == []
    modifies reg`actions
    ensures reg.Valid() && reg.actions == [qr, ql, af]
    ensures fresh(qr) && fresh(ql) && fresh(af)
    ensures qr.name == "QuarterRight" && ql.name == "QuarterLeft" && af.name == "AboutFace"
    ensures qr.formationActions == [FormationAction("QuarterRight", Primitive, dancerType, TurnFirst(TurnRight)),
                                    FormationAction("QuarterRight", Primitive, dancersType, TurnEach(TurnRight))]
    ensures ql.formationActions == [FormationAction("QuarterLeft", Primitive, dancerType, TurnFirst(TurnLeft)),
                                    FormationAction("QuarterLeft", Primitive, dancersType, TurnEach(TurnLeft))]
    ensures af.formationActions == [FormationAction("AboutFace", Primitive, dancerType, TurnFirst(TurnAround)),
                                    FormationAction("AboutFace", Primitive, dancersType, TurnEach(TurnAround))]
  {
    qr := DefineWithTwoFormationActions(reg, "QuarterRight", "QuarterRight turns the dancers one wall to the right.",
      dancerType, TurnFirst(TurnRight), dancersType, TurnEach(TurnRight));
    assert !reg.Defined("QuarterLeft");
    ql := DefineWithTwoFormationActions(reg, "QuarterLeft", "QuarterLeft turns the dancers one wall to the right.",
      dancerType, TurnFirst(TurnLeft), dancersType, TurnEach(TurnLeft));
    assert !reg.Defined("AboutFace");
    af := DefineWithTwoFormationActions(reg, "AboutFace", "AboutFace turns the dancers around 180 degrees.",
      dancerType, TurnFirst(TurnAround), dancersType, TurnEach(TurnAround));
  }

  /**
   * The package initialisation of the primitives this model covers: the
   * three turns, then TurnToFace with a Couple and a MiniWave variant.
   */
  method DefinePrimitives(reg: ActionRegistry, dancerType: FormationType, dancersType: FormationType,
                          coupleType: FormationType, miniWaveType: FormationType)
    returns (defined: seq<Action>)
    requires reg.actions == []
    modifies reg`actions
    ensures reg.Valid()
    ensures reg.actions == defined
    ensures |defined| == 4 && forall i :: 0 <= i < 4 ==> fresh(defined[i]) && defined[i].name == PrimitiveNames[i]
    ensures defined[0].formationActions == [FormationAction("QuarterRight", Primitive, dancerType, TurnFirst(TurnRight)),
                                            FormationAction("QuarterRight", Primitive, dancersType, TurnEach(TurnRight))]
    ensures defined[1].formationActions == [FormationAction("QuarterLeft", Primitive, dancerType, TurnFirst(TurnLeft)),
                                            FormationAction("QuarterLeft", Primitive, dancersType, TurnEach(TurnLeft))]
    ensures defined[2].formationActions == [FormationAction("AboutFace", Primitive, dancerType, TurnFirst(TurnAround)),
                                            FormationAction("AboutFace", Primitive, dancersType, TurnEach(TurnAround))]
    ensures defined[3].formationActions == [FormationAction("TurnToFace", Primitive, coupleType, FaceEachOther),
                                            FormationAction("TurnToFace", Primitive, miniWaveType, FaceEachOther)]
  {
    var qr, ql, af := DefineTurnPrimitives(reg, dancerType, dancersType);
    assert !reg.Defined("TurnToFace");
    var tf := DefineWithTwoFormationActions(reg, "TurnToFace", "Two dancers turn to face each other.",
      coupleType, FaceEachOther, miniWaveType, FaceEachOther);
    defined := [qr, ql, af, tf];
  }
}
