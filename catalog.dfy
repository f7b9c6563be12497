/**
 * The catalog of formation actions at one level: the formation actions
 * of every registered action that belong to the level, ordered by action
 * name and then by formation type name.
 */
module Catalog {
  import opened Formations
  import opened Actions
  import Strings

  /** catalogSort.Less: by action name, and on equal action names by formation type name. */
  predicate CatalogLess(fa1: FormationAction, fa2: FormationAction)
  {
    if Strings.Less(fa1.actionName, fa2.actionName) then true
    else if Strings.Less(fa2.actionName, fa1.actionName) then false
    else Strings.Less(fa1.formationType.name, fa2.formationType.name)
  }

  /**
   * CatalogLess is the lexicographic order on (action name, formation
   * type name): a smaller action name decides, a greater one refuses, and
   * only equal action names fall through to the formation type names.
   */
  lemma CatalogLessIsLexicographic(fa1: FormationAction, fa2: FormationAction)
    ensures Strings.Less(fa1.actionName, fa2.actionName) ==> CatalogLess(fa1, fa2)
    ensures Strings.Less(fa2.actionName, fa1.actionName) ==> !CatalogLess(fa1, fa2)
    ensures fa1.actionName == fa2.actionName ==>
      (CatalogLess(fa1, fa2) <==> Strings.Less(fa1.formationType.name, fa2.formationType.name))
  {
    Strings.LessIsStrictTotal(fa1.actionName, fa2.actionName, fa1.actionName);
  }

  /**
   * CatalogLess is a strict order, so sorting by it is well defined; two
   * formation actions it cannot tell apart share both names.
   */
  lemma CatalogLessIsStrictOrder(fa1: FormationAction, fa2: FormationAction, fa3: FormationAction)
    ensures !CatalogLess(fa1, fa1)
    ensures CatalogLess(fa1, fa2) ==> !CatalogLess(fa2, fa1)
    ensures CatalogLess(fa1, fa2) && CatalogLess(fa2, fa3) ==> CatalogLess(fa1, fa3)
    ensures !CatalogLess(fa1, fa2) && !CatalogLess(fa2, fa1) ==>
      fa1.actionName == fa2.actionName && fa1.formationType.name == fa2.formationType.name
  {
    var n1, n2, n3 := fa1.actionName, fa2.actionName, fa3.actionName;
    var t1, t2, t3 := fa1.formationType.name, fa2.formationType.name, fa3.formationType.name;
    Strings.LessIsStrictTotal(n1, n2, n3);
    Strings.LessIsStrictTotal(n2, n3, n1);
    Strings.LessIsStrictTotal(n3, n1, n2);
    Strings.LessIsStrictTotal(n2, n1, n3);
    Strings.LessIsStrictTotal(t1, t2, t3);
    Strings.LessIsStrictTotal(t2, t1, t3);
  }

  /** The formation actions of fas at the level, in their order. */
  function AtLevel(fas: seq<FormationAction>, level: Level): seq<FormationAction>
  {
    if fas == [] then []
    else
      var last := fas[|fas| - 1];
      AtLevel(fas[..|fas| - 1], level) + if last.level == level then [last] else []
  }

  /** AtLevel keeps exactly the formation actions that have the level, and no more of them than there were. */
  lemma {:induction false} AtLevelMembership(fas: seq<FormationAction>, level: Level)
    ensures |AtLevel(fas, level)| <= |fas|
    ensures forall fa :: fa in AtLevel(fas, level) <==> fa in fas && fa.level == level
  {
    if fas != [] {
      AtLevelMembership(fas[..|fas| - 1], level);
      assert fas == fas[..|fas| - 1] + [fas[|fas| - 1]];
    }
  }

  /** The formation actions of all the actions at the level: action by action, each in registration order. */
  function CatalogOf(actions: seq<Action>, level: Level): seq<FormationAction>
    reads actions
  {
    if actions == [] then []
    else
      CatalogOf(actions[..|actions| - 1], level) + AtLevel(actions[|actions| - 1].formationActions, level)
  }

  /** A formation action is catalogued exactly when some action holds it and it has the level. */
  lemma {:induction false} CatalogMembership(actions: seq<Action>, level: Level, fa: FormationAction)
    ensures fa in CatalogOf(actions, level) <==>
      (fa.level == level && exists i :: 0 <= i < |actions| && fa in actions[i].formationActions)
  {
    if actions != [] {
      var n := |actions| - 1;
      var init := actions[..n];
      CatalogMembership(init, level, fa);
      AtLevelMembership(actions[n].formationActions, level);
      if fa in CatalogOf(actions, level) && fa in CatalogOf(init, level) {
        var i :| 0 <= i < n && fa in init[i].formationActions;
        assert actions[i] == init[i];
      }
      if fa.level == level && exists i :: 0 <= i < |actions| && fa in actions[i].formationActions {
        var i :| 0 <= i < |actions| && fa in actions[i].formationActions;
        if i < n {
          assert init[i] == actions[i];
        }
      }
    }
  }

  /**
   * The collection loop of WriteCatalog: walks the registry's actions
   * and each one's formation actions, keeping those at the level.
   */
  method CollectCatalog(reg: ActionRegistry, level: Level) returns (fas: seq<FormationAction>)
    ensures fas == CatalogOf(reg.actions, level)
  {
    fas := [];
    for i := 0 to |reg.actions|
      invariant fas == CatalogOf(reg.actions[..i], level)
    {
      var action := reg.actions[i];
      var before := fas;
      for j := 0 to |action.formationActions|
        invariant fas == before + AtLevel(action.formationActions[..j], level)
      {
        var fa := action.formationActions[j];
        assert action.formationActions[..j + 1] == action.formationActions[..j] + [fa];
        if fa.level == level {
          fas := fas + [fa];
        }
      }
      assert action.formationActions[..|action.formationActions|] == action.formationActions;
      assert reg.actions[..i + 1][..i] == reg.actions[..i];
    }
    assert reg.actions[..|reg.actions|] == reg.actions;
  }
}
