/**
 * The formation diagrams page: one template argument per registered
 * formation type, carrying a sample formation when one can be made,
 * ordered by the sample's size and then by name; and the merge of two
 * template function maps.
 */
module Diagrams {
  import opened Formations
  import opened Wrappers
  import Strings

  /** DancersSVGTemplateArg: the SVG id (the type's name) and the sample, if one can be made. */
  datatype SvgTemplateArg = SvgTemplateArg(svgId: string, sample: Option<Formation>)
  {
    /** Name: the formation's name is the SVG id. */
    function Name(): string
    {
      svgId
    }

    /** HasSample: whether a sample exists. */
    predicate HasSample()
    {
      sample.Some?
    }

    /** DancerCount: -1 without a sample, so those sort first; otherwise the sample's dancer count. */
    function DancerCount(): (r: int)
      ensures r == -1 <==> !HasSample()
      ensures HasSample() ==> r == |sample.value.Dancers()|
      ensures r >= -1
    {
      if sample.None? then -1 else |sample.value.Dancers()|
    }
  }

  /** NewDancersSVGTemplateArg: the type's name and whatever sample sampleOf makes for it. */
  function NewSvgTemplateArg(ft: FormationType, sampleOf: FormationType -> Option<Formation>): (r: SvgTemplateArg)
    ensures r.Name() == ft.name
    ensures r.HasSample() <==> sampleOf(ft).Some?
  {
    SvgTemplateArg(ft.name, sampleOf(ft))
  }

  /** FormationTypeSort.Less: by dancer count, and on equal counts by name. */
  predicate FormationTypeLess(a: SvgTemplateArg, b: SvgTemplateArg)
  {
    if a.DancerCount() < b.DancerCount() then true
    else if a.DancerCount() > b.DancerCount() then false
    else Strings.Less(a.Name(), b.Name())
  }

  /**
   * Every formation type without a sample sorts before every one with a
   * sample, and among those with samples fewer dancers come first.
   */
  lemma SamplelessSortFirst(a: SvgTemplateArg, b: SvgTemplateArg)
    ensures !a.HasSample() && b.HasSample() ==> FormationTypeLess(a, b) && !FormationTypeLess(b, a)
    ensures a.HasSample() && b.HasSample() && |a.sample.value.Dancers()| < |b.sample.value.Dancers()| ==>
      FormationTypeLess(a, b)
    ensures a.DancerCount() == b.DancerCount() ==> (FormationTypeLess(a, b) <==> Strings.Less(a.Name(), b.Name()))
  {
  }

  /** FormationTypeLess is a strict order; arguments it cannot tell apart have equal counts and names. */
  lemma FormationTypeLessIsStrictOrder(a: SvgTemplateArg, b: SvgTemplateArg, c: SvgTemplateArg)
    ensures !FormationTypeLess(a, a)
    ensures FormationTypeLess(a, b) ==> !FormationTypeLess(b, a)
    ensures FormationTypeLess(a, b) && FormationTypeLess(b, c) ==> FormationTypeLess(a, c)
    ensures !FormationTypeLess(a, b) && !FormationTypeLess(b, a) ==> a.DancerCount() == b.DancerCount() && a.Name() == b.Name()
  {
    Strings.LessIsStrictTotal(a.Name(), b.Name(), c.Name());
    Strings.LessIsStrictTotal(b.Name(), a.Name(), c.Name());
  }

  /** A template function, known here only by its identity. */
  datatype TemplateFunc = TemplateFunc(id: string)

  /** template.FuncMap: template functions by name. */
  class FuncMap {
    var entries: map<string, TemplateFunc>

    constructor(entries: map<string, TemplateFunc>)
      ensures this.entries == entries
    {
      this.entries := entries;
    }
  }

  /**
   * MergeTemplateFuncs: copies every entry of tfm2 into tfm1 and returns
   * tfm1; the result is the map union in which tfm2 wins.
   */
  method MergeTemplateFuncs(tfm1: FuncMap, tfm2: FuncMap) returns (r: FuncMap)
    modifies tfm1
    ensures r == tfm1
    ensures tfm1.entries == old(tfm1.entries) + old(tfm2.entries)
  {
    ghost var original := tfm1.entries;
    var source := tfm2.entries;
    var rest := source.Keys;
    while rest != {}
      invariant rest <= source.Keys
      invariant tfm1.entries == original + (source - rest)
      decreases |rest|
    {
      var k :| k in rest;
      CopyOneMore(original, source, rest, k);
      tfm1.entries := tfm1.entries[k := source[k]];
      rest := rest - {k};
    }
    assert source - {} == source;
    r := tfm1;
  }

  /** Copying key k of source extends the copied part by exactly that key. */
  lemma CopyOneMore(original: map<string, TemplateFunc>, source: map<string, TemplateFunc>, rest: set<string>, k: string)
    requires k in rest && rest <= source.Keys
    ensures (original + (source - rest))[k := source[k]] == original + (source - (rest - {k}))
  {
  }

  /**
   * What the merge promises: tfm2's keys get tfm2's values, tfm1's other
   * keys keep theirs, and no key comes from anywhere else.
   */
  lemma MergeOverridesAndKeeps(m1: map<string, TemplateFunc>, m2: map<string, TemplateFunc>)
    ensures (m1 + m2).Keys == m1.Keys + m2.Keys
    ensures forall k :: k in m2 ==> (m1 + m2)[k] == m2[k]
    ensures forall k :: k in m1 && k !in m2 ==> (m1 + m2)[k] == m1[k]
  {
  }

  /**
   * The gathering half of WriteFormationDiagrams: a failure when no
   * formation type is registered; otherwise one template argument per
   * registered type, named after it and carrying its sample.
   */
  method CollectDiagramArgs(types: FormationTypeRegistry, sampleOf: FormationType -> Option<Formation>)
    returns (r: Result<seq<SvgTemplateArg>, string>)
    ensures r.Failure? <==> types.types == map[]
    ensures r.Success? ==> |r.value| == |types.types|
    ensures r.Success? ==> forall name :: name in types.types ==> NewSvgTemplateArg(types.types[name], sampleOf) in r.value
    ensures r.Success? ==> forall arg :: arg in r.value ==> exists name :: name in types.types && arg == NewSvgTemplateArg(types.types[name], sampleOf)
  {
    var args := TemplateArgsOf(types.types, sampleOf);
    if |args| == 0 {
      return Failure("No sorted formation types.");
    }
    r := Success(args);
  }

  /** One template argument per formation type of all, in no particular order. */
  method TemplateArgsOf(all: map<string, FormationType>, sampleOf: FormationType -> Option<Formation>)
    returns (args: seq<SvgTemplateArg>)
    ensures |args| == |all|
    ensures forall name :: name in all ==> NewSvgTemplateArg(all[name], sampleOf) in args
    ensures forall arg :: arg in args ==> exists name :: name in all && arg == NewSvgTemplateArg(all[name], sampleOf)
  {
    args := [];
    ghost var names: seq<string> := [];
    var rest := all.Keys;
    while rest != {}
      invariant rest <= all.Keys
      invariant |args| == |names| && |args| + |rest| == |all|
      invariant forall name :: name in all && name !in rest ==> name in names
      invariant forall i :: 0 <= i < |names| ==> names[i] in all && names[i] !in rest
      invariant forall i :: 0 <= i < |names| ==> args[i] == NewSvgTemplateArg(all[names[i]], sampleOf)
      decreases |rest|
    {
      var name :| name in rest;
      args := args + [NewSvgTemplateArg(all[name], sampleOf)];
      names := names + [name];
      rest := rest - {name};
    }
    forall name | name in all
      ensures NewSvgTemplateArg(all[name], sampleOf) in args
    {
      var i :| 0 <= i < |names| && names[i] == name;
      assert args[i] == NewSvgTemplateArg(all[name], sampleOf);
    }
    forall arg | arg in args
      ensures exists name :: name in all && arg == NewSvgTemplateArg(all[name], sampleOf)
    {
      var i :| 0 <= i < |args| && args[i] == arg;
      assert names[i] in all;
    }
  }
}
