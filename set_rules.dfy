/** The rule that makes every dancer of a set known on its own. */
module SetRules {
  import opened Dancers

  /**
   * rule_SetHasDancers: emits each dancer of the set once, in the set's
   * order. The emissions are returned; the set is left as it was.
   */
  method SetHasDancers(s: DancerSet) returns (emitted: seq<Dancer>)
    ensures emitted == s.dancers
    ensures |emitted| == s.NumberOfDancers()
  {
    emitted := [];
    var ds := s.dancers;
    for i := 0 to |ds|
      invariant emitted == ds[..i]
    {
      emitted := emitted + [ds[i]];
    }
    assert ds[..|ds|] == ds;
  }
}
