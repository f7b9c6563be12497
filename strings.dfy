/**
 * Go's ordering of strings: byte-wise lexicographic. On characters it is
 * the order of their code points, which UTF-8 byte order preserves.
 */
module Strings {

  /** a < b as Go compares strings: the first difference decides, and a proper prefix comes first. */
  function Less(a: string, b: string): (r: bool)
    ensures r ==> a != b
    ensures a == [] ==> (r <==> b != [])
  {
    if b == [] then false
    else if a == [] then true
    else if a[0] != b[0] then a[0] < b[0]
    else Less(a[1..], b[1..])
  }

  /** Less is a strict total order: irreflexive, asymmetric, transitive and total. */
  lemma {:induction false} LessIsStrictTotal(a: string, b: string, c: string)
    ensures !Less(a, a)
    ensures Less(a, b) ==> !Less(b, a)
    ensures Less(a, b) && Less(b, c) ==> Less(a, c)
    ensures a != b ==> Less(a, b) || Less(b, a)
  {
    if a != [] && b != [] && c != [] {
      LessIsStrictTotal(a[1..], b[1..], c[1..]);
    } else if a != [] && b != [] {
      LessIsStrictTotal(a[1..], b[1..], a[1..]);
      if a != b && a[0] == b[0] {
        assert a == [a[0]] + a[1..] && b == [b[0]] + b[1..];
      }
    }
  }
}
