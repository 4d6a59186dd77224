/** The order in which texts sort. */
module TextOrder {
  /** Order by code point, the shorter first when one is a prefix of the other. */
  predicate StrLe(a: string, b: string) {
    a == [] || (b != [] && (a[0] < b[0] || (a[0] == b[0] && StrLe(a[1..], b[1..]))))
  }

  /** The first difference decides; a text stands before its extensions. */
  lemma {:induction false} FirstDifference(common: string, a: string, b: string)
    ensures a == [] ==> StrLe(common + a, common + b)
    ensures a != [] && b == [] ==> !StrLe(common + a, common + b)
    ensures a != [] && b != [] && a[0] != b[0] ==> (StrLe(common + a, common + b) <==> a[0] < b[0])
  {
    if common == [] { assert common + a == a && common + b == b; }
    else {
      FirstDifference(common[1..], a, b);
      assert (common + a)[1..] == common[1..] + a && (common + b)[1..] == common[1..] + b;
    }
  }

  lemma {:induction false} StrLeTotal(a: string, b: string)
    ensures StrLe(a, b) || StrLe(b, a)
  {
    if a != [] && b != [] && a[0] == b[0] { StrLeTotal(a[1..], b[1..]); }
  }

  lemma {:induction false} StrLeAntisymmetric(a: string, b: string)
    requires StrLe(a, b) && StrLe(b, a)
    ensures a == b
  {
    if a != [] && b != [] {
      StrLeAntisymmetric(a[1..], b[1..]);
      assert a == [a[0]] + a[1..] && b == [b[0]] + b[1..];
    }
  }

  lemma {:induction false} StrLeTransitive(a: string, b: string, c: string)
    requires StrLe(a, b) && StrLe(b, c)
    ensures StrLe(a, c)
  {
    if a != [] && b != [] && c != [] && a[0] == b[0] == c[0] { StrLeTransitive(a[1..], b[1..], c[1..]); }
  }
}
