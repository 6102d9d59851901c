/** The order tunnels are listed in (`TunnelsService.nameIsLess`,
    Tunnel/Service/TunnelsService.swift). The system's locale-aware
    comparison is modelled as the lexicographic order of the names with
    ASCII letters lowercased. */
module NameOrder {
  import opened Text

  /** Strict lexicographic order on character sequences. */
  predicate LexLess(a: string, b: string)
    decreases |a|
  {
    if b == [] then false
    else if a == [] then true
    else if a[0] != b[0] then a[0] < b[0]
    else LexLess(a[1..], b[1..])
  }

  lemma {:induction false} LexLessIrreflexive(a: string)
    ensures !LexLess(a, a)
    decreases |a|
  {
    if a != [] {
      LexLessIrreflexive(a[1..]);
    }
  }

  lemma {:induction false} LexLessTransitive(a: string, b: string, c: string)
    requires LexLess(a, b) && LexLess(b, c)
    ensures LexLess(a, c)
    decreases |a|
  {
    if a != [] && a[0] == b[0] && b[0] == c[0] {
      LexLessTransitive(a[1..], b[1..], c[1..]);
    }
  }

  /** Two different sequences are ordered one way or the other. */
  lemma {:induction false} LexLessTotal(a: string, b: string)
    requires a != b
    ensures LexLess(a, b) || LexLess(b, a)
    decreases |a|
  {
    if a != [] && b != [] && a[0] == b[0] {
      assert a == [a[0]] + a[1..] && b == [b[0]] + b[1..];
      LexLessTotal(a[1..], b[1..]);
    }
  }

  /** `nameIsLess(lhs:than:)`. */
  predicate NameIsLess(lhs: string, rhs: string) {
    LexLess(Lowercase(lhs), Lowercase(rhs))
  }

  /** No name is less than itself, and the order is asymmetric. */
  lemma NameIsLessAsymmetric(a: string, b: string)
    ensures !NameIsLess(a, a)
    ensures NameIsLess(a, b) ==> !NameIsLess(b, a)
  {
    LexLessIrreflexive(Lowercase(a));
    if NameIsLess(a, b) && NameIsLess(b, a) {
      LexLessTransitive(Lowercase(a), Lowercase(b), Lowercase(a));
    }
  }

  lemma NameIsLessTransitive(a: string, b: string, c: string)
    requires NameIsLess(a, b) && NameIsLess(b, c)
    ensures NameIsLess(a, c)
  {
    LexLessTransitive(Lowercase(a), Lowercase(b), Lowercase(c));
  }

  /** Names that differ only in letter case are equivalent: neither is
      less than the other. */
  lemma NameIsLessIgnoresCase(a: string, b: string)
    requires Lowercase(a) == Lowercase(b)
    ensures !NameIsLess(a, b) && !NameIsLess(b, a)
  {
    LexLessIrreflexive(Lowercase(a));
  }

  /** The order is a strict weak order: if `a` is less than `c`, any `b`
      is above `a` or below `c`. This is what sorting relies on. */
  lemma NameIsLessNegativelyTransitive(a: string, b: string, c: string)
    requires NameIsLess(a, c)
    ensures NameIsLess(a, b) || NameIsLess(b, c)
  {
    var la, lb, lc := Lowercase(a), Lowercase(b), Lowercase(c);
    if lb == la {
    } else {
      LexLessTotal(la, lb);
      if LexLess(lb, la) {
        LexLessTransitive(lb, la, lc);
      }
    }
  }
}
