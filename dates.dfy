/**
 * The order of the date column. Dates are kept as the strings the page writes
 * ("%Y-%m-%d %H:%M:%S"), and sorting a column of strings compares them code
 * point by code point, a proper prefix coming first.
 */
module DateOrder {

  /** a <= b in the lexicographic order of strings. */
  predicate DateLeq(a: string, b: string)
    decreases |a|
    ensures |a| <= |b| && a == b[..|a|] ==> DateLeq(a, b)
  {
    |a| == 0 || (|b| > 0 && (a[0] < b[0] || (a[0] == b[0] && DateLeq(a[1..], b[1..]))))
  }

  lemma {:induction false} DateLeqReflexive(a: string)
    ensures DateLeq(a, a)
  {
    if |a| > 0 {
      DateLeqReflexive(a[1..]);
    }
  }

  lemma {:induction false} DateLeqTotal(a: string, b: string)
    ensures DateLeq(a, b) || DateLeq(b, a)
  {
    if |a| > 0 && |b| > 0 && a[0] == b[0] {
      DateLeqTotal(a[1..], b[1..]);
    }
  }

  lemma {:induction false} DateLeqTransitive(a: string, b: string, c: string)
    requires DateLeq(a, b) && DateLeq(b, c)
    ensures DateLeq(a, c)
  {
    if |a| > 0 && a[0] == b[0] && b[0] == c[0] {
      DateLeqTransitive(a[1..], b[1..], c[1..]);
    }
  }

  lemma {:induction false} DateLeqAntisymmetric(a: string, b: string)
    requires DateLeq(a, b) && DateLeq(b, a)
    ensures a == b
  {
    if |a| > 0 {
      DateLeqAntisymmetric(a[1..], b[1..]);
      assert a == [a[0]] + a[1..] && b == [b[0]] + b[1..];
    }
  }
}
