/**
 * Python's ordering of `str` values: lexicographic on code points, where a
 * proper prefix is smaller than the longer string. Dafny's own `<` on
 * sequences means "proper prefix", so the ordering is written out here.
 */
module Strings {

  /** Python's `a < b` on two strings. */
  predicate StrLess(a: string, b: string)
  {
    if a == [] then b != []
    else if b == [] then false
    else if a[0] != b[0] then a[0] < b[0]
    else StrLess(a[1..], b[1..])
  }

  /** Python's `a >= b` on two strings, which is `not (a < b)`. */
  predicate StrAtLeast(a: string, b: string)
    ensures StrAtLeast(a, b) <==> a == b || StrLess(b, a)
  {
    StrLessTotal(a, b);
    StrLessAsymmetric(b, a);
    StrLessIrreflexive(a);
    !StrLess(a, b)
  }

  /** A string is smaller when it has the smaller code point at the first position where the two differ. */
  lemma {:induction false} StrLessAt(a: string, b: string, k: nat)
    requires k < |a| && k < |b| && a[..k] == b[..k] && a[k] < b[k]
    ensures StrLess(a, b)
  {
    if k > 0 {
      assert a[0] == a[..k][0] == b[..k][0] == b[0];
      assert a[1..][..k - 1] == a[..k][1..] == b[..k][1..] == b[1..][..k - 1];
      StrLessAt(a[1..], b[1..], k - 1);
    }
  }

  /** No string is smaller than itself. */
  lemma {:induction false} StrLessIrreflexive(a: string)
    ensures !StrLess(a, a)
  {
    if a != [] {
      StrLessIrreflexive(a[1..]);
    }
  }

  /** Two strings are never smaller than each other. */
  lemma {:induction false} StrLessAsymmetric(a: string, b: string)
    ensures StrLess(a, b) ==> !StrLess(b, a)
  {
    if a != [] && b != [] && a[0] == b[0] {
      StrLessAsymmetric(a[1..], b[1..]);
    }
  }

  /** The ordering is transitive. */
  lemma {:induction false} StrLessTransitive(a: string, b: string, c: string)
    requires StrLess(a, b) && StrLess(b, c)
    ensures StrLess(a, c)
  {
    if a != [] && a[0] == b[0] && b[0] == c[0] {
      StrLessTransitive(a[1..], b[1..], c[1..]);
    }
  }

  /** Any two strings are equal or ordered one way or the other. */
  lemma {:induction false} StrLessTotal(a: string, b: string)
    ensures StrLess(a, b) || a == b || StrLess(b, a)
  {
    if a != [] && b != [] && a[0] == b[0] {
      StrLessTotal(a[1..], b[1..]);
      if a[1..] == b[1..] {
        assert a == [a[0]] + a[1..] && b == [b[0]] + b[1..];
      }
    }
  }

  /** `>=` is transitive: `a >= b` and `b >= c` give `a >= c`. */
  lemma StrAtLeastTransitive(a: string, b: string, c: string)
    requires StrAtLeast(a, b) && StrAtLeast(b, c)
    ensures StrAtLeast(a, c)
  {
    StrLessTotal(b, c);
    if b != c && StrLess(a, c) {
      StrLessTransitive(a, c, b);
    }
  }
}
