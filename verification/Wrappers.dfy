/** What the other modules share: optional values, lists without repetition, and the sizes of sets. */
module Wrappers {
  datatype Option<+T> = None | Some(value: T)

  predicate Distinct<T(==)>(s: seq<T>) {
    forall i, j | 0 <= i < j < |s| :: s[i] != s[j]
  }

  lemma SetSizes<T>(a: set<T>, b: set<T>)
    requires a <= b
    ensures |b - a| == |b| - |a| && (a != b ==> |a| < |b|)
  {
    if a != b {
      var e :| e in b && e !in a;
      assert e in b - a;
    }
  }

  lemma {:induction false} AllIn<T>(s: seq<T>, all: set<T>)
    requires Distinct(s) && forall i | 0 <= i < |s| :: s[i] in all
    ensures |s| <= |all|
    decreases |s|
  {
    if s != [] {
      AllIn(s[1..], all - {s[0]});
    }
  }

  lemma {:induction false} Fits<T>(s: seq<T>, all: set<T>)
    requires forall e | e in all :: e in s
    ensures |all| <= |s|
    decreases |s|
  {
    if s == [] {
      assert all == {};
    } else {
      var n := |s| - 1;
      forall e | e in all - {s[n]} ensures e in s[..n] {
        assert s == s[..n] + [s[n]];
      }
      Fits(s[..n], all - {s[n]});
      SetSizes(all - {s[n]}, all);
    }
  }
}
