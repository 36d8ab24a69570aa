/**
 * Sequence helpers shared by the model: duplicate-freedom and removal of
 * every occurrence of one element (what `Map.prototype.delete` does to a
 * JavaScript map's insertion order).
 */
module Sequences {

  /** No element occurs twice. */
  ghost predicate Distinct<T>(s: seq<T>)
  {
    forall i, j :: 0 <= i < j < |s| ==> s[i] != s[j]
  }

  /** `s` with every occurrence of `x` removed, the others kept in order. */
  function Without<T(==)>(s: seq<T>, x: T): (r: seq<T>)
    ensures forall i :: 0 <= i < |r| ==> r[i] in s && r[i] != x
    ensures forall i :: 0 <= i < |s| && s[i] != x ==> s[i] in r
    ensures |r| <= |s|
    ensures x !in s ==> r == s
    ensures x in s ==> |r| < |s|
  {
    if s == [] then []
    else if s[0] == x then Without(s[1..], x)
    else [s[0]] + Without(s[1..], x)
  }

  /** Removing an element keeps a duplicate-free sequence duplicate-free. */
  lemma {:induction false} WithoutKeepsDistinct<T>(s: seq<T>, x: T)
    requires Distinct(s)
    ensures Distinct(Without(s, x))
  {
    if s != [] {
      assert Distinct(s[1..]) by {
        forall i, j | 0 <= i < j < |s[1..]| ensures s[1..][i] != s[1..][j] {
          assert s[1..][i] == s[i + 1] && s[1..][j] == s[j + 1];
        }
      }
      WithoutKeepsDistinct(s[1..], x);
      if s[0] != x {
        var w := Without(s[1..], x);
        assert s[0] !in s[1..] by {
          forall k | 0 <= k < |s[1..]| ensures s[1..][k] != s[0] {
            assert s[1..][k] == s[k + 1];
          }
        }
        assert s[0] !in w;
        var r := [s[0]] + w;
        forall i, j | 0 <= i < j < |r| ensures r[i] != r[j] {
          if i == 0 {
            assert r[j] == w[j - 1];
            assert w[j - 1] in w;
          } else {
            assert r[i] == w[i - 1] && r[j] == w[j - 1];
          }
        }
      }
    }
  }

  /** Removing the same element twice is removing it once. */
  lemma WithoutIdempotent<T>(s: seq<T>, x: T)
    ensures Without(Without(s, x), x) == Without(s, x)
  {
    assert x !in Without(s, x);
  }
}
