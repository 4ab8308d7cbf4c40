/** Rearranged sequences. */
module Sequences {

  function Without<T>(s: seq<T>, k: nat): seq<T>
    requires k < |s|
  {
    s[..k] + s[k + 1..]
  }

  lemma WithoutIs<T>(s: seq<T>, k: nat)
    requires k < |s|
    ensures multiset(s) == multiset(Without(s, k)) + multiset{s[k]}
  {
    var l, r := s[..k], s[k + 1..];
    assert s == (l + [s[k]]) + r;
    assert multiset(l + r) == multiset(l) + multiset(r);
  }

  /** Taking the last element of one out of a rearrangement of it. */
  lemma TakenOut<T>(a: seq<T>, b: seq<T>, k: nat)
    requires a != [] && k < |b| && b[k] == a[|a| - 1] && multiset(a) == multiset(b)
    ensures multiset(Without(b, k)) == multiset(a[..|a| - 1])
  {
    var x, y, m := multiset(Without(b, k)), multiset(a[..|a| - 1]), multiset{b[k]};
    WithoutIs(b, k);
    WithoutIs(a, |a| - 1);
    assert Without(a, |a| - 1) == a[..|a| - 1];
    assert x == (x + m) - m && y == (y + m) - m;
  }

  lemma FoundIn<T>(a: seq<T>, b: seq<T>) returns (k: nat)
    requires a != [] && multiset(a) == multiset(b)
    ensures k < |b| && b[k] == a[|a| - 1]
  {
    assert a[|a| - 1] in multiset(b);
    k :| 0 <= k < |b| && b[k] == a[|a| - 1];
  }

  lemma BothEmpty<T>(b: seq<T>)
    requires multiset(b) == multiset{}
    ensures b == []
  {
    assert |multiset(b)| == |b|;
  }
}
