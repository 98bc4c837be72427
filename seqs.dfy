/**
 * `Array.prototype.filter` and the order-preserving subsequence relation
 * it establishes.
 */
module Seqs {
  import opened JsValues

  /** `s.filter(p)`: the elements satisfying `p`, in their original order. */
  function Keep<T>(s: seq<T>, p: T -> bool): seq<T> {
    if s == [] then [] else (if p(s[0]) then [s[0]] else []) + Keep(s[1..], p)
  }

  /** `s.find(p)`: the first element satisfying `p`, `None` (`undefined`) when none does. */
  function Find<T>(s: seq<T>, p: T -> bool): (r: Option<T>)
    ensures r.Some? ==> r.value in s && p(r.value)
    ensures r.Some? ==> exists i :: 0 <= i < |s| && s[i] == r.value && forall j :: 0 <= j < i ==> !p(s[j])
    ensures r.None? ==> forall x :: x in s ==> !p(x)
  {
    if s == [] then None else if p(s[0]) then Some(s[0]) else Find(s[1..], p)
  }

  /** `a` is `b` with some elements left out and the rest in the same order. */
  predicate Subsequence<T(==)>(a: seq<T>, b: seq<T>)
    decreases |b|
  {
    a == [] || (b != [] && (if a[0] == b[0] then Subsequence(a[1..], b[1..]) else Subsequence(a, b[1..])))
  }

  /**
   * The filter keeps exactly the elements satisfying the predicate, in
   * their original order, and the whole input when all of them do.
   */
  lemma {:induction false} KeepLaws<T>(s: seq<T>, p: T -> bool)
    ensures forall x :: x in Keep(s, p) <==> x in s && p(x)
    ensures |Keep(s, p)| <= |s|
    ensures Subsequence(Keep(s, p), s)
    ensures (forall x :: x in s ==> p(x)) ==> Keep(s, p) == s
    decreases |s|
  {
    if s != [] {
      KeepLaws(s[1..], p);
      assert s == [s[0]] + s[1..];
      var k := Keep(s[1..], p);
      if p(s[0]) {
        assert Keep(s, p) == [s[0]] + k && ([s[0]] + k)[1..] == k;
        assert Subsequence([s[0]] + k, s);
      } else {
        assert Keep(s, p) == k;
        if k != [] {
          assert k[0] in k && k[0] != s[0];
          assert Subsequence(k, s);
        }
      }
      if forall x :: x in s ==> p(x) {
        assert forall x :: x in s[1..] ==> x in s;
      }
    }
  }
}
