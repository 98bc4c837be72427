/**
 * Stable sorting by a comparison, the meaning of `Array.prototype.sort`
 * given a consistent comparator: the result is the input's elements in
 * non-decreasing order, elements the comparator ties keeping their
 * relative order. Insertion sort defines it.
 */
module Sorting {
  import opened Seqs

  /** Every two elements are comparable one way or the other. */
  ghost predicate Total<T(!new)>(le: (T, T) -> bool) {
    forall a: T, b: T :: le(a, b) || le(b, a)
  }

  ghost predicate Transitive<T(!new)>(le: (T, T) -> bool) {
    forall a: T, b: T, c: T :: le(a, b) && le(b, c) ==> le(a, c)
  }

  predicate Sorted<T>(s: seq<T>, le: (T, T) -> bool) {
    forall i, j :: 0 <= i < j < |s| ==> le(s[i], s[j])
  }

  /** `x` placed before the first element it does not come after. */
  function Insert<T>(x: T, s: seq<T>, le: (T, T) -> bool): seq<T> {
    if s == [] || le(x, s[0]) then [x] + s else [s[0]] + Insert(x, s[1..], le)
  }

  /** Each element, last to first, inserted into the sorted rest: earlier elements go before tied later ones. */
  function Sort<T>(s: seq<T>, le: (T, T) -> bool): seq<T> {
    if s == [] then [] else Insert(s[0], Sort(s[1..], le), le)
  }

  lemma {:induction false} InsertPermutes<T>(x: T, s: seq<T>, le: (T, T) -> bool)
    ensures multiset(Insert(x, s, le)) == multiset(s) + multiset{x}
    ensures |Insert(x, s, le)| == |s| + 1
    decreases |s|
  {
    if s != [] && !le(x, s[0]) {
      InsertPermutes(x, s[1..], le);
      assert s == [s[0]] + s[1..];
    }
  }

  lemma {:induction false} InsertSorted<T(!new)>(x: T, s: seq<T>, le: (T, T) -> bool)
    requires Total(le) && Transitive(le) && Sorted(s, le)
    ensures Sorted(Insert(x, s, le), le)
    decreases |s|
  {
    InsertPermutes(x, s, le);
    if s == [] {
    } else if le(x, s[0]) {
      var r := [x] + s;
      forall i, j | 0 <= i < j < |r| ensures le(r[i], r[j]) {
        if i == 0 {
          if j > 1 {
            assert le(s[0], s[j - 1]);
          }
        } else {
          assert r[i] == s[i - 1] && r[j] == s[j - 1];
        }
      }
    } else {
      assert le(s[0], x);
      var tail := Insert(x, s[1..], le);
      InsertSorted(x, s[1..], le);
      InsertPermutes(x, s[1..], le);
      var r := [s[0]] + tail;
      forall j | 1 <= j < |r| ensures le(s[0], r[j]) {
        assert r[j] in multiset(tail);
        assert r[j] in multiset(s[1..]) + multiset{x};
        if r[j] != x {
          assert r[j] in s[1..];
          var k :| 0 <= k < |s[1..]| && s[1..][k] == r[j];
          assert s[k + 1] == r[j];
        }
      }
      forall i, j | 0 <= i < j < |r| ensures le(r[i], r[j]) {
        if i > 0 {
          assert r[i] == tail[i - 1] && r[j] == tail[j - 1];
        }
      }
    }
  }

  /** The sort orders its input and neither loses nor adds an element. */
  lemma {:induction false} SortCorrect<T(!new)>(s: seq<T>, le: (T, T) -> bool)
    requires Total(le) && Transitive(le)
    ensures Sorted(Sort(s, le), le)
    ensures multiset(Sort(s, le)) == multiset(s) && |Sort(s, le)| == |s|
    decreases |s|
  {
    if s != [] {
      SortCorrect(s[1..], le);
      InsertSorted(s[0], Sort(s[1..], le), le);
      InsertPermutes(s[0], Sort(s[1..], le), le);
      assert s == [s[0]] + s[1..];
    }
  }

  /** A sorted input comes back unchanged. */
  lemma {:induction false} SortSortedInput<T(!new)>(s: seq<T>, le: (T, T) -> bool)
    requires Sorted(s, le)
    ensures Sort(s, le) == s
    decreases |s|
  {
    if s != [] {
      assert Sorted(s[1..], le) by {
        forall i, j | 0 <= i < j < |s[1..]| ensures le(s[1..][i], s[1..][j]) {
          assert s[1..][i] == s[i + 1] && s[1..][j] == s[j + 1];
        }
      }
      SortSortedInput(s[1..], le);
      if |s| > 1 {
        assert le(s[0], s[1]);
      }
    }
  }

  /** The elements the comparator ties with `x`: neither comes before the other. */
  function Ties<T>(x: T, le: (T, T) -> bool): T -> bool {
    y => le(x, y) && le(y, x)
  }

  /**
   * Inserting `a` puts it before every element of its tie class: the
   * elements it passes over come strictly before it, so none of them ties.
   */
  lemma {:induction false} InsertKeepsTies<T>(a: T, t: seq<T>, le: (T, T) -> bool, p: T -> bool)
    requires forall b :: p(a) && p(b) ==> le(a, b)
    ensures Keep(Insert(a, t, le), p) == (if p(a) then [a] else []) + Keep(t, p)
    decreases |t|
  {
    var r := Insert(a, t, le);
    if t == [] || le(a, t[0]) {
      assert r == [a] + t;
      KeepCons(a, t, p);
    } else {
      var rest := Insert(a, t[1..], le);
      InsertKeepsTies(a, t[1..], le, p);
      assert r == [t[0]] + rest;
      KeepCons(t[0], rest, p);
      assert t == [t[0]] + t[1..];
      KeepCons(t[0], t[1..], p);
      if p(a) {
        assert !p(t[0]);
      }
    }
  }

  lemma KeepCons<T>(x: T, s: seq<T>, p: T -> bool)
    ensures Keep([x] + s, p) == (if p(x) then [x] else []) + Keep(s, p)
  {
    assert ([x] + s)[0] == x && ([x] + s)[1..] == s;
  }

  /**
   * The sort is stable: for every element `x`, the elements the comparator
   * ties with `x` come out in the order they went in.
   */
  lemma {:induction false} SortStable<T(!new)>(s: seq<T>, le: (T, T) -> bool, x: T)
    requires Transitive(le)
    ensures Keep(Sort(s, le), Ties(x, le)) == Keep(s, Ties(x, le))
    decreases |s|
  {
    if s != [] {
      var p := Ties(x, le);
      SortStable(s[1..], le, x);
      InsertKeepsTies(s[0], Sort(s[1..], le), le, p);
    }
  }

  // ------------------------------------------------------------------
  // The order of strings
  // ------------------------------------------------------------------

  /**
   * Strings in character order: the default order of `sort()` on strings,
   * and the order this model gives `localeCompare`.
   */
  predicate TextLe(a: string, b: string)
    decreases |a|
  {
    a == [] || (b != [] && (a[0] < b[0] || (a[0] == b[0] && TextLe(a[1..], b[1..]))))
  }

  lemma {:induction false} TextLeTotal(a: string, b: string)
    ensures TextLe(a, b) || TextLe(b, a)
    decreases |a|
  {
    if a != [] && b != [] && a[0] == b[0] {
      TextLeTotal(a[1..], b[1..]);
    }
  }

  lemma {:induction false} TextLeTransitive(a: string, b: string, c: string)
    requires TextLe(a, b) && TextLe(b, c)
    ensures TextLe(a, c)
    decreases |a|
  {
    if a != [] && b != [] && c != [] && a[0] == b[0] && b[0] == c[0] {
      TextLeTransitive(a[1..], b[1..], c[1..]);
    }
  }

  lemma {:induction false} TextLeAntisymmetric(a: string, b: string)
    requires TextLe(a, b) && TextLe(b, a)
    ensures a == b
    decreases |a|
  {
    if a != [] {
      TextLeAntisymmetric(a[1..], b[1..]);
      assert a == [a[0]] + a[1..] && b == [b[0]] + b[1..];
    }
  }

  /** The string order is a total order. */
  lemma TextOrder()
    ensures Total(TextLe) && Transitive(TextLe)
    ensures forall a, b :: TextLe(a, b) && TextLe(b, a) ==> a == b
  {
    forall a, b ensures TextLe(a, b) || TextLe(b, a) {
      TextLeTotal(a, b);
    }
    forall a, b, c | TextLe(a, b) && TextLe(b, c) ensures TextLe(a, c) {
      TextLeTransitive(a, b, c);
    }
    forall a, b | TextLe(a, b) && TextLe(b, a) ensures a == b {
      TextLeAntisymmetric(a, b);
    }
  }

  /** A three-way comparison from the order: negative, zero or positive. */
  function TextCompare(a: string, b: string): int {
    if a == b then 0 else if TextLe(a, b) then -1 else 1
  }
}
