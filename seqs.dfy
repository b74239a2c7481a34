/** Generic list operations shared by the demos: Array.prototype.filter,
  * deletion by index, and duplicate-freedom. */
module Seqs {
  /** The elements of `s` that satisfy `p`, in their original order. */
  function Filter<T>(s: seq<T>, p: T -> bool): (r: seq<T>)
    ensures |r| <= |s|
    ensures forall i :: 0 <= i < |r| ==> r[i] in s && p(r[i])
    ensures forall i :: 0 <= i < |s| && p(s[i]) ==> s[i] in r
  {
    if s == [] then [] else (if p(s[0]) then [s[0]] else []) + Filter(s[1..], p)
  }

  /** Filtering distributes over concatenation: relative order is kept. */
  lemma {:induction false} FilterConcat<T>(s: seq<T>, t: seq<T>, p: T -> bool)
    ensures Filter(s + t, p) == Filter(s, p) + Filter(t, p)
  {
    if s == [] {
      assert s + t == t;
    } else {
      assert (s + t)[1..] == s[1..] + t;
      FilterConcat(s[1..], t, p);
    }
  }

  /** A new head is kept exactly when it passes. */
  lemma FilterCons<T>(x: T, s: seq<T>, p: T -> bool)
    ensures p(x) ==> Filter([x] + s, p) == [x] + Filter(s, p)
    ensures !p(x) ==> Filter([x] + s, p) == Filter(s, p)
  {
    assert ([x] + s)[1..] == s;
  }

  /** A filter that every element passes changes nothing. */
  lemma {:induction false} FilterKeepsAll<T>(s: seq<T>, p: T -> bool)
    requires forall x :: x in s ==> p(x)
    ensures Filter(s, p) == s
  {
    if s != [] {
      assert s[0] in s;
      FilterKeepsAll(s[1..], p);
    }
  }

  /** Every element lands in exactly one of `Filter(s, p)` and `Filter(s, q)` when `q` is the negation of `p`. */
  lemma {:induction false} FilterPartition<T>(s: seq<T>, p: T -> bool, q: T -> bool)
    requires forall x :: q(x) == !p(x)
    ensures |Filter(s, p)| + |Filter(s, q)| == |s|
    ensures multiset(Filter(s, p)) + multiset(Filter(s, q)) == multiset(s)
  {
    if s != [] {
      var x, t := s[0], s[1..];
      FilterPartition(t, p, q);
      assert multiset(s) == multiset{x} + multiset(t) by { assert s == [x] + t; }
      var fp, fq := Filter(t, p), Filter(t, q);
      assert s == [x] + t;
      FilterCons(x, t, p);
      FilterCons(x, t, q);
      if p(x) {
        assert multiset([x] + fp) == multiset{x} + multiset(fp);
      } else {
        assert multiset([x] + fq) == multiset{x} + multiset(fq);
      }
    }
  }

  /** `s` without its element at index `i`; an index outside `s` removes nothing
    * (Array.prototype.filter on the index). */
  function RemoveAt<T>(s: seq<T>, i: int): (r: seq<T>)
    ensures 0 <= i < |s| ==> |r| == |s| - 1 && multiset(r) + multiset{s[i]} == multiset(s)
    ensures 0 <= i < |s| ==> r[..i] == s[..i] && r[i..] == s[i + 1..]
    ensures !(0 <= i < |s|) ==> r == s
  {
    if 0 <= i < |s| then
      assert s == s[..i] + [s[i]] + s[i + 1..];
      s[..i] + s[i + 1..]
    else s
  }

  predicate NoDup<T(==)>(s: seq<T>) {
    forall i, j :: 0 <= i < j < |s| ==> s[i] != s[j]
  }

  /** Appending an element that is absent keeps a list duplicate-free. */
  lemma AppendAbsentNoDup<T>(s: seq<T>, x: T)
    requires NoDup(s) && x !in s
    ensures NoDup(s + [x])
  {
    forall i, j | 0 <= i < j < |s + [x]|
      ensures (s + [x])[i] != (s + [x])[j]
    {
      if j == |s| {
        assert s[i] in s;
      }
    }
  }

  /** Removing an element keeps a list duplicate-free. */
  lemma RemoveAtNoDup<T>(s: seq<T>, i: int)
    requires NoDup(s)
    ensures NoDup(RemoveAt(s, i))
  {
    var r := RemoveAt(s, i);
    if 0 <= i < |s| {
      forall a, b | 0 <= a < b < |r|
        ensures r[a] != r[b]
      {
        var a' := if a < i then a else a + 1;
        var b' := if b < i then b else b + 1;
        if a < i { assert r[a] == r[..i][a] == s[..i][a]; } else { assert r[a] == r[i..][a - i] == s[i + 1..][a - i]; }
        if b < i { assert r[b] == r[..i][b] == s[..i][b]; } else { assert r[b] == r[i..][b - i] == s[i + 1..][b - i]; }
        assert r[a] == s[a'] && r[b] == s[b'] && a' < b';
      }
    }
  }

  /** The sum of `f` over the list (Array.prototype.reduce with `+`). */
  function SumOf<T>(s: seq<T>, f: T -> int): int {
    if s == [] then 0 else f(s[0]) + SumOf(s[1..], f)
  }

  lemma {:induction false} SumOfUpdate<T>(s: seq<T>, k: nat, v: T, f: T -> int)
    requires k < |s|
    ensures SumOf(s[k := v], f) == SumOf(s, f) - f(s[k]) + f(v)
  {
    if k == 0 {
      assert s[k := v][1..] == s[1..];
    } else {
      SumOfUpdate(s[1..], k - 1, v, f);
      assert s[k := v][1..] == s[1..][k - 1 := v];
    }
  }

  lemma {:induction false} SumOfLast<T>(s: seq<T>, f: T -> int)
    requires |s| > 0
    ensures SumOf(s, f) == SumOf(s[..|s| - 1], f) + f(s[|s| - 1])
  {
    if |s| > 1 {
      SumOfLast(s[1..], f);
      assert s[1..][..|s| - 2] == s[..|s| - 1][1..];
    }
  }

  /** A non-empty list of positive terms has a positive sum. */
  lemma {:induction false} SumOfPositive<T>(s: seq<T>, f: T -> int)
    requires |s| > 0
    requires forall k :: 0 <= k < |s| ==> f(s[k]) > 0
    ensures SumOf(s, f) > 0
  {
    if |s| > 1 {
      SumOfPositive(s[1..], f);
    }
  }

  /** Terms that are never positive sum to zero only when every term is zero. */
  lemma {:induction false} SumOfNonPositive<T>(s: seq<T>, f: T -> int)
    requires forall k :: 0 <= k < |s| ==> f(s[k]) <= 0
    ensures SumOf(s, f) <= 0
    ensures SumOf(s, f) == 0 ==> forall k :: 0 <= k < |s| ==> f(s[k]) == 0
  {
    if s != [] {
      SumOfNonPositive(s[1..], f);
      if SumOf(s, f) == 0 {
        forall k | 0 <= k < |s| ensures f(s[k]) == 0 {
          if k > 0 {
            assert s[1..][k - 1] == s[k];
          }
        }
      }
    }
  }

  /** Lists whose terms agree position by position have the same sum. */
  lemma {:induction false} SumOfPointwise<T, U>(s: seq<T>, f: T -> int, t: seq<U>, g: U -> int)
    requires |s| == |t|
    requires forall k :: 0 <= k < |s| ==> f(s[k]) == g(t[k])
    ensures SumOf(s, f) == SumOf(t, g)
  {
    if s != [] {
      SumOfPointwise(s[1..], f, t[1..], g);
    }
  }
}
