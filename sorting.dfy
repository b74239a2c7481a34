/** Array.prototype.sort with a numeric comparator, which is stable: a stable
  * insertion sort by an integer key, ascending. A descending sort is the
  * ascending sort by the negated key (equal keys keep their order either way). */
module Sorting {
  import opened Seqs
  predicate SortedBy<T>(s: seq<T>, key: T -> int) {
    forall i, j :: 0 <= i < j < |s| ==> key(s[i]) <= key(s[j])
  }

  /** Puts `x` in front of the first element whose key is not below its own,
    * so that `x` stays ahead of the elements with an equal key. */
  function Insert<T>(x: T, s: seq<T>, key: T -> int): (r: seq<T>)
    requires SortedBy(s, key)
    ensures SortedBy(r, key)
    ensures |r| == |s| + 1
    ensures multiset(r) == multiset(s) + multiset{x}
  {
    if s == [] || key(x) <= key(s[0]) then
      InsertInFront(x, s, key);
      [x] + s
    else
      var rest := Insert(x, s[1..], key);
      InsertBehindHead(x, s, rest, key);
      assert s == [s[0]] + s[1..];
      assert multiset([s[0]] + rest) == multiset{s[0]} + multiset(rest);
      [s[0]] + rest
  }

  lemma InsertInFront<T>(x: T, s: seq<T>, key: T -> int)
    requires SortedBy(s, key) && (s == [] || key(x) <= key(s[0]))
    ensures SortedBy([x] + s, key)
  {
    ConsSorted(x, s, key);
  }

  /** Inserting behind the head of a sorted list keeps the head in front. */
  lemma InsertBehindHead<T>(x: T, s: seq<T>, rest: seq<T>, key: T -> int)
    requires s != [] && SortedBy(s, key) && key(s[0]) < key(x)
    requires SortedBy(rest, key) && multiset(rest) == multiset(s[1..]) + multiset{x}
    ensures SortedBy([s[0]] + rest, key)
  {
    forall k | 0 <= k < |rest| ensures key(s[0]) <= key(rest[k]) {
      assert rest[k] in multiset(rest);
      if rest[k] != x {
        assert rest[k] in multiset(s[1..]);
        var m :| 0 <= m < |s[1..]| && s[1..][m] == rest[k];
        assert s[m + 1] == rest[k];
      }
    }
    ConsSorted(s[0], rest, key);
  }

  lemma ConsSorted<T>(h: T, rest: seq<T>, key: T -> int)
    requires SortedBy(rest, key) && forall k :: 0 <= k < |rest| ==> key(h) <= key(rest[k])
    ensures SortedBy([h] + rest, key)
  {
    var r := [h] + rest;
    forall i, j | 0 <= i < j < |r| ensures key(r[i]) <= key(r[j]) {
      if i > 0 {
        assert r[i] == rest[i - 1] && r[j] == rest[j - 1];
      }
    }
  }

  /** The sorted permutation of `s`; equal keys keep their relative order. */
  function SortBy<T>(s: seq<T>, key: T -> int): (r: seq<T>)
    ensures SortedBy(r, key)
    ensures |r| == |s|
    ensures multiset(r) == multiset(s)
  {
    if s == [] then []
    else
      assert s == [s[0]] + s[1..];
      Insert(s[0], SortBy(s[1..], key), key)
  }

  /** A list that is already in order is left exactly as it is. */
  lemma {:induction false} SortSortedIsIdentity<T>(s: seq<T>, key: T -> int)
    requires SortedBy(s, key)
    ensures SortBy(s, key) == s
  {
    if s != [] {
      SortSortedIsIdentity(s[1..], key);
      assert [s[0]] + s[1..] == s;
    }
  }

  /** The elements whose key is `v`. */
  function KeyIs<T>(key: T -> int, v: int): T -> bool {
    (y: T) => key(y) == v
  }

  /** Sorting is stable: the elements sharing any one key come out in their input order. */
  lemma {:induction false} SortStable<T>(s: seq<T>, key: T -> int, v: int)
    ensures Filter(SortBy(s, key), KeyIs(key, v)) == Filter(s, KeyIs(key, v))
  {
    if s != [] {
      SortStable(s[1..], key, v);
      InsertStable(s[0], SortBy(s[1..], key), key, v);
    }
  }

  /** Inserting `x` puts it ahead of every element with its key, behind none of the others
    * that share it. */
  lemma {:induction false} InsertStable<T>(x: T, s: seq<T>, key: T -> int, v: int)
    requires SortedBy(s, key)
    ensures key(x) == v ==> Filter(Insert(x, s, key), KeyIs(key, v)) == [x] + Filter(s, KeyIs(key, v))
    ensures key(x) != v ==> Filter(Insert(x, s, key), KeyIs(key, v)) == Filter(s, KeyIs(key, v))
  {
    var p := KeyIs(key, v);
    if s == [] || key(x) <= key(s[0]) {
      FilterCons(x, s, p);
    } else {
      var t := s[1..];
      InsertStable(x, t, key, v);
      FilterCons(s[0], Insert(x, t, key), p);
      FilterCons(s[0], t, p);
      assert [s[0]] + t == s;
    }
  }

  lemma {:induction false} InsertSum<T>(x: T, s: seq<T>, key: T -> int, f: T -> int)
    requires SortedBy(s, key)
    ensures SumOf(Insert(x, s, key), f) == f(x) + SumOf(s, f)
  {
    if s != [] && key(x) > key(s[0]) {
      InsertSum(x, s[1..], key, f);
      assert ([s[0]] + Insert(x, s[1..], key))[1..] == Insert(x, s[1..], key);
    }
  }

  /** Sorting does not change the sum of any quantity over the list. */
  lemma {:induction false} SortSum<T>(s: seq<T>, key: T -> int, f: T -> int)
    ensures SumOf(SortBy(s, key), f) == SumOf(s, f)
  {
    if s != [] {
      SortSum(s[1..], key, f);
      InsertSum(s[0], SortBy(s[1..], key), key, f);
    }
  }

  /** `f` tells the elements of `s` apart (for instance, names are distinct). */
  predicate InjectiveOn<T, U(==)>(s: seq<T>, f: T -> U) {
    forall i, j :: 0 <= i < |s| && 0 <= j < |s| && f(s[i]) == f(s[j]) ==> i == j
  }

  lemma {:induction false} InsertInjective<T, U>(x: T, s: seq<T>, key: T -> int, f: T -> U)
    requires SortedBy(s, key) && InjectiveOn(s, f)
    requires forall i :: 0 <= i < |s| ==> f(s[i]) != f(x)
    ensures InjectiveOn(Insert(x, s, key), f)
  {
    if s != [] && key(x) > key(s[0]) {
      var t := s[1..];
      InjectiveOnTail(s, f);
      InsertInjective(x, t, key, f);
      var rest := Insert(x, t, key);
      forall k | 0 <= k < |rest| ensures f(rest[k]) != f(s[0]) {
        assert rest[k] in multiset(rest);
        if rest[k] != x {
          assert rest[k] in t;
          var m :| 0 <= m < |t| && t[m] == rest[k];
          assert s[m + 1] == rest[k];
        }
      }
      InjectiveCons(s[0], rest, f);
    }
  }

  lemma InjectiveOnTail<T, U>(s: seq<T>, f: T -> U)
    requires s != [] && InjectiveOn(s, f)
    ensures InjectiveOn(s[1..], f)
  {
    var t := s[1..];
    forall i, j | 0 <= i < |t| && 0 <= j < |t| && f(t[i]) == f(t[j]) ensures i == j {
      assert f(s[i + 1]) == f(s[j + 1]);
    }
  }

  lemma InjectiveCons<T, U>(h: T, rest: seq<T>, f: T -> U)
    requires InjectiveOn(rest, f) && forall k :: 0 <= k < |rest| ==> f(rest[k]) != f(h)
    ensures InjectiveOn([h] + rest, f)
  {
    var r := [h] + rest;
    forall i, j | 0 <= i < |r| && 0 <= j < |r| && f(r[i]) == f(r[j]) ensures i == j {
      if i > 0 && j > 0 {
        assert f(rest[i - 1]) == f(rest[j - 1]);
      }
    }
  }

  /** Sorting keeps any labelling of the elements duplicate-free. */
  lemma {:induction false} SortInjective<T, U>(s: seq<T>, key: T -> int, f: T -> U)
    requires InjectiveOn(s, f)
    ensures InjectiveOn(SortBy(s, key), f)
  {
    if s != [] {
      var t := s[1..];
      assert InjectiveOn(t, f) by {
        forall i, j | 0 <= i < |t| && 0 <= j < |t| && f(t[i]) == f(t[j]) ensures i == j {
          assert f(s[i + 1]) == f(s[j + 1]);
        }
      }
      SortInjective(t, key, f);
      var st := SortBy(t, key);
      forall i | 0 <= i < |st| ensures f(st[i]) != f(s[0]) {
        assert st[i] in multiset(st);
        assert st[i] in t;
        var m :| 0 <= m < |t| && t[m] == st[i];
        assert s[m + 1] == st[i];
      }
      InsertInjective(s[0], st, key, f);
    }
  }
}
