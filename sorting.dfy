// SQL's `ORDER BY key ASC` / `DESC` over a table's rows: a stable insertion
// sort by an integer key, proved to sort and to permute.
module Sorting {
  predicate SortedAsc<T>(s: seq<T>, key: T -> int)
  {
    forall i, j :: 0 <= i < j < |s| ==> key(s[i]) <= key(s[j])
  }

  predicate SortedDesc<T>(s: seq<T>, key: T -> int)
  {
    forall i, j :: 0 <= i < j < |s| ==> key(s[i]) >= key(s[j])
  }

  function InsertAsc<T>(x: T, s: seq<T>, key: T -> int): seq<T>
  {
    if s == [] then [x]
    else if key(x) <= key(s[0]) then [x] + s
    else [s[0]] + InsertAsc(x, s[1..], key)
  }

  /** The rows in ascending key order. */
  function SortAsc<T>(xs: seq<T>, key: T -> int): seq<T>
  {
    if xs == [] then [] else InsertAsc(xs[0], SortAsc(xs[1..], key), key)
  }

  function Reverse<T>(s: seq<T>): (r: seq<T>)
    ensures |r| == |s|
    ensures forall i :: 0 <= i < |s| ==> r[i] == s[|s| - 1 - i]
  {
    if s == [] then [] else Reverse(s[1..]) + [s[0]]
  }

  /** The rows in descending key order. */
  function SortDesc<T>(xs: seq<T>, key: T -> int): seq<T>
  {
    Reverse(SortAsc(xs, key))
  }

  lemma {:induction false} InsertAscPermutes<T>(x: T, s: seq<T>, key: T -> int)
    ensures multiset(InsertAsc(x, s, key)) == multiset(s) + multiset{x}
    ensures forall y :: y in InsertAsc(x, s, key) ==> y == x || y in s
    decreases |s|
  {
    if s != [] && key(x) > key(s[0]) {
      InsertAscPermutes(x, s[1..], key);
      assert s == [s[0]] + s[1..];
    }
  }

  lemma SortedCons<T>(h: T, r: seq<T>, key: T -> int)
    requires SortedAsc(r, key)
    requires forall k :: 0 <= k < |r| ==> key(h) <= key(r[k])
    ensures SortedAsc([h] + r, key)
  {
    var t := [h] + r;
    forall i, j | 0 <= i < j < |t| ensures key(t[i]) <= key(t[j]) {
      if i > 0 {
        assert t[i] == r[i - 1] && t[j] == r[j - 1];
      } else {
        assert t[j] == r[j - 1];
      }
    }
  }

  /** Every element of a sorted sequence's tail is at least its head. */
  lemma HeadBelowTail<T>(h: T, y: T, s: seq<T>, key: T -> int)
    requires SortedAsc(s, key) && s != [] && h == s[0] && y in s[1..]
    ensures key(h) <= key(y)
  {
    var m :| 0 <= m < |s[1..]| && s[1..][m] == y;
    assert s[1 + m] == y;
  }

  lemma {:induction false} InsertAscCorrect<T>(x: T, s: seq<T>, key: T -> int)
    requires SortedAsc(s, key)
    ensures SortedAsc(InsertAsc(x, s, key), key)
    ensures multiset(InsertAsc(x, s, key)) == multiset(s) + multiset{x}
    decreases |s|
  {
    InsertAscPermutes(x, s, key);
    if s != [] && key(x) > key(s[0]) {
      InsertAscCorrect(x, s[1..], key);
      var r := InsertAsc(x, s[1..], key);
      InsertAscPermutes(x, s[1..], key);
      forall k | 0 <= k < |r| ensures key(s[0]) <= key(r[k]) {
        assert r[k] in r;
        if r[k] != x {
          HeadBelowTail(s[0], r[k], s, key);
        }
      }
      SortedCons(s[0], r, key);
    } else if s != [] {
      SortedCons(x, s, key);
    }
  }

  /** ORDER BY ASC gives a sorted permutation of the rows. */
  lemma {:induction false} SortAscCorrect<T>(xs: seq<T>, key: T -> int)
    ensures SortedAsc(SortAsc(xs, key), key)
    ensures multiset(SortAsc(xs, key)) == multiset(xs)
    ensures |SortAsc(xs, key)| == |xs|
  {
    if xs != [] {
      SortAscCorrect(xs[1..], key);
      InsertAscCorrect(xs[0], SortAsc(xs[1..], key), key);
      assert xs == [xs[0]] + xs[1..];
    }
    assert |multiset(SortAsc(xs, key))| == |multiset(xs)|;
  }

  lemma {:induction false} ReversePermutes<T>(s: seq<T>)
    ensures multiset(Reverse(s)) == multiset(s)
  {
    if s != [] {
      ReversePermutes(s[1..]);
      assert s == [s[0]] + s[1..];
    }
  }

  /** ORDER BY DESC gives a permutation of the rows, newest first. */
  lemma SortDescCorrect<T>(xs: seq<T>, key: T -> int)
    ensures SortedDesc(SortDesc(xs, key), key)
    ensures multiset(SortDesc(xs, key)) == multiset(xs)
    ensures |SortDesc(xs, key)| == |xs|
  {
    SortAscCorrect(xs, key);
    ReversePermutes(SortAsc(xs, key));
  }
}
