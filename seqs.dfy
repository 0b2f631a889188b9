/**
 * The array operations the services are written with
 * (`find`, `findIndex`, `filter` and a stable `sort` on a numeric key),
 * as functions on sequences with the properties the services rely on.
 */
module Seqs {
  import opened Types

  /** Index of the first element satisfying `p`, or None (Array.prototype.findIndex). */
  function FindFirst<T>(s: seq<T>, p: T -> bool): (r: Option<nat>)
    ensures r.Some? ==> r.value < |s| && p(s[r.value])
    ensures r.Some? ==> forall j :: 0 <= j < r.value ==> !p(s[j])
    ensures r.None? <==> forall j :: 0 <= j < |s| ==> !p(s[j])
  {
    if s == [] then None
    else if p(s[0]) then Some(0)
    else match FindFirst(s[1..], p)
      case None => None
      case Some(k) => Some(k + 1)
  }

  /** First match found in a prefix is still the first match after appending. */
  lemma {:induction false} FindFirstAppend<T>(s: seq<T>, t: seq<T>, p: T -> bool)
    ensures FindFirst(s, p).Some? ==> FindFirst(s + t, p) == FindFirst(s, p)
    ensures FindFirst(s, p).None? && FindFirst(t, p).Some? ==>
      FindFirst(s + t, p) == Some(|s| + FindFirst(t, p).value)
    ensures FindFirst(s, p).None? && FindFirst(t, p).None? ==> FindFirst(s + t, p).None?
  {
    if s != [] {
      assert (s + t)[0] == s[0];
      assert (s + t)[1..] == s[1..] + t;
      FindFirstAppend(s[1..], t, p);
    } else {
      assert s + t == t;
    }
  }

  /** The elements satisfying `p`, in their original order (Array.prototype.filter). */
  function Filter<T(!new)>(s: seq<T>, p: T -> bool): (r: seq<T>)
    ensures |r| <= |s|
    ensures forall x :: x in r <==> x in s && p(x)
    ensures forall k :: 0 <= k < |r| ==> p(r[k])
  {
    if s == [] then []
    else (if p(s[0]) then [s[0]] else []) + Filter(s[1..], p)
  }

  /** Filtering distributes over concatenation: it keeps the relative order. */
  lemma {:induction false} FilterAppend<T(!new)>(s: seq<T>, t: seq<T>, p: T -> bool)
    ensures Filter(s + t, p) == Filter(s, p) + Filter(t, p)
  {
    if s == [] {
      assert s + t == t;
    } else {
      assert (s + t)[0] == s[0];
      assert (s + t)[1..] == s[1..] + t;
      FilterAppend(s[1..], t, p);
    }
  }

  /** A filter every element passes changes nothing. */
  lemma {:induction false} FilterAll<T(!new)>(s: seq<T>, p: T -> bool)
    requires forall k :: 0 <= k < |s| ==> p(s[k])
    ensures Filter(s, p) == s
  {
    if s != [] {
      FilterAll(s[1..], p);
    }
  }

  /** Filters equal on every element give the same result. */
  lemma {:induction false} FilterSame<T(!new)>(s: seq<T>, p: T -> bool, q: T -> bool)
    requires forall x :: p(x) == q(x)
    ensures Filter(s, p) == Filter(s, q)
  {
    if s != [] {
      FilterSame(s[1..], p, q);
    }
  }

  /** Two filters in a row keep what both predicates accept. */
  lemma {:induction false} FilterTwice<T(!new)>(s: seq<T>, p: T -> bool, q: T -> bool, pq: T -> bool)
    requires forall x :: pq(x) == (p(x) && q(x))
    ensures Filter(Filter(s, p), q) == Filter(s, pq)
  {
    if s != [] {
      FilterTwice(s[1..], p, q, pq);
      var head := if p(s[0]) then [s[0]] else [];
      FilterAppend(head, Filter(s[1..], p), q);
    }
  }

  /** A filter applied only when `c` holds is a filter by "not c, or q". */
  lemma OptionalFilter<T(!new)>(s: seq<T>, c: bool, q: T -> bool, pass: T -> bool)
    requires forall x :: pass(x) == (!c || q(x))
    ensures (if c then Filter(s, q) else s) == Filter(s, pass)
  {
    if c {
      FilterSame(s, q, pass);
    } else {
      FilterAll(s, pass);
    }
  }

  /** Number of elements satisfying `p`. */
  function Count<T(!new)>(s: seq<T>, p: T -> bool): nat
  {
    |Filter(s, p)|
  }

  /** The count is zero exactly when no element satisfies `p`. */
  lemma {:induction false} CountZero<T(!new)>(s: seq<T>, p: T -> bool)
    ensures Count(s, p) == 0 <==> forall k :: 0 <= k < |s| ==> !p(s[k])
  {
    if s != [] {
      CountZero(s[1..], p);
      assert forall k :: 1 <= k < |s| ==> s[k] == s[1..][k - 1];
    }
  }

  /** Each element's key is at least the next one's (largest first). */
  ghost predicate SortedDesc<T>(s: seq<T>, key: T -> int)
    decreases |s|
  {
    |s| < 2 || (key(s[0]) >= key(s[1]) && SortedDesc(s[1..], key))
  }

  /** Adjacent order gives order between any two positions. */
  lemma {:induction false} SortedDescPairwise<T>(s: seq<T>, key: T -> int)
    requires SortedDesc(s, key)
    ensures forall i, j :: 0 <= i < j < |s| ==> key(s[i]) >= key(s[j])
    decreases |s|
  {
    if |s| >= 2 {
      SortedDescPairwise(s[1..], key);
      forall i, j | 0 <= i < j < |s|
        ensures key(s[i]) >= key(s[j])
      {
        if i > 0 {
          assert s[i] == s[1..][i - 1] && s[j] == s[1..][j - 1];
        } else if j > 1 {
          assert s[1] == s[1..][0] && s[j] == s[1..][j - 1];
        }
      }
    }
  }

  /** Appending `x` to the sorted `s` adds exactly `x`, at the end. */
  lemma SortThenAppend<T>(s: seq<T>, key: T -> int, x: T)
    ensures |SortDesc(s, key) + [x]| == |s| + 1
    ensures multiset(SortDesc(s, key) + [x]) == multiset(s) + multiset{x}
    ensures (SortDesc(s, key) + [x])[|s|] == x
  {
    SortDescPermutes(s, key);
    assert |multiset(SortDesc(s, key))| == |multiset(s)|;
  }

  /** Puts `x` in front of the first element whose key is not larger. */
  function Insert<T>(x: T, s: seq<T>, key: T -> int): seq<T>
  {
    if s == [] || key(x) >= key(s[0]) then [x] + s
    else [s[0]] + Insert(x, s[1..], key)
  }

  /**
   * Stable insertion sort, largest key first: the order that
   * `sort((a, b) => key(b) - key(a))` produces.
   */
  function SortDesc<T>(s: seq<T>, key: T -> int): seq<T>
  {
    if s == [] then [] else Insert(s[0], SortDesc(s[1..], key), key)
  }

  /** Inserting into a sorted sequence keeps it sorted. */
  lemma {:induction false} InsertSorted<T>(x: T, s: seq<T>, key: T -> int)
    requires SortedDesc(s, key)
    ensures SortedDesc(Insert(x, s, key), key)
    ensures Insert(x, s, key)[0] == x || (s != [] && Insert(x, s, key)[0] == s[0])
    decreases |s|
  {
    var r := Insert(x, s, key);
    if s == [] || key(x) >= key(s[0]) {
      assert r[1..] == s;
    } else {
      var rest := Insert(x, s[1..], key);
      InsertSorted(x, s[1..], key);
      assert r[1..] == rest;
    }
  }

  /** The sort puts the largest key first. */
  lemma {:induction false} SortDescSorted<T>(s: seq<T>, key: T -> int)
    ensures SortedDesc(SortDesc(s, key), key)
    decreases |s|
  {
    if s != [] {
      SortDescSorted(s[1..], key);
      InsertSorted(s[0], SortDesc(s[1..], key), key);
    }
  }

  /** Inserting adds exactly `x`. */
  lemma {:induction false} InsertPermutes<T>(x: T, s: seq<T>, key: T -> int)
    ensures multiset(Insert(x, s, key)) == multiset{x} + multiset(s)
    decreases |s|
  {
    if s != [] && key(x) < key(s[0]) {
      InsertPermutes(x, s[1..], key);
      assert s == [s[0]] + s[1..];
    }
  }

  /** The sort is a permutation of its input. */
  lemma {:induction false} SortDescPermutes<T>(s: seq<T>, key: T -> int)
    ensures multiset(SortDesc(s, key)) == multiset(s)
    decreases |s|
  {
    if s != [] {
      SortDescPermutes(s[1..], key);
      InsertPermutes(s[0], SortDesc(s[1..], key), key);
      assert s == [s[0]] + s[1..];
    }
  }
}
