/** Array.prototype.sort with a comparator, which ECMAScript requires to be
    stable: elements the comparator calls equal keep their relative order.
    The comparators in the client compare dates (as day numbers) and
    sometimes ids; each is expressed as a key compared lexicographically. */
module Sorting {
  import opened Seqs

  /** A sort key: `major` first, then `minor`. A comparator returning
      `b - a` (newest first) is the key `-a`. */
  datatype Key = Key(major: int, minor: int)

  predicate KeyLe(a: Key, b: Key)
  {
    a.major < b.major || (a.major == b.major && a.minor <= b.minor)
  }

  ghost predicate Sorted<T>(s: seq<T>, key: T -> Key)
  {
    forall i, j :: 0 <= i < j < |s| ==> KeyLe(key(s[i]), key(s[j]))
  }

  /** Inserts x after every element whose key is not greater than its own. */
  function Insert<T>(x: T, s: seq<T>, key: T -> Key): (r: seq<T>)
    ensures |r| == |s| + 1
    ensures multiset(r) == multiset(s) + multiset{x}
  {
    if s == [] then [x]
    else
      var init := s[..|s| - 1];
      var last := s[|s| - 1];
      assert s == init + [last];
      if KeyLe(key(last), key(x)) then s + [x]
      else Insert(x, init, key) + [last]
  }

  /** Stable insertion sort by key. */
  function Sort<T>(s: seq<T>, key: T -> Key): (r: seq<T>)
    ensures |r| == |s|
    ensures multiset(r) == multiset(s)
  {
    if s == [] then []
    else
      var init := s[..|s| - 1];
      assert s == init + [s[|s| - 1]];
      Insert(s[|s| - 1], Sort(init, key), key)
  }

  /** An upper bound on the key of x and of every element of s bounds the
      keys after the insertion. */
  lemma {:induction false} InsertBound<T>(x: T, s: seq<T>, key: T -> Key, b: Key)
    requires KeyLe(key(x), b)
    requires forall i :: 0 <= i < |s| ==> KeyLe(key(s[i]), b)
    ensures forall i :: 0 <= i < |s| + 1 ==> KeyLe(key(Insert(x, s, key)[i]), b)
  {
    if s != [] {
      var init := s[..|s| - 1];
      var last := s[|s| - 1];
      if !KeyLe(key(last), key(x)) {
        InsertBound(x, init, key, b);
      }
    }
  }

  lemma {:induction false} InsertSorted<T>(x: T, s: seq<T>, key: T -> Key)
    requires Sorted(s, key)
    ensures Sorted(Insert(x, s, key), key)
  {
    if s != [] {
      var init := s[..|s| - 1];
      var last := s[|s| - 1];
      if !KeyLe(key(last), key(x)) {
        InsertSorted(x, init, key);
        InsertBound(x, init, key, key(last));
      }
    }
  }

  lemma {:induction false} SortSorted<T>(s: seq<T>, key: T -> Key)
    ensures Sorted(Sort(s, key), key)
  {
    if s != [] {
      SortSorted(s[..|s| - 1], key);
      InsertSorted(s[|s| - 1], Sort(s[..|s| - 1], key), key);
    }
  }

  /** The elements whose key is exactly k, in order. */
  function Ties<T>(s: seq<T>, key: T -> Key, k: Key): seq<T>
  {
    if s == [] then []
    else Ties(s[..|s| - 1], key, k) + (if key(s[|s| - 1]) == k then [s[|s| - 1]] else [])
  }

  lemma TiesSnoc<T>(s: seq<T>, x: T, key: T -> Key, k: Key)
    ensures Ties(s + [x], key, k) == Ties(s, key, k) + (if key(x) == k then [x] else [])
  {
    assert (s + [x])[..|s|] == s;
  }

  lemma {:induction false} InsertTies<T>(x: T, s: seq<T>, key: T -> Key, k: Key)
    ensures Ties(Insert(x, s, key), key, k) == Ties(s, key, k) + (if key(x) == k then [x] else [])
  {
    if s == [] {
      TiesSnoc([], x, key, k);
    } else {
      var init := s[..|s| - 1];
      var last := s[|s| - 1];
      assert s == init + [last];
      if KeyLe(key(last), key(x)) {
        TiesSnoc(s, x, key, k);
      } else {
        InsertTies(x, init, key, k);
        TiesSnoc(Insert(x, init, key), last, key, k);
        TiesSnoc(init, last, key, k);
        assert key(last) != key(x);
      }
    }
  }

  /** Stability: among elements with equal keys the input order survives. */
  lemma {:induction false} SortStable<T>(s: seq<T>, key: T -> Key, k: Key)
    ensures Ties(Sort(s, key), key, k) == Ties(s, key, k)
  {
    if s != [] {
      var init := s[..|s| - 1];
      SortStable(init, key, k);
      InsertTies(s[|s| - 1], Sort(init, key), key, k);
    }
  }

  /** Stability for every key at once. */
  lemma SortStableAll<T>(s: seq<T>, key: T -> Key)
    ensures forall k :: Ties(Sort(s, key), key, k) == Ties(s, key, k)
  {
    forall k ensures Ties(Sort(s, key), key, k) == Ties(s, key, k) {
      SortStable(s, key, k);
    }
  }

  lemma {:induction false} SumInsert<T>(x: T, s: seq<T>, key: T -> Key, f: T -> real)
    ensures Sum(Insert(x, s, key), f) == Sum(s, f) + f(x)
  {
    if s != [] {
      var init := s[..|s| - 1];
      var last := s[|s| - 1];
      if !KeyLe(key(last), key(x)) {
        SumInsert(x, init, key, f);
        var a := Insert(x, init, key);
        assert (a + [last])[..|a|] == a;
      } else {
        assert (s + [x])[..|s|] == s;
      }
    }
  }

  /** Sorting moves rows but keeps their sum. */
  lemma {:induction false} SumSort<T>(s: seq<T>, key: T -> Key, f: T -> real)
    ensures Sum(Sort(s, key), f) == Sum(s, f)
  {
    if s != [] {
      var init := s[..|s| - 1];
      SumSort(init, key, f);
      SumInsert(s[|s| - 1], Sort(init, key), key, f);
    }
  }
}
