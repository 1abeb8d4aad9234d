/** Sequence operations the source performs with list comprehensions,
    Array.prototype.filter / splice and reduce-to-a-sum. */
module Seqs {

  /** Array.prototype.filter: the elements satisfying `p`, in their order. */
  function Filter<T>(s: seq<T>, p: T -> bool): (r: seq<T>)
    ensures |r| <= |s|
    ensures forall x :: x in r ==> x in s && p(x)
    ensures forall x :: x in s && p(x) ==> x in r
  {
    if s == [] then []
    else
      var init := s[..|s| - 1];
      var last := s[|s| - 1];
      assert s == init + [last];
      Filter(init, p) + (if p(last) then [last] else [])
  }

  lemma {:induction false} FilterAppend<T>(a: seq<T>, b: seq<T>, p: T -> bool)
    ensures Filter(a + b, p) == Filter(a, p) + Filter(b, p)
    decreases |b|
  {
    if b == [] {
      assert a + b == a;
    } else {
      var b' := b[..|b| - 1];
      assert (a + b)[..|a + b| - 1] == a + b';
      FilterAppend(a, b', p);
    }
  }

  /** Filtering everything through a predicate that always holds keeps the sequence. */
  lemma {:induction false} FilterAll<T>(s: seq<T>, p: T -> bool)
    requires forall x :: x in s ==> p(x)
    ensures Filter(s, p) == s
  {
    if s != [] {
      assert s == s[..|s| - 1] + [s[|s| - 1]];
      FilterAll(s[..|s| - 1], p);
    }
  }

  /** Filtering with a predicate that no element satisfies gives nothing. */
  lemma {:induction false} FilterNone<T>(s: seq<T>, p: T -> bool)
    requires forall x :: x in s ==> !p(x)
    ensures Filter(s, p) == []
  {
    if s != [] {
      assert s == s[..|s| - 1] + [s[|s| - 1]];
      FilterNone(s[..|s| - 1], p);
    }
  }

  /** Filtering twice keeps what both predicates accept, in order. */
  lemma {:induction false} FilterFilter<T>(s: seq<T>, p: T -> bool, q: T -> bool)
    ensures Filter(Filter(s, p), q) == Filter(s, x => p(x) && q(x))
  {
    if s != [] {
      var init := s[..|s| - 1];
      var last := s[|s| - 1];
      FilterFilter(init, p, q);
      FilterAppend(Filter(init, p), if p(last) then [last] else [], q);
      if p(last) {
        assert Filter([last], q) == Filter([], q) + (if q(last) then [last] else []);
      } else {
        assert Filter([], q) == [];
      }
    }
  }

  /** Filtering with predicates that agree everywhere gives the same result. */
  lemma {:induction false} FilterExt<T>(s: seq<T>, p: T -> bool, q: T -> bool)
    requires forall x :: p(x) == q(x)
    ensures Filter(s, p) == Filter(s, q)
  {
    if s != [] {
      FilterExt(s[..|s| - 1], p, q);
    }
  }

  /** One stage of a chain of filters that is skipped when its setting is
      empty: skipping is harmless when the stage's condition then holds of
      everything, and the chain so far is one filter by the conjunction. */
  lemma FilterStage<T>(s: seq<T>, prev: T -> bool, cond: T -> bool, active: bool, both: T -> bool)
    requires !active ==> forall x :: cond(x)
    requires forall x :: both(x) == (prev(x) && cond(x))
    ensures (if active then Filter(Filter(s, prev), cond) else Filter(s, prev)) == Filter(s, both)
  {
    FilterFilter(s, prev, cond);
    FilterExt(s, x => prev(x) && cond(x), both);
    if !active {
      FilterAll(Filter(s, prev), cond);
    }
  }

  /** `s` with the element at index i taken out, the rest kept in order:
      both `filter((_, j) => j !== i)` and `splice(i, 1)` on a copy. An index
      past the end removes nothing. */
  function RemoveAt<T>(s: seq<T>, i: nat): (r: seq<T>)
    ensures i < |s| ==> |r| == |s| - 1
    ensures i < |s| ==> forall j :: 0 <= j < i ==> r[j] == s[j]
    ensures i < |s| ==> forall j :: i <= j < |r| ==> r[j] == s[j + 1]
    ensures i >= |s| ==> r == s
  {
    if i < |s| then s[..i] + s[i + 1..] else s
  }

  /** RemoveAt on a list grown by one element. */
  lemma RemoveAtSnoc<T>(s: seq<T>, i: nat)
    requires s != []
    ensures RemoveAt(s, i) == if i == |s| - 1 then RemoveAt(s[..|s| - 1], i)
                              else RemoveAt(s[..|s| - 1], i) + [s[|s| - 1]]
  {
    var init, last := s[..|s| - 1], s[|s| - 1];
    if i < |s| - 1 {
      assert s[..i] == init[..i];
      assert s[i + 1..] == init[i + 1..] + [last];
      AppendAssoc(init[..i], init[i + 1..], [last]);
    } else if i >= |s| {
      assert init + [last] == s;
    }
  }

  /** Sum of f over the elements, accumulated from the left as `reduce` does. */
  function Sum<T>(s: seq<T>, f: T -> real): real
  {
    if s == [] then 0.0 else Sum(s[..|s| - 1], f) + f(s[|s| - 1])
  }

  lemma {:induction false} SumAppend<T>(a: seq<T>, b: seq<T>, f: T -> real)
    ensures Sum(a + b, f) == Sum(a, f) + Sum(b, f)
    decreases |b|
  {
    if b == [] {
      assert a + b == a;
    } else {
      var b' := b[..|b| - 1];
      assert (a + b)[..|a + b| - 1] == a + b';
      SumAppend(a, b', f);
    }
  }

  lemma SumSingleton<T>(x: T, f: T -> real)
    ensures Sum([x], f) == f(x)
  {
    assert [x][..0] == [];
  }

  /** A prefix sum grows by the next element. */
  lemma SumStep<T>(s: seq<T>, j: nat, f: T -> real)
    requires j < |s|
    ensures Sum(s[..j + 1], f) == Sum(s[..j], f) + f(s[j])
  {
    var t := s[..j + 1];
    assert t[..|t| - 1] == s[..j] && t[|t| - 1] == s[j];
  }

  /** Taking element i out of a list takes its term out of the sum. */
  lemma SumRemoveAt<T>(s: seq<T>, i: nat, f: T -> real)
    requires i < |s|
    ensures Sum(RemoveAt(s, i), f) == Sum(s, f) - f(s[i])
  {
    SumAround(s, i, f);
  }

  /** The sum of a list is the sum before position i, the term at i and the
      sum after it. */
  lemma SumAround<T>(s: seq<T>, i: nat, f: T -> real)
    requires i < |s|
    ensures Sum(s, f) == Sum(s[..i] + s[i + 1..], f) + f(s[i])
  {
    var a, b := s[..i], s[i + 1..];
    assert s[..i + 1] + b == s;
    SumStep(s, i, f);
    SumAppend(s[..i + 1], b, f);
    SumAppend(a, b, f);
  }

  /** A sum splits into the part selected by a filter and the part it drops. */
  lemma {:induction false} SumSplitByFilter<T>(s: seq<T>, p: T -> bool, f: T -> real)
    ensures Sum(s, f) == Sum(Filter(s, p), f) + Sum(Filter(s, x => !p(x)), f)
  {
    if s != [] {
      var init := s[..|s| - 1];
      var last := s[|s| - 1];
      SumSplitByFilter(init, p, f);
      SumAppend(Filter(init, p), if p(last) then [last] else [], f);
      SumAppend(Filter(init, x => !p(x)), if !p(last) then [last] else [], f);
      SumSingleton(last, f);
    }
  }

  /** A sum splits into the part a filter keeps and the part a complementary
      filter keeps. */
  lemma SumSplitByComplement<T>(s: seq<T>, p: T -> bool, q: T -> bool, f: T -> real)
    requires forall x :: q(x) == !p(x)
    ensures Sum(s, f) == Sum(Filter(s, p), f) + Sum(Filter(s, q), f)
  {
    SumSplitByFilter(s, p, f);
    FilterExt(s, x => !p(x), q);
  }

  lemma {:induction false} SumNonNegative<T>(s: seq<T>, f: T -> real)
    requires forall x :: x in s ==> f(x) >= 0.0
    ensures Sum(s, f) >= 0.0
  {
    if s != [] {
      SumNonNegative(s[..|s| - 1], f);
    }
  }

  /** Integer sum, for the server's Decimal amounts kept in the smallest unit. */
  function IntSum<T>(s: seq<T>, f: T -> int): int
  {
    if s == [] then 0 else IntSum(s[..|s| - 1], f) + f(s[|s| - 1])
  }

  lemma {:induction false} IntSumAppend<T>(a: seq<T>, b: seq<T>, f: T -> int)
    ensures IntSum(a + b, f) == IntSum(a, f) + IntSum(b, f)
    decreases |b|
  {
    if b == [] {
      assert a + b == a;
    } else {
      var b' := b[..|b| - 1];
      assert (a + b)[..|a + b| - 1] == a + b';
      IntSumAppend(a, b', f);
    }
  }

  /** Number of elements satisfying p. */
  function Count<T>(s: seq<T>, p: T -> bool): nat
  {
    |Filter(s, p)|
  }

  /** With no negative terms, a longer prefix sums to at least as much. */
  lemma {:induction false} SumPrefixMono<T>(s: seq<T>, f: T -> real, i: nat, j: nat)
    requires i <= j <= |s|
    requires forall x :: x in s ==> f(x) >= 0.0
    ensures Sum(s[..i], f) <= Sum(s[..j], f)
    decreases j - i
  {
    if i < j {
      SumPrefixMono(s, f, i, j - 1);
      assert s[..j][..j - 1] == s[..j - 1];
      assert s[j - 1] in s;
    }
  }

  lemma AppendAssoc<T>(a: seq<T>, b: seq<T>, c: seq<T>)
    ensures a + b + c == a + (b + c)
  {
  }

  lemma ConcatAssoc<T>(o: seq<T>, a: seq<T>, b: seq<T>, c: seq<T>)
    ensures o + a + b + c == o + (a + b + c)
  {
  }
}
