/** Sequence operations behind `Array.prototype.filter`, `reduce` sums and
    `[...new Set(xs)]`. */
module Seqs {

  /** `xs.filter(keep)`: the elements that pass, in their original order. */
  function Filter<T>(xs: seq<T>, keep: T -> bool): (r: seq<T>)
    ensures |r| <= |xs|
    ensures forall i :: 0 <= i < |r| ==> r[i] in xs && keep(r[i])
    ensures forall i :: 0 <= i < |xs| && keep(xs[i]) ==> xs[i] in r
    ensures multiset(r) <= multiset(xs)
    ensures forall x | x in xs :: multiset(r)[x] == if keep(x) then multiset(xs)[x] else 0
  {
    if xs == [] then []
    else
      assert xs == [xs[0]] + xs[1..];
      var rest := Filter(xs[1..], keep);
      FilterStep(xs, keep, rest);
      (if keep(xs[0]) then [xs[0]] else []) + rest
  }

  /** One step of the filter: prepending the head when it passes to the
      tail's filter keeps every contract of `Filter`. */
  lemma FilterStep<T>(xs: seq<T>, keep: T -> bool, rest: seq<T>)
    requires xs != []
    requires |rest| <= |xs[1..]|
    requires forall i :: 0 <= i < |rest| ==> rest[i] in xs[1..] && keep(rest[i])
    requires forall i :: 0 <= i < |xs[1..]| && keep(xs[1..][i]) ==> xs[1..][i] in rest
    requires multiset(rest) <= multiset(xs[1..])
    requires forall x | x in xs[1..] :: multiset(rest)[x] == if keep(x) then multiset(xs[1..])[x] else 0
    ensures var r := (if keep(xs[0]) then [xs[0]] else []) + rest;
      && |r| <= |xs|
      && (forall i :: 0 <= i < |r| ==> r[i] in xs && keep(r[i]))
      && (forall i :: 0 <= i < |xs| && keep(xs[i]) ==> xs[i] in r)
      && multiset(r) <= multiset(xs)
      && (forall x | x in xs :: multiset(r)[x] == if keep(x) then multiset(xs)[x] else 0)
  {
    var r := (if keep(xs[0]) then [xs[0]] else []) + rest;
    assert xs == [xs[0]] + xs[1..];
    assert multiset(r) <= multiset(xs);
    forall i | 0 <= i < |xs| && keep(xs[i])
      ensures xs[i] in r
    {
      if i > 0 {
        assert xs[i] == xs[1..][i - 1];
      }
    }
    forall x | x in xs
      ensures multiset(r)[x] == if keep(x) then multiset(xs)[x] else 0
    {
      if x !in xs[1..] {
        assert multiset(rest)[x] <= multiset(xs[1..])[x] == 0;
      }
    }
  }

  /** When exactly one position passes, the filter keeps just that element. */
  lemma {:induction false} FilterSingle<T>(xs: seq<T>, keep: T -> bool, k: nat)
    requires k < |xs|
    requires forall i :: 0 <= i < |xs| ==> (keep(xs[i]) <==> i == k)
    ensures Filter(xs, keep) == [xs[k]]
  {
    if k != 0 {
      assert !keep(xs[0]);
      FilterSingle(xs[1..], keep, k - 1);
    }
  }

  /** Two tests that never both pass and together pass exactly what a third
      passes split that third test's result between them. */
  lemma {:induction false} FilterPartition<T>(xs: seq<T>, whole: T -> bool, left: T -> bool, right: T -> bool)
    requires forall x | x in xs :: (whole(x) <==> left(x) || right(x)) && !(left(x) && right(x))
    ensures multiset(Filter(xs, left)) + multiset(Filter(xs, right)) == multiset(Filter(xs, whole))
  {
    if xs != [] {
      FilterPartition(xs[1..], whole, left, right);
    }
  }

  /** `a` is what is left of `b` after deleting some of its elements. */
  ghost predicate IsSubsequence<T>(a: seq<T>, b: seq<T>)
  {
    if a == [] then true
    else if b == [] then false
    else (a[0] == b[0] && IsSubsequence(a[1..], b[1..])) || IsSubsequence(a, b[1..])
  }

  /** Filtering deletes elements and never reorders the ones it keeps. */
  lemma {:induction false} FilterIsSubsequence<T>(xs: seq<T>, keep: T -> bool)
    ensures IsSubsequence(Filter(xs, keep), xs)
  {
    if xs != [] {
      var rest := Filter(xs[1..], keep);
      FilterIsSubsequence(xs[1..], keep);
      if keep(xs[0]) {
        var r := Filter(xs, keep);
        assert r == [xs[0]] + rest;
        assert r[0] == xs[0] && r[1..] == rest;
      } else {
        assert Filter(xs, keep) == rest;
        if rest != [] {
          SubsequenceOfTail(rest, xs);
        }
      }
    }
  }

  /** A stricter test keeps a subsequence of what a looser test keeps. */
  lemma {:induction false} FilterNarrower<T>(xs: seq<T>, loose: T -> bool, strict: T -> bool)
    requires forall x | x in xs :: strict(x) ==> loose(x)
    ensures IsSubsequence(Filter(xs, strict), Filter(xs, loose))
  {
    if xs != [] {
      FilterNarrower(xs[1..], loose, strict);
      FilterNarrowerStep(xs, loose, strict);
    }
  }

  /** One step of FilterNarrower: from the tails to the whole sequences. */
  lemma FilterNarrowerStep<T>(xs: seq<T>, loose: T -> bool, strict: T -> bool)
    requires xs != [] && (strict(xs[0]) ==> loose(xs[0]))
    requires IsSubsequence(Filter(xs[1..], strict), Filter(xs[1..], loose))
    ensures IsSubsequence(Filter(xs, strict), Filter(xs, loose))
  {
    var r', s' := Filter(xs[1..], loose), Filter(xs[1..], strict);
    var r, s := Filter(xs, loose), Filter(xs, strict);
    if strict(xs[0]) {
      assert r == [xs[0]] + r' && s == [xs[0]] + s';
      assert r[0] == s[0] && r[1..] == r' && s[1..] == s';
    } else if loose(xs[0]) {
      assert r == [xs[0]] + r' && s == s';
      assert r[1..] == r';
      if s != [] {
        SubsequenceOfTail(s, r);
      }
    } else {
      assert r == r' && s == s';
    }
  }

  /** Dropping the head of the longer sequence is always allowed. */
  lemma SubsequenceOfTail<T>(a: seq<T>, b: seq<T>)
    requires a != [] && b != [] && IsSubsequence(a, b[1..])
    ensures IsSubsequence(a, b)
  {
  }

  /** Two tests that agree on every element keep the same elements. */
  lemma {:induction false} FilterCongruent<T>(xs: seq<T>, p: T -> bool, q: T -> bool)
    requires forall x | x in xs :: p(x) == q(x)
    ensures Filter(xs, p) == Filter(xs, q)
  {
    if xs != [] {
      FilterCongruent(xs[1..], p, q);
    }
  }

  /** A test every element passes keeps the whole sequence. */
  lemma {:induction false} FilterKeepsAll<T>(xs: seq<T>, keep: T -> bool)
    requires forall x | x in xs :: keep(x)
    ensures Filter(xs, keep) == xs
  {
    if xs != [] {
      FilterKeepsAll(xs[1..], keep);
    }
  }

  /** `xs.reduce((sum, x) => sum + f(x), 0)`, over exact numbers. */
  function Sum<T>(xs: seq<T>, f: T -> real): real
  {
    if xs == [] then 0.0 else f(xs[0]) + Sum(xs[1..], f)
  }

  lemma {:induction false} SumAppend<T>(a: seq<T>, b: seq<T>, f: T -> real)
    ensures Sum(a + b, f) == Sum(a, f) + Sum(b, f)
  {
    if a != [] {
      SumAppend(a[1..], b, f);
      assert (a + b)[0] == a[0] && (a + b)[1..] == a[1..] + b;
    } else {
      assert a + b == b;
    }
  }

  /** Taking one term out of a sum. */
  lemma {:induction false} SumRemove<T>(b: seq<T>, k: nat, f: T -> real)
    requires k < |b|
    ensures Sum(b, f) == f(b[k]) + Sum(b[..k] + b[k + 1..], f)
  {
    var left, right := b[..k], b[k + 1..];
    var middle := [b[k]] + right;
    assert b == left + middle;
    assert middle[0] == b[k] && middle[1..] == right;
    assert Sum(middle, f) == f(b[k]) + Sum(right, f);
    SumAppend(left, middle, f);
    SumAppend(left, right, f);
  }

  /** A sum does not depend on the order of its terms. */
  lemma {:induction false} SumPermutation<T>(a: seq<T>, b: seq<T>, f: T -> real)
    requires multiset(a) == multiset(b)
    ensures Sum(a, f) == Sum(b, f)
    decreases |a|
  {
    if a != [] {
      assert a[0] in multiset(b);
      var k :| 0 <= k < |b| && b[k] == a[0];
      var rest := b[..k] + b[k + 1..];
      MultisetRemove(b, k);
      assert a == [a[0]] + a[1..];
      assert multiset(a[1..]) == multiset(a) - multiset{a[0]};
      SumPermutation(a[1..], rest, f);
      SumRemove(b, k, f);
    }
  }

  lemma MultisetRemove<T>(b: seq<T>, k: nat)
    requires k < |b|
    ensures multiset(b[..k] + b[k + 1..]) == multiset(b) - multiset{b[k]}
  {
    assert b == b[..k] + [b[k]] + b[k + 1..];
  }

  /** No element occurs twice. */
  predicate NoDuplicates<T(==)>(s: seq<T>)
  {
    forall i, j :: 0 <= i < j < |s| ==> s[i] != s[j]
  }

  /** `[...new Set(xs)]`: each distinct element once, in the order it was
      first met. */
  function Distinct<T(==)>(xs: seq<T>): (r: seq<T>)
    ensures NoDuplicates(r)
    ensures forall i :: 0 <= i < |r| ==> r[i] in xs
    ensures forall i :: 0 <= i < |xs| ==> xs[i] in r
  {
    if xs == [] then []
    else
      var r := Distinct(xs[..|xs| - 1]);
      if xs[|xs| - 1] in r then r else r + [xs[|xs| - 1]]
  }

  /** Appending an element adds it to the distinct list iff it is new. */
  lemma DistinctSnoc<T>(xs: seq<T>, x: T)
    ensures Distinct(xs + [x]) == if x in xs then Distinct(xs) else Distinct(xs) + [x]
  {
    assert (xs + [x])[..|xs|] == xs;
  }

  /** The position where `x` first occurs in `xs`. */
  function FirstIndex<T(==)>(xs: seq<T>, x: T): (k: nat)
    requires x in xs
    ensures k < |xs| && xs[k] == x
    ensures forall m :: 0 <= m < k ==> xs[m] != x
  {
    if x in xs[..|xs| - 1] then FirstIndex(xs[..|xs| - 1], x) else |xs| - 1
  }

  /** `new Set` keeps insertion order: the distinct elements come out in the
      order of their first occurrences. */
  lemma {:induction false} DistinctInFirstOccurrenceOrder<T>(xs: seq<T>)
    ensures forall i, j :: 0 <= i < j < |Distinct(xs)| ==>
      FirstIndex(xs, Distinct(xs)[i]) < FirstIndex(xs, Distinct(xs)[j])
  {
    if xs != [] {
      var init := xs[..|xs| - 1];
      DistinctInFirstOccurrenceOrder(init);
      var d, r := Distinct(init), Distinct(xs);
      forall y | y in init
        ensures FirstIndex(xs, y) == FirstIndex(init, y)
      {
        assert xs[..|xs| - 1] == init;
      }
      forall i, j | 0 <= i < j < |r|
        ensures FirstIndex(xs, r[i]) < FirstIndex(xs, r[j])
      {
        assert r[i] == d[i] && r[i] in init;
        if j < |d| {
          assert r[j] == d[j];
        } else {
          assert r[j] == xs[|xs| - 1] && r[j] !in init;
        }
      }
    }
  }
}
