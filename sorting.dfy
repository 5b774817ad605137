/** `Array.prototype.sort` with a comparator: since ES2019 the sort is
    stable, so it is modelled by insertion sort, which keeps equal elements
    in input order. `le(a, b)` stands for "the comparator returns <= 0 for
    (a, b)": `a` may come before `b`. */
module Sorting {

  /** A comparator that is total and transitive. */
  ghost predicate TotalPreorder<T(!new)>(le: (T, T) -> bool)
  {
    && (forall x, y :: le(x, y) || le(y, x))
    && (forall x, y, z :: le(x, y) && le(y, z) ==> le(x, z))
  }

  /** Every earlier element may come before every later one. */
  ghost predicate Sorted<T>(s: seq<T>, le: (T, T) -> bool)
  {
    forall i, j :: 0 <= i < j < |s| ==> le(s[i], s[j])
  }

  /** Puts `x` in front of the first element it may precede. */
  function Insert<T>(x: T, s: seq<T>, le: (T, T) -> bool): (r: seq<T>)
    ensures multiset(r) == multiset(s) + multiset{x}
  {
    if s == [] || le(x, s[0]) then [x] + s
    else
      assert s == [s[0]] + s[1..];
      [s[0]] + Insert(x, s[1..], le)
  }

  /** The sorted copy of `xs`: a permutation of it. */
  function Sort<T>(xs: seq<T>, le: (T, T) -> bool): (r: seq<T>)
    ensures multiset(r) == multiset(xs)
  {
    if xs == [] then []
    else
      assert xs == [xs[0]] + xs[1..];
      Insert(xs[0], Sort(xs[1..], le), le)
  }

  lemma {:induction false} InsertSorted<T(!new)>(x: T, s: seq<T>, le: (T, T) -> bool)
    requires TotalPreorder(le) && Sorted(s, le)
    ensures Sorted(Insert(x, s, le), le)
  {
    if s != [] && !le(x, s[0]) {
      InsertSorted(x, s[1..], le);
      var r := Insert(x, s, le);
      var t := Insert(x, s[1..], le);
      assert r == [s[0]] + t;
      assert multiset(t) == multiset(s[1..]) + multiset{x};
      forall j | 0 < j < |r|
        ensures le(s[0], r[j])
      {
        assert r[j] == t[j - 1] && r[j] in multiset(t);
        if r[j] != x {
          assert r[j] in multiset(s[1..]);
          var m :| 0 <= m < |s[1..]| && s[1..][m] == r[j];
          assert s[m + 1] == r[j];
        }
      }
    }
  }

  /** Sorting orders the rows by the comparator. */
  lemma {:induction false} SortSorted<T(!new)>(xs: seq<T>, le: (T, T) -> bool)
    requires TotalPreorder(le)
    ensures Sorted(Sort(xs, le), le)
  {
    if xs != [] {
      SortSorted(xs[1..], le);
      InsertSorted(xs[0], Sort(xs[1..], le), le);
    }
  }

  /** Rows already in order are left exactly as they are. */
  lemma {:induction false} SortOfSorted<T>(xs: seq<T>, le: (T, T) -> bool)
    requires Sorted(xs, le)
    ensures Sort(xs, le) == xs
  {
    if xs != [] {
      assert Sorted(xs[1..], le);
      SortOfSorted(xs[1..], le);
      if |xs| > 1 {
        assert le(xs[0], xs[1]);
        assert xs[1..][0] == xs[1];
      }
    }
  }

  /** Sorting twice with the same comparator gives what sorting once gives. */
  lemma SortIdempotent<T(!new)>(xs: seq<T>, le: (T, T) -> bool)
    requires TotalPreorder(le)
    ensures Sort(Sort(xs, le), le) == Sort(xs, le)
  {
    SortSorted(xs, le);
    SortOfSorted(Sort(xs, le), le);
  }

  /** No two distinct elements of `s` are tied under `le`. */
  ghost predicate TieFree<T>(s: seq<T>, le: (T, T) -> bool)
  {
    forall i, j :: 0 <= i < |s| && 0 <= j < |s| && le(s[i], s[j]) && le(s[j], s[i]) ==> s[i] == s[j]
  }

  /** Without ties, there is only one sorted arrangement of a multiset. */
  lemma {:induction false} SortedUnique<T>(a: seq<T>, b: seq<T>, le: (T, T) -> bool)
    requires Sorted(a, le) && Sorted(b, le) && multiset(a) == multiset(b)
    requires TieFree(a, le)
    ensures a == b
  {
    if a != [] {
      assert |b| == |multiset(b)| == |multiset(a)| == |a|;
      SortedHeadsEqual(a, b, le);
      assert a == [a[0]] + a[1..] && b == [b[0]] + b[1..];
      assert multiset(a[1..]) == multiset(a) - multiset{a[0]};
      assert multiset(b[1..]) == multiset(b) - multiset{b[0]};
      TieFreeTail(a, le);
      SortedUnique(a[1..], b[1..], le);
    }
  }

  /** Two tie-free sorted arrangements of one multiset start alike. */
  lemma SortedHeadsEqual<T>(a: seq<T>, b: seq<T>, le: (T, T) -> bool)
    requires a != [] && b != []
    requires Sorted(a, le) && Sorted(b, le) && multiset(a) == multiset(b)
    requires TieFree(a, le)
    ensures a[0] == b[0]
  {
    assert a[0] in multiset(b) && b[0] in multiset(a);
    var i :| 0 <= i < |b| && b[i] == a[0];
    var j :| 0 <= j < |a| && a[j] == b[0];
    if i > 0 && j > 0 {
      assert le(a[0], a[j]) && le(b[0], b[i]);
    }
  }

  lemma TieFreeTail<T>(a: seq<T>, le: (T, T) -> bool)
    requires a != [] && TieFree(a, le)
    ensures TieFree(a[1..], le)
  {
    forall i, j | 0 <= i < |a[1..]| && 0 <= j < |a[1..]| && le(a[1..][i], a[1..][j]) && le(a[1..][j], a[1..][i])
      ensures a[1..][i] == a[1..][j]
    {
      assert a[1..][i] == a[i + 1] && a[1..][j] == a[j + 1];
    }
  }

  /** `s` read back to front. */
  function Reverse<T>(s: seq<T>): (r: seq<T>)
    ensures |r| == |s|
    ensures forall k :: 0 <= k < |s| ==> r[k] == s[|s| - 1 - k]
  {
    if s == [] then [] else Reverse(s[1..]) + [s[0]]
  }

  lemma {:induction false} ReverseMultiset<T>(s: seq<T>)
    ensures multiset(Reverse(s)) == multiset(s)
  {
    if s != [] {
      ReverseMultiset(s[1..]);
      assert s == [s[0]] + s[1..];
    }
  }

  /** Without ties, sorting with the reversed comparator gives the rows of
      the ascending sort back to front. */
  lemma ConverseSortIsReverse<T(!new)>(xs: seq<T>, le: (T, T) -> bool, ge: (T, T) -> bool)
    requires TotalPreorder(le) && TotalPreorder(ge)
    requires forall x, y :: ge(x, y) <==> le(y, x)
    requires TieFree(xs, le)
    ensures Sort(xs, ge) == Reverse(Sort(xs, le))
  {
    var up, down := Sort(xs, le), Sort(xs, ge);
    SortSorted(xs, le);
    SortSorted(xs, ge);
    ReverseMultiset(up);
    var rev := Reverse(up);
    assert Sorted(rev, ge) by {
      forall i, j | 0 <= i < j < |rev|
        ensures ge(rev[i], rev[j])
      {
        assert le(up[|up| - 1 - j], up[|up| - 1 - i]);
      }
    }
    assert TieFree(down, ge) by {
      forall i, j | 0 <= i < |down| && 0 <= j < |down| && ge(down[i], down[j]) && ge(down[j], down[i])
        ensures down[i] == down[j]
      {
        assert down[i] in multiset(xs) && down[j] in multiset(xs);
        var p :| 0 <= p < |xs| && xs[p] == down[i];
        var q :| 0 <= q < |xs| && xs[q] == down[j];
        assert le(xs[p], xs[q]) && le(xs[q], xs[p]);
      }
    }
    SortedUnique(down, rev, ge);
  }
}
