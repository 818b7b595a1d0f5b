/** `Array.prototype.sort` with a comparator, which is stable since
    ECMAScript 2019: a stable insertion sort over a total preorder `le`,
    where `le(a, b)` holds when the comparator gives `cmp(a, b) <= 0`. */
module Sorting {
  import Seqs

  ghost predicate Total<T(!new)>(le: (T, T) -> bool) {
    forall a, b :: le(a, b) || le(b, a)
  }

  ghost predicate Transitive<T(!new)>(le: (T, T) -> bool) {
    forall a, b, c :: le(a, b) && le(b, c) ==> le(a, c)
  }

  /** What a consistent comparator gives. */
  ghost predicate TotalPreorder<T(!new)>(le: (T, T) -> bool) {
    Total(le) && Transitive(le)
  }

  predicate SortedBy<T>(s: seq<T>, le: (T, T) -> bool) {
    forall i, j :: 0 <= i < j < |s| ==> le(s[i], s[j])
  }

  /** `cls` is a set of elements the comparator ties: any two of them
      compare as equal. */
  ghost predicate Tied<T(!new)>(cls: T -> bool, le: (T, T) -> bool) {
    forall a, b :: cls(a) && cls(b) ==> le(a, b)
  }

  /** Puts `x` after the last element of `r` that is not greater than it. */
  function Insert<T>(r: seq<T>, x: T, le: (T, T) -> bool): (q: seq<T>)
    ensures multiset(q) == multiset(r) + multiset{x}
  {
    if |r| == 0 then [x]
    else if le(r[|r| - 1], x) then r + [x]
    else
      var q := Insert(r[..|r| - 1], x, le) + [r[|r| - 1]];
      assert r == r[..|r| - 1] + [r[|r| - 1]];
      q
  }

  /** The stable sort of `s`: each element in turn is inserted into the
      sorted prefix before it. */
  function SortBy<T>(s: seq<T>, le: (T, T) -> bool): (r: seq<T>)
    ensures multiset(r) == multiset(s)
  {
    if |s| == 0 then []
    else
      var r := Insert(SortBy(s[..|s| - 1], le), s[|s| - 1], le);
      assert s == s[..|s| - 1] + [s[|s| - 1]];
      r
  }

  lemma {:induction false} InsertSorted<T(!new)>(r: seq<T>, x: T, le: (T, T) -> bool)
    requires TotalPreorder(le) && SortedBy(r, le)
    ensures SortedBy(Insert(r, x, le), le)
  {
    if |r| == 0 {
    } else if le(r[|r| - 1], x) {
      var q := r + [x];
      forall i, j | 0 <= i < j < |q|
        ensures le(q[i], q[j])
      {
        if j == |r| && i < |r| - 1 {
          assert le(r[i], r[|r| - 1]);
        }
      }
    } else {
      var last := r[|r| - 1];
      var front := r[..|r| - 1];
      InsertSorted(front, x, le);
      var p := Insert(front, x, le);
      forall i | 0 <= i < |p|
        ensures le(p[i], last)
      {
        assert p[i] in multiset(p);
        if p[i] != x {
          assert p[i] in multiset(front);
          var k :| 0 <= k < |front| && front[k] == p[i];
          assert le(r[k], r[|r| - 1]);
        }
      }
    }
  }

  /** The sort gives a permutation, sorted by `le`. */
  lemma {:induction false} SortBySorted<T(!new)>(s: seq<T>, le: (T, T) -> bool)
    requires TotalPreorder(le)
    ensures SortedBy(SortBy(s, le), le)
    ensures multiset(SortBy(s, le)) == multiset(s)
  {
    if |s| > 0 {
      SortBySorted(s[..|s| - 1], le);
      InsertSorted(SortBy(s[..|s| - 1], le), s[|s| - 1], le);
    }
  }

  /** Inserting keeps the order among tied elements, the inserted one
      coming after the others. */
  lemma {:induction false} InsertKeepsTies<T(!new)>(r: seq<T>, x: T, le: (T, T) -> bool, cls: T -> bool)
    requires Tied(cls, le)
    ensures Seqs.Filter(Insert(r, x, le), cls) == Seqs.Filter(r, cls) + Seqs.Filter([x], cls)
  {
    if |r| == 0 {
      assert Insert(r, x, le) == [] + [x];
    } else if le(r[|r| - 1], x) {
      Seqs.FilterAppend(r, [x], cls);
    } else {
      var last := r[|r| - 1];
      var front := r[..|r| - 1];
      assert r == front + [last];
      var p := Insert(front, x, le);
      assert Insert(r, x, le) == p + [last];
      InsertKeepsTies(front, x, le, cls);
      assert !(cls(x) && cls(last));
      PassUntied(front, p, x, last, cls);
    }
  }

  /** Moving `x` past an element it is not tied with keeps the order within
      the class. */
  lemma PassUntied<T(!new)>(front: seq<T>, p: seq<T>, x: T, last: T, cls: T -> bool)
    requires Seqs.Filter(p, cls) == Seqs.Filter(front, cls) + Seqs.Filter([x], cls)
    requires !(cls(x) && cls(last))
    ensures Seqs.Filter(p + [last], cls) == Seqs.Filter(front + [last], cls) + Seqs.Filter([x], cls)
  {
    Seqs.FilterAppend(p, [last], cls);
    Seqs.FilterAppend(front, [last], cls);
    Seqs.FilterOne(x, cls);
    Seqs.FilterOne(last, cls);
  }

  /** The sort is stable: the elements of a tied class keep the order they
      had in the input. */
  lemma {:induction false} SortByStable<T(!new)>(s: seq<T>, le: (T, T) -> bool, cls: T -> bool)
    requires Tied(cls, le)
    ensures Seqs.Filter(SortBy(s, le), cls) == Seqs.Filter(s, cls)
  {
    if |s| > 0 {
      var front, last := s[..|s| - 1], s[|s| - 1];
      var sorted := SortBy(front, le);
      assert SortBy(s, le) == Insert(sorted, last, le);
      SortByStable(front, le, cls);
      InsertKeepsTies(sorted, last, le, cls);
      assert s == front + [last];
      Seqs.FilterAppend(front, [last], cls);
    }
  }
}
