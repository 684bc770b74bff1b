/** Order-preserving filtering of sequences, the `Array.prototype.filter`
    that the board uses for deleting a task and for building a column. */
module Seqs {

  /** `a` can be obtained from `b` by dropping elements, keeping the order of the rest. */
  ghost predicate IsSubsequence<T>(a: seq<T>, b: seq<T>)
    decreases |b|
  {
    a == [] || (b != [] && ((a[0] == b[0] && IsSubsequence(a[1..], b[1..])) || IsSubsequence(a, b[1..])))
  }

  /** The elements of `s` that satisfy `keep`, in their original order. */
  function Filter<T(!new)>(s: seq<T>, keep: T -> bool): (r: seq<T>)
    ensures forall x :: x in r ==> x in s && keep(x)
    ensures forall x :: keep(x) ==> multiset(r)[x] == multiset(s)[x]
    ensures IsSubsequence(r, s)
  {
    if s == [] then []
    else if keep(s[0]) then
      var tail := Filter(s[1..], keep);
      assert s == [s[0]] + s[1..];
      assert ([s[0]] + tail)[1..] == tail;
      [s[0]] + tail
    else
      assert s == [s[0]] + s[1..];
      Filter(s[1..], keep)
  }

  lemma {:induction false} FilterCons<T(!new)>(x: T, s: seq<T>, keep: T -> bool)
    ensures Filter([x] + s, keep) == if keep(x) then [x] + Filter(s, keep) else Filter(s, keep)
  {
    assert ([x] + s)[1..] == s;
  }

  /** Filtering keeps the whole sequence when every element passes. */
  lemma {:induction false} FilterKeepsAll<T(!new)>(s: seq<T>, keep: T -> bool)
    requires forall x :: x in s ==> keep(x)
    ensures Filter(s, keep) == s
  {
    if s != [] {
      FilterKeepsAll(s[1..], keep);
    }
  }

  lemma {:induction false} SubsequenceMultiset<T>(a: seq<T>, b: seq<T>)
    requires IsSubsequence(a, b)
    ensures multiset(a) <= multiset(b)
    decreases |b|
  {
    if a != [] {
      assert b == [b[0]] + b[1..];
      if a[0] == b[0] && IsSubsequence(a[1..], b[1..]) {
        SubsequenceMultiset(a[1..], b[1..]);
        assert a == [a[0]] + a[1..];
      } else {
        SubsequenceMultiset(a, b[1..]);
      }
    }
  }

  lemma HeadIsCounted<T>(s: seq<T>)
    ensures s != [] ==> multiset(s)[s[0]] > 0
  {
  }

  /** The three contract clauses of Filter determine its result: any
      subsequence of `s` that holds only elements passing `keep`, each as often
      as `s` does, is the filtered sequence. */
  lemma {:induction false} FilterUnique<T(!new)>(s: seq<T>, keep: T -> bool, r: seq<T>)
    requires IsSubsequence(r, s)
    requires forall x :: x in r ==> keep(x)
    requires forall x :: keep(x) ==> multiset(r)[x] == multiset(s)[x]
    ensures r == Filter(s, keep)
  {
    if s == [] {
      assert r == [];
    } else if r == [] {
      HeadIsCounted(Filter(s, keep));
    } else {
      var h, t := s[0], s[1..];
      assert s == [h] + t;
      assert r == [r[0]] + r[1..];
      if keep(h) {
        if r[0] == h && IsSubsequence(r[1..], t) {
          forall x | keep(x)
            ensures multiset(r[1..])[x] == multiset(t)[x]
          {
            assert multiset(r) == multiset{h} + multiset(r[1..]);
          }
          FilterUnique(t, keep, r[1..]);
        } else {
          SubsequenceMultiset(r, t);
          assert false;
        }
      } else {
        assert r[0] != h;
        assert IsSubsequence(r, t);
        FilterUnique(t, keep, r);
      }
    }
  }
}
