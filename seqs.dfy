/**
 * Order-preserving filtering of sequences, the `Array.prototype.filter` that
 * the inventory operations and the derived views are built from, and the
 * facts about it that those views rely on.
 */
module Seqs {

  /** The elements of `s` that satisfy `p`, in their original order. */
  function Filter<T>(p: T -> bool, s: seq<T>): (r: seq<T>)
    ensures |r| <= |s|
    ensures forall i :: 0 <= i < |r| ==> r[i] in s && p(r[i])
    ensures forall i :: 0 <= i < |s| && p(s[i]) ==> s[i] in r
  {
    if s == [] then []
    else if p(s[0]) then [s[0]] + Filter(p, s[1..])
    else Filter(p, s[1..])
  }

  /** `r` is obtained from `s` by deleting some elements and keeping the order of the rest. */
  predicate IsSubsequence<T(==)>(r: seq<T>, s: seq<T>)
  {
    r == [] ||
    (s != [] && ((r[0] == s[0] && IsSubsequence(r[1..], s[1..])) || IsSubsequence(r, s[1..])))
  }

  lemma {:induction false} FilterIsSubsequence<T>(p: T -> bool, s: seq<T>)
    ensures IsSubsequence(Filter(p, s), s)
  {
    if s != [] {
      FilterIsSubsequence(p, s[1..]);
      var r := Filter(p, s);
      if p(s[0]) {
        assert r[0] == s[0] && r[1..] == Filter(p, s[1..]);
      } else {
        assert r == Filter(p, s[1..]);
      }
    }
  }

  lemma {:induction false} FilterConcat<T>(p: T -> bool, a: seq<T>, b: seq<T>)
    ensures Filter(p, a + b) == Filter(p, a) + Filter(p, b)
  {
    if a == [] {
      assert a + b == b;
    } else {
      assert (a + b)[0] == a[0] && (a + b)[1..] == a[1..] + b;
      FilterConcat(p, a[1..], b);
    }
  }

  /** Two predicates that agree on every element of `s` select the same elements. */
  lemma {:induction false} FilterExtensional<T>(p: T -> bool, q: T -> bool, s: seq<T>)
    requires forall i :: 0 <= i < |s| ==> p(s[i]) == q(s[i])
    ensures Filter(p, s) == Filter(q, s)
  {
    if s != [] {
      FilterExtensional(p, q, s[1..]);
    }
  }

  /** Filtering in two stages is filtering once by the conjunction `both`. */
  lemma {:induction false} FilterFusion<T>(p: T -> bool, q: T -> bool, both: T -> bool, s: seq<T>)
    requires forall i :: 0 <= i < |s| ==> both(s[i]) == (q(s[i]) && p(s[i]))
    ensures Filter(p, Filter(q, s)) == Filter(both, s)
  {
    if s != [] {
      FilterFusion(p, q, both, s[1..]);
      if q(s[0]) {
        FilterConcat(p, [s[0]], Filter(q, s[1..]));
      }
    }
  }

  /** The order of two filter stages does not matter. */
  lemma {:induction false} FilterCommutes<T>(p: T -> bool, q: T -> bool, s: seq<T>)
    ensures Filter(p, Filter(q, s)) == Filter(q, Filter(p, s))
  {
    var both := x => p(x) && q(x);
    FilterFusion(p, q, both, s);
    FilterFusion(q, p, both, s);
  }

  /** A filter that every element passes returns the sequence itself. */
  lemma {:induction false} FilterKeepsAll<T>(p: T -> bool, s: seq<T>)
    requires forall i :: 0 <= i < |s| ==> p(s[i])
    ensures Filter(p, s) == s
  {
    if s != [] {
      FilterKeepsAll(p, s[1..]);
      assert [s[0]] + s[1..] == s;
    }
  }

  /** Two predicates that never hold together select at most |s| elements between them. */
  lemma {:induction false} FilterDisjointCount<T>(p: T -> bool, q: T -> bool, s: seq<T>)
    requires forall i :: 0 <= i < |s| ==> !(p(s[i]) && q(s[i]))
    ensures |Filter(p, s)| + |Filter(q, s)| <= |s|
  {
    if s != [] {
      FilterDisjointCount(p, q, s[1..]);
    }
  }

  /** Two predicates of which exactly one holds on each element split the count of `s` between them. */
  lemma {:induction false} FilterComplementCount<T>(p: T -> bool, q: T -> bool, s: seq<T>)
    requires forall i :: 0 <= i < |s| ==> p(s[i]) != q(s[i])
    ensures |Filter(p, s)| + |Filter(q, s)| == |s|
  {
    if s != [] {
      FilterComplementCount(p, q, s[1..]);
    }
  }

  /** Three predicates of which exactly one holds on each element partition the count of `s`. */
  lemma {:induction false} FilterPartitionCount<T>(p: T -> bool, q: T -> bool, o: T -> bool, s: seq<T>)
    requires forall i :: 0 <= i < |s| ==>
      (p(s[i]) && !q(s[i]) && !o(s[i])) || (!p(s[i]) && q(s[i]) && !o(s[i])) || (!p(s[i]) && !q(s[i]) && o(s[i]))
    ensures |Filter(p, s)| + |Filter(q, s)| + |Filter(o, s)| == |s|
  {
    if s != [] {
      FilterPartitionCount(p, q, o, s[1..]);
    }
  }
}
