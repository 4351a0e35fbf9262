/** Filtering a sequence, and how filters that split its elements split the sequence. */
module Filters {

  /** The rows of `s` that `keep` accepts, in their order. */
  function Filter<T(!new)>(s: seq<T>, keep: T -> bool): (r: seq<T>)
    ensures |r| <= |s|
    ensures forall a :: a in r <==> a in s && keep(a)
  {
    if s == [] then []
    else (if keep(s[0]) then [s[0]] else []) + Filter(s[1..], keep)
  }

  /** A filter keeps every copy of an accepted element and none of a rejected one. */
  lemma {:induction false} FilterCount<T(!new)>(s: seq<T>, keep: T -> bool, a: T)
    ensures multiset(Filter(s, keep))[a] == if keep(a) then multiset(s)[a] else 0
  {
    if s != [] {
      FilterCount(s[1..], keep, a);
      assert s == [s[0]] + s[1..];
      assert multiset(s) == multiset{s[0]} + multiset(s[1..]);
      FilterFirst(s, keep);
    }
  }

  predicate ExactlyOne(p: bool, q: bool, r: bool) {
    (p && !q && !r) || (!p && q && !r) || (!p && !q && r)
  }

  /** The copies of `a` that a filter keeps. */
  function Kept<T>(a: T, keep: bool): multiset<T> {
    if keep then multiset{a} else multiset{}
  }

  lemma FilterFirst<T(!new)>(s: seq<T>, keep: T -> bool)
    requires s != []
    ensures multiset(Filter(s, keep)) == Kept(s[0], keep(s[0])) + multiset(Filter(s[1..], keep))
  {
  }

  lemma KeptOnce<T>(a: T, h1: bool, h2: bool, h3: bool, m1: multiset<T>, m2: multiset<T>, m3: multiset<T>)
    requires ExactlyOne(h1, h2, h3)
    ensures (Kept(a, h1) + m1) + (Kept(a, h2) + m2) + (Kept(a, h3) + m3) == multiset{a} + (m1 + m2 + m3)
  {
  }

  /** Three filters that split every element three ways split the sequence. */
  lemma {:induction false} FilterPartition<T(!new)>(s: seq<T>, f1: T -> bool, f2: T -> bool, f3: T -> bool)
    requires forall i :: 0 <= i < |s| ==> ExactlyOne(f1(s[i]), f2(s[i]), f3(s[i]))
    ensures multiset(Filter(s, f1)) + multiset(Filter(s, f2)) + multiset(Filter(s, f3)) == multiset(s)
  {
    if s != [] {
      var a, tail := s[0], s[1..];
      assert forall i :: 0 <= i < |tail| ==> tail[i] == s[i + 1];
      FilterPartition(tail, f1, f2, f3);
      FilterFirst(s, f1);
      FilterFirst(s, f2);
      FilterFirst(s, f3);
      KeptOnce(a, f1(a), f2(a), f3(a),
               multiset(Filter(tail, f1)), multiset(Filter(tail, f2)), multiset(Filter(tail, f3)));
      assert s == [a] + tail;
    }
  }
}
