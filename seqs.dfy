/** Sequence operations shared by the contact list: JavaScript's
    `Array.prototype.filter` and the order relation it preserves. */
module Seqs {

  /** `r` is obtained from `s` by deleting elements, without reordering. */
  ghost predicate Subsequence<T>(r: seq<T>, s: seq<T>)
    decreases |s|
  {
    r == [] || (s != [] && ((r[0] == s[0] && Subsequence(r[1..], s[1..])) || Subsequence(r, s[1..])))
  }

  /** `s.filter(p)`: the elements of `s` that satisfy `p`, in their original order. */
  function Filter<T(!new)>(s: seq<T>, p: T -> bool): (r: seq<T>)
    ensures |r| <= |s|
    ensures forall x :: x in r <==> x in s && p(x)
    ensures forall x :: multiset(r)[x] == if p(x) then multiset(s)[x] else 0
    ensures Subsequence(r, s)
    decreases |s|
  {
    if s == [] then []
    else
      assert s == [s[0]] + s[1..];
      if p(s[0]) then [s[0]] + Filter(s[1..], p) else Filter(s[1..], p)
  }

  /** Filtering with a predicate that every element satisfies keeps the whole sequence. */
  lemma {:induction false} FilterKeepsAll<T(!new)>(s: seq<T>, p: T -> bool)
    requires forall x :: x in s ==> p(x)
    ensures Filter(s, p) == s
    decreases |s|
  {
    if s != [] {
      FilterKeepsAll(s[1..], p);
    }
  }

  /** Filtering with a predicate that no element satisfies leaves nothing. */
  lemma {:induction false} FilterDropsAll<T(!new)>(s: seq<T>, p: T -> bool)
    requires forall x :: x in s ==> !p(x)
    ensures Filter(s, p) == []
    decreases |s|
  {
    if s != [] {
      FilterDropsAll(s[1..], p);
    }
  }

  /** Two filters applied one after the other give the same result in either order. */
  lemma {:induction false} FilterCommutes<T(!new)>(s: seq<T>, p: T -> bool, q: T -> bool)
    ensures Filter(Filter(s, p), q) == Filter(Filter(s, q), p)
    decreases |s|
  {
    if s != [] {
      FilterCommutes(s[1..], p, q);
      var x, rest := s[0], s[1..];
      if p(x) {
        assert Filter(s, p) == [x] + Filter(rest, p);
        assert ([x] + Filter(rest, p))[1..] == Filter(rest, p);
      }
      if q(x) {
        assert Filter(s, q) == [x] + Filter(rest, q);
        assert ([x] + Filter(rest, q))[1..] == Filter(rest, q);
      }
    }
  }
}
