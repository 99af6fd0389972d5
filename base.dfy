/** Values and list operations shared by every screen: an optional value, the
    priority scale of the task forms, and the `Array.prototype.filter` /
    `filter(..).length` pair the screens derive their lists and counts with. */
module Base {

  datatype Option<+T> = None | Some(value: T)

  /** The `priority` radio buttons of every task form: 'low', 'medium', 'high'. */
  datatype Priority = Low | Medium | High

  /** `s.filter(p)`: the elements of `s` that satisfy `p`, in their original order. */
  function Filter<T(==,!new)>(p: T -> bool, s: seq<T>): (r: seq<T>)
    ensures forall x :: x in r <==> x in s && p(x)
    ensures IsSubsequence(r, s)
    ensures |r| == Count(p, s)
  {
    if s == [] then []
    else if p(s[0]) then [s[0]] + Filter(p, s[1..])
    else
      var rest := Filter(p, s[1..]);
      assert rest != [] ==> rest[0] in rest && p(rest[0]) && rest[0] != s[0];
      rest
  }

  /** The number of elements of `s` that satisfy `p`, counted one by one. */
  function Count<T>(p: T -> bool, s: seq<T>): (n: nat)
    ensures n <= |s|
  {
    if s == [] then 0 else (if p(s[0]) then 1 else 0) + Count(p, s[1..])
  }

  /** `a` is `b` with some elements left out and the order of the rest kept. */
  predicate IsSubsequence<T(==)>(a: seq<T>, b: seq<T>)
    decreases |b|
  {
    a == [] ||
    (b != [] &&
     if a[0] == b[0] then IsSubsequence(a[1..], b[1..]) else IsSubsequence(a, b[1..]))
  }

  /** A subsequence of `s` made only of `p`-elements has at most `Count(p, s)` elements. */
  lemma {:induction false} SubsequenceCountBound<T(!new)>(p: T -> bool, r: seq<T>, s: seq<T>)
    requires IsSubsequence(r, s)
    requires forall x :: x in r ==> p(x)
    ensures |r| <= Count(p, s)
  {
    if r != [] {
      if r[0] == s[0] {
        assert forall x :: x in r[1..] ==> x in r;
        SubsequenceCountBound(p, r[1..], s[1..]);
      } else {
        SubsequenceCountBound(p, r, s[1..]);
      }
    }
  }

  /** The contract of `Filter` determines its result: any order-preserving selection
      of `p`-elements that is as long as the number of `p`-elements is that result. */
  lemma {:induction false} FilterUnique<T(!new)>(p: T -> bool, s: seq<T>, r: seq<T>)
    requires IsSubsequence(r, s)
    requires forall x :: x in r ==> p(x)
    requires |r| == Count(p, s)
    ensures r == Filter(p, s)
  {
    if s == [] {
    } else if r == [] {
      assert |Filter(p, s)| == 0;
    } else if r[0] == s[0] {
      assert forall x :: x in r[1..] ==> x in r;
      assert p(s[0]);
      FilterUnique(p, s[1..], r[1..]);
    } else {
      if p(s[0]) {
        SubsequenceCountBound(p, r, s[1..]);
        assert false;
      }
      FilterUnique(p, s[1..], r);
    }
  }

  /** Filtering a concatenation filters each part. */
  lemma {:induction false} FilterAppend<T(!new)>(p: T -> bool, a: seq<T>, b: seq<T>)
    ensures Filter(p, a + b) == Filter(p, a) + Filter(p, b)
  {
    if a != [] {
      assert (a + b)[1..] == a[1..] + b;
      FilterAppend(p, a[1..], b);
    } else {
      assert a + b == b;
    }
  }

  /** A filter every element passes keeps the whole sequence. */
  lemma {:induction false} FilterKeepsAll<T(!new)>(p: T -> bool, s: seq<T>)
    requires forall i :: 0 <= i < |s| ==> p(s[i])
    ensures Filter(p, s) == s
  {
    if s != [] {
      FilterKeepsAll(p, s[1..]);
    }
  }

  /** Two filters that agree on every element of `s` select the same elements. */
  lemma {:induction false} FilterCongruent<T(!new)>(p: T -> bool, q: T -> bool, s: seq<T>)
    requires forall i :: 0 <= i < |s| ==> p(s[i]) == q(s[i])
    ensures Filter(p, s) == Filter(q, s)
  {
    if s != [] {
      FilterCongruent(p, q, s[1..]);
    }
  }
}
