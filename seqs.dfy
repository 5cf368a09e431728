/** Sequence helpers standing in for JavaScript's `Array.prototype.filter` and `findIndex`. */
module Seqs {

  /** `s.filter(p)`: the elements of `s` satisfying `p`, in their original order. */
  function Filter<T>(s: seq<T>, p: T -> bool): (r: seq<T>)
    ensures |r| <= |s|
    ensures forall i :: 0 <= i < |r| ==> r[i] in s && p(r[i])
    ensures forall i :: 0 <= i < |s| && p(s[i]) ==> s[i] in r
  {
    if s == [] then []
    else
      var init := Filter(s[..|s| - 1], p);
      assert s == s[..|s| - 1] + [s[|s| - 1]];
      if p(s[|s| - 1]) then init + [s[|s| - 1]] else init
  }

  /** `s.findIndex(p)`, with `|s|` standing for "none": the position of the first element satisfying `p`. */
  function FirstIndex<T>(s: seq<T>, p: T -> bool): (k: nat)
    ensures k <= |s|
    ensures forall j :: 0 <= j < k ==> !p(s[j])
    ensures k < |s| ==> p(s[k])
  {
    if s == [] || p(s[0]) then 0 else 1 + FirstIndex(s[1..], p)
  }

  /** `r` is obtained from `s` by deleting elements, so what remains keeps its order
      (matched greedily from the back, which decides the relation exactly). */
  ghost predicate IsSubsequence<T>(r: seq<T>, s: seq<T>)
    decreases |s|
  {
    if r == [] then true
    else if s == [] then false
    else if r[|r| - 1] == s[|s| - 1] then IsSubsequence(r[..|r| - 1], s[..|s| - 1])
    else IsSubsequence(r, s[..|s| - 1])
  }

  /** Filtering distributes over concatenation. */
  lemma {:induction false} FilterAppend<T>(a: seq<T>, b: seq<T>, p: T -> bool)
    ensures Filter(a + b, p) == Filter(a, p) + Filter(b, p)
    decreases |b|
  {
    if b == [] {
      assert a + b == a;
    } else {
      var b' := b[..|b| - 1];
      assert (a + b)[..|a + b| - 1] == a + b';
      FilterAppend(a, b', p);
      assert b[..|b| - 1] == b';
    }
  }

  /** Every element satisfying `p` occurs in `r` exactly as often as in `s`, and no other element occurs
      in `r`: the multiset of `r` is that of `s` restricted to `p`. */
  ghost predicate CountsFiltered<T(!new)>(r: seq<T>, s: seq<T>, p: T -> bool) {
    forall x :: multiset(r)[x] == if p(x) then multiset(s)[x] else 0
  }

  /** Filtering keeps every element satisfying `p` exactly as often as it occurs in `s`, and no other. */
  lemma {:induction false} FilterMultiset<T(!new)>(s: seq<T>, p: T -> bool)
    ensures CountsFiltered(Filter(s, p), s, p)
  {
    if s != [] {
      var s', last := s[..|s| - 1], s[|s| - 1];
      FilterMultiset(s', p);
      assert s == s' + [last];
      assert multiset(s) == multiset(s') + multiset{last};
    }
  }

  /** A filter whose predicate holds everywhere keeps the whole sequence. */
  lemma {:induction false} FilterAll<T>(s: seq<T>, p: T -> bool)
    requires forall i :: 0 <= i < |s| ==> p(s[i])
    ensures Filter(s, p) == s
  {
    if s != [] {
      FilterAll(s[..|s| - 1], p);
      assert s == s[..|s| - 1] + [s[|s| - 1]];
    }
  }

  /** Filtering keeps the relative order of the surviving elements. */
  lemma {:induction false} FilterIsSubsequence<T>(s: seq<T>, p: T -> bool)
    ensures IsSubsequence(Filter(s, p), s)
  {
    if s != [] {
      var s' := s[..|s| - 1];
      FilterIsSubsequence(s', p);
      if !p(s[|s| - 1]) {
        SubsequenceDropLast(Filter(s', p), s);
      }
    }
  }

  /** Appending an element to the longer sequence keeps the relation. */
  lemma {:induction false} SubsequenceDropLast<T>(r: seq<T>, s: seq<T>)
    requires s != [] && IsSubsequence(r, s[..|s| - 1])
    ensures IsSubsequence(r, s)
    decreases |s|, 1
  {
    if r != [] && r[|r| - 1] == s[|s| - 1] {
      SubsequenceShorten(r, s[..|s| - 1]);
    }
  }

  /** Dropping the last element of the shorter sequence keeps the relation. */
  lemma {:induction false} SubsequenceShorten<T>(r: seq<T>, t: seq<T>)
    requires r != [] && IsSubsequence(r, t)
    ensures IsSubsequence(r[..|r| - 1], t)
    decreases |t|, 2
  {
    var r' := r[..|r| - 1];
    var t' := t[..|t| - 1];
    if r[|r| - 1] == t[|t| - 1] {
      if r' != [] { SubsequenceDropLast(r', t); }
    } else {
      SubsequenceShorten(r, t');
      if r' != [] { SubsequenceDropLast(r', t); }
    }
  }
}
