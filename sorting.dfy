/** Sorting as the tracker's views use `Array.prototype.sort`: by a key, ascending or descending.
    The model's insertion sort keeps elements with equal keys in their input order. That is what
    JavaScript's stable sort does when the comparator returns 0 for them (the report's category
    ranking); the transaction list's comparator never returns 0, so its tie order is not fixed there. */
module Sorting {
  import opened Dates

  /** A comparison key: a number (an amount), a string, or a calendar day (a `Date` compares by its time value). */
  datatype Key = Num(n: real) | Str(s: string) | Day(d: Date)

  /** String order, lexicographic by character. A Dafny `char` is a Unicode code point, while
      JavaScript compares UTF-16 code units; the two orders differ only for characters outside the
      Basic Multilingual Plane. */
  predicate StrLe(a: string, b: string) {
    a == [] || (b != [] && (a[0] < b[0] || (a[0] == b[0] && StrLe(a[1..], b[1..]))))
  }

  /** Keys of one kind are compared as numbers, strings or days; keys of different kinds (which one
      sort never mixes) are ranked numbers, then strings, then days. */
  predicate KeyLe(a: Key, b: Key) {
    match (a, b)
    case (Num(x), Num(y)) => x <= y
    case (Str(x), Str(y)) => StrLe(x, y)
    case (Day(x), Day(y)) => OnOrBefore(x, y)
    case _ => Rank(a) < Rank(b)
  }

  function Rank(k: Key): int {
    match k
    case Num(_) => 0
    case Str(_) => 1
    case Day(_) => 2
  }

  lemma {:induction false} StrLeTotal(a: string, b: string)
    ensures StrLe(a, b) || StrLe(b, a)
  {
    if a != [] && b != [] && a[0] == b[0] {
      StrLeTotal(a[1..], b[1..]);
    }
  }

  lemma {:induction false} StrLeTrans(a: string, b: string, c: string)
    requires StrLe(a, b) && StrLe(b, c)
    ensures StrLe(a, c)
  {
    if a != [] && a[0] == b[0] && b[0] == c[0] {
      StrLeTrans(a[1..], b[1..], c[1..]);
    }
  }

  lemma {:induction false} StrLeRefl(a: string)
    ensures StrLe(a, a)
  {
    if a != [] {
      StrLeRefl(a[1..]);
    }
  }

  /** `a` may be placed before `b` when sorting in the given direction. */
  predicate InOrder(a: Key, b: Key, descending: bool) {
    if descending then KeyLe(b, a) else KeyLe(a, b)
  }

  /** `InOrder` is a total preorder in either direction. */
  lemma InOrderTotalPreorder(a: Key, b: Key, c: Key, descending: bool)
    ensures InOrder(a, b, descending) || InOrder(b, a, descending)
    ensures InOrder(a, a, descending)
    ensures InOrder(a, b, descending) && InOrder(b, c, descending) ==> InOrder(a, c, descending)
  {
    if a.Str? && b.Str? { StrLeTotal(a.s, b.s); }
    if a.Str? { StrLeRefl(a.s); }
    if a.Str? && b.Str? && c.Str? {
      if InOrder(a, b, descending) && InOrder(b, c, descending) {
        if descending { StrLeTrans(c.s, b.s, a.s); } else { StrLeTrans(a.s, b.s, c.s); }
      }
    }
  }

  /** `s` is ordered by `key` in the given direction. */
  ghost predicate SortedBy<T>(s: seq<T>, key: T -> Key, descending: bool) {
    forall i, j :: 0 <= i < j < |s| ==> InOrder(key(s[i]), key(s[j]), descending)
  }

  /** Inserts `x` before the first element it may precede, so that it stays ahead of equal keys. */
  function Insert<T>(x: T, r: seq<T>, key: T -> Key, descending: bool): (res: seq<T>)
    ensures |res| == |r| + 1
    ensures multiset(res) == multiset(r) + multiset{x}
    ensures forall i :: 0 <= i < |res| ==> res[i] == x || res[i] in r
  {
    if r == [] || InOrder(key(x), key(r[0]), descending) then [x] + r
    else
      assert r == [r[0]] + r[1..];
      [r[0]] + Insert(x, r[1..], key, descending)
  }

  /** Inserting into an ordered sequence keeps it ordered. */
  lemma {:induction false} InsertSorted<T>(x: T, r: seq<T>, key: T -> Key, descending: bool)
    requires SortedBy(r, key, descending)
    ensures SortedBy(Insert(x, r, key, descending), key, descending)
  {
    var res := Insert(x, r, key, descending);
    if r == [] {
    } else if InOrder(key(x), key(r[0]), descending) {
      assert res == [x] + r;
      forall j | 1 <= j < |res| ensures InOrder(key(x), key(res[j]), descending) {
        InOrderTotalPreorder(key(x), key(r[0]), key(r[j - 1]), descending);
        if j > 1 { assert InOrder(key(r[0]), key(r[j - 1]), descending); }
      }
    } else {
      var rest := Insert(x, r[1..], key, descending);
      assert res == [r[0]] + rest;
      assert SortedBy(r[1..], key, descending);
      InsertSorted(x, r[1..], key, descending);
      forall j | 1 <= j < |res| ensures InOrder(key(r[0]), key(res[j]), descending) {
        InOrderTotalPreorder(key(x), key(r[0]), key(r[0]), descending);
        if res[j] != x {
          assert rest[j - 1] in r[1..];
          var k :| 1 <= k < |r| && r[k] == res[j];
        }
      }
    }
  }

  /** `s.sort(...)` by `key`: a permutation of `s`, ordered by `key`, with ties in input order. */
  function SortBy<T>(s: seq<T>, key: T -> Key, descending: bool): (r: seq<T>)
    ensures |r| == |s|
    ensures multiset(r) == multiset(s)
    ensures SortedBy(r, key, descending)
  {
    if s == [] then []
    else
      assert s == [s[0]] + s[1..];
      var rest := SortBy(s[1..], key, descending);
      InsertSorted(s[0], rest, key, descending);
      Insert(s[0], rest, key, descending)
  }

  /** A sequence already in order is left unchanged by the sort. */
  lemma {:induction false} SortSorted<T>(s: seq<T>, key: T -> Key, descending: bool)
    requires SortedBy(s, key, descending)
    ensures SortBy(s, key, descending) == s
  {
    if s != [] {
      var rest := s[1..];
      assert SortedBy(rest, key, descending);
      SortSorted(rest, key, descending);
      SortByCons(s, key, descending);
      assert rest != [] ==> InOrder(key(s[0]), key(rest[0]), descending);
      InsertFront(s[0], rest, key, descending);
      assert s == [s[0]] + rest;
    }
  }

  /** One step of the sort: the head is inserted into the sorted tail. */
  lemma SortByCons<T>(s: seq<T>, key: T -> Key, descending: bool)
    requires s != []
    ensures SortBy(s, key, descending) == Insert(s[0], SortBy(s[1..], key, descending), key, descending)
  {
  }

  /** An element that may precede the head is inserted in front. */
  lemma InsertFront<T>(x: T, r: seq<T>, key: T -> Key, descending: bool)
    requires r == [] || InOrder(key(x), key(r[0]), descending)
    ensures Insert(x, r, key, descending) == [x] + r
  {
  }
}
