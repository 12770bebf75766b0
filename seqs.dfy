/** Sequence helpers shared by the server listings and the client pages:
    `Array.prototype.filter`, a stable sort by a comparator, and distinctness. */
module Seqs {

  /** `s.filter(p)`: keeps, in order, the elements satisfying `p`. Every element
      occurs as often as in `s` if it satisfies `p`, and not at all otherwise;
      the order is stated by `FilterConcat`. */
  function Filter<T(!new)>(s: seq<T>, p: T -> bool): (r: seq<T>)
    ensures |r| <= |s|
    ensures forall x :: multiset(r)[x] == if p(x) then multiset(s)[x] else 0
    ensures forall x :: x in r <==> x in s && p(x)
  {
    if s == [] then []
    else
      assert s == [s[0]] + s[1..];
      if p(s[0]) then [s[0]] + Filter(s[1..], p) else Filter(s[1..], p)
  }

  /** Filtering a concatenation filters each part in turn, so the kept
      elements stay in their input order. */
  lemma {:induction false} FilterConcat<T(!new)>(a: seq<T>, b: seq<T>, p: T -> bool)
    ensures Filter(a + b, p) == Filter(a, p) + Filter(b, p)
  {
    if a == [] {
      assert a + b == b;
    } else {
      ConcatAssoc([a[0]], a[1..], b);
      assert [a[0]] + a[1..] == a;
      FilterConcat(a[1..], b, p);
      FilterCons(a[0], a[1..], p);
      FilterCons(a[0], a[1..] + b, p);
      ConcatAssoc(if p(a[0]) then [a[0]] else [], Filter(a[1..], p), Filter(b, p));
    }
  }

  /** Two parts of which one is empty can be swapped. */
  lemma SwapEmpty<T>(a: seq<T>, b: seq<T>, z: seq<T>)
    requires a == [] || b == []
    ensures a + (b + z) == b + (a + z)
  {
  }

  lemma ConcatAssoc<T>(x: seq<T>, y: seq<T>, z: seq<T>)
    ensures x + (y + z) == (x + y) + z
  {
  }

  lemma FilterCons<T(!new)>(x: T, s: seq<T>, p: T -> bool)
    ensures Filter([x] + s, p) == (if p(x) then [x] else []) + Filter(s, p)
  {
    assert ([x] + s)[1..] == s;
  }

  /** Filtering keeps everything exactly when every element passes. */
  lemma {:induction false} FilterKeepsAllIff<T(!new)>(s: seq<T>, p: T -> bool)
    ensures |Filter(s, p)| == |s| <==> forall x :: x in s ==> p(x)
    ensures (forall x :: x in s ==> p(x)) ==> Filter(s, p) == s
  {
    if s != [] {
      var h, t := s[0], s[1..];
      assert s == [h] + t;
      FilterKeepsAllIff(t, p);
      FilterCons(h, t, p);
      assert forall x :: x in s <==> x == h || x in t;
    }
  }

  /** No element occurs twice. */
  predicate Distinct<T(==)>(s: seq<T>) {
    forall i, j :: 0 <= i < j < |s| ==> s[i] != s[j]
  }

  /** `le(a, b)` says that `a` may be placed before `b`; a comparator that is
      total and transitive is what `Array.prototype.sort` and an SQL
      `ORDER BY` need to produce an ordered result. */
  ghost predicate TotalPreorder<T(!new)>(le: (T, T) -> bool) {
    && (forall a, b :: le(a, b) || le(b, a))
    && (forall a, b, c :: le(a, b) && le(b, c) ==> le(a, c))
  }

  predicate SortedBy<T>(s: seq<T>, le: (T, T) -> bool) {
    forall i, j :: 0 <= i < j < |s| ==> le(s[i], s[j])
  }

  /** Inserts `x` before the first element it may precede. */
  function Insert<T>(x: T, s: seq<T>, le: (T, T) -> bool): (r: seq<T>)
    ensures |r| == |s| + 1
    ensures multiset(r) == multiset(s) + multiset{x}
  {
    if s == [] then [x]
    else if le(x, s[0]) then [x] + s
    else
      assert s == [s[0]] + s[1..];
      [s[0]] + Insert(x, s[1..], le)
  }

  /** Insertion sort; elements that compare equal keep their input order,
      as in the stable `Array.prototype.sort` (`SortByStable`). */
  function SortBy<T>(s: seq<T>, le: (T, T) -> bool): (r: seq<T>)
    ensures |r| == |s|
    ensures multiset(r) == multiset(s)
  {
    if s == [] then []
    else
      assert s == [s[0]] + s[1..];
      Insert(s[0], SortBy(s[1..], le), le)
  }

  lemma {:induction false} InsertSorted<T(!new)>(x: T, s: seq<T>, le: (T, T) -> bool)
    requires TotalPreorder(le)
    requires SortedBy(s, le)
    ensures SortedBy(Insert(x, s, le), le)
  {
    if s == [] {
    } else if le(x, s[0]) {
      var r := [x] + s;
      forall i, j | 0 <= i < j < |r| ensures le(r[i], r[j]) {
        if i == 0 && j > 1 {
          assert le(s[0], s[j - 1]);
        }
      }
    } else {
      assert le(s[0], x);
      var rest := Insert(x, s[1..], le);
      assert SortedBy(s[1..], le);
      InsertSorted(x, s[1..], le);
      var r := [s[0]] + rest;
      forall j | 0 <= j < |rest| ensures le(s[0], rest[j]) {
        assert rest[j] in multiset(rest);
        assert rest[j] == x || rest[j] in multiset(s[1..]);
        if rest[j] != x {
          var k :| 0 <= k < |s[1..]| && s[1..][k] == rest[j];
          assert s[k + 1] == rest[j];
        }
      }
      forall i, j | 0 <= i < j < |r| ensures le(r[i], r[j]) {
        if i > 0 {
          assert r[i] == rest[i - 1] && r[j] == rest[j - 1];
        }
      }
    }
  }

  /** The sort produces an ordered permutation of its input. */
  lemma {:induction false} SortBySorted<T(!new)>(s: seq<T>, le: (T, T) -> bool)
    requires TotalPreorder(le)
    ensures SortedBy(SortBy(s, le), le)
    ensures multiset(SortBy(s, le)) == multiset(s)
  {
    if s != [] {
      SortBySorted(s[1..], le);
      InsertSorted(s[0], SortBy(s[1..], le), le);
    }
  }

  /** The elements that compare equal to `k` both ways. */
  function Ties<T>(le: (T, T) -> bool, k: T): T -> bool {
    y => le(k, y) && le(y, k)
  }

  /** Inserting `x` puts it before every element that ties with it. */
  lemma {:induction false} InsertTies<T(!new)>(x: T, r: seq<T>, le: (T, T) -> bool, k: T)
    requires TotalPreorder(le)
    ensures Filter(Insert(x, r, le), Ties(le, k)) ==
            (if Ties(le, k)(x) then [x] else []) + Filter(r, Ties(le, k))
  {
    var e := Ties(le, k);
    if r == [] {
      FilterCons(x, r, e);
      assert [x] + r == [x];
    } else if le(x, r[0]) {
      FilterCons(x, r, e);
    } else {
      var h, t := r[0], r[1..];
      assert r == [h] + t;
      InsertTies(x, t, le, k);
      FilterCons(h, t, e);
      FilterCons(h, Insert(x, t, le), e);
      assert !(e(x) && e(h));
      SwapEmpty(if e(h) then [h] else [], if e(x) then [x] else [], Filter(t, e));
    }
  }

  /** The sort is stable: for every `k`, the elements tying with `k` come out
      in the order they went in. */
  lemma {:induction false} SortByStable<T(!new)>(s: seq<T>, le: (T, T) -> bool, k: T)
    requires TotalPreorder(le)
    ensures Filter(SortBy(s, le), Ties(le, k)) == Filter(s, Ties(le, k))
  {
    if s != [] {
      SortByStable(s[1..], le, k);
      InsertTies(s[0], SortBy(s[1..], le), le, k);
    }
  }
}
