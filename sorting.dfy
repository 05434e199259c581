/** The sequence operations the components chain: Array.prototype.sort with a
    comparator, filter and slice(0, n). */
module Sorting {

  /** `le(a, b)` says the comparator does not put `a` after `b`. */
  ghost predicate TotalPreorder<T(!new)>(le: (T, T) -> bool) {
    && (forall a, b :: le(a, b) || le(b, a))
    && (forall a, b, c :: le(a, b) && le(b, c) ==> le(a, c))
  }

  predicate SortedBy<T>(s: seq<T>, le: (T, T) -> bool) {
    forall i, j :: 0 <= i < j < |s| ==> le(s[i], s[j])
  }

  /** Places `x` before the first element it may precede, so that an element
      never overtakes one it is tied with. */
  function Insert<T>(x: T, s: seq<T>, le: (T, T) -> bool): (r: seq<T>)
    ensures |r| == |s| + 1
    ensures multiset(r) == multiset(s) + multiset{x}
  {
    if s == [] || le(x, s[0]) then [x] + s
    else
      var rest := Insert(x, s[1..], le);
      assert s == [s[0]] + s[1..];
      [s[0]] + rest
  }

  /** Array.prototype.sort, which is stable: here an insertion sort. */
  function Sort<T>(s: seq<T>, le: (T, T) -> bool): (r: seq<T>)
    ensures |r| == |s|
    ensures multiset(r) == multiset(s)
  {
    if s == [] then []
    else
      assert s == [s[0]] + s[1..];
      Insert(s[0], Sort(s[1..], le), le)
  }

  lemma {:induction false} InsertSorted<T(!new)>(x: T, s: seq<T>, le: (T, T) -> bool)
    requires TotalPreorder(le) && SortedBy(s, le)
    ensures SortedBy(Insert(x, s, le), le)
  {
    if s != [] && !le(x, s[0]) {
      var rest := Insert(x, s[1..], le);
      InsertSorted(x, s[1..], le);
      forall e | e in rest ensures le(s[0], e) {
        assert e in multiset(rest);
        if e != x {
          assert e in s[1..];
          var j :| 0 <= j < |s[1..]| && s[1..][j] == e;
          assert s[j + 1] == e;
        }
      }
      var r := [s[0]] + rest;
      forall i, j | 0 <= i < j < |r| ensures le(r[i], r[j]) {
        if i == 0 { assert r[j] in rest; } else { assert r[i] == rest[i - 1] && r[j] == rest[j - 1]; }
      }
    }
  }

  /** For a consistent comparator the result is ordered. */
  lemma {:induction false} SortSorted<T(!new)>(s: seq<T>, le: (T, T) -> bool)
    requires TotalPreorder(le)
    ensures SortedBy(Sort(s, le), le)
  {
    if s != [] {
      SortSorted(s[1..], le);
      InsertSorted(s[0], Sort(s[1..], le), le);
    }
  }

  /** The first element of an ordered sequence precedes every element. */
  lemma SortedHeadLeast<T(!new)>(s: seq<T>, le: (T, T) -> bool)
    requires TotalPreorder(le) && SortedBy(s, le) && s != []
    ensures forall x :: x in s ==> le(s[0], x)
  {
    forall x | x in s ensures le(s[0], x) {
      var j :| 0 <= j < |s| && s[j] == x;
      if j == 0 { assert le(x, x) || le(x, x); }
    }
  }

  /** The first `n` of a sorted copy are ordered, are taken from the
      original (no element more often than there), and precede every element
      left out. */
  lemma SortedTake<T(!new)>(s: seq<T>, le: (T, T) -> bool, n: nat)
    requires TotalPreorder(le)
    ensures var r := Take(Sort(s, le), n);
      && SortedBy(r, le) && multiset(r) <= multiset(s) && (forall x :: x in r ==> x in s)
      && forall x, y :: x in r && y in multiset(s) - multiset(r) ==> le(x, y)
  {
    var sorted := Sort(s, le);
    SortSorted(s, le);
    var r := Take(sorted, n);
    SortedPrefix(sorted, le, |r|);
    forall x | x in r ensures x in s {
      assert x in multiset(r);
    }
  }

  /** A prefix of an ordered sequence is ordered, is taken from it, and
      precedes every element it leaves out. */
  lemma SortedPrefix<T>(t: seq<T>, le: (T, T) -> bool, m: nat)
    requires SortedBy(t, le) && m <= |t|
    ensures SortedBy(t[..m], le) && multiset(t[..m]) <= multiset(t)
    ensures forall x, y :: x in t[..m] && y in multiset(t) - multiset(t[..m]) ==> le(x, y)
  {
    PrefixSplit(t, m);
    SortedPrefixFirst(t, le, m);
    forall x, y | x in t[..m] && y in multiset(t) - multiset(t[..m]) ensures le(x, y) {
      assert y in t[m..];
    }
  }

  lemma PrefixSplit<T>(s: seq<T>, m: nat)
    requires m <= |s|
    ensures multiset(s[..m]) <= multiset(s)
    ensures multiset(s) - multiset(s[..m]) == multiset(s[m..])
  {
    assert s == s[..m] + s[m..];
  }

  /** In an ordered sequence every element of a prefix precedes every element
      after it. */
  lemma SortedPrefixFirst<T>(s: seq<T>, le: (T, T) -> bool, m: nat)
    requires SortedBy(s, le) && m <= |s|
    ensures forall x, y :: x in s[..m] && y in s[m..] ==> le(x, y)
  {
    forall x, y | x in s[..m] && y in s[m..] ensures le(x, y) {
      var i :| 0 <= i < m && s[..m][i] == x;
      var j :| 0 <= j < |s| - m && s[m..][j] == y;
      assert s[i] == x && s[m + j] == y;
    }
  }

  /** The elements the comparator ties with `k`. */
  function TiedWith<T>(le: (T, T) -> bool, k: T): T -> bool {
    x => le(x, k) && le(k, x)
  }

  lemma FilterCons<T(!new)>(a: T, s: seq<T>, p: T -> bool)
    ensures p(a) ==> Filter([a] + s, p) == [a] + Filter(s, p)
    ensures !p(a) ==> Filter([a] + s, p) == Filter(s, p)
  {
    assert ([a] + s)[1..] == s;
  }

  /** An element the comparator strictly puts before one tied with `k` is
      not tied with `k`. */
  lemma TiedBlocks<T(!new)>(x: T, y: T, le: (T, T) -> bool, k: T)
    requires TotalPreorder(le) && TiedWith(le, k)(x) && !le(x, y)
    ensures !TiedWith(le, k)(y)
  {
  }

  /** Inserting `x` adds it in front of the elements tied with it and leaves
      the order of every other class alone. */
  lemma {:induction false} FilterInsert<T(!new)>(x: T, t: seq<T>, le: (T, T) -> bool, k: T)
    requires TotalPreorder(le)
    ensures var p := TiedWith(le, k);
      Filter(Insert(x, t, le), p) == (if p(x) then [x] else []) + Filter(t, p)
  {
    var p := TiedWith(le, k);
    if t == [] || le(x, t[0]) {
      assert Insert(x, t, le) == [x] + t;
      FilterCons(x, t, p);
    } else {
      FilterInsert(x, t[1..], le, k);
      if p(x) {
        TiedBlocks(x, t[0], le, k);
      }
      FilterInsertStep(x, t, le, p);
    }
  }

  /** The step of `FilterInsert` where `x` passes the head of `t`. */
  lemma FilterInsertStep<T(!new)>(x: T, t: seq<T>, le: (T, T) -> bool, p: T -> bool)
    requires t != [] && !le(x, t[0]) && (p(x) ==> !p(t[0]))
    requires Filter(Insert(x, t[1..], le), p) == (if p(x) then [x] else []) + Filter(t[1..], p)
    ensures Filter(Insert(x, t, le), p) == (if p(x) then [x] else []) + Filter(t, p)
  {
    assert Insert(x, t, le) == [t[0]] + Insert(x, t[1..], le);
    assert t == [t[0]] + t[1..];
    FilterShift(t[0], Insert(x, t[1..], le), t[1..], if p(x) then [x] else [], p);
  }

  /** A head in front of both sides moves past what only the left side adds,
      when it does not itself pass the filter alongside it. */
  lemma FilterShift<T(!new)>(h: T, rest: seq<T>, tail: seq<T>, mid: seq<T>, p: T -> bool)
    requires Filter(rest, p) == mid + Filter(tail, p) && (mid != [] ==> !p(h))
    ensures Filter([h] + rest, p) == mid + Filter([h] + tail, p)
  {
    if p(h) {
      FilterShiftPass(h, rest, tail, mid, p);
    } else {
      FilterShiftSkip(h, rest, tail, mid, p);
    }
  }

  /** `FilterShift` when the head passes and nothing is added. */
  lemma FilterShiftPass<T(!new)>(h: T, rest: seq<T>, tail: seq<T>, mid: seq<T>, p: T -> bool)
    requires p(h) && mid == [] && Filter(rest, p) == mid + Filter(tail, p)
    ensures Filter([h] + rest, p) == mid + Filter([h] + tail, p)
  {
    assert mid + Filter(tail, p) == Filter(tail, p);
    FilterCons(h, rest, p);
    FilterCons(h, tail, p);
    assert mid + Filter([h] + tail, p) == Filter([h] + tail, p);
  }

  /** `FilterShift` when the head fails the test. */
  lemma FilterShiftSkip<T(!new)>(h: T, rest: seq<T>, tail: seq<T>, mid: seq<T>, p: T -> bool)
    requires !p(h) && Filter(rest, p) == mid + Filter(tail, p)
    ensures Filter([h] + rest, p) == mid + Filter([h] + tail, p)
  {
    FilterCons(h, rest, p);
    FilterCons(h, tail, p);
  }

  /** Array.prototype.sort is stable: the elements tied with any `k` come out
      in the order they went in. */
  lemma {:induction false} SortStable<T(!new)>(s: seq<T>, le: (T, T) -> bool, k: T)
    requires TotalPreorder(le)
    ensures Filter(Sort(s, le), TiedWith(le, k)) == Filter(s, TiedWith(le, k))
  {
    if s != [] {
      var t := s[1..];
      SortStable(t, le, k);
      FilterInsert(s[0], Sort(t, le), le, k);
      FilterHead(s, TiedWith(le, k));
    }
  }

  /** Filtering a prefix gives a prefix of the filtered sequence. */
  lemma {:induction false} FilterPrefix<T(!new)>(s: seq<T>, n: nat, p: T -> bool)
    requires n <= |s|
    ensures Filter(s[..n], p) <= Filter(s, p)
  {
    if n > 0 {
      var t := s[1..];
      assert s[..n][1..] == t[..n - 1];
      FilterPrefix(t, n - 1, p);
      FilterHead(s[..n], p);
      FilterHead(s, p);
      PrefixGrow(if p(s[0]) then [s[0]] else [], Filter(t[..n - 1], p), Filter(t, p));
    }
  }

  /** Filtering a non-empty sequence keeps its head when it passes, then
      filters the rest. */
  lemma FilterHead<T(!new)>(s: seq<T>, p: T -> bool)
    requires s != []
    ensures Filter(s, p) == (if p(s[0]) then [s[0]] else []) + Filter(s[1..], p)
  {
  }

  /** A common head keeps one sequence a prefix of another. */
  lemma PrefixGrow<T>(h: seq<T>, a: seq<T>, b: seq<T>)
    requires a <= b
    ensures h + a <= h + b
  {
    assert (h + b)[..|h + a|] == h + a;
  }

  /** The first `n` of a sorted copy list the elements tied with `k` in
      their input order: a prefix of those elements as the input has them. */
  lemma SortedTakeStable<T(!new)>(s: seq<T>, le: (T, T) -> bool, n: nat, k: T)
    requires TotalPreorder(le)
    ensures Filter(Take(Sort(s, le), n), TiedWith(le, k)) <= Filter(s, TiedWith(le, k))
  {
    var sorted := Sort(s, le);
    FilterPrefix(sorted, |Take(sorted, n)|, TiedWith(le, k));
    SortStable(s, le, k);
  }

  /** The head of the sorted copy is the first of the least elements of the
      input: every element before it is put strictly after it. */
  lemma SortHeadFirstLeast<T(!new)>(s: seq<T>, le: (T, T) -> bool)
    requires s != []
    ensures exists i :: 0 <= i < |s| && s[i] == Sort(s, le)[0] && forall j :: 0 <= j < i ==> !le(s[j], s[i])
  {
    var i := SortHeadIndex(s, le);
  }

  /** Where the head of the sorted copy sits in the input. */
  lemma {:induction false} SortHeadIndex<T>(s: seq<T>, le: (T, T) -> bool) returns (i: nat)
    requires s != []
    ensures i < |s| && s[i] == Sort(s, le)[0]
    ensures forall j :: 0 <= j < i ==> !le(s[j], s[i])
  {
    var t := s[1..];
    var u := Sort(t, le);
    SortCons(s, le);
    InsertHead(s[0], u, le);
    if u == [] || le(s[0], u[0]) {
      i := 0;
    } else {
      var k := SortHeadIndex(t, le);
      LiftBefore(s, k, le);
      i := k + 1;
    }
  }

  /** Sorting a non-empty sequence inserts its head into the sorted rest. */
  lemma SortCons<T>(s: seq<T>, le: (T, T) -> bool)
    requires s != []
    ensures Sort(s, le) == Insert(s[0], Sort(s[1..], le), le)
  {
  }

  /** An index of the tail before which every element is put strictly
      after it stays so in the whole sequence when the head is too. */
  lemma LiftBefore<T>(s: seq<T>, k: nat, le: (T, T) -> bool)
    requires k + 1 < |s|
    requires forall j :: 0 <= j < k ==> !le(s[1..][j], s[1..][k])
    requires !le(s[0], s[1..][k])
    ensures forall j :: 0 <= j < k + 1 ==> !le(s[j], s[k + 1])
  {
    forall j | 0 <= j < k + 1 ensures !le(s[j], s[k + 1]) {
      if j > 0 { assert s[j] == s[1..][j - 1]; }
    }
  }

  /** The head of an insertion. */
  lemma InsertHead<T>(x: T, u: seq<T>, le: (T, T) -> bool)
    ensures Insert(x, u, le)[0] == if u == [] || le(x, u[0]) then x else u[0]
  {
  }

  /** Array.prototype.slice(0, n). */
  function Take<T>(s: seq<T>, n: nat): (r: seq<T>)
    ensures |r| == if n <= |s| then n else |s|
    ensures r == s[..|r|]
  {
    if n <= |s| then s[..n] else s
  }

  /** How many times `x` occurs in `s`. */
  ghost function Occurrences<T>(s: seq<T>, x: T): nat {
    multiset(s)[x]
  }

  /** Array.prototype.filter, keeping order: each passing element as often as
      the input has it, and no other. */
  function Filter<T(!new)>(s: seq<T>, p: T -> bool): (r: seq<T>)
    ensures |r| <= |s|
    ensures forall x :: x in r <==> x in s && p(x)
    ensures multiset(r) <= multiset(s)
    ensures forall x :: Occurrences(r, x) == if p(x) then Occurrences(s, x) else 0
  {
    if s == [] then []
    else
      assert s == [s[0]] + s[1..];
      (if p(s[0]) then [s[0]] else []) + Filter(s[1..], p)
  }
}
