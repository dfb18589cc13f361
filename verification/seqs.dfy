/** The array operations the dashboard chains together: `filter`, counting
    with `filter(...).length`, `slice(0, n)`, and the stable
    `Array.prototype.sort` (stable since ECMAScript 2019) with a numeric
    descending comparator `(a, b) => score(b) - score(a)`. */
module Seqs {

  /** `s.filter(p)`: the elements satisfying `p`, in their original order. */
  function Filter<T(==)>(s: seq<T>, p: T -> bool): (r: seq<T>)
    ensures |r| <= |s|
    ensures forall x | x in r :: x in s && p(x)
    ensures forall i | 0 <= i < |s| && p(s[i]) :: s[i] in r
  {
    if s == [] then []
    else (if p(s[0]) then [s[0]] else []) + Filter(s[1..], p)
  }

  /** `filter` keeps every copy of a passing element and no copy of a
      failing one: two equal leads are counted twice. (Stated apart from
      `Filter`'s contract, which every count in the model goes through.) */
  lemma {:induction false} FilterMultiplicity<T>(s: seq<T>, p: T -> bool)
    ensures multiset(Filter(s, p)) <= multiset(s)
    ensures forall x :: multiset(Filter(s, p))[x] == if p(x) then multiset(s)[x] else 0
  {
    if s != [] {
      var t := s[1..];
      FilterMultiplicity(t, p);
      var head := if p(s[0]) then [s[0]] else [];
      assert s == [s[0]] + t;
      assert multiset(s) == multiset{s[0]} + multiset(t);
      assert multiset(Filter(s, p)) == multiset(head) + multiset(Filter(t, p));
    }
  }

  /** `s.filter(p).length`. */
  function Count<T(==)>(s: seq<T>, p: T -> bool): (n: nat)
    ensures n <= |s|
  {
    |Filter(s, p)|
  }

  /** Nothing is counted when no element passes. */
  lemma {:induction false} CountNone<T>(s: seq<T>, p: T -> bool)
    requires forall i | 0 <= i < |s| :: !p(s[i])
    ensures Count(s, p) == 0
  {
    if s != [] {
      CountNone(s[1..], p);
    }
  }

  /** `s.slice(0, n)`. */
  function Take<T>(s: seq<T>, n: nat): (r: seq<T>)
    ensures |r| <= n && |r| <= |s|
    ensures |s| <= n ==> r == s
    ensures |s| > n ==> |r| == n
    ensures forall i | 0 <= i < |r| :: r[i] == s[i]
  {
    if |s| <= n then s else s[..n]
  }

  /** `Filter` without its contract, for proofs about positions that the
      contract's membership facts would only slow down. */
  ghost function Kept<T>(s: seq<T>, p: T -> bool): seq<T>
  {
    if s == [] then [] else (if p(s[0]) then [s[0]] else []) + Kept(s[1..], p)
  }

  lemma {:induction false} KeptIsFilter<T>(s: seq<T>, p: T -> bool)
    ensures Kept(s, p) == Filter(s, p)
  {
    if s != [] {
      KeptIsFilter(s[1..], p);
    }
  }

  /** The position in `s` that element `i` of `Kept(s, p)` comes from. */
  ghost function Origin<T>(s: seq<T>, p: T -> bool, i: nat): (a: nat)
    requires i < |Kept(s, p)|
    ensures a < |s| && Kept(s, p)[i] == s[a]
    decreases |s|
  {
    if p(s[0]) then
      if i == 0 then 0 else 1 + Origin(s[1..], p, i - 1)
    else 1 + Origin(s[1..], p, i)
  }

  /** Filtering keeps the order: later elements come from later positions. */
  lemma {:induction false} OriginIncreasing<T>(s: seq<T>, p: T -> bool, i: nat, j: nat)
    requires i < j < |Kept(s, p)|
    ensures Origin(s, p, i) < Origin(s, p, j)
    decreases |s|
  {
    if p(s[0]) {
      if i > 0 {
        OriginIncreasing(s[1..], p, i - 1, j - 1);
      }
    } else {
      OriginIncreasing(s[1..], p, i, j);
    }
  }

  /** Two positions of a filtered sequence come from two positions of the
      original, in the same order. */
  lemma FilterKeepsOrder<T>(s: seq<T>, p: T -> bool, i: nat, j: nat)
    requires i < j < |Filter(s, p)|
    ensures exists a, b | 0 <= a < b < |s| :: Filter(s, p)[i] == s[a] && Filter(s, p)[j] == s[b]
  {
    KeptIsFilter(s, p);
    OriginIncreasing(s, p, i, j);
    var a, b := Origin(s, p, i), Origin(s, p, j);
    assert Filter(s, p)[i] == s[a] && Filter(s, p)[j] == s[b];
  }

  lemma {:induction false} FilterAppend<T>(a: seq<T>, b: seq<T>, p: T -> bool)
    ensures Filter(a + b, p) == Filter(a, p) + Filter(b, p)
  {
    if a != [] {
      var head := if p(a[0]) then [a[0]] else [];
      assert (a + b)[0] == a[0];
      assert (a + b)[1..] == a[1..] + b;
      FilterAppend(a[1..], b, p);
      calc {
        Filter(a + b, p);
        head + Filter(a[1..] + b, p);
        head + (Filter(a[1..], p) + Filter(b, p));
        (head + Filter(a[1..], p)) + Filter(b, p);
        Filter(a, p) + Filter(b, p);
      }
    } else {
      assert a + b == b;
    }
  }

  /** Filtering a sequence with an extra element at the end. */
  lemma FilterSnoc<T>(s: seq<T>, x: T, p: T -> bool)
    ensures Filter(s + [x], p) == Filter(s, p) + (if p(x) then [x] else [])
  {
    FilterAppend(s, [x], p);
  }

  /** Two predicates that agree on every element select the same elements. */
  lemma {:induction false} FilterExt<T>(s: seq<T>, p: T -> bool, q: T -> bool)
    requires forall x | x in s :: p(x) == q(x)
    ensures Filter(s, p) == Filter(s, q)
  {
    if s != [] {
      FilterExt(s[1..], p, q);
    }
  }

  /** Filtering twice is filtering once by the conjunction. */
  lemma {:induction false} FilterFilter<T>(s: seq<T>, p: T -> bool, q: T -> bool, pq: T -> bool)
    requires forall x :: pq(x) == (p(x) && q(x))
    ensures Filter(Filter(s, p), q) == Filter(s, pq)
  {
    if s != [] {
      FilterFilter(s[1..], p, q, pq);
      if p(s[0]) {
        var fs := Filter(s, p);
        assert fs == [s[0]] + Filter(s[1..], p);
        assert fs[0] == s[0] && fs[1..] == Filter(s[1..], p);
      } else {
        assert Filter(s, p) == Filter(s[1..], p);
      }
    }
  }

  /** Counting by a disjoint union is adding the two counts. */
  lemma {:induction false} CountSplit<T>(s: seq<T>, r: T -> bool, p: T -> bool, q: T -> bool)
    requires forall x :: r(x) == (p(x) || q(x))
    requires forall x :: !(p(x) && q(x))
    ensures Count(s, r) == Count(s, p) + Count(s, q)
  {
    if s != [] {
      CountSplit(s[1..], r, p, q);
    }
  }

  /** A predicate implied by another counts at least as many elements. */
  lemma {:induction false} CountMonotone<T>(s: seq<T>, p: T -> bool, q: T -> bool)
    requires forall x :: p(x) ==> q(x)
    ensures Count(s, p) <= Count(s, q)
  {
    if s != [] {
      CountMonotone(s[1..], p, q);
    }
  }

  // ---------------------------------------------------------------------
  // Stable descending sort

  /** Non-increasing by `score`. */
  ghost predicate SortedDesc<T>(s: seq<T>, score: T -> real)
  {
    forall i, j | 0 <= i < j < |s| :: score(s[i]) >= score(s[j])
  }

  /** Inserts `x` after every element whose score is at least its own. */
  function Insert<T(==)>(t: seq<T>, x: T, score: T -> real): (r: seq<T>)
    ensures |r| == |t| + 1
    ensures multiset(r) == multiset(t) + multiset{x}
    ensures SortedDesc(t, score) ==> SortedDesc(r, score)
  {
    if t == [] then [x]
    else if score(t[0]) < score(x) then
      assert SortedDesc(t, score) ==> SortedDesc([x] + t, score) by {
        if SortedDesc(t, score) {
          SortedCons(x, t, score);
        }
      }
      [x] + t
    else
      var rest := Insert(t[1..], x, score);
      assert t == [t[0]] + t[1..];
      assert SortedDesc(t, score) ==> SortedDesc([t[0]] + rest, score) by {
        if SortedDesc(t, score) {
          SortedTail(t, score);
          HeadStaysAhead(t, x, score, rest);
        }
      }
      [t[0]] + rest
  }

  /** Inserting below the head of a sorted sequence keeps the head first. */
  lemma HeadStaysAhead<T>(t: seq<T>, x: T, score: T -> real, rest: seq<T>)
    requires t != [] && SortedDesc(t, score) && score(x) <= score(t[0])
    requires SortedDesc(rest, score) && multiset(rest) == multiset(t[1..]) + multiset{x}
    ensures SortedDesc([t[0]] + rest, score)
  {
    forall y | y in rest ensures score(y) <= score(t[0]) {
      assert y in multiset(rest);
      if y != x {
        assert y in t[1..];
        var j :| 0 <= j < |t[1..]| && t[1..][j] == y;
        assert t[j + 1] == y;
      }
    }
    SortedCons(t[0], rest, score);
  }

  /** A sorted sequence stays sorted under a new head that scores at least
      as much as the sequence's own head. */
  lemma SortedCons<T>(y: T, s: seq<T>, score: T -> real)
    requires SortedDesc(s, score)
    requires s != [] ==> score(s[0]) <= score(y)
    ensures SortedDesc([y] + s, score)
  {
    var r := [y] + s;
    forall i, j | 0 <= i < j < |r| ensures score(r[i]) >= score(r[j]) {
      assert r[j] == s[j - 1];
      if i > 0 {
        assert r[i] == s[i - 1];
      }
    }
  }

  /** `s.sort((a, b) => score(b) - score(a))`: a stable insertion sort,
      non-increasing by score. */
  function SortDesc<T(==)>(s: seq<T>, score: T -> real): (r: seq<T>)
    ensures |r| == |s|
    ensures multiset(r) == multiset(s)
    ensures SortedDesc(r, score)
  {
    if s == [] then []
    else
      assert s == s[..|s| - 1] + [s[|s| - 1]];
      Insert(SortDesc(s[..|s| - 1], score), s[|s| - 1], score)
  }

  /** The predicate "scores exactly `v`". */
  function ScoreIs<T>(score: T -> real, v: real): T -> bool
  {
    y => score(y) == v
  }

  /** Filtering a sequence with an extra element in front. */
  lemma FilterCons<T>(y: T, s: seq<T>, p: T -> bool)
    ensures Filter([y] + s, p) == (if p(y) then [y] else []) + Filter(s, p)
  {
    assert ([y] + s)[0] == y;
    assert ([y] + s)[1..] == s;
  }

  /** Inserting into a sorted sequence puts `x` after all elements of equal
      score, so among elements of one score it lands last. */
  lemma {:induction false} InsertKeepsTies<T>(t: seq<T>, x: T, score: T -> real, v: real)
    requires SortedDesc(t, score)
    decreases |t|, 1
    ensures Filter(Insert(t, x, score), ScoreIs(score, v))
         == Filter(t, ScoreIs(score, v)) + (if score(x) == v then [x] else [])
  {
    var eqv := ScoreIs(score, v);
    if t == [] {
      assert Insert(t, x, score) == [x];
    } else if score(t[0]) < score(x) {
      assert Insert(t, x, score) == [x] + t;
      FilterCons(x, t, eqv);
      if score(x) == v {
        NoneAbove(t, score, v);
      }
    } else {
      InsertKeepsTiesTail(t, x, score, v);
    }
  }

  lemma {:induction false} InsertKeepsTiesTail<T>(t: seq<T>, x: T, score: T -> real, v: real)
    requires SortedDesc(t, score)
    requires t != [] && score(t[0]) >= score(x)
    ensures Filter(Insert(t, x, score), ScoreIs(score, v))
         == Filter(t, ScoreIs(score, v)) + (if score(x) == v then [x] else [])
    decreases |t|, 0
  {
    var eqv := ScoreIs(score, v);
    var rest := Insert(t[1..], x, score);
    var head := if eqv(t[0]) then [t[0]] else [];
    var tail := if score(x) == v then [x] else [];
    assert Insert(t, x, score) == [t[0]] + rest;
    SortedTail(t, score);
    InsertKeepsTies(t[1..], x, score, v);
    FilterCons(t[0], rest, eqv);
    assert Filter(t, eqv) == head + Filter(t[1..], eqv);
    ConcatAssoc(head, Filter(t[1..], eqv), tail);
    calc {
      Filter(Insert(t, x, score), eqv);
      head + Filter(rest, eqv);
      head + (Filter(t[1..], eqv) + tail);
      (head + Filter(t[1..], eqv)) + tail;
      Filter(t, eqv) + tail;
    }
  }

  lemma ConcatAssoc<T>(a: seq<T>, b: seq<T>, c: seq<T>)
    ensures a + (b + c) == (a + b) + c
  {
  }

  lemma SortedTail<T>(t: seq<T>, score: T -> real)
    requires t != [] && SortedDesc(t, score)
    ensures SortedDesc(t[1..], score)
  {
    forall i, j | 0 <= i < j < |t[1..]| ensures score(t[1..][i]) >= score(t[1..][j]) {
      assert t[1..][i] == t[i + 1] && t[1..][j] == t[j + 1];
    }
  }

  /** In a sorted sequence whose head scores below `v`, nothing scores `v`. */
  lemma {:induction false} NoneAbove<T>(t: seq<T>, score: T -> real, v: real)
    requires SortedDesc(t, score)
    requires t != [] && score(t[0]) < v
    ensures Filter(t, ScoreIs(score, v)) == []
  {
    if |t| > 1 {
      SortedTail(t, score);
      assert score(t[1]) <= score(t[0]);
      NoneAbove(t[1..], score, v);
    }
  }

  /** Stability: for every score, the elements of that score appear in the
      sorted result exactly as they appear in the input. */
  lemma {:induction false} SortDescStable<T>(s: seq<T>, score: T -> real, v: real)
    ensures Filter(SortDesc(s, score), ScoreIs(score, v)) == Filter(s, ScoreIs(score, v))
  {
    if s != [] {
      var init, last := s[..|s| - 1], s[|s| - 1];
      assert s == init + [last];
      SortDescStable(init, score, v);
      InsertKeepsTies(SortDesc(init, score), last, score, v);
      FilterSnoc(init, last, ScoreIs(score, v));
    }
  }

  /** `s.sort(byScoreDescending).slice(0, n)`: the `n` best-scoring
      elements, best first. */
  function Top<T(==)>(s: seq<T>, score: T -> real, n: nat): (r: seq<T>)
    ensures |r| <= n && |r| <= |s|
    ensures |s| >= n ==> |r| == n
    ensures |s| <= n ==> |r| == |s|
    ensures SortedDesc(r, score)
    ensures multiset(r) <= multiset(s)
  {
    var sorted := SortDesc(s, score);
    var r := Take(sorted, n);
    assert r == sorted[..|r|];
    SplitMultiset(sorted, |r|);
    r
  }

  /** Nothing left out of `Top` scores above anything kept. */
  lemma TopIsHighest<T>(s: seq<T>, score: T -> real, n: nat)
    ensures var r := Top(s, score, n);
            forall x, y | x in multiset(s) - multiset(r) && y in r :: score(x) <= score(y)
  {
    var sorted := SortDesc(s, score);
    var r := Top(s, score, n);
    SplitMultiset(sorted, |r|);
    forall x, y | x in multiset(s) - multiset(r) && y in r ensures score(x) <= score(y) {
      SortedSplit(sorted, |r|, score, x, y);
    }
  }

  lemma SplitMultiset<T>(s: seq<T>, k: nat)
    requires k <= |s|
    ensures multiset(s) == multiset(s[..k]) + multiset(s[k..])
  {
    assert s == s[..k] + s[k..];
  }

  /** In a sorted sequence, whatever comes after position `k` scores no
      higher than whatever comes before it. */
  lemma SortedSplit<T>(sorted: seq<T>, k: nat, score: T -> real, x: T, y: T)
    requires SortedDesc(sorted, score) && k <= |sorted|
    requires x in multiset(sorted[k..]) && y in sorted[..k]
    ensures score(x) <= score(y)
  {
    assert x in sorted[k..];
    var a :| 0 <= a < |sorted[k..]| && sorted[k..][a] == x;
    var b :| 0 <= b < k && sorted[..k][b] == y;
    assert sorted[k + a] == x && sorted[b] == y;
  }

  /** Ties keep their input order in `Top`: the elements of any one score
      that make the cut are the first ones of that score in the input. */
  lemma TopKeepsTieOrder<T>(s: seq<T>, score: T -> real, n: nat, v: real)
    ensures Filter(Top(s, score, n), ScoreIs(score, v)) <= Filter(s, ScoreIs(score, v))
  {
    var sorted := SortDesc(s, score);
    var r := Top(s, score, n);
    assert sorted == r + sorted[|r|..];
    FilterAppend(r, sorted[|r|..], ScoreIs(score, v));
    SortDescStable(s, score, v);
  }
}
