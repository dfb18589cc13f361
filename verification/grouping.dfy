/** The grouping step shared by the three rankings: a `forEach` that adds
    one to `stats[key]` (creating the entry on first sight) and counts the
    records satisfying a test, read back through `Object.entries`.

    `Object.entries` lists integer-like keys first, in ascending numeric
    order, and then the other string keys in insertion order (section
    10.1.11.1 of ECMA-262). The model assumes no key is integer-like, so
    the entries come out in the order their keys were first seen. */
module Grouping {
  import opened Seqs

  /** One `Object.entries` entry: a key, how many records had it, and how
      many of those passed the test (`closed` or `converted`). */
  datatype Tally = Tally(key: string, total: nat, hits: nat)

  /** Some entry of `ts` has key `k`. */
  predicate HasKey(ts: seq<Tally>, k: string)
  {
    exists i | 0 <= i < |ts| :: ts[i].key == k
  }

  predicate DistinctKeys(ts: seq<Tally>)
  {
    forall i, j | 0 <= i < j < |ts| :: ts[i].key != ts[j].key
  }

  /** Counts one more record with key `k`, which passed the test if `hit`:
      the entry for `k` is incremented in place, or a new entry is added at
      the end. */
  function Bump(ts: seq<Tally>, k: string, hit: bool): (r: seq<Tally>)
    requires DistinctKeys(ts)
    ensures DistinctKeys(r)
    ensures HasKey(ts, k) ==> |r| == |ts|
    ensures !HasKey(ts, k) ==> |r| == |ts| + 1 && r[|ts|] == Tally(k, 1, if hit then 1 else 0)
    ensures forall i | 0 <= i < |ts| ::
              r[i] == if ts[i].key == k
                      then Tally(k, ts[i].total + 1, ts[i].hits + if hit then 1 else 0)
                      else ts[i]
  {
    var bumped := seq(|ts|, i requires 0 <= i < |ts| =>
                        if ts[i].key == k
                        then Tally(k, ts[i].total + 1, ts[i].hits + if hit then 1 else 0)
                        else ts[i]);
    assert forall i | 0 <= i < |ts| :: bumped[i].key == ts[i].key;
    if HasKey(ts, k) then bumped else bumped + [Tally(k, 1, if hit then 1 else 0)]
  }

  /** The entries after a `forEach` over `s`. */
  function GroupBy<T>(s: seq<T>, key: T -> string, hit: T -> bool): (r: seq<Tally>)
    ensures DistinctKeys(r)
  {
    if s == [] then []
    else Bump(GroupBy(s[..|s| - 1], key, hit), key(s[|s| - 1]), hit(s[|s| - 1]))
  }

  function KeyIs<T>(key: T -> string, k: string): T -> bool
  {
    x => key(x) == k
  }

  function KeyAndHit<T>(key: T -> string, hit: T -> bool, k: string): T -> bool
  {
    x => key(x) == k && hit(x)
  }

  /** The position of the first record of `s` with key `k`. */
  function FirstIndex<T>(s: seq<T>, key: T -> string, k: string): (i: nat)
    requires exists j | 0 <= j < |s| :: key(s[j]) == k
    ensures i < |s| && key(s[i]) == k
    ensures forall j | 0 <= j < i :: key(s[j]) != k
  {
    if key(s[0]) == k then 0
    else
      assert exists j | 0 <= j < |s[1..]| :: key(s[1..][j]) == k by {
        var j :| 0 <= j < |s| && key(s[j]) == k;
        assert s[1..][j - 1] == s[j];
      }
      1 + FirstIndex(s[1..], key, k)
  }

  function TotalOf(ts: seq<Tally>): nat
  {
    if ts == [] then 0 else ts[0].total + TotalOf(ts[1..])
  }

  // ---------------------------------------------------------------------
  // Properties

  /** Entry `t` holds the counts of its key among the records `s`. */
  ghost predicate EntryMatches<T>(s: seq<T>, key: T -> string, hit: T -> bool, t: Tally)
  {
    && t.total == Count(s, KeyIs(key, t.key))
    && t.hits == Count(s, KeyAndHit(key, hit, t.key))
  }

  /** Every entry's counts are those of its key: `total` records have it,
      `hits` of them pass the test. */
  lemma {:induction false} GroupByCounts<T>(s: seq<T>, key: T -> string, hit: T -> bool)
    ensures forall t | t in GroupBy(s, key, hit) :: EntryMatches(s, key, hit, t)
  {
    if s != [] {
      var init, x := s[..|s| - 1], s[|s| - 1];
      assert s == init + [x];
      GroupByCounts(init, key, hit);
      GroupByKeys(init, key, hit);
      var prev := GroupBy(init, key, hit);
      var r := GroupBy(s, key, hit);
      assert r == Bump(prev, key(x), hit(x));
      forall t | t in r ensures EntryMatches(s, key, hit, t) {
        var i :| 0 <= i < |r| && r[i] == t;
        if i < |prev| {
          assert prev[i] in prev;
          StepEntry(init, x, key, hit, prev[i], t);
        } else {
          assert !HasKey(prev, key(x));
          NewEntry(init, x, key, hit);
        }
      }
    }
  }

  lemma StepEntry<T>(init: seq<T>, x: T, key: T -> string, hit: T -> bool, old_: Tally, t: Tally)
    requires EntryMatches(init, key, hit, old_)
    requires t == if old_.key == key(x)
                   then Tally(old_.key, old_.total + 1, old_.hits + if hit(x) then 1 else 0)
                   else old_
    ensures EntryMatches(init + [x], key, hit, t)
  {
    FilterSnoc(init, x, KeyIs(key, t.key));
    FilterSnoc(init, x, KeyAndHit(key, hit, t.key));
  }

  lemma NewEntry<T>(init: seq<T>, x: T, key: T -> string, hit: T -> bool)
    requires forall j | 0 <= j < |init| :: key(init[j]) != key(x)
    ensures EntryMatches(init + [x], key, hit, Tally(key(x), 1, if hit(x) then 1 else 0))
  {
    FilterSnoc(init, x, KeyIs(key, key(x)));
    FilterSnoc(init, x, KeyAndHit(key, hit, key(x)));
    CountNone(init, KeyIs(key, key(x)));
    CountNone(init, KeyAndHit(key, hit, key(x)));
  }

  /** Hence every entry counts at least one record, and no more hits than
      records. */
  lemma EntryBounds<T>(s: seq<T>, key: T -> string, hit: T -> bool, t: Tally)
    requires t in GroupBy(s, key, hit)
    ensures 1 <= t.total && t.hits <= t.total
  {
    GroupByCounts(s, key, hit);
    GroupByKeys(s, key, hit);
    assert HasKey(GroupBy(s, key, hit), t.key);
    var j :| 0 <= j < |s| && key(s[j]) == t.key;
    assert s[j] in Filter(s, KeyIs(key, t.key));
    CountMonotone(s, KeyAndHit(key, hit, t.key), KeyIs(key, t.key));
  }

  /** The entries' keys are exactly the keys of the records. */
  lemma {:induction false} GroupByKeys<T>(s: seq<T>, key: T -> string, hit: T -> bool)
    ensures forall k :: HasKey(GroupBy(s, key, hit), k) <==> Occurs(s, key, k)
  {
    if s != [] {
      var init, x := s[..|s| - 1], s[|s| - 1];
      assert s == init + [x];
      GroupByKeys(init, key, hit);
      var prev := GroupBy(init, key, hit);
      forall k ensures HasKey(GroupBy(s, key, hit), k) <==> Occurs(s, key, k) {
        BumpKeys(prev, key(x), hit(x), k);
        OccursSnoc(init, x, key, k);
      }
    }
  }

  /** Bumping `k` adds the key `k` and no other. */
  lemma BumpKeys(ts: seq<Tally>, k: string, hit: bool, k': string)
    requires DistinctKeys(ts)
    ensures HasKey(Bump(ts, k, hit), k') <==> HasKey(ts, k') || k' == k
  {
    if HasKey(ts, k') || k' == k {
      BumpKeepsKeys(ts, k, hit, k');
    }
    if HasKey(Bump(ts, k, hit), k') && k' != k {
      BumpAddsOnly(ts, k, hit, k');
    }
  }

  lemma BumpKeepsKeys(ts: seq<Tally>, k: string, hit: bool, k': string)
    requires DistinctKeys(ts)
    requires HasKey(ts, k') || k' == k
    ensures HasKey(Bump(ts, k, hit), k')
  {
    var r := Bump(ts, k, hit);
    if HasKey(ts, k') {
      var i :| 0 <= i < |ts| && ts[i].key == k';
      assert r[i].key == k';
    } else {
      assert r[|ts|].key == k';
    }
  }

  lemma BumpAddsOnly(ts: seq<Tally>, k: string, hit: bool, k': string)
    requires DistinctKeys(ts)
    requires HasKey(Bump(ts, k, hit), k') && k' != k
    ensures HasKey(ts, k')
  {
    var r := Bump(ts, k, hit);
    var i :| 0 <= i < |r| && r[i].key == k';
    assert i < |ts| && ts[i].key == k';
  }

  /** A key occurs in `s + [x]` when it occurs in `s` or is the key of `x`. */
  lemma OccursSnoc<T>(s: seq<T>, x: T, key: T -> string, k: string)
    ensures Occurs(s + [x], key, k) <==> Occurs(s, key, k) || key(x) == k
  {
    var t := s + [x];
    if Occurs(s, key, k) {
      var a :| 0 <= a < |s| && key(s[a]) == k;
      assert t[a] == s[a];
    }
    if key(x) == k {
      assert t[|s|] == x;
    }
    if Occurs(t, key, k) && key(x) != k {
      var a :| 0 <= a < |t| && key(t[a]) == k;
      assert a < |s| && t[a] == s[a];
    }
  }

  /** The entries' totals add up to the number of records. */
  lemma {:induction false} GroupByTotal<T>(s: seq<T>, key: T -> string, hit: T -> bool)
    ensures TotalOf(GroupBy(s, key, hit)) == |s|
  {
    if s != [] {
      var init, x := s[..|s| - 1], s[|s| - 1];
      GroupByTotal(init, key, hit);
      BumpTotal(GroupBy(init, key, hit), key(x), hit(x));
    }
  }

  lemma {:induction false} BumpTotal(ts: seq<Tally>, k: string, hit: bool)
    requires DistinctKeys(ts)
    ensures TotalOf(Bump(ts, k, hit)) == TotalOf(ts) + 1
  {
    if ts != [] {
      BumpCons(ts, k, hit);
      if ts[0].key != k {
        BumpTotal(ts[1..], k, hit);
      }
    }
  }

  /** `Bump` on a non-empty sequence, one entry at a time: the head is
      bumped and the rest left alone, or the head is kept and the rest
      bumped. */
  lemma BumpCons(ts: seq<Tally>, k: string, hit: bool)
    requires ts != [] && DistinctKeys(ts)
    ensures DistinctKeys(ts[1..])
    ensures Bump(ts, k, hit)
         == if ts[0].key == k
            then [Tally(k, ts[0].total + 1, ts[0].hits + if hit then 1 else 0)] + ts[1..]
            else [ts[0]] + Bump(ts[1..], k, hit)
  {
    DistinctTail(ts);
    if ts[0].key == k {
      BumpHead(ts, k, hit);
    } else {
      BumpSkip(ts, k, hit);
    }
  }

  lemma DistinctTail(ts: seq<Tally>)
    requires ts != [] && DistinctKeys(ts)
    ensures DistinctKeys(ts[1..])
  {
    var tail := ts[1..];
    forall i, j | 0 <= i < j < |tail| ensures tail[i].key != tail[j].key {
      assert tail[i] == ts[i + 1] && tail[j] == ts[j + 1];
    }
  }

  lemma BumpHead(ts: seq<Tally>, k: string, hit: bool)
    requires ts != [] && DistinctKeys(ts) && ts[0].key == k
    ensures Bump(ts, k, hit) == [Tally(k, ts[0].total + 1, ts[0].hits + if hit then 1 else 0)] + ts[1..]
  {
    var r := Bump(ts, k, hit);
    var e := [Tally(k, ts[0].total + 1, ts[0].hits + if hit then 1 else 0)] + ts[1..];
    assert HasKey(ts, k);
    forall i | 0 <= i < |r| ensures r[i] == e[i] {
      if i > 0 {
        assert ts[i].key != ts[0].key;
        assert e[i] == ts[i];
      }
    }
    assert r == e;
  }

  lemma HasKeyTail(ts: seq<Tally>, k: string)
    requires ts != [] && ts[0].key != k
    ensures HasKey(ts, k) <==> HasKey(ts[1..], k)
  {
    if HasKey(ts, k) {
      var i :| 0 <= i < |ts| && ts[i].key == k;
      assert ts[1..][i - 1].key == k;
    }
    if HasKey(ts[1..], k) {
      var i :| 0 <= i < |ts[1..]| && ts[1..][i].key == k;
      assert ts[i + 1].key == k;
    }
  }

  lemma BumpSkip(ts: seq<Tally>, k: string, hit: bool)
    requires ts != [] && DistinctKeys(ts) && ts[0].key != k
    requires DistinctKeys(ts[1..])
    ensures Bump(ts, k, hit) == [ts[0]] + Bump(ts[1..], k, hit)
  {
    var tail := ts[1..];
    HasKeyTail(ts, k);
    var r := Bump(ts, k, hit);
    var e := [ts[0]] + Bump(tail, k, hit);
    assert |r| == |e|;
    forall i | 0 <= i < |r| ensures r[i] == e[i] {
      if 0 < i < |ts| {
        assert e[i] == Bump(tail, k, hit)[i - 1];
        assert tail[i - 1] == ts[i];
      } else if i == |ts| {
        assert e[i] == Bump(tail, k, hit)[|tail|];
      }
    }
    assert r == e;
  }

  /** The key is that of some record. */
  predicate Occurs<T>(s: seq<T>, key: T -> string, k: string)
  {
    exists a | 0 <= a < |s| :: key(s[a]) == k
  }

  /** Key `k1` first occurs among the records before key `k2` does. */
  predicate SeenBefore<T>(s: seq<T>, key: T -> string, k1: string, k2: string)
  {
    && Occurs(s, key, k1) && Occurs(s, key, k2)
    && FirstIndex(s, key, k1) < FirstIndex(s, key, k2)
  }

  /** Each entry's key first occurs before the keys of the entries after it. */
  predicate InFirstSeenOrder<T>(s: seq<T>, key: T -> string, ts: seq<Tally>)
  {
    forall i, j | 0 <= i < j < |ts| :: SeenBefore(s, key, ts[i].key, ts[j].key)
  }

  /** Entries come in the order their keys first occur among the records. */
  lemma {:induction false} GroupByFirstSeen<T>(s: seq<T>, key: T -> string, hit: T -> bool)
    ensures InFirstSeenOrder(s, key, GroupBy(s, key, hit))
  {
    if s != [] {
      var init, x := s[..|s| - 1], s[|s| - 1];
      assert s == init + [x];
      var prev := GroupBy(init, key, hit);
      var r := GroupBy(s, key, hit);
      GroupByFirstSeen(init, key, hit);
      GroupByKeys(init, key, hit);
      forall i, j | 0 <= i < j < |r| ensures SeenBefore(s, key, r[i].key, r[j].key) {
        assert prev[i].key == r[i].key;
        if j < |prev| {
          assert prev[j].key == r[j].key;
          assert SeenBefore(init, key, prev[i].key, prev[j].key);
          SeenBeforeExtend(init, x, key, r[i].key, r[j].key);
        } else {
          assert HasKey(prev, r[i].key);
          assert r[j].key == key(x) && !HasKey(prev, key(x));
          SeenBeforeNew(init, x, key, r[i].key);
        }
      }
    }
  }

  lemma SeenBeforeExtend<T>(s: seq<T>, x: T, key: T -> string, k1: string, k2: string)
    requires SeenBefore(s, key, k1, k2)
    ensures SeenBefore(s + [x], key, k1, k2)
  {
    FirstIndexPrefix(s, x, key, k1);
    FirstIndexPrefix(s, x, key, k2);
  }

  lemma SeenBeforeNew<T>(s: seq<T>, x: T, key: T -> string, k: string)
    requires Occurs(s, key, k) && !Occurs(s, key, key(x))
    ensures SeenBefore(s + [x], key, k, key(x))
  {
    FirstIndexPrefix(s, x, key, k);
    FirstIndexIsLast(s, x, key);
  }

  /** Adding a record at the end does not move the first occurrence of a
      key already present. */
  lemma {:induction false} FirstIndexPrefix<T>(s: seq<T>, x: T, key: T -> string, k: string)
    requires Occurs(s, key, k)
    ensures Occurs(s + [x], key, k)
    ensures FirstIndex(s + [x], key, k) == FirstIndex(s, key, k)
  {
    var j :| 0 <= j < |s| && key(s[j]) == k;
    assert (s + [x])[j] == s[j];
    if key(s[0]) != k {
      assert (s + [x])[1..] == s[1..] + [x];
      assert s[1..][j - 1] == s[j];
      FirstIndexPrefix(s[1..], x, key, k);
    }
  }

  /** A key first seen in the last record has its first occurrence there. */
  lemma FirstIndexIsLast<T>(s: seq<T>, x: T, key: T -> string)
    requires !Occurs(s, key, key(x))
    ensures Occurs(s + [x], key, key(x))
    ensures FirstIndex(s + [x], key, key(x)) == |s|
  {
    assert (s + [x])[|s|] == x;
    assert forall j | 0 <= j < |s| :: (s + [x])[j] == s[j];
  }
}
