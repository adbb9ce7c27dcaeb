/** The shapes the in-memory services share: an array capped by dropping its
    oldest entry, a `Map<string, number>` of counters kept in insertion order,
    and the ranking of the ten largest counters: the map's entries in
    insertion order, stably sorted by count from largest to smallest, cut
    to the first ten. */
module Stores {
  import opened JsCore

  /** `buffer.push(x); if (buffer.length > cap) buffer.shift();`. */
  function PushBounded<T>(buffer: seq<T>, x: T, cap: nat): (r: seq<T>)
    requires cap > 0
    ensures |r| > 0 && r[|r| - 1] == x
    ensures |buffer| < cap ==> r == buffer + [x]
    ensures |buffer| >= cap ==> |r| == |buffer| && r == (buffer + [x])[1..]
  {
    var pushed := buffer + [x];
    if |pushed| > cap then pushed[1..] else pushed
  }

  /** On a buffer within its cap, pushing keeps exactly the `cap` newest
      entries: the same as `slice(-cap)` of everything pushed so far. */
  lemma PushKeepsNewest<T>(buffer: seq<T>, x: T, cap: nat)
    requires |buffer| <= cap && cap > 0
    ensures PushBounded(buffer, x, cap) == LastUpTo(buffer + [x], cap)
    ensures |PushBounded(buffer, x, cap)| <= cap
  {
  }

  /** `array.filter(keep)`: the entries that pass, in their original order. */
  function Filter<T>(s: seq<T>, keep: T -> bool): (r: seq<T>)
    ensures |r| <= |s|
  {
    if s == [] then []
    else
      var last := s[|s| - 1];
      Filter(s[..|s| - 1], keep) + (if keep(last) then [last] else [])
  }

  /** An entry is in the filtered array iff it was in the array and passes. */
  lemma {:induction false} FilterMembers<T>(s: seq<T>, keep: T -> bool)
    ensures forall x :: x in Filter(s, keep) <==> x in s && keep(x)
  {
    if s != [] {
      FilterMembers(s[..|s| - 1], keep);
      assert s == s[..|s| - 1] + [s[|s| - 1]];
    }
  }

  /** Filtering distributes over concatenation, so it keeps the order. */
  lemma {:induction false} FilterAppend<T>(a: seq<T>, b: seq<T>, keep: T -> bool)
    ensures Filter(a + b, keep) == Filter(a, keep) + Filter(b, keep)
    decreases |b|
  {
    if b == [] {
      assert a + b == a;
    } else {
      var ab := a + b;
      assert ab[..|ab| - 1] == a + b[..|b| - 1];
      assert ab[|ab| - 1] == b[|b| - 1];
      FilterAppend(a, b[..|b| - 1], keep);
    }
  }

  /** Filtering twice with the same test filters once. */
  lemma {:induction false} FilterIdempotent<T>(s: seq<T>, keep: T -> bool)
    ensures Filter(Filter(s, keep), keep) == Filter(s, keep)
  {
    if s != [] {
      var prefix := s[..|s| - 1];
      var last := s[|s| - 1];
      FilterIdempotent(prefix, keep);
      FilterAppend(Filter(prefix, keep), if keep(last) then [last] else [], keep);
      if keep(last) {
        assert [last][..0] == [];
      }
    }
  }

  /** One counter of a `Map<string, number>`. */
  datatype Entry = Entry(key: string, count: nat)

  /** The keys of a counter map, in insertion order, are distinct. */
  predicate DistinctKeys(c: seq<Entry>)
  {
    forall i, j :: 0 <= i < j < |c| ==> c[i].key != c[j].key
  }

  /** The position of `key`, or `|c|` when it has no counter. */
  function IndexOf(c: seq<Entry>, key: string): (i: nat)
    ensures i <= |c|
    ensures i < |c| ==> c[i].key == key
    ensures forall j :: 0 <= j < i ==> c[j].key != key
  {
    if c == [] then 0
    else if c[0].key == key then 0
    else 1 + IndexOf(c[1..], key)
  }

  /** `map.get(key) || 0`. */
  function Get(c: seq<Entry>, key: string): nat
  {
    var i := IndexOf(c, key);
    if i < |c| then c[i].count else 0
  }

  /** `map.set(key, (map.get(key) || 0) + 1)`: an existing key keeps its
      place, a new key goes last. */
  function Increment(c: seq<Entry>, key: string): (r: seq<Entry>)
    requires DistinctKeys(c)
    ensures DistinctKeys(r)
    ensures Get(r, key) == Get(c, key) + 1
    ensures forall k :: k != key ==> Get(r, k) == Get(c, k)
    ensures IndexOf(c, key) == |c| ==> r == c + [Entry(key, 1)]
    ensures IndexOf(c, key) < |c| ==> |r| == |c| && forall j :: 0 <= j < |c| ==> r[j].key == c[j].key
  {
    var i := IndexOf(c, key);
    if i < |c| then
      var r := c[i := Entry(key, c[i].count + 1)];
      assert forall k :: IndexOf(r, k) == IndexOf(c, k) by {
        forall k ensures IndexOf(r, k) == IndexOf(c, k) {
          SameKeysSameIndex(c, r, k);
        }
      }
      r
    else
      var r := c + [Entry(key, 1)];
      assert forall k :: k != key ==> Get(r, k) == Get(c, k) by {
        forall k | k != key ensures Get(r, k) == Get(c, k) {
          IndexOfAppend(c, Entry(key, 1), k);
        }
      }
      IndexOfAppend(c, Entry(key, 1), key);
      r
  }

  /** Two counter lists with the same keys in the same places find every key
      at the same place. */
  lemma {:induction false} SameKeysSameIndex(a: seq<Entry>, b: seq<Entry>, key: string)
    requires |a| == |b| && forall j :: 0 <= j < |a| ==> a[j].key == b[j].key
    ensures IndexOf(a, key) == IndexOf(b, key)
    decreases |a|
  {
    if a != [] && a[0].key != key {
      SameKeysSameIndex(a[1..], b[1..], key);
    }
  }

  /** Appending an entry does not move the keys already present. */
  lemma {:induction false} IndexOfAppend(c: seq<Entry>, e: Entry, key: string)
    ensures IndexOf(c, key) < |c| ==> IndexOf(c + [e], key) == IndexOf(c, key)
    ensures IndexOf(c, key) == |c| ==> IndexOf(c + [e], key) == if e.key == key then |c| else |c| + 1
    decreases |c|
  {
    if c != [] && c[0].key != key {
      assert (c + [e])[1..] == c[1..] + [e];
      IndexOfAppend(c[1..], e, key);
    }
  }

  /** Counts that never go up along the list. */
  predicate SortedByCount(s: seq<Entry>)
  {
    forall i, j :: 0 <= i < j < |s| ==> s[i].count >= s[j].count
  }

  /** Places `e` after every entry whose count is at least its own, so that
      entries with equal counts keep their order of arrival. */
  function InsertByCount(s: seq<Entry>, e: Entry): (r: seq<Entry>)
    requires SortedByCount(s)
    ensures SortedByCount(r)
    ensures multiset(r) == multiset(s) + multiset{e}
    ensures |r| == |s| + 1
    ensures forall x :: x in r ==> x in s || x == e
  {
    if s == [] then [e]
    else if s[0].count >= e.count then
      var rest := InsertByCount(s[1..], e);
      var r := [s[0]] + rest;
      assert s == [s[0]] + s[1..];
      HeadBoundsSorted(s[0], rest);
      r
    else
      HeadBoundsSorted(e, s);
      [e] + s
  }

  /** A head no smaller than every entry of a sorted tail keeps the list sorted. */
  lemma HeadBoundsSorted(head: Entry, tail: seq<Entry>)
    requires SortedByCount(tail)
    requires forall x :: x in tail ==> x.count <= head.count
    ensures SortedByCount([head] + tail)
  {
    var r := [head] + tail;
    forall i, j | 0 <= i < j < |r| ensures r[i].count >= r[j].count {
      assert r[j] == tail[j - 1];
      if i > 0 {
        assert r[i] == tail[i - 1];
      }
    }
  }

  /** A stable sort by count, largest first. */
  function SortByCount(s: seq<Entry>): (r: seq<Entry>)
    ensures SortedByCount(r)
    ensures multiset(r) == multiset(s)
    ensures |r| == |s|
  {
    if s == [] then []
    else
      assert s == s[..|s| - 1] + [s[|s| - 1]];
      InsertByCount(SortByCount(s[..|s| - 1]), s[|s| - 1])
  }

  /** The entries with count `c`, in list order. */
  function WithCount(s: seq<Entry>, c: nat): seq<Entry>
  {
    if s == [] then [] else (if s[0].count == c then [s[0]] else []) + WithCount(s[1..], c)
  }

  lemma {:induction false} WithCountAppend(a: seq<Entry>, b: seq<Entry>, c: nat)
    ensures WithCount(a + b, c) == WithCount(a, c) + WithCount(b, c)
  {
    if a == [] {
      assert a + b == b;
    } else {
      assert (a + b)[0] == a[0] && (a + b)[1..] == a[1..] + b;
      WithCountAppend(a[1..], b, c);
    }
  }

  lemma WithCountSnoc(init: seq<Entry>, last: Entry, c: nat)
    ensures WithCount(init + [last], c) == WithCount(init, c) + (if last.count == c then [last] else [])
  {
    WithCountAppend(init, [last], c);
    assert [last][1..] == [];
  }

  lemma WithCountLast(s: seq<Entry>, c: nat)
    requires s != []
    ensures WithCount(s, c) == WithCount(s[..|s| - 1], c) + (if s[|s| - 1].count == c then [s[|s| - 1]] else [])
  {
    assert s == s[..|s| - 1] + [s[|s| - 1]];
    WithCountSnoc(s[..|s| - 1], s[|s| - 1], c);
  }

  /** A sorted list whose head is below `c` has no entry of count `c`. */
  lemma {:induction false} WithCountBelowHead(s: seq<Entry>, c: nat)
    requires SortedByCount(s) && s != [] && s[0].count < c
    ensures WithCount(s, c) == []
  {
    if |s| > 1 {
      assert s[1] == s[1..][0];
      WithCountBelowHead(s[1..], c);
    }
  }

  lemma WithCountCons(x: Entry, rest: seq<Entry>, c: nat)
    ensures WithCount([x] + rest, c) == (if x.count == c then [x] else []) + WithCount(rest, c)
  {
    assert ([x] + rest)[0] == x && ([x] + rest)[1..] == rest;
  }

  /** Inserting `e` puts it after every entry of equal count. */
  lemma {:induction false} InsertKeepsTies(s: seq<Entry>, e: Entry, c: nat)
    requires SortedByCount(s)
    ensures WithCount(InsertByCount(s, e), c) == WithCount(s, c) + (if e.count == c then [e] else [])
  {
    if s == [] {
      WithCountCons(e, [], c);
    } else if s[0].count >= e.count {
      InsertKeepsTies(s[1..], e, c);
      WithCountCons(s[0], InsertByCount(s[1..], e), c);
    } else {
      WithCountCons(e, s, c);
      if e.count == c {
        WithCountBelowHead(s, c);
      }
    }
  }

  /** `SortByCount` inserts the last entry into the sorted rest. */
  lemma SortUnfolds(s: seq<Entry>)
    requires s != []
    ensures SortByCount(s) == InsertByCount(SortByCount(s[..|s| - 1]), s[|s| - 1])
  {
  }

  /** The sort is stable: the entries of each count keep their order. */
  lemma {:induction false} SortKeepsTies(s: seq<Entry>, c: nat)
    ensures WithCount(SortByCount(s), c) == WithCount(s, c)
  {
    if s != [] {
      var init := s[..|s| - 1];
      var last := s[|s| - 1];
      SortUnfolds(s);
      SortKeepsTies(init, c);
      InsertKeepsTies(SortByCount(init), last, c);
      WithCountLast(s, c);
    }
  }

  /** How many entries a ranking keeps. */
  const TopSize: nat := 10

  /** The ten largest counters, largest first. */
  function Top(c: seq<Entry>): (r: seq<Entry>)
    ensures |r| == Min(TopSize, |c|)
    ensures SortedByCount(r)
    ensures multiset(r) <= multiset(c)
    ensures forall x, y :: x in multiset(c) - multiset(r) && y in r ==> x.count <= y.count
  {
    var sorted := SortByCount(c);
    var n := Min(TopSize, |c|);
    PrefixIsLargest(sorted, n);
    sorted[..n]
  }

  /** Splitting a list splits its multiset. */
  lemma SplitMultiset<T>(s: seq<T>, n: nat)
    requires n <= |s|
    ensures multiset(s) == multiset(s[..n]) + multiset(s[n..])
    ensures multiset(s) - multiset(s[..n]) == multiset(s[n..])
  {
    assert s == s[..n] + s[n..];
  }

  /** A prefix of a sorted list is sorted. */
  lemma PrefixSorted(sorted: seq<Entry>, n: nat)
    requires SortedByCount(sorted) && n <= |sorted|
    ensures SortedByCount(sorted[..n])
  {
    forall i, j | 0 <= i < j < n ensures sorted[..n][i].count >= sorted[..n][j].count {
      assert sorted[..n][i] == sorted[i] && sorted[..n][j] == sorted[j];
    }
  }

  /** An entry behind the cut is no larger than one before it. */
  lemma BehindTheCut(sorted: seq<Entry>, n: nat, x: Entry, y: Entry)
    requires SortedByCount(sorted) && n <= |sorted|
    requires x in sorted[n..] && y in sorted[..n]
    ensures x.count <= y.count
  {
    var j :| 0 <= j < |sorted[n..]| && sorted[n..][j] == x;
    var i :| 0 <= i < n && sorted[..n][i] == y;
    assert sorted[i] == y && sorted[n + j] == x;
  }

  /** A prefix of a sorted list holds its largest entries. */
  lemma PrefixIsLargest(sorted: seq<Entry>, n: nat)
    requires SortedByCount(sorted) && n <= |sorted|
    ensures SortedByCount(sorted[..n])
    ensures multiset(sorted[..n]) <= multiset(sorted)
    ensures forall x, y :: x in multiset(sorted) - multiset(sorted[..n]) && y in sorted[..n] ==> x.count <= y.count
  {
    SplitMultiset(sorted, n);
    PrefixSorted(sorted, n);
    forall x, y | x in multiset(sorted) - multiset(sorted[..n]) && y in sorted[..n] ensures x.count <= y.count {
      assert x in multiset(sorted[n..]);
      BehindTheCut(sorted, n, x, y);
    }
  }

  /** Every ranked entry is a real counter of the map. */
  lemma TopEntriesAreCounters(c: seq<Entry>, e: Entry)
    requires e in Top(c)
    ensures e in c
  {
    assert e in multiset(Top(c));
  }
}
