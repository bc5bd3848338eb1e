/**
 * The bounded activity logs the agent keeps in options (API requests, email
 * activity, debug notices): append-and-truncate on write, newest-first and
 * limited on read.
 */
module Logs {
  import opened Php

  /** A log entry with the `time()` at which it was recorded. */
  datatype Stamped<T> = Stamped(timestamp: int, entry: T)

  /** One entry of the REST request log ('mrwp_api_log'), without its timestamp. */
  datatype ApiRequest = ApiRequest(
    httpMethod: string,
    route: string,
    params: map<string, Value>,
    userAgent: Option<string>,
    ip: string,
    responseStatus: string)

  /** One entry of the email activity log ('mrwp_email_log'), without its timestamp. */
  datatype EmailActivity = EmailActivity(action: string, data: seq<(string, Value)>)

  /** `array_slice($log, -$n)` once `count($log) > $n`: the $n most recent entries. */
  function KeepLast<T>(log: seq<T>, n: nat): (r: seq<T>)
    ensures |r| == if |log| > n then n else |log|
    ensures r == log[|log| - |r|..]
  {
    if |log| > n then log[|log| - n..] else log
  }

  /** `$log[] = $entry` followed by keeping the last $n. */
  function Append<T>(log: seq<T>, entry: T, n: nat): seq<T> {
    KeepLast(log + [entry], n)
  }

  /**
   * Appending to a bounded log: the new entry is the last one, preceded by
   * the n-1 most recent old entries in their original order.
   */
  lemma AppendKeepsNewest<T>(log: seq<T>, entry: T, n: nat)
    requires n > 0
    ensures var r := Append(log, entry, n);
      |r| <= n && r != [] && r[|r| - 1] == entry && r[..|r| - 1] == KeepLast(log, n - 1)
  {
    var r := Append(log, entry, n);
    var all := log + [entry];
    assert r == all[|all| - |r|..];
    assert r[..|r| - 1] == log[|log| - (|r| - 1)..];
  }

  /** An old log that was already within bound loses nothing when appended to. */
  lemma AppendWithinBound<T>(log: seq<T>, entry: T, n: nat)
    requires |log| < n
    ensures Append(log, entry, n) == log + [entry]
  {
  }

  /** Several appends to the same bounded log, one after another. */
  function AppendAll<T>(log: seq<T>, entries: seq<T>, n: nat): seq<T> {
    if entries == [] then log
    else Append(AppendAll(log, entries[..|entries| - 1], n), entries[|entries| - 1], n)
  }

  /** Keeping the last n of a sequence that ends with one at least n long ignores whatever precedes it. */
  lemma {:induction false} KeepLastOfSuffix<T>(p: seq<T>, a: seq<T>, b: seq<T>, n: nat)
    requires b == p + a && |a| >= n
    ensures KeepLast(b, n) == KeepLast(a, n)
  {
    if |b| > n {
      var tb := b[|b| - n..];
      var ta := a[|a| - n..];
      forall i | 0 <= i < n
        ensures tb[i] == ta[i]
      {
        assert tb[i] == b[|p| + (|a| - n + i)];
      }
      assert tb == ta;
    } else {
      assert p == [];
    }
  }

  /** Truncating before appending more loses nothing that truncating afterwards would keep. */
  lemma {:induction false} KeepLastThenAppend<T>(log: seq<T>, more: seq<T>, n: nat)
    ensures KeepLast(KeepLast(log, n) + more, n) == KeepLast(log + more, n)
  {
    if |log| > n {
      var p, last := log[..|log| - n], log[|log| - n..];
      assert log == p + last;
      var m := KeepLast(log, n) + more;
      assert m == last + more;
      assert log + more == p + (last + more);
      KeepLastOfSuffix(p, m, log + more, n);
    }
  }

  /**
   * Appending entries one at a time with truncation after each keeps the
   * same entries as appending them all and truncating once.
   */
  lemma {:induction false} AppendAllKeepsLast<T>(log: seq<T>, entries: seq<T>, n: nat)
    requires entries != []
    ensures AppendAll(log, entries, n) == KeepLast(log + entries, n)
  {
    var init := entries[..|entries| - 1];
    var last := entries[|entries| - 1];
    assert entries == init + [last];
    if init == [] {
      assert log + entries == log + [last];
    } else {
      AppendAllKeepsLast(log, init, n);
      KeepLastThenAppend(log + init, [last], n);
      assert log + init + [last] == log + entries;
    }
  }

  /** Appending a concatenation is appending its two parts in turn. */
  lemma {:induction false} AppendAllConcat<T>(log: seq<T>, a: seq<T>, b: seq<T>, n: nat)
    ensures AppendAll(log, a + b, n) == AppendAll(AppendAll(log, a, n), b, n)
  {
    if b == [] {
      assert a + b == a;
    } else {
      var init := b[..|b| - 1];
      assert (a + b)[..|a + b| - 1] == a + init;
      assert (a + b)[|a + b| - 1] == b[|b| - 1];
      AppendAllConcat(log, a, init, n);
    }
  }

  /**
   * `array_slice($log, 0, $limit)`: a prefix of at most $limit entries; a
   * negative $limit stops that many entries before the end.
   */
  function SliceHead<T>(log: seq<T>, limit: int): (r: seq<T>)
    ensures |r| <= |log| && r == log[..|r|]
    ensures limit >= 0 ==> |r| == if limit < |log| then limit else |log|
    ensures limit < 0 ==> |r| == if |log| + limit > 0 then |log| + limit else 0
  {
    var len := if limit >= 0 then limit else |log| + limit;
    if len <= 0 then [] else if len < |log| then log[..len] else log
  }

  /** Timestamps never increase from the front of the sequence to the back. */
  ghost predicate NewestFirst<T>(log: seq<Stamped<T>>) {
    forall i, j :: 0 <= i < j < |log| ==> log[i].timestamp >= log[j].timestamp
  }

  /**
   * Insert one entry into a newest-first sequence after every entry that is
   * at least as new, so that entries with equal timestamps keep their order.
   */
  function Insert<T>(e: Stamped<T>, sorted: seq<Stamped<T>>): (r: seq<Stamped<T>>)
    ensures multiset(r) == multiset(sorted) + multiset{e}
    ensures |r| == |sorted| + 1
    ensures r[0] == e || (sorted != [] && r[0] == sorted[0])
  {
    if sorted == [] || sorted[0].timestamp < e.timestamp then [e] + sorted
    else
      assert sorted == [sorted[0]] + sorted[1..];
      [sorted[0]] + Insert(e, sorted[1..])
  }

  lemma ConsSorted<T>(h: Stamped<T>, r: seq<Stamped<T>>)
    requires NewestFirst(r)
    requires r == [] || r[0].timestamp <= h.timestamp
    ensures NewestFirst([h] + r)
  {
    var s := [h] + r;
    forall i, j | 0 <= i < j < |s|
      ensures s[i].timestamp >= s[j].timestamp
    {
      if i == 0 {
        assert s[j] == r[j - 1];
        assert r[0].timestamp >= r[j - 1].timestamp;
      } else {
        assert s[i] == r[i - 1] && s[j] == r[j - 1];
      }
    }
  }

  lemma {:induction false} InsertSorted<T>(e: Stamped<T>, sorted: seq<Stamped<T>>)
    requires NewestFirst(sorted)
    ensures NewestFirst(Insert(e, sorted))
  {
    if sorted == [] || sorted[0].timestamp < e.timestamp {
      ConsSorted(e, sorted);
    } else {
      var tail := sorted[1..];
      InsertSorted(e, tail);
      var r := Insert(e, tail);
      assert r[0] == e || (tail != [] && r[0] == tail[0]);
      ConsSorted(sorted[0], r);
    }
  }

  /** `e` alone when it is stamped `t`, nothing otherwise. */
  ghost function Tagged<T>(e: Stamped<T>, t: int): seq<Stamped<T>> {
    if e.timestamp == t then [e] else []
  }

  /** The entries stamped `t`, in their order in `s`. */
  ghost function AtTime<T>(s: seq<Stamped<T>>, t: int): seq<Stamped<T>> {
    if s == [] then [] else Tagged(s[0], t) + AtTime(s[1..], t)
  }

  lemma AtTimeCons<T>(h: Stamped<T>, s: seq<Stamped<T>>, t: int)
    ensures AtTime([h] + s, t) == Tagged(h, t) + AtTime(s, t)
  {
    var r := [h] + s;
    assert r[0] == h && r[1..] == s;
  }

  lemma {:induction false} AtTimeAppend<T>(a: seq<Stamped<T>>, b: seq<Stamped<T>>, t: int)
    ensures AtTime(a + b, t) == AtTime(a, t) + AtTime(b, t)
  {
    if a == [] {
      assert a + b == b;
    } else {
      assert a + b == [a[0]] + (a[1..] + b);
      assert a == [a[0]] + a[1..];
      AtTimeCons(a[0], a[1..] + b, t);
      AtTimeCons(a[0], a[1..], t);
      AtTimeAppend(a[1..], b, t);
      var h, x, y := Tagged(a[0], t), AtTime(a[1..], t), AtTime(b, t);
      assert h + (x + y) == (h + x) + y;
    }
  }

  lemma NewestFirstTail<T>(s: seq<Stamped<T>>)
    requires NewestFirst(s) && s != []
    ensures NewestFirst(s[1..])
    ensures s[1..] == [] || s[1..][0].timestamp <= s[0].timestamp
  {
    var tail := s[1..];
    forall i, j | 0 <= i < j < |tail|
      ensures tail[i].timestamp >= tail[j].timestamp
    {
      assert tail[i] == s[i + 1] && tail[j] == s[j + 1];
    }
  }

  /** A newest-first sequence whose first entry is older than `t` has no entry stamped `t`. */
  lemma {:induction false} AtTimeOlder<T>(s: seq<Stamped<T>>, t: int)
    requires NewestFirst(s) && (s == [] || s[0].timestamp < t)
    ensures AtTime(s, t) == []
  {
    if s != [] {
      NewestFirstTail(s);
      AtTimeOlder(s[1..], t);
    }
  }

  /** One step of `Insert` past an entry at least as new keeps the ties of the tail. */
  lemma StableStep<T>(h: Stamped<T>, tail: seq<Stamped<T>>, rest: seq<Stamped<T>>, e: Stamped<T>, t: int)
    requires AtTime(rest, t) == AtTime(tail, t) + Tagged(e, t)
    ensures AtTime([h] + rest, t) == AtTime([h] + tail, t) + Tagged(e, t)
  {
    AtTimeCons(h, rest, t);
    AtTimeCons(h, tail, t);
    var a, x, y := Tagged(h, t), AtTime(tail, t), Tagged(e, t);
    assert a + (x + y) == (a + x) + y;
  }

  /** Inserting `e` puts it after every entry with its timestamp: ties keep their order. */
  lemma {:induction false} InsertStable<T>(e: Stamped<T>, sorted: seq<Stamped<T>>, t: int)
    requires NewestFirst(sorted)
    ensures AtTime(Insert(e, sorted), t) == AtTime(sorted, t) + Tagged(e, t)
  {
    if sorted == [] || sorted[0].timestamp < e.timestamp {
      assert Insert(e, sorted) == [e] + sorted;
      AtTimeOlder(sorted, e.timestamp);
      AtTimeCons(e, sorted, t);
    } else {
      var tail := sorted[1..];
      assert Insert(e, sorted) == [sorted[0]] + Insert(e, tail);
      NewestFirstTail(sorted);
      InsertStable(e, tail, t);
      assert sorted == [sorted[0]] + tail;
      StableStep(sorted[0], tail, Insert(e, tail), e, t);
    }
  }

  /** Inserting the log's next entry into its sorted prefix keeps the ties of the longer prefix in order. */
  lemma InsertKeepsTies<T>(sorted: seq<Stamped<T>>, prefix: seq<Stamped<T>>, e: Stamped<T>)
    requires NewestFirst(sorted)
    requires forall t :: AtTime(sorted, t) == AtTime(prefix, t)
    ensures forall t :: AtTime(Insert(e, sorted), t) == AtTime(prefix + [e], t)
  {
    forall t
      ensures AtTime(Insert(e, sorted), t) == AtTime(prefix + [e], t)
    {
      InsertStable(e, sorted, t);
      AtTimeAppend(prefix, [e], t);
      AtTimeCons(e, [], t);
      assert [e] + [] == [e];
    }
  }

  /** A prefix of a sequence holds, for each timestamp, a prefix of the entries stamped with it. */
  lemma PrefixTies<T>(r: seq<Stamped<T>>, sorted: seq<Stamped<T>>, log: seq<Stamped<T>>)
    requires |r| <= |sorted| && r == sorted[..|r|]
    requires forall t :: AtTime(sorted, t) == AtTime(log, t)
    ensures forall t :: AtTime(r, t) <= AtTime(log, t)
  {
    var rest := sorted[|r|..];
    assert sorted == r + rest;
    forall t
      ensures AtTime(r, t) <= AtTime(log, t)
    {
      AtTimeAppend(r, rest, t);
    }
  }

  /**
   * `usort($log, fn($a, $b) => $b['timestamp'] - $a['timestamp'])` on a copy
   * of the log: the same entries, newest first. PHP 8's `usort` is stable,
   * so entries with equal timestamps keep their order in the log.
   */
  method SortNewestFirst<T>(log: seq<Stamped<T>>) returns (sorted: seq<Stamped<T>>)
    ensures NewestFirst(sorted)
    ensures multiset(sorted) == multiset(log)
    ensures forall t :: AtTime(sorted, t) == AtTime(log, t)
  {
    sorted := [];
    var i := 0;
    while i < |log|
      invariant 0 <= i <= |log|
      invariant NewestFirst(sorted)
      invariant multiset(sorted) == multiset(log[..i])
      invariant forall t :: AtTime(sorted, t) == AtTime(log[..i], t)
    {
      InsertKeepsTies(sorted, log[..i], log[i]);
      InsertSorted(log[i], sorted);
      sorted := Insert(log[i], sorted);
      assert log[..i + 1] == log[..i] + [log[i]];
      i := i + 1;
    }
    assert log[..i] == log;
  }

  /** The entries of a newest-first sequence after a cut are no newer than those before it. */
  lemma SortedCut<T>(sorted: seq<Stamped<T>>, k: nat)
    requires NewestFirst(sorted) && k <= |sorted|
    ensures forall x, j :: x in multiset(sorted[k..]) && 0 <= j < k ==> x.timestamp <= sorted[j].timestamp
  {
    forall x: Stamped<T>, j | x in multiset(sorted[k..]) && 0 <= j < k
      ensures x.timestamp <= sorted[j].timestamp
    {
      var m :| 0 <= m < |sorted[k..]| && sorted[k..][m] == x;
      assert sorted[k + m] == x;
    }
  }

  /** A prefix of the sorted log is sorted, and nothing the cut leaves out is newer than what it keeps. */
  lemma PrefixOfSorted<T>(log: seq<Stamped<T>>, sorted: seq<Stamped<T>>, r: seq<Stamped<T>>)
    requires NewestFirst(sorted) && multiset(sorted) == multiset(log)
    requires |r| <= |sorted| && r == sorted[..|r|]
    ensures NewestFirst(r) && multiset(r) <= multiset(log)
    ensures forall x, j :: x in multiset(log) - multiset(r) && 0 <= j < |r| ==> x.timestamp <= r[j].timestamp
  {
    var k := |r|;
    assert sorted == r + sorted[k..];
    assert multiset(sorted) == multiset(r) + multiset(sorted[k..]);
    assert multiset(log) - multiset(r) == multiset(sorted[k..]);
    SortedCut(sorted, k);
  }

  /**
   * Reading a log: its `limit` newest entries, newest first. What is left
   * out is never newer than what is returned, and the entries returned with
   * one timestamp are the first ones the log holds with that timestamp, in
   * log order.
   */
  method NewestEntries<T>(log: seq<Stamped<T>>, limit: int) returns (r: seq<Stamped<T>>)
    ensures NewestFirst(r)
    ensures multiset(r) <= multiset(log)
    ensures limit >= 0 ==> |r| == if limit < |log| then limit else |log|
    ensures limit < 0 ==> |r| == if |log| + limit > 0 then |log| + limit else 0
    ensures forall x, j :: x in multiset(log) - multiset(r) && 0 <= j < |r| ==> x.timestamp <= r[j].timestamp
    ensures forall t :: AtTime(r, t) <= AtTime(log, t)
  {
    var sorted := SortNewestFirst(log);
    r := SliceHead(sorted, limit);
    PrefixOfSorted(log, sorted, r);
    PrefixTies(r, sorted, log);
  }
}
