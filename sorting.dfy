/**
 * Sorting by a caller-supplied order, as the library sorts used by the
 * services (`Stream.sorted`, `sortedByDescending`, `list.sort(key=...)`) do:
 * the result is ordered and a permutation of the input.
 */
module Sorting {
  /** `le` is total and transitive, so it orders any sequence. */
  ghost predicate TotalPreorder<T(!new)>(le: (T, T) -> bool)
  {
    (forall a, b :: le(a, b) || le(b, a))
    && (forall a, b, c :: le(a, b) && le(b, c) ==> le(a, c))
  }

  predicate Sorted<T>(s: seq<T>, le: (T, T) -> bool)
  {
    forall i, j :: 0 <= i < j < |s| ==> le(s[i], s[j])
  }

  /** Put `x` before the first element it does not follow. */
  function Insert<T(!new)>(x: T, s: seq<T>, le: (T, T) -> bool): (r: seq<T>)
    requires TotalPreorder(le) && Sorted(s, le)
    ensures Sorted(r, le)
    ensures multiset(r) == multiset(s) + multiset{x}
    ensures |r| == |s| + 1
    decreases |s|
  {
    if |s| == 0 then [x]
    else if le(x, s[0]) then [x] + s
    else
      var rest := Insert(x, s[1..], le);
      assert le(s[0], x);
      assert forall k :: 0 <= k < |rest| ==> le(s[0], rest[k]) by {
        forall k | 0 <= k < |rest|
          ensures le(s[0], rest[k])
        {
          assert rest[k] in multiset(rest);
          if rest[k] != x {
            assert rest[k] in multiset(s[1..]);
            var j :| 0 <= j < |s[1..]| && s[1..][j] == rest[k];
            assert s[1..][j] == s[j + 1];
          }
        }
      }
      assert s == [s[0]] + s[1..];
      [s[0]] + rest
  }

  /** Insertion sort: ordered by `le`, and the same elements with the same multiplicities. */
  function SortBy<T(!new)>(s: seq<T>, le: (T, T) -> bool): (r: seq<T>)
    requires TotalPreorder(le)
    ensures Sorted(r, le)
    ensures multiset(r) == multiset(s)
    ensures |r| == |s|
    decreases |s|
  {
    if |s| == 0 then []
    else
      assert s == [s[0]] + s[1..];
      Insert(s[0], SortBy(s[1..], le), le)
  }

  /** The elements of `s` that `le` ranks level with `k`, in their order in `s`. */
  function Ties<T>(s: seq<T>, le: (T, T) -> bool, k: T): (r: seq<T>)
    ensures |r| <= |s|
    decreases |s|
  {
    if |s| == 0 then []
    else (if le(s[0], k) && le(k, s[0]) then [s[0]] else []) + Ties(s[1..], le, k)
  }

  /** Inserting `x` puts it ahead of every element it ties with. */
  lemma {:induction false} InsertTies<T(!new)>(x: T, s: seq<T>, le: (T, T) -> bool, k: T)
    requires TotalPreorder(le) && Sorted(s, le)
    ensures Ties(Insert(x, s, le), le, k) == (if le(x, k) && le(k, x) then [x] else []) + Ties(s, le, k)
    decreases |s|
  {
    if |s| == 0 {
      assert Insert(x, s, le) == [x];
      TiesCons(x, s, le, k);
    } else if le(x, s[0]) {
      assert Insert(x, s, le) == [x] + s;
      TiesCons(x, s, le, k);
    } else {
      var y, tail := s[0], s[1..];
      assert Sorted(tail, le);
      var rest := Insert(x, tail, le);
      assert Insert(x, s, le) == [y] + rest;
      InsertTies(x, tail, le, k);
      assert s == [y] + tail;
      NotBothTie(x, y, le, k);
      TiesSwap(x, y, rest, tail, le, k);
    }
  }

  /** An element ranked strictly below `x` cannot tie with `k` when `x` does. */
  lemma NotBothTie<T(!new)>(x: T, y: T, le: (T, T) -> bool, k: T)
    requires TotalPreorder(le) && !le(x, y)
    ensures !(le(x, k) && le(k, x) && le(y, k) && le(k, y))
  {
  }

  lemma TiesSwap<T>(x: T, y: T, rest: seq<T>, tail: seq<T>, le: (T, T) -> bool, k: T)
    requires !(le(x, k) && le(k, x) && le(y, k) && le(k, y))
    requires Ties(rest, le, k) == (if le(x, k) && le(k, x) then [x] else []) + Ties(tail, le, k)
    ensures Ties([y] + rest, le, k) == (if le(x, k) && le(k, x) then [x] else []) + Ties([y] + tail, le, k)
  {
    var tx := if le(x, k) && le(k, x) then [x] else [];
    var ty := if le(y, k) && le(k, y) then [y] else [];
    var t := Ties(tail, le, k);
    TiesCons(y, rest, le, k);
    TiesCons(y, tail, le, k);
    if tx == [] {
      assert ty + (tx + t) == tx + (ty + t);
    } else {
      assert ty == [];
      assert ty + (tx + t) == tx + (ty + t);
    }
  }

  lemma TiesCons<T>(x: T, s: seq<T>, le: (T, T) -> bool, k: T)
    ensures Ties([x] + s, le, k) == (if le(x, k) && le(k, x) then [x] else []) + Ties(s, le, k)
  {
    assert ([x] + s)[1..] == s;
  }

  /**
   * Stability: the sort keeps elements that rank level in their input order,
   * as Python's `sorted` and `Stream.sorted` do.
   */
  lemma {:induction false} SortByTies<T(!new)>(s: seq<T>, le: (T, T) -> bool, k: T)
    requires TotalPreorder(le)
    ensures Ties(SortBy(s, le), le, k) == Ties(s, le, k)
    decreases |s|
  {
    if |s| > 0 {
      SortByTies(s[1..], le, k);
      InsertTies(s[0], SortBy(s[1..], le), le, k);
    }
  }

  lemma SortByStable<T(!new)>(s: seq<T>, le: (T, T) -> bool)
    requires TotalPreorder(le)
    ensures forall k :: Ties(SortBy(s, le), le, k) == Ties(s, le, k)
  {
    forall k
      ensures Ties(SortBy(s, le), le, k) == Ties(s, le, k)
    {
      SortByTies(s, le, k);
    }
  }

  /** The first `limit` elements, or all of them when there are fewer. */
  function Take<T>(s: seq<T>, limit: nat): (r: seq<T>)
    ensures |r| == if limit < |s| then limit else |s|
    ensures r == s[..|r|]
  {
    if limit < |s| then s[..limit] else s
  }

  /** Descending by a timestamp, as `sortedByDescending { it.timestamp }` orders. */
  function Later<T>(time: T -> int): (T, T) -> bool
  {
    (a: T, b: T) => time(a) >= time(b)
  }

  lemma LaterIsPreorder<T(!new)>(time: T -> int)
    ensures TotalPreorder(Later(time))
  {
  }

  /** The newest `limit` entries, newest first: sort descending by `time`, then take. */
  function NewestFirst<T(!new)>(events: seq<T>, time: T -> int, limit: nat): (r: seq<T>)
    ensures |r| == if limit < |events| then limit else |events|
    ensures forall i, j :: 0 <= i < j < |r| ==> time(r[i]) >= time(r[j])
    ensures multiset(r) <= multiset(events)
  {
    LaterIsPreorder(time);
    var sorted := SortBy(events, Later(time));
    assert sorted == Take(sorted, limit) + sorted[|Take(sorted, limit)|..];
    Take(sorted, limit)
  }

  /** Nothing left out of the newest entries is newer than anything returned. */
  lemma NewestFirstDominates<T(!new)>(events: seq<T>, time: T -> int, limit: nat)
    ensures forall x, y :: x in NewestFirst(events, time, limit) && y in multiset(events) - multiset(NewestFirst(events, time, limit)) ==>
      time(x) >= time(y)
  {
    LaterIsPreorder(time);
    var sorted := SortBy(events, Later(time));
    var r := Take(sorted, limit);
    assert NewestFirst(events, time, limit) == r == sorted[..|r|];
    assert multiset(events) - multiset(r) == multiset(sorted[|r|..]) by {
      assert sorted == r + sorted[|r|..];
    }
    PrefixDominates(sorted, time, |r|);
    forall x, y | x in r && y in multiset(events) - multiset(r)
      ensures time(x) >= time(y)
    {
      assert y in sorted[|r|..];
    }
  }

  lemma PrefixDominates<T>(sorted: seq<T>, time: T -> int, k: nat)
    requires k <= |sorted| && Sorted(sorted, Later(time))
    ensures forall x, y :: x in sorted[..k] && y in sorted[k..] ==> time(x) >= time(y)
  {
    forall x, y | x in sorted[..k] && y in sorted[k..]
      ensures time(x) >= time(y)
    {
      var i :| 0 <= i < k && sorted[..k][i] == x;
      var j :| 0 <= j < |sorted| - k && sorted[k..][j] == y;
      assert sorted[i] == x && sorted[k + j] == y;
    }
  }
}
