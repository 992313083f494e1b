/**
 * The newest-first ordering used for the home feed, the comment list and the
 * backend post list: `sort((a, b) => time(b) - time(a))`. JavaScript's and
 * Java's list sorts are stable; this insertion sort is stable too.
 */
module Sorting {

  /** Every element is at least as new as every later one. */
  predicate NewestFirst<T>(s: seq<T>, time: T -> int) {
    forall i, j :: 0 <= i < j < |s| ==> time(s[i]) >= time(s[j])
  }

  /** Put `x` in front of the first element that is not newer than it. */
  function InsertByTime<T>(x: T, s: seq<T>, time: T -> int): (r: seq<T>)
    ensures |r| == |s| + 1
  {
    if s == [] || time(s[0]) <= time(x) then [x] + s
    else [s[0]] + InsertByTime(x, s[1..], time)
  }

  function SortNewestFirst<T>(s: seq<T>, time: T -> int): (r: seq<T>)
    ensures |r| == |s|
  {
    if s == [] then [] else InsertByTime(s[0], SortNewestFirst(s[1..], time), time)
  }

  lemma {:induction false} InsertByTimeKeeps<T>(x: T, s: seq<T>, time: T -> int)
    ensures multiset(InsertByTime(x, s, time)) == multiset(s) + multiset{x}
  {
    if s != [] && time(s[0]) > time(x) {
      InsertByTimeKeeps(x, s[1..], time);
      assert s == [s[0]] + s[1..];
    }
  }

  lemma {:induction false} InsertByTimeSorted<T>(x: T, s: seq<T>, time: T -> int)
    requires NewestFirst(s, time)
    ensures NewestFirst(InsertByTime(x, s, time), time)
  {
    if s != [] && time(s[0]) > time(x) {
      var t := s[1..];
      assert NewestFirst(t, time) by {
        forall i, j | 0 <= i < j < |t| ensures time(t[i]) >= time(t[j]) {
          assert t[i] == s[i + 1] && t[j] == s[j + 1];
        }
      }
      InsertByTimeSorted(x, t, time);
      InsertByTimeKeeps(x, t, time);
      var r := InsertByTime(x, t, time);
      forall k | 0 <= k < |r| ensures time(s[0]) >= time(r[k]) {
        assert r[k] in multiset(r);
        assert r[k] in multiset(t) + multiset{x};
        if r[k] in multiset(t) {
          assert r[k] in t;
          var m :| 0 <= m < |t| && t[m] == r[k];
          assert t[m] == s[m + 1];
        }
      }
    }
  }

  /** The elements of `s` whose time is `t`, in their order in `s`. */
  function AtTime<T>(s: seq<T>, time: T -> int, t: int): seq<T> {
    if s == [] then []
    else (if time(s[0]) == t then [s[0]] else []) + AtTime(s[1..], time, t)
  }

  /** `x` lands ahead of every element of its own time, and the others keep their order. */
  lemma {:induction false} InsertByTimeAtTime<T>(x: T, s: seq<T>, time: T -> int, t: int)
    ensures AtTime(InsertByTime(x, s, time), time, t) == (if time(x) == t then [x] else []) + AtTime(s, time, t)
  {
    var mine: seq<T> := if time(x) == t then [x] else [];
    if s == [] || time(s[0]) <= time(x) {
      assert InsertByTime(x, s, time) == [x] + s;
      assert ([x] + s)[1..] == s;
      assert AtTime([x] + s, time, t) == mine + AtTime(s, time, t);
    } else {
      var rest := InsertByTime(x, s[1..], time);
      var head: seq<T> := if time(s[0]) == t then [s[0]] else [];
      InsertByTimeAtTime(x, s[1..], time, t);
      assert AtTime(rest, time, t) == mine + AtTime(s[1..], time, t);
      assert ([s[0]] + rest)[1..] == rest;
      assert AtTime([s[0]] + rest, time, t) == head + AtTime(rest, time, t);
      assert AtTime(s, time, t) == head + AtTime(s[1..], time, t);
      assert head == [] || mine == [];
    }
  }

  /** The sort is stable: elements of equal time come out in the order they went in. */
  lemma {:induction false} SortIsStable<T>(s: seq<T>, time: T -> int, t: int)
    ensures AtTime(SortNewestFirst(s, time), time, t) == AtTime(s, time, t)
  {
    if s != [] {
      SortIsStable(s[1..], time, t);
      InsertByTimeAtTime(s[0], SortNewestFirst(s[1..], time), time, t);
    }
  }

  /** The sorted list is ordered newest first. */
  lemma {:induction false} SortedIsNewestFirst<T>(s: seq<T>, time: T -> int)
    ensures NewestFirst(SortNewestFirst(s, time), time)
  {
    if s != [] {
      SortedIsNewestFirst(s[1..], time);
      InsertByTimeSorted(s[0], SortNewestFirst(s[1..], time), time);
    }
  }

  /** The sorted list holds exactly the input's elements, each as often. */
  lemma {:induction false} SortedIsPermutation<T>(s: seq<T>, time: T -> int)
    ensures multiset(SortNewestFirst(s, time)) == multiset(s)
  {
    if s != [] {
      SortedIsPermutation(s[1..], time);
      InsertByTimeKeeps(s[0], SortNewestFirst(s[1..], time), time);
      assert s == [s[0]] + s[1..];
    }
  }

  /**
   * A list already newest first is left as it is, ties included: elements of
   * equal time keep their order, as a stable sort promises.
   */
  lemma {:induction false} SortOfSorted<T>(s: seq<T>, time: T -> int)
    requires NewestFirst(s, time)
    ensures SortNewestFirst(s, time) == s
  {
    if s != [] {
      var t := s[1..];
      assert NewestFirst(t, time) by {
        forall i, j | 0 <= i < j < |t| ensures time(t[i]) >= time(t[j]) {
          assert t[i] == s[i + 1] && t[j] == s[j + 1];
        }
      }
      SortOfSorted(t, time);
      assert s == [s[0]] + t;
    }
  }
}
