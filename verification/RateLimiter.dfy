/** The sliding-window rate limiter (core_v3/rate_limit.py) against a specification over the full log of
  * accepted requests.
  *
  * Times are whole numbers of ticks, of which there are `unit` to a second; the window is given in seconds.
  */
module RateLimiter {
  import opened Signing
  import opened Sets

  // ---------------------------------------------------------------- windows of a log

  predicate Ascending(log: seq<int>) {
    forall i, j :: 0 <= i < j < |log| ==> log[i] <= log[j]
  }

  predicate UpTo(log: seq<int>, now: int) {
    forall i :: 0 <= i < |log| ==> log[i] <= now
  }

  /** The requests of the log accepted after `from` and no later than `to`. */
  function InWindow(log: seq<int>, from: int, to: int): set<nat> {
    set i: nat | i < |log| && from < log[i] <= to
  }

  /** How many entries the loop pops: those at the front no later than the cutoff. */
  function Old(log: seq<int>, cutoff: int): (n: nat)
    ensures n <= |log|
  {
    if log != [] && log[0] <= cutoff then 1 + Old(log[1..], cutoff) else 0
  }

  lemma {:induction false} OldExactly(log: seq<int>, cutoff: int)
    requires Ascending(log)
    ensures forall i :: 0 <= i < |log| ==> (log[i] <= cutoff <==> i < Old(log, cutoff))
  {
    if log != [] {
      OldExactly(log[1..], cutoff);
      assert forall i :: 1 <= i < |log| ==> log[i] == log[1..][i - 1];
    }
  }

  function Range(lo: nat, hi: nat): (r: set<nat>)
    ensures forall i :: i in r <==> lo <= i < hi
    ensures lo <= hi ==> |r| == hi - lo
    decreases if lo < hi then hi - lo else 0
  {
    if lo < hi then {lo} + Range(lo + 1, hi) else {}
  }

  /** In a log up to now, the window ending now holds what is not old. */
  lemma WindowSize(log: seq<int>, cutoff: int, now: int)
    requires Ascending(log) && UpTo(log, now)
    ensures |InWindow(log, cutoff, now)| == |log| - Old(log, cutoff)
  {
    OldExactly(log, cutoff);
    assert InWindow(log, cutoff, now) == Range(Old(log, cutoff), |log|);
  }

  /** Having dropped old entries before makes no difference to a later cutoff. */
  lemma {:induction false} OldAfterDrop(log: seq<int>, n: nat, cutoff: int)
    requires n <= |log| && forall i :: 0 <= i < n ==> log[i] <= cutoff
    ensures Old(log, cutoff) == n + Old(log[n..], cutoff)
  {
    if n > 0 {
      OldAfterDrop(log[1..], n - 1, cutoff);
      assert log[1..][n - 1..] == log[n..];
    } else {
      assert log[0..] == log;
    }
  }

  // ---------------------------------------------------------------- no window holds more than the limit

  /** Requests that are `limit` apart in the log are at least a window apart in time. */
  ghost predicate Spaced(log: seq<int>, limit: nat, span: int) {
    forall i, j :: 0 <= i && j < |log| && j == i + limit ==> log[i] <= log[j] - span
  }

  /** No half-open interval of the window's length holds more than `limit` accepted requests. */
  lemma WindowsAreBounded(log: seq<int>, limit: nat, span: int, t: int)
    requires Ascending(log) && Spaced(log, limit, span)
    ensures |InWindow(log, t - span, t)| <= limit
  {
    var s := InWindow(log, t - span, t);
    if s != {} {
      var first := Smallest(s);
      forall i | i in s ensures i in Range(first, first + limit) {
        assert first + limit < |log| ==> log[first] <= log[first + limit] - span;
      }
      SubsetIsSmaller(s, Range(first, first + limit));
    }
  }

  lemma {:induction false} Smallest(s: set<nat>) returns (k: nat)
    requires s != {}
    ensures k in s && forall i :: i in s ==> k <= i
    decreases |s|
  {
    k :| k in s;
    var rest := s - {k};
    assert forall i :: i in s ==> i == k || i in rest;
    if rest != {} {
      var j := Smallest(rest);
      if j < k { k := j; }
    }
  }

  // ---------------------------------------------------------------- the limiter

  /** The queue holds the end of the log: what was not yet too old at the last check. */
  ghost predicate Tracks(queue: seq<int>, log: seq<int>, limit: nat, span: int, last: int) {
    && Ascending(log) && Spaced(log, limit, span) && UpTo(log, last)
    && |queue| <= |log| && |queue| <= limit && queue == log[|log| - |queue|..]
    && forall i :: 0 <= i < |log| - |queue| ==> log[i] <= last - span
  }

  lemma NothingTracked(limit: nat, span: int, last: int)
    ensures Tracks([], [], limit, span, last)
  {
  }

  lemma TracksLater(queue: seq<int>, log: seq<int>, limit: nat, span: int, last: int, now: int)
    requires Tracks(queue, log, limit, span, last) && last <= now
    ensures Tracks(queue, log, limit, span, now)
  {
  }

  /** Dropping the old entries of the queue leaves exactly the entries of the log that are not old. */
  lemma Dropped(queue: seq<int>, log: seq<int>, limit: nat, span: int, now: int)
    requires Tracks(queue, log, limit, span, now)
    ensures
      var n := Old(queue, now - span);
      && |queue| - n == |log| - Old(log, now - span) == |InWindow(log, now - span, now)|
      && Tracks(queue[n..], log, limit, span, now)
  {
    OldAfterDrop(log, |log| - |queue|, now - span);
    OldExactly(log, now - span);
    WindowSize(log, now - span, now);
  }

  lemma Accepted(queue: seq<int>, log: seq<int>, limit: nat, span: int, now: int)
    requires Tracks(queue, log, limit, span, now) && |queue| < limit
    ensures Tracks(queue + [now], log + [now], limit, span, now)
  {
    var longer := log + [now];
    forall i, j | 0 <= i && j < |longer| && j == i + limit ensures longer[i] <= longer[j] - span {
      if j == |log| { assert i < |log| - |queue|; }
    }
    assert longer[|longer| - |queue| - 1..] == queue + [now];
  }

  /** The answer of a check; a limit of zero or less makes it index an empty queue. */
  datatype Verdict = Checked(ok: bool, remaining: int, retryAfter: int) | IndexFailure

  class SlidingWindowRateLimiter {
    const limit: int
    const window: nat
    const unit: nat
    var events: map<Id, seq<int>>
    /** Every request accepted so far, and the time of the last check. */
    ghost var logs: map<Id, seq<int>>
    ghost var last: int

    function Span(): int {
      window * unit
    }

    /** No queue is longer than this. */
    function Capacity(): nat {
      if limit < 0 then 0 else limit
    }

    ghost function Log(key: Id): seq<int>
      reads this
    {
      if key in logs then logs[key] else []
    }

    function Queue(key: Id): seq<int>
      reads this
    {
      if key in events then events[key] else []
    }

    ghost predicate Valid()
      reads this
    {
      unit >= 1 && forall key :: Tracks(Queue(key), Log(key), Capacity(), Span(), last)
    }

    constructor (limit: int, window: nat, unit: nat, ghost start: int)
      requires unit >= 1
      ensures Valid() && last == start && this.limit == limit && this.window == window && this.unit == unit
      ensures forall key :: Log(key) == []
    {
      this.limit, this.window, this.unit := limit, window, unit;
      events, logs, last := map[], map[], start;
      new;
      hide Tracks, Span;
      NothingTracked(Capacity(), Span(), last);
    }

    /** The loop that pops old entries. */
    static method Pop(whole: seq<int>, cutoff: int) returns (queue: seq<int>)
      ensures queue == whole[Old(whole, cutoff)..]
    {
      queue := whole;
      while queue != [] && queue[0] <= cutoff
        invariant |queue| <= |whole| && queue == whole[|whole| - |queue|..]
        invariant Old(whole, cutoff) == |whole| - |queue| + Old(queue, cutoff)
        decreases |queue|
      {
        queue := queue[1..];
      }
    }

    /** No window of that length ever holds more than `limit` accepted requests of a key. */
    lemma LogIsBounded(key: Id, t: int)
      requires Valid()
      ensures |InWindow(Log(key), t - Span(), t)| <= Capacity()
    {
      assert Tracks(Queue(key), Log(key), Capacity(), Span(), last);
      WindowsAreBounded(Log(key), Capacity(), Span(), t);
    }

    /** The rest of check on the queue of one key: accept and append, or refuse and say how long to wait. */
    static method Decide(limit: int, capacity: nat, span: int, unit: nat, whole: seq<int>, now: int, ghost log: seq<int>)
      returns (v: Verdict, queue: seq<int>)
      requires unit >= 1 && Tracks(whole, log, capacity, span, now) && capacity == if limit < 0 then 0 else limit
      ensures Answers(v, log, limit, span, unit, now)
      ensures Tracks(queue, if v.Checked? && v.ok then log + [now] else log, capacity, span, now)
    {
      hide Tracks, InWindow, Old, Seconds;
      queue := Pop(whole, now - span);
      Dropped(whole, log, capacity, span, now);
      if |queue| < limit {
        Accepted(queue, log, capacity, span, now);
        queue := queue + [now];
        v := Checked(true, limit - |queue|, 0);
      } else if queue == [] {
        v := IndexFailure;
      } else {
        RejectedOldest(queue, log, capacity, span, now);
        var wait := Seconds(span - (now - queue[0]), unit);
        v := Checked(false, 0, if wait > 1 then wait else 1);
      }
    }

    /** check: with times that do not go back, a request is accepted exactly when fewer than `limit` were
      * accepted in the window that ends now. */
    method Check(key: Id, now: int) returns (v: Verdict)
      requires Valid() && last <= now
      modifies this
      ensures Valid() && last == now
      ensures Answers(v, old(Log(key)), limit, Span(), unit, now)
      ensures Log(key) == if v.Checked? && v.ok then old(Log(key)) + [now] else old(Log(key))
      ensures forall other :: other != key ==> Log(other) == old(Log(other))
    {
      hide Tracks, InWindow, Span, Retry, Answers;
      ghost var log := Log(key);
      forall other ensures Tracks(Queue(other), Log(other), Capacity(), Span(), now) {
        TracksLater(Queue(other), Log(other), Capacity(), Span(), last, now);
      }
      var queue;
      v, queue := Decide(limit, Capacity(), Span(), unit, Queue(key), now, log);
      logs := logs[key := if v.Checked? && v.ok then log + [now] else log];
      events := events[key := queue];
      last := now;
      forall other ensures Tracks(Queue(other), Log(other), Capacity(), Span(), now) {
        if other != key { assert Queue(other) == old(Queue(other)) && Log(other) == old(Log(other)); }
      }
    }
  }

  /** The window that ends now is full: it holds exactly `limit` requests, the last ones of the log. */
  ghost predicate Full(log: seq<int>, limit: int, span: int, now: int) {
    && Ascending(log) && UpTo(log, now) && 1 <= limit <= |log| && Old(log, now - span) == |log| - limit
  }

  /** What a check answers: a failure exactly when the limit is zero or less; otherwise acceptance exactly when fewer
    * than `limit` requests of the log were accepted in the window ending now, and the wait for the oldest. */
  ghost predicate Answers(v: Verdict, log: seq<int>, limit: int, span: int, unit: nat, now: int)
    requires unit >= 1
  {
    var count := |InWindow(log, now - span, now)|;
    && (v.IndexFailure? <==> limit <= 0)
    && (v.Checked? ==>
          && (v.ok <==> count < limit)
          && (v.ok ==> v.remaining == limit - count - 1 && v.retryAfter == 0)
          && (!v.ok ==> v.remaining == 0 && Full(log, limit, span, now) && v.retryAfter == Retry(span, unit, now, log[|log| - limit])))
  }

  lemma RejectedOldest(queue: seq<int>, log: seq<int>, limit: nat, span: int, now: int)
    requires Tracks(queue, log, limit, span, now) && |queue| >= limit >= 1 && |queue| == |log| - Old(log, now - span)
    ensures Full(log, limit, span, now) && queue[0] == log[|log| - limit]
  {
  }

  /** int() of a number of ticks in seconds: truncation toward zero. */
  function Seconds(ticks: int, unit: nat): int
    requires unit >= 1
  {
    if ticks >= 0 then ticks / unit else -(-ticks / unit)
  }

  /** The seconds a rejected caller is told to wait for the oldest request of the window. */
  function Retry(span: int, unit: nat, now: int, oldest: int): int
    requires unit >= 1
  {
    var wait := Seconds(span - (now - oldest), unit);
    if wait > 1 then wait else 1
  }

  // ---------------------------------------------------------------- waiting

  /** The advertised wait, in ticks, covers the time that is left exactly when that time is at most a second
    * or a whole number of seconds: int() rounds the wait down. */
  lemma RetryCovers(left: int, unit: nat)
    requires left > 0 && unit >= 1
    ensures
      var wait := Seconds(left, unit);
      left <= (if wait > 1 then wait else 1) * unit <==> left <= unit || left % unit == 0
  {
    var q, r := left / unit, left % unit;
    assert left == q * unit + r && 0 <= r < unit;
    if q >= 1 {
      assert q * unit >= unit;
    }
  }

  /** After a rejection, and with nothing accepted meanwhile, a request `retry` seconds later is accepted
    * exactly when the time until the oldest request leaves the window is at most a second or a whole number
    * of seconds. */
  lemma WaitingSufficesExactly(log: seq<int>, limit: nat, span: int, unit: nat, now: int)
    requires unit >= 1 && Full(log, limit, span, now)
    ensures
      var oldest := log[|log| - limit];
      var left, later := span - (now - oldest), now + Retry(span, unit, now, oldest) * unit;
      left > 0 && (|InWindow(log, later - span, later)| < limit <==> left <= unit || left % unit == 0)
  {
    hide InWindow, Old;
    var oldest := log[|log| - limit];
    var left, wait := span - (now - oldest), Retry(span, unit, now, oldest);
    OldExactly(log, now - span);
    RetryCovers(left, unit);
    var later := now + wait * unit;
    assert wait * unit >= 0 by { Product(wait, unit); }
    WindowSize(log, later - span, later);
    OldExactly(log, later - span);
    assert oldest <= later - span <==> |log| - limit < Old(log, later - span);
  }

  lemma Product(a: int, b: int)
    requires a >= 0 && b >= 0
    ensures a * b >= 0
  {
  }

  /** With times in whole seconds the advertised wait always suffices. */
  lemma WholeSecondsSuffice(log: seq<int>, limit: nat, window: nat, now: int)
    requires Full(log, limit, window, now)
    ensures
      var later := now + Retry(window, 1, now, log[|log| - limit]);
      |InWindow(log, later - window, later)| < limit
  {
    WaitingSufficesExactly(log, limit, window, 1, now);
  }

  /** With finer times it need not: one request per 60 seconds, accepted at 0.5 and refused at 1.0 seconds, is
    * told to wait 59 seconds and is refused again at 60.0. */
  lemma FractionsMayNotSuffice()
    ensures
      var log, unit := [1], 2;
      var later := 2 + Retry(60 * unit, unit, 2, log[0]) * unit;
      && Full(log, 1, 60 * unit, 2) && Retry(60 * unit, unit, 2, log[0]) == 59
      && !(|InWindow(log, later - 60 * unit, later)| < 1)
  {
    WaitingSufficesExactly([1], 1, 120, 2, 2);
  }
}
