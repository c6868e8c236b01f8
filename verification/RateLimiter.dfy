/** The sliding-window limiter: `consume_rate` for one owner and one action
    (src/cavman/platform_store.py). */
module RateLimiter {
  import opened Base

  /** None for a grant, otherwise how long to wait; Crash is the index error that a limit of
      zero or less runs into when it looks at recent[len(recent) - limit]. */
  datatype Answer = Granted | Wait(seconds: real) | Crash

  ghost predicate Ascending(s: seq<real>) { forall i, j :: 0 <= i < j < |s| ==> s[i] <= s[j] }

  /** The stored events once those before `start` are deleted. */
  function Recent(events: seq<real>, start: real): (r: seq<real>)
    ensures forall x :: x in r <==> x in events && start <= x
  {
    if events == [] then []
    else if events[0] < start then Recent(events[1..], start)
    else [events[0]] + Recent(events[1..], start)
  }

  function Longer(a: real, b: real): real { if a < b then b else a }

  function Answered(recent: seq<real>, limit: int, window: real, now: real): Answer {
    if |recent| < limit then Granted
    else if limit <= 0 then Crash
    else Wait(Longer(1.0, recent[|recent| - limit] + window - now))
  }

  /** The table after the transaction; a crash rolls it back. */
  function Consumed(events: seq<real>, limit: int, window: real, now: real): seq<real> {
    var recent := Recent(events, now - window);
    match Answered(recent, limit, window, now)
    case Granted => recent + [now]
    case Wait(_) => recent
    case Crash => events
  }

  function AnswerAt(events: seq<real>, limit: int, window: real, now: real): Answer {
    Answered(Recent(events, now - window), limit, window, now)
  }

  class Limiter {
    var events: seq<real>   // rows in insertion order, which is ascending in time

    constructor ()
      ensures events == []
    {
      events := [];
    }

    method Consume(limit: int, window: real, now: real) returns (a: Answer)
      modifies this
      ensures a == AnswerAt(old(events), limit, window, now)
      ensures events == Consumed(old(events), limit, window, now)
    {
      var rows, start := events, now - window;
      var recent: seq<real> := [];
      for i := 0 to |rows|
        invariant Recent(rows, start) == recent + Recent(rows[i..], start)
      {
        assert rows[i..][1..] == rows[i + 1..];
        if !(rows[i] < start) { recent := recent + [rows[i]]; }
      }
      events := recent;
      if |recent| >= limit {
        if limit <= 0 {
          events := rows;
          return Crash;
        }
        return Wait(Longer(1.0, recent[|recent| - limit] + window - now));
      }
      events := events + [now];
      return Granted;
    }
  }

  // ---- histories ---------------------------------------------------------------------------------

  /** The table after calls at the given times. */
  function After(times: seq<real>, limit: int, window: real): seq<real> {
    if times == [] then []
    else Consumed(After(times[..|times| - 1], limit, window), limit, window, Last(times))
  }

  predicate GrantedAt(times: seq<real>, limit: int, window: real, i: nat) requires i < |times| {
    AnswerAt(After(times[..i], limit, window), limit, window, times[i]).Granted?
  }

  /** The times of the calls that were granted. */
  function Grants(times: seq<real>, limit: int, window: real): seq<real> {
    if times == [] then []
    else
      var n := |times| - 1;
      Grants(times[..n], limit, window) + (if GrantedAt(times, limit, window, n) then [times[n]] else [])
  }

  /** How many entries lie in the closed interval [from, to]. */
  function CountIn(s: seq<real>, from: real, to: real): nat {
    if s == [] then 0
    else CountIn(s[..|s| - 1], from, to) + (if from <= Last(s) <= to then 1 else 0)
  }

  lemma {:induction false} RecentIsSuffix(s: seq<real>, start: real) returns (k: nat)
    requires Ascending(s)
    ensures k <= |s| && Recent(s, start) == s[k..]
    ensures forall i :: 0 <= i < k ==> s[i] < start
    ensures forall i :: k <= i < |s| ==> start <= s[i]
  {
    if s == [] { return 0; }
    if s[0] < start {
      var rest := RecentIsSuffix(s[1..], start);
      k := rest + 1;
      assert s[1..][rest..] == s[k..];
      forall i | 0 <= i < k ensures s[i] < start { if i > 0 { assert s[i] == s[1..][i - 1]; } }
      forall i | k <= i < |s| ensures start <= s[i] { assert s[i] == s[1..][i - 1]; }
    } else {
      k := 0;
      NothingOld(s, start);
    }
  }

  lemma {:induction false} NothingOld(s: seq<real>, start: real)
    requires forall i :: 0 <= i < |s| ==> start <= s[i]
    ensures Recent(s, start) == s
  {
    if s != [] { NothingOld(s[1..], start); }
  }

  /** Any `limit` + 1 grants in a row span more than a window. */
  ghost predicate Spaced(grants: seq<real>, limit: nat, window: real) {
    forall i :: 0 <= i < |grants| - limit ==> grants[i] + window < grants[i + limit]
  }

  /** The first d grants are before `start`, the others are not. */
  ghost predicate SplitAt(grants: seq<real>, d: nat, start: real) {
    && d <= |grants|
    && (forall i :: 0 <= i < d ==> grants[i] < start)
    && (forall i :: d <= i < |grants| ==> start <= grants[i])
  }

  /** The table is what is left of the grants once some that are out of the window are gone. */
  ghost predicate Tracks(grants: seq<real>, events: seq<real>, limit: nat, window: real, now: real) {
    && Ascending(grants) && Spaced(grants, limit, window)
    && (forall i :: 0 <= i < |grants| ==> grants[i] <= now)
    && |events| <= |grants| && Leaves(grants, |grants| - |events|, events, now - window)
  }

  ghost predicate Leaves(grants: seq<real>, d: nat, events: seq<real>, start: real) {
    && d <= |grants| && events == grants[d..]
    && forall i :: 0 <= i < d ==> grants[i] < start
  }

  lemma SuffixAscending(s: seq<real>, d: nat)
    requires Ascending(s) && d <= |s|
    ensures Ascending(s[d..])
  {
    forall i, j | 0 <= i < j < |s[d..]| ensures s[d..][i] <= s[d..][j] {
      assert s[d + i] <= s[d + j];
    }
  }

  lemma RecentOfSuffix(grants: seq<real>, d: nat, start: real) returns (k: nat)
    requires Ascending(grants) && d <= |grants| && forall i :: 0 <= i < d ==> grants[i] < start
    ensures SplitAt(grants, k, start) && Recent(grants[d..], start) == grants[k..]
  {
    SuffixAscending(grants, d);
    var rest := RecentIsSuffix(grants[d..], start);
    k := d + rest;
    assert grants[d..][rest..] == grants[k..];
    forall i | d <= i < |grants| ensures grants[i] < start <==> i < k { assert grants[i] == grants[d..][i - d]; }
  }

  lemma RecentOfTracked(grants: seq<real>, events: seq<real>, limit: nat, window: real, before: real, now: real)
    returns (d: nat)
    requires Tracks(grants, events, limit, window, before) && before <= now
    ensures SplitAt(grants, d, now - window) && Recent(events, now - window) == grants[d..]
  {
    d := RecentOfSuffix(grants, |grants| - |events|, now - window);
  }

  lemma GrantKeepsSpacing(grants: seq<real>, d: nat, limit: nat, window: real, now: real)
    requires Ascending(grants) && Spaced(grants, limit, window) && SplitAt(grants, d, now - window)
    requires (forall i :: 0 <= i < |grants| ==> grants[i] <= now) && |grants| - d < limit
    ensures Ascending(grants + [now]) && Spaced(grants + [now], limit, window)
  {
    var grants' := grants + [now];
    forall i | 0 <= i < |grants'| - limit ensures grants'[i] + window < grants'[i + limit] {
      assert i == |grants| - limit ==> i < d;
    }
  }

  lemma ConsumeTracks(grants: seq<real>, events: seq<real>, limit: nat, window: real, before: real, now: real)
    requires Tracks(grants, events, limit, window, before) && before <= now && 0.0 <= window && 0 < limit
    ensures Tracks(if AnswerAt(events, limit, window, now).Granted? then grants + [now] else grants,
                   Consumed(events, limit, window, now), limit, window, now)
  {
    var d := RecentOfTracked(grants, events, limit, window, before, now);
    if AnswerAt(events, limit, window, now).Granted? {
      GrantKeepsSpacing(grants, d, limit, window, now);
      assert (grants + [now])[d..] == grants[d..] + [now];
      assert Leaves(grants + [now], d, Consumed(events, limit, window, now), now - window);
    } else {
      assert Leaves(grants, d, Consumed(events, limit, window, now), now - window);
    }
  }

  lemma LaterTracks(grants: seq<real>, events: seq<real>, limit: nat, window: real, before: real, now: real)
    requires Tracks(grants, events, limit, window, before) && before <= now
    ensures Tracks(grants, events, limit, window, now)
  {}

  lemma {:induction false} HistoryTracks(times: seq<real>, limit: nat, window: real, now: real)
    requires Ascending(times) && 0.0 <= window && 0 < limit && (times != [] ==> Last(times) <= now)
    ensures Tracks(Grants(times, limit, window), After(times, limit, window), limit, window, now)
  {
    if times == [] {
      assert Leaves([], 0, [], now - window);
    } else {
      var front, at := times[..|times| - 1], Last(times);
      HistoryTracks(front, limit, window, at);
      ConsumeTracks(Grants(front, limit, window), After(front, limit, window), limit, window, at, at);
      assert Grants(front, limit, window) + [] == Grants(front, limit, window);
      LaterTracks(Grants(times, limit, window), After(times, limit, window), limit, window, at, now);
    }
  }

  // ---- the theorems --------------------------------------------------------------------------------

  lemma {:induction false} CountAtMost(s: seq<real>, limit: nat, window: real, from: real)
    requires Ascending(s) && 0 < limit
    requires forall i :: 0 <= i < |s| - limit ==> s[i] + window < s[i + limit]
    ensures CountIn(s, from, from + window) <= limit
  {
    if |s| > limit {
      var front := s[..|s| - 1];
      CountAtMost(front, limit, window, from);
      if from <= Last(s) <= from + window {
        assert s[|s| - 1 - limit] + window < Last(s);
        CountTail(s, |s| - limit, from, from + window);
      }
    } else {
      CountLength(s, from, from + window);
    }
  }

  lemma {:induction false} CountLength(s: seq<real>, from: real, to: real)
    ensures CountIn(s, from, to) <= |s|
  {
    if s != [] { CountLength(s[..|s| - 1], from, to); }
  }

  /** When the first n entries lie before the interval, only the rest can count. */
  lemma {:induction false} CountTail(s: seq<real>, n: nat, from: real, to: real)
    requires n <= |s| && forall i :: 0 <= i < n ==> s[i] < from
    ensures CountIn(s, from, to) <= |s| - n
  {
    if n < |s| {
      CountTail(s[..|s| - 1], n, from, to);
    } else if s != [] {
      CountTail(s[..|s| - 1], n - 1, from, to);
    }
  }

  /** At a clock that never goes back, at most `limit` calls are granted in any closed interval
      as long as the window. */
  lemma AtMostLimitPerWindow(times: seq<real>, limit: nat, window: real, from: real)
    requires Ascending(times) && 0.0 <= window && 0 < limit
    ensures CountIn(Grants(times, limit, window), from, from + window) <= limit
  {
    HistoryTracks(times, limit, window, if times == [] then 0.0 else Last(times));
    CountAtMost(Grants(times, limit, window), limit, window, from);
  }

  /** The latest `limit` grants all lie within one window before `now`. */
  ghost predicate WindowFull(grants: seq<real>, limit: nat, window: real, now: real) {
    0 < limit <= |grants| && now - window <= grants[|grants| - limit]
  }

  lemma SplitDecides(grants: seq<real>, d: nat, limit: nat, window: real, now: real)
    requires SplitAt(grants, d, now - window) && 0 < limit
    ensures |grants| - d < limit <==> !WindowFull(grants, limit, window, now)
  {}

  lemma AnsweredOnSuffix(grants: seq<real>, d: nat, limit: nat, window: real, now: real)
    requires d <= |grants| && 0 < limit
    ensures var a := Answered(grants[d..], limit, window, now);
      if |grants| - d < limit then a.Granted?
      else a == Wait(Longer(1.0, grants[|grants| - limit] + window - now))
  {}

  /** A call is refused exactly when the window before it is full, and the wait it is told ends
      no earlier than the moment the oldest of those grants leaves the window. */
  lemma RefusedIffWindowFull(times: seq<real>, limit: nat, window: real, now: real)
    requires Ascending(times) && 0.0 <= window && 0 < limit && (times != [] ==> Last(times) <= now)
    ensures var grants, a := Grants(times, limit, window), AnswerAt(After(times, limit, window), limit, window, now);
      && (a.Granted? <==> !WindowFull(grants, limit, window, now))
      && (!a.Granted? ==> a == Wait(Longer(1.0, grants[|grants| - limit] + window - now)))
  {
    HistoryTracks(times, limit, window, now);
    var grants := Grants(times, limit, window);
    var d := RecentOfTracked(grants, After(times, limit, window), limit, window, now, now);
    SplitDecides(grants, d, limit, window, now);
    AnsweredOnSuffix(grants, d, limit, window, now);
  }

  lemma {:induction false} RefusalsAddNoGrant(times: seq<real>, n: nat, limit: nat, window: real)
    requires n <= |times| && forall i :: n <= i < |times| ==> !GrantedAt(times, limit, window, i)
    ensures Grants(times, limit, window) == Grants(times[..n], limit, window)
    decreases |times|
  {
    if n < |times| {
      var front := times[..|times| - 1];
      forall i | n <= i < |front| ensures !GrantedAt(front, limit, window, i) {
        assert front[..i] == times[..i] && !GrantedAt(times, limit, window, i);
      }
      RefusalsAddNoGrant(front, n, limit, window);
      assert front[..n] == times[..n] && !GrantedAt(times, limit, window, |times| - 1);
    } else {
      assert times[..n] == times;
    }
  }

  /** After a refusal, with nothing granted since: a retry is granted exactly when it comes strictly
      after recent[len-limit] + window, whatever wait was told. */
  lemma RetryAfterWait(times: seq<real>, n: nat, limit: nat, window: real, retry: real)
    requires Ascending(times) && 0.0 <= window && 0 < limit && n < |times|
    requires forall i :: n <= i < |times| ==> !GrantedAt(times, limit, window, i)
    requires Last(times) <= retry
    ensures var grants := Grants(times[..n], limit, window);
      var told := AnswerAt(After(times[..n], limit, window), limit, window, times[n]);
      var again := AnswerAt(After(times, limit, window), limit, window, retry);
      && limit <= |grants| && told == Wait(Longer(1.0, grants[|grants| - limit] + window - times[n]))
      && (again.Granted? <==> grants[|grants| - limit] + window < retry)
  {
    RefusalsAddNoGrant(times, n, limit, window);
    var before := times[..n];
    assert before != [] ==> Last(before) <= times[n];
    RefusedIffWindowFull(before, limit, window, times[n]);
    RefusedIffWindowFull(times, limit, window, retry);
    assert !GrantedAt(times, limit, window, n);
  }

  /** A retry exactly when the told wait is over is refused again exactly when that wait was not
      rounded up, that is when a full second or more was missing; any later retry is granted. */
  lemma RetryAsTold(times: seq<real>, n: nat, limit: nat, window: real, retry: real)
    requires Ascending(times) && 0.0 <= window && 0 < limit && n < |times|
    requires forall i :: n <= i < |times| ==> !GrantedAt(times, limit, window, i)
    requires Last(times) <= retry
    ensures var grants := Grants(times[..n], limit, window);
      var told := AnswerAt(After(times[..n], limit, window), limit, window, times[n]);
      var again := AnswerAt(After(times, limit, window), limit, window, retry);
      && limit <= |grants| && told.Wait?
      && (retry == times[n] + told.seconds ==>
            (!again.Granted? <==> 1.0 <= grants[|grants| - limit] + window - times[n]))
      && (times[n] + told.seconds < retry ==> again.Granted?)
  {
    RetryAfterWait(times, n, limit, window, retry);
  }

  /** A limit of zero or less grants nothing: the first call already fails. */
  lemma {:induction false} NoLimitNoGrant(times: seq<real>, limit: int, window: real)
    requires limit <= 0
    ensures Grants(times, limit, window) == [] == After(times, limit, window)
    ensures forall now :: AnswerAt(After(times, limit, window), limit, window, now) == Crash
  {
    if times != [] { NoLimitNoGrant(times[..|times| - 1], limit, window); }
  }
}
