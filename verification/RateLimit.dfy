/** The per-user action limit (src/api/rate_limit.py): a sliding window of hits per key. */
module RateLimit {
  const WINDOW: real := 60.0

  datatype Verdict =
    | Accepted
    | Refused(retryAfter: int)
    | EmptyWindow   // the code reads the oldest hit of an empty window (a limit below 1)

  // ----- one key -----------------------------------------------------------------------

  /** The hits still inside the window at `now`. */
  function Pruned(hits: seq<real>, now: real): seq<real> {
    if hits != [] && now - hits[0] >= WINDOW then Pruned(hits[1..], now) else hits
  }

  /** What one check at `now` answers on a key's hits, and the hits after it. */
  function Check(hits: seq<real>, now: real, limit: int): (seq<real>, Verdict) {
    var kept := Pruned(hits, now);
    if |kept| < limit then (kept + [now], Accepted)
    else if kept == [] then (kept, EmptyWindow)
    else (kept, Refused((WINDOW - (now - kept[0])).Floor + 1))
  }

  class SlidingWindowLimiter {
    var hits: map<string, seq<real>>

    constructor ()
      ensures hits == map[]
    {
      hits := map[];
    }

    function Hits(key: string): seq<real>
      reads this
    {
      if key in hits then hits[key] else []
    }

    /** Records one hit for `key` at the clock's `now`; refuses it beyond `limit` a minute. */
    method CheckHit(key: string, limit: int, now: real) returns (verdict: Verdict)
      modifies this
      ensures (Hits(key), verdict) == Check(old(Hits(key)), now, limit)
      ensures forall k :: k != key ==> Hits(k) == old(Hits(k))
    {
      var window := Hits(key);
      while window != [] && now - window[0] >= WINDOW
        invariant Pruned(window, now) == Pruned(old(Hits(key)), now)
        decreases |window|
      {
        window := window[1..];
      }
      hits := hits[key := window];
      if |window| >= limit {
        if window == [] {
          return EmptyWindow;
        }
        return Refused((WINDOW - (now - window[0])).Floor + 1);
      }
      hits := hits[key := window + [now]];
      verdict := Accepted;
    }
  }

  // ----- whole histories ------------------------------------------------------------------

  /** A key's life: the hits it holds and every hit ever accepted, in order. */
  datatype Life = Life(hits: seq<real>, accepted: seq<real>)

  function Live(times: seq<real>, limit: int): Life {
    if times == [] then Life([], [])
    else
      var n := |times| - 1;
      var before := Live(times[..n], limit);
      var (hits, verdict) := Check(before.hits, times[n], limit);
      Life(hits, if verdict == Accepted then before.accepted + [times[n]] else before.accepted)
  }

  predicate NonDecreasing(times: seq<real>) {
    forall i, j :: 0 <= i < j < |times| ==> times[i] <= times[j]
  }

  /** How many of the hits lie in the half-open window of a minute from `from`. */
  function InWindow(hits: seq<real>, from: real): nat {
    if hits == [] then 0
    else
      InWindow(hits[..|hits| - 1], from)
      + (if from <= hits[|hits| - 1] < from + WINDOW then 1 else 0)
  }

  /** How many lie in the last minute at `now`: those a check at `now` does not drop. */
  function Recent(hits: seq<real>, now: real): nat {
    if hits == [] then 0
    else Recent(hits[..|hits| - 1], now) + (if now - hits[|hits| - 1] < WINDOW then 1 else 0)
  }

  lemma {:induction false} PrunedIsSuffix(hits: seq<real>, now: real)
    ensures var kept := Pruned(hits, now);
      && |kept| <= |hits| && kept == hits[|hits| - |kept|..]
      && (kept != [] ==> now - kept[0] < WINDOW)
      && forall i :: 0 <= i < |hits| - |kept| ==> now - hits[i] >= WINDOW
  {
    if hits != [] && now - hits[0] >= WINDOW {
      PrunedIsSuffix(hits[1..], now);
    }
  }

  /** What a key's life keeps: at most `limit` hits held, the newest of those accepted; every
      accepted hit no longer held has left the window; and hits `limit` apart are a minute apart. */
  ghost predicate LifeOk(life: Life, clock: real, limit: int) {
    var n, m := |life.hits|, |life.accepted|;
    && n <= limit && n <= m && life.hits == life.accepted[m - n..]
    && NonDecreasing(life.accepted) && (forall i :: 0 <= i < m ==> life.accepted[i] <= clock)
    && (forall i :: 0 <= i < m - n ==> clock - life.accepted[i] >= WINDOW)
    && (forall i, j :: 0 <= i && i + limit <= j < m ==> life.accepted[j] - life.accepted[i] >= WINDOW)
  }

  /** Dropping what left the window keeps everything said about a life. */
  lemma PruningKeepsOk(life: Life, clock: real, now: real, limit: int)
    requires limit >= 1 && LifeOk(life, clock, limit) && clock <= now
    ensures LifeOk(life.(hits := Pruned(life.hits, now)), now, limit)
  {
    PrunedIsSuffix(life.hits, now);
    var kept, m := Pruned(life.hits, now), |life.accepted|;
    assert kept == life.accepted[m - |kept|..];
    forall i | 0 <= i < m - |kept| ensures now - life.accepted[i] >= WINDOW {
      var held := m - |life.hits|;
      assert i >= held ==> life.accepted[i] == life.hits[i - held];
    }
  }

  lemma AcceptingKeepsOk(life: Life, now: real, limit: int)
    requires LifeOk(life, now, limit) && |life.hits| < limit
    ensures LifeOk(Life(life.hits + [now], life.accepted + [now]), now, limit)
  {
    var n, m, accepted := |life.hits|, |life.accepted|, life.accepted + [now];
    assert life.hits + [now] == accepted[m - n..];
    assert forall i :: 0 <= i < m ==> accepted[i] == life.accepted[i];
    forall i, j | 0 <= i && i + limit <= j < |accepted| ensures accepted[j] - accepted[i] >= WINDOW {
      assert j == m ==> i < m - n;
    }
  }

  lemma CheckKeepsOk(life: Life, clock: real, now: real, limit: int)
    requires limit >= 1 && LifeOk(life, clock, limit) && clock <= now
    ensures var (hits, verdict) := Check(life.hits, now, limit);
      LifeOk(Life(hits, if verdict == Accepted then life.accepted + [now] else life.accepted), now, limit)
  {
    PruningKeepsOk(life, clock, now, limit);
    if |Pruned(life.hits, now)| < limit {
      AcceptingKeepsOk(life.(hits := Pruned(life.hits, now)), now, limit);
    }
  }

  lemma {:induction false} LifeIsOk(times: seq<real>, limit: int)
    requires limit >= 1 && NonDecreasing(times) && times != []
    ensures LifeOk(Live(times, limit), times[|times| - 1], limit)
  {
    var n := |times| - 1;
    if n == 0 {
      assert Live(times[..0], limit) == Life([], []);
      CheckKeepsOk(Life([], []), times[0], times[0], limit);
    } else {
      LifeIsOk(times[..n], limit);
      CheckKeepsOk(Live(times[..n], limit), times[n - 1], times[n], limit);
    }
  }

  // ----- what the limiter promises -----------------------------------------------------------

  lemma {:induction false} SpacedHitsInWindow(hits: seq<real>, from: real, limit: int)
    requires limit >= 1 && NonDecreasing(hits)
    requires forall i, j :: 0 <= i && i + limit <= j < |hits| ==> hits[j] - hits[i] >= WINDOW
    ensures InWindow(hits, from) <= limit
    ensures hits != [] && hits[|hits| - 1] < from ==> InWindow(hits, from) == 0
    ensures forall i :: 0 <= i < |hits| && hits[i] < from ==> InWindow(hits, from) <= |hits| - 1 - i
  {
    if hits != [] {
      var n := |hits| - 1;
      SpacedHitsInWindow(hits[..n], from, limit);
      if n > 0 && hits[n] < from {
        assert hits[..n][n - 1] <= hits[n];
      }
      forall i | 0 <= i < |hits| && hits[i] < from ensures InWindow(hits, from) <= |hits| - 1 - i {
        assert i < n ==> hits[..n][i] < from;
      }
      if from <= hits[n] < from + WINDOW && n >= limit {
        assert hits[n] - hits[n - limit] >= WINDOW;
        assert hits[..n][n - limit] < from;
      }
      InWindowAtMostAll(hits[..n], from);
    }
  }

  lemma {:induction false} InWindowAtMostAll(hits: seq<real>, from: real)
    ensures InWindow(hits, from) <= |hits|
  {
    if hits != [] {
      InWindowAtMostAll(hits[..|hits| - 1], from);
    }
  }

  /** With a clock that never runs backwards and a limit of at least 1: no half-open window
      of a minute, wherever it begins, holds more accepted hits of a key than the limit. */
  lemma NoWindowExceedsLimit(times: seq<real>, limit: int, from: real)
    requires limit >= 1 && NonDecreasing(times)
    ensures InWindow(Live(times, limit).accepted, from) <= limit
  {
    if times != [] {
      LifeIsOk(times, limit);
      SpacedHitsInWindow(Live(times, limit).accepted, from, limit);
    }
  }

  lemma {:induction false} RecentIsHeld(accepted: seq<real>, now: real, n: nat)
    requires n <= |accepted|
    requires forall i :: 0 <= i < |accepted| - n ==> now - accepted[i] >= WINDOW
    requires forall i :: |accepted| - n <= i < |accepted| ==> now - accepted[i] < WINDOW
    ensures Recent(accepted, now) == n
  {
    if accepted != [] {
      RecentIsHeld(accepted[..|accepted| - 1], now, if n > 0 then n - 1 else 0);
    }
  }

  /** A hit is refused exactly when the last minute already holds `limit` accepted hits. */
  lemma RefusedExactlyWhenUsedUp(times: seq<real>, now: real, limit: int)
    requires limit >= 1 && NonDecreasing(times + [now])
    ensures var life := Live(times, limit);
      && Check(life.hits, now, limit).1 != EmptyWindow
      && (Check(life.hits, now, limit).1.Refused? <==> Recent(life.accepted, now) == limit)
      && Recent(life.accepted, now) <= limit
  {
    var life := Live(times, limit);
    if times != [] {
      var n := |times| - 1;
      var all := times + [now];
      assert forall i :: 0 <= i < |times| ==> all[i] == times[i];
      assert all[n] <= all[n + 1];
      LifeIsOk(times, limit);
      PrunedIsSuffix(life.hits, now);
      var kept, m := Pruned(life.hits, now), |life.accepted|;
      forall i | 0 <= i < m ensures now - life.accepted[i] >= WINDOW <==> i < m - |kept| {
        var held := m - |life.hits|;
        if i < held {
          assert times[n] - life.accepted[i] >= WINDOW;
        } else {
          assert life.accepted[i] == life.hits[i - held];
          assert kept != [] ==> kept[0] == life.accepted[m - |kept|];
        }
      }
      RecentIsHeld(life.accepted, now, |kept|);
    } else {
      RecentIsHeld([], now, 0);
    }
  }

  lemma {:induction false} PruningTwice(hits: seq<real>, now: real, later: real)
    requires now <= later
    ensures Pruned(Pruned(hits, now), later) == Pruned(hits, later)
  {
    if hits != [] && now - hits[0] >= WINDOW {
      PruningTwice(hits[1..], now, later);
    }
  }

  /** The hits after checks at `times` none of which is accepted. */
  ghost predicate NoneAccepted(hits: seq<real>, times: seq<real>, limit: int, after: seq<real>)
    decreases |times|
  {
    if times == [] then after == hits
    else
      var (kept, verdict) := Check(hits, times[0], limit);
      verdict != Accepted && NoneAccepted(kept, times[1..], limit, after)
  }

  lemma {:induction false} UnacceptedChecksOnlyPrune(
      hits: seq<real>, times: seq<real>, limit: int, after: seq<real>, later: real)
    requires NoneAccepted(hits, times, limit, after) && forall i :: 0 <= i < |times| ==> times[i] <= later
    ensures Pruned(after, later) == Pruned(hits, later)
    decreases |times|
  {
    if times != [] {
      UnacceptedChecksOnlyPrune(Pruned(hits, times[0]), times[1..], limit, after, later);
      PruningTwice(hits, times[0], later);
    }
  }

  /** A retry after the reported delay succeeds if no hit was accepted in between. */
  lemma RetrySucceeds(hits: seq<real>, now: real, between: seq<real>, after: seq<real>, later: real, limit: int)
    requires limit >= 1 && |hits| <= limit && Check(hits, now, limit).1.Refused?
    requires NoneAccepted(Check(hits, now, limit).0, between, limit, after)
    requires forall i :: 0 <= i < |between| ==> between[i] <= later
    requires later >= now + Check(hits, now, limit).1.retryAfter as real
    ensures Check(after, later, limit).1 == Accepted
  {
    PrunedIsSuffix(hits, now);
    var kept := Pruned(hits, now);
    assert later - kept[0] >= WINDOW;
    UnacceptedChecksOnlyPrune(kept, between, limit, after, later);
    PrunedIsSuffix(kept[1..], later);
  }

  /** A limit below 1 accepts nothing; what it answers then depends on whether an earlier,
      higher limit left a hit in the window. */
  lemma LimitBelowOne(hits: seq<real>, now: real, limit: int)
    requires limit < 1
    ensures Check(hits, now, limit).1 != Accepted
    ensures Check(hits, now, limit).1 == EmptyWindow <==> forall i :: 0 <= i < |hits| ==> now - hits[i] >= WINDOW
  {
    PrunedIsSuffix(hits, now);
    var kept := Pruned(hits, now);
    if kept != [] {
      assert hits[|hits| - |kept|] == kept[0];
    }
  }
}
