/**
 The in-memory sliding-window limiter (apps/playground/backend/src/mediator/rate-limit.ts).

 `Limiter.Check` is the code; `Judge` is what one call does to one key's timestamps. The theorems
 are about whole histories of calls for a key: times are integer milliseconds, and a history is
 the list of times at which `check` was called.
 */
module RateLimit {
  datatype Verdict = Verdict(allowed: bool, retryAfterSeconds: int)

  datatype Judgement = Judgement(verdict: Verdict, hits: seq<int>)

  /** The hits later than `windowStart`, in order. */
  function Recent(ts: seq<int>, windowStart: int): seq<int> {
    if ts == [] then []
    else Recent(ts[..|ts| - 1], windowStart) + (if ts[|ts| - 1] > windowStart then [ts[|ts| - 1]] else [])
  }

  /** Milliseconds rounded up to whole seconds. */
  function CeilSeconds(ms: int): (c: int)
    ensures 1000 * c >= ms > 1000 * (c - 1)
  {
    -((-ms) / 1000)
  }

  function RetryAfter(live: seq<int>, nowMs: int, windowMs: int): (s: int)
    ensures s >= 1 && (live != [] ==> nowMs + 1000 * s >= live[0] + windowMs)
    ensures s > 1 && live != [] ==> nowMs + 1000 * (s - 1) < live[0] + windowMs
  {
    var oldest := if live == [] then nowMs else live[0];
    var wait := CeilSeconds(oldest + windowMs - nowMs);
    if wait < 1 then 1 else wait
  }

  function Judge(ts: seq<int>, nowMs: int, max: int, windowMs: int): Judgement {
    var live := Recent(ts, nowMs - windowMs);
    if |live| >= max then
      Judgement(Verdict(false, RetryAfter(live, nowMs, windowMs)), live)
    else
      Judgement(Verdict(true, 0), live + [nowMs])
  }

  function Get(m: map<string, seq<int>>, key: string): seq<int> {
    if key in m then m[key] else []
  }

  class Limiter {
    const max: int
    const windowMs: int
    var hits: map<string, seq<int>>
    ghost var past: map<string, seq<int>>

    constructor (max: int, windowMs: int)
      ensures Valid() && this.max == max && this.windowMs == windowMs && hits == map[] && past == map[]
    {
      this.max, this.windowMs, hits, past := max, windowMs, map[], map[];
      assert After([], max, windowMs).stored == [];
    }

    /** The limiter stores for every key what its checks, since it was last forgotten, have left. */
    ghost predicate Valid()
      reads this
    {
      Remembers(hits, past, max, windowMs)
    }

    function HitsOf(key: string): seq<int>
      reads this
    {
      Get(hits, key)
    }

    method Check(key: string, nowMs: int) returns (v: Verdict)
      requires Valid()
      modifies this`hits, this`past
      ensures Valid()
      ensures var times := if key in old(past) then old(past)[key] else [];
              v == VerdictAt(times, nowMs, max, windowMs) && past == old(past)[key := times + [nowMs]]
      ensures var stored := if key in old(hits) then old(hits)[key] else [];
              hits == old(hits)[key := Judge(stored, nowMs, max, windowMs).hits]
    {
      hide Remembers;
      hide VerdictAt;
      RemembersCheck(hits, past, key, nowMs, max, windowMs);
      past := past[key := Get(past, key) + [nowMs]];
      var windowStart := nowMs - windowMs;
      var stored := HitsOf(key);
      var timestamps: seq<int> := [];
      var i := 0;
      while i < |stored|
        invariant 0 <= i <= |stored|
        invariant timestamps == Recent(stored[..i], windowStart)
      {
        assert stored[..i + 1][..i] == stored[..i];
        if stored[i] > windowStart { timestamps := timestamps + [stored[i]]; }
        i := i + 1;
      }
      assert stored[..i] == stored;
      if |timestamps| >= max {
        hits := hits[key := timestamps];
        var oldest := if |timestamps| > 0 then timestamps[0] else nowMs;
        var wait := CeilSeconds(oldest + windowMs - nowMs);
        return Verdict(false, if wait < 1 then 1 else wait);
      }
      timestamps := timestamps + [nowMs];
      hits := hits[key := timestamps];
      return Verdict(true, 0);
    }

    method Forget(key: string)
      requires Valid()
      modifies this`hits, this`past
      ensures Valid() && hits == old(hits) - {key} && past == old(past) - {key}
    {
      hide Remembers;
      RemembersForget(hits, past, key, max, windowMs);
      past := past - {key};
      hits := hits - {key};
    }
  }

  // ---- Histories of one key -----------------------------------------------------------------

  /** What the limiter stores for the key, and every hit it ever accepted. */
  datatype Past = Past(stored: seq<int>, accepted: seq<int>)

  function After(times: seq<int>, max: int, windowMs: int): Past {
    if times == [] then Past([], [])
    else
      var now := times[|times| - 1];
      var past := After(times[..|times| - 1], max, windowMs);
      Next(past, now, max, windowMs)
  }

  /** `hits` are what the checks of `past` leave. */
  ghost predicate Remembers(hits: map<string, seq<int>>, past: map<string, seq<int>>, max: int, windowMs: int) {
    forall key :: Get(hits, key) == After(Get(past, key), max, windowMs).stored
  }

  lemma {:induction false} RemembersCheck(hits: map<string, seq<int>>, past: map<string, seq<int>>, key: string,
      now: int, max: int, windowMs: int)
    requires Remembers(hits, past, max, windowMs)
    ensures var j, times := Judge(Get(hits, key), now, max, windowMs), Get(past, key);
            && j.verdict == VerdictAt(times, now, max, windowMs)
            && Remembers(hits[key := j.hits], past[key := times + [now]], max, windowMs)
  {
    AfterOneMore(Get(past, key), now, max, windowMs);
    hide After;
    hide Judge;
    hide VerdictAt;
    assert Get(hits, key) == After(Get(past, key), max, windowMs).stored;
    var hits', past' := hits[key := Judge(Get(hits, key), now, max, windowMs).hits], past[key := Get(past, key) + [now]];
    forall k ensures Get(hits', k) == After(Get(past', k), max, windowMs).stored {
      assert Get(hits, k) == After(Get(past, k), max, windowMs).stored;
    }
  }

  lemma {:induction false} RemembersForget(hits: map<string, seq<int>>, past: map<string, seq<int>>, key: string,
      max: int, windowMs: int)
    requires Remembers(hits, past, max, windowMs)
    ensures Remembers(hits - {key}, past - {key}, max, windowMs)
  {
    assert After([], max, windowMs).stored == [];
    hide After;
    forall k ensures Get(hits - {key}, k) == After(Get(past - {key}, k), max, windowMs).stored {
      assert Get(hits, k) == After(Get(past, k), max, windowMs).stored;
    }
  }

  lemma {:induction false} AfterOneMore(times: seq<int>, now: int, max: int, windowMs: int)
    ensures var j := Judge(After(times, max, windowMs).stored, now, max, windowMs);
            After(times + [now], max, windowMs).stored == j.hits && VerdictAt(times, now, max, windowMs) == j.verdict
  {
    assert (times + [now])[..|times|] == times;
  }

  /** Times in order: none is before the one that precedes it. */
  lemma {:induction false} NondecreasingIs(ts: seq<int>)
    ensures Nondecreasing(ts) <==> forall i :: 0 < i < |ts| ==> ts[i - 1] <= ts[i]
  {
    if forall i :: 0 < i < |ts| ==> ts[i - 1] <= ts[i] {
      forall i, j | 0 <= i <= j < |ts| ensures ts[i] <= ts[j] { Climbs(ts, i, j); }
    }
  }

  lemma {:induction false} Climbs(ts: seq<int>, i: nat, j: nat)
    requires i <= j < |ts| && forall k :: 0 < k < |ts| ==> ts[k - 1] <= ts[k]
    ensures ts[i] <= ts[j]
    decreases j
  {
    if i < j { Climbs(ts, i, j - 1); }
  }

  predicate Nondecreasing(ts: seq<int>) { forall i, j :: 0 <= i <= j < |ts| ==> ts[i] <= ts[j] }

  lemma {:induction false} NondecreasingPrefix(ts: seq<int>, n: nat)
    requires Nondecreasing(ts) && n <= |ts|
    ensures Nondecreasing(ts[..n])
  {
  }

  lemma {:induction false} RecentIsSuffix(ts: seq<int>, windowStart: int) returns (k: nat)
    requires Nondecreasing(ts)
    ensures k <= |ts| && Recent(ts, windowStart) == ts[k..]
    ensures forall i :: 0 <= i < k ==> ts[i] <= windowStart
    ensures forall i :: k <= i < |ts| ==> ts[i] > windowStart
  {
    if ts == [] { return 0; }
    var last := |ts| - 1;
    var front := ts[..last];
    k := RecentIsSuffix(front, windowStart);
    assert forall i :: 0 <= i < last ==> front[i] == ts[i] <= ts[last];
    hide Recent;
    LastRecent(ts, windowStart);
    if ts[last] > windowStart {
      assert front[k..] + [ts[last]] == ts[k..];
    } else {
      assert k == last;
      assert front[last..] == [] == ts[last + 1..];
      k := last + 1;
    }
  }

  lemma {:induction false} LastRecent(ts: seq<int>, windowStart: int)
    requires ts != []
    ensures var last := |ts| - 1;
            Recent(ts, windowStart)
            == Recent(ts[..last], windowStart) + if ts[last] > windowStart then [ts[last]] else []
  {
  }

  /** Hits dropped by an earlier call are too old for every later one. */
  lemma {:induction false} RecentOfSuffix(ts: seq<int>, k: nat, windowStart: int)
    requires k <= |ts| && forall i :: 0 <= i < k ==> ts[i] <= windowStart
    ensures Recent(ts[k..], windowStart) == Recent(ts, windowStart)
  {
    if ts != [] {
      var front := ts[..|ts| - 1];
      if k < |ts| {
        RecentOfSuffix(front, k, windowStart);
        assert ts[k..][..|ts| - k - 1] == front[k..];
      } else {
        RecentOfSuffix(front, k - 1, windowStart);
        assert front[k - 1..] == [] == ts[k..];
      }
    }
  }

  /** Every accepted hit is a whole window later than any hit `max` places or more before it. */
  ghost predicate Spaced(accepted: seq<int>, max: int, windowMs: int) {
    forall i, j :: 0 <= i < j < |accepted| && i + max <= j ==> accepted[i] + windowMs <= accepted[j]
  }

  lemma {:induction false} FarApart(accepted: seq<int>, max: int, windowMs: int, i: int, j: int)
    requires Spaced(accepted, max, windowMs) && max >= 1 && 0 <= i <= j < |accepted|
    ensures i + max <= j ==> accepted[i] + windowMs <= accepted[j]
  {
  }

  lemma {:induction false} SpacedAppend(accepted: seq<int>, k: nat, now: int, max: int, windowMs: int)
    requires Spaced(accepted, max, windowMs) && max >= 1 && k <= |accepted| < k + max
    requires forall i :: 0 <= i < k ==> accepted[i] <= now - windowMs
    ensures Spaced(accepted + [now], max, windowMs)
  {
    var longer := accepted + [now];
    forall i, j | 0 <= i < j < |longer| && i + max <= j ensures longer[i] + windowMs <= longer[j] {
      if j < |accepted| { FarApart(accepted, max, windowMs, i, j); }
    }
  }

  /** The first `k` accepted hits have been dropped as too old at time `last`; the rest are stored. */
  ghost predicate Holds(past: Past, k: nat, last: int, max: int, windowMs: int) {
    && k <= |past.accepted| && past.stored == past.accepted[k..] && |past.stored| <= max
    && Nondecreasing(past.accepted)
    && Spaced(past.accepted, max, windowMs)
    && (forall i :: 0 <= i < k ==> past.accepted[i] <= last - windowMs)
    && (forall i :: 0 <= i < |past.accepted| ==> past.accepted[i] <= last)
  }

  function Next(past: Past, now: int, max: int, windowMs: int): Past {
    var j := Judge(past.stored, now, max, windowMs);
    Past(j.hits, if j.verdict.allowed then past.accepted + [now] else past.accepted)
  }

  lemma {:induction false} NextHolds(past: Past, k: nat, last: int, now: int, max: int, windowMs: int) returns (k': nat)
    requires Holds(past, k, last, max, windowMs) && last <= now && max >= 1
    ensures Holds(Next(past, now, max, windowMs), k', now, max, windowMs)
  {
    hide Recent;
    RecentOfSuffix(past.accepted, k, now - windowMs);
    k' := RecentIsSuffix(past.accepted, now - windowMs);
    var live := Recent(past.stored, now - windowMs);
    assert live == past.accepted[k'..] && |live| == |past.accepted| - k';
    if |live| < max {
      var next := Past(live + [now], past.accepted + [now]);
      assert Next(past, now, max, windowMs) == next;
      assert next.accepted[k'..] == live + [now];
      SpacedAppend(past.accepted, k', now, max, windowMs);
      assert Nondecreasing(next.accepted);
    } else {
      assert Next(past, now, max, windowMs) == Past(live, past.accepted);
    }
  }

  lemma {:induction false} AfterHolds(times: seq<int>, max: int, windowMs: int) returns (k: nat)
    requires Nondecreasing(times) && max >= 1
    ensures times == [] ==> forall last :: Holds(After(times, max, windowMs), k, last, max, windowMs)
    ensures times != [] ==> Holds(After(times, max, windowMs), k, times[|times| - 1], max, windowMs)
  {
    if times == [] { return 0; }
    var before, now := times[..|times| - 1], times[|times| - 1];
    k := AfterHolds(before, max, windowMs);
    k := NextHolds(After(before, max, windowMs), k, if before == [] then now else before[|before| - 1],
      now, max, windowMs);
  }

  /** The verdict on a check made at `now` after the given history. */
  function VerdictAt(times: seq<int>, now: int, max: int, windowMs: int): Verdict {
    Judge(After(times, max, windowMs).stored, now, max, windowMs).verdict
  }

  function Accepted(times: seq<int>, max: int, windowMs: int): seq<int> {
    After(times, max, windowMs).accepted
  }

  /** What is stored decides as if every accepted hit had been kept. */
  lemma {:induction false} StoredIsEnough(times: seq<int>, now: int, max: int, windowMs: int) returns (k: nat)
    requires Nondecreasing(times + [now]) && max >= 1
    ensures var past := After(times, max, windowMs);
            && Nondecreasing(past.accepted)
            && Recent(past.stored, now - windowMs) == Recent(past.accepted, now - windowMs)
            && k <= |past.accepted| <= k + max
            && forall i :: 0 <= i < k ==> past.accepted[i] <= now - windowMs
  {
    hide Recent;
    hide After;
    var all := times + [now];
    assert forall i :: 0 <= i < |times| ==> times[i] == all[i];
    var last := if times == [] then now else times[|times| - 1];
    assert last == all[if times == [] then 0 else |times| - 1] && now == all[|times|];
    var past := After(times, max, windowMs);
    k := AfterHolds(times, max, windowMs);
    assert Holds(past, k, last, max, windowMs);
    RecentOfSuffix(past.accepted, k, now - windowMs);
  }

  /** A check is allowed exactly when fewer than `max` accepted hits lie in the window behind it. */
  lemma {:induction false} AllowedIffRoom(times: seq<int>, now: int, max: int, windowMs: int)
    requires Nondecreasing(times + [now]) && max >= 1
    ensures VerdictAt(times, now, max, windowMs).allowed
            <==> |Recent(Accepted(times, max, windowMs), now - windowMs)| < max
  {
    hide Recent;
    hide After;
    var _ := StoredIsEnough(times, now, max, windowMs);
  }

  lemma {:induction false} BoundedSize(s: set<int>, lo: int, n: nat)
    requires forall i :: i in s ==> lo <= i < lo + n
    ensures |s| <= n
  {
    if n > 0 {
      BoundedSize(s - {lo + n - 1}, lo, n - 1);
    } else {
      assert forall i :: i !in s;
      assert s == {};
    }
  }

  /** Any half-open window of length `windowMs` holds at most `max` accepted hits. */
  lemma {:induction false} WindowBound(times: seq<int>, max: int, windowMs: int, from: int)
    requires Nondecreasing(times) && max >= 1
    ensures var accepted := After(times, max, windowMs).accepted;
            |set i | 0 <= i < |accepted| && from <= accepted[i] < from + windowMs| <= max
  {
    var _ := AfterHolds(times, max, windowMs);
    var accepted := After(times, max, windowMs).accepted;
    var inside := set i | 0 <= i < |accepted| && from <= accepted[i] < from + windowMs;
    var k := RecentIsSuffix(accepted, from - 1);
    forall i | i in inside ensures k <= i < k + max { FarApart(accepted, max, windowMs, k, i); }
    BoundedSize(inside, k, max);
  }

  /** A limiter whose `max` is not positive accepts nothing, ever. */
  lemma {:induction false} NothingAccepted(times: seq<int>, max: int, windowMs: int)
    requires max <= 0
    ensures After(times, max, windowMs).accepted == []
  {
    if times != [] { NothingAccepted(times[..|times| - 1], max, windowMs); }
  }

  /** A refused check changes no accepted hit. */
  lemma {:induction false} RefusalAcceptsNothing(times: seq<int>, now: int, max: int, windowMs: int)
    requires !VerdictAt(times, now, max, windowMs).allowed
    ensures Accepted(times + [now], max, windowMs) == Accepted(times, max, windowMs)
  {
    hide Recent;
    assert (times + [now])[..|times|] == times;
  }

  /**
   The announced wait is the shortest in whole seconds: a check made a second or more before it is over is
   refused as well.
   */
  lemma {:induction false} RetryAfterIsShortest(times: seq<int>, now: int, later: int, max: int, windowMs: int)
    requires Nondecreasing(times + [now] + [later]) && max >= 1
    requires !VerdictAt(times, now, max, windowMs).allowed
    requires later <= now + 1000 * (VerdictAt(times, now, max, windowMs).retryAfterSeconds - 1)
    ensures VerdictAt(times, now, max, windowMs).retryAfterSeconds > 1 ==>
              !VerdictAt(times + [now], later, max, windowMs).allowed
  {
    hide Recent;
    hide After;
    assert times + [now] == (times + [now] + [later])[..|times| + 1];
    NondecreasingPrefix(times + [now] + [later], |times| + 1);
    RefusalAcceptsNothing(times, now, max, windowMs);
    AllowedIffRoom(times, now, max, windowMs);
    AllowedIffRoom(times + [now], later, max, windowMs);
    var past := After(times, max, windowMs);
    var _ := StoredIsEnough(times, now, max, windowMs);
    var k := RecentIsSuffix(past.accepted, now - windowMs);
    var k' := RecentIsSuffix(past.accepted, later - windowMs);
    assert Recent(past.stored, now - windowMs)[0] == past.accepted[k];
  }

  /**
   After a refusal at `now`, a check made `retryAfterSeconds` or more later, with no hit accepted
   in between, is allowed exactly when the limiter can accept anything at all.
   */
  lemma {:induction false} RetryAfterIsSound(times: seq<int>, now: int, between: seq<int>, later: int, max: int,
      windowMs: int)
    requires Nondecreasing(times + [now] + between + [later])
    requires !VerdictAt(times, now, max, windowMs).allowed
    requires later >= now + 1000 * VerdictAt(times, now, max, windowMs).retryAfterSeconds
    requires Accepted(times + [now] + between, max, windowMs) == Accepted(times + [now], max, windowMs)
    ensures VerdictAt(times + [now] + between, later, max, windowMs).allowed <==> max >= 1
  {
    hide Recent;
    hide After;
    if max < 1 { return; }
    hide Judge;
    RefusalAcceptsNothing(times, now, max, windowMs);
    assert times + [now] == (times + [now] + between + [later])[..|times| + 1];
    NondecreasingPrefix(times + [now] + between + [later], |times| + 1);
    hide Nondecreasing;
    var k := OldestRefuser(times, now, max, windowMs);
    hide VerdictAt;
    RecentShorter(Accepted(times, max, windowMs), k, max, later - windowMs);
    AllowedIffRoom(times + [now] + between, later, max, windowMs);
  }

  /** At a refusal the limiter names, through `retryAfterSeconds`, the hit that has to leave. */
  lemma {:induction false} OldestRefuser(times: seq<int>, now: int, max: int, windowMs: int) returns (k: nat)
    requires Nondecreasing(times + [now]) && max >= 1
    requires !VerdictAt(times, now, max, windowMs).allowed
    ensures var accepted := Accepted(times, max, windowMs);
            && Nondecreasing(accepted) && k < |accepted| <= k + max
            && accepted[k] + windowMs <= now + 1000 * VerdictAt(times, now, max, windowMs).retryAfterSeconds
  {
    hide Recent;
    hide After;
    var past := After(times, max, windowMs);
    var k0 := StoredIsEnough(times, now, max, windowMs);
    k := RecentIsSuffix(past.accepted, now - windowMs);
    assert k >= k0;
    assert Recent(past.stored, now - windowMs)[0] == past.accepted[k];
  }

  lemma {:induction false} RecentShorter(accepted: seq<int>, k: nat, max: int, windowStart: int)
    requires Nondecreasing(accepted) && k < |accepted| <= k + max && accepted[k] <= windowStart
    ensures |Recent(accepted, windowStart)| < max
  {
    hide Recent;
    var k' := RecentIsSuffix(accepted, windowStart);
    assert k' > k;
  }
}
