/**
 The runner's idempotency cache (packages/sdk/src/tool-runner.ts): an insertion-ordered map used as
 an LRU cache with a time to live that starts when an outcome settles.

 `Cache` is the code. The theorems are about any history of lookups, settlements and rejections.
 */
module Idempotency {
  import opened Common

  /** A resident key; `exec` stands for the promise of the execution it shares. */
  datatype Entry = Entry(key: string, exec: nat, settledAt: Option<int>)

  /** One execution of a handler. */
  datatype Exec = Exec(key: string, settledAt: Option<int>, rejected: bool)

  datatype Event = Touch(key: string) | Rejection(key: string)

  /** `entries` is the map in insertion order; `execs` and `history` record what has happened. */
  datatype State = State(entries: seq<Entry>, execs: seq<Exec>, history: seq<Event>)

  function IndexOf(entries: seq<Entry>, key: string): (i: nat)
    ensures i <= |entries|
    ensures i < |entries| ==> entries[i].key == key
    ensures forall j :: 0 <= j < i ==> entries[j].key != key
  {
    if entries == [] || entries[0].key == key then 0 else 1 + IndexOf(entries[1..], key)
  }

  function Without(entries: seq<Entry>, i: nat): seq<Entry> {
    if i < |entries| then entries[..i] + entries[i + 1..] else entries
  }

  predicate FreshEntry(e: Entry, now: int, ttlMs: int) {
    e.settledAt.None? || now - e.settledAt.value < ttlMs
  }

  predicate Hit(s: State, key: string, now: int, ttlMs: int) {
    var i := IndexOf(s.entries, key);
    i < |s.entries| && FreshEntry(s.entries[i], now, ttlMs)
  }

  /** The newest `maxEntries` entries. */
  function Evicted(entries: seq<Entry>, maxEntries: int): seq<Entry> {
    if |entries| == 0 || |entries| <= maxEntries then entries
    else if maxEntries <= 0 then []
    else entries[|entries| - maxEntries..]
  }

  /** A lookup that misses, before anything is evicted: a new execution, and its entry at the young end. */
  function Started(s: State, key: string): State {
    State(Without(s.entries, IndexOf(s.entries, key)) + [Entry(key, |s.execs|, None)],
          s.execs + [Exec(key, None, false)], s.history + [Touch(key)])
  }

  /** A lookup of `key` at time `now`, and the execution whose outcome the caller gets. */
  function Looked(s: State, key: string, now: int, ttlMs: int, maxEntries: int): State {
    var i := IndexOf(s.entries, key);
    if Hit(s, key, now, ttlMs) then
      s.(entries := Without(s.entries, i) + [s.entries[i]], history := s.history + [Touch(key)])
    else
      var started := Started(s, key);
      started.(entries := Evicted(started.entries, maxEntries))
  }

  function Shared(s: State, key: string, now: int, ttlMs: int): nat {
    if Hit(s, key, now, ttlMs) then s.entries[IndexOf(s.entries, key)].exec else |s.execs|
  }

  function Stamped(entries: seq<Entry>, exec: nat, now: int): (r: seq<Entry>)
    ensures |r| == |entries|
    ensures forall i :: 0 <= i < |r| ==>
              r[i] == if entries[i].exec == exec then entries[i].(settledAt := Some(now)) else entries[i]
  {
    seq(|entries|, i requires 0 <= i < |entries| =>
      if entries[i].exec == exec then entries[i].(settledAt := Some(now)) else entries[i])
  }

  /** An execution settles: its entry, if it is still resident, is stamped. */
  function SettledExec(s: State, exec: nat, now: int): State
    requires exec < |s.execs|
  {
    s.(entries := Stamped(s.entries, exec, now),
       execs := s.execs[exec := s.execs[exec].(settledAt := Some(now))])
  }

  /** An execution rejects: whatever entry its key has is dropped. */
  function RejectedExec(s: State, exec: nat): State
    requires exec < |s.execs|
  {
    var key := s.execs[exec].key;
    State(Without(s.entries, IndexOf(s.entries, key)),
          s.execs[exec := s.execs[exec].(rejected := true)],
          s.history + [Rejection(key)])
  }

  class Cache {
    const ttlMs: int
    const maxEntries: int
    var entries: seq<Entry>
    ghost var execs: seq<Exec>
    ghost var history: seq<Event>
    var nextExec: nat

    constructor (ttlMs: int, maxEntries: int)
      ensures this.ttlMs == ttlMs && this.maxEntries == maxEntries && Valid() && Now() == State([], [], [])
    {
      this.ttlMs, this.maxEntries := ttlMs, maxEntries;
      entries, execs, history, nextExec := [], [], [], 0;
    }

    ghost function Now(): State
      reads this
    {
      State(entries, execs, history)
    }

    ghost predicate Valid()
      reads this
    {
      nextExec == |execs| && Inv(Now(), maxEntries)
    }

    /** Returns the execution whose outcome the caller awaits, and whether it was started here. */
    method Run(key: string, now: int) returns (exec: nat, started: bool)
      requires Valid()
      modifies this
      ensures Valid() && Now() == Looked(old(Now()), key, now, ttlMs, maxEntries)
      ensures exec == Shared(old(Now()), key, now, ttlMs)
      ensures started <==> !Hit(old(Now()), key, now, ttlMs)
    {
      LookKeepsInv(Now(), key, now, ttlMs, maxEntries);
      var i := IndexOf(entries, key);
      history := history + [Touch(key)];
      if i < |entries| && FreshEntry(entries[i], now, ttlMs) {
        var existing := entries[i];
        entries := Without(entries, i);
        entries := entries + [existing];
        return existing.exec, false;
      }
      entries := Without(entries, i);
      exec, started := nextExec, true;
      nextExec := nextExec + 1;
      execs := execs + [Exec(key, None, false)];
      entries := entries + [Entry(key, exec, None)];
      EvictIfNeeded();
    }

    /** The handler's promise fulfils: the entry object is stamped, wherever it is. */
    method Settle(exec: nat, now: int)
      requires Valid() && exec < |execs|
      modifies this
      ensures Valid() && Now() == SettledExec(old(Now()), exec, now)
    {
      SettleKeepsInv(Now(), exec, now, maxEntries);
      execs := execs[exec := execs[exec].(settledAt := Some(now))];
      entries := Stamped(entries, exec, now);
    }

    /** The handler's promise rejects; `key` is the key it was started under. */
    method Reject(exec: nat, key: string)
      requires Valid() && exec < |execs| && execs[exec].key == key
      modifies this
      ensures Valid() && Now() == RejectedExec(old(Now()), exec)
    {
      RejectKeepsInv(Now(), exec, maxEntries);
      execs := execs[exec := execs[exec].(rejected := true)];
      history := history + [Rejection(key)];
      entries := Without(entries, IndexOf(entries, key));
    }

    method EvictIfNeeded()
      modifies this`entries
      ensures entries == Evicted(old(entries), maxEntries)
    {
      while |entries| > maxEntries
        invariant |entries| <= |old(entries)| && entries == old(entries)[|old(entries)| - |entries|..]
        invariant |entries| < |old(entries)| ==> |entries| >= maxEntries
        decreases |entries|
      {
        if |entries| == 0 { break; }
        entries := entries[1..];
      }
    }
  }

  // ---- Histories -----------------------------------------------------------------------------------

  /** One past the position of the last touch of `key`; 0 when it was never touched. */
  function LastTouch(h: seq<Event>, key: string): (n: nat)
    ensures n <= |h|
  {
    if h == [] then 0
    else if h[|h| - 1] == Touch(key) then |h|
    else LastTouch(h[..|h| - 1], key)
  }

  /** The other keys looked up since the last touch of `key`. */
  function OthersSince(h: seq<Event>, key: string): set<string> {
    if h == [] || h[|h| - 1] == Touch(key) then {}
    else OthersSince(h[..|h| - 1], key) + if h[|h| - 1].Touch? then {h[|h| - 1].key} else {}
  }

  /** Whether some execution of `key` rejected since the last touch of `key`. */
  predicate RejectedSince(h: seq<Event>, key: string) {
    h != [] && h[|h| - 1] != Touch(key) && (h[|h| - 1] == Rejection(key) || RejectedSince(h[..|h| - 1], key))
  }

  /** The latest execution of `key`. */
  ghost predicate LatestExec(execs: seq<Exec>, key: string, x: nat) {
    x < |execs| && execs[x].key == key && forall y :: x < y < |execs| ==> execs[y].key != key
  }

  /** Keys are resident once, in the order of their last touch. */
  ghost predicate Ordered(s: State) {
    forall i, j :: 0 <= i < j < |s.entries| ==>
      s.entries[i].key != s.entries[j].key
      && LastTouch(s.history, s.entries[i].key) < LastTouch(s.history, s.entries[j].key)
  }

  /** An entry shares the latest execution of its key and knows when it settled. */
  ghost predicate Current(s: State) {
    forall i :: 0 <= i < |s.entries| ==>
      LatestExec(s.execs, s.entries[i].key, s.entries[i].exec)
      && s.entries[i].settledAt == s.execs[s.entries[i].exec].settledAt
      && LastTouch(s.history, s.entries[i].key) > 0
  }

  ghost predicate Resident(entries: seq<Entry>, key: string) {
    exists i :: 0 <= i < |entries| && entries[i].key == key
  }

  /** A key that was looked up and is no longer resident was pushed out by enough others, or rejected. */
  ghost predicate Accounted(s: State, maxEntries: int) {
    forall key :: LastTouch(s.history, key) > 0 && !Resident(s.entries, key) ==>
      |OthersSince(s.history, key)| >= maxEntries || RejectedSince(s.history, key)
  }

  ghost predicate Known(s: State) {
    forall x :: 0 <= x < |s.execs| ==> LastTouch(s.history, s.execs[x].key) > 0
  }

  ghost predicate Inv(s: State, maxEntries: int) {
    && (|s.entries| <= maxEntries || s.entries == [])
    && Books(s, maxEntries)
  }

  ghost predicate Books(s: State, maxEntries: int) {
    Ordered(s) && Current(s) && Accounted(s, maxEntries) && Known(s)
  }

  lemma {:induction false} AfterTouch(h: seq<Event>, key: string, k: string)
    ensures LastTouch(h + [Touch(key)], k) == if k == key then |h| + 1 else LastTouch(h, k)
    ensures OthersSince(h + [Touch(key)], k) == if k == key then {} else OthersSince(h, k) + {key}
    ensures RejectedSince(h + [Touch(key)], k) <==> k != key && RejectedSince(h, k)
  {
    assert (h + [Touch(key)])[..|h|] == h;
  }

  lemma {:induction false} AfterRejection(h: seq<Event>, key: string, k: string)
    ensures LastTouch(h + [Rejection(key)], k) == LastTouch(h, k)
    ensures OthersSince(h + [Rejection(key)], k) == OthersSince(h, k)
    ensures RejectedSince(h + [Rejection(key)], k) <==> k == key || RejectedSince(h, k)
  {
    assert (h + [Rejection(key)])[..|h|] == h;
  }

  lemma {:induction false} TouchedAfter(h: seq<Event>, a: string, b: string)
    requires a != b && LastTouch(h, a) < LastTouch(h, b)
    ensures b in OthersSince(h, a)
  {
    if h[|h| - 1] != Touch(b) { TouchedAfter(h[..|h| - 1], a, b); }
  }

  ghost predicate DistinctKeys(es: seq<Entry>) {
    forall i, j :: 0 <= i < j < |es| ==> es[i].key != es[j].key
  }

  lemma {:induction false} KeysCount(es: seq<Entry>, keys: set<string>)
    requires DistinctKeys(es) && forall i :: 0 <= i < |es| ==> es[i].key in keys
    ensures |keys| >= |es|
  {
    if es != [] {
      var n := |es| - 1;
      KeysCount(es[..n], keys - {es[n].key});
    }
  }

  lemma {:induction false} WithoutKeepsOrder(s: State, i: nat)
    requires Ordered(s)
    ensures Ordered(s.(entries := Without(s.entries, i)))
  {
    hide LastTouch;
    var rest := Without(s.entries, i);
    assert forall a :: 0 <= a < |rest| ==> rest[a] == s.entries[if a < i then a else a + 1];
  }

  /** Appending the key of a new touch to the young end keeps order. */
  lemma {:induction false} AppendKeepsOrder(s: State, e: Entry)
    requires Ordered(s) && !Resident(s.entries, e.key)
    ensures Ordered(s.(entries := s.entries + [e], history := s.history + [Touch(e.key)]))
  {
    var s' := s.(entries := s.entries + [e], history := s.history + [Touch(e.key)]);
    forall a | 0 <= a < |s'.entries|
      ensures LastTouch(s'.history, s'.entries[a].key)
              == if a < |s.entries| then LastTouch(s.history, s.entries[a].key) else |s.history| + 1
    {
      AfterTouch(s.history, e.key, s'.entries[a].key);
    }
    hide LastTouch;
  }

  lemma {:induction false} NoLongerResident(s: State, key: string)
    requires Ordered(s)
    ensures !Resident(Without(s.entries, IndexOf(s.entries, key)), key)
  {
    hide LastTouch;
    var i := IndexOf(s.entries, key);
    hide IndexOf;
    var rest := Without(s.entries, i);
    assert forall a :: 0 <= a < |rest| ==> rest[a] == s.entries[if a < i then a else a + 1];
  }

  /** Moving or adding `key` to the young end keeps the order of the rest. */
  lemma {:induction false} TouchKeepsOrder(s: State, e: Entry)
    requires Ordered(s)
    ensures var i := IndexOf(s.entries, e.key);
            Ordered(s.(entries := Without(s.entries, i) + [e], history := s.history + [Touch(e.key)]))
  {
    var i := IndexOf(s.entries, e.key);
    WithoutKeepsOrder(s, i);
    NoLongerResident(s, e.key);
    hide Ordered;
    AppendKeepsOrder(s.(entries := Without(s.entries, i)), e);
  }

  /** Dropping from the old end keeps order. */
  lemma {:induction false} DropKeeps(s: State, d: nat)
    requires d <= |s.entries| && Ordered(s) && Current(s)
    ensures Ordered(s.(entries := s.entries[d..])) && Current(s.(entries := s.entries[d..]))
  {
    var kept := s.entries[d..];
    hide LastTouch;
    hide LatestExec;
    assert forall j :: 0 <= j < |kept| ==> kept[j] == s.entries[d + j];
  }

  /** A dropped key has been followed by all the keys that are kept. */
  lemma {:induction false} DroppedWasOutrun(s: State, p: nat, d: nat)
    requires p < d <= |s.entries| && Ordered(s)
    ensures |OthersSince(s.history, s.entries[p].key)| >= |s.entries| - d
  {
    var kept := s.entries[d..];
    var others := OthersSince(s.history, s.entries[p].key);
    forall j | 0 <= j < |kept| ensures kept[j].key in others {
      TouchedAfter(s.history, s.entries[p].key, s.entries[d + j].key);
    }
    hide OthersSince;
    hide LastTouch;
    KeysCount(kept, others);
  }

  lemma {:induction false} HitKeepsInv(s: State, key: string, now: int, ttlMs: int, maxEntries: int)
    requires Inv(s, maxEntries) && Hit(s, key, now, ttlMs)
    ensures Inv(Looked(s, key, now, ttlMs, maxEntries), maxEntries)
  {
    var i := IndexOf(s.entries, key);
    var s' := Looked(s, key, now, ttlMs, maxEntries);
    TouchKeepsOrder(s, s.entries[i]);
    TouchKeepsAccounts(s, s', s.entries[i], maxEntries);
    CurrentAfterTouch(s, s', s.execs, key, s.entries[i]);
    TouchKeepsKnown(s, s', key);
  }

  lemma {:induction false} CurrentAfterTouch(s: State, s': State, execs: seq<Exec>, key: string, e: Entry)
    requires Current(s) && e.key == key && s'.history == s.history + [Touch(key)] && s'.execs == execs
    requires s'.entries == Without(s.entries, IndexOf(s.entries, key)) + [e]
    requires forall j :: 0 <= j < |s.entries| && s.entries[j].key != key ==>
               LatestExec(execs, s.entries[j].key, s.entries[j].exec)
               && s.entries[j].settledAt == execs[s.entries[j].exec].settledAt
    requires LatestExec(execs, key, e.exec) && e.settledAt == execs[e.exec].settledAt
    requires DistinctKeys(s.entries)
    ensures Current(s')
  {
    var i := IndexOf(s.entries, key);
    forall a | 0 <= a < |s'.entries|
      ensures LatestExec(execs, s'.entries[a].key, s'.entries[a].exec)
              && s'.entries[a].settledAt == execs[s'.entries[a].exec].settledAt
              && LastTouch(s'.history, s'.entries[a].key) > 0
    {
      AfterTouch(s.history, key, s'.entries[a].key);
      var a0 := if i == |s.entries| || a < i then a else a + 1;
      if a < |s'.entries| - 1 { assert s'.entries[a] == s.entries[a0] && s.entries[a0].key != key; }
    }
  }

  /** A key that is not resident after a touch, before eviction, was not resident before. */
  lemma {:induction false} TouchKeepsAccounts(s: State, s': State, e: Entry, maxEntries: int)
    requires Accounted(s, maxEntries) && s'.history == s.history + [Touch(e.key)]
    requires s'.entries == Without(s.entries, IndexOf(s.entries, e.key)) + [e]
    ensures Accounted(s', maxEntries)
  {
    var i := IndexOf(s.entries, e.key);
    forall k | LastTouch(s'.history, k) > 0 && !Resident(s'.entries, k)
      ensures |OthersSince(s'.history, k)| >= maxEntries || RejectedSince(s'.history, k)
    {
      assert s'.entries[|s'.entries| - 1] == e;
      AfterTouch(s.history, e.key, k);
      NotResidentBefore(s.entries, e, k);
      SizeGrows(OthersSince(s.history, k), e.key);
    }
  }

  lemma {:induction false} NotResidentBefore(entries: seq<Entry>, e: Entry, k: string)
    requires !Resident(Without(entries, IndexOf(entries, e.key)) + [e], k)
    ensures k != e.key && !Resident(entries, k)
  {
    var i := IndexOf(entries, e.key);
    var moved := Without(entries, i) + [e];
    assert moved[|moved| - 1] == e;
    forall n | 0 <= n < |entries| ensures entries[n].key != k {
      if n != i { assert entries[n] == moved[if n < i then n else n - 1]; }
    }
  }

  lemma {:induction false} SizeGrows(a: set<string>, x: string)
    ensures |a + {x}| >= |a|
  {
    assert a + {x} == a + ({x} - a);
  }

  lemma {:induction false} LookKeepsInv(s: State, key: string, now: int, ttlMs: int, maxEntries: int)
    requires Inv(s, maxEntries)
    ensures Inv(Looked(s, key, now, ttlMs, maxEntries), maxEntries)
  {
    if Hit(s, key, now, ttlMs) {
      HitKeepsInv(s, key, now, ttlMs, maxEntries);
    } else {
      MissKeepsInv(s, key, now, ttlMs, maxEntries);
    }
  }

  lemma {:induction false} TouchKeepsKnown(s: State, s': State, key: string)
    requires Known(s) && s'.history == s.history + [Touch(key)]
    requires s'.execs == s.execs || exists e: Exec :: e.key == key && s'.execs == s.execs + [e]
    ensures Known(s')
  {
    forall x | 0 <= x < |s'.execs| ensures LastTouch(s'.history, s'.execs[x].key) > 0 {
      AfterTouch(s.history, key, s'.execs[x].key);
    }
  }

  /** A new execution of `key` is the latest of `key` and leaves the other entries' executions as they were. */
  lemma {:induction false} StartKeepsOthers(s: State, key: string)
    requires Current(s)
    ensures var execs := s.execs + [Exec(key, None, false)];
            LatestExec(execs, key, |s.execs|)
            && forall j :: 0 <= j < |s.entries| && s.entries[j].key != key ==>
                 LatestExec(execs, s.entries[j].key, s.entries[j].exec)
                 && s.entries[j].settledAt == execs[s.entries[j].exec].settledAt
  {
    hide LastTouch;
  }

  lemma {:induction false} StartKeepsBooks(s: State, key: string, maxEntries: int)
    requires Books(s, maxEntries)
    ensures Books(Started(s, key), maxEntries)
  {
    hide LastTouch;
    hide IndexOf;
    hide LatestExec;
    hide Accounted;
    var e := Entry(key, |s.execs|, None);
    var s' := Started(s, key);
    StartKeepsOthers(s, key);
    assert DistinctKeys(s.entries);
    hide Ordered;
    CurrentAfterTouch(s, s', s'.execs, key, e);
    TouchKeepsKnown(s, s', key);
    hide Known;
    hide Current;
    TouchKeepsAccounts(s, s', e, maxEntries);
    TouchKeepsOrder(s, e);
    OrderedOf(s', s.(entries := s'.entries, history := s'.history));
  }

  lemma {:induction false} OrderedOf(a: State, b: State)
    requires Ordered(b) && a.entries == b.entries && a.history == b.history
    ensures Ordered(a)
  {
    hide LastTouch;
  }

  lemma {:induction false} MissKeepsInv(s: State, key: string, now: int, ttlMs: int, maxEntries: int)
    requires Inv(s, maxEntries) && !Hit(s, key, now, ttlMs)
    ensures Inv(Looked(s, key, now, ttlMs, maxEntries), maxEntries)
  {
    var s1 := Started(s, key);
    assert Looked(s, key, now, ttlMs, maxEntries) == s1.(entries := Evicted(s1.entries, maxEntries)) by {
      hide Evicted;
      hide Started;
    }
    StartKeepsBooks(s, key, maxEntries);
    hide Started;
    hide Looked;
    hide Hit;
    hide Inv;
    EvictKeepsInv(s1, maxEntries);
  }

  lemma {:induction false} EvictKeepsInv(s: State, maxEntries: int)
    requires Books(s, maxEntries)
    ensures Inv(s.(entries := Evicted(s.entries, maxEntries)), maxEntries)
  {
    hide Ordered;
    hide Current;
    hide Accounted;
    hide Known;
    var d := |s.entries| - |Evicted(s.entries, maxEntries)|;
    assert Evicted(s.entries, maxEntries) == s.entries[d..];
    DropKeeps(s, d);
    DropKeepsAccounts(s, d, maxEntries);
    DropKeepsKnown(s, d);
  }

  lemma {:induction false} DropKeepsKnown(s: State, d: nat)
    requires d <= |s.entries| && Known(s)
    ensures Known(s.(entries := s.entries[d..]))
  {
    hide LastTouch;
  }

  lemma {:induction false} DropKeepsAccounts(s: State, d: nat, maxEntries: int)
    requires d <= |s.entries| && Ordered(s) && Accounted(s, maxEntries)
    requires d > 0 ==> |s.entries| - d >= maxEntries
    ensures Accounted(s.(entries := s.entries[d..]), maxEntries)
  {
    hide LastTouch;
    hide OthersSince;
    hide RejectedSince;
    var kept := s.entries[d..];
    forall k | LastTouch(s.history, k) > 0 && !Resident(kept, k)
      ensures |OthersSince(s.history, k)| >= maxEntries || RejectedSince(s.history, k)
    {
      assert forall j :: d <= j < |s.entries| ==> s.entries[j] == kept[j - d];
      if Resident(s.entries, k) {
        var p :| 0 <= p < |s.entries| && s.entries[p].key == k;
        DroppedWasOutrun(s, p, d);
      }
    }
  }

  ghost predicate SameKeys(a: State, b: State) {
    && a.history == b.history && |a.entries| == |b.entries|
    && forall i :: 0 <= i < |a.entries| ==> a.entries[i].key == b.entries[i].key
  }

  lemma {:induction false} SameKeysKeep(s: State, s': State, maxEntries: int)
    requires Ordered(s) && Accounted(s, maxEntries) && SameKeys(s, s')
    ensures Ordered(s') && Accounted(s', maxEntries)
  {
    hide LastTouch;
    hide OthersSince;
    hide RejectedSince;
    forall k | Resident(s.entries, k) ensures Resident(s'.entries, k) {
      var i :| 0 <= i < |s.entries| && s.entries[i].key == k;
      assert s'.entries[i].key == k;
    }
    hide Resident;
  }

  lemma {:induction false} SettleKeepsCurrent(s: State, exec: nat, now: int)
    requires exec < |s.execs| && Current(s) && Known(s)
    ensures Current(SettledExec(s, exec, now)) && Known(SettledExec(s, exec, now))
  {
    hide LastTouch;
    hide Stamped;
    var s' := SettledExec(s, exec, now);
    forall y | 0 <= y < |s.execs| ensures s'.execs[y].key == s.execs[y].key {}
    forall i | 0 <= i < |s'.entries|
      ensures LatestExec(s'.execs, s'.entries[i].key, s'.entries[i].exec)
              && s'.entries[i].settledAt == s'.execs[s'.entries[i].exec].settledAt
              && LastTouch(s'.history, s'.entries[i].key) > 0
    {
      assert LatestExec(s.execs, s.entries[i].key, s.entries[i].exec);
    }
  }

  lemma {:induction false} SettleKeepsInv(s: State, exec: nat, now: int, maxEntries: int)
    requires exec < |s.execs| && Inv(s, maxEntries)
    ensures Inv(SettledExec(s, exec, now), maxEntries)
  {
    hide Ordered;
    hide Current;
    hide Accounted;
    hide Known;
    SettleKeepsCurrent(s, exec, now);
    SameKeysKeep(s, SettledExec(s, exec, now), maxEntries);
  }

  lemma {:induction false} RejectKeepsOrder(s: State, exec: nat)
    requires exec < |s.execs| && Ordered(s)
    ensures Ordered(RejectedExec(s, exec))
  {
    var key := s.execs[exec].key;
    var s' := RejectedExec(s, exec);
    WithoutKeepsOrder(s, IndexOf(s.entries, key));
    forall k ensures LastTouch(s'.history, k) == LastTouch(s.history, k) {
      AfterRejection(s.history, key, k);
    }
    hide LastTouch;
    hide IndexOf;
  }

  lemma {:induction false} RejectKeepsCurrent(s: State, exec: nat)
    requires exec < |s.execs| && Current(s) && Known(s)
    ensures Current(RejectedExec(s, exec)) && Known(RejectedExec(s, exec))
  {
    var key := s.execs[exec].key;
    var s' := RejectedExec(s, exec);
    var i := IndexOf(s.entries, key);
    forall k ensures LastTouch(s'.history, k) == LastTouch(s.history, k) {
      AfterRejection(s.history, key, k);
    }
    hide LastTouch;
    hide IndexOf;
    forall a | 0 <= a < |s'.entries|
      ensures LatestExec(s'.execs, s'.entries[a].key, s'.entries[a].exec)
              && s'.entries[a].settledAt == s'.execs[s'.entries[a].exec].settledAt
              && LastTouch(s'.history, s'.entries[a].key) > 0
    {
      var a0 := if a < i then a else a + 1;
      assert s'.entries[a] == s.entries[a0];
      assert LatestExec(s.execs, s.entries[a0].key, s.entries[a0].exec);
    }
  }

  lemma {:induction false} RejectKeepsAccounts(s: State, exec: nat, maxEntries: int)
    requires exec < |s.execs| && Accounted(s, maxEntries)
    ensures Accounted(RejectedExec(s, exec), maxEntries)
  {
    var key := s.execs[exec].key;
    var s' := RejectedExec(s, exec);
    forall k | LastTouch(s'.history, k) > 0 && !Resident(s'.entries, k)
      ensures |OthersSince(s'.history, k)| >= maxEntries || RejectedSince(s'.history, k)
    {
      AfterRejection(s.history, key, k);
      if k != key { RemovedOnlyTheKey(s.entries, key, k); }
    }
  }

  lemma {:induction false} RejectKeepsInv(s: State, exec: nat, maxEntries: int)
    requires exec < |s.execs| && Inv(s, maxEntries)
    ensures Inv(RejectedExec(s, exec), maxEntries)
  {
    hide Ordered;
    hide Current;
    hide Accounted;
    hide Known;
    hide IndexOf;
    RejectKeepsOrder(s, exec);
    RejectKeepsCurrent(s, exec);
    RejectKeepsAccounts(s, exec, maxEntries);
  }

  lemma {:induction false} RemovedOnlyTheKey(entries: seq<Entry>, key: string, k: string)
    requires k != key && !Resident(Without(entries, IndexOf(entries, key)), k)
    ensures !Resident(entries, k)
  {
    var i := IndexOf(entries, key);
    var rest := Without(entries, i);
    assert forall n :: 0 <= n < |entries| && n != i ==> entries[n] == rest[if n < i then n else n - 1];
  }

  // ---- Every run -----------------------------------------------------------------------------------

  datatype Step = Look(key: string, now: int) | Settle(exec: nat, now: int) | Reject(exec: nat)

  datatype Config = Config(ttlMs: int, maxEntries: int)

  /** An execution ends at most once; a step that cannot be taken changes nothing. */
  function Do(s: State, step: Step, c: Config): State {
    match step
    case Look(key, now) => Looked(s, key, now, c.ttlMs, c.maxEntries)
    case Settle(x, now) => if x < |s.execs| && !Ended(s.execs[x]) then SettledExec(s, x, now) else s
    case Reject(x) => if x < |s.execs| && !Ended(s.execs[x]) then RejectedExec(s, x) else s
  }

  predicate Ended(x: Exec) {
    x.settledAt.Some? || x.rejected
  }

  function After(steps: seq<Step>, c: Config): State {
    if steps == [] then State([], [], []) else Do(After(steps[..|steps| - 1], c), steps[|steps| - 1], c)
  }

  lemma {:induction false} AlwaysInv(steps: seq<Step>, c: Config)
    ensures Inv(After(steps, c), c.maxEntries)
  {
    if steps != [] {
      var s := After(steps[..|steps| - 1], c);
      AlwaysInv(steps[..|steps| - 1], c);
      match steps[|steps| - 1]
      case Look(key, now) => LookKeepsInv(s, key, now, c.ttlMs, c.maxEntries);
      case Settle(x, now) => if x < |s.execs| { SettleKeepsInv(s, x, now, c.maxEntries); }
      case Reject(x) => if x < |s.execs| { RejectKeepsInv(s, x, c.maxEntries); }
    }
  }

  /** Whether the outcome of `x` is too old to be replayed. */
  predicate Expired(x: Exec, now: int, ttlMs: int) {
    x.settledAt.Some? && now - x.settledAt.value >= ttlMs
  }

  /**
   A second execution of a key starts only when the first one settled `ttlMs` ago or more, when
   `maxEntries` other keys were looked up since the key's last lookup, or when an execution of the key
   rejected since; every other lookup gets the outcome of the key's latest execution.
   */
  lemma {:induction false} ReexecutionHasACause(steps: seq<Step>, c: Config, key: string, now: int, x: nat)
    requires LatestExec(After(steps, c).execs, key, x)
    ensures var s := After(steps, c);
            |s.entries| <= c.maxEntries || s.entries == []
    ensures var s := After(steps, c);
            if Hit(s, key, now, c.ttlMs) then Shared(s, key, now, c.ttlMs) == x && !Expired(s.execs[x], now, c.ttlMs)
            else Expired(s.execs[x], now, c.ttlMs)
                 || |OthersSince(s.history, key)| >= c.maxEntries || RejectedSince(s.history, key)
  {
    AlwaysInv(steps, c);
    hide LastTouch;
    hide OthersSince;
    hide RejectedSince;
    hide After;
  }

  // ---- Handlers that never reject ------------------------------------------------------------------

  /** Whoever was looked up after a resident key is resident too. */
  ghost predicate Gapless(s: State) {
    forall i, k :: 0 <= i < |s.entries| && k in OthersSince(s.history, s.entries[i].key) ==> Resident(s.entries, k)
  }

  lemma {:induction false} OthersCameLater(h: seq<Event>, a: string, b: string)
    requires b in OthersSince(h, a)
    ensures a != b && LastTouch(h, a) < LastTouch(h, b)
  {
    var last := h[|h| - 1];
    if last.Touch? && last.key == b {
    } else {
      OthersCameLater(h[..|h| - 1], a, b);
    }
  }

  lemma {:induction false} TouchKeepsGapless(s: State, s': State, e: Entry)
    requires Gapless(s) && s'.history == s.history + [Touch(e.key)]
    requires s'.entries == Without(s.entries, IndexOf(s.entries, e.key)) + [e]
    ensures Gapless(s')
  {
    var at := IndexOf(s.entries, e.key);
    var n := |s'.entries| - 1;
    forall i, k | 0 <= i < |s'.entries| && k in OthersSince(s'.history, s'.entries[i].key)
      ensures Resident(s'.entries, k)
    {
      AfterTouch(s.history, e.key, s'.entries[i].key);
      hide OthersSince;
      assert s'.entries[n] == e && i < n;
      var i0 := if at == |s.entries| || i < at then i else i + 1;
      assert s'.entries[i] == s.entries[i0];
      assert k == e.key || Resident(s.entries, k);
      StaysResident(s.entries, e, k);
    }
  }

  lemma {:induction false} StaysResident(entries: seq<Entry>, e: Entry, k: string)
    requires k == e.key || Resident(entries, k)
    ensures Resident(Without(entries, IndexOf(entries, e.key)) + [e], k)
  {
    var i := IndexOf(entries, e.key);
    var moved := Without(entries, i) + [e];
    assert moved[|moved| - 1] == e;
    assert forall n :: 0 <= n < |entries| && n != i ==> entries[n] == moved[if n < i then n else n - 1];
  }

  lemma {:induction false} DropKeepsGapless(s: State, d: nat)
    requires d <= |s.entries| && Ordered(s) && Gapless(s)
    ensures Gapless(s.(entries := s.entries[d..]))
  {
    var kept := s.entries[d..];
    forall i, k | 0 <= i < |kept| && k in OthersSince(s.history, kept[i].key) ensures Resident(kept, k) {
      assert kept[i] == s.entries[d + i];
      OthersCameLater(s.history, kept[i].key, k);
      hide OthersSince;
      hide LastTouch;
      assert Resident(s.entries, k);
      var j :| 0 <= j < |s.entries| && s.entries[j].key == k;
      assert j > d + i;
      assert kept[j - d].key == k;
    }
  }

  lemma {:induction false} LookKeepsGapless(s: State, key: string, now: int, c: Config)
    requires Inv(s, c.maxEntries) && Gapless(s)
    ensures Gapless(Looked(s, key, now, c.ttlMs, c.maxEntries))
  {
    hide OthersSince;
    hide LastTouch;
    hide Current;
    hide Accounted;
    hide Known;
    var i := IndexOf(s.entries, key);
    var s' := Looked(s, key, now, c.ttlMs, c.maxEntries);
    if Hit(s, key, now, c.ttlMs) {
      TouchKeepsGapless(s, s', s.entries[i]);
    } else {
      var s1 := Started(s, key);
      StartKeepsBooks(s, key, c.maxEntries);
      TouchKeepsGapless(s, s1, Entry(key, |s.execs|, None));
      hide Ordered;
      hide Gapless;
      hide IndexOf;
      var d := |s1.entries| - |s'.entries|;
      assert s' == s1.(entries := s1.entries[d..]);
      DropKeepsGapless(s1, d);
    }
  }

  predicate NeverRejects(steps: seq<Step>) {
    forall i :: 0 <= i < |steps| ==> !steps[i].Reject?
  }

  lemma {:induction false} AlwaysGapless(steps: seq<Step>, c: Config)
    requires NeverRejects(steps)
    ensures Gapless(After(steps, c))
    ensures forall i :: 0 <= i < |After(steps, c).history| ==> After(steps, c).history[i].Touch?
  {
    if steps != [] {
      var before := steps[..|steps| - 1];
      var s := After(before, c);
      AlwaysInv(before, c);
      AlwaysGapless(before, c);
      match steps[|steps| - 1]
      case Look(key, now) => LookKeepsGapless(s, key, now, c);
      case Settle(x, now) => if x < |s.execs| { SettleKeepsGapless(s, x, now); }
      case Reject(x) =>
    }
  }

  lemma {:induction false} SettleKeepsGapless(s: State, exec: nat, now: int)
    requires exec < |s.execs| && Gapless(s)
    ensures Gapless(SettledExec(s, exec, now))
  {
    hide OthersSince;
    hide Stamped;
    var s' := SettledExec(s, exec, now);
    forall k | Resident(s.entries, k) ensures Resident(s'.entries, k) {
      var i :| 0 <= i < |s.entries| && s.entries[i].key == k;
      assert s'.entries[i].key == k;
    }
  }

  lemma {:induction false} TouchesDoNotReject(h: seq<Event>, key: string)
    requires forall i :: 0 <= i < |h| ==> h[i].Touch?
    ensures !RejectedSince(h, key)
  {
    if h != [] { TouchesDoNotReject(h[..|h| - 1], key); }
  }

  /** The keys looked up after a resident key are among those of the younger entries. */
  lemma {:induction false} ResidentHasFewOthers(s: State, i: nat)
    requires Ordered(s) && Gapless(s) && i < |s.entries|
    ensures |OthersSince(s.history, s.entries[i].key)| < |s.entries| - i
  {
    var others := OthersSince(s.history, s.entries[i].key);
    var young := s.entries[i + 1..];
    forall k | k in others ensures exists j :: 0 <= j < |young| && young[j].key == k {
      OthersCameLater(s.history, s.entries[i].key, k);
      hide OthersSince;
      hide LastTouch;
      assert Resident(s.entries, k);
      var j :| 0 <= j < |s.entries| && s.entries[j].key == k;
      assert j > i && young[j - i - 1] == s.entries[j];
    }
    hide OthersSince;
    CoveredBy(others, young);
  }

  lemma {:induction false} CoveredBy(keys: set<string>, es: seq<Entry>)
    requires forall k :: k in keys ==> exists j :: 0 <= j < |es| && es[j].key == k
    ensures |keys| <= |es|
  {
    if es == [] {
      assert forall k :: k !in keys;
      assert keys == {};
    } else {
      var n := |es| - 1;
      var rest := keys - {es[n].key};
      forall k | k in rest ensures exists j :: 0 <= j < n && es[..n][j].key == k {
        var j :| 0 <= j < |es| && es[j].key == k;
        assert j < n && es[..n][j] == es[j];
      }
      CoveredBy(rest, es[..n]);
      assert keys <= rest + {es[n].key};
      SubsetSize(keys, rest + {es[n].key});
    }
  }

  /**
   When no handler promise rejects, which is how tool handlers are wrapped, the cache is exact: a lookup
   of a key that has been run shares its latest outcome if and only if that outcome is not `ttlMs` old
   and fewer than `maxEntries` other keys were looked up since.
   */
  lemma {:induction false} SharesExactlyWhileRecent(steps: seq<Step>, c: Config, key: string, now: int, x: nat)
    requires NeverRejects(steps) && LatestExec(After(steps, c).execs, key, x)
    ensures var s := After(steps, c);
            Hit(s, key, now, c.ttlMs) <==>
              !Expired(s.execs[x], now, c.ttlMs) && |OthersSince(s.history, key)| < c.maxEntries
  {
    var s := After(steps, c);
    AlwaysInv(steps, c);
    AlwaysGapless(steps, c);
    ReexecutionHasACause(steps, c, key, now, x);
    TouchesDoNotReject(s.history, key);
    hide LastTouch;
    hide OthersSince;
    hide RejectedSince;
    hide After;
    var i := IndexOf(s.entries, key);
    if i < |s.entries| { ResidentHasFewOthers(s, i); }
  }

  // ---- Handlers that reject ------------------------------------------------------------------------

  /**
   The handler of `a`'s first execution rejects after `a` was evicted and started again: the entry of
   the running second execution is dropped, and a third one starts beside it.
   */
  lemma {:induction false} StaleRejectionDropsARunningEntry(a: string, b: string, now: int, c: Config)
    requires a != b && c.maxEntries == 1
    ensures var s := After([Look(a, now), Look(b, now), Look(a, now), Reject(0)], c);
            LatestExec(s.execs, a, 2) && !Ended(s.execs[2]) && OthersSince(s.history, a) == {}
            && !Hit(s, a, now, c.ttlMs)
  {
    hide After;
    hide OthersSince;
    hide Looked;
    hide Hit;
    var looks := [Look(a, now), Look(b, now), Look(a, now)];
    var s3 := After(looks, c);
    ThreeLooks(a, b, now, c);
    assert looks + [Reject(0)] == [Look(a, now), Look(b, now), Look(a, now), Reject(0)];
    AfterOne(looks, Reject(0), c);
    AfterRejection(s3.history, a, a);
    var s := After(looks + [Reject(0)], c);
    assert s == RejectedExec(s3, 0);
    EmptyMisses(s, a, now, c.ttlMs);
  }

  lemma {:induction false} ThreeLooks(a: string, b: string, now: int, c: Config)
    requires a != b && c.maxEntries == 1
    ensures var s := After([Look(a, now), Look(b, now), Look(a, now)], c);
            s.entries == [Entry(a, 2, None)] && OthersSince(s.history, a) == {}
            && s.execs == [Exec(a, None, false), Exec(b, None, false), Exec(a, None, false)]
  {
    hide OthersSince;
    hide Hit;
    var s1 := Started(State([], [], []), a);
    var s2 := Started(s1, b).(entries := [Entry(b, 1, None)]);
    FirstLook(a, now, c);
    AfterOne([], Look(a, now), c);
    assert [] + [Look(a, now)] == [Look(a, now)];
    hide After;
    hide Do;
    assert After([Look(a, now)], c) == s1;
    AfterOne([Look(a, now)], Look(b, now), c);
    OnlyEntryReplaced(s1, b, now, c);
    assert [Look(a, now)] + [Look(b, now)] == [Look(a, now), Look(b, now)];
    AfterOne([Look(a, now), Look(b, now)], Look(a, now), c);
    OnlyEntryReplaced(s2, a, now, c);
    assert [Look(a, now), Look(b, now)] + [Look(a, now)] == [Look(a, now), Look(b, now), Look(a, now)];
    AfterTouch(s2.history, a, a);
  }

  lemma {:induction false} EmptyMisses(s: State, key: string, now: int, ttlMs: int)
    requires |s.entries| == 0
    ensures !Hit(s, key, now, ttlMs)
  {
  }

  lemma {:induction false} FirstLook(key: string, now: int, c: Config)
    requires c.maxEntries == 1
    ensures Do(State([], [], []), Look(key, now), c) == Started(State([], [], []), key)
  {
  }

  lemma {:induction false} OnlyEntryReplaced(s: State, key: string, now: int, c: Config)
    requires c.maxEntries == 1 && |s.entries| == 1 && s.entries[0].key != key
    ensures Do(s, Look(key, now), c) == Started(s, key).(entries := [Entry(key, |s.execs|, None)])
  {
    assert IndexOf(s.entries, key) == 1;
    assert Started(s, key).entries[1..] == [Entry(key, |s.execs|, None)];
  }

  lemma {:induction false} AfterOne(steps: seq<Step>, step: Step, c: Config)
    ensures After(steps + [step], c) == Do(After(steps, c), step, c)
  {
    assert (steps + [step])[..|steps|] == steps;
  }
}
