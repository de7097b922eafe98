/**
 Deadline and cancellation signals (packages/runtime/src/deadlines.ts, the composition in
 engine.ts, and the terminal classification of loop.ts).

 An abort log lists, in time order, which source aborted. A signal is a source or the composition
 `AbortSignal.any(parts)` made when the log had length `at`. The module proves that the nested
 composition a run builds has exactly one meaning: the cause of the first of its sources to abort.
 */
module Deadlines {
  import opened Common

  datatype Scope = TotalScope | ModelScope | ToolScope

  datatype Cause = UserCancel | RunTimeout(scope: Scope)

  /** Abort sources: the run's own controller, the caller's signal, the total deadline, call timers. */
  datatype Source = Controller | External | TotalTimer | CallTimer(id: nat, scope: Scope)

  /** A deadline controller aborts with a `RunTimeoutError`; a cancellation without one. */
  function CauseOf(s: Source): Cause {
    match s
    case Controller => UserCancel
    case External => UserCancel
    case TotalTimer => RunTimeout(TotalScope)
    case CallTimer(_, scope) => RunTimeout(scope)
  }

  datatype Signal = Leaf(source: Source) | Any(at: nat, left: Signal, right: Signal)

  /**
   The reason a signal carries once `n` entries of the log have happened. A composition adopts, when
   made, the reason of its first part that is already aborted, and later that of the first part to
   abort; a reason never changes once set.
   */
  function ReasonAt(s: Signal, log: seq<Source>, n: nat): Option<Cause>
    requires n <= |log|
    decreases s, n
  {
    match s
    case Leaf(source) => if source in log[..n] then Some(CauseOf(source)) else None
    case Any(at, l, r) =>
      if n < at then None
      else if n > at && ReasonAt(s, log, n - 1).Some? then ReasonAt(s, log, n - 1)
      else if ReasonAt(l, log, n).Some? then ReasonAt(l, log, n)
      else ReasonAt(r, log, n)
  }

  /** The cause of the first entry made by one of `sources`. */
  function FirstCause(log: seq<Source>, sources: set<Source>): Option<Cause> {
    if log == [] then None
    else if log[0] in sources then Some(CauseOf(log[0]))
    else FirstCause(log[1..], sources)
  }

  lemma {:induction false} FirstCauseAppend(log: seq<Source>, s: Source, sources: set<Source>)
    ensures FirstCause(log + [s], sources)
         == if FirstCause(log, sources).Some? then FirstCause(log, sources)
            else if s in sources then Some(CauseOf(s)) else None
  {
    if log == [] {
      assert log + [s] == [s];
    } else {
      assert (log + [s])[1..] == log[1..] + [s];
      FirstCauseAppend(log[1..], s, sources);
    }
  }

  /** A longer log never revises the first cause. */
  lemma {:induction false} FirstCauseStable(log: seq<Source>, more: seq<Source>, sources: set<Source>)
    requires FirstCause(log, sources).Some?
    ensures FirstCause(log + more, sources) == FirstCause(log, sources)
  {
    assert (log + more)[0] == log[0];
    if log[0] !in sources {
      assert (log + more)[1..] == log[1..] + more;
      FirstCauseStable(log[1..], more, sources);
    }
  }

  lemma {:induction false} FirstCauseFresh(log: seq<Source>, sources: set<Source>, extra: Source)
    requires extra !in log
    ensures FirstCause(log, sources + {extra}) == FirstCause(log, sources)
  {
    if log != [] { FirstCauseFresh(log[1..], sources, extra); }
  }

  /** The sources of a cancellation: they all abort with the same cause. */
  lemma {:induction false} CancelCause(log: seq<Source>)
    ensures FirstCause(log, {Controller, External})
         == if Controller in log || External in log then Some(UserCancel) else None
  {
    if log != [] && log[0] !in {Controller, External} { CancelCause(log[1..]); }
  }

  /** `drive`: the caller's signal, when there is one, merged with the run's controller. */
  function CancelSignal(withExternal: bool, at: nat): Signal {
    if withExternal then Any(at, Leaf(External), Leaf(Controller)) else Leaf(Controller)
  }

  function CancelSources(withExternal: bool): set<Source> {
    if withExternal then {Controller, External} else {Controller}
  }

  /** `executePreparedRun`: the cancellation signal merged with the fresh total deadline. */
  function RunSignal(withExternal: bool, at0: nat, at1: nat): Signal {
    Any(at1, CancelSignal(withExternal, at0), Leaf(TotalTimer))
  }

  function RunSources(withExternal: bool): set<Source> { CancelSources(withExternal) + {TotalTimer} }

  /** `deriveCallDeadline`: with a positive timeout a fresh timer is merged in, otherwise not. */
  function CallSignal(base: Signal, at: nat, timer: Option<Source>): Signal {
    if timer.Some? then Any(at, base, Leaf(timer.value)) else base
  }

  lemma {:induction false} LeafReason(source: Source, log: seq<Source>)
    ensures ReasonAt(Leaf(source), log, |log|) == FirstCause(log, {source})
  {
    assert log[..|log|] == log;
    if log != [] {
      LeafReason(source, log[1..]);
      assert log[1..][..|log| - 1] == log[1..];
    }
  }

  lemma {:induction false} ReasonAtPrefix(s: Signal, log: seq<Source>, more: seq<Source>, n: nat)
    requires n <= |log|
    ensures ReasonAt(s, log + more, n) == ReasonAt(s, log, n)
    decreases s, n
  {
    assert (log + more)[..n] == log[..n];
    if s.Any? {
      ReasonAtPrefix(s.left, log, more, n);
      ReasonAtPrefix(s.right, log, more, n);
      if n > s.at { ReasonAtPrefix(s, log, more, n - 1); }
    }
  }

  ghost predicate Means(s: Signal, log: seq<Source>, from: nat, sources: set<Source>) {
    forall n :: from <= n <= |log| ==> ReasonAt(s, log, n) == FirstCause(log[..n], sources)
  }

  lemma {:induction false} LeafMeans(source: Source, log: seq<Source>)
    ensures Means(Leaf(source), log, 0, {source})
  {
    forall n | 0 <= n <= |log| ensures ReasonAt(Leaf(source), log, n) == FirstCause(log[..n], {source}) {
      LeafReason(source, log[..n]);
      ReasonAtPrefix(Leaf(source), log[..n], log[n..], n);
      assert log[..n] + log[n..] == log;
    }
  }

  /** Merging a signal with a source that has not aborted yet adds that source to its meaning. */
  lemma {:induction false} AnyFreshMeans(s: Signal, log: seq<Source>, from: nat, sources: set<Source>, at: nat,
      source: Source, n: nat)
    requires Means(s, log, from, sources) && from <= at <= n <= |log|
    requires source !in log[..at]
    ensures ReasonAt(Any(at, s, Leaf(source)), log, n) == FirstCause(log[..n], sources + {source})
    decreases n
  {
    LeafMeans(source, log);
    var now := FirstCause(log[..n], sources);
    assert ReasonAt(s, log, n) == now && ReasonAt(Leaf(source), log, n) == FirstCause(log[..n], {source});
    if n == at {
      FirstCauseFresh(log[..at], sources, source);
      FirstCauseFresh(log[..at], {}, source);
      FirstCauseNone(log[..at]);
      assert {} + {source} == {source};
    } else {
      AnyFreshMeans(s, log, from, sources, at, source, n - 1);
      assert log[..n] == log[..n - 1] + [log[n - 1]];
      FirstCauseAppend(log[..n - 1], log[n - 1], sources + {source});
      FirstCauseAppend(log[..n - 1], log[n - 1], sources);
      FirstCauseAppend(log[..n - 1], log[n - 1], {source});
      FirstCauseUnion(log[..n - 1], sources, {source});
    }
  }

  lemma {:induction false} FirstCauseNone(log: seq<Source>)
    ensures FirstCause(log, {}).None?
  {
    if log != [] { FirstCauseNone(log[1..]); }
  }

  lemma {:induction false} FirstCauseUnion(log: seq<Source>, a: set<Source>, b: set<Source>)
    ensures FirstCause(log, a + b).None? <==> FirstCause(log, a).None? && FirstCause(log, b).None?
  {
    if log != [] { FirstCauseUnion(log[1..], a, b); }
  }

  /** Cancel sources share one cause, so their composition is their first cause however made. */
  lemma {:induction false} CancelMeans(withExternal: bool, at: nat, log: seq<Source>)
    requires at <= |log|
    ensures Means(CancelSignal(withExternal, at), log, at, CancelSources(withExternal))
  {
    if withExternal {
      forall n | at <= n <= |log|
        ensures ReasonAt(CancelSignal(true, at), log, n) == FirstCause(log[..n], CancelSources(true)) {
        CancelReason(log, at, n);
        CancelCause(log[..n]);
      }
    } else {
      LeafMeans(Controller, log);
    }
  }

  lemma {:induction false} CancelReason(log: seq<Source>, at: nat, n: nat)
    requires at <= n <= |log|
    ensures ReasonAt(CancelSignal(true, at), log, n)
         == if Controller in log[..n] || External in log[..n] then Some(UserCancel) else None
    decreases n
  {
    if n > at {
      CancelReason(log, at, n - 1);
      assert log[..n] == log[..n - 1] + [log[n - 1]];
    }
  }

  /**
   The first cause wins through the composed signals. The run's signal, and the signal of any call
   made under it, carries the cause of the first of its sources to abort: a cancellation that comes
   first is never reported as a timeout, a deadline that comes first never as a cancellation.
   */
  lemma {:induction false} FirstCauseWins(withExternal: bool, at0: nat, at1: nat, at2: nat, timer: Option<Source>,
      log: seq<Source>)
    requires at0 <= at1 <= at2 <= |log|
    requires TotalTimer !in log[..at1]
    requires timer.Some? ==> timer.value !in log[..at2]
    ensures ReasonAt(RunSignal(withExternal, at0, at1), log, |log|) == FirstCause(log, RunSources(withExternal))
    ensures ReasonAt(CallSignal(RunSignal(withExternal, at0, at1), at2, timer), log, |log|)
         == FirstCause(log, RunSources(withExternal) + if timer.Some? then {timer.value} else {})
  {
    assert log[..|log|] == log;
    var run := RunSignal(withExternal, at0, at1);
    CancelMeans(withExternal, at0, log);
    forall n | at1 <= n <= |log|
      ensures ReasonAt(run, log, n) == FirstCause(log[..n], RunSources(withExternal)) {
      AnyFreshMeans(CancelSignal(withExternal, at0), log, at0, CancelSources(withExternal), at1, TotalTimer, n);
    }
    if timer.Some? {
      AnyFreshMeans(run, log, at1, RunSources(withExternal), at2, timer.value, |log|);
    } else {
      assert RunSources(withExternal) + {} == RunSources(withExternal);
    }
  }

  // ---- Timers --------------------------------------------------------------------------------

  datatype TimerStep = TimeUp | Discard

  /** What a timer's controller was aborted with after `steps`. */
  function TimerReason(scope: Scope, armed: bool, steps: seq<TimerStep>): Option<Cause> {
    if armed && steps != [] && steps[0].TimeUp? then Some(RunTimeout(scope))
    else if steps == [] || steps[0].Discard? then None
    else TimerReason(scope, armed, steps[1..])
  }

  lemma {:induction false} TimerReasonMore(scope: Scope, armed: bool, steps: seq<TimerStep>, step: TimerStep)
    ensures TimerReason(scope, armed, steps + [step])
         == if armed && step.TimeUp? && Discard !in steps then Some(RunTimeout(scope))
            else TimerReason(scope, armed, steps)
  {
    if steps != [] {
      assert (steps + [step])[1..] == steps[1..] + [step];
      TimerReasonMore(scope, armed, steps[1..], step);
    }
  }

  /** A timer aborts exactly when it is armed and its time is up before it is discarded. */
  lemma {:induction false} AbortsExactlyInTime(scope: Scope, armed: bool, steps: seq<TimerStep>)
    ensures TimerReason(scope, armed, steps).Some?
       <==> armed && exists i :: 0 <= i < |steps| && steps[i].TimeUp? && Discard !in steps[..i]
  {
    if steps != [] {
      AbortsExactlyInTime(scope, armed, steps[1..]);
      assert Discard !in steps[..0];
      forall i | 0 < i < |steps| ensures steps[..i] == [steps[0]] + steps[1..][..i - 1] {}
      if armed && steps[0].TimeUp? { assert steps[0].TimeUp? && Discard !in steps[..0]; }
    }
  }

  /** A discarded timer never aborts, or aborts again, later. */
  lemma {:induction false} DiscardedStays(scope: Scope, armed: bool, steps: seq<TimerStep>, more: seq<TimerStep>)
    requires Discard in steps
    ensures TimerReason(scope, armed, steps + more) == TimerReason(scope, armed, steps)
  {
    assert (steps + more)[0] == steps[0];
    if steps[0].TimeUp? {
      assert (steps + more)[1..] == steps[1..] + more;
      DiscardedStays(scope, armed, steps[1..], more);
    }
  }

  /** `armController`: a timer that may abort its controller once, unless disposed first. */
  class DeadlineController {
    const scope: Scope
    const armed: bool
    var reason: Option<Cause>
    var disposed: bool
    ghost var past: seq<TimerStep>

    ghost predicate Valid()
      reads this
    {
      reason == TimerReason(scope, armed, past) && (disposed <==> Discard in past)
    }

    constructor (scope: Scope, timeoutMs: int)
      ensures Valid() && this.scope == scope && armed == (timeoutMs > 0) && past == []
    {
      this.scope, armed, reason, disposed := scope, timeoutMs > 0, None, false;
      past := [];
    }

    /** The timer elapses; a missing, zero or negative timeout has no timer. */
    method Elapse()
      requires Valid()
      modifies this`reason, this`past
      ensures Valid() && past == old(past) + [TimeUp]
      ensures reason == if armed && !disposed then Some(RunTimeout(scope)) else old(reason)
    {
      TimerReasonMore(scope, armed, past, TimeUp);
      if armed && !disposed && reason.None? { reason := Some(RunTimeout(scope)); }
      past := past + [TimeUp];
    }

    method Dispose()
      requires Valid()
      modifies this`disposed, this`past
      ensures Valid() && disposed && past == old(past) + [Discard]
    {
      TimerReasonMore(scope, armed, past, Discard);
      past := past + [Discard];
      if disposed { return; }
      disposed := true;
    }
  }

  /** `timeoutReason`: the timeout a signal aborted with, if any. */
  function TimeoutReason(reason: Option<Cause>): (fired: Option<Cause>)
    ensures fired.Some? <==> reason.Some? && reason.value.RunTimeout?
    ensures fired.Some? ==> fired == reason
  {
    if reason.Some? && reason.value.RunTimeout? then reason else None
  }
}
