/**
 Run execution across concurrent starters, drives and cancellers
 (packages/runtime/src/run-execution-service.ts over session-lock.ts).

 Each `await` splits the code into atomic segments. `Step` names the segments, `Do` is what one does
 to the shared state, and `Service` is the code, segment by segment, proved to do exactly that.
 The theorems hold after any sequence of enabled steps, so for every interleaving.
 */
module RunService {
  import opened Rows

  type RunId = nat
  type SessionId = string

  /** Where the code of one `start` call stands. */
  datatype Phase = Refused | Setup | Driving | Finalizing | SetupFailed | Ended

  datatype Task = Task(session: SessionId, phase: Phase, cancelSeen: bool)

  datatype State = State(
    locks: map<SessionId, RunId>,
    active: map<RunId, bool>,      // run -> has its controller been aborted
    cancelled: set<RunId>,
    rows: map<RunId, RunStatus>,
    tasks: map<RunId, Task>)

  datatype Step =
    | Start(run: RunId, session: SessionId)   // lock, register
    | CreateRow(run: RunId)                   // runs.create
    | FailSetup(run: RunId)                   // the catch of the setup block
    | Drive(run: RunId)                       // setup done, the loop is entered
    | LoopWrite(run: RunId, to: RunStatus)    // a terminal write of the loop
    | Drained(run: RunId)                     // the loop ended: the finally block is entered
    | LateCancel(run: RunId, throws: bool)    // the finally block after awaiting runs.cancel
    | RequestCancel(run: RunId)

  predicate Live(p: Phase) { p.Setup? || p.Driving? || p.Finalizing? }

  predicate At(s: State, run: RunId, p: Phase) { run in s.tasks && s.tasks[run].phase == p }

  /** A step can happen: run ids are fresh, and each call goes through its segments in order. */
  predicate Enabled(s: State, step: Step) {
    match step
    case Start(run, _) => run !in s.tasks
    case CreateRow(run) => At(s, run, Setup) && run !in s.rows
    case FailSetup(run) => At(s, run, Setup)
    case Drive(run) => At(s, run, Setup) && run in s.rows
    case LoopWrite(run, to) => At(s, run, Driving) && !to.Running?
    case Drained(run) => At(s, run, Driving)
    case LateCancel(run, _) => At(s, run, Finalizing)
    case RequestCancel(_) => true
  }

  function Released(locks: map<SessionId, RunId>, session: SessionId, run: RunId): map<SessionId, RunId> {
    if session in locks && locks[session] == run then locks - {session} else locks
  }

  function Moved(s: State, run: RunId, p: Phase): map<RunId, Task>
    requires run in s.tasks
  {
    s.tasks[run := s.tasks[run].(phase := p)]
  }

  /** Leaving: the registry slot and the lock are given up. */
  function Left(s: State, run: RunId, p: Phase): State
    requires run in s.tasks
  {
    s.(active := s.active - {run},
       locks := Released(s.locks, s.tasks[run].session, run),
       tasks := Moved(s, run, p))
  }

  function WriteRow(rows: map<RunId, RunStatus>, run: RunId, to: RunStatus): map<RunId, RunStatus> {
    if run in rows then rows[run := Finish(rows[run], to)] else rows
  }

  function Do(s: State, step: Step): State
    requires Enabled(s, step)
  {
    match step
    case Start(run, session) =>
      if session in s.locks then s.(tasks := s.tasks[run := Task(session, Refused, false)])
      else s.(locks := s.locks[session := run],
              active := s.active[run := false],
              tasks := s.tasks[run := Task(session, Setup, false)])
    case CreateRow(run) => s.(rows := s.rows[run := Running])
    case FailSetup(run) => Left(s, run, SetupFailed)
    case Drive(run) => s.(tasks := Moved(s, run, Driving))
    case LoopWrite(run, to) => s.(rows := WriteRow(s.rows, run, to))
    case Drained(run) =>
      if run in s.cancelled then s.(tasks := Moved(s, run, Finalizing)) else Left(s, run, Ended)
    case LateCancel(run, throws) =>
      var s' := s.(rows := if throws then s.rows else WriteRow(s.rows, run, Cancelled));
      Left(s', run, Ended).(cancelled := s.cancelled - {run})
    case RequestCancel(run) =>
      if run in s.active then
        s.(cancelled := s.cancelled + {run},
           active := s.active[run := true],
           tasks := if run in s.tasks then s.tasks[run := s.tasks[run].(cancelSeen := true)] else s.tasks)
      else s
  }

  const INIT := State(map[], map[], {}, map[], map[])

  // ---- The code, segment by segment --------------------------------------------------------------

  class SessionLock {
    var locks: map<SessionId, RunId>

    constructor ()
      ensures locks == map[]
    {
      locks := map[];
    }

    /** Throws CONFLICT, with no effect, when the session is taken. */
    method Acquire(session: SessionId, run: RunId) returns (conflict: bool)
      modifies this
      ensures conflict <==> session in old(locks)
      ensures locks == if conflict then old(locks) else old(locks)[session := run]
    {
      if session in locks { return true; }
      locks := locks[session := run];
      return false;
    }

    /** The holder frees the session; a release by anyone else, or of a free session, has no effect. */
    method Release(session: SessionId, run: RunId)
      modifies this
      ensures session in old(locks) && old(locks)[session] == run ==>
                session !in locks && forall x :: x != session ==> (x in locks <==> x in old(locks))
      ensures session !in old(locks) || old(locks)[session] != run ==> locks.Keys == old(locks).Keys
      ensures forall x :: x in locks ==> x in old(locks) && locks[x] == old(locks)[x]
    {
      if session in locks && locks[session] == run { locks := locks - {session}; }
    }
  }

  class Service {
    const sessionLock: SessionLock
    var activeRuns: map<RunId, bool>
    var cancelledRuns: set<RunId>
    var rows: map<RunId, RunStatus>
    ghost var tasks: map<RunId, Task>

    constructor ()
      ensures Now() == INIT && fresh(sessionLock)
    {
      sessionLock := new SessionLock();
      activeRuns, cancelledRuns, rows, tasks := map[], {}, map[], map[];
    }

    ghost function Now(): State
      reads this, sessionLock
    {
      State(sessionLock.locks, activeRuns, cancelledRuns, rows, tasks)
    }

    /** `start` up to its first await. */
    method BeginStart(run: RunId, session: SessionId) returns (conflict: bool)
      requires Enabled(Now(), Start(run, session))
      modifies this, sessionLock
      ensures Now() == Do(old(Now()), Start(run, session))
      ensures conflict <==> session in old(sessionLock.locks)
    {
      conflict := sessionLock.Acquire(session, run);
      if conflict {
        tasks := tasks[run := Task(session, Refused, false)];
        return;
      }
      activeRuns := activeRuns[run := false];
      tasks := tasks[run := Task(session, Setup, false)];
    }

    /** The insert of the run row. */
    method InsertRow(run: RunId)
      requires Enabled(Now(), CreateRow(run))
      modifies this
      ensures Now() == Do(old(Now()), CreateRow(run))
    {
      rows := rows[run := Running];
    }

    /** The setup is done: `drive` is called and enters the loop. */
    method EnterDrive(run: RunId)
      requires Enabled(Now(), Drive(run))
      modifies this
      ensures Now() == Do(old(Now()), Drive(run))
      ensures activeRuns == old(activeRuns) && sessionLock.locks == old(sessionLock.locks) && At(Now(), run, Driving)
    {
      tasks := tasks[run := tasks[run].(phase := Driving)];
    }

    /** A terminal write of the loop, guarded by the row's status. */
    method WriteTerminal(run: RunId, to: RunStatus)
      requires Enabled(Now(), LoopWrite(run, to))
      modifies this
      ensures Now() == Do(old(Now()), LoopWrite(run, to))
      ensures run in old(rows) ==> rows == old(rows)[run := if old(rows)[run].Running? then to else old(rows)[run]]
    {
      if run in rows && rows[run].Running? { rows := rows[run := to]; }
    }

    /** The `catch` of the setup block. */
    method AbandonSetup(run: RunId, session: SessionId)
      requires Enabled(Now(), FailSetup(run)) && tasks[run].session == session
      modifies this, sessionLock
      ensures Now() == Do(old(Now()), FailSetup(run))
    {
      activeRuns := activeRuns - {run};
      sessionLock.Release(session, run);
      tasks := tasks[run := tasks[run].(phase := SetupFailed)];
    }

    /** `drive` when the loop has ended: it waits for `runs.cancel`, or leaves at once. */
    method EnterFinally(run: RunId, session: SessionId) returns (awaits: bool)
      requires Enabled(Now(), Drained(run)) && tasks[run].session == session
      modifies this, sessionLock
      ensures Now() == Do(old(Now()), Drained(run))
      ensures awaits <==> run in old(cancelledRuns)
    {
      awaits := run in cancelledRuns;
      if awaits {
        tasks := tasks[run := tasks[run].(phase := Finalizing)];
        return;
      }
      activeRuns := activeRuns - {run};
      sessionLock.Release(session, run);
      tasks := tasks[run := tasks[run].(phase := Ended)];
    }

    /** The rest of that `finally` block; `throws` is the fate of the awaited `runs.cancel`. */
    method LeaveFinally(run: RunId, session: SessionId, throws: bool)
      requires Enabled(Now(), LateCancel(run, throws)) && tasks[run].session == session
      modifies this, sessionLock
      ensures Now() == Do(old(Now()), LateCancel(run, throws))
    {
      if !throws && run in rows { rows := rows[run := Finish(rows[run], Cancelled)]; }
      cancelledRuns := cancelledRuns - {run};
      activeRuns := activeRuns - {run};
      sessionLock.Release(session, run);
      tasks := tasks[run := tasks[run].(phase := Ended)];
    }

    method Cancel(run: RunId) returns (requested: bool)
      modifies this
      ensures Now() == Do(old(Now()), RequestCancel(run)) && requested
    {
      if run in activeRuns {
        cancelledRuns := cancelledRuns + {run};
        activeRuns := activeRuns[run := true];
        if run in tasks { tasks := tasks[run := tasks[run].(cancelSeen := true)]; }
      }
      return true;
    }
  }

  // ---- Every interleaving ---------------------------------------------------------------------------

  /** The steps of a run of the system, each enabled when it happens. */
  predicate Possible(s: State, steps: seq<Step>)
    decreases |steps|
  {
    steps == [] || (Enabled(s, steps[0]) && Possible(Do(s, steps[0]), steps[1..]))
  }

  function Reached(s: State, steps: seq<Step>): State
    requires Possible(s, steps)
    decreases |steps|
  {
    if steps == [] then s else Reached(Do(s, steps[0]), steps[1..])
  }

  /** Live runs, registry slots and locks correspond one to one. */
  ghost predicate LocksOk(s: State) {
    && (forall r :: r in s.active <==> r in s.tasks && Live(s.tasks[r].phase))
    && (forall r :: r in s.active ==>
          s.tasks[r].session in s.locks && s.locks[s.tasks[r].session] == r)
    && (forall x :: x in s.locks ==>
          s.locks[x] in s.active && s.tasks[s.locks[x]].session == x)
  }

  /** A row exists only for a run that got past the lock, and for every run that reached the loop. */
  ghost predicate RowsOk(s: State) {
    && (forall r :: r in s.rows ==> r in s.tasks && !s.tasks[r].phase.Refused?)
    && (forall r :: r in s.tasks && (s.tasks[r].phase.Driving? || s.tasks[r].phase.Finalizing? || s.tasks[r].phase.Ended?)
          ==> r in s.rows)
  }

  /** The row of a run that did not reach the loop is running. */
  ghost predicate SetupOk(s: State) {
    forall r :: r in s.rows && r in s.tasks && (s.tasks[r].phase.Setup? || s.tasks[r].phase.SetupFailed?) ==>
      s.rows[r].Running?
  }

  /** A pending cancellation belongs to a live run, or to one whose setup failed after the request. */
  ghost predicate CancelsOk(s: State) {
    && (forall r :: r in s.cancelled <==>
          r in s.tasks && s.tasks[r].cancelSeen && (Live(s.tasks[r].phase) || s.tasks[r].phase.SetupFailed?))
    && (forall r :: r in s.tasks && s.tasks[r].phase.Finalizing? ==> s.tasks[r].cancelSeen)
  }

  ghost predicate Inv(s: State) { LocksOk(s) && RowsOk(s) && SetupOk(s) && CancelsOk(s) }

  lemma {:induction false} LeaveKeepsLocks(s: State, run: RunId, p: Phase)
    requires LocksOk(s) && run in s.active && !Live(p)
    ensures LocksOk(Left(s, run, p))
  {
  }

  lemma {:induction false} StartKeepsLocks(s: State, run: RunId, session: SessionId)
    requires LocksOk(s) && run !in s.tasks
    ensures LocksOk(Do(s, Start(run, session)))
  {
  }

  lemma {:induction false} StepKeepsLocks(s: State, step: Step)
    requires LocksOk(s) && Enabled(s, step)
    ensures LocksOk(Do(s, step))
  {
    match step
    case Start(run, session) => StartKeepsLocks(s, run, session);
    case FailSetup(run) => LeaveKeepsLocks(s, run, SetupFailed);
    case Drained(run) => if run !in s.cancelled { LeaveKeepsLocks(s, run, Ended); }
    case LateCancel(run, throws) =>
      LeaveKeepsLocks(s, run, Ended);
      var s' := Do(s, step);
      var s0 := Left(s, run, Ended);
      assert s'.locks == s0.locks && s'.active == s0.active && s'.tasks == s0.tasks;
    case _ =>
  }

  lemma {:induction false} StepKeepsRows(s: State, step: Step)
    requires RowsOk(s) && Enabled(s, step)
    ensures RowsOk(Do(s, step))
  {
  }

  lemma {:induction false} StepKeepsSetup(s: State, step: Step)
    requires SetupOk(s) && Enabled(s, step)
    requires step.Start? ==> step.run !in s.rows
    ensures SetupOk(Do(s, step))
  {
  }

  lemma {:induction false} RequestKeepsCancels(s: State, run: RunId)
    requires CancelsOk(s) && LocksOk(s)
    ensures CancelsOk(Do(s, RequestCancel(run)))
  {
  }

  lemma {:induction false} LateCancelKeepsCancels(s: State, run: RunId, throws: bool)
    requires CancelsOk(s) && Enabled(s, LateCancel(run, throws))
    ensures CancelsOk(Do(s, LateCancel(run, throws)))
  {
  }

  lemma {:induction false} DrainedKeepsCancels(s: State, run: RunId)
    requires CancelsOk(s) && Enabled(s, Drained(run))
    ensures CancelsOk(Do(s, Drained(run)))
  {
  }

  lemma {:induction false} StepKeepsCancels(s: State, step: Step)
    requires CancelsOk(s) && LocksOk(s) && Enabled(s, step)
    ensures CancelsOk(Do(s, step))
  {
    match step
    case RequestCancel(run) => RequestKeepsCancels(s, run);
    case LateCancel(run, throws) => LateCancelKeepsCancels(s, run, throws);
    case Drained(run) => DrainedKeepsCancels(s, run);
    case _ =>
      hide LocksOk;
  }

  lemma {:induction false} StepKeepsInv(s: State, step: Step)
    requires Inv(s) && Enabled(s, step)
    ensures Inv(Do(s, step))
  {
    assert step.Start? ==> step.run !in s.rows;
    hide LocksOk;
    hide RowsOk;
    hide SetupOk;
    hide CancelsOk;
    hide Do;
    StepKeepsLocks(s, step);
    StepKeepsRows(s, step);
    StepKeepsSetup(s, step);
    StepKeepsCancels(s, step);
  }

  lemma {:induction false} AlwaysInv(s: State, steps: seq<Step>)
    requires Inv(s) && Possible(s, steps)
    ensures Inv(Reached(s, steps))
    decreases |steps|
  {
    if steps != [] {
      StepKeepsInv(s, steps[0]);
      AlwaysInv(Do(s, steps[0]), steps[1..]);
    }
  }

  /** The registry and the lock agree: the registered runs are exactly the runs that hold a lock. */
  lemma {:induction false} RegistryIsLock(steps: seq<Step>)
    requires Possible(INIT, steps)
    ensures var s := Reached(INIT, steps); s.active.Keys == s.locks.Values
  {
    AlwaysInv(INIT, steps);
    var s := Reached(INIT, steps);
    forall r ensures r in s.active.Keys <==> r in s.locks.Values {
      if r in s.active { assert s.tasks[r].session in s.locks.Keys; }
    }
  }

  /** The session a run was started for. */
  function SessionOf(s: State, run: RunId): SessionId
    requires run in s.tasks
  {
    s.tasks[run].session
  }

  /** At most one run of a session is live, and so executes, whatever the interleaving. */
  lemma {:induction false} MutualExclusion(steps: seq<Step>, a: RunId, b: RunId)
    requires Possible(INIT, steps)
    requires var s := Reached(INIT, steps);
             && a in s.tasks && Live(s.tasks[a].phase) && b in s.tasks && Live(s.tasks[b].phase)
             && SessionOf(s, a) == SessionOf(s, b)
    ensures a == b
  {
    AlwaysInv(INIT, steps);
  }

  /** A start that loses the race for the lock never has a row, not even later. */
  lemma {:induction false} LoserWritesNoRow(steps: seq<Step>, run: RunId)
    requires Possible(INIT, steps) && At(Reached(INIT, steps), run, Refused)
    ensures run !in Reached(INIT, steps).rows
  {
    AlwaysInv(INIT, steps);
  }

  /** No step of one run ever takes the lock away from another run that stays live. */
  lemma {:induction false} NoForeignRelease(steps: seq<Step>, step: Step, run: RunId)
    requires Possible(INIT, steps)
    requires var s := Reached(INIT, steps);
             Enabled(s, step) && run in s.active && run in Do(s, step).active
    ensures var s := Reached(INIT, steps);
            && run in s.tasks && SessionOf(s, run) in Do(s, step).locks
            && Do(s, step).locks[SessionOf(s, run)] == run
  {
    AlwaysInv(INIT, steps);
    var s := Reached(INIT, steps);
    hide Reached;
    hide Possible;
    hide CancelsOk;
    hide RowsOk;
    hide SetupOk;
    StepKeepsLocks(s, step);
    StaysLive(s, step, run);
  }

  lemma {:induction false} StaysLive(s: State, step: Step, run: RunId)
    requires LocksOk(s) && Enabled(s, step) && run in s.active
    ensures run in s.tasks && run in Do(s, step).tasks && SessionOf(Do(s, step), run) == SessionOf(s, run)
  {
  }

  /** When every run has ended, no lock and no registry slot is left behind. */
  lemma {:induction false} NothingWedged(steps: seq<Step>)
    requires Possible(INIT, steps)
    requires forall r :: r in Reached(INIT, steps).tasks ==> !Live(Reached(INIT, steps).tasks[r].phase)
    ensures Reached(INIT, steps).locks == map[] && Reached(INIT, steps).active == map[]
  {
    AlwaysInv(INIT, steps);
    var s := Reached(INIT, steps);
    assert forall r :: r !in s.active;
    assert forall x :: x !in s.locks;
  }

  /**
   When every run has ended, the pending-cancellation set is empty exactly when no run was both
   cancelled during its setup and refused by it.
   */
  lemma {:induction false} CancelsDrainedIff(steps: seq<Step>)
    requires Possible(INIT, steps)
    requires forall r :: r in Reached(INIT, steps).tasks ==> !Live(Reached(INIT, steps).tasks[r].phase)
    ensures var s := Reached(INIT, steps);
            s.cancelled == {} <==> forall r :: At(s, r, SetupFailed) ==> !s.tasks[r].cancelSeen
  {
    AlwaysInv(INIT, steps);
    var s := Reached(INIT, steps);
    if forall r :: At(s, r, SetupFailed) ==> !s.tasks[r].cancelSeen {
      assert forall r :: r !in s.cancelled;
      assert s.cancelled == {};
    }
  }

  /** And such a run exists: a cancel during a setup that then fails is never cleaned up. */
  lemma {:induction false} CancelLeaks(session: SessionId)
    ensures var steps := [Start(0, session), RequestCancel(0), FailSetup(0)];
            && Possible(INIT, steps) && Reached(INIT, steps).active == map[]
            && Reached(INIT, steps).cancelled == {0}
  {
    var s1 := Do(INIT, Start(0, session));
    var s2 := Do(s1, RequestCancel(0));
    var s3 := Do(s2, FailSetup(0));
    var steps := [Start(0, session), RequestCancel(0), FailSetup(0)];
    assert Enabled(s2, FailSetup(0)) && [FailSetup(0)][1..] == [];
    assert Possible(s2, [FailSetup(0)]) && Reached(s2, [FailSetup(0)]) == s3;
    assert steps[1..][1..] == [FailSetup(0)];
    assert Possible(s1, steps[1..]) && Reached(s1, steps[1..]) == s3;
    assert s3.active == map[] && s3.cancelled == {0};
  }

  /** A run that goes through ends with its status, its lock and its slot given up. */
  lemma {:induction false} OrdinaryRun(session: SessionId, to: RunStatus)
    requires !to.Running?
    ensures var steps := [Start(0, session), CreateRow(0), Drive(0), LoopWrite(0, to), Drained(0)];
            && Possible(INIT, steps)
            && Reached(INIT, steps) == State(map[], map[], {}, map[0 := to], map[0 := Task(session, Ended, false)])
  {
    hide *;
    var s1, s2, s3, s4, s5 := OrdinaryStates(session, to);
    var d, l, v, c := [Drained(0)], [LoopWrite(0, to), Drained(0)], [Drive(0), LoopWrite(0, to), Drained(0)],
      [CreateRow(0), Drive(0), LoopWrite(0, to), Drained(0)];
    NoStep(s5);
    FirstStep(s4, Drained(0), []);
    assert [Drained(0)] + [] == d;
    FirstStep(s3, LoopWrite(0, to), d);
    assert [LoopWrite(0, to)] + d == l;
    FirstStep(s2, Drive(0), l);
    assert [Drive(0)] + l == v;
    FirstStep(s1, CreateRow(0), v);
    assert [CreateRow(0)] + v == c;
    FirstStep(INIT, Start(0, session), c);
    assert [Start(0, session)] + c == [Start(0, session), CreateRow(0), Drive(0), LoopWrite(0, to), Drained(0)];
  }

  lemma {:induction false} NoStep(s: State)
    ensures Possible(s, []) && Reached(s, []) == s
  {
  }

  lemma {:induction false} OrdinaryStates(session: SessionId, to: RunStatus)
      returns (s1: State, s2: State, s3: State, s4: State, s5: State)
    requires !to.Running?
    ensures Enabled(INIT, Start(0, session)) && s1 == Do(INIT, Start(0, session))
    ensures Enabled(s1, CreateRow(0)) && s2 == Do(s1, CreateRow(0))
    ensures Enabled(s2, Drive(0)) && s3 == Do(s2, Drive(0))
    ensures Enabled(s3, LoopWrite(0, to)) && s4 == Do(s3, LoopWrite(0, to))
    ensures Enabled(s4, Drained(0)) && s5 == Do(s4, Drained(0))
    ensures s5 == State(map[], map[], {}, map[0 := to], map[0 := Task(session, Ended, false)])
  {
    s1 := Do(INIT, Start(0, session));
    assert s1 == State(map[session := 0], map[0 := false], {}, map[], map[0 := Task(session, Setup, false)]);
    s2 := Do(s1, CreateRow(0));
    assert s2 == s1.(rows := map[0 := Running]);
    s3 := Do(s2, Drive(0));
    assert s3 == s2.(tasks := map[0 := Task(session, Driving, false)]);
    s4 := Do(s3, LoopWrite(0, to));
    assert s4 == s3.(rows := map[0 := to]);
    s5 := Do(s4, Drained(0));
    assert s5.locks == map[] && s5.active == map[];
  }

  lemma {:induction false} FirstStep(s: State, step: Step, rest: seq<Step>)
    requires Enabled(s, step)
    ensures Possible(s, [step] + rest) <==> Possible(Do(s, step), rest)
    ensures Possible(Do(s, step), rest) ==> Reached(s, [step] + rest) == Reached(Do(s, step), rest)
  {
    assert ([step] + rest)[1..] == rest;
  }

  // ---- The persisted status -------------------------------------------------------------------------

  /** A run has one row: once it is there it is not inserted again. */
  lemma {:induction false} InsertedOnce(s: State, steps: seq<Step>, run: RunId)
    requires Possible(s, steps) && run in s.rows
    ensures CreateRow(run) !in steps
    decreases |steps|
  {
    if steps != [] {
      assert steps == [steps[0]] + steps[1..];
      InsertedOnce(Do(s, steps[0]), steps[1..], run);
    }
  }

  /** A terminal row never changes again, in particular not by the late cancel of `drive`. */
  lemma {:induction false} TerminalIsFinal(s: State, steps: seq<Step>, run: RunId)
    requires Inv(s) && Possible(s, steps) && run in s.rows && !s.rows[run].Running?
    ensures run in Reached(s, steps).rows && Reached(s, steps).rows[run] == s.rows[run]
    decreases |steps|
  {
    if steps != [] {
      StepKeepsInv(s, steps[0]);
      TerminalIsFinal(Do(s, steps[0]), steps[1..], run);
    }
  }

  /** A terminal write aimed at a run: one of its loop, or the late cancel if it did not throw. */
  predicate Writes(step: Step, run: RunId) {
    (step.LoopWrite? && step.run == run) || step == LateCancel(run, false)
  }

  predicate Written(steps: seq<Step>, run: RunId) {
    exists i :: 0 <= i < |steps| && Writes(steps[i], run)
  }

  /** At every moment exactly the rows that no terminal write was aimed at are running. */
  lemma {:induction false} RunningUntilWritten(s: State, steps: seq<Step>, run: RunId)
    requires Inv(s) && Possible(s, steps) && run in Reached(s, steps).rows
    requires run in s.rows ==> s.rows[run].Running?
    ensures Reached(s, steps).rows[run].Running? <==> !Written(steps, run)
    decreases |steps|
  {
    if steps != [] {
      var step, rest := steps[0], steps[1..];
      StepKeepsInv(s, step);
      var s' := Do(s, step);
      WrittenFirst(steps, run);
      StepWrites(s, step, run);
      hide Inv;
      hide Do;
      hide Written;
      hide Writes;
      if Writes(step, run) {
        TerminalIsFinal(s', rest, run);
      } else {
        RunningUntilWritten(s', rest, run);
      }
    }
  }

  lemma {:induction false} WrittenFirst(steps: seq<Step>, run: RunId)
    requires steps != []
    ensures Written(steps, run) <==> Writes(steps[0], run) || Written(steps[1..], run)
  {
    hide Writes;
    if Written(steps, run) {
      var i :| 0 <= i < |steps| && Writes(steps[i], run);
      if i > 0 { assert steps[1..][i - 1] == steps[i]; }
    }
    if Written(steps[1..], run) {
      var i :| 0 <= i < |steps[1..]| && Writes(steps[1..][i], run);
      assert steps[i + 1] == steps[1..][i];
    }
  }

  lemma {:induction false} StepWrites(s: State, step: Step, run: RunId)
    requires RowsOk(s) && Enabled(s, step) && (run in s.rows ==> s.rows[run].Running?)
    ensures var rows := Do(s, step).rows;
            && (run in rows ==> (rows[run].Running? <==> !Writes(step, run)))
            && (Writes(step, run) ==> run in rows)
  {
  }

  /**
   When every run has ended the rows still running are those of runs whose setup failed after the insert
   and those of runs that no terminal write reached.
   */
  lemma {:induction false} LeftRunningExactly(steps: seq<Step>, run: RunId)
    requires Possible(INIT, steps)
    requires forall r :: r in Reached(INIT, steps).tasks ==> !Live(Reached(INIT, steps).tasks[r].phase)
    requires run in Reached(INIT, steps).rows
    ensures var s := Reached(INIT, steps);
            && (At(s, run, SetupFailed) || At(s, run, Ended))
            && (s.rows[run].Running? <==> At(s, run, SetupFailed) || !Written(steps, run))
  {
    AlwaysInv(INIT, steps);
    RunningUntilWritten(INIT, steps, run);
    hide Written;
  }

  /** Such a run: nothing ever finishes the row of a setup that failed after it. */
  lemma {:induction false} FailedSetupLeavesItsRow(session: SessionId)
    ensures var steps := [Start(0, session), CreateRow(0), FailSetup(0)];
            && Possible(INIT, steps) && Reached(INIT, steps).active == map[]
            && Reached(INIT, steps).rows == map[0 := Running]
  {
    var s1 := Do(INIT, Start(0, session));
    var s2 := Do(s1, CreateRow(0));
    var s3 := Do(s2, FailSetup(0));
    var steps := [Start(0, session), CreateRow(0), FailSetup(0)];
    assert Enabled(s2, FailSetup(0)) && [FailSetup(0)][1..] == [];
    assert Possible(s2, [FailSetup(0)]) && Reached(s2, [FailSetup(0)]) == s3;
    assert steps[1..][1..] == [FailSetup(0)];
    assert Possible(s1, steps[1..]) && Reached(s1, steps[1..]) == s3;
    assert s3.active == map[] && s3.rows == map[0 := Running];
  }

  /** A drained run whose cancellation was requested ends terminal, unless the late write was lost. */
  lemma {:induction false} CancelledRunEndsTerminal(steps: seq<Step>, run: RunId)
    requires Possible(INIT, steps) && Enabled(Reached(INIT, steps), LateCancel(run, false))
    ensures var s := Reached(INIT, steps);
            var s' := Do(s, LateCancel(run, false));
            && run in s.rows && run in s'.rows && !s'.rows[run].Running?
            && (s.rows[run].Running? ==> s'.rows[run].Cancelled?)
            && (!s.rows[run].Running? ==> s'.rows[run] == s.rows[run])
            && run !in s'.cancelled && run !in s'.active
  {
    AlwaysInv(INIT, steps);
  }
}
