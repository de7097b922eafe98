/**
 The reserve-then-settle spend ledger (packages/db/src/repositories/playground-spend-repo.ts).

 `Repo` is the repository, one committed call at a time. Below it, reserve transactions run
 concurrently under row locking, statement by statement; the theorems hold for every interleaving.
 Amounts are integer micro-USD.
 */
module SpendLedger {
  import opened Common

  type Day = string

  datatype Row = Row(id: string, day: Day, session: string, amount: int, runId: Option<string>,
                     settled: bool, terminal: Option<string>, createdAt: int)

  /** The committed day totals and reservation rows. */
  datatype Db = Db(totals: map<Day, int>, rows: seq<Row>)

  datatype Outcome = Invalid | Accepted(dayTotal: int) | Refused(dayTotal: int)

  function Total(db: Db, day: Day): int { if day in db.totals then db.totals[day] else 0 }

  datatype Request = Request(id: string, day: Day, session: string, amount: int, ceiling: int, now: int)

  predicate Fits(db: Db, q: Request) { Total(db, q.day) + q.amount <= q.ceiling }

  function RowOf(q: Request): Row {
    Row(q.id, q.day, q.session, q.amount, None, false, None, q.now)
  }

  /** What an accepted reservation does to the committed state. */
  function Charged(db: Db, q: Request): Db {
    Db(db.totals[q.day := Total(db, q.day) + q.amount], db.rows + [RowOf(q)])
  }

  function Attached(rows: seq<Row>, id: string, runId: string): seq<Row> {
    seq(|rows|, i requires 0 <= i < |rows| =>
      if rows[i].id == id && rows[i].runId.None? then rows[i].(runId := Some(runId)) else rows[i])
  }

  function Settled(rows: seq<Row>, id: string, status: string): seq<Row> {
    seq(|rows|, i requires 0 <= i < |rows| =>
      if rows[i].id == id && !rows[i].settled then rows[i].(settled := true, terminal := Some(status)) else rows[i])
  }

  function Swept(rows: seq<Row>, cutoff: int): seq<Row> {
    seq(|rows|, i requires 0 <= i < |rows| =>
      if Abandons(rows[i], cutoff)
      then rows[i].(settled := true, terminal := Some("abandoned")) else rows[i])
  }

  predicate Abandons(row: Row, cutoff: int) { !row.settled && row.createdAt < cutoff }

  /** The rows of `after` that `before` still had as reserved and that are settled now, in order. */
  function NewlySettled(before: seq<Row>, after: seq<Row>): seq<Row>
    requires |before| == |after|
  {
    if before == [] then []
    else
      var last := |before| - 1;
      NewlySettled(before[..last], after[..last])
      + if !before[last].settled && after[last].settled then [after[last]] else []
  }

  datatype Bookkeeping =
    | AttachOne(id: string, runId: string)
    | SettleOne(id: string, status: string)
    | SweepOlder(cutoff: int)

  function BookedOne(rows: seq<Row>, op: Bookkeeping): seq<Row> {
    match op
    case AttachOne(id, runId) => Attached(rows, id, runId)
    case SettleOne(id, status) => Settled(rows, id, status)
    case SweepOlder(cutoff) => Swept(rows, cutoff)
  }

  class Repo {
    var totals: map<Day, int>
    var rows: seq<Row>

    constructor ()
      ensures Now() == Db(map[], [])
    {
      totals, rows := map[], [];
    }

    function Now(): Db
      reads this
    {
      Db(totals, rows)
    }

    /** `reserve`: one transaction, rolled back as a whole on a refusal. */
    method Reserve(q: Request) returns (o: Outcome)
      modifies this
      ensures q.amount <= 0 ==> o == Invalid && Now() == old(Now())
      ensures q.amount > 0 && Fits(old(Now()), q) ==>
                && Now() == Charged(old(Now()), q)
                && rows == old(rows) + [Row(q.id, q.day, q.session, q.amount, None, false, None, q.now)]
                && q.day in totals && o == Accepted(totals[q.day])
                && totals[q.day] == q.amount + (if q.day in old(totals) then old(totals)[q.day] else 0)
                && totals - {q.day} == old(totals) - {q.day}
      ensures q.amount > 0 && !Fits(old(Now()), q) ==>
                o == Refused(Total(old(Now()), q.day)) && Now() == old(Now())
    {
      if q.amount <= 0 { return Invalid; }
      var saved := totals;
      if q.day !in totals { totals := totals[q.day := 0]; }
      if totals[q.day] + q.amount <= q.ceiling {
        totals := totals[q.day := totals[q.day] + q.amount];
        rows := rows + [RowOf(q)];
        return Accepted(totals[q.day]);
      }
      o := Refused(totals[q.day]);
      totals := saved;
    }

    /** Names the run of a reservation that has none, and returns the row it changed. */
    method AttachRun(id: string, runId: string) returns (attached: Option<Row>)
      modifies this`rows
      ensures |rows| == |old(rows)|
      ensures forall i :: 0 <= i < |rows| ==>
                rows[i] == if old(rows)[i].id == id && old(rows)[i].runId.None?
                           then old(rows)[i].(runId := Some(runId)) else old(rows)[i]
      ensures attached.None? ==> rows == old(rows)
      ensures attached.Some? ==>
                exists i :: 0 <= i < |rows| && rows[i] == attached.value
                            && old(rows)[i].id == id && old(rows)[i].runId.None?
      ensures rows == BookedOne(old(rows), AttachOne(id, runId))
    {
      attached := None;
      ghost var at := 0;
      var i := 0;
      while i < |rows|
        invariant i <= |rows| == |old(rows)|
        invariant forall k :: 0 <= k < i ==>
                    rows[k] == if old(rows)[k].id == id && old(rows)[k].runId.None?
                               then old(rows)[k].(runId := Some(runId)) else old(rows)[k]
        invariant forall k :: i <= k < |rows| ==> rows[k] == old(rows)[k]
        invariant attached.None? ==> rows == old(rows)
        invariant attached.Some? ==>
                    0 <= at < i && rows[at] == attached.value && old(rows)[at].id == id && old(rows)[at].runId.None?
      {
        if rows[i].id == id && rows[i].runId.None? {
          var row := rows[i].(runId := Some(runId));
          rows, attached, at := rows[i := row], Some(row), i;
        }
        i := i + 1;
      }
    }

    /** Settles a reservation that is still reserved, and returns the row it changed. */
    method Settle(id: string, status: string) returns (settled: Option<Row>)
      modifies this`rows
      ensures |rows| == |old(rows)|
      ensures forall i :: 0 <= i < |rows| ==>
                rows[i] == if old(rows)[i].id == id && !old(rows)[i].settled
                           then old(rows)[i].(settled := true, terminal := Some(status)) else old(rows)[i]
      ensures settled.None? ==> rows == old(rows)
      ensures settled.Some? ==>
                exists i :: 0 <= i < |rows| && rows[i] == settled.value
                            && old(rows)[i].id == id && !old(rows)[i].settled
      ensures rows == BookedOne(old(rows), SettleOne(id, status))
    {
      settled := None;
      ghost var at := 0;
      var i := 0;
      while i < |rows|
        invariant i <= |rows| == |old(rows)|
        invariant forall k :: 0 <= k < i ==>
                    rows[k] == if old(rows)[k].id == id && !old(rows)[k].settled
                               then old(rows)[k].(settled := true, terminal := Some(status)) else old(rows)[k]
        invariant forall k :: i <= k < |rows| ==> rows[k] == old(rows)[k]
        invariant settled.None? ==> rows == old(rows)
        invariant settled.Some? ==>
                    0 <= at < i && rows[at] == settled.value && old(rows)[at].id == id && !old(rows)[at].settled
      {
        if rows[i].id == id && !rows[i].settled {
          var row := rows[i].(settled := true, terminal := Some(status));
          rows, settled, at := rows[i := row], Some(row), i;
        }
        i := i + 1;
      }
    }

    /** Settles as abandoned what is still reserved after `olderThanMs`, and returns exactly those rows, in order. */
    method SweepAbandoned(now: int, olderThanMs: int) returns (swept: seq<Row>)
      modifies this`rows
      ensures |rows| == |old(rows)|
      ensures forall i :: 0 <= i < |rows| ==>
                rows[i] == if Abandons(old(rows)[i], now - olderThanMs)
                           then old(rows)[i].(settled := true, terminal := Some("abandoned")) else old(rows)[i]
      ensures swept == NewlySettled(old(rows), rows)
      ensures rows == BookedOne(old(rows), SweepOlder(now - olderThanMs))
    {
      swept := [];
      var cutoff := now - olderThanMs;
      var i := 0;
      while i < |rows|
        invariant i <= |rows| == |old(rows)|
        invariant forall k :: 0 <= k < i ==>
                    rows[k] == if Abandons(old(rows)[k], cutoff)
                               then old(rows)[k].(settled := true, terminal := Some("abandoned")) else old(rows)[k]
        invariant forall k :: i <= k < |rows| ==> rows[k] == old(rows)[k]
        invariant swept == NewlySettled(old(rows)[..i], rows[..i])
      {
        ghost var done := rows[..i];
        if !rows[i].settled && rows[i].createdAt < cutoff {
          var row := rows[i].(settled := true, terminal := Some("abandoned"));
          rows, swept := rows[i := row], swept + [row];
        }
        assert rows[..i] == done && rows[..i + 1][..i] == done && old(rows)[..i + 1][..i] == old(rows)[..i];
        i := i + 1;
      }
      assert rows[..i] == rows && old(rows)[..i] == old(rows);
    }
  }

  // ---- Concurrent transactions under row locking --------------------------------------------------

  datatype Phase =
    | Begun                    // nothing executed
    | Upserted                 // the day row exists, committed or inserted by this transaction
    | Updated                  // the gate let it pass; the day row is locked
    | Inserted                 // the reservation row is written
    | Refusing                 // the gate said no; the total is still to be read
    | Committed(dayTotal: int)
    | RolledBackRefused(dayTotal: int)
    | Failed                   // some statement threw; rolled back

  datatype Tx = Tx(q: Request, phase: Phase)

  /** `locks[d] == t`: transaction `t` holds the row of day `d`, inserted or updated but uncommitted. */
  datatype State = State(db: Db, txs: seq<Tx>, locks: map<Day, int>)

  datatype Step =
    | Begin(q: Request)
    | Upsert(t: int)
    | Update(t: int)
    | Insert(t: int)
    | Commit(t: int)
    | ReadTotal(t: int)
    | Fail(t: int)
    | Attach(id: string, runId: string)
    | Settle(id: string, status: string)
    | Sweep(cutoff: int)

  predicate Running(p: Phase) { !p.Committed? && !p.RolledBackRefused? && !p.Failed? }

  predicate FreeFor(s: State, day: Day, t: int) { day !in s.locks || s.locks[day] == t }

  predicate InPhase(s: State, t: int, p: Phase) { 0 <= t < |s.txs| && s.txs[t].phase == p }

  /** A statement that needs a row locked by another transaction waits: its step is not enabled. */
  predicate Enabled(s: State, step: Step) {
    match step
    case Begin(q) => q.amount > 0 && forall i :: 0 <= i < |s.txs| ==> s.txs[i].q.id != q.id
    case Upsert(t) => InPhase(s, t, Begun) && (s.txs[t].q.day in s.db.totals || FreeFor(s, s.txs[t].q.day, t))
    case Update(t) => InPhase(s, t, Upserted) && FreeFor(s, s.txs[t].q.day, t)
    case Insert(t) => InPhase(s, t, Updated)
    case Commit(t) => InPhase(s, t, Inserted)
    case ReadTotal(t) => InPhase(s, t, Refusing)
    case Fail(t) => 0 <= t < |s.txs| && Running(s.txs[t].phase)
    case Attach(_, _) => true
    case Settle(_, _) => true
    case Sweep(_) => true
  }

  function At(s: State, t: int, p: Phase): seq<Tx>
    requires 0 <= t < |s.txs|
  {
    s.txs[t := s.txs[t].(phase := p)]
  }

  function Unlocked(s: State, t: int): map<Day, int>
    requires 0 <= t < |s.txs|
  {
    var day := s.txs[t].q.day;
    if day in s.locks && s.locks[day] == t then s.locks - {day} else s.locks
  }

  function Do(s: State, step: Step): State
    requires Enabled(s, step)
  {
    match step
    case Begin(q) => s.(txs := s.txs + [Tx(q, Begun)])
    case Upsert(t) =>
      var day := s.txs[t].q.day;
      s.(txs := At(s, t, Upserted), locks := if day in s.db.totals then s.locks else s.locks[day := t])
    case Update(t) =>
      if Fits(s.db, s.txs[t].q) then s.(txs := At(s, t, Updated), locks := s.locks[s.txs[t].q.day := t])
      else s.(txs := At(s, t, Refusing))
    case Insert(t) => s.(txs := At(s, t, Inserted))
    case Commit(t) =>
      var db := Charged(s.db, s.txs[t].q);
      State(db, At(s, t, Committed(Total(db, s.txs[t].q.day))), Unlocked(s, t))
    case ReadTotal(t) =>
      s.(txs := At(s, t, RolledBackRefused(Total(s.db, s.txs[t].q.day))), locks := Unlocked(s, t))
    case Fail(t) => s.(txs := At(s, t, Failed), locks := Unlocked(s, t))
    case Attach(id, runId) => s.(db := s.db.(rows := Attached(s.db.rows, id, runId)))
    case Settle(id, status) => s.(db := s.db.(rows := Settled(s.db.rows, id, status)))
    case Sweep(cutoff) => s.(db := s.db.(rows := Swept(s.db.rows, cutoff)))
  }

  const INIT := State(Db(map[], []), [], map[])

  predicate Possible(s: State, steps: seq<Step>)
    decreases |steps|
  {
    steps == [] || (Enabled(s, steps[0]) && Possible(Do(s, steps[0]), steps[1..]))
  }

  function Reached(s: State, steps: seq<Step>): State
    requires Possible(s, steps)
    decreases |steps|
  {
    if steps == [] then s else Reached(Do(s, steps[0]), steps[1..])
  }

  // ---- Totals are sums ------------------------------------------------------------------------------

  function Sum(rows: seq<Row>, day: Day): int {
    if rows == [] then 0
    else Sum(rows[..|rows| - 1], day) + if rows[|rows| - 1].day == day then rows[|rows| - 1].amount else 0
  }

  ghost predicate TotalsAreSums(db: Db) { forall day :: Total(db, day) == Sum(db.rows, day) }

  /** Two row lists that agree on days and amounts have the same sums. */
  lemma {:induction false} SumSame(a: seq<Row>, b: seq<Row>, day: Day)
    requires |a| == |b| && forall i :: 0 <= i < |a| ==> a[i].day == b[i].day && a[i].amount == b[i].amount
    ensures Sum(a, day) == Sum(b, day)
  {
    if a != [] { SumSame(a[..|a| - 1], b[..|b| - 1], day); }
  }

  /** Attaching, settling and sweeping move no money. */
  lemma {:induction false} BookkeepingMovesNoMoney(rows: seq<Row>, id: string, text: string, cutoff: int, day: Day)
    ensures Sum(Attached(rows, id, text), day) == Sum(rows, day)
    ensures Sum(Settled(rows, id, text), day) == Sum(rows, day)
    ensures Sum(Swept(rows, cutoff), day) == Sum(rows, day)
  {
    SumSame(Attached(rows, id, text), rows, day);
    SumSame(Settled(rows, id, text), rows, day);
    SumSame(Swept(rows, cutoff), rows, day);
  }

  function Booked(rows: seq<Row>, ops: seq<Bookkeeping>): seq<Row>
    decreases |ops|
  {
    if ops == [] then rows else Booked(BookedOne(rows, ops[0]), ops[1..])
  }

  /** The status that the first of `ops` to settle a row gives it. */
  function FirstSettlement(row: Row, ops: seq<Bookkeeping>): Option<string> {
    if ops == [] then None
    else
      match ops[0]
      case SettleOne(id, status) => if row.id == id then Some(status) else FirstSettlement(row, ops[1..])
      case SweepOlder(cutoff) => if row.createdAt < cutoff then Some("abandoned") else FirstSettlement(row, ops[1..])
      case AttachOne(_, _) => FirstSettlement(row, ops[1..])
  }

  /** The run that the first of `ops` to name the row attaches. */
  function FirstRun(row: Row, ops: seq<Bookkeeping>): Option<string> {
    if ops == [] then None
    else if ops[0].AttachOne? && ops[0].id == row.id then Some(ops[0].runId)
    else FirstRun(row, ops[1..])
  }

  /**
   Whatever attaches, settlements and sweeps follow, in any order: a row keeps its money, the first
   run attached to it and the first settlement made of it.
   */
  lemma {:induction false} FirstSettlementStands(rows: seq<Row>, ops: seq<Bookkeeping>, i: nat)
    requires i < |rows| && (rows[i].settled <==> rows[i].terminal.Some?)
    ensures |Booked(rows, ops)| == |rows|
    ensures Booked(rows, ops)[i] == rows[i].(
              runId := if rows[i].runId.Some? then rows[i].runId else FirstRun(rows[i], ops),
              terminal := if rows[i].settled then rows[i].terminal else FirstSettlement(rows[i], ops),
              settled := rows[i].settled || FirstSettlement(rows[i], ops).Some?)
    decreases |ops|
  {
    if ops != [] {
      var next := BookedOne(rows, ops[0]);
      FirstSettlementStands(next, ops[1..], i);
      FirstByIdentity(rows[i], next[i], ops[1..]);
    }
  }

  lemma {:induction false} FirstByIdentity(a: Row, b: Row, ops: seq<Bookkeeping>)
    requires a.id == b.id && a.createdAt == b.createdAt
    ensures FirstRun(a, ops) == FirstRun(b, ops) && FirstSettlement(a, ops) == FirstSettlement(b, ops)
  {
    if ops != [] { FirstByIdentity(a, b, ops[1..]); }
  }

  lemma {:induction false} ChargedSums(db: Db, q: Request)
    requires TotalsAreSums(db)
    ensures TotalsAreSums(Charged(db, q))
  {
    var db' := Charged(db, q);
    assert db'.rows[..|db.rows|] == db.rows;
    forall day ensures Total(db', day) == Sum(db'.rows, day) {
      assert Total(db, day) == Sum(db.rows, day);
    }
  }

  /** A transaction past the gate holds its day, so what it saw is still true. */
  ghost predicate GateHolds(s: State) {
    forall t :: 0 <= t < |s.txs| && (s.txs[t].phase.Updated? || s.txs[t].phase.Inserted?) ==>
      s.txs[t].q.day in s.locks && s.locks[s.txs[t].q.day] == t && Fits(s.db, s.txs[t].q)
  }

  /** Totals only grow: a refused request would be refused again. */
  ghost predicate RefusalsStand(s: State) {
    forall t :: 0 <= t < |s.txs| && (s.txs[t].phase.Refusing? || s.txs[t].phase.RolledBackRefused?) ==>
      !Fits(s.db, s.txs[t].q)
  }

  /** What every accepted caller was told was within its ceiling, and is not above the total now. */
  ghost predicate AcceptedWithinCeiling(s: State) {
    && (forall t :: 0 <= t < |s.txs| ==> s.txs[t].q.amount > 0)
    && (forall t :: 0 <= t < |s.txs| && s.txs[t].phase.Committed? ==>
          s.txs[t].phase.dayTotal <= s.txs[t].q.ceiling)
  }

  ghost predicate Inv(s: State) {
    TotalsAreSums(s.db) && GateHolds(s) && RefusalsStand(s) && AcceptedWithinCeiling(s)
  }

  lemma {:induction false} StepKeepsSums(s: State, step: Step)
    requires TotalsAreSums(s.db) && Enabled(s, step)
    ensures TotalsAreSums(Do(s, step).db)
  {
    match step
    case Commit(t) => ChargedSums(s.db, s.txs[t].q);
    case Attach(id, runId) =>
      forall day { BookkeepingMovesNoMoney(s.db.rows, id, runId, 0, day); }
      assert forall day :: Total(Do(s, step).db, day) == Total(s.db, day);
    case Settle(id, status) =>
      forall day { BookkeepingMovesNoMoney(s.db.rows, id, status, 0, day); }
      assert forall day :: Total(Do(s, step).db, day) == Total(s.db, day);
    case Sweep(cutoff) =>
      forall day { BookkeepingMovesNoMoney(s.db.rows, "", "", cutoff, day); }
      assert forall day :: Total(Do(s, step).db, day) == Total(s.db, day);
    case _ =>
  }

  lemma {:induction false} ChargeKeepsOthers(s: State, t: int)
    requires GateHolds(s) && Enabled(s, Commit(t))
    ensures GateHolds(Do(s, Commit(t)))
  {
  }

  lemma {:induction false} StepKeepsGate(s: State, step: Step)
    requires GateHolds(s) && Enabled(s, step)
    ensures GateHolds(Do(s, step))
  {
    match step
    case Commit(t) => ChargeKeepsOthers(s, t);
    case _ => assert Do(s, step).db.totals == s.db.totals;
  }

  lemma {:induction false} StepKeepsRefusals(s: State, step: Step)
    requires RefusalsStand(s) && Enabled(s, step)
    requires forall t :: 0 <= t < |s.txs| ==> s.txs[t].q.amount > 0
    ensures RefusalsStand(Do(s, step))
  {
    assert forall day :: Total(Do(s, step).db, day) >= Total(s.db, day);
  }

  lemma {:induction false} StepKeepsCeiling(s: State, step: Step)
    requires GateHolds(s) && AcceptedWithinCeiling(s) && Enabled(s, step)
    ensures AcceptedWithinCeiling(Do(s, step))
  {
  }

  lemma {:induction false} StepKeepsInv(s: State, step: Step)
    requires Inv(s) && Enabled(s, step)
    ensures Inv(Do(s, step))
  {
    StepKeepsSums(s, step);
    StepKeepsGate(s, step);
    StepKeepsRefusals(s, step);
    StepKeepsCeiling(s, step);
  }

  // ---- Progress --------------------------------------------------------------------------------------

  /** The statement a transaction comes to next. */
  function NextStatement(s: State, t: int): Step
    requires 0 <= t < |s.txs| && Running(s.txs[t].phase)
  {
    match s.txs[t].phase
    case Begun => Upsert(t)
    case Upserted => Update(t)
    case Updated => Insert(t)
    case Inserted => Commit(t)
    case _ => ReadTotal(t)
  }

  /** A locked row is locked by a transaction of its day that is still running. */
  ghost predicate LocksHeld(s: State) {
    forall day :: day in s.locks ==>
      && 0 <= s.locks[day] < |s.txs| && s.txs[s.locks[day]].q.day == day
      && Running(s.txs[s.locks[day]].phase) && !s.txs[s.locks[day]].phase.Begun?
  }

  lemma {:induction false} StepKeepsLocksHeld(s: State, step: Step)
    requires LocksHeld(s) && Enabled(s, step)
    ensures LocksHeld(Do(s, step))
  {
  }

  lemma {:induction false} AlwaysLocksHeld(s: State, steps: seq<Step>)
    requires LocksHeld(s) && Possible(s, steps)
    ensures LocksHeld(Reached(s, steps))
    decreases |steps|
  {
    if steps != [] {
      StepKeepsLocksHeld(s, steps[0]);
      AlwaysLocksHeld(Do(s, steps[0]), steps[1..]);
    }
  }

  /** No deadlock: a running transaction can go on, or waits for one that can. */
  lemma {:induction false} SomebodyMoves(steps: seq<Step>, t: int) returns (u: int)
    requires Possible(INIT, steps)
    requires var s := Reached(INIT, steps); 0 <= t < |s.txs| && Running(s.txs[t].phase)
    ensures var s := Reached(INIT, steps);
            && 0 <= u < |s.txs| && Running(s.txs[u].phase) && s.txs[u].q.day == s.txs[t].q.day
            && Enabled(s, NextStatement(s, u))
  {
    AlwaysLocksHeld(INIT, steps);
    var s := Reached(INIT, steps);
    hide Reached;
    hide Possible;
    var day := s.txs[t].q.day;
    u := if day in s.locks then s.locks[day] else t;
  }

  /** Whoever inserts or updates the row of a day makes the other transactions of that day wait. */
  lemma {:induction false} OthersWait(s: State, t: int, u: int)
    requires 0 <= t < |s.txs| && 0 <= u < |s.txs| && u != t && s.txs[u].q.day == s.txs[t].q.day
    ensures Enabled(s, Upsert(t)) && s.txs[t].q.day !in s.db.totals ==>
              !Enabled(Do(s, Upsert(t)), Upsert(u)) && !Enabled(Do(s, Upsert(t)), Update(u))
    ensures Enabled(s, Update(t)) && Fits(s.db, s.txs[t].q) ==> !Enabled(Do(s, Update(t)), Update(u))
  {
  }

  /** Attaching, settling and sweeping never wait for a transaction, and change rows alone. */
  lemma {:induction false} BookkeepingNeverWaits(s: State, id: string, text: string, cutoff: int)
    ensures Enabled(s, Attach(id, text)) && Enabled(s, Settle(id, text)) && Enabled(s, Sweep(cutoff))
    ensures Do(s, Attach(id, text)) == s.(db := Db(s.db.totals, BookedOne(s.db.rows, AttachOne(id, text))))
    ensures Do(s, Settle(id, text)) == s.(db := Db(s.db.totals, BookedOne(s.db.rows, SettleOne(id, text))))
    ensures Do(s, Sweep(cutoff)) == s.(db := Db(s.db.totals, BookedOne(s.db.rows, SweepOlder(cutoff))))
  {
  }

  /** Undisturbed, the statements of one transaction do what `reserve` does. */
  lemma {:induction false} ReserveRuns(s: State, q: Request)
    requires q.amount > 0 && q.day !in s.locks && forall i :: 0 <= i < |s.txs| ==> s.txs[i].q.id != q.id
    ensures var t := |s.txs|;
            var steps := if Fits(s.db, q) then [Begin(q), Upsert(t), Update(t), Insert(t), Commit(t)]
                         else [Begin(q), Upsert(t), Update(t), ReadTotal(t)];
            && Possible(s, steps)
            && var s' := Reached(s, steps);
               && s'.locks == s.locks && |s'.txs| == t + 1
               && (Fits(s.db, q) ==> s'.db == Charged(s.db, q) && s'.txs[t].phase == Committed(Total(s'.db, q.day)))
               && (!Fits(s.db, q) ==> s'.db == s.db && s'.txs[t].phase == RolledBackRefused(Total(s.db, q.day)))
  {
    hide *;
    var t := |s.txs|;
    var s1, s2, s3 := Gated(s, q);
    if Fits(s.db, q) {
      var s4, s5 := Charges(s, q, s3);
      var c, i, u, p := [Commit(t)], [Insert(t), Commit(t)], [Update(t), Insert(t), Commit(t)],
        [Upsert(t), Update(t), Insert(t), Commit(t)];
      NoMore(s5);
      Chain(s4, Commit(t), [], c);
      Chain(s3, Insert(t), c, i);
      Chain(s2, Update(t), i, u);
      Chain(s1, Upsert(t), u, p);
      Chain(s, Begin(q), p, [Begin(q), Upsert(t), Update(t), Insert(t), Commit(t)]);
    } else {
      var s4 := Refuses(s, q, s3);
      var r, u, p := [ReadTotal(t)], [Update(t), ReadTotal(t)], [Upsert(t), Update(t), ReadTotal(t)];
      NoMore(s4);
      Chain(s3, ReadTotal(t), [], r);
      Chain(s2, Update(t), r, u);
      Chain(s1, Upsert(t), u, p);
      Chain(s, Begin(q), p, [Begin(q), Upsert(t), Update(t), ReadTotal(t)]);
    }
  }

  /** The first three statements of a transaction that nobody disturbs. */
  lemma {:induction false} Gated(s: State, q: Request) returns (s1: State, s2: State, s3: State)
    requires q.amount > 0 && q.day !in s.locks && forall i :: 0 <= i < |s.txs| ==> s.txs[i].q.id != q.id
    ensures var t := |s.txs|;
            && Enabled(s, Begin(q)) && s1 == Do(s, Begin(q)) && Enabled(s1, Upsert(t)) && s2 == Do(s1, Upsert(t))
            && Enabled(s2, Update(t)) && s3 == Do(s2, Update(t))
            && s3.db == s.db && s3.txs == s.txs + [Tx(q, if Fits(s.db, q) then Updated else Refusing)]
            && s3.locks - {q.day} == s.locks && (q.day in s3.locks ==> s3.locks[q.day] == t)
            && (Fits(s.db, q) ==> q.day in s3.locks)
  {
    var t := |s.txs|;
    s1 := Do(s, Begin(q));
    assert s1 == s.(txs := s.txs + [Tx(q, Begun)]);
    s2 := Do(s1, Upsert(t));
    assert s2.txs == s.txs + [Tx(q, Upserted)] && s2.db == s.db;
    s3 := Do(s2, Update(t));
  }

  lemma {:induction false} Charges(s: State, q: Request, s3: State) returns (s4: State, s5: State)
    requires s3.db == s.db && s3.txs == s.txs + [Tx(q, Updated)]
    requires s3.locks - {q.day} == s.locks && q.day in s3.locks && s3.locks[q.day] == |s.txs|
    ensures var t := |s.txs|;
            && Enabled(s3, Insert(t)) && s4 == Do(s3, Insert(t)) && Enabled(s4, Commit(t)) && s5 == Do(s4, Commit(t))
            && s5.db == Charged(s.db, q) && s5.locks == s.locks && |s5.txs| == t + 1
            && s5.txs[t].phase == Committed(Total(s5.db, q.day))
  {
    var t := |s.txs|;
    s4 := Do(s3, Insert(t));
    assert s4.txs == s.txs + [Tx(q, Inserted)] && s4.db == s.db && s4.locks == s3.locks;
    s5 := Do(s4, Commit(t));
  }

  lemma {:induction false} Refuses(s: State, q: Request, s3: State) returns (s4: State)
    requires s3.db == s.db && s3.txs == s.txs + [Tx(q, Refusing)] && q.day !in s.locks
    requires s3.locks - {q.day} == s.locks && (q.day in s3.locks ==> s3.locks[q.day] == |s.txs|)
    ensures var t := |s.txs|;
            && Enabled(s3, ReadTotal(t)) && s4 == Do(s3, ReadTotal(t))
            && s4.db == s.db && s4.locks == s.locks && |s4.txs| == t + 1
            && s4.txs[t].phase == RolledBackRefused(Total(s.db, q.day))
  {
    s4 := Do(s3, ReadTotal(|s.txs|));
  }

  lemma {:induction false} NoMore(s: State)
    ensures Possible(s, []) && Reached(s, []) == s
  {
  }

  lemma {:induction false} Chain(s: State, step: Step, rest: seq<Step>, steps: seq<Step>)
    requires Enabled(s, step) && steps == [step] + rest
    ensures Possible(s, steps) <==> Possible(Do(s, step), rest)
    ensures Possible(s, steps) ==> Reached(s, steps) == Reached(Do(s, step), rest)
  {
    assert steps[0] == step && steps[1..] == rest;
  }

  lemma {:induction false} AlwaysInv(s: State, steps: seq<Step>)
    requires Inv(s) && Possible(s, steps)
    ensures Inv(Reached(s, steps))
    decreases |steps|
  {
    if steps != [] {
      StepKeepsInv(s, steps[0]);
      AlwaysInv(Do(s, steps[0]), steps[1..]);
    }
  }

  // ---- Serializability ------------------------------------------------------------------------------

  datatype Op = ReserveOp(q: Request) | AttachOp(id: string, runId: string) | SettleOp(id: string, status: string)
              | SweepOp(cutoff: int)

  /** A repository call executed alone. */
  function Atomic(db: Db, op: Op): Db {
    match op
    case ReserveOp(q) => if Fits(db, q) then Charged(db, q) else db
    case AttachOp(id, runId) => db.(rows := Attached(db.rows, id, runId))
    case SettleOp(id, status) => db.(rows := Settled(db.rows, id, status))
    case SweepOp(cutoff) => db.(rows := Swept(db.rows, cutoff))
  }

  function AtomicAll(db: Db, ops: seq<Op>): Db
    decreases |ops|
  {
    if ops == [] then db else AtomicAll(Atomic(db, ops[0]), ops[1..])
  }

  /** The moment each call takes effect: an accepted reserve at commit, a refused one at its gate. */
  function Effect(s: State, step: Step): seq<Op>
    requires Enabled(s, step)
  {
    match step
    case Commit(t) => [ReserveOp(s.txs[t].q)]
    case Update(t) => if Fits(s.db, s.txs[t].q) then [] else [ReserveOp(s.txs[t].q)]
    case Attach(id, runId) => [AttachOp(id, runId)]
    case Settle(id, status) => [SettleOp(id, status)]
    case Sweep(cutoff) => [SweepOp(cutoff)]
    case _ => []
  }

  function Serial(s: State, steps: seq<Step>): seq<Op>
    requires Possible(s, steps)
    decreases |steps|
  {
    if steps == [] then [] else Effect(s, steps[0]) + Serial(Do(s, steps[0]), steps[1..])
  }

  /**
   Every interleaving of concurrent transactions leaves the state that the same calls leave when
   executed one after the other, in the order in which they took effect.
   */
  lemma {:induction false} Serializable(s: State, steps: seq<Step>)
    requires Inv(s) && Possible(s, steps)
    ensures Reached(s, steps).db == AtomicAll(s.db, Serial(s, steps))
    decreases |steps|
  {
    if steps != [] {
      StepKeepsInv(s, steps[0]);
      var s' := Do(s, steps[0]);
      Serializable(s', steps[1..]);
      var ops := Effect(s, steps[0]);
      if ops == [] {
        assert ops + Serial(s', steps[1..]) == Serial(s', steps[1..]);
      } else {
        assert (ops + Serial(s', steps[1..]))[1..] == Serial(s', steps[1..]);
        assert s'.db == Atomic(s.db, ops[0]);
      }
    }
  }

  // ---- The ceiling ----------------------------------------------------------------------------------

  /** A day total that is not zero is the total some accepted caller was told. */
  ghost predicate TotalWasAccepted(s: State) {
    forall day :: Total(s.db, day) == 0 ||
      exists t :: 0 <= t < |s.txs| && s.txs[t].phase.Committed? && s.txs[t].q.day == day
                  && s.txs[t].phase.dayTotal == Total(s.db, day)
  }

  lemma {:induction false} StepKeepsAccepted(s: State, step: Step)
    requires TotalWasAccepted(s) && Enabled(s, step)
    ensures TotalWasAccepted(Do(s, step))
  {
    var s' := Do(s, step);
    forall day | Total(s'.db, day) != 0
      ensures exists t :: 0 <= t < |s'.txs| && s'.txs[t].phase.Committed? && s'.txs[t].q.day == day
                          && s'.txs[t].phase.dayTotal == Total(s'.db, day)
    {
      if step.Commit? && s.txs[step.t].q.day == day {
        assert s'.txs[step.t].phase.Committed?;
      } else {
        assert Total(s'.db, day) == Total(s.db, day);
        var t :| 0 <= t < |s.txs| && s.txs[t].phase.Committed? && s.txs[t].q.day == day
                 && s.txs[t].phase.dayTotal == Total(s.db, day);
        assert s'.txs[t].phase == s.txs[t].phase && s'.txs[t].q == s.txs[t].q;
      }
    }
  }

  lemma {:induction false} AlwaysAccepted(s: State, steps: seq<Step>)
    requires TotalWasAccepted(s) && Possible(s, steps)
    ensures TotalWasAccepted(Reached(s, steps))
    decreases |steps|
  {
    if steps != [] {
      StepKeepsAccepted(s, steps[0]);
      AlwaysAccepted(Do(s, steps[0]), steps[1..]);
    }
  }

  /** In every interleaving each day total is the sum of that day's reservations, within the ceiling. */
  lemma {:induction false} CeilingHolds(steps: seq<Step>, day: Day, ceiling: int)
    requires Possible(INIT, steps)
    requires forall t :: 0 <= t < |Reached(INIT, steps).txs| && Reached(INIT, steps).txs[t].q.day == day
               ==> Reached(INIT, steps).txs[t].q.ceiling <= ceiling
    ensures var db := Reached(INIT, steps).db;
            Total(db, day) == Sum(db.rows, day) && (Total(db, day) <= ceiling || Total(db, day) == 0)
  {
    AlwaysInv(INIT, steps);
    AlwaysAccepted(INIT, steps);
  }

  // ---- How many reservations are accepted ------------------------------------------------------------

  datatype Fate = Pending | Won | Lost | Broken

  function FateOf(p: Phase): Fate {
    match p
    case Committed(_) => Won
    case RolledBackRefused(_) => Lost
    case Failed => Broken
    case _ => Pending
  }

  /** The transactions of a day, and those of them with a fate. */
  function Attempts(txs: seq<Tx>, day: Day): nat {
    if txs == [] then 0 else Attempts(txs[..|txs| - 1], day) + if txs[|txs| - 1].q.day == day then 1 else 0
  }

  function Count(txs: seq<Tx>, day: Day, f: Fate): nat {
    if txs == [] then 0
    else Count(txs[..|txs| - 1], day, f)
         + if txs[|txs| - 1].q.day == day && FateOf(txs[|txs| - 1].phase) == f then 1 else 0
  }

  function RowsOn(rows: seq<Row>, day: Day): nat {
    if rows == [] then 0 else RowsOn(rows[..|rows| - 1], day) + if rows[|rows| - 1].day == day then 1 else 0
  }

  lemma {:induction false} CountUpdate(txs: seq<Tx>, t: int, p: Phase, day: Day, f: Fate)
    requires 0 <= t < |txs|
    ensures Count(txs[t := txs[t].(phase := p)], day, f)
         == Count(txs, day, f)
            + if txs[t].q.day != day then 0
              else (if FateOf(p) == f then 1 else 0) - (if FateOf(txs[t].phase) == f then 1 else 0)
  {
    var n := |txs| - 1;
    var tx := txs[t].(phase := p);
    if t < n {
      CountUpdate(txs[..n], t, p, day, f);
      assert txs[t := tx][..n] == txs[..n][t := tx];
    } else {
      assert txs[t := tx][..n] == txs[..n];
    }
  }

  lemma {:induction false} CountAll(txs: seq<Tx>, day: Day)
    ensures Count(txs, day, Pending) + Count(txs, day, Won) + Count(txs, day, Lost) + Count(txs, day, Broken)
         == Attempts(txs, day)
    ensures Count(txs, day, Pending) == 0
       <==> forall t :: 0 <= t < |txs| && txs[t].q.day == day ==> !FateOf(txs[t].phase).Pending?
    ensures Count(txs, day, Lost) > 0 ==>
              exists t :: 0 <= t < |txs| && txs[t].q.day == day && FateOf(txs[t].phase).Lost?
  {
    if txs != [] { CountAll(txs[..|txs| - 1], day); }
  }

  /** On `day` there is one committed row for each accepted transaction, and all of them are alike. */
  ghost predicate Uniform(s: State, day: Day, amount: int, ceiling: int) {
    && RowsOn(s.db.rows, day) == Count(s.txs, day, Won)
    && (forall i :: 0 <= i < |s.db.rows| && s.db.rows[i].day == day ==> s.db.rows[i].amount == amount)
    && (forall t :: 0 <= t < |s.txs| && s.txs[t].q.day == day ==>
          s.txs[t].q.amount == amount && s.txs[t].q.ceiling == ceiling)
  }

  /** Every reserve of `day` asks for the same amount under the same ceiling; other days are arbitrary. */
  predicate AllBegin(steps: seq<Step>, day: Day, amount: int, ceiling: int) {
    forall i :: 0 <= i < |steps| && steps[i].Begin? && steps[i].q.day == day ==>
      steps[i].q.amount == amount && steps[i].q.ceiling == ceiling
  }

  /** Moving one transaction changes the number of accepted ones as its own fate says. */
  lemma {:induction false} MoveCounts(s: State, t: int, p: Phase, day: Day)
    requires 0 <= t < |s.txs| && Running(s.txs[t].phase)
    ensures Count(At(s, t, p), day, Won)
         == Count(s.txs, day, Won) + if p.Committed? && s.txs[t].q.day == day then 1 else 0
  {
    CountUpdate(s.txs, t, p, day, Won);
  }

  lemma {:induction false} MoveKeepsUniform(s: State, t: int, p: Phase, day: Day, amount: int, ceiling: int)
    requires Uniform(s, day, amount, ceiling) && 0 <= t < |s.txs| && Running(s.txs[t].phase) && !p.Committed?
    ensures Uniform(s.(txs := At(s, t, p)), day, amount, ceiling)
  {
    MoveCounts(s, t, p, day);
    hide Count;
    hide RowsOn;
  }

  lemma {:induction false} RowsOnMore(rows: seq<Row>, row: Row, day: Day)
    ensures RowsOn(rows + [row], day) == RowsOn(rows, day) + if row.day == day then 1 else 0
  {
    assert (rows + [row])[..|rows|] == rows;
  }

  lemma {:induction false} CommitKeepsUniform(s: State, t: int, day: Day, amount: int, ceiling: int)
    requires Uniform(s, day, amount, ceiling) && Enabled(s, Commit(t))
    ensures Uniform(Do(s, Commit(t)), day, amount, ceiling)
  {
    hide Count;
    hide RowsOn;
    var q, s' := s.txs[t].q, Do(s, Commit(t));
    var p := s'.txs[t].phase;
    assert s'.txs == At(s, t, p) && p.Committed? && s'.db.rows == s.db.rows + [RowOf(q)];
    assert RowOf(q).day == q.day && RowOf(q).amount == q.amount;
    hide Do;
    hide RowOf;
    MoveCounts(s, t, p, day);
    RowsOnMore(s.db.rows, RowOf(q), day);
  }

  lemma {:induction false} RowsOnSame(a: seq<Row>, b: seq<Row>, day: Day)
    requires |a| == |b| && forall i :: 0 <= i < |a| ==> a[i].day == b[i].day
    ensures RowsOn(a, day) == RowsOn(b, day)
  {
    if a != [] { RowsOnSame(a[..|a| - 1], b[..|b| - 1], day); }
  }

  /** `Uniform` looks at the transactions and at the day and amount of each row. */
  lemma {:induction false} UniformDependsOn(s: State, s': State, day: Day, amount: int, ceiling: int)
    requires Uniform(s, day, amount, ceiling) && s'.txs == s.txs && |s'.db.rows| == |s.db.rows|
    requires forall i :: 0 <= i < |s.db.rows| ==>
               s'.db.rows[i].day == s.db.rows[i].day && s'.db.rows[i].amount == s.db.rows[i].amount
    ensures Uniform(s', day, amount, ceiling)
  {
    RowsOnSame(s'.db.rows, s.db.rows, day);
    hide Count;
    hide RowsOn;
  }

  lemma {:induction false} BeginKeepsUniform(s: State, q: Request, day: Day, amount: int, ceiling: int)
    requires Uniform(s, day, amount, ceiling) && Enabled(s, Begin(q))
    requires q.day == day ==> q.amount == amount && q.ceiling == ceiling
    ensures Uniform(Do(s, Begin(q)), day, amount, ceiling)
  {
    hide RowsOn;
    hide Count;
    CountBegun(s.txs, q, day);
    assert Do(s, Begin(q)).txs == s.txs + [Tx(q, Begun)] && Do(s, Begin(q)).db == s.db;
    hide Do;
  }

  lemma {:induction false} CountBegun(txs: seq<Tx>, q: Request, day: Day)
    ensures Count(txs + [Tx(q, Begun)], day, Won) == Count(txs, day, Won)
  {
    assert (txs + [Tx(q, Begun)])[..|txs|] == txs;
  }

  lemma {:induction false} StepKeepsUniform(s: State, step: Step, day: Day, amount: int, ceiling: int)
    requires Uniform(s, day, amount, ceiling) && Enabled(s, step)
    requires step.Begin? && step.q.day == day ==> step.q.amount == amount && step.q.ceiling == ceiling
    ensures Uniform(Do(s, step), day, amount, ceiling)
  {
    hide Uniform;
    var s' := Do(s, step);
    match step
    case Begin(q) => BeginKeepsUniform(s, q, day, amount, ceiling);
    case Commit(t) => CommitKeepsUniform(s, t, day, amount, ceiling);
    case Attach(_, _) => UniformDependsOn(s, s', day, amount, ceiling);
    case Settle(_, _) => UniformDependsOn(s, s', day, amount, ceiling);
    case Sweep(_) => UniformDependsOn(s, s', day, amount, ceiling);
    case _ =>
      var p := s'.txs[step.t].phase;
      var m := s.(txs := At(s, step.t, p));
      MoveKeepsUniform(s, step.t, p, day, amount, ceiling);
      assert s'.txs == m.txs && s'.db == m.db;
      UniformDependsOn(m, s', day, amount, ceiling);
  }

  lemma {:induction false} AlwaysUniform(s: State, steps: seq<Step>, day: Day, amount: int, ceiling: int)
    requires Uniform(s, day, amount, ceiling) && Possible(s, steps) && AllBegin(steps, day, amount, ceiling)
    ensures Uniform(Reached(s, steps), day, amount, ceiling)
    decreases |steps|
  {
    if steps != [] {
      StepKeepsUniform(s, steps[0], day, amount, ceiling);
      AlwaysUniform(Do(s, steps[0]), steps[1..], day, amount, ceiling);
    }
  }

  lemma {:induction false} UniformSum(rows: seq<Row>, day: Day, amount: int)
    requires forall i :: 0 <= i < |rows| && rows[i].day == day ==> rows[i].amount == amount
    ensures Sum(rows, day) == RowsOn(rows, day) * amount
  {
    if rows != [] {
      var before := rows[..|rows| - 1];
      UniformSum(before, day, amount);
      assert RowsOn(before, day) * amount + amount == (RowsOn(before, day) + 1) * amount;
    }
  }

  /** How many times `amount` fits under `ceiling`. */
  function Room(ceiling: int, amount: int): nat
    requires amount > 0
  {
    if ceiling < 0 then 0 else ceiling / amount
  }

  lemma {:induction false} TimesMonotone(x: int, y: int, a: int)
    requires x <= y && a > 0
    ensures x * a <= y * a
  {
  }

  lemma {:induction false} RoomBounds(ceiling: int, amount: int, n: nat)
    requires amount > 0
    ensures n * amount <= ceiling ==> n <= Room(ceiling, amount)
    ensures n * amount + amount > ceiling ==> n >= Room(ceiling, amount)
  {
    var r := Room(ceiling, amount);
    if n > r { TimesMonotone(r + 1, n, amount); RoomExact(ceiling, amount); }
    if n < r { TimesMonotone(n + 1, r, amount); RoomExact(ceiling, amount); }
  }

  lemma {:induction false} RoomExact(ceiling: int, amount: int)
    requires amount > 0
    ensures ceiling < (Room(ceiling, amount) + 1) * amount
    ensures ceiling >= 0 ==> Room(ceiling, amount) * amount <= ceiling
  {
  }

  /**
   When every reserve of a day asks for the same amount under the same ceiling, then however they
   interleave with each other and with anything on other days, exactly `min(attempts, floor(ceiling /
   amount))` of those that did not break are accepted.
   */
  lemma {:induction false} ExactlyTheRoom(steps: seq<Step>, day: Day, amount: int, ceiling: int)
    requires Possible(INIT, steps) && amount > 0
    requires forall i :: 0 <= i < |steps| && steps[i].Begin? && steps[i].q.day == day ==>
               steps[i].q.amount == amount && steps[i].q.ceiling == ceiling
    requires forall t :: 0 <= t < |Reached(INIT, steps).txs| && Reached(INIT, steps).txs[t].q.day == day ==>
               !Running(Reached(INIT, steps).txs[t].phase)
    ensures var txs := Reached(INIT, steps).txs;
            var attempts := Attempts(txs, day) - Count(txs, day, Broken);
            Count(txs, day, Won) == if attempts <= Room(ceiling, amount) then attempts else Room(ceiling, amount)
  {
    AlwaysInv(INIT, steps);
    AlwaysAccepted(INIT, steps);
    AlwaysUniform(INIT, steps, day, amount, ceiling);
    hide Possible;
    hide Reached;
    AcceptedCount(Reached(INIT, steps), day, amount, ceiling);
  }

  lemma {:induction false} AcceptedCount(s: State, day: Day, amount: int, ceiling: int)
    requires Inv(s) && TotalWasAccepted(s) && Uniform(s, day, amount, ceiling) && amount > 0
    requires forall t :: 0 <= t < |s.txs| && s.txs[t].q.day == day ==> !Running(s.txs[t].phase)
    ensures var attempts := Attempts(s.txs, day) - Count(s.txs, day, Broken);
            Count(s.txs, day, Won) == if attempts <= Room(ceiling, amount) then attempts else Room(ceiling, amount)
  {
    hide Count;
    hide Attempts;
    hide Sum;
    hide Room;
    hide RowsOn;
    CountAll(s.txs, day);
    var won := Count(s.txs, day, Won);
    UniformSum(s.db.rows, day, amount);
    assert Total(s.db, day) == won * amount;
    RoomBounds(ceiling, amount, won);
    Positive(won, amount);
    if Count(s.txs, day, Lost) > 0 {
      var t :| 0 <= t < |s.txs| && s.txs[t].q.day == day && FateOf(s.txs[t].phase).Lost?;
      assert !Fits(s.db, s.txs[t].q);
    }
  }

  lemma {:induction false} Positive(n: nat, amount: int)
    requires amount > 0
    ensures n * amount == 0 ==> n == 0
  {
    if n > 0 { assert n * amount >= amount; }
  }
}
