/**
 The playground mediator's guest record (apps/playground/backend/src/mediator/mediator.ts).

 One guest record is shared by every socket opened for the guest. Each socket handles its inbound
 frames one at a time, but `handleInbound` awaits the ledger between the caps check and the
 increment, so frames of different sockets interleave there. `Step` names the atomic segments,
 `Do` says what one does to the record, and `Guest` is the code.
 */
module Mediator {
  import opened Common

  type Socket = nat
  type RunId = string
  type ReservationId = nat

  datatype Config = Config(messagesPerSession: int, tokensPerSession: int, messageMaxChars: int)

  datatype Refusal = SessionExpired | RateLimited | MessageTooLong | MessageCap | TokenCap

  /** The record, and (from `accepted` on) what has happened to it so far. */
  datatype Record = Record(
    messagesSent: int,
    estOutputTokens: int,
    pending: seq<ReservationId>,
    reservationByRun: map<RunId, ReservationId>,
    seenRuns: set<RunId>,
    tokenCapBreached: bool,
    sockets: set<Socket>,
    reserving: map<Socket, string>,        // frames past the checks, awaiting the ledger
    accepted: seq<ReservationId>,          // reservations in the order the ledger accepted them
    attachedRuns: seq<RunId>,              // runs that took a reservation, in order
    forwarded: seq<string>,                // message contents handed to the upstream socket
    settledRuns: set<RunId>,               // runs whose settlement was started
    settles: nat,                          // settlements started
    cancels: nat)                          // cancellations asked for on a token-cap breach

  datatype Step =
    | Open(socket: Socket)
    | Inbound(socket: Socket, content: string, expired: bool, rateAllowed: bool)
    | Reserved(socket: Socket, id: ReservationId)
    | NotReserved(socket: Socket)
    | MessageStarted(run: RunId)
    | Token(run: RunId, chars: nat)
    | Terminal(run: RunId)

  /** The enforcement chain before the ledger: TTL, rate, length, message cap, token cap. */
  function Enforce(g: Record, c: Config, content: string, expired: bool, rateAllowed: bool): Option<Refusal> {
    if expired then Some(SessionExpired)
    else if !rateAllowed then Some(RateLimited)
    else if |content| > c.messageMaxChars then Some(MessageTooLong)
    else if g.messagesSent >= c.messagesPerSession then Some(MessageCap)
    else if g.estOutputTokens >= c.tokensPerSession then Some(TokenCap)
    else None
  }

  /** What each refusal says, and what passes. */
  lemma {:induction false} EnforceIs(g: Record, c: Config, content: string, expired: bool, rateAllowed: bool)
    ensures var r := Enforce(g, c, content, expired, rateAllowed);
            var open := !expired && rateAllowed;
            && (r.None? <==> open && |content| <= c.messageMaxChars && g.messagesSent < c.messagesPerSession
                             && g.estOutputTokens < c.tokensPerSession)
            && (r == Some(SessionExpired) <==> expired) && (r == Some(RateLimited) <==> !expired && !rateAllowed)
            && (r == Some(MessageTooLong) <==> open && |content| > c.messageMaxChars)
            && (r == Some(MessageCap) <==> open && |content| <= c.messageMaxChars && g.messagesSent >= c.messagesPerSession)
            && (r == Some(TokenCap) <==> open && |content| <= c.messageMaxChars && g.messagesSent < c.messagesPerSession
                                         && g.estOutputTokens >= c.tokensPerSession)
  {
  }

  /** `Math.ceil(text.length / 4)`. */
  function EstimatedTokens(chars: nat): (n: nat)
    ensures 4 * n >= chars > 4 * n - 4 || (chars == 0 && n == 0)
  {
    (chars + 3) / 4
  }

  predicate Enabled(g: Record, step: Step) {
    match step
    case Open(socket) => socket !in g.sockets
    case Inbound(socket, _, _, _) => socket in g.sockets && socket !in g.reserving
    case Reserved(socket, id) => socket in g.reserving && id !in g.accepted
    case NotReserved(socket) => socket in g.reserving
    case _ => true
  }

  function Do(g: Record, c: Config, step: Step): Record
    requires Enabled(g, step)
  {
    match step
    case Open(socket) => g.(sockets := g.sockets + {socket})
    case Inbound(socket, content, expired, rateAllowed) =>
      if Enforce(g, c, content, expired, rateAllowed).Some? then g
      else g.(reserving := g.reserving[socket := content])
    case Reserved(socket, id) =>
      g.(messagesSent := g.messagesSent + 1,
         pending := g.pending + [id],
         accepted := g.accepted + [id],
         forwarded := g.forwarded + [g.reserving[socket]],
         reserving := g.reserving - {socket})
    case NotReserved(socket) => g.(reserving := g.reserving - {socket})
    case MessageStarted(run) =>
      if run in g.seenRuns then g
      else if g.pending == [] then g.(seenRuns := g.seenRuns + {run})
      else g.(seenRuns := g.seenRuns + {run},
              pending := g.pending[1..],
              reservationByRun := g.reservationByRun[run := g.pending[0]],
              attachedRuns := g.attachedRuns + [run])
    case Token(run, chars) =>
      var est := g.estOutputTokens + EstimatedTokens(chars);
      if est > c.tokensPerSession && !g.tokenCapBreached then
        g.(estOutputTokens := est, tokenCapBreached := true, cancels := g.cancels + 1)
      else g.(estOutputTokens := est)
    case Terminal(run) =>
      if run in g.reservationByRun then
        g.(reservationByRun := g.reservationByRun - {run},
           settledRuns := g.settledRuns + {run},
           settles := g.settles + 1)
      else g
  }

  const MINTED := Record(0, 0, [], map[], {}, false, {}, map[], [], [], [], {}, 0, 0)

  // ---- The code, segment by segment ---------------------------------------------------------------

  class Guest {
    const config: Config
    var messagesSent: int
    var estOutputTokens: int
    var pendingReservationIds: seq<ReservationId>
    var reservationByRun: map<RunId, ReservationId>
    var seenRuns: set<RunId>
    var tokenCapBreached: bool
    var reserving: map<Socket, string>
    ghost var past: Record

    constructor (config: Config)
      ensures Now() == MINTED && this.config == config
    {
      this.config := config;
      messagesSent, estOutputTokens, pendingReservationIds := 0, 0, [];
      reservationByRun, seenRuns, tokenCapBreached, reserving := map[], {}, false, map[];
      past := MINTED;
    }

    ghost function Now(): Record
      reads this
    {
      past.(messagesSent := messagesSent, estOutputTokens := estOutputTokens, pending := pendingReservationIds,
            reservationByRun := reservationByRun, seenRuns := seenRuns, tokenCapBreached := tokenCapBreached,
            reserving := reserving)
    }

    /** `handleInbound` up to the await of the ledger; `None` means the frame goes on to the ledger. */
    method CheckInbound(socket: Socket, content: string, expired: bool, rateAllowed: bool) returns (r: Option<Refusal>)
      requires Enabled(Now(), Inbound(socket, content, expired, rateAllowed))
      modifies this
      ensures Now() == Do(old(Now()), config, Inbound(socket, content, expired, rateAllowed))
      ensures r == Enforce(old(Now()), config, content, expired, rateAllowed)
    {
      if expired { return Some(SessionExpired); }
      if !rateAllowed { return Some(RateLimited); }
      if |content| > config.messageMaxChars { return Some(MessageTooLong); }
      if messagesSent >= config.messagesPerSession { return Some(MessageCap); }
      if estOutputTokens >= config.tokensPerSession { return Some(TokenCap); }
      reserving := reserving[socket := content];
      return None;
    }

    /** The rest of `handleInbound` after an accepted reservation. */
    method AcceptInbound(socket: Socket, id: ReservationId) returns (frame: string)
      requires Enabled(Now(), Reserved(socket, id))
      modifies this
      ensures Now() == Do(old(Now()), config, Reserved(socket, id))
      ensures frame == old(reserving)[socket]
    {
      frame := reserving[socket];
      pendingReservationIds := pendingReservationIds + [id];
      messagesSent := messagesSent + 1;
      reserving := reserving - {socket};
      past := past.(accepted := past.accepted + [id], forwarded := past.forwarded + [frame]);
    }

    /** The rest of `handleInbound` when the ledger refused or threw. */
    method DropInbound(socket: Socket)
      requires Enabled(Now(), NotReserved(socket))
      modifies this
      ensures Now() == Do(old(Now()), config, NotReserved(socket))
    {
      reserving := reserving - {socket};
    }

    /** `observeChatEvent` on `message_started`; returns the reservation to attach, if any. */
    method ObserveStarted(run: RunId) returns (attach: Option<ReservationId>)
      modifies this
      ensures Now() == Do(old(Now()), config, MessageStarted(run))
      ensures attach == if run in old(seenRuns) || old(pendingReservationIds) == [] then None
                        else Some(old(pendingReservationIds)[0])
    {
      if run in seenRuns { return None; }
      seenRuns := seenRuns + {run};
      if |pendingReservationIds| == 0 { return None; }
      var id := pendingReservationIds[0];
      pendingReservationIds := pendingReservationIds[1..];
      reservationByRun := reservationByRun[run := id];
      past := past.(attachedRuns := past.attachedRuns + [run]);
      return Some(id);
    }

    /** `observeChatEvent` on a token frame; tells whether the run is to be cancelled. */
    method ObserveToken(run: RunId, chars: nat) returns (cancel: bool)
      modifies this
      ensures Now() == Do(old(Now()), config, Token(run, chars))
      ensures cancel <==> tokenCapBreached && !old(tokenCapBreached)
    {
      estOutputTokens := estOutputTokens + EstimatedTokens(chars);
      if estOutputTokens > config.tokensPerSession && !tokenCapBreached {
        tokenCapBreached := true;
        past := past.(cancels := past.cancels + 1);
        return true;
      }
      return false;
    }

    /** `settleRun` up to its first await; returns the reservation to settle, if any. */
    method BeginSettle(run: RunId) returns (settle: Option<ReservationId>)
      modifies this
      ensures Now() == Do(old(Now()), config, Terminal(run))
      ensures settle == if run in old(reservationByRun) then Some(old(reservationByRun)[run]) else None
    {
      if run !in reservationByRun { return None; }
      var id := reservationByRun[run];
      reservationByRun := reservationByRun - {run};
      past := past.(settledRuns := past.settledRuns + {run}, settles := past.settles + 1);
      return Some(id);
    }
  }

  // ---- Every interleaving --------------------------------------------------------------------------

  predicate Possible(g: Record, c: Config, steps: seq<Step>)
    decreases |steps|
  {
    steps == [] || (Enabled(g, steps[0]) && Possible(Do(g, c, steps[0]), c, steps[1..]))
  }

  function Reached(g: Record, c: Config, steps: seq<Step>): Record
    requires Possible(g, c, steps)
    decreases |steps|
  {
    if steps == [] then g else Reached(Do(g, c, steps[0]), c, steps[1..])
  }

  /**
   Conservation: every accepted message is one count, one forward and one reservation; the first
   `|attachedRuns|` reservations are attached, in order, to as many distinct runs, the rest pend.
   */
  ghost predicate Conserved(g: Record) {
    && |g.accepted| == g.messagesSent == |g.forwarded|
    && |g.attachedRuns| <= |g.accepted| && g.pending == g.accepted[|g.attachedRuns|..]
    && Distinct(g.accepted) && Distinct(g.attachedRuns)
    && (forall i :: 0 <= i < |g.attachedRuns| ==> g.attachedRuns[i] in g.seenRuns)
  }

  /** A run with a reservation awaits settlement or has been settled, once; it holds its own reservation. */
  ghost predicate SettlesOnce(g: Record) {
    && |g.attachedRuns| <= |g.accepted|
    && (forall i :: 0 <= i < |g.attachedRuns| && g.attachedRuns[i] in g.reservationByRun ==>
          g.reservationByRun[g.attachedRuns[i]] == g.accepted[i])
    && (forall r :: r in g.attachedRuns <==> r in g.reservationByRun || r in g.settledRuns)
    && (forall r :: r in g.settledRuns ==> r !in g.reservationByRun)
    && g.settles == |g.settledRuns|
  }

  /** Each socket has at most one frame between check and increment. */
  ghost predicate Bounded(g: Record, c: Config) {
    && g.reserving.Keys <= g.sockets
    && ((g.messagesSent == 0 && g.reserving == map[])
        || g.messagesSent + |g.reserving| <= c.messagesPerSession - 1 + |g.sockets|)
    && 0 <= g.messagesSent
    && g.cancels == (if g.tokenCapBreached then 1 else 0)
  }

  lemma {:induction false} StepConserves(g: Record, c: Config, step: Step)
    requires Conserved(g) && Enabled(g, step)
    ensures Conserved(Do(g, c, step))
  {
    if step.Reserved? {
      assert (g.accepted + [step.id])[|g.attachedRuns|..] == g.pending + [step.id];
    } else if step.MessageStarted? && step.run !in g.seenRuns && g.pending != [] {
      assert g.accepted[|g.attachedRuns|..][1..] == g.accepted[|g.attachedRuns| + 1..];
    }
  }

  lemma {:induction false} StartSettlesOnce(g: Record, c: Config, run: RunId)
    requires Conserved(g) && SettlesOnce(g)
    ensures SettlesOnce(Do(g, c, MessageStarted(run)))
  {
  }

  lemma {:induction false} StepSettlesOnce(g: Record, c: Config, step: Step)
    requires Conserved(g) && SettlesOnce(g) && Enabled(g, step)
    ensures SettlesOnce(Do(g, c, step))
  {
    match step
    case MessageStarted(run) => StartSettlesOnce(g, c, run);
    case _ =>
  }

  lemma {:induction false} InboundBounded(g: Record, c: Config, socket: Socket, content: string)
    requires Bounded(g, c) && socket in g.sockets && socket !in g.reserving
    requires g.messagesSent < c.messagesPerSession
    ensures Bounded(g.(reserving := g.reserving[socket := content]), c)
  {
    var after := g.reserving[socket := content];
    assert after.Keys == g.reserving.Keys + {socket};
    SubsetSize(after.Keys, g.sockets);
    assert |after| == |after.Keys|;
  }

  lemma {:induction false} OneFewer(m: map<Socket, string>, socket: Socket)
    requires socket in m
    ensures |m - {socket}| == |m| - 1 && (m - {socket}).Keys <= m.Keys
  {
    assert (m - {socket}).Keys == m.Keys - {socket};
    assert |m| == |m.Keys| && |m - {socket}| == |(m - {socket}).Keys|;
  }

  lemma {:induction false} LeaveBounded(g: Record, g': Record, c: Config, socket: Socket)
    requires Bounded(g, c) && socket in g.reserving && g'.reserving == g.reserving - {socket}
    requires g.messagesSent <= g'.messagesSent <= g.messagesSent + 1
    requires g'.sockets == g.sockets && g'.cancels == g.cancels && g'.tokenCapBreached == g.tokenCapBreached
    ensures Bounded(g', c)
  {
    OneFewer(g.reserving, socket);
  }

  lemma {:induction false} OpenBounded(g: Record, c: Config, socket: Socket)
    requires Bounded(g, c) && socket !in g.sockets
    ensures Bounded(g.(sockets := g.sockets + {socket}), c)
  {
  }

  lemma {:induction false} ObserveBounded(g: Record, g': Record, c: Config)
    requires Bounded(g, c) && g'.messagesSent == g.messagesSent && g'.reserving == g.reserving
    requires g'.sockets == g.sockets
    requires || (g'.cancels == g.cancels && g'.tokenCapBreached == g.tokenCapBreached)
             || (g'.cancels == g.cancels + 1 && g'.tokenCapBreached && !g.tokenCapBreached)
    ensures Bounded(g', c)
  {
  }

  predicate IsObservation(step: Step) { step.MessageStarted? || step.Token? || step.Terminal? }

  lemma {:induction false} ObserveStepTouches(g: Record, c: Config, step: Step)
    requires IsObservation(step)
    ensures var g' := Do(g, c, step);
            && g'.messagesSent == g.messagesSent && g'.reserving == g.reserving && g'.sockets == g.sockets
            && (|| (g'.cancels == g.cancels && g'.tokenCapBreached == g.tokenCapBreached)
                || (g'.cancels == g.cancels + 1 && g'.tokenCapBreached && !g.tokenCapBreached))
  {
    hide EstimatedTokens;
  }

  lemma {:induction false} ObserveStepBounded(g: Record, c: Config, step: Step)
    requires Bounded(g, c) && IsObservation(step)
    ensures Bounded(Do(g, c, step), c)
  {
    hide Bounded;
    hide Do;
    ObserveStepTouches(g, c, step);
    ObserveBounded(g, Do(g, c, step), c);
  }

  lemma {:induction false} LeaveStepBounded(g: Record, c: Config, step: Step)
    requires Bounded(g, c) && Enabled(g, step) && (step.Reserved? || step.NotReserved?)
    ensures Bounded(Do(g, c, step), c)
  {
    var g' := Do(g, c, step);
    hide Bounded;
    LeaveBounded(g, g', c, step.socket);
  }

  lemma {:induction false} StepBounded(g: Record, c: Config, step: Step)
    requires Bounded(g, c) && Enabled(g, step)
    ensures Bounded(Do(g, c, step), c)
  {
    hide Bounded;
    if IsObservation(step) {
      ObserveStepBounded(g, c, step);
    } else if step.Reserved? || step.NotReserved? {
      LeaveStepBounded(g, c, step);
    } else if step.Open? {
      OpenBounded(g, c, step.socket);
    } else if Enforce(g, c, step.content, step.expired, step.rateAllowed).None? {
      InboundBounded(g, c, step.socket, step.content);
    }
  }

  lemma {:induction false} Always(g: Record, c: Config, steps: seq<Step>)
    requires Conserved(g) && SettlesOnce(g) && Bounded(g, c) && Possible(g, c, steps)
    ensures var g' := Reached(g, c, steps); Conserved(g') && SettlesOnce(g') && Bounded(g', c)
    decreases |steps|
  {
    if steps != [] {
      StepConserves(g, c, steps[0]);
      StepSettlesOnce(g, c, steps[0]);
      StepBounded(g, c, steps[0]);
      Always(Do(g, c, steps[0]), c, steps[1..]);
    }
  }

  /** Reservations pending and ever attached are the messages sent, which are the messages forwarded. */
  lemma {:induction false} MessagesAreReservations(c: Config, steps: seq<Step>)
    requires Possible(MINTED, c, steps)
    ensures var g := Reached(MINTED, c, steps);
            |g.pending| + |g.attachedRuns| == g.messagesSent == |g.forwarded| == |g.accepted|
  {
    Always(MINTED, c, steps);
  }

  /**
   The i-th run that took a reservation took the i-th accepted one; no two runs share one and no
   run has two, however often `message_started` is replayed; and no run is settled twice.
   */
  lemma {:induction false} AttachmentOneToOne(c: Config, steps: seq<Step>, i: nat, j: nat)
    requires Possible(MINTED, c, steps)
    requires var g := Reached(MINTED, c, steps); i < |g.attachedRuns| && j < |g.attachedRuns|
    ensures var g := Reached(MINTED, c, steps);
            && |g.attachedRuns| <= |g.accepted|
            && (g.attachedRuns[i] == g.attachedRuns[j] <==> i == j)
            && (g.accepted[i] == g.accepted[j] <==> i == j)
            && (g.attachedRuns[i] in g.reservationByRun <==> g.attachedRuns[i] !in g.settledRuns)
            && (g.attachedRuns[i] in g.reservationByRun ==>
                  g.reservationByRun[g.attachedRuns[i]] == g.accepted[i])
            && g.settles == |g.settledRuns|
  {
    Always(MINTED, c, steps);
    var g := Reached(MINTED, c, steps);
    assert g.attachedRuns[i] in g.attachedRuns;
  }

  /** With `k` sockets over a guest's life, at most `messagesPerSession + k - 1` messages are sent. */
  lemma {:induction false} MessageBound(c: Config, steps: seq<Step>)
    requires Possible(MINTED, c, steps)
    ensures var g := Reached(MINTED, c, steps);
            g.messagesSent == 0 || g.messagesSent <= c.messagesPerSession + |g.sockets| - 1
  {
    Always(MINTED, c, steps);
  }

  /** The token cap asks for a cancellation at most once. */
  lemma {:induction false} OneCancel(c: Config, steps: seq<Step>)
    requires Possible(MINTED, c, steps)
    ensures Reached(MINTED, c, steps).cancels <= 1
  {
    Always(MINTED, c, steps);
  }

  // ---- The message bound is exact -------------------------------------------------------------------

  lemma {:induction false} Extend(g: Record, c: Config, steps: seq<Step>, step: Step)
    requires Possible(g, c, steps) && Enabled(Reached(g, c, steps), step)
    ensures Possible(g, c, steps + [step])
    ensures Reached(g, c, steps + [step]) == Do(Reached(g, c, steps), c, step)
    decreases |steps|
  {
    var all := steps + [step];
    if steps == [] {
      assert all[1..] == [];
    } else {
      assert all[0] == steps[0] && all[1..] == steps[1..] + [step];
      Extend(Do(g, c, steps[0]), c, steps[1..], step);
    }
  }

  function UpTo(n: nat): (s: set<Socket>)
    ensures |s| == n && forall i :: i in s <==> 0 <= i < n
  {
    if n == 0 then {} else UpTo(n - 1) + {n - 1}
  }

  /** `k` sockets are open, `sent` messages went out, `waiting` sockets await the ledger. */
  ghost predicate Racing(g: Record, k: nat, sent: nat, waiting: set<Socket>) {
    && g.sockets == UpTo(k) && g.messagesSent == sent && g.estOutputTokens == 0
    && g.reserving.Keys == waiting && forall id :: id in g.accepted ==> id < sent
  }

  predicate Permissive(c: Config) {
    c.messagesPerSession >= 1 && c.tokensPerSession >= 1 && c.messageMaxChars >= 0
  }

  lemma {:induction false} RaceOpen(c: Config, k: nat) returns (steps: seq<Step>)
    ensures Possible(MINTED, c, steps) && Racing(Reached(MINTED, c, steps), k, 0, {})
  {
    if k == 0 { return []; }
    steps := RaceOpen(c, k - 1);
    Extend(MINTED, c, steps, Open(k - 1));
    steps := steps + [Open(k - 1)];
  }

  lemma {:induction false} RaceCheckStep(g: Record, c: Config, k: nat, sent: nat, j: nat)
    requires Permissive(c) && sent < c.messagesPerSession && 0 < j <= k && Racing(g, k, sent, UpTo(j - 1))
    ensures Enabled(g, Inbound(j - 1, "", false, true))
    ensures Racing(Do(g, c, Inbound(j - 1, "", false, true)), k, sent, UpTo(j))
  {
    RaceAllows(g, c, k, sent, j);
    RaceWaits(g, k, sent, j);
    hide *;
  }

  lemma {:induction false} RaceAllows(g: Record, c: Config, k: nat, sent: nat, j: nat)
    requires Permissive(c) && sent < c.messagesPerSession && 0 < j <= k && Racing(g, k, sent, UpTo(j - 1))
    ensures Enabled(g, Inbound(j - 1, "", false, true))
    ensures Do(g, c, Inbound(j - 1, "", false, true)) == g.(reserving := g.reserving[j - 1 := ""])
  {
    hide UpTo;
    hide EstimatedTokens;
    assert j - 1 in g.sockets && j - 1 !in g.reserving.Keys;
    assert g.messagesSent < c.messagesPerSession && g.estOutputTokens < c.tokensPerSession;
    hide Racing;
    hide Permissive;
    EmptyPasses(g, c);
    hide Enforce;
  }

  lemma {:induction false} EmptyPasses(g: Record, c: Config)
    requires g.messagesSent < c.messagesPerSession && g.estOutputTokens < c.tokensPerSession && 0 <= c.messageMaxChars
    ensures Enforce(g, c, "", false, true).None?
  {
  }

  lemma {:induction false} RaceWaits(g: Record, k: nat, sent: nat, j: nat)
    requires 0 < j && Racing(g, k, sent, UpTo(j - 1))
    ensures Racing(g.(reserving := g.reserving[j - 1 := ""]), k, sent, UpTo(j))
  {
    assert g.reserving[j - 1 := ""].Keys == g.reserving.Keys + {j - 1};
  }

  lemma {:induction false} NobodyUpTo()
    ensures UpTo(0) == {}
  {
  }

  lemma {:induction false} RaceCheck(c: Config, steps: seq<Step>, k: nat, sent: nat, j: nat) returns (more: seq<Step>)
    requires Permissive(c) && sent < c.messagesPerSession && j <= k
    requires Possible(MINTED, c, steps) && Racing(Reached(MINTED, c, steps), k, sent, {})
    ensures Possible(MINTED, c, more) && Racing(Reached(MINTED, c, more), k, sent, UpTo(j))
  {
    hide *;
    NobodyUpTo();
    if j == 0 { return steps; }
    more := RaceCheck(c, steps, k, sent, j - 1);
    RaceCheckStep(Reached(MINTED, c, more), c, k, sent, j);
    Extend(MINTED, c, more, Inbound(j - 1, "", false, true));
    more := more + [Inbound(j - 1, "", false, true)];
  }

  lemma {:induction false} RaceReserve(c: Config, steps: seq<Step>, k: nat, sent: nat, j: nat) returns (more: seq<Step>)
    requires Possible(MINTED, c, steps) && Racing(Reached(MINTED, c, steps), k, sent, UpTo(j))
    ensures Possible(MINTED, c, more) && Racing(Reached(MINTED, c, more), k, sent + j, {})
    decreases j
  {
    if j == 0 { return steps; }
    var g := Reached(MINTED, c, steps);
    var step := Reserved(j - 1, sent);
    assert j - 1 in g.reserving.Keys;
    Extend(MINTED, c, steps, step);
    assert Do(g, c, step).reserving.Keys == UpTo(j) - {j - 1} == UpTo(j - 1);
    more := RaceReserve(c, steps + [step], k, sent + 1, j - 1);
  }

  lemma {:induction false} RaceWarmUp(c: Config, k: nat, sent: nat) returns (steps: seq<Step>)
    requires Permissive(c) && k >= 1 && sent < c.messagesPerSession
    ensures Possible(MINTED, c, steps) && Racing(Reached(MINTED, c, steps), k, sent, {})
  {
    if sent == 0 {
      steps := RaceOpen(c, k);
    } else {
      steps := RaceWarmUp(c, k, sent - 1);
      steps := RaceCheck(c, steps, k, sent - 1, 1);
      steps := RaceReserve(c, steps, k, sent - 1, 1);
    }
  }

  /**
   The bound is reached: with `k` sockets racing past the check together, a guest sends
   `messagesPerSession + k - 1` messages. So the per-session cap holds in every run exactly when a
   guest has one socket.
   */
  lemma {:induction false} MessageBoundIsExact(c: Config, k: nat) returns (steps: seq<Step>)
    requires c.messagesPerSession >= 1 && c.tokensPerSession >= 1 && c.messageMaxChars >= 0 && k >= 1
    ensures Possible(MINTED, c, steps)
    ensures var g := Reached(MINTED, c, steps);
            |g.sockets| == k && g.messagesSent == c.messagesPerSession + k - 1
  {
    steps := RaceWarmUp(c, k, c.messagesPerSession - 1);
    steps := RaceCheck(c, steps, k, c.messagesPerSession - 1, k);
    steps := RaceReserve(c, steps, k, c.messagesPerSession - 1, k);
  }

  // ---- The upstream link -----------------------------------------------------------------------------

  /** `forwardUpstream` and its queue: frames wait until the gateway answered the handshake. */
  class Link {
    var upstreamReady: bool
    var outQueue: seq<string>
    ghost var handed: seq<string>    // every frame given to `Forward`
    ghost var sent: seq<string>      // what reached the upstream socket

    constructor ()
      ensures Valid() && handed == []
    {
      upstreamReady, outQueue, handed, sent := false, [], [], [];
    }

    /** Frames reach the upstream in order, none lost and none twice; the rest still wait. */
    ghost predicate Valid()
      reads this
    {
      handed == sent + outQueue && (upstreamReady ==> outQueue == [])
    }

    method Forward(frame: string)
      requires Valid()
      modifies this
      ensures Valid() && handed == old(handed) + [frame] && upstreamReady == old(upstreamReady)
      ensures upstreamReady ==> sent == old(sent) + [frame]
      ensures !upstreamReady ==> sent == old(sent)
    {
      handed := handed + [frame];
      if upstreamReady { sent := sent + [frame]; } else { outQueue := outQueue + [frame]; }
    }

    /** The first pong, or the end of the ping budget. */
    method BecomeReady()
      requires Valid()
      modifies this
      ensures Valid() && upstreamReady && outQueue == [] && handed == old(handed) == sent
    {
      upstreamReady := true;
      while |outQueue| > 0
        invariant handed == sent + outQueue && upstreamReady && handed == old(handed)
        decreases |outQueue|
      {
        sent := sent + [outQueue[0]];
        outQueue := outQueue[1..];
      }
    }

    method Close()
      requires Valid()
      modifies this`upstreamReady
      ensures Valid() && !upstreamReady
    {
      upstreamReady := false;
    }
  }
}
