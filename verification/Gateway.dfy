/**
 The gateway's session bridge (packages/gateway/src/session-bridge.ts) over the connection manager
 (packages/gateway/src/connection-manager.ts), with the connection order of plugin.ts.

 The classes are the code. `View` is what one socket of one session can tell of them, and the
 theorems about late joiners are about every run of views.
 */
module Gateway {
  import opened Common

  /** A chat event of a run; everything but the run id is opaque. */
  datatype Event = Event(runId: string, payload: string)

  datatype Frame = Chat(event: Event) | Error(code: string, message: string)

  datatype Buffer = Buffer(runId: string, events: seq<Event>)

  /** One `ws.send` that reached an open socket. */
  datatype Delivery = Delivery(session: string, socket: nat, frame: Frame)

  /** The frames that a socket got for a session, in order. */
  function FramesTo(sent: seq<Delivery>, session: string, socket: nat): seq<Frame> {
    if sent == [] then []
    else
      var last := sent[|sent| - 1];
      FramesTo(sent[..|sent| - 1], session, socket)
      + if last.session == session && last.socket == socket then [last.frame] else []
  }

  lemma {:induction false} FramesToAppend(sent: seq<Delivery>, d: Delivery, session: string, socket: nat)
    ensures FramesTo(sent + [d], session, socket)
         == FramesTo(sent, session, socket) + if d.session == session && d.socket == socket then [d.frame] else []
  {
    assert (sent + [d])[..|sent|] == sent;
  }

  /** `frames` were sent, in order, to exactly the sockets `to` of `session`. */
  ghost predicate SentTo(before: seq<Delivery>, after: seq<Delivery>, session: string, to: set<nat>,
      frames: seq<Frame>) {
    forall s, w :: FramesTo(after, s, w) == FramesTo(before, s, w) + if s == session && w in to then frames else []
  }

  lemma {:induction false} SentToBoth(a: seq<Delivery>, b: seq<Delivery>, c: seq<Delivery>, session: string,
                                      x: set<nat>, y: set<nat>, frames: seq<Frame>)
    requires SentTo(a, b, session, x, frames) && SentTo(b, c, session, y, frames) && x !! y
    ensures SentTo(a, c, session, x + y, frames)
  {
    hide FramesTo;
  }

  lemma {:induction false} SentToNobody(a: seq<Delivery>, session: string, frames: seq<Frame>)
    ensures SentTo(a, a, session, {}, frames)
  {
    hide FramesTo;
  }

  // ---- Connections ---------------------------------------------------------------------------------

  class ConnectionManager {
    var sessions: map<string, set<nat>>
    /** The sockets whose `readyState` is open and whose `send` does not throw. */
    var live: set<nat>
    ghost var sent: seq<Delivery>

    constructor ()
      ensures Valid() && sessions == map[] && live == {} && sent == []
    {
      sessions, live, sent := map[], {}, [];
    }

    /** Sessions without sockets are not kept. */
    ghost predicate Valid()
      reads this
    {
      forall s :: s in sessions ==> |sessions[s]| > 0
    }

    function Connections(session: string): set<nat>
      reads this
    {
      if session in sessions then sessions[session] else {}
    }

    method Add(session: string, socket: nat)
      requires Valid()
      modifies this`sessions
      ensures Valid()
      ensures forall s :: Connections(s) == old(Connections(s)) + if s == session then {socket} else {}
    {
      var sockets := Connections(session);
      sessions := sessions[session := sockets + {socket}];
      assert socket in sessions[session];
    }

    method Remove(session: string, socket: nat)
      requires Valid()
      modifies this`sessions
      ensures Valid()
      ensures forall s :: Connections(s) == old(Connections(s)) - if s == session then {socket} else {}
    {
      if session !in sessions { return; }
      var sockets := sessions[session] - {socket};
      if |sockets| == 0 {
        sessions := sessions - {session};
      } else {
        sessions := sessions[session := sockets];
      }
    }

    method SafeSend(session: string, socket: nat, frame: Frame)
      requires Valid()
      modifies this`sessions, this`sent
      ensures Valid()
      ensures SentTo(old(sent), sent, session, {socket} * live, [frame])
      ensures forall s :: Connections(s) == old(Connections(s)) - if s == session then {socket} - live else {}
    {
      if socket in live {
        forall s, w ensures FramesTo(sent + [Delivery(session, socket, frame)], s, w)
          == FramesTo(sent, s, w) + if s == session && w == socket then [frame] else []
        {
          FramesToAppend(sent, Delivery(session, socket, frame), s, w);
        }
        sent := sent + [Delivery(session, socket, frame)];
      } else {
        Remove(session, socket);
      }
    }

    /** Sends `frame` to every socket in `sockets` once and drops the dead ones. */
    method SendAll(session: string, sockets: set<nat>, frame: Frame)
      requires Valid()
      modifies this`sessions, this`sent
      ensures Valid()
      ensures SentTo(old(sent), sent, session, sockets * live, [frame])
      ensures forall s :: Connections(s) == old(Connections(s)) - if s == session then sockets - live else {}
    {
      hide SentTo;
      hide Connections;
      hide Valid;
      var remaining := sockets;
      SentToNobody(sent, session, [frame]);
      assert (sockets - remaining) * live == {};
      while |remaining| > 0
        invariant Valid() && remaining <= sockets
        invariant SentTo(old(sent), sent, session, (sockets - remaining) * live, [frame])
        invariant forall s :: Connections(s) == old(Connections(s)) - if s == session then (sockets - remaining) - live else {}
        decreases |remaining|
      {
        var socket :| socket in remaining;
        ghost var before := sent;
        SafeSend(session, socket, frame);
        SentToBoth(old(sent), before, sent, session, (sockets - remaining) * live, {socket} * live, [frame]);
        assert (sockets - remaining) * live + {socket} * live == (sockets - (remaining - {socket})) * live;
        remaining := remaining - {socket};
      }
      assert sockets - remaining == sockets;
    }

    method Broadcast(session: string, event: Event)
      requires Valid()
      modifies this`sessions, this`sent
      ensures Valid()
      ensures SentTo(old(sent), sent, session, old(Connections(session)) * live, [Chat(event)])
      ensures forall s :: Connections(s) == old(Connections(s)) - if s == session then old(Connections(session)) - live else {}
    {
      if session !in sessions { return; }
      SendAll(session, sessions[session], Chat(event));
    }
  }

  // ---- One socket's view ---------------------------------------------------------------------------

  datatype View = View(buffer: Option<Buffer>, attached: bool, live: bool, received: seq<Frame>)

  /**
   What can happen to a session and one of its sockets: an event, the end of a send with the error
   frame the socket is sent for it if any, and the socket's own life.
   */
  datatype Step = Emit(event: Event) | Finish(error: Option<Frame>) | Attach | Detach | Die

  function Pushed(buffer: Option<Buffer>, e: Event, max: int): Option<Buffer> {
    if e.runId == "" then buffer
    else
      var b := if buffer.None? || buffer.value.runId != e.runId then Buffer(e.runId, []) else buffer.value;
      Some(if |b.events| < max then Buffer(b.runId, b.events + [e]) else b)
  }

  function Chats(events: seq<Event>): seq<Frame> {
    seq(|events|, i requires 0 <= i < |events| => Chat(events[i]))
  }

  function Do(v: View, step: Step, max: int): View {
    match step
    case Emit(e) =>
      View(Pushed(v.buffer, e, max), v.attached && v.live, v.live,
           v.received + if v.attached && v.live then [Chat(e)] else [])
    case Finish(error) =>
      View(None, v.attached && (error.None? || v.live), v.live,
           v.received + if error.Some? && v.live then [error.value] else [])
    case Attach =>
      var replay := Chats(BufferedIn(v.buffer));
      View(v.buffer, replay == [] || v.live, v.live, v.received + if v.live then replay else [])
    case Detach => v.(attached := false)
    case Die => v.(live := false)
  }

  // ---- The bridge ----------------------------------------------------------------------------------

  /** How `runtime.start` came back: the run drained, the session was busy, or it threw. */
  datatype SendOutcome = Drained | Conflict(message: string) | Failed(message: string)

  class SessionBridge {
    const connections: ConnectionManager
    const maxReplayBufferSize: int
    var replayBuffers: map<string, Buffer>

    constructor (connections: ConnectionManager, maxReplayBufferSize: int)
      requires connections.Valid()
      ensures Valid() && this.connections == connections && this.maxReplayBufferSize == maxReplayBufferSize
      ensures replayBuffers == map[]
    {
      this.connections, this.maxReplayBufferSize, replayBuffers := connections, maxReplayBufferSize, map[];
    }

    ghost predicate Valid()
      reads this, connections
    {
      connections.Valid()
    }

    function BufferOf(session: string): Option<Buffer>
      reads this
    {
      if session in replayBuffers then Some(replayBuffers[session]) else None
    }

    ghost function ViewOf(session: string, socket: nat): View
      reads this, connections
    {
      View(BufferOf(session), socket in connections.Connections(session), socket in connections.live,
           FramesTo(connections.sent, session, socket))
    }

    /** The event sink of a send: buffer for late joiners, then broadcast. */
    method OnEvent(session: string, event: Event)
      requires Valid()
      modifies this`replayBuffers, connections`sessions, connections`sent
      ensures Valid()
      ensures forall s, w :: ViewOf(s, w) == if s == session then Do(old(ViewOf(s, w)), Emit(event), maxReplayBufferSize)
                                             else old(ViewOf(s, w))
    {
      hide FramesTo;
      hide ConnectionManager.Connections;
      hide ConnectionManager.Valid;
      if event.runId != "" {
        var buffer := BufferOf(session);
        if buffer.None? || buffer.value.runId != event.runId {
          buffer := Some(Buffer(event.runId, []));
          replayBuffers := replayBuffers[session := buffer.value];
        }
        if |buffer.value.events| < maxReplayBufferSize {
          replayBuffers := replayBuffers[session := Buffer(buffer.value.runId, buffer.value.events + [event])];
        }
      }
      connections.Broadcast(session, event);
    }

    /** The end of a send: the buffer goes, and whoever is to be told is told. */
    method FinishSend(session: string, sender: nat, emitted: bool, outcome: SendOutcome)
      requires Valid()
      modifies this`replayBuffers, connections`sessions, connections`sent
      ensures Valid()
      ensures forall s, w ::
        ViewOf(s, w) == if s == session
                        then Do(old(ViewOf(s, w)),
                                Finish(Told(outcome, emitted, w == sender, old(w in connections.Connections(session)))),
                                maxReplayBufferSize)
                        else old(ViewOf(s, w))
    {
      hide FramesTo;
      hide ConnectionManager.Connections;
      hide ConnectionManager.Valid;
      replayBuffers := replayBuffers - {session};
      match outcome
      case Drained =>
      case Conflict(message) =>
        connections.SafeSend(session, sender, Error("RUN_IN_PROGRESS", message));
      case Failed(message) =>
        if !emitted {
          connections.SafeSend(session, sender, Error("RUNTIME_ERROR", message));
        } else {
          connections.SendAll(session, connections.Connections(session), Error("RUN_FAILED", message));
        }
    }

    /** The run a client's cancel is forwarded for. */
    method HandleCancel(session: string) returns (target: Option<string>)
      ensures target == Target(BufferOf(session))
    {
      if session !in replayBuffers || replayBuffers[session].runId == "" { return None; }
      target := Some(replayBuffers[session].runId);
    }

    method ReplayEvents(session: string, socket: nat) returns (count: nat)
      requires Valid()
      modifies connections`sessions, connections`sent
      ensures Valid()
      ensures count == if BufferOf(session).None? then 0 else |BufferOf(session).value.events|
      ensures SentTo(old(connections.sent), connections.sent, session, {socket} * connections.live,
                     Chats(BufferedIn(BufferOf(session))))
      ensures forall s :: connections.Connections(s)
                == old(connections.Connections(s)) - if s == session && count > 0 then {socket} - connections.live else {}
    {
      hide FramesTo;
      if session !in replayBuffers { return 0; }
      var events := replayBuffers[session].events;
      var i := 0;
      hide ConnectionManager.Connections;
      hide ConnectionManager.Valid;
      while i < |events|
        invariant i <= |events| && connections.Valid()
        invariant SentTo(old(connections.sent), connections.sent, session, {socket} * connections.live, Chats(events[..i]))
        invariant forall s :: connections.Connections(s)
                    == old(connections.Connections(s)) - if s == session && i > 0 then {socket} - connections.live else {}
      {
        connections.SafeSend(session, socket, Chat(events[i]));
        assert Chats(events[..i + 1]) == Chats(events[..i]) + [Chat(events[i])];
        i := i + 1;
      }
      assert events[..i] == events;
      count := |events|;
    }

    /** A socket joins: it is registered and then sent the buffer, with nothing in between. */
    method Connect(session: string, socket: nat)
      requires Valid()
      modifies connections`sessions, connections`sent
      ensures Valid()
      ensures forall s, w :: ViewOf(s, w)
                == if s == session && w == socket then Do(old(ViewOf(s, w)), Attach, maxReplayBufferSize)
                                             else old(ViewOf(s, w))
    {
      hide FramesTo;
      hide ConnectionManager.Connections;
      hide ConnectionManager.Valid;
      connections.Add(session, socket);
      var _ := ReplayEvents(session, socket);
    }

    method Disconnect(session: string, socket: nat)
      requires Valid()
      modifies connections`sessions
      ensures Valid()
      ensures forall s, w :: ViewOf(s, w)
                == if s == session && w == socket then Do(old(ViewOf(s, w)), Detach, maxReplayBufferSize)
                                             else old(ViewOf(s, w))
    {
      hide FramesTo;
      hide ConnectionManager.Connections;
      hide ConnectionManager.Valid;
      connections.Remove(session, socket);
    }
  }

  function BufferedIn(buffer: Option<Buffer>): seq<Event> {
    if buffer.None? then [] else buffer.value.events
  }

  function Target(buffer: Option<Buffer>): Option<string> {
    if buffer.None? || buffer.value.runId == "" then None else Some(buffer.value.runId)
  }

  /** The error frame a socket is sent when a send ends. */
  function Told(outcome: SendOutcome, emitted: bool, isSender: bool, attached: bool): Option<Frame> {
    match outcome
    case Drained => None
    case Conflict(message) => if isSender then Some(Error("RUN_IN_PROGRESS", message)) else None
    case Failed(message) =>
      if emitted then if attached then Some(Error("RUN_FAILED", message)) else None
      else if isSender then Some(Error("RUNTIME_ERROR", message)) else None
  }

  /**
   Who is told of the end of a send: nobody if it drained; the sender alone of a conflict, and of a failure
   before the first event; and after one every attached socket of the session.
   */
  lemma {:induction false} WhoIsTold(outcome: SendOutcome, emitted: bool, isSender: bool, attached: bool)
    ensures var told := Told(outcome, emitted, isSender, attached);
            match outcome
            case Drained => told.None?
            case Conflict(message) =>
              && (told.Some? <==> isSender)
              && (told.Some? ==> told.value.Error? && told.value.code == "RUN_IN_PROGRESS" && told.value.message == message)
            case Failed(message) =>
              && (told.Some? <==> (emitted && attached) || (!emitted && isSender))
              && (told.Some? ==> told.value.Error? && told.value.message == message
                                 && told.value.code == if emitted then "RUN_FAILED" else "RUNTIME_ERROR")
  {
  }

  // ---- Every run of a view -------------------------------------------------------------------------

  function After(v: View, steps: seq<Step>, max: int): View {
    if steps == [] then v else Do(After(v, steps[..|steps| - 1], max), steps[|steps| - 1], max)
  }

  function Emitted(steps: seq<Step>): seq<Event> {
    if steps == [] then []
    else
      var before, last := Emitted(steps[..|steps| - 1]), steps[|steps| - 1];
      if last.Emit? then before + [last.event] else before
  }

  /** The events emitted since a send last ended; events without a run id do not count. */
  function SinceFinish(steps: seq<Step>): seq<Event> {
    if steps == [] || steps[|steps| - 1].Finish? then []
    else
      var before, last := SinceFinish(steps[..|steps| - 1]), steps[|steps| - 1];
      if last.Emit? && last.event.runId != "" then before + [last.event] else before
  }

  /** The events at the end of `es` that belong to the run of the last one. */
  function LastRun(es: seq<Event>): seq<Event> {
    if es == [] then []
    else if |es| > 1 && es[|es| - 2].runId == es[|es| - 1].runId then LastRun(es[..|es| - 1]) + [es[|es| - 1]]
    else [es[|es| - 1]]
  }

  function Take(es: seq<Event>, max: int): seq<Event> {
    if |es| <= max then es else if max <= 0 then [] else es[..max]
  }

  const START := View(None, false, true, [])

  lemma {:induction false} AfterSplit(v: View, a: seq<Step>, b: seq<Step>, max: int)
    ensures After(v, a + b, max) == After(After(v, a, max), b, max)
  {
    if b == [] {
      assert a + b == a;
    } else {
      var n := |b| - 1;
      assert (a + b)[..|a + b| - 1] == a + b[..n];
      AfterSplit(v, a, b[..n], max);
    }
  }

  lemma {:induction false} EmittedSplit(a: seq<Step>, b: seq<Step>)
    ensures Emitted(a + b) == Emitted(a) + Emitted(b)
  {
    if b == [] {
      assert a + b == a;
    } else {
      var n := |b| - 1;
      assert (a + b)[..|a + b| - 1] == a + b[..n];
      EmittedSplit(a, b[..n]);
    }
  }

  /** The buffer is the start of what the latest run emitted since a send last ended. */
  lemma {:induction false} BufferIs(steps: seq<Step>, max: int)
    ensures var b := After(START, steps, max).buffer;
            var es := SinceFinish(steps);
            b == BufferFor(es, max)
  {
    hide LastRun;
    hide Take;
    hide Chats;
    if steps != [] {
      var before, last := steps[..|steps| - 1], steps[|steps| - 1];
      BufferIs(before, max);
      var es := SinceFinish(before);
      if last.Emit? && last.event.runId != "" {
        PushedIs(es, last.event, max);
      }
    }
  }

  lemma {:induction false} RunIdsAreSet(steps: seq<Step>)
    ensures forall i :: 0 <= i < |SinceFinish(steps)| ==> SinceFinish(steps)[i].runId != ""
  {
    if steps != [] { RunIdsAreSet(steps[..|steps| - 1]); }
  }

  function BufferFor(es: seq<Event>, max: int): Option<Buffer> {
    if es == [] then None else Some(Buffer(es[|es| - 1].runId, Take(LastRun(es), max)))
  }

  lemma {:induction false} PushedIs(es: seq<Event>, e: Event, max: int)
    requires e.runId != ""
    ensures Pushed(BufferFor(es, max), e, max) == BufferFor(es + [e], max)
  {
    var more := es + [e];
    assert more[..|es|] == es && more[|es|] == e;
    if es != [] && es[|es| - 1].runId == e.runId {
      assert LastRun(more) == LastRun(es) + [e];
    } else {
      assert LastRun(more) == [e];
    }
    TakeMore(LastRun(es), e, max);
    hide LastRun;
    hide Take;
    assert [] + [e] == [e];
  }

  lemma {:induction false} TakeMore(es: seq<Event>, e: Event, max: int)
    ensures Take(es + [e], max) == if |Take(es, max)| < max then Take(es, max) + [e] else Take(es, max)
    ensures Take([e], max) == if 0 < max then [e] else []
  {
  }

  predicate Quiet(steps: seq<Step>) {
    forall i :: 0 <= i < |steps| ==> steps[i].Emit? || steps[i] == Finish(None)
  }

  /** Which runs of a session the promises are about, step by step. */
  lemma {:induction false} StepByStep(steps: seq<Step>, step: Step, run: string)
    ensures Quiet([]) && OtherRuns([], run) && (OneRun([], run) <==> run != "")
    ensures Quiet(steps + [step]) <==> Quiet(steps) && (step.Emit? || (step.Finish? && step.error.None?))
    ensures OneRun(steps + [step], run) <==> OneRun(steps, run) && (step.Emit? ==> step.event.runId == run)
    ensures OtherRuns(steps + [step], run) <==> OtherRuns(steps, run) && (step.Emit? ==> step.event.runId != run)
  {
    var more := steps + [step];
    assert more[|steps|] == step && forall i :: 0 <= i < |steps| ==> more[i] == steps[i];
  }

  /** While nothing happens to an attached, live socket, it receives every event once and in order. */
  lemma {:induction false} AttachedSeesAll(v: View, steps: seq<Step>, max: int)
    requires v.attached && v.live && Quiet(steps)
    ensures var v' := After(v, steps, max);
            v'.attached && v'.live && v'.received == v.received + Chats(Emitted(steps))
  {
    if steps != [] {
      var before, last := steps[..|steps| - 1], steps[|steps| - 1];
      AttachedSeesAll(v, before, max);
      if last.Emit? { ChatsAppend(Emitted(before), [last.event]); }
    }
  }

  lemma {:induction false} ChatsAppend(a: seq<Event>, b: seq<Event>)
    ensures Chats(a + b) == Chats(a) + Chats(b)
  {
  }

  /** A dead socket stays dead and receives nothing more. */
  lemma {:induction false} DeadGetsNothing(v: View, steps: seq<Step>, max: int)
    requires !v.live
    ensures !After(v, steps, max).live && After(v, steps, max).received == v.received
    ensures !After(v, [Die], max).live
  {
    assert After(v, [Die], max) == Do(After(v, [], max), Die, max);
    if steps != [] { DeadGetsNothing(v, steps[..|steps| - 1], max); }
  }

  /** Before it attaches, a socket receives nothing. */
  lemma {:induction false} UnattachedSeesNothing(steps: seq<Step>, max: int)
    requires Quiet(steps)
    ensures var v := After(START, steps, max); !v.attached && v.live && v.received == []
  {
    if steps != [] { UnattachedSeesNothing(steps[..|steps| - 1], max); }
  }

  predicate OneRun(steps: seq<Step>, run: string) {
    run != "" && forall i :: 0 <= i < |steps| && steps[i].Emit? ==> steps[i].event.runId == run
  }

  /** How many events were emitted before a send last ended. */
  function BeforeFinish(steps: seq<Step>): nat {
    if steps == [] then 0
    else if steps[|steps| - 1].Finish? then |Emitted(steps)|
    else BeforeFinish(steps[..|steps| - 1])
  }

  lemma {:induction false} SinceFinishIsTail(steps: seq<Step>, run: string)
    requires OneRun(steps, run)
    ensures BeforeFinish(steps) <= |Emitted(steps)| && SinceFinish(steps) == Emitted(steps)[BeforeFinish(steps)..]
    ensures forall i :: 0 <= i < |Emitted(steps)| ==> Emitted(steps)[i].runId == run
  {
    if steps != [] { SinceFinishIsTail(steps[..|steps| - 1], run); }
  }

  function Min(a: int, b: int): int {
    if a < b then a else b
  }

  predicate OtherRuns(steps: seq<Step>, run: string) {
    forall i :: 0 <= i < |steps| && steps[i].Emit? ==> steps[i].event.runId != run
  }

  /** What a socket gets of earlier runs if it joins before the latest one has emitted or a send has ended. */
  function Stale(earlier: seq<Step>, before: seq<Step>, max: int): seq<Event> {
    if before == [] then BufferedIn(After(START, earlier, max).buffer) else []
  }

  /**
   A socket joins a session after earlier runs, when the latest run has emitted `i` events, `c` of them
   before a send on that session last ended. It receives up to `max` events from `c` on and then every
   later one; that is the run's stream, once and in order, exactly when no send ended during the run and
   at most `max` events were missed. Events of an earlier run come before only if nothing has happened
   since and no send had ended after it.
   */
  lemma {:induction false} LateJoinerSees(earlier: seq<Step>, before: seq<Step>, after: seq<Step>, run: string,
      max: nat)
    requires Quiet(earlier) && Quiet(before) && Quiet(after) && OtherRuns(earlier, run) && OneRun(before + after, run)
    ensures var stream := Emitted(before + after);
            var i, c := |Emitted(before)|, BeforeFinish(before);
            var received := After(START, earlier + before + [Attach] + after, max).received;
            && c <= i <= |stream|
            && received == Chats(Stale(earlier, before, max) + (stream[c..Min(i, c + max)] + stream[i..]))
            && (received == Chats(stream) <==> c == 0 && i <= max && Stale(earlier, before, max) == [])
  {
    assert forall k :: 0 <= k < |before| ==> before[k] == (before + after)[k];
    assert OneRun(before, run);
    var stream := Emitted(before + after);
    var i, c := |Emitted(before)|, BeforeFinish(before);
    EmittedSplit(before, after);
    var joined := After(START, earlier + before + [Attach], max);
    JustJoined(earlier, before, run, max);
    AttachedSeesAll(joined, after, max);
    AfterSplit(START, earlier + before + [Attach], after, max);
    hide *;
    EmptyBefore(earlier, before, max);
    ReplayThenRest(Stale(earlier, before, max), Emitted(before), Emitted(after), c, max);
    WholeStream(Stale(earlier, before, max), stream, c, i, max);
  }

  lemma {:induction false} EmptyBefore(earlier: seq<Step>, before: seq<Step>, max: int)
    ensures Stale(earlier, before, max) != [] ==> Emitted(before) == []
  {
  }

  lemma {:induction false} ReplayThenRest(stale: seq<Event>, a: seq<Event>, b: seq<Event>, c: nat, max: nat)
    requires c <= |a|
    ensures Chats(stale + a[c..Min(|a|, c + max)]) + Chats(b)
         == Chats(stale + ((a + b)[c..Min(|a|, c + max)] + (a + b)[|a|..]))
  {
    var replay := a[c..Min(|a|, c + max)];
    assert replay == (a + b)[c..Min(|a|, c + max)];
    assert b == (a + b)[|a|..];
    ChatsAppend(stale + replay, b);
    assert stale + replay + b == stale + (replay + b);
  }

  lemma {:induction false} JustJoined(earlier: seq<Step>, before: seq<Step>, run: string, max: nat)
    requires Quiet(earlier) && Quiet(before) && OtherRuns(earlier, run) && OneRun(before, run)
    ensures var v := After(START, earlier + before + [Attach], max);
            var es, c := Emitted(before), BeforeFinish(before);
            && c <= |es| && v.attached && v.live
            && v.received == Chats(Stale(earlier, before, max) + es[c..Min(|es|, c + max)])
  {
    UnattachedSeesNothing(earlier + before, max);
    JustAttached(earlier + before, max);
    LatestBuffered(earlier, before, run, max);
    hide After;
    hide Emitted;
    hide BeforeFinish;
    hide Stale;
  }

  /** The buffer holds the latest run's events since a send last ended, up to the limit. */
  lemma {:induction false} LatestBuffered(earlier: seq<Step>, before: seq<Step>, run: string, max: nat)
    requires Quiet(before) && OtherRuns(earlier, run) && OneRun(before, run)
    ensures var es, c := Emitted(before), BeforeFinish(before);
            && c <= |es|
            && BufferedIn(After(START, earlier + before, max).buffer)
               == Stale(earlier, before, max) + es[c..Min(|es|, c + max)]
  {
    hide *;
    var es, c := Emitted(before), BeforeFinish(before);
    SinceFinishIsTail(before, run);
    if before == [] {
      NothingSince(earlier, before, max);
    } else {
      SinceFinishLatest(earlier, before, run);
      BufferIs(earlier + before, max);
      NotStale(earlier, before, max);
      BufferedLatest(SinceFinish(earlier + before), es[c..], max);
      TakeTail(es, c, max);
    }
  }

  lemma {:induction false} NothingSince(earlier: seq<Step>, before: seq<Step>, max: nat)
    requires before == []
    ensures var es, c := Emitted(before), BeforeFinish(before);
            && c <= |es|
            && BufferedIn(After(START, earlier + before, max).buffer)
               == Stale(earlier, before, max) + es[c..Min(|es|, c + max)]
  {
    assert earlier + before == earlier;
    hide After;
    hide BufferedIn;
  }

  lemma {:induction false} NotStale(earlier: seq<Step>, before: seq<Step>, max: int)
    requires before != []
    ensures forall es :: Stale(earlier, before, max) + es == es
  {
  }

  /** Whatever earlier runs emitted, the last run of the buffer is the latest one. */
  lemma {:induction false} SinceFinishLatest(earlier: seq<Step>, before: seq<Step>, run: string)
    requires Quiet(before) && OtherRuns(earlier, run) && OneRun(before, run) && before != []
    ensures LastRun(SinceFinish(earlier + before)) == SinceFinish(before)
    ensures SinceFinish(before) == [] ==> SinceFinish(earlier + before) == []
    ensures forall e :: e in SinceFinish(before) ==> e.runId == run
  {
    hide LastRun;
    hide Emitted;
    NoLastRun();
    var n := |before| - 1;
    var front, last := before[..n], before[n];
    assert (earlier + before)[..|earlier + before| - 1] == earlier + front && (earlier + before)[|earlier| + n] == last;
    if last.Emit? {
      if front == [] {
        assert earlier + front == earlier;
        OthersSince(earlier, run);
        FirstOfRun(SinceFinish(earlier), last.event);
      } else {
        SinceFinishLatest(earlier, front, run);
        NextOfRun(SinceFinish(earlier + front), SinceFinish(front), last.event);
      }
    }
  }

  lemma {:induction false} NoLastRun()
    ensures LastRun([]) == []
  {
  }

  lemma {:induction false} OthersSince(steps: seq<Step>, run: string)
    requires OtherRuns(steps, run)
    ensures forall e :: e in SinceFinish(steps) ==> e.runId != run
  {
    if steps != [] { OthersSince(steps[..|steps| - 1], run); }
  }

  lemma {:induction false} FirstOfRun(es: seq<Event>, e: Event)
    requires forall x :: x in es ==> x.runId != e.runId
    ensures LastRun(es + [e]) == [e]
  {
    if es != [] { assert es[|es| - 1] in es; }
  }

  lemma {:induction false} NextOfRun(all: seq<Event>, es: seq<Event>, e: Event)
    requires LastRun(all) == es && (forall x :: x in es ==> x.runId == e.runId) && (es == [] ==> all == [])
    ensures LastRun(all + [e]) == es + [e]
  {
    assert (all + [e])[..|all|] == all;
    if all != [] {
      LastIsLast(all);
      assert es[|es| - 1] in es;
    }
  }

  lemma {:induction false} LastIsLast(es: seq<Event>)
    requires es != []
    ensures LastRun(es) != [] && LastRun(es)[|LastRun(es)| - 1] == es[|es| - 1]
  {
  }

  lemma {:induction false} BufferedLatest(all: seq<Event>, es: seq<Event>, max: int)
    requires LastRun(all) == es && (es == [] ==> all == [])
    ensures BufferedIn(BufferFor(all, max)) == Take(es, max)
  {
    if all != [] { LastIsLast(all); }
  }

  lemma {:induction false} TakeTail(es: seq<Event>, c: nat, max: nat)
    requires c <= |es|
    ensures Take(es[c..], max) == es[c..Min(|es|, c + max)]
  {
  }

  lemma {:induction false} JustAttached(before: seq<Step>, max: int)
    ensures After(START, before + [Attach], max) == Do(After(START, before, max), Attach, max)
  {
    assert (before + [Attach])[..|before|] == before;
  }

  lemma {:induction false} WholeStream(stale: seq<Event>, stream: seq<Event>, c: nat, i: nat, max: nat)
    requires c <= i <= |stream| && (stale != [] ==> i == 0)
    ensures Chats(stale + (stream[c..Min(i, c + max)] + stream[i..])) == Chats(stream)
       <==> c == 0 && i <= max && stale == []
  {
    if stale != [] {
      assert |stale + (stream[c..Min(i, c + max)] + stream[i..])| > |stream|;
    } else if c == 0 && i <= max {
      assert stale + (stream[..i] + stream[i..]) == stream;
    } else {
      assert |stale + (stream[c..Min(i, c + max)] + stream[i..])| < |stream|;
    }
  }

  /** A cancel is forwarded for the latest run heard of, unless a send on the session ended since. */
  lemma {:induction false} CancelTarget(steps: seq<Step>, error: Option<Frame>, e: Event, max: int)
    ensures Target(After(START, steps, max).buffer)
         == var es := SinceFinish(steps); if es == [] then None else Some(es[|es| - 1].runId)
    ensures Target(After(START, steps + [Finish(error)], max).buffer) == None
    ensures e.runId != "" ==> Target(After(START, steps + [Finish(error), Emit(e)], max).buffer) == Some(e.runId)
  {
    BufferIs(steps, max);
    RunIdsAreSet(steps);
    var ended := steps + [Finish(error)];
    assert ended[..|steps|] == steps;
    BufferIs(ended, max);
    assert steps + [Finish(error), Emit(e)] == ended + [Emit(e)];
    assert (ended + [Emit(e)])[..|ended|] == ended;
    BufferIs(ended + [Emit(e)], max);
  }

  /**
   A second send on the session is refused with a conflict while a run goes on: the buffer of that run is
   cleared, a socket that joins then misses the run's first event, and a cancel finds no run.
   */
  lemma {:induction false} ConflictHidesTheRun(first: Event, next: Event, max: nat)
    requires first.runId == next.runId != ""
    ensures var before := [Emit(first), Finish(None)];
            && Target(After(START, before, max).buffer) == None
            && After(START, before + [Attach] + [Emit(next)], max).received == [Chat(next)]
            && Emitted(before + [Emit(next)]) == [first, next]
  {
    var before := [Emit(first), Finish(None)];
    assert before[..1] == [Emit(first)] && before[..1][..0] == [];
    assert After(START, before[..1], max) == Do(START, Emit(first), max);
    assert After(START, before, max) == View(None, false, true, []);
    assert (before + [Attach])[..2] == before;
    assert (before + [Attach] + [Emit(next)])[..3] == before + [Attach];
    assert Chats([]) == [];
    assert (before + [Emit(next)])[..2] == before;
    assert Emitted(before[..1]) == [first] && Emitted(before) == [first];
  }
}
