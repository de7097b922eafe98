/**
 Fanout of chat events across gateway instances (packages/gateway/src/channel-registry.ts), the broker
 client it awaits (createRedisPubSub in session-bridge.ts), and the connection life cycle of plugin.ts
 that holds its subscriptions.

 `ChannelRegistry` is the code of one instance. `Link` is what it knows of one channel and `Peer` what
 one socket sees of it; the class methods do the steps of both, and the theorems are about every run.
 */
module Fanout {
  import opened Common
  import opened Gateway

  /** The wire envelope. `publisher` tells instances apart that share an id. */
  datatype Envelope = Envelope(publisher: nat, origin: string, event: Event)

  /** Commands sent to the broker and not answered yet; `caller` is whose `acquire` awaits the answer. */
  datatype Command = Subscribe(caller: nat) | Unsubscribe

  /**
   One channel on one instance: its reference count, whether the client has a handler for it, the
   commands on their way, and whether the broker counts the instance as a subscriber.
   */
  datatype Link = Link(count: nat, handler: bool, pending: seq<Command>, confirmed: bool)

  const UNLINKED := Link(0, false, [], false)

  /** `acquire` up to its await: the first holder alone installs the handler and subscribes. */
  function Acquired(l: Link, caller: nat): Link {
    if l.count > 0 then l.(count := l.count + 1) else Link(1, true, l.pending + [Subscribe(caller)], l.confirmed)
  }

  /** `release` up to its await: the last holder removes the handler and unsubscribes. */
  function Released(l: Link): Link {
    if l.count == 0 then l
    else if l.count > 1 then l.(count := l.count - 1)
    else Link(0, false, l.pending + [Unsubscribe], l.confirmed)
  }

  /** The broker takes the oldest command; one that it rejects leaves the subscription as it was. */
  function Answered(l: Link, ok: bool): Link {
    if l.pending == [] then l
    else l.(pending := l.pending[1..], confirmed := if ok then l.pending[0].Subscribe? else l.confirmed)
  }

  function Channel(session: string): string {
    "session:" + session
  }

  lemma {:induction false} ChannelsDiffer(a: string, b: string)
    requires a != b
    ensures Channel(a) != Channel(b)
  {
    assert Channel(a)[8..] == a && Channel(b)[8..] == b;
  }

  // ---- Delivery as one socket sees it --------------------------------------------------------------

  /** One socket on instance `me`: its session's channel there, what the broker still has for it, what it got. */
  datatype Peer = Peer(link: Link, queue: seq<Envelope>, attached: bool, received: seq<Envelope>)

  datatype Step =
    | Publish(at: nat, event: Event)
    | Deliver
    | Acquire(caller: nat)
    | Release
    | Answer(ok: bool)
    | Join
    | Leave

  /**
   A publisher broadcasts to its own sockets at once; the broker queues for every instance that it counts
   as a subscriber at that moment. A queued message reaches the handler, if there still is one, and is
   forwarded unless it carries the instance's own id.
   */
  function Next(v: Peer, step: Step, me: nat, ids: nat -> string): Peer {
    match step
    case Publish(at, e) =>
      var m := Envelope(at, ids(at), e);
      v.(received := if at == me && v.attached then v.received + [m] else v.received,
         queue := if v.link.confirmed then v.queue + [m] else v.queue)
    case Deliver =>
      if v.queue == [] then v
      else
        var m := v.queue[0];
        var forwarded := v.link.handler && m.origin != ids(me) && v.attached;
        v.(queue := v.queue[1..], received := if forwarded then v.received + [m] else v.received)
    case Acquire(caller) => v.(link := Acquired(v.link, caller))
    case Release => v.(link := Released(v.link))
    case Answer(ok) => v.(link := Answered(v.link, ok))
    case Join => v.(attached := true)
    case Leave => v.(attached := false)
  }

  function Shown(received: seq<Envelope>): seq<Frame> {
    if received == [] then [] else Shown(received[..|received| - 1]) + [Chat(received[|received| - 1].event)]
  }

  lemma {:induction false} ShownMore(received: seq<Envelope>, m: Envelope)
    ensures Shown(received + [m]) == Shown(received) + [Chat(m.event)]
  {
    assert (received + [m])[..|received|] == received;
  }

  // ---- The registry --------------------------------------------------------------------------------

  class ChannelRegistry {
    const number: nat
    const ids: nat -> string
    const connections: ConnectionManager
    var refs: map<string, nat>

    // The broker client: its handlers and the commands that are not answered.
    var handlers: set<string>
    var pending: map<string, seq<Command>>

    // The broker: who is subscribed, and what it has for this instance.
    var confirmed: set<string>
    var queues: map<string, seq<Envelope>>

    constructor (number: nat, ids: nat -> string, connections: ConnectionManager)
      ensures Valid() && this.connections == connections && this.number == number && this.ids == ids
      ensures forall s :: LinkOf(s) == UNLINKED && QueueOf(s) == []
    {
      this.number, this.ids, this.connections := number, ids, connections;
      refs, handlers, pending, confirmed, queues := map[], {}, map[], {}, map[];
    }

    ghost predicate Valid()
      reads this
    {
      handlers == refs.Keys && forall c :: c in refs ==> refs[c] > 0
    }

    function RefCount(session: string): nat
      reads this
    {
      if Channel(session) in refs then refs[Channel(session)] else 0
    }

    function LinkOf(session: string): Link
      reads this
    {
      var c := Channel(session);
      Link(RefCount(session), c in handlers, if c in pending then pending[c] else [], c in confirmed)
    }

    function QueueOf(session: string): seq<Envelope>
      reads this
    {
      if Channel(session) in queues then queues[Channel(session)] else []
    }

    /** `v` is what socket `w` of `session` sees. */
    ghost predicate Shows(session: string, w: nat, v: Peer)
      reads this, connections
    {
      && v.link == LinkOf(session) && v.queue == QueueOf(session)
      && v.attached == (w in connections.Connections(session) && w in connections.live)
      && FramesTo(connections.sent, session, w) == Shown(v.received)
    }

    method AcquireChannel(session: string, caller: nat)
      requires Valid()
      modifies this`refs, this`handlers, this`pending
      ensures Valid()
      ensures forall s :: LinkOf(s) == if s == session then Acquired(old(LinkOf(s)), caller) else old(LinkOf(s))
      ensures forall s, w, v :: old(Shows(s, w, v)) ==>
                Shows(s, w, if s == session then Next(v, Acquire(caller), number, ids) else v)
    {
      hide FramesTo;
      hide Shown;
      hide ConnectionManager.Connections;
      var channel := Channel(session);
      forall s | s != session ensures Channel(s) != channel { ChannelsDiffer(s, session); }
      hide Channel;
      if channel in refs {
        refs := refs[channel := refs[channel] + 1];
        return;
      }
      refs := refs[channel := 1];
      handlers := handlers + {channel};
      pending := pending[channel := (if channel in pending then pending[channel] else []) + [Subscribe(caller)]];
    }

    method ReleaseChannel(session: string)
      requires Valid()
      modifies this`refs, this`handlers, this`pending
      ensures Valid()
      ensures forall s :: LinkOf(s) == if s == session then Released(old(LinkOf(s))) else old(LinkOf(s))
      ensures forall s, w, v :: old(Shows(s, w, v)) ==>
                Shows(s, w, if s == session then Next(v, Release, number, ids) else v)
    {
      hide FramesTo;
      hide Shown;
      hide ConnectionManager.Connections;
      var channel := Channel(session);
      forall s | s != session ensures Channel(s) != channel { ChannelsDiffer(s, session); }
      hide Channel;
      if channel !in refs { return; }
      if refs[channel] - 1 > 0 {
        refs := refs[channel := refs[channel] - 1];
        return;
      }
      refs := refs - {channel};
      handlers := handlers - {channel};
      pending := pending[channel := (if channel in pending then pending[channel] else []) + [Unsubscribe]];
    }

    /** The broker's answer to the oldest command of a channel. */
    method BrokerAnswers(session: string, ok: bool)
      requires Valid()
      modifies this`pending, this`confirmed
      ensures Valid()
      ensures forall s :: LinkOf(s) == if s == session then Answered(old(LinkOf(s)), ok) else old(LinkOf(s))
      ensures forall s, w, v :: old(Shows(s, w, v)) ==>
                Shows(s, w, if s == session then Next(v, Answer(ok), number, ids) else v)
    {
      hide FramesTo;
      hide Shown;
      hide ConnectionManager.Connections;
      var channel := Channel(session);
      forall s | s != session ensures Channel(s) != channel { ChannelsDiffer(s, session); }
      hide Channel;
      if channel !in pending || pending[channel] == [] { return; }
      var command := pending[channel][0];
      pending := pending[channel := pending[channel][1..]];
      if !ok { return; }
      confirmed := if command.Subscribe? then confirmed + {channel} else confirmed - {channel};
    }

    /** The broker gets a message for a channel, from any instance. */
    method BrokerQueues(session: string, m: Envelope)
      requires Valid()
      modifies this`queues
      ensures Valid()
      ensures forall s :: QueueOf(s) == old(QueueOf(s)) + if s == session && LinkOf(s).confirmed then [m] else []
    {
      var channel := Channel(session);
      forall s | s != session ensures Channel(s) != channel { ChannelsDiffer(s, session); }
      hide Channel;
      if channel in confirmed {
        queues := queues[channel := (if channel in queues then queues[channel] else []) + [m]];
      }
    }

    /** A live socket of this instance joins its session. */
    method SocketJoins(session: string, socket: nat)
      requires Valid() && connections.Valid() && socket in connections.live
      modifies connections`sessions
      ensures Valid() && connections.Valid()
      ensures forall s, w, v :: old(Shows(s, w, v)) ==>
                Shows(s, w, if s == session && w == socket then Next(v, Join, number, ids) else v)
    {
      hide FramesTo;
      hide Shown;
      hide ConnectionManager.Connections;
      connections.Add(session, socket);
    }

    /** And leaves it when it closes. */
    method SocketLeaves(session: string, socket: nat)
      requires Valid() && connections.Valid()
      modifies connections`sessions
      ensures Valid() && connections.Valid()
      ensures forall s, w, v :: old(Shows(s, w, v)) ==>
                Shows(s, w, if s == session && w == socket then Next(v, Leave, number, ids) else v)
    {
      hide FramesTo;
      hide Shown;
      hide ConnectionManager.Connections;
      connections.Remove(session, socket);
    }

    /** Another instance publishes. */
    method PeerPublishes(session: string, at: nat, event: Event)
      requires Valid() && at != number
      modifies this`queues
      ensures Valid()
      ensures forall s, w, v :: old(Shows(s, w, v)) ==>
                Shows(s, w, if s == session then Next(v, Publish(at, event), number, ids) else v)
    {
      hide FramesTo;
      hide Shown;
      hide ConnectionManager.Connections;
      BrokerQueues(session, Envelope(at, ids(at), event));
    }

    /** This instance broadcasts an event to its own sockets and publishes it. */
    method Announce(session: string, event: Event)
      requires Valid() && connections.Valid()
      modifies this`queues, connections`sessions, connections`sent
      ensures Valid() && connections.Valid()
      ensures forall s, w, v :: old(Shows(s, w, v)) ==>
                Shows(s, w, if s == session then Next(v, Publish(number, event), number, ids) else v)
    {
      hide FramesTo;
      hide ConnectionManager.Connections;
      hide ConnectionManager.Valid;
      var m := Envelope(number, ids(number), event);
      forall received: seq<Envelope> ensures Shown(received + [m]) == Shown(received) + [Chat(event)] {
        ShownMore(received, m);
      }
      hide Shown;
      connections.Broadcast(session, event);
      BrokerQueues(session, m);
    }

    /** The next message of a channel reaches the client; without a handler it is dropped. */
    method Receive(session: string)
      requires Valid() && connections.Valid()
      modifies this`queues, connections`sessions, connections`sent
      ensures Valid() && connections.Valid()
      ensures forall s, w, v :: old(Shows(s, w, v)) ==>
                Shows(s, w, if s == session then Next(v, Deliver, number, ids) else v)
    {
      hide FramesTo;
      hide ConnectionManager.Connections;
      hide ConnectionManager.Valid;
      var channel := Channel(session);
      forall s | s != session ensures Channel(s) != channel { ChannelsDiffer(s, session); }
      hide Channel;
      if channel !in queues || queues[channel] == [] { return; }
      var m := queues[channel][0];
      forall received: seq<Envelope> ensures Shown(received + [m]) == Shown(received) + [Chat(m.event)] {
        ShownMore(received, m);
      }
      hide Shown;
      queues := queues[channel := queues[channel][1..]];
      if channel in handlers { Forward(session, Some(m)); }
    }

    /** The handler of a channel; a message that does not parse is `None`. */
    method Forward(session: string, message: Option<Envelope>)
      requires connections.Valid()
      modifies connections`sessions, connections`sent
      ensures connections.Valid()
      ensures message.None? || message.value.origin == ids(number) ==>
                connections.sent == old(connections.sent) && connections.sessions == old(connections.sessions)
      ensures message.Some? && message.value.origin != ids(number) ==>
                && SentTo(old(connections.sent), connections.sent, session,
                          old(connections.Connections(session)) * connections.live, [Chat(message.value.event)])
                && forall s :: connections.Connections(s)
                     == old(connections.Connections(s))
                        - if s == session then old(connections.Connections(session)) - connections.live else {}
    {
      if message.None? || message.value.origin == ids(number) { return; }
      connections.Broadcast(session, message.value.event);
    }
  }

  // ---- What a socket receives ----------------------------------------------------------------------

  function After(v: Peer, steps: seq<Step>, me: nat, ids: nat -> string): Peer {
    if steps == [] then v else Next(After(v, steps[..|steps| - 1], me, ids), steps[|steps| - 1], me, ids)
  }

  /** The socket stays, and its own hold on the channel is never released. */
  ghost predicate Holding(v: Peer, steps: seq<Step>, me: nat, ids: nat -> string) {
    && v.attached
    && forall n :: 0 <= n <= |steps| ==>
         After(v, steps[..n], me, ids).link.handler && (n < |steps| ==> !steps[n].Leave?)
  }

  function From(messages: seq<Envelope>, p: nat): seq<Event> {
    if messages == [] then []
    else if messages[0].publisher == p then [messages[0].event] + From(messages[1..], p)
    else From(messages[1..], p)
  }

  /**
   The events of publisher `p` that are meant for the socket: all of its own instance's, and those of a
   peer with another id that were published while the broker had confirmed the subscription.
   */
  function Reaching(v: Peer, steps: seq<Step>, p: nat, me: nat, ids: nat -> string): seq<Event> {
    if steps == [] then []
    else
      var before, last := Reaching(v, steps[..|steps| - 1], p, me, ids), steps[|steps| - 1];
      if last.Publish? && last.at == p
         && (p == me || (ids(p) != ids(me) && After(v, steps[..|steps| - 1], me, ids).link.confirmed))
      then before + [last.event] else before
  }

  lemma {:induction false} FromAppend(messages: seq<Envelope>, m: Envelope, p: nat)
    ensures From(messages + [m], p) == if m.publisher == p then From(messages, p) + [m.event] else From(messages, p)
  {
    if messages == [] {
      assert messages + [m] == [m];
    } else {
      assert (messages + [m])[1..] == messages[1..] + [m];
      FromAppend(messages[1..], m, p);
    }
  }

  ghost predicate Honest(messages: seq<Envelope>, ids: nat -> string) {
    forall i :: 0 <= i < |messages| ==> messages[i].origin == ids(messages[i].publisher)
  }

  /** What the socket got from `p`, and what is on its way to it. */
  function Due(v: Peer, p: nat, me: nat, ids: nat -> string): seq<Event> {
    From(v.received, p) + if p != me && ids(p) != ids(me) then From(v.queue, p) else []
  }

  lemma {:induction false} StepDue(v: Peer, step: Step, p: nat, me: nat, ids: nat -> string)
    requires Honest(v.queue, ids) && v.attached && v.link.handler && !step.Leave?
    ensures var v' := Next(v, step, me, ids);
            && Honest(v'.queue, ids) && v'.attached
            && Due(v', p, me, ids)
               == if step.Publish? && step.at == p && (p == me || (ids(p) != ids(me) && v.link.confirmed))
                  then Due(v, p, me, ids) + [step.event] else Due(v, p, me, ids)
  {
    match step
    case Publish(at, e) => PublishDue(v, at, e, p, me, ids);
    case Deliver => DeliverDue(v, p, me, ids);
    case _ =>
  }

  lemma {:induction false} PublishDue(v: Peer, at: nat, e: Event, p: nat, me: nat, ids: nat -> string)
    requires Honest(v.queue, ids) && v.attached
    ensures var v' := Next(v, Publish(at, e), me, ids);
            && Honest(v'.queue, ids) && v'.attached
            && Due(v', p, me, ids)
               == if at == p && (p == me || (ids(p) != ids(me) && v.link.confirmed))
                  then Due(v, p, me, ids) + [e] else Due(v, p, me, ids)
  {
    var m := Envelope(at, ids(at), e);
    FromAppend(v.received, m, p);
    FromAppend(v.queue, m, p);
    hide From;
  }

  lemma {:induction false} DeliverDue(v: Peer, p: nat, me: nat, ids: nat -> string)
    requires Honest(v.queue, ids) && v.attached && v.link.handler
    ensures var v' := Next(v, Deliver, me, ids);
            Honest(v'.queue, ids) && v'.attached && Due(v', p, me, ids) == Due(v, p, me, ids)
  {
    if v.queue != [] {
      var m := v.queue[0];
      FromAppend(v.received, m, p);
      assert From(v.queue, p) == if m.publisher == p then [m.event] + From(v.queue[1..], p) else From(v.queue[1..], p);
      hide From;
    }
  }

  /**
   A socket that holds its channel gets, of every publisher, exactly the events meant for it, each once
   and in order: its own instance's at once, those of a peer with another id through the broker if they
   were published while the subscription was confirmed. Of a peer with the same id it gets nothing.
   */
  lemma {:induction false} EachEventOnce(v: Peer, steps: seq<Step>, p: nat, me: nat, ids: nat -> string)
    requires Holding(v, steps, me, ids) && Honest(v.queue, ids)
    ensures var v' := After(v, steps, me, ids);
            && Honest(v'.queue, ids) && v'.attached
            && Due(v', p, me, ids) == Due(v, p, me, ids) + Reaching(v, steps, p, me, ids)
            && (p == me || v'.queue == [] ==> Due(v', p, me, ids) == From(v'.received, p))
  {
    hide Due;
    if steps != [] {
      var before := steps[..|steps| - 1];
      HoldingBefore(v, steps, me, ids);
      hide Holding;
      EachEventOnce(v, before, p, me, ids);
      StepDue(After(v, before, me, ids), steps[|steps| - 1], p, me, ids);
      hide Next;
      assert After(v, steps, me, ids) == Next(After(v, before, me, ids), steps[|steps| - 1], me, ids);
    }
    DueIsReceived(After(v, steps, me, ids), p, me, ids);
  }

  lemma {:induction false} DueIsReceived(v: Peer, p: nat, me: nat, ids: nat -> string)
    ensures p == me || v.queue == [] ==> Due(v, p, me, ids) == From(v.received, p)
  {
  }

  lemma {:induction false} HoldingBefore(v: Peer, steps: seq<Step>, me: nat, ids: nat -> string)
    requires steps != [] && Holding(v, steps, me, ids)
    ensures var before := steps[..|steps| - 1];
            Holding(v, before, me, ids) && After(v, before, me, ids).link.handler && !steps[|steps| - 1].Leave?
  {
    hide After;
    var before := steps[..|steps| - 1];
    forall n | 0 <= n <= |before|
      ensures After(v, before[..n], me, ids).link.handler && (n < |before| ==> !before[n].Leave?)
    {
      assert before[..n] == steps[..n];
    }
  }

  // ---- Who holds a channel, and whether it is subscribed ---------------------------------------------

  /**
   A connection acquires and, when it is the first, waits for the broker; only then does it listen for
   its close. A socket that closed before that, while its token was checked or its acquire was waiting,
   is `ClosedUnheard`. A rejected acquire closes the connection without releasing anything.
   */
  datatype Phase = Opening | Open | Closed | ClosedUnheard | Rejected

  /** `Connect` comes after the check of the token; `gone` tells that the socket is closed by then. */
  datatype Life = Connect(socket: nat, gone: bool) | BrokerAnswer(ok: bool) | Close(socket: nat)

  datatype Channels = Channels(link: Link, phases: map<nat, Phase>)

  /** The first holder whose subscribe is not answered yet. */
  predicate Waits(c: Channels, w: nat) {
    w in c.phases && (c.phases[w].Opening? || c.phases[w].ClosedUnheard?)
  }

  function Live(c: Channels, step: Life): Channels {
    match step
    case Connect(w, gone) =>
      if w in c.phases then c
      else
        Channels(Acquired(c.link, w),
                 c.phases[w := if gone then ClosedUnheard else if c.link.count > 0 then Open else Opening])
    case BrokerAnswer(ok) =>
      var link := Answered(c.link, ok);
      if c.link.pending == [] || c.link.pending[0].Unsubscribe? then c.(link := link)
      else
        var w := c.link.pending[0].caller;
        if !Waits(c, w) then c.(link := link)
        else Channels(link, c.phases[w := if !ok then Rejected else if c.phases[w].Opening? then Open else ClosedUnheard])
    case Close(w) =>
      if w !in c.phases then c
      else match c.phases[w]
        case Opening => c.(phases := c.phases[w := ClosedUnheard])
        case Open => Channels(Released(c.link), c.phases[w := Closed])
        case _ => c
  }

  function Lived(steps: seq<Life>): Channels {
    if steps == [] then Channels(UNLINKED, map[]) else Live(Lived(steps[..|steps| - 1]), steps[|steps| - 1])
  }

  /** The broker rejected an unsubscribe and has accepted no command since. */
  predicate Lingers(steps: seq<Life>) {
    if steps == [] then false
    else
      var before, last := steps[..|steps| - 1], steps[|steps| - 1];
      var pending := Lived(before).link.pending;
      if last.BrokerAnswer? && pending != [] then !last.ok && (pending[0].Unsubscribe? || Lingers(before))
      else Lingers(before)
  }

  const HOLDING := {Opening, Open, ClosedUnheard, Rejected}

  function In(c: Channels, phases: set<Phase>): set<nat> {
    set w | w in c.phases && c.phases[w] in phases
  }

  predicate Stuck(c: Channels) {
    exists w :: w in c.phases && c.phases[w].Rejected?
  }

  /**
   At most an unsubscribe and, behind it, the subscribe of a first holder are on their way. Once they are
   answered the channel is subscribed exactly when somebody holds it and nobody was rejected, or when the
   broker still has it from an unsubscribe that it rejected.
   */
  ghost predicate Sound(c: Channels, lingers: bool) {
    var pending := c.link.pending;
    && (c.link.handler <==> c.link.count > 0)
    && |pending| <= 2 && (|pending| == 2 ==> pending[0].Unsubscribe? && pending[1].Subscribe?)
    && (if pending == [] then c.link.confirmed <==> (c.link.count > 0 && !Stuck(c)) || lingers
        else
          var last := pending[|pending| - 1];
          && (c.link.confirmed <==> pending[0].Unsubscribe? || lingers) && !Stuck(c)
          && (c.link.count > 0 <==> last.Subscribe?)
          && (last.Subscribe? ==> Waits(c, last.caller)))
    && (forall w :: w in c.phases && c.phases[w].Opening? ==> pending != [] && pending[|pending| - 1] == Subscribe(w))
  }

  lemma {:induction false} LiveCounts(c: Channels, step: Life)
    requires c.link.count == |In(c, HOLDING)|
    ensures Live(c, step).link.count == |In(Live(c, step), HOLDING)|
  {
    match step
    case Connect(w, gone) => ConnectCounts(c, w, gone);
    case BrokerAnswer(ok) => AnswerCounts(c, ok);
    case Close(w) => CloseCounts(c, w);
  }

  lemma {:induction false} ConnectCounts(c: Channels, w: nat, gone: bool)
    requires c.link.count == |In(c, HOLDING)|
    ensures Live(c, Connect(w, gone)).link.count == |In(Live(c, Connect(w, gone)), HOLDING)|
  {
    if w !in c.phases { assert In(Live(c, Connect(w, gone)), HOLDING) == In(c, HOLDING) + {w}; }
  }

  lemma {:induction false} CloseCounts(c: Channels, w: nat)
    requires c.link.count == |In(c, HOLDING)|
    ensures Live(c, Close(w)).link.count == |In(Live(c, Close(w)), HOLDING)|
  {
    var c' := Live(c, Close(w));
    if w in c.phases && c.phases[w].Open? {
      assert In(c', HOLDING) == In(c, HOLDING) - {w};
    } else {
      assert In(c', HOLDING) == In(c, HOLDING);
    }
  }

  lemma {:induction false} AnswerCounts(c: Channels, ok: bool)
    requires c.link.count == |In(c, HOLDING)|
    ensures Live(c, BrokerAnswer(ok)).link.count == |In(Live(c, BrokerAnswer(ok)), HOLDING)|
  {
    var c' := Live(c, BrokerAnswer(ok));
    assert In(c', HOLDING) == In(c, HOLDING);
  }

  /** Giving a socket a phase other than `Rejected` that was not rejected before. */
  lemma {:induction false} StuckStays(c: Channels, w: nat, p: Phase, link: Link)
    requires !p.Rejected? && (w in c.phases ==> !c.phases[w].Rejected?)
    ensures Stuck(Channels(link, c.phases[w := p])) <==> Stuck(c)
  {
    var c' := Channels(link, c.phases[w := p]);
    if Stuck(c) {
      var x :| x in c.phases && c.phases[x].Rejected?;
      assert c'.phases[x].Rejected?;
    }
    if Stuck(c') {
      var x :| x in c'.phases && c'.phases[x].Rejected?;
      assert x in c.phases && c.phases[x].Rejected?;
    }
  }

  lemma {:induction false} ConnectIsSound(c: Channels, w: nat, gone: bool, lingers: bool)
    requires Sound(c, lingers) && c.link.count == |In(c, HOLDING)|
    ensures Sound(Live(c, Connect(w, gone)), lingers)
  {
    if w !in c.phases {
      var c' := Live(c, Connect(w, gone));
      StuckStays(c, w, c'.phases[w], c'.link);
      StuckHolds(c);
      hide Stuck;
    }
  }

  lemma {:induction false} StuckHolds(c: Channels)
    requires c.link.count == |In(c, HOLDING)|
    ensures Stuck(c) ==> c.link.count > 0
  {
    if Stuck(c) {
      var x :| x in c.phases && c.phases[x].Rejected?;
      assert x in In(c, HOLDING);
    }
  }

  lemma {:induction false} AnswerIsSound(c: Channels, ok: bool, lingers: bool)
    requires Sound(c, lingers)
    ensures Sound(Live(c, BrokerAnswer(ok)),
                  if c.link.pending == [] then lingers else !ok && (c.link.pending[0].Unsubscribe? || lingers))
  {
    var c' := Live(c, BrokerAnswer(ok));
    if c.link.pending != [] && c.link.pending[0].Subscribe? {
      var w := c.link.pending[0].caller;
      if ok {
        StuckStays(c, w, c'.phases[w], c'.link);
      } else {
        assert c'.phases[w].Rejected?;
      }
    }
  }

  lemma {:induction false} CloseIsSound(c: Channels, w: nat, lingers: bool)
    requires Sound(c, lingers) && c.link.count == |In(c, HOLDING)|
    ensures Sound(Live(c, Close(w)), lingers)
  {
    var c' := Live(c, Close(w));
    if w in c.phases && (c.phases[w].Open? || c.phases[w].Opening?) {
      StuckStays(c, w, c'.phases[w], c'.link);
      if c.phases[w].Open? && c.link.count == 1 {
        assert w in In(c, HOLDING);
        OnlyMember(In(c, HOLDING), w);
        LastHolder(c, w);
      }
      hide Stuck;
    }
  }

  /** The only holder is neither rejected nor waiting, so its subscription is confirmed. */
  lemma {:induction false} LastHolder(c: Channels, w: nat)
    requires In(c, HOLDING) == {w} && w in c.phases && c.phases[w].Open?
    ensures !Stuck(c) && forall x :: !Waits(c, x)
  {
    forall x ensures !(x in c.phases && c.phases[x].Rejected?) && !Waits(c, x) {
      assert x in In(c, HOLDING) ==> x == w;
    }
  }

  lemma {:induction false} AlwaysSound(steps: seq<Life>)
    ensures Sound(Lived(steps), Lingers(steps)) && Lived(steps).link.count == |In(Lived(steps), HOLDING)|
  {
    if steps == [] {
      assert In(Channels(UNLINKED, map[]), HOLDING) == {};
    } else {
      var before, last := steps[..|steps| - 1], steps[|steps| - 1];
      var c := Lived(before);
      AlwaysSound(before);
      LiveCounts(c, last);
      match last
      case Connect(w, gone) => ConnectIsSound(c, w, gone, Lingers(before));
      case BrokerAnswer(ok) => AnswerIsSound(c, ok, Lingers(before));
      case Close(w) => CloseIsSound(c, w, Lingers(before));
    }
  }

  /** The count is the number of sockets that acquired and did not release. */
  lemma {:induction false} CountIsHolders(steps: seq<Life>)
    ensures Lived(steps).link.count == |In(Lived(steps), HOLDING)|
  {
    AlwaysSound(steps);
  }

  /**
   A channel with nothing on its way is subscribed if and only if somebody holds it and no acquire was
   ever rejected, or the last unsubscribe was rejected and nothing was accepted since. A positive count
   alone does not say so, and a count of zero does not say that it is unsubscribed.
   */
  lemma {:induction false} SubscribedExactly(steps: seq<Life>)
    requires Lived(steps).link.pending == []
    ensures var c := Lived(steps); c.link.confirmed <==> (c.link.count > 0 && !Stuck(c)) || Lingers(steps)
  {
    AlwaysSound(steps);
  }

  /**
   After a rejected acquire the channel stays held and its subscription never changes again: there is
   none, unless the broker still had one from an unsubscribe that it rejected.
   */
  lemma {:induction false} RejectedForever(steps: seq<Life>, more: seq<Life>)
    requires Stuck(Lived(steps))
    ensures var c := Lived(steps + more);
            && Stuck(c) && c.link.count > 0 && c.link.pending == []
            && (c.link.confirmed <==> Lingers(steps)) && (Lingers(steps + more) <==> Lingers(steps))
  {
    hide Live;
    hide Stuck;
    hide In;
    AlwaysSound(steps + more);
    StuckHolds(Lived(steps + more));
    if more == [] {
      assert steps + more == steps;
    } else {
      var n := |more| - 1;
      RejectedForever(steps, more[..n]);
      assert (steps + more)[..|steps + more| - 1] == steps + more[..n];
      StuckStep(Lived(steps + more[..n]), more[n]);
    }
  }

  lemma {:induction false} StuckStep(c: Channels, step: Life)
    requires Stuck(c)
    ensures Stuck(Live(c, step))
  {
    var x :| x in c.phases && c.phases[x].Rejected?;
    assert Live(c, step).phases[x].Rejected?;
  }

  /**
   Once no socket of a session is open, its count is back at zero if and only if every socket closed
   after its listener was installed and none was rejected.
   */
  lemma {:induction false} ChannelFreedExactly(steps: seq<Life>)
    requires var c := Lived(steps); forall w :: w in c.phases ==> !c.phases[w].Opening? && !c.phases[w].Open?
    ensures var c := Lived(steps);
            c.link.count == 0 <==> forall w :: w in c.phases ==> c.phases[w].Closed?
  {
    var c := Lived(steps);
    CountIsHolders(steps);
    if forall w :: w in c.phases ==> c.phases[w].Closed? {
      assert forall w :: w !in In(c, HOLDING);
      assert In(c, HOLDING) == {};
    } else {
      var w :| w in c.phases && !c.phases[w].Closed?;
      assert w in In(c, HOLDING);
    }
  }

  // ---- Runs in which a channel is not what its count says --------------------------------------------

  const IDLE := Channels(UNLINKED, map[])

  lemma {:induction false} LivedSnoc(steps: seq<Life>, step: Life)
    ensures Lived(steps + [step]) == Live(Lived(steps), step)
  {
    assert (steps + [step])[..|steps|] == steps;
  }

  lemma {:induction false} LivedTwo(a: Life, b: Life)
    ensures Lived([a, b]) == Live(Live(IDLE, a), b)
  {
    hide Live;
    LivedSnoc([], a);
    LivedSnoc([a], b);
    assert [] + [a] == [a] && [a] + [b] == [a, b];
  }

  lemma {:induction false} LivedFour(a: Life, b: Life, c: Life, d: Life)
    ensures Lived([a, b, c]) == Live(Live(Live(IDLE, a), b), c)
    ensures Lived([a, b, c, d]) == Live(Lived([a, b, c]), d)
  {
    hide Live;
    LivedTwo(a, b);
    LivedSnoc([a, b], c);
    LivedSnoc([a, b, c], d);
    assert [a, b] + [c] == [a, b, c] && [a, b, c] + [d] == [a, b, c, d];
  }

  /** The broker rejects the first acquire, and a later socket joins without a subscription. */
  lemma {:induction false} RejectedAcquireIsNotRetried()
    ensures var c := Lived([Connect(0, false), BrokerAnswer(false), Connect(1, false)]);
            c.link == Link(2, true, [], false) && c.phases[1].Open?
  {
    LivedFour(Connect(0, false), BrokerAnswer(false), Connect(1, false), Close(1));
    hide Lived;
    var one := Live(IDLE, Connect(0, false));
    assert one == Channels(Link(1, true, [Subscribe(0)], false), map[0 := Opening]);
    var two := Live(one, BrokerAnswer(false));
    assert two == Channels(Link(1, true, [], false), map[0 := Rejected]);
  }

  /** The only socket closes before the broker answers, and the channel stays held and subscribed. */
  lemma {:induction false} UnheardCloseKeepsTheChannel()
    ensures var c := Lived([Connect(0, false), Close(0), BrokerAnswer(true)]);
            c.link == Link(1, true, [], true) && In(c, {Opening, Open}) == {}
  {
    LivedFour(Connect(0, false), Close(0), BrokerAnswer(true), Close(0));
    hide Lived;
    var one := Live(IDLE, Connect(0, false));
    assert one == Channels(Link(1, true, [Subscribe(0)], false), map[0 := Opening]);
    var two := Live(one, Close(0));
    assert two == Channels(Link(1, true, [Subscribe(0)], false), map[0 := ClosedUnheard]);
    assert Live(two, BrokerAnswer(true)) == Channels(Link(1, true, [], true), map[0 := ClosedUnheard]);
  }

  /** The only socket closes while its token is checked, and the channel stays held and subscribed. */
  lemma {:induction false} GoneSocketKeepsTheChannel()
    ensures var c := Lived([Connect(0, true), BrokerAnswer(true)]);
            c.link == Link(1, true, [], true) && In(c, {Opening, Open}) == {}
  {
    LivedTwo(Connect(0, true), BrokerAnswer(true));
    hide Lived;
    var one := Live(IDLE, Connect(0, true));
    assert one == Channels(Link(1, true, [Subscribe(0)], false), map[0 := ClosedUnheard]);
    assert Live(one, BrokerAnswer(true)) == Channels(Link(1, true, [], true), map[0 := ClosedUnheard]);
  }

  /** The only socket closes, the broker rejects the unsubscribe, and nobody holds what stays subscribed. */
  lemma {:induction false} RejectedReleaseStaysSubscribed()
    ensures var steps := [Connect(0, false), BrokerAnswer(true), Close(0), BrokerAnswer(false)];
            Lived(steps).link == Link(0, false, [], true) && Lingers(steps)
  {
    var three := [Connect(0, false), BrokerAnswer(true), Close(0)];
    LivedFour(Connect(0, false), BrokerAnswer(true), Close(0), BrokerAnswer(false));
    assert (three + [BrokerAnswer(false)])[..3] == three;
    hide Lived;
    var one := Live(IDLE, Connect(0, false));
    assert one == Channels(Link(1, true, [Subscribe(0)], false), map[0 := Opening]);
    var two := Live(one, BrokerAnswer(true));
    assert two == Channels(Link(1, true, [], true), map[0 := Open]);
    assert Live(two, Close(0)) == Channels(Link(0, false, [Unsubscribe], true), map[0 := Closed]);
    assert three + [BrokerAnswer(false)] == [Connect(0, false), BrokerAnswer(true), Close(0), BrokerAnswer(false)];
  }
}
