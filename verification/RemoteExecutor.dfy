/**
 The remote tool executor (packages/runtime/src/tool-executor-remote.ts) talking to one tool runner
 (packages/sdk/src/tool-runner.ts) over a channel that loses, delays and cuts off messages.

 `Runner` is the other side: its idempotency cache, what its handlers produced, and the requests of
 one call. `SendWithRetries` is the code. Everything the executor cannot control is arbitrary.
 */
module RemoteExecutor {
  import opened Common
  import opened Idempotency

  type byte = bv8

  datatype Outcome = Succeeded(output: string) | Failed(status: int, message: string)

  /** What a response text parses as under the runner protocol's two strict schemas. */
  datatype Body = Malformed | SuccessBody(output: string) | ErrorBody(message: string) | OtherBody

  datatype Reply = Reply(status: int, text: seq<byte>)

  type CallResult = Result<string, Reason>

  datatype Reason =
    | Aborted
    | TooLarge
    | InvalidResponse
    | Reported(message: string)
    | HttpStatus(status: int)
    | MalformedHttp(status: int)
    | TimedOut
    | Connection(message: string)
    | Unreachable(attempts: int, last: Option<Reason>)

  datatype Verdict = Done(result: CallResult) | Retry(reason: Reason)

  function Interpret(status: int, body: Body): Verdict {
    if body.Malformed? then
      if status >= 500 then Retry(MalformedHttp(status)) else Done(Err(InvalidResponse))
    else if 200 <= status < 300 then
      match body
      case SuccessBody(output) => Done(Ok(output))
      case ErrorBody(message) => Done(Err(Reported(message)))
      case _ => Done(Err(InvalidResponse))
    else
      var reason := if body.ErrorBody? then Reported(body.message) else HttpStatus(status);
      if 400 <= status < 500 then Done(Err(reason)) else Retry(reason)
  }

  function Concat(chunks: seq<seq<byte>>): seq<byte> {
    if chunks == [] then [] else Concat(chunks[..|chunks| - 1]) + chunks[|chunks| - 1]
  }

  lemma {:induction false} ConcatPrefixShorter(chunks: seq<seq<byte>>, i: nat)
    requires i <= |chunks|
    ensures |Concat(chunks[..i])| <= |Concat(chunks)|
  {
    if i == |chunks| {
      assert chunks[..i] == chunks;
    } else {
      ConcatPrefixShorter(chunks[..|chunks| - 1], i);
      assert chunks[..|chunks| - 1][..i] == chunks[..i];
    }
  }

  /** Reads a response stream chunk by chunk, giving up as soon as it is longer than `maxBytes`. */
  method ReadBoundedText(stream: Option<seq<seq<byte>>>, maxBytes: nat) returns (text: Option<seq<byte>>)
    ensures text == match stream
                    case None => Some([])
                    case Some(chunks) => if |Concat(chunks)| > maxBytes then None else Some(Concat(chunks))
  {
    if stream.None? { return Some([]); }
    var chunks, total, read := stream.value, 0, [];
    var i := 0;
    while i < |chunks|
      invariant i <= |chunks| && read == chunks[..i]
      invariant total == |Concat(read)| <= maxBytes
    {
      total := total + |chunks[i]|;
      assert chunks[..i + 1][..i] == chunks[..i];
      ConcatPrefixShorter(chunks, i + 1);
      if total > maxBytes { return None; }
      read := read + [chunks[i]];
      i := i + 1;
    }
    assert read == chunks;
    text := Some(Concat(read));
  }

  // ---- The runner ----------------------------------------------------------------------------------

  type ClientError = status: int | 400 <= status < 500 witness 400

  /** A request of the call: still travelling, turned away before the lookup, or awaiting an execution. */
  datatype Request = Travelling | Refused(status: ClientError) | Awaiting(exec: nat)

  /** Serialisation on one side and parsing on the other agree. */
  ghost predicate Faithful(render: Outcome -> Reply, parse: seq<byte> -> Body) {
    forall o: Outcome :: match o
      case Succeeded(output) => render(o).status == 200 && parse(render(o).text) == SuccessBody(output)
      case Failed(status, message) => render(o).status == status && parse(render(o).text) == ErrorBody(message)
  }

  /** `n` ones and a zero. */
  function Unary(n: nat): seq<byte> {
    if n == 0 then [0] else [1] + Unary(n - 1)
  }

  function TextBytes(s: string): seq<byte> {
    if s == "" then [] else Unary(s[0] as nat) + TextBytes(s[1..])
  }

  /** The text of `b`, of whose first character `n` ones were read. */
  function BytesText(b: seq<byte>, n: nat): string {
    if b == [] then ""
    else if b[0] == 1 then BytesText(b[1..], n + 1)
    else [if n < 0xD800 || 0xE000 <= n < 0x11_0000 then n as char else '?'] + BytesText(b[1..], 0)
  }

  lemma {:induction false} CharComesBack(k: nat, n: nat, rest: seq<byte>)
    ensures BytesText(Unary(k) + rest, n) == BytesText([0] + rest, n + k)
  {
    var b := Unary(k) + rest;
    if k > 0 {
      assert b[0] == 1 && b[1..] == Unary(k - 1) + rest;
      CharComesBack(k - 1, n + 1, rest);
    }
  }

  lemma {:induction false} TextComesBack(s: string)
    ensures BytesText(TextBytes(s), 0) == s
  {
    if s != "" {
      TextComesBack(s[1..]);
      CharComesBack(s[0] as nat, 0, TextBytes(s[1..]));
      assert ([0] + TextBytes(s[1..]))[1..] == TextBytes(s[1..]);
    }
  }

  /** There are serialisations and parsers that agree. */
  lemma {:induction false} SomeAreFaithful() returns (render: Outcome -> Reply, parse: seq<byte> -> Body)
    ensures Faithful(render, parse)
  {
    render := (o: Outcome) =>
      match o
      case Succeeded(output) => Reply(200, [1] + TextBytes(output))
      case Failed(status, message) => Reply(status, [2] + TextBytes(message));
    parse := (b: seq<byte>) =>
      if b == [] then Malformed else if b[0] == 1 then SuccessBody(BytesText(b[1..], 0)) else ErrorBody(BytesText(b[1..], 0));
    forall o: Outcome
      ensures match o
        case Succeeded(output) => render(o).status == 200 && parse(render(o).text) == SuccessBody(output)
        case Failed(status, message) => render(o).status == status && parse(render(o).text) == ErrorBody(message)
    {
      match o
      case Succeeded(output) =>
        TextComesBack(output);
        assert render(o).text[1..] == TextBytes(output);
      case Failed(_, message) =>
        TextComesBack(message);
        assert render(o).text[1..] == TextBytes(message);
    }
  }

  function Executions(execs: seq<Exec>, key: string): nat {
    if execs == [] then 0
    else Executions(execs[..|execs| - 1], key) + if execs[|execs| - 1].key == key then 1 else 0
  }

  function Arrived(requests: seq<Request>): nat {
    if requests == [] then 0
    else Arrived(requests[..|requests| - 1]) + if requests[|requests| - 1].Awaiting? then 1 else 0
  }

  lemma {:induction false} ArrivedBound(requests: seq<Request>)
    ensures Arrived(requests) <= |requests|
  {
    if requests != [] { ArrivedBound(requests[..|requests| - 1]); }
  }

  lemma {:induction false} ArrivedUpdate(requests: seq<Request>, i: nat, r: Request)
    requires i < |requests| && requests[i].Travelling?
    ensures Arrived(requests[i := r]) == Arrived(requests) + if r.Awaiting? then 1 else 0
  {
    var n := |requests| - 1;
    if i == n {
      assert requests[i := r][..n] == requests[..n];
    } else {
      assert requests[i := r][..n] == requests[..n][i := r];
      ArrivedUpdate(requests[..n], i, r);
    }
  }

  /** Settling changes nobody's key. */
  lemma {:induction false} ExecutionsByKey(a: seq<Exec>, b: seq<Exec>, key: string)
    requires |a| == |b| && forall i :: 0 <= i < |a| ==> a[i].key == b[i].key
    ensures Executions(a, key) == Executions(b, key)
  {
    if a != [] { ExecutionsByKey(a[..|a| - 1], b[..|b| - 1], key); }
  }

  lemma {:induction false} ExecutionsAppend(execs: seq<Exec>, e: Exec, key: string)
    ensures Executions(execs + [e], key) == Executions(execs, key) + if e.key == key then 1 else 0
  {
    assert (execs + [e])[..|execs|] == execs;
  }

  lemma {:induction false} ExecutedHasLatest(execs: seq<Exec>, key: string) returns (x: nat)
    requires Executions(execs, key) > 0
    ensures LatestExec(execs, key, x)
  {
    var n := |execs| - 1;
    if execs[n].key == key {
      x := n;
    } else {
      x := ExecutedHasLatest(execs[..n], key);
      assert forall y :: x < y < n ==> execs[..n][y].key != key;
    }
  }

  lemma {:induction false} ExecutedIsCounted(execs: seq<Exec>, key: string, x: nat)
    requires x < |execs| && execs[x].key == key
    ensures Executions(execs, key) > 0
    ensures forall y :: 0 <= y < |execs| && y != x && execs[y].key == key ==> Executions(execs, key) > 1
  {
    var n := |execs| - 1;
    if x < n {
      ExecutedIsCounted(execs[..n], key, x);
    } else {
      forall y | 0 <= y < n && execs[y].key == key ensures Executions(execs[..n], key) > 0 {
        ExecutedIsCounted(execs[..n], key, y);
      }
    }
  }

  // ---- At most once --------------------------------------------------------------------------------

  /** The latest execution of `key`, if any, is neither too old nor outrun by `maxEntries` other keys. */
  ghost predicate KeptAt(s: State, key: string, now: int, c: Config) {
    forall x: nat :: LatestExec(s.execs, key, x) ==>
      !Expired(s.execs[x], now, c.ttlMs) && |OthersSince(s.history, key)| < c.maxEntries
  }

  /** Whenever a request of `key` arrived, the outcome of the previous one was still kept. */
  ghost predicate Kept(steps: seq<Step>, c: Config, key: string) {
    steps != [] ==>
      var before, last := steps[..|steps| - 1], steps[|steps| - 1];
      Kept(before, c, key) && (last.Look? && last.key == key ==> KeptAt(After(before, c), key, last.now, c))
  }

  lemma {:induction false} LookCounts(s: State, k: string, now: int, c: Config, key: string)
    ensures var s' := Do(s, Look(k, now), c);
            Executions(s'.execs, key)
            == Executions(s.execs, key) + if k == key && !Hit(s, k, now, c.ttlMs) then 1 else 0
  {
    ExecutionsAppend(s.execs, Exec(k, None, false), key);
  }

  lemma {:induction false} OneMoreArrival(steps: seq<Step>, c: Config, key: string, now: int)
    requires NeverRejects(steps)
    ensures var s := After(steps, c);
            var n := Executions(s.execs, key);
            Executions(Do(s, Look(key, now), c).execs, key) <= 1 <==> n <= 1 && KeptAt(s, key, now, c)
  {
    var s := After(steps, c);
    LookCounts(s, key, now, c, key);
    hide Do;
    hide After;
    if Executions(s.execs, key) > 0 {
      var x := ExecutedHasLatest(s.execs, key);
      SharesExactlyWhileRecent(steps, c, key, now, x);
      hide Executions;
      hide OthersSince;
      hide Hit;
      assert forall y: nat :: LatestExec(s.execs, key, y) ==> y == x;
    } else {
      NeverRunMisses(steps, c, key, now);
    }
  }

  /**
   However often a call is sent, its handler runs at most once if and only if its outcome was still
   kept at every arrival of one of its requests.
   */
  lemma {:induction false} AtMostOnceExactly(steps: seq<Step>, c: Config, key: string)
    requires NeverRejects(steps)
    ensures Executions(After(steps, c).execs, key) <= 1 <==> Kept(steps, c, key)
  {
    hide Looked;
    hide KeptAt;
    hide SettledExec;
    if steps != [] {
      var before, last := steps[..|steps| - 1], steps[|steps| - 1];
      var s := After(before, c);
      assert last.Reject? == false;
      AtMostOnceExactly(before, c, key);
      if last.Look? {
        LookCounts(s, last.key, last.now, c, key);
        OneMoreArrival(before, c, key, last.now);
      } else {
        SettleCounts(s, last, c, key);
      }
    }
  }

  lemma {:induction false} SettleCounts(s: State, step: Step, c: Config, key: string)
    requires step.Settle?
    ensures Executions(Do(s, step, c).execs, key) == Executions(s.execs, key)
  {
    ExecutionsByKey(s.execs, Do(s, step, c).execs, key);
  }

  lemma {:induction false} NeverRunMisses(steps: seq<Step>, c: Config, key: string, now: int)
    requires Executions(After(steps, c).execs, key) == 0
    ensures !Hit(After(steps, c), key, now, c.ttlMs) && KeptAt(After(steps, c), key, now, c)
  {
    var s := After(steps, c);
    AlwaysInv(steps, c);
    hide After;
    hide LastTouch;
    hide OthersSince;
    forall x: nat ensures !LatestExec(s.execs, key, x) {
      if x < |s.execs| && s.execs[x].key == key {
        ExecutedIsCounted(s.execs, key, x);
      }
    }
  }

  lemma {:induction false} AfterMore(steps: seq<Step>, step: Step, c: Config, key: string)
    ensures After(steps + [step], c) == Do(After(steps, c), step, c)
    ensures NeverRejects(steps) && !step.Reject? ==> NeverRejects(steps + [step])
  {
    assert (steps + [step])[..|steps|] == steps;
  }

  /** What the runner's side knows about the call fits the executions that were started. */
  ghost predicate Agree(execs: seq<Exec>, outcomes: map<nat, Outcome>, requests: seq<Request>, key: string) {
    && (forall x :: 0 <= x < |execs| ==> !execs[x].rejected && (execs[x].settledAt.Some? <==> x in outcomes))
    && (forall x :: x in outcomes ==> x < |execs|)
    && (forall i :: 0 <= i < |requests| && requests[i].Awaiting? ==>
          requests[i].exec < |execs| && execs[requests[i].exec].key == key)
    && Executions(execs, key) <= Arrived(requests)
  }

  lemma {:induction false} SharedIsOfKey(s: State, key: string, now: int, c: Config)
    requires Inv(s, c.maxEntries)
    ensures var s' := Do(s, Look(key, now), c);
            && s.execs <= s'.execs
            && Shared(s, key, now, c.ttlMs) < |s'.execs| && s'.execs[Shared(s, key, now, c.ttlMs)].key == key
            && forall x :: |s.execs| <= x < |s'.execs| ==> s'.execs[x] == Exec(key, None, false)
  {
    hide LastTouch;
  }

  lemma {:induction false} GrowthAgrees(execs: seq<Exec>, execs': seq<Exec>, outcomes: map<nat, Outcome>,
                                        requests: seq<Request>, requests': seq<Request>, key: string)
    requires Agree(execs, outcomes, requests, key) && execs <= execs' && |requests| == |requests'|
    requires forall x :: |execs| <= x < |execs'| ==> !Ended(execs'[x])
    requires forall i :: 0 <= i < |requests'| && requests'[i].Awaiting? && requests'[i] != requests[i] ==>
               requests'[i].exec < |execs'| && execs'[requests'[i].exec].key == key
    requires Executions(execs', key) <= Arrived(requests')
    ensures Agree(execs', outcomes, requests', key)
  {
    hide Executions;
    hide Arrived;
  }

  lemma {:induction false} LookKeepsAgreement(s: State, k: string, now: int, c: Config, outcomes: map<nat, Outcome>,
                                              requests: seq<Request>, i: nat, key: string)
    requires Inv(s, c.maxEntries) && Agree(s.execs, outcomes, requests, key)
    requires k == key ==> i < |requests| && requests[i].Travelling?
    ensures var requests' := if k == key then requests[i := Awaiting(Shared(s, k, now, c.ttlMs))] else requests;
            Agree(Do(s, Look(k, now), c).execs, outcomes, requests', key)
  {
    hide *;
    LookCounts(s, k, now, c, key);
    SharedIsOfKey(s, k, now, c);
    FewExecutions(s.execs, outcomes, requests, key);
    NoneEnded(s.execs, Do(s, Look(k, now), c).execs, k);
    var requests' := requests;
    if k == key {
      ArrivedUpdate(requests, i, Awaiting(Shared(s, k, now, c.ttlMs)));
      requests' := requests[i := Awaiting(Shared(s, k, now, c.ttlMs))];
    }
    GrowthAgrees(s.execs, Do(s, Look(k, now), c).execs, outcomes, requests, requests', key);
  }

  lemma {:induction false} FewExecutions(execs: seq<Exec>, outcomes: map<nat, Outcome>, requests: seq<Request>, key: string)
    requires Agree(execs, outcomes, requests, key)
    ensures Executions(execs, key) <= Arrived(requests)
  {
    hide Executions;
    hide Arrived;
  }

  lemma {:induction false} NoneEnded(execs: seq<Exec>, execs': seq<Exec>, key: string)
    requires forall x :: |execs| <= x < |execs'| ==> execs'[x] == Exec(key, None, false)
    ensures forall x :: |execs| <= x < |execs'| ==> !Ended(execs'[x])
  {
  }

  lemma {:induction false} FinishKeepsAgreement(s: State, x: nat, now: int, outcome: Outcome, c: Config,
                                                outcomes: map<nat, Outcome>, requests: seq<Request>, key: string)
    requires Agree(s.execs, outcomes, requests, key) && x < |s.execs| && x !in outcomes
    ensures Do(s, Step.Settle(x, now), c) == SettledExec(s, x, now)
    ensures Agree(SettledExec(s, x, now).execs, outcomes[x := outcome], requests, key)
  {
    hide Stamped;
    SettleCounts(s, Step.Settle(x, now), c, key);
    hide Executions;
    hide Arrived;
  }

  // ---- The call ------------------------------------------------------------------------------------

  class Runner {
    const cache: Cache
    const key: string
    const render: Outcome -> Reply
    const parse: seq<byte> -> Body
    var outcomes: map<nat, Outcome>
    var requests: seq<Request>
    ghost var steps: seq<Step>

    ghost function Settings(): Config {
      Config(cache.ttlMs, cache.maxEntries)
    }

    ghost predicate Valid()
      reads this, cache
    {
      && cache.Valid() && Faithful(render, parse)
      && cache.Now() == After(steps, Settings()) && NeverRejects(steps)
      && Agree(cache.execs, outcomes, requests, key)
    }

    constructor (ttlMs: int, maxEntries: int, key: string, render: Outcome -> Reply, parse: seq<byte> -> Body)
      requires Faithful(render, parse)
      ensures Valid() && fresh(cache) && requests == [] && steps == [] && Settings() == Config(ttlMs, maxEntries)
      ensures this.key == key && this.render == render && this.parse == parse
    {
      cache := new Cache(ttlMs, maxEntries);
      this.key, this.render, this.parse := key, render, parse;
      outcomes, requests, steps := map[], [], [];
    }

    /** A request of the call arrives, at any time after it was sent. */
    method Arrive(i: nat, now: int)
      requires Valid() && i < |requests| && requests[i].Travelling?
      modifies this`requests, this`steps, cache
      ensures Valid() && steps == old(steps) + [Look(key, now)]
      ensures cache.Now() == Looked(old(cache.Now()), key, now, cache.ttlMs, cache.maxEntries)
      ensures requests == old(requests)[i := Awaiting(Shared(old(cache.Now()), key, now, cache.ttlMs))]
    {
      hide Agree;
      hide Faithful;
      hide After;
      hide NeverRejects;
      hide Inv;
      hide Hit;
      LookKeepsAgreement(cache.Now(), key, now, Settings(), outcomes, requests, i, key);
      AfterMore(steps, Look(key, now), Settings(), key);
      var exec, _ := cache.Run(key, now);
      steps := steps + [Look(key, now)];
      requests := requests[i := Awaiting(exec)];
    }

    /** The runner turns a request away before the lookup: credentials, body, tool or input are wrong. */
    method TurnAway(i: nat, status: ClientError)
      requires Valid() && i < |requests| && requests[i].Travelling?
      modifies this`requests
      ensures Valid() && requests == old(requests)[i := Refused(status)]
    {
      ArrivedUpdate(requests, i, Refused(status));
      requests := requests[i := Refused(status)];
    }

    /** Another call is looked up. */
    method OtherLookup(k: string, now: int)
      requires Valid() && k != key
      modifies this`steps, cache
      ensures Valid() && steps == old(steps) + [Look(k, now)]
      ensures cache.Now() == Looked(old(cache.Now()), k, now, cache.ttlMs, cache.maxEntries)
    {
      hide Agree;
      hide Faithful;
      hide After;
      hide NeverRejects;
      hide Inv;
      hide Hit;
      LookKeepsAgreement(cache.Now(), k, now, Settings(), outcomes, requests, 0, key);
      AfterMore(steps, Look(k, now), Settings(), key);
      var _, _ := cache.Run(k, now);
      steps := steps + [Look(k, now)];
    }

    /** A running handler finishes; its wrapper turns every failure into an outcome. */
    method Finish(x: nat, outcome: Outcome, now: int)
      requires Valid() && x < cache.nextExec && x !in outcomes
      modifies this`steps, this`outcomes, cache
      ensures Valid() && outcomes == old(outcomes)[x := outcome]
      ensures x < |old(cache.execs)| && cache.Now() == SettledExec(old(cache.Now()), x, now)
    {
      hide Agree;
      hide Faithful;
      hide After;
      hide NeverRejects;
      hide Inv;
      hide Do;
      AfterMore(steps, Step.Settle(x, now), Settings(), key);
      FinishKeepsAgreement(cache.Now(), x, now, outcome, Settings(), outcomes, requests, key);
      hide SettledExec;
      cache.Settle(x, now);
      steps := steps + [Step.Settle(x, now)];
      outcomes := outcomes[x := outcome];
    }

    /** Any number of requests arrive or are turned away, handlers finish and other calls come in. */
    method Elapse()
      requires Valid()
      modifies this`requests, this`outcomes, this`steps, cache
      ensures Valid() && |requests| == |old(requests)|
    {
      var moves: nat := *;
      while moves > 0
        invariant Valid() && |requests| == |old(requests)|
      {
        hide Valid;
        var i: nat, now: int, status: int, k: string := *, *, *, *;
        var outcome: Outcome := *;
        if * {
          if i < |requests| && requests[i].Travelling? { Arrive(i, now); }
        } else if * {
          if i < |requests| && requests[i].Travelling? && 400 <= status < 500 { TurnAway(i, status); }
        } else if * {
          if k != key { OtherLookup(k, now); }
        } else if i < cache.nextExec && i !in outcomes {
          Finish(i, outcome, now);
        }
        moves := moves - 1;
      }
    }

    method Send()
      requires Valid()
      modifies this`requests
      ensures Valid() && requests == old(requests) + [Travelling]
    {
      hide Inv;
      hide Faithful;
      hide After;
      hide NeverRejects;
      hide Executions;
      requests := requests + [Travelling];
      assert requests[..|requests| - 1] == old(requests);
    }

    /**
     What the sender of the last request sees: an exception, an answer of the runner, or a failure
     page of something in between, which is never a success status.
     */
    method Receive() returns (e: Exchange)
      requires Valid() && requests != []
      ensures Genuine(e, requests[|requests| - 1], outcomes, render)
    {
      var status: int, message: string, abort: bool := *, *, *;
      var stream: Option<seq<seq<byte>>> := *;
      var request := requests[|requests| - 1];
      if * { return Threw(abort, message); }
      if request.Awaiting? && request.exec in outcomes {
        var reply := render(outcomes[request.exec]);
        var chunks: seq<seq<byte>> := *;
        if Concat(chunks) != reply.text {
          chunks := [reply.text];
          assert chunks[..0] == [] && Concat(chunks) == reply.text;
        }
        return Response(reply.status, Some(chunks));
      }
      if request.Refused? { return Response(request.status, stream); }
      if 200 <= status < 300 { status := 502; }
      e := Response(status, stream);
    }
  }

  datatype Exchange = Threw(abort: bool, message: string) | Response(status: int, stream: Option<seq<seq<byte>>>)

  ghost predicate Genuine(e: Exchange, request: Request, outcomes: map<nat, Outcome>, render: Outcome -> Reply) {
    e.Response? && 200 <= e.status < 300 ==>
      && request.Awaiting? && request.exec in outcomes && e.status == render(outcomes[request.exec]).status
      && e.stream.Some? && Concat(e.stream.value) == render(outcomes[request.exec]).text
  }

  // ---- The executor --------------------------------------------------------------------------------

  /** How one attempt ended: an exception, or a reply whose text is absent when it was too long. */
  datatype Fate = Failure(abort: bool, cancelled: bool, message: string) | Replied(status: int, text: Option<seq<byte>>)

  function Judged(f: Fate, parse: seq<byte> -> Body): Verdict {
    match f
    case Failure(abort, cancelled, message) =>
      if !abort then Retry(Connection(message)) else if cancelled then Done(Err(Aborted)) else Retry(TimedOut)
    case Replied(status, text) =>
      if text.None? then Done(Err(TooLarge)) else Interpret(status, parse(text.value))
  }

  /**
   What is tried again: a connection that failed, an attempt that ran out of its own time, a server error,
   and a reply that is neither a success nor a client error.
   */
  ghost predicate Retryable(f: Fate, parse: seq<byte> -> Body) {
    match f
    case Failure(abort, cancelled, _) => !abort || !cancelled
    case Replied(status, None) => false
    case Replied(status, Some(text)) =>
      status >= 500 || (!parse(text).Malformed? && !(200 <= status < 300 || 400 <= status < 500))
  }

  /** What an attempt that is not tried again makes of the call. */
  ghost predicate Decides(f: Fate, parse: seq<byte> -> Body, result: CallResult) {
    match f
    case Failure(_, _, _) => result == Err(Aborted)
    case Replied(_, None) => result == Err(TooLarge)
    case Replied(status, Some(text)) =>
      match parse(text)
      case SuccessBody(output) =>
        result == if 200 <= status < 300 then Ok(output) else Err(HttpStatus(status))
      case ErrorBody(message) => result == Err(Reported(message))
      case OtherBody => result == if 200 <= status < 300 then Err(InvalidResponse) else Err(HttpStatus(status))
      case Malformed => result == Err(InvalidResponse)
  }

  /** What an attempt leaves behind as the last error when it is tried again. */
  ghost predicate Leaves(f: Fate, parse: seq<byte> -> Body, reason: Reason) {
    match f
    case Failure(abort, _, message) => reason == if abort then TimedOut else Connection(message)
    case Replied(_, None) => false
    case Replied(status, Some(text)) =>
      match parse(text)
      case ErrorBody(message) => reason == Reported(message)
      case Malformed => reason == MalformedHttp(status)
      case _ => reason == HttpStatus(status)
  }

  lemma {:induction false} JudgedIs(f: Fate, parse: seq<byte> -> Body)
    ensures Judged(f, parse).Retry? <==> Retryable(f, parse)
    ensures Judged(f, parse).Retry? ==> Leaves(f, parse, Judged(f, parse).reason)
    ensures Judged(f, parse).Done? ==> Decides(f, parse, Judged(f, parse).result)
  {
  }

  /** Every attempt but the last was to be tried again. */
  ghost predicate RetriedOnly(fates: seq<Fate>, parse: seq<byte> -> Body) {
    forall j :: 0 <= j < |fates| - 1 ==> Retryable(fates[j], parse)
  }

  /** What the attempts of a call amount to. */
  ghost predicate Concludes(result: CallResult, fates: seq<Fate>, total: int, cancelled: bool,
      parse: seq<byte> -> Body) {
    if fates == [] then total <= 0 && result == Err(Unreachable(total, None))
    else
      var last := fates[|fates| - 1];
      if !Retryable(last, parse) then Decides(last, parse, result)
      else if |fates| < total then cancelled && result == Err(Aborted)
      else exists reason :: Leaves(last, parse, reason) && result == Err(Unreachable(total, Some(reason)))
  }

  /** A success that the executor believes is the output of the execution its request awaited. */
  lemma {:induction false} OkIsGenuine(e: Exchange, request: Request, outcomes: map<nat, Outcome>,
                                       render: Outcome -> Reply, parse: seq<byte> -> Body, text: seq<byte>, output: string)
    requires Faithful(render, parse) && Genuine(e, request, outcomes, render) && e.Response?
    requires e.stream.Some? ==> text == Concat(e.stream.value)
    requires Interpret(e.status, parse(text)) == Done(Ok(output))
    ensures request.Awaiting? && request.exec in outcomes && outcomes[request.exec] == Succeeded(output)
  {
    var o := outcomes[request.exec];
    assert text == render(o).text;
  }

  /**
   What each side of the protocol makes of the other: outputs arrive, failed handlers and server
   errors are tried again, refusals are final.
   */
  lemma {:induction false} WireContract(o: Outcome, render: Outcome -> Reply, parse: seq<byte> -> Body, status: int,
      body: Body)
    requires Faithful(render, parse)
    ensures o.Succeeded? ==> Interpret(render(o).status, parse(render(o).text)) == Done(Ok(o.output))
    ensures o.Failed? && o.status in {500, 504} ==>
              Interpret(render(o).status, parse(render(o).text)) == Retry(Reported(o.message))
    ensures Interpret(status, body).Retry?
       <==> status >= 500 || (!body.Malformed? && (status < 200 || 300 <= status < 400))
    ensures Interpret(status, body).Done? && Interpret(status, body).result.Ok?
       <==> 200 <= status < 300 && body.SuccessBody?
  {
    match o
    case Succeeded(output) => assert parse(render(o).text) == SuccessBody(output);
    case Failed(status', message) => assert parse(render(o).text) == ErrorBody(message);
  }

  ghost predicate Delivered(runner: Runner, output: string)
    reads runner
  {
    runner.requests != [] &&
    var request := runner.requests[|runner.requests| - 1];
    request.Awaiting? && request.exec in runner.outcomes && runner.outcomes[request.exec] == Succeeded(output)
  }

  method Attempt(runner: Runner, maxBytes: nat, cancelled: bool) returns (fate: Fate, cancelled': bool)
    requires runner.Valid()
    modifies runner`requests, runner`outcomes, runner`steps, runner.cache
    ensures runner.Valid() && |runner.requests| == |old(runner.requests)| + 1
    ensures cancelled ==> cancelled'
    ensures fate.Failure? ==> fate.cancelled == cancelled'
    ensures forall output ::
      !Retryable(fate, runner.parse) && Decides(fate, runner.parse, Ok(output)) ==> Delivered(runner, output)
  {
    hide Agree;
    hide Inv;
    hide After;
    runner.Send();
    runner.Elapse();
    var aborts: bool := *;
    cancelled' := cancelled || aborts;
    var e := runner.Receive();
    match e
    case Threw(abort, message) =>
      fate := Failure(abort, cancelled', message);
    case Response(status, stream) =>
      var text := ReadBoundedText(stream, maxBytes);
      fate := Replied(status, text);
      if && text.Some?
         && Interpret(status, runner.parse(text.value)).Done?
         && Interpret(status, runner.parse(text.value)).result.Ok? {
        OkIsGenuine(e, runner.requests[|runner.requests| - 1], runner.outcomes, runner.render, runner.parse,
                    text.value, Interpret(status, runner.parse(text.value)).result.value);
      }
  }

  /**
   Sends the call until an attempt is decisive. `sentCancelled` tells of each attempt whether the signal
   was already aborted when it was sent; no attempt after the first is sent then.
   */
  method SendWithRetries(runner: Runner, maxRetries: int, maxBytes: nat)
      returns (result: CallResult, ghost fates: seq<Fate>, ghost cancelled: bool, ghost sentCancelled: seq<bool>)
    requires runner.Valid() && runner.requests == []
    modifies runner`requests, runner`outcomes, runner`steps, runner.cache
    ensures runner.Valid()
    ensures |runner.requests| == |fates| && (|fates| <= 1 + maxRetries || fates == [])
    ensures RetriedOnly(fates, runner.parse) && Concludes(result, fates, 1 + maxRetries, cancelled, runner.parse)
    ensures result == Err(Aborted) ==> cancelled
    ensures !cancelled && maxRetries >= 0 && (forall j :: 0 <= j < |fates| ==> fates[j].Failure?) ==>
              && |fates| == 1 + maxRetries
              && var last := fates[maxRetries];
                 result == Err(Unreachable(1 + maxRetries, Some(if last.abort then TimedOut else Connection(last.message))))
    ensures |sentCancelled| == |fates| && forall j :: 1 <= j < |fates| ==> !sentCancelled[j]
    ensures result.Ok? ==> Delivered(runner, result.value)
  {
    hide Runner.Valid;
    hide Judged;
    hide Delivered;
    hide Decides;
    var totalAttempts := 1 + maxRetries;
    var lastError: Option<Reason> := None;
    var aborted := false;
    fates, cancelled, sentCancelled := [], false, [];
    var attempt := 1;
    while attempt <= totalAttempts
      invariant runner.Valid() && cancelled == aborted
      invariant |runner.requests| == |fates| == |sentCancelled| == attempt - 1
      invariant forall j :: 1 <= j < |sentCancelled| ==> !sentCancelled[j]
      invariant 1 < attempt <= totalAttempts ==> !aborted
      invariant totalAttempts > 0 ==> attempt <= totalAttempts + 1
      invariant totalAttempts <= 0 ==> attempt == 1
      invariant forall j :: 0 <= j < |fates| ==> Retryable(fates[j], runner.parse)
      invariant forall j :: 0 <= j < |fates| && fates[j].Failure? && fates[j].cancelled ==> cancelled
      invariant if fates == [] then lastError == None
                else lastError.Some? && Leaves(fates[|fates| - 1], runner.parse, lastError.value)
    {
      var fate;
      sentCancelled := sentCancelled + [aborted];
      fate, aborted := Attempt(runner, maxBytes, aborted);
      fates, cancelled := fates + [fate], aborted;
      JudgedIs(fate, runner.parse);
      match Judged(fate, runner.parse) {
        case Done(r) => return r, fates, cancelled, sentCancelled;
        case Retry(reason) => lastError := Some(reason);
      }
      if attempt < totalAttempts {
        runner.Elapse();
        var aborts: bool := *;
        aborted := aborted || aborts;
        cancelled := aborted;
        if aborted { return Err(Aborted), fates, cancelled, sentCancelled; }
      }
      attempt := attempt + 1;
    }
    result := Err(Unreachable(totalAttempts, lastError));
  }

  /**
   The promise of the idempotency key. A call never runs its handler more often than it was sent; it
   runs it at most once exactly when its outcome stayed in the cache; and then an output handed to the
   loop is the output of the one execution there was.
   */
  lemma {:induction false} OnceAndItsOutput(runner: Runner, output: string)
    requires runner.Valid() && Delivered(runner, output)
    ensures Executions(runner.cache.execs, runner.key) <= |runner.requests|
    ensures Kept(runner.steps, runner.Settings(), runner.key) <==> Executions(runner.cache.execs, runner.key) == 1
    ensures Kept(runner.steps, runner.Settings(), runner.key) ==>
              forall y :: 0 <= y < |runner.cache.execs| && runner.cache.execs[y].key == runner.key ==>
                y in runner.outcomes && runner.outcomes[y] == Succeeded(output)
  {
    hide Inv;
    hide After;
    hide Executions;
    ArrivedBound(runner.requests);
    AtMostOnceExactly(runner.steps, runner.Settings(), runner.key);
    ExecutedIsCounted(runner.cache.execs, runner.key, runner.requests[|runner.requests| - 1].exec);
  }
}
