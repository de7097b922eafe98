/**
 The event stream of a run (packages/shared/src/types/events.ts) and its grammar: an opening event,
 rounds of tokens followed by paired tool-call events, and one terminal event.
 */
module Transcript {
  import opened Common
  import opened Rows

  datatype Code = MaxIterationsCode | TimedOutCode | CancelledCode | ErrorCode(code: string)

  datatype Event =
    | MessageStarted
    | Token(text: string)
    | ToolCallStarted(callId: nat, toolName: string)
    | ToolCallCompleted(callId: nat, toolName: string, status: ToolStatus)
    | MessageCompleted
    | RunFailed(code: Code)

  datatype CallTrace = CallTrace(callId: nat, toolName: string, status: ToolStatus)

  /** One model round: the tokens streamed, then the calls that were started and completed. */
  datatype Round = Round(tokens: seq<string>, calls: seq<CallTrace>)

  function TokenEvents(tokens: seq<string>): seq<Event> {
    if tokens == [] then [] else TokenEvents(tokens[..|tokens| - 1]) + [Token(tokens[|tokens| - 1])]
  }

  function CallEvents(calls: seq<CallTrace>): seq<Event> {
    if calls == [] then []
    else
      var c := calls[|calls| - 1];
      CallEvents(calls[..|calls| - 1])
      + [ToolCallStarted(c.callId, c.toolName), ToolCallCompleted(c.callId, c.toolName, c.status)]
  }

  function Flat(rounds: seq<Round>): seq<Event> {
    if rounds == [] then []
    else
      var r := rounds[|rounds| - 1];
      Flat(rounds[..|rounds| - 1]) + (TokenEvents(r.tokens) + CallEvents(r.calls))
  }

  function AllCalls(rounds: seq<Round>): seq<CallTrace> {
    if rounds == [] then [] else AllCalls(rounds[..|rounds| - 1]) + rounds[|rounds| - 1].calls
  }

  /** A call that was started and not completed. */
  datatype Dangling = Dangling(callId: nat, toolName: string)

  function DanglingEvents(d: Option<Dangling>): seq<Event> {
    if d.Some? then [ToolCallStarted(d.value.callId, d.value.toolName)] else []
  }

  /** The stream up to, and without, the terminal event. */
  function Open(rounds: seq<Round>, dangling: Option<Dangling>): seq<Event> {
    [MessageStarted] + Flat(rounds) + DanglingEvents(dangling)
  }

  predicate IsTerminal(e: Event) { e.MessageCompleted? || e.RunFailed? }

  /** The status a terminal event names. */
  function StatusNamed(e: Event): RunStatus
    requires IsTerminal(e)
  {
    match e
    case MessageCompleted => Completed
    case RunFailed(TimedOutCode) => TimedOut
    case RunFailed(CancelledCode) => Cancelled
    case RunFailed(_) => Failed
  }

  // ---- Growing the current round ---------------------------------------------------------------

  function WithToken(rounds: seq<Round>, text: string): seq<Round>
    requires rounds != []
  {
    var r := rounds[|rounds| - 1];
    rounds[..|rounds| - 1] + [Round(r.tokens + [text], r.calls)]
  }

  function WithCall(rounds: seq<Round>, c: CallTrace): seq<Round>
    requires rounds != []
  {
    var r := rounds[|rounds| - 1];
    rounds[..|rounds| - 1] + [Round(r.tokens, r.calls + [c])]
  }

  lemma {:induction false} FlatNewRound(rounds: seq<Round>)
    ensures Flat(rounds + [Round([], [])]) == Flat(rounds)
    ensures AllCalls(rounds + [Round([], [])]) == AllCalls(rounds)
  {
    assert (rounds + [Round([], [])])[..|rounds|] == rounds;
  }

  lemma {:induction false} FlatWithToken(rounds: seq<Round>, text: string)
    requires rounds != [] && rounds[|rounds| - 1].calls == []
    ensures Flat(WithToken(rounds, text)) == Flat(rounds) + [Token(text)]
    ensures AllCalls(WithToken(rounds, text)) == AllCalls(rounds)
  {
    var n := |rounds| - 1;
    assert WithToken(rounds, text)[..n] == rounds[..n];
    assert (rounds[n].tokens + [text])[..|rounds[n].tokens|] == rounds[n].tokens;
  }

  lemma {:induction false} FlatWithCall(rounds: seq<Round>, c: CallTrace)
    requires rounds != []
    ensures Flat(WithCall(rounds, c)) == Flat(rounds)
         + [ToolCallStarted(c.callId, c.toolName), ToolCallCompleted(c.callId, c.toolName, c.status)]
    ensures AllCalls(WithCall(rounds, c)) == AllCalls(rounds) + [c]
  {
    var n := |rounds| - 1;
    assert WithCall(rounds, c)[..n] == rounds[..n];
    assert (rounds[n].calls + [c])[..|rounds[n].calls|] == rounds[n].calls;
  }

  // ---- What the grammar says about single events ----------------------------------------------

  ghost predicate PairedAt(es: seq<Event>, i: int)
    requires 0 <= i < |es|
  {
    && (es[i].Token? || es[i].ToolCallStarted? || es[i].ToolCallCompleted?)
    && (es[i].ToolCallStarted? ==>
          i + 1 < |es| && es[i + 1].ToolCallCompleted?
          && es[i + 1].callId == es[i].callId && es[i + 1].toolName == es[i].toolName)
    && (es[i].ToolCallCompleted? ==>
          i > 0 && es[i - 1].ToolCallStarted?
          && es[i - 1].callId == es[i].callId && es[i - 1].toolName == es[i].toolName)
  }

  /** Inside the rounds every started call is completed at once, and nothing is terminal. */
  ghost predicate Paired(es: seq<Event>) {
    forall i :: 0 <= i < |es| ==> PairedAt(es, i)
  }

  lemma {:induction false} PairedConcat(a: seq<Event>, b: seq<Event>)
    requires Paired(a) && Paired(b)
    ensures Paired(a + b)
  {
    forall i | 0 <= i < |a + b| ensures PairedAt(a + b, i) {
      if i < |a| {
        assert PairedAt(a, i);
      } else {
        assert PairedAt(b, i - |a|);
      }
    }
  }

  lemma {:induction false} TokenEventsPaired(tokens: seq<string>)
    ensures Paired(TokenEvents(tokens))
  {
    if tokens != [] {
      TokenEventsPaired(tokens[..|tokens| - 1]);
      PairedConcat(TokenEvents(tokens[..|tokens| - 1]), [Token(tokens[|tokens| - 1])]);
    }
  }

  lemma {:induction false} CallEventsPaired(calls: seq<CallTrace>)
    ensures Paired(CallEvents(calls))
  {
    if calls != [] {
      var c := calls[|calls| - 1];
      CallEventsPaired(calls[..|calls| - 1]);
      PairedConcat(CallEvents(calls[..|calls| - 1]),
        [ToolCallStarted(c.callId, c.toolName), ToolCallCompleted(c.callId, c.toolName, c.status)]);
    }
  }

  lemma {:induction false} FlatPaired(rounds: seq<Round>)
    ensures Paired(Flat(rounds))
  {
    if rounds != [] {
      var r := rounds[|rounds| - 1];
      FlatPaired(rounds[..|rounds| - 1]);
      TokenEventsPaired(r.tokens);
      CallEventsPaired(r.calls);
      PairedConcat(TokenEvents(r.tokens), CallEvents(r.calls));
      PairedConcat(Flat(rounds[..|rounds| - 1]), TokenEvents(r.tokens) + CallEvents(r.calls));
    }
  }

  /**
   Reading a finished stream event by event: it opens with `message_started` and never repeats it;
   exactly its last event is terminal; a started call is followed at once by its completion, or by
   the failure that ends the run; a completion directly follows its start.
   */
  lemma {:induction false} StreamShape(rounds: seq<Round>, dangling: Option<Dangling>, terminal: Event, i: nat)
    requires IsTerminal(terminal) && (dangling.Some? ==> terminal.RunFailed?)
    requires i < |Open(rounds, dangling) + [terminal]|
    ensures var es := Open(rounds, dangling) + [terminal];
      && (es[i].MessageStarted? <==> i == 0)
      && (IsTerminal(es[i]) <==> i == |es| - 1)
      && (es[i].ToolCallStarted? ==>
            && i + 1 < |es|
            && (|| (es[i + 1].ToolCallCompleted? && es[i + 1].callId == es[i].callId
                    && es[i + 1].toolName == es[i].toolName)
                || (es[i + 1].RunFailed? && i + 1 == |es| - 1)))
      && (es[i].ToolCallCompleted? ==>
            && i > 0 && es[i - 1].ToolCallStarted? && es[i - 1].callId == es[i].callId
            && es[i - 1].toolName == es[i].toolName)
  {
    FlatPaired(rounds);
    var es := Open(rounds, dangling) + [terminal];
    var flat := Flat(rounds);
    assert es == [MessageStarted] + flat + DanglingEvents(dangling) + [terminal];
    if 1 <= i <= |flat| { assert es[i] == flat[i - 1] && PairedAt(flat, i - 1); }
  }
}
