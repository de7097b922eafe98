/**
 The agent loop over a prepared run (packages/runtime/src/loop.ts): model rounds, the event stream,
 tool-call bookkeeping, terminal classification and finalization.

 The model is a parameter: `model(n)` is the finite chunk sequence of the n-th model call. All other
 outside behaviour is nondeterministic: at every `await` and `yield` any armed source may abort, a
 write may throw with no effect, a stream may throw, an executor may fail, and the consumer may
 tear the generator down. What is proved holds for every resolution.
 */
module Loop {
  import opened Common
  import opened Deadlines
  import opened Rows
  import opened Transcript
  import opened History

  datatype Chunk =
    | TokenChunk(text: string)
    | ToolCallChunk(toolName: string, callId: string, arguments: string)
    | FinishChunk

  /** Why control left a `try` block: an abort reason, or an error with the code it carries, if any. */
  datatype Failure = Aborted(cause: Cause) | Thrown(code: Option<string>)

  datatype Exit = Next | Threw(why: Failure) | Torn

  /**
   One call of the tool executor: what it was asked, what it returned, and the timeout its signal
   carried by then. An output is absent when the tool returned nothing that JSON can express.
   */
  datatype Execution = Execution(callId: nat, toolName: string, arguments: string,
                                 result: Result<Option<string>, string>, timedOut: Option<Cause>)

  function Texts(chunks: seq<Chunk>): seq<string> {
    if chunks == [] then []
    else
      var c := chunks[|chunks| - 1];
      Texts(chunks[..|chunks| - 1]) + if c.TokenChunk? then [c.text] else []
  }

  function Calls(chunks: seq<Chunk>): (cs: seq<Chunk>)
    ensures forall i :: 0 <= i < |cs| ==> cs[i].ToolCallChunk?
  {
    if chunks == [] then []
    else
      var c := chunks[|chunks| - 1];
      Calls(chunks[..|chunks| - 1]) + if c.ToolCallChunk? then [c] else []
  }

  function Joined(texts: seq<string>): string {
    if texts == [] then "" else Joined(texts[..|texts| - 1]) + texts[|texts| - 1]
  }

  function Persisted(calls: seq<Chunk>): (ps: seq<PersistedCall>)
    requires forall i :: 0 <= i < |calls| ==> calls[i].ToolCallChunk?
  {
    seq(|calls|, i requires 0 <= i < |calls| =>
      PersistedCall(Some(calls[i].callId), None, Some(calls[i].toolName), calls[i].arguments))
  }

  /** The prefix of a stream that a round has emitted, call by call. */
  ghost predicate Follows(r: Round, chunks: seq<Chunk>) {
    && r.tokens <= Texts(chunks)
    && |r.calls| <= |Calls(chunks)|
    && (forall k :: 0 <= k < |r.calls| ==> r.calls[k].toolName == Calls(chunks)[k].toolName)
  }

  ghost predicate Exhausts(r: Round, chunks: seq<Chunk>) {
    Follows(r, chunks) && r.tokens == Texts(chunks) && |r.calls| == |Calls(chunks)|
  }

  lemma {:induction false} TextsPrefix(chunks: seq<Chunk>, i: nat)
    requires i <= |chunks|
    ensures Texts(chunks[..i]) <= Texts(chunks)
    decreases |chunks|
  {
    if i == |chunks| {
      assert chunks[..i] == chunks;
    } else {
      TextsPrefix(chunks[..|chunks| - 1], i);
      assert chunks[..|chunks| - 1][..i] == chunks[..i];
    }
  }

  lemma {:induction false} TextsStep(chunks: seq<Chunk>, i: nat)
    requires i < |chunks|
    ensures Texts(chunks[..i + 1]) == Texts(chunks[..i]) + if chunks[i].TokenChunk? then [chunks[i].text] else []
    ensures Calls(chunks[..i + 1]) == Calls(chunks[..i]) + if chunks[i].ToolCallChunk? then [chunks[i]] else []
  {
    assert chunks[..i + 1][..i] == chunks[..i];
  }

  function TimerOf(armed: bool, id: nat, scope: Scope): set<Source> {
    if armed then {CallTimer(id, scope)} else {}
  }

  /** A signal reports a timeout only when a deadline was the very first source to abort. */
  lemma {:induction false} TimeoutIsFirst(log: seq<Source>, withExternal: bool, extra: set<Source>)
    requires forall i :: 0 <= i < |log| && log[i].External? ==> withExternal
    ensures var reason := FirstCause(log, RunSources(withExternal) + extra);
            reason.Some? && reason.value.RunTimeout? ==> log != [] && CauseOf(log[0]).RunTimeout?
  {
  }

  /** After `n` aborts none of `sources` had aborted. */
  ghost predicate Clear(log: seq<Source>, sources: set<Source>, n: nat) {
    n <= |log| && FirstCause(log[..n], sources).None?
  }

  /** What was clear stays clear, however many aborts follow. */
  lemma {:induction false} ClearLater(before: seq<Source>, log: seq<Source>, sources: set<Source>, n: nat)
    requires Clear(before, sources, n) && before <= log
    ensures Clear(log, sources, n)
  {
    assert log[..n] == before[..n];
  }

  /** Every token was emitted, and every round passed its check, while the signal of the run was clear. */
  ghost predicate Checked(log: seq<Source>, sources: set<Source>, events: seq<Event>, emittedAt: seq<nat>,
      begunAt: seq<nat>) {
    && |emittedAt| == |events|
    && (forall i :: 0 <= i < |events| && events[i].Token? ==> Clear(log, sources, emittedAt[i]))
    && (forall k :: 0 <= k < |begunAt| ==> Clear(log, sources, begunAt[k]))
  }

  lemma {:induction false} CheckedLater(before: seq<Source>, log: seq<Source>, sources: set<Source>, events: seq<Event>,
                                        emittedAt: seq<nat>, begunAt: seq<nat>)
    requires Checked(before, sources, events, emittedAt, begunAt) && before <= log
    ensures Checked(log, sources, events, emittedAt, begunAt)
  {
    forall n: nat | Clear(before, sources, n) ensures Clear(log, sources, n) { ClearLater(before, log, sources, n); }
    hide Clear;
  }

  lemma {:induction false} CheckedMore(log: seq<Source>, sources: set<Source>, events: seq<Event>, emittedAt: seq<nat>,
                                       begunAt: seq<nat>, e: Event, n: nat)
    requires Checked(log, sources, events, emittedAt, begunAt) && (e.Token? ==> Clear(log, sources, n))
    ensures Checked(log, sources, events + [e], emittedAt + [n], begunAt)
  {
    hide Clear;
  }

  /**
   Only accepted calls are executed, each once and under a row, and a row is `completed` only if the
   execution of its call returned an output.
   */
  ghost predicate Accounted(executed: seq<Execution>, rows: map<nat, ToolStatus>, accepts: (string, string) -> bool) {
    && (forall i :: 0 <= i < |executed| ==>
          accepts(executed[i].toolName, executed[i].arguments) && executed[i].callId in rows)
    && (forall i, j :: 0 <= i < j < |executed| ==> executed[i].callId != executed[j].callId)
    && (forall c :: c in rows && rows[c].ToolCompleted? ==>
          exists i :: 0 <= i < |executed| && executed[i].callId == c && executed[i].result.Ok?)
  }

  ghost predicate NotExecuted(executed: seq<Execution>, id: nat) {
    forall i :: 0 <= i < |executed| ==> executed[i].callId != id
  }

  ghost predicate InTime(executed: seq<Execution>) {
    forall i :: 0 <= i < |executed| ==> executed[i].timedOut.None?
  }

  type ToolCall = c: Chunk | c.ToolCallChunk? witness ToolCallChunk("", "", "")

  const REJECTION := "Tool call rejected"

  /**
   A completed call: what the stream says of it, the model's call, its execution if it was accepted, and
   the result that is stored for it.
   */
  datatype Settlement = Settlement(trace: CallTrace, call: ToolCall, execution: Option<Execution>, result: Option<string>)

  /** A rejected call failed unexecuted; an accepted one has the status and the result of its own execution. */
  ghost predicate Right(x: Settlement, accepts: (string, string) -> bool) {
    && x.trace.toolName == x.call.toolName
    && if accepts(x.call.toolName, x.call.arguments) then
         && x.execution.Some?
         && var e := x.execution.value;
            && e.callId == x.trace.callId && e.toolName == x.call.toolName && e.arguments == x.call.arguments
            && (e.result.Ok? ==> x.trace.status.ToolCompleted? && x.result == e.result.value)
            && (e.result.Err? ==> x.trace.status.ToolFailed? && x.result == Some(e.result.error))
       else x.execution.None? && x.trace.status.ToolFailed? && x.result == Some(REJECTION)
  }

  function Traces(settled: seq<Settlement>): seq<CallTrace> {
    if settled == [] then [] else Traces(settled[..|settled| - 1]) + [settled[|settled| - 1].trace]
  }

  function CallsIn(settled: seq<Settlement>): seq<Chunk> {
    if settled == [] then [] else CallsIn(settled[..|settled| - 1]) + [settled[|settled| - 1].call]
  }

  function ExecutionsIn(settled: seq<Settlement>): seq<Execution> {
    if settled == [] then []
    else
      var last := settled[|settled| - 1].execution;
      ExecutionsIn(settled[..|settled| - 1]) + if last.Some? then [last.value] else []
  }

  /** The stored message of a settled call. */
  function StoredFor(x: Settlement): Message {
    Message(Tool, ToolJson(Some(x.call.callId), None, Some(x.call.toolName), x.result))
  }

  function StoredIn(settled: seq<Settlement>): seq<Message> {
    if settled == [] then [] else StoredIn(settled[..|settled| - 1]) + [StoredFor(settled[|settled| - 1])]
  }

  function ToolsOf(h: seq<Message>): seq<Message> {
    if h == [] then []
    else ToolsOf(h[..|h| - 1]) + if h[|h| - 1].role == Tool then [h[|h| - 1]] else []
  }

  /** The model's calls that the rounds have completed, in order. */
  function CallsMade(rounds: seq<Round>, model: nat -> seq<Chunk>): seq<Chunk> {
    if rounds == [] then []
    else
      var n := |rounds| - 1;
      var calls, k := Calls(model(n)), |rounds[n].calls|;
      CallsMade(rounds[..n], model) + if k <= |calls| then calls[..k] else calls
  }

  /** The completed calls of the stream are the settled ones, and each was settled right. */
  ghost predicate Booked(settled: seq<Settlement>, rounds: seq<Round>, model: nat -> seq<Chunk>,
      accepts: (string, string) -> bool) {
    && Traces(settled) == AllCalls(rounds) && CallsIn(settled) == CallsMade(rounds, model)
    && forall i :: 0 <= i < |settled| ==> Right(settled[i], accepts)
  }

  /** Between two calls: the executions and the stored results are those of the settled calls, one each. */
  ghost predicate Balanced(settled: seq<Settlement>, executed: seq<Execution>, before: seq<Message>,
      after: seq<Message>) {
    ExecutionsIn(settled) == executed && ToolsOf(after) == ToolsOf(before) + StoredIn(settled)
  }

  /** At the end: at most the last execution belongs to no completed call, and at most the last result is not stored. */
  ghost predicate AlmostBalanced(settled: seq<Settlement>, executed: seq<Execution>, before: seq<Message>,
      after: seq<Message>) {
    && ExecutionsIn(settled) <= executed && |executed| <= |ExecutionsIn(settled)| + 1
    && (|| ToolsOf(after) == ToolsOf(before) + StoredIn(settled)
        || (settled != [] && ToolsOf(after) == ToolsOf(before) + StoredIn(settled[..|settled| - 1])))
  }

  lemma {:induction false} ToolsOfMore(h: seq<Message>, m: Message)
    ensures ToolsOf(h + [m]) == ToolsOf(h) + if m.role == Tool then [m] else []
  {
    assert (h + [m])[..|h|] == h;
  }

  /** A round that has completed no call adds nothing to the books. */
  lemma {:induction false} BookedQuietly(settled: seq<Settlement>, before: seq<Round>, after: seq<Round>,
      model: nat -> seq<Chunk>, accepts: (string, string) -> bool)
    requires Booked(settled, before, model, accepts)
    requires |before| <= |after| <= |before| + 1 && after[..|before|] == before
    requires |after| > |before| ==> after[|before|].calls == []
    ensures Booked(settled, after, model, accepts)
  {
    hide Right;
    if |after| == |before| { assert after == before; }
  }

  /** The call in progress is completed. */
  lemma {:induction false} BookedMore(settled: seq<Settlement>, rounds: seq<Round>, model: nat -> seq<Chunk>,
      accepts: (string, string) -> bool, x: Settlement)
    requires Booked(settled, rounds, model, accepts) && Right(x, accepts) && rounds != []
    requires var n := |rounds| - 1; var k := |rounds[n].calls|; k < |Calls(model(n))| && x.call == Calls(model(n))[k]
    ensures Booked(settled + [x], WithCall(rounds, x.trace), model, accepts)
  {
    hide Right;
    hide Calls;
    var n := |rounds| - 1;
    var calls, k := Calls(model(n)), |rounds[n].calls|;
    var more := WithCall(rounds, x.trace);
    assert more[..n] == rounds[..n] && (settled + [x])[..|settled|] == settled;
    assert calls[..k + 1] == calls[..k] + [calls[k]];
  }

  lemma {:induction false} SettledMore(settled: seq<Settlement>, x: Settlement)
    ensures ExecutionsIn(settled + [x]) == ExecutionsIn(settled) + if x.execution.Some? then [x.execution.value] else []
    ensures StoredIn(settled + [x]) == StoredIn(settled) + [StoredFor(x)]
    ensures (settled + [x])[..|settled|] == settled
  {
    assert (settled + [x])[..|settled|] == settled;
  }

  lemma {:induction false} BookedLengths(settled: seq<Settlement>)
    ensures |Traces(settled)| == |CallsIn(settled)| == |settled|
    ensures forall i :: 0 <= i < |settled| ==>
              Traces(settled)[i] == settled[i].trace && CallsIn(settled)[i] == settled[i].call
  {
    if settled != [] { BookedLengths(settled[..|settled| - 1]); }
  }

  lemma {:induction false} CallsMadeAt(rounds: seq<Round>, model: nat -> seq<Chunk>, r: nat, k: nat)
    requires forall n :: 0 <= n < |rounds| ==> |rounds[n].calls| <= |Calls(model(n))|
    requires r < |rounds| && k < |rounds[r].calls|
    ensures var i := |AllCalls(rounds[..r])| + k;
            && |AllCalls(rounds)| == |CallsMade(rounds, model)| && i < |AllCalls(rounds)|
            && AllCalls(rounds)[i] == rounds[r].calls[k] && CallsMade(rounds, model)[i] == Calls(model(r))[k]
  {
    hide Calls;
    var n := |rounds| - 1;
    CallsMadeLength(rounds, model);
    CallsMadeLength(rounds[..n], model);
    if r < n {
      CallsMadeAt(rounds[..n], model, r, k);
      assert rounds[..n][..r] == rounds[..r];
    }
  }

  lemma {:induction false} CallsMadeLength(rounds: seq<Round>, model: nat -> seq<Chunk>)
    requires forall n :: 0 <= n < |rounds| ==> |rounds[n].calls| <= |Calls(model(n))|
    ensures |AllCalls(rounds)| == |CallsMade(rounds, model)|
  {
    hide Calls;
    if rounds != [] { CallsMadeLength(rounds[..|rounds| - 1], model); }
  }

  /** The k-th completed call of round `r` is the k-th call of that round's stream, settled right. */
  lemma {:induction false} CompletedCallIsRight(settled: seq<Settlement>, rounds: seq<Round>, model: nat -> seq<Chunk>,
      accepts: (string, string) -> bool, r: nat, k: nat)
    requires Booked(settled, rounds, model, accepts)
    requires forall n :: 0 <= n < |rounds| ==> Follows(rounds[n], model(n))
    requires r < |rounds| && k < |rounds[r].calls|
    ensures var i := |AllCalls(rounds[..r])| + k;
            && i < |settled| && settled[i].trace == rounds[r].calls[k]
            && k < |Calls(model(r))| && settled[i].call == Calls(model(r))[k]
            && var x := settled[i];
               if accepts(x.call.toolName, x.call.arguments) then
                 && x.execution.Some? && x.execution.value.callId == x.trace.callId
                 && x.execution.value.toolName == x.call.toolName && x.execution.value.arguments == x.call.arguments
                 && (x.trace.status.ToolCompleted? <==> x.execution.value.result.Ok?)
                 && x.result == match x.execution.value.result { case Ok(output) => output case Err(error) => Some(error) }
               else x.execution.None? && x.trace.status.ToolFailed? && x.result == Some(REJECTION)
  {
    assert forall i :: 0 <= i < |settled| ==> Right(settled[i], accepts);
    hide Calls;
    BookedLengths(settled);
    assert Follows(rounds[r], model(r));
    CallsMadeAt(rounds, model, r, k);
  }

  /** Records that are no tool results leave the books as they are. */
  lemma {:induction false} BalancedStill(settled: seq<Settlement>, executed: seq<Execution>, history: seq<Message>,
      before: seq<Message>, after: seq<Message>)
    requires ToolsOf(after) == ToolsOf(before)
    ensures Balanced(settled, executed, history, before) ==> Balanced(settled, executed, history, after)
    ensures AlmostBalanced(settled, executed, history, before) ==> AlmostBalanced(settled, executed, history, after)
  {
  }

  /** An execution has begun a call that is not completed. */
  lemma {:induction false} BalancedExecuted(settled: seq<Settlement>, before: seq<Execution>, executed: seq<Execution>,
      history: seq<Message>, messages: seq<Message>)
    requires Balanced(settled, before, history, messages)
    requires before <= executed && |executed| <= |before| + 1
    ensures AlmostBalanced(settled, executed, history, messages)
  {
    hide ToolsOf;
    hide StoredIn;
    hide ExecutionsIn;
  }

  /** The call is completed; its result may fail to be stored. */
  lemma {:induction false} BalancedMore(settled: seq<Settlement>, x: Settlement, before: seq<Execution>,
      executed: seq<Execution>, history: seq<Message>, messages: seq<Message>)
    requires Balanced(settled, before, history, messages)
    requires executed == before + if x.execution.Some? then [x.execution.value] else []
    ensures AlmostBalanced(settled + [x], executed, history, messages)
    ensures Balanced(settled + [x], executed, history, messages + [StoredFor(x)])
    ensures AlmostBalanced(settled + [x], executed, history, messages + [StoredFor(x)])
  {
    SettledMore(settled, x);
    ToolsOfMore(messages, StoredFor(x));
    hide ToolsOf;
    hide StoredIn;
    hide ExecutionsIn;
  }

  lemma {:induction false} AccountedCreated(executed: seq<Execution>, rows: map<nat, ToolStatus>,
      accepts: (string, string) -> bool, id: nat)
    requires Accounted(executed, rows, accepts) && id !in rows
    ensures NotExecuted(executed, id) && Accounted(executed, rows[id := ToolStarted], accepts)
  {
  }

  lemma {:induction false} AccountedFailed(executed: seq<Execution>, rows: map<nat, ToolStatus>,
      accepts: (string, string) -> bool, id: nat)
    requires Accounted(executed, rows, accepts) && id in rows
    ensures Accounted(executed, rows[id := ToolFailed], accepts)
  {
  }

  /** An accepted call is executed, and later its row gets the status of that execution. */
  lemma {:induction false} AccountedExecuted(executed: seq<Execution>, rows: map<nat, ToolStatus>,
      accepts: (string, string) -> bool, x: Execution)
    requires Accounted(executed, rows, accepts) && NotExecuted(executed, x.callId)
    requires x.callId in rows && accepts(x.toolName, x.arguments)
    ensures Accounted(executed + [x], rows, accepts)
    ensures Accounted(executed + [x], rows[x.callId := if x.result.Ok? then ToolCompleted else ToolFailed], accepts)
  {
    var more := executed + [x];
    assert more[|executed|] == x;
    forall c | c in rows && rows[c].ToolCompleted?
      ensures exists i :: 0 <= i < |more| && more[i].callId == c && more[i].result.Ok?
    {
      var i :| 0 <= i < |executed| && executed[i].callId == c && executed[i].result.Ok?;
      assert more[i] == executed[i];
    }
  }

  /** Closing what is still open completes nothing. */
  lemma {:induction false} AccountedFinal(executed: seq<Execution>, before: map<nat, ToolStatus>,
      rows: map<nat, ToolStatus>, accepts: (string, string) -> bool)
    requires Accounted(executed, before, accepts) && rows.Keys == before.Keys
    requires forall c :: c in rows ==> rows[c] == before[c] || rows[c].ToolFailed?
    ensures Accounted(executed, rows, accepts)
  {
  }

  datatype TerminalCause = ByTimeout | ByCancel | ByFailure

  /** `classifyTerminal`. */
  function Classify(deadlineHit: Option<Cause>, reason: Option<Cause>): TerminalCause {
    if deadlineHit.Some? || TimeoutReason(reason).Some? then ByTimeout
    else if reason.Some? then ByCancel
    else ByFailure
  }

  /** The code an error is reported with: its own, and `INTERNAL` for one that carries none. */
  ghost predicate Named(why: Failure, code: string) {
    match why
    case Thrown(Some(own)) => code == own
    case Thrown(None) => code == "INTERNAL"
    case Aborted(_) => code == "INTERNAL"
  }

  /** Classification follows the very first abort: a cancel is no timeout, a total deadline no cancel. */
  lemma {:induction false} ClassifyFirst(log: seq<Source>, withExternal: bool, deadlineHit: Option<Cause>)
    requires forall i :: 0 <= i < |log| && log[i].External? ==> withExternal
    requires deadlineHit.Some? ==> log != [] && CauseOf(log[0]).RunTimeout?
    ensures var cause := Classify(deadlineHit, FirstCause(log, RunSources(withExternal)));
            && (log != [] && CauseOf(log[0]).UserCancel? ==> cause == ByCancel)
            && (log != [] && log[0] == TotalTimer ==> cause == ByTimeout)
            && (log == [] ==> cause == ByFailure)
  {
  }

  /** The last `k` records answer the first `k` calls of the assistant record before them. */
  ghost predicate Block(h: seq<Message>, calls: seq<Chunk>, k: nat)
    requires forall i :: 0 <= i < |calls| ==> calls[i].ToolCallChunk?
  {
    && k <= |calls| && k < |h|
    && var j := |h| - 1 - k;
       h[j].role == Assistant && h[j].content.CallsJson? && h[j].content.calls == Persisted(calls)
       && forall m :: j < m < |h| ==> h[m].role == Tool
  }

  lemma {:induction false} BlockAppend(h: seq<Message>, calls: seq<Chunk>, k: nat, m: Message)
    requires forall i :: 0 <= i < |calls| ==> calls[i].ToolCallChunk?
    requires Correlated(h) && Block(h, calls, k) && k < |calls|
    requires m.role == Tool && m.content.ToolJson?
    requires m.content.providerCallId == Some(calls[k].callId) && m.content.toolName == Some(calls[k].toolName)
    ensures Correlated(h + [m]) && Block(h + [m], calls, k + 1)
  {
    hide *;
    BlockAnswered(h, calls, k, m);
    AppendAnswer(h, m, |h| - 1 - k);
  }

  /** The next result answers the call it is for. */
  lemma {:induction false} BlockAnswered(h: seq<Message>, calls: seq<Chunk>, k: nat, m: Message)
    requires forall i :: 0 <= i < |calls| ==> calls[i].ToolCallChunk?
    requires Block(h, calls, k) && k < |calls|
    requires m.role == Tool && m.content.ToolJson?
    requires m.content.providerCallId == Some(calls[k].callId) && m.content.toolName == Some(calls[k].toolName)
    ensures Answers(h + [m], |h| - 1 - k, |h|) && Block(h + [m], calls, k + 1)
  {
    hide Correlated;
    var longer := h + [m];
    assert longer[|h|] == m && longer[|h| - 1 - k] == h[|h| - 1 - k];
  }

  lemma {:induction false} JoinedSnoc(texts: seq<string>, text: string)
    ensures Joined(texts + [text]) == Joined(texts) + text
    ensures (texts + [text])[..|texts|] == texts
  {
  }

  lemma {:induction false} EmptyPrefix(chunks: seq<Chunk>)
    ensures Texts(chunks[..0]) == [] && Calls(chunks[..0]) == [] && Joined([]) == ""
    ensures Follows(Round([], []), chunks)
  {
  }

  lemma {:induction false} FollowsToken(r: Round, chunks: seq<Chunk>, i: nat)
    requires i < |chunks| && chunks[i].TokenChunk? && r.calls == [] && r.tokens == Texts(chunks[..i])
    ensures Follows(Round(r.tokens + [chunks[i].text], []), chunks)
  {
    TextsStep(chunks, i);
    TextsPrefix(chunks, i + 1);
  }

  class Run {
    const maxToolIterations: int
    const model: nat -> seq<Chunk>
    const accepts: (string, string) -> bool
    const withExternal: bool
    const totalArmed: bool
    const modelArmed: bool
    const toolArmed: bool

    // The rows this run writes.
    var status: RunStatus
    var toolRows: map<nat, ToolStatus>
    var messages: seq<Message>
    ghost const history: seq<Message>

    // The loop's own variables.
    var iterationCount: nat
    var assistantText: string
    var openToolCalls: set<nat>
    var deadlineHit: Option<Cause>
    var nextCallId: nat

    // Abort signals: what has aborted so far, and the timer of the call in progress.
    var log: seq<Source>
    var timer: Option<Source>
    var nextTimer: nat

    // The stream, and its structure.
    var events: seq<Event>
    ghost var rounds: seq<Round>
    ghost var dangling: Option<Dangling>

    // How many aborts had happened when each event was emitted and each round passed its abort check.
    ghost var emittedAt: seq<nat>
    ghost var begunAt: seq<nat>

    // The calls that reached the executor, and those that were completed.
    ghost var executed: seq<Execution>
    ghost var settled: seq<Settlement>

    constructor (maxToolIterations: int, model: nat -> seq<Chunk>, accepts: (string, string) -> bool,
                 withExternal: bool, totalArmed: bool, modelArmed: bool, toolArmed: bool,
                 history: seq<Message>, log: seq<Source>)
      requires Correlated(history)
      requires forall i :: 0 <= i < |log| ==> log[i] == Controller || (log[i] == External && withExternal)
      ensures Fresh() && this.maxToolIterations == maxToolIterations && this.model == model
      ensures messages == history && this.log == log
    {
      this.maxToolIterations, this.model, this.accepts := maxToolIterations, model, accepts;
      this.withExternal, this.totalArmed := withExternal, totalArmed;
      this.modelArmed, this.toolArmed := modelArmed, toolArmed;
      status, toolRows, messages, this.history := Running, map[], history, history;
      iterationCount, assistantText, openToolCalls, deadlineHit, nextCallId := 0, "", {}, None, 0;
      this.log, timer, nextTimer := log, None, 0;
      events, rounds, dangling := [], [], None;
      emittedAt, begunAt, executed, settled := [], [], [], [];
    }

    /** A prepared run about to be driven; cancellations may already have been requested. */
    ghost predicate Fresh()
      reads this
    {
      && status.Running? && toolRows == map[] && iterationCount == 0 && assistantText == ""
      && openToolCalls == {} && deadlineHit.None? && timer.None? && nextTimer == 0 && nextCallId == 0
      && events == [] && rounds == [] && dangling.None? && Correlated(messages)
      && emittedAt == [] && begunAt == [] && executed == [] && settled == [] && history == messages
      && (forall i :: 0 <= i < |log| ==> log[i] == Controller || (log[i] == External && withExternal))
    }

    // ---- Invariants --------------------------------------------------------------------------

    /** The open set is exactly the set of tool-call rows still `started`. */
    ghost predicate OpenIsStarted()
      reads this`openToolCalls, this`toolRows
    {
      forall c :: c in openToolCalls <==> c in toolRows && toolRows[c].ToolStarted?
    }

    /** Every completed event tells the status of its row. */
    ghost predicate EventsMatchRows()
      reads this`rounds, this`toolRows
    {
      forall k :: 0 <= k < |AllCalls(rounds)| ==>
        var c := AllCalls(rounds)[k];
        c.callId in toolRows && toolRows[c.callId] == c.status && !c.status.ToolStarted?
    }

    ghost predicate IdsFresh()
      reads this`toolRows, this`nextCallId, this`log, this`nextTimer, this`timer
    {
      && (forall c :: c in toolRows ==> c < nextCallId)
      && (forall i :: 0 <= i < |log| && log[i].CallTimer? ==> log[i].id < nextTimer)
      && (forall i :: 0 <= i < |log| && log[i].External? ==> withExternal)
      && (timer.Some? ==> timer.value.CallTimer? && timer.value.id < nextTimer)
    }

    /** Rounds before the last are complete and made calls; the last is a prefix of its stream. */
    ghost predicate RoundsFollowModel()
      reads this`rounds
    {
      && (forall k :: 0 <= k < |rounds| ==> Follows(rounds[k], model(k)))
      && (forall k :: 0 <= k < |rounds| - 1 ==> Exhausts(rounds[k], model(k)) && rounds[k].calls != [])
    }

    /** Rounds that went through their whole stream and made calls. */
    ghost predicate Complete(rs: seq<Round>) {
      forall k :: 0 <= k < |rs| ==> Exhausts(rs[k], model(k)) && rs[k].calls != []
    }

    /** The last round went through its whole stream and made no call: it is the answer. */
    ghost predicate Answered()
      reads this`rounds, this`iterationCount, this`assistantText
    {
      && |rounds| == iterationCount + 1
      && Exhausts(rounds[iterationCount], model(iterationCount)) && rounds[iterationCount].calls == []
      && assistantText == Joined(rounds[iterationCount].tokens)
    }

    /** A deadline is on record only if no cancellation came before every deadline. */
    ghost predicate DeadlineIsFirst()
      reads this`log, this`deadlineHit
    {
      deadlineHit.Some? ==>
        deadlineHit.value.RunTimeout? && log != [] && CauseOf(log[0]).RunTimeout?
    }

    /** An abort of the run stops it: no token is emitted and no round passes its check after one. */
    ghost predicate AbortStops()
      reads this`log, this`events, this`emittedAt, this`begunAt
    {
      Checked(log, Sources(), events, emittedAt, begunAt)
    }

    ghost predicate Kept()
      reads this`openToolCalls, this`toolRows, this`rounds, this`nextCallId, this`log, this`nextTimer, this`timer,
            this`deadlineHit, this`messages, this`events, this`emittedAt, this`begunAt
    {
      && OpenIsStarted() && EventsMatchRows() && IdsFresh() && RoundsFollowModel()
      && DeadlineIsFirst() && Correlated(messages) && AbortStops() && |rounds| <= |begunAt|
    }

    /**
     Only accepted calls are executed, each once and under a row, and a row is `completed` only if the
     execution of its call returned an output.
     */
    ghost predicate Executions()
      reads this`executed, this`toolRows
    {
      Accounted(executed, toolRows, accepts)
    }

    /** Every completed call is booked, and every booked call was executed and stored as it should be. */
    ghost predicate Books()
      reads this`settled, this`rounds, this`executed, this`messages
    {
      Booked(settled, rounds, model, accepts) && Balanced(settled, executed, history, messages)
    }

    /** The same of a run that stopped, which may have stopped in the middle of a call. */
    ghost predicate BooksAtEnd()
      reads this`settled, this`rounds, this`executed, this`messages
    {
      Booked(settled, rounds, model, accepts) && AlmostBalanced(settled, executed, history, messages)
    }

    /** The completed event and the row of an accepted call say whether its execution returned an output. */
    ghost predicate StatusTold()
      reads this`settled
    {
      forall i :: 0 <= i < |settled| && accepts(settled[i].call.toolName, settled[i].call.arguments) ==>
        && settled[i].execution.Some?
        && (settled[i].trace.status.ToolCompleted? <==> settled[i].execution.value.result.Ok?)
    }

    lemma {:induction false} BooksTell()
      requires BooksAtEnd()
      ensures StatusTold()
    {
    }

    lemma {:induction false} BooksEnd()
      requires Books()
      ensures BooksAtEnd()
    {
    }

    /** No execution so far outlasted its deadline. */
    ghost predicate NoTimeout()
      reads this`executed
    {
      InTime(executed)
    }

    /**
     At most the last execution outlasted its deadline; once its row is written the run carries that
     deadline.
     */
    ghost predicate TimeoutRecorded()
      reads this`executed, this`deadlineHit, this`openToolCalls
    {
      InTime(executed) || (InTime(executed[..|executed| - 1])
        && (deadlineHit.Some? || executed[|executed| - 1].callId in openToolCalls))
    }

    /** What every step of a run keeps, up to the terminal event. */
    ghost predicate Valid()
      reads this`openToolCalls, this`toolRows, this`rounds, this`nextCallId, this`log, this`nextTimer, this`timer,
            this`deadlineHit, this`messages, this`events, this`emittedAt, this`begunAt, this`dangling
    {
      Kept() && events == Open(rounds, dangling)
    }

    // ---- Signals -----------------------------------------------------------------------------

    function Sources(): set<Source> { RunSources(withExternal) }

    /** The reason of `ctx.abortSignal`. */
    function RunReason(): Option<Cause>
      reads this`log
    {
      FirstCause(log, Sources())
    }

    /** The reason of the signal of the call in progress. */
    function CallReason(): Option<Cause>
      reads this`log, this`timer
    {
      FirstCause(log, Sources() + TimerSources())
    }

    function TimerSources(): set<Source>
      reads this`timer
    {
      if timer.Some? then {timer.value} else {}
    }

    predicate MayFire(s: Source)
      reads this`timer
    {
      || s == Controller
      || (s == External && withExternal)
      || (s == TotalTimer && totalArmed)
      || timer == Some(s)
    }

    /** A cancellation may come at any await, a caller's if there is one, and each deadline that is armed. */
    lemma {:induction false} WhatMayFire(id: nat, scope: Scope)
      requires timer.Some? ==> timer.value.CallTimer?
      ensures MayFire(Controller) && (MayFire(External) <==> withExternal) && (MayFire(TotalTimer) <==> totalArmed)
      ensures MayFire(CallTimer(id, scope)) <==> timer == Some(CallTimer(id, scope))
    {
    }

    ghost predicate Later(before: seq<Source>)
      reads this`log, this`timer
    {
      before <= log && forall i :: |before| <= i < |log| ==> MayFire(log[i])
    }

    /** One `await`: any armed sources abort, in any order. */
    method Await()
      modifies this`log
      ensures Later(old(log)) && (old(AbortStops()) ==> AbortStops())
    {
      var n: nat := *;
      while n > 0
        invariant Later(old(log))
      {
        var s: Source := *;
        if MayFire(s) { log := log + [s]; }
        n := n - 1;
      }
      hide Checked;
      if old(AbortStops()) { CheckedLater(old(log), log, Sources(), events, emittedAt, begunAt); }
    }

    /** A `yield`; the consumer may tear the generator down there. */
    method Emit(e: Event) returns (torn: bool)
      modifies this`log, this`events, this`emittedAt
      ensures Later(old(log)) && events == old(events) + [e]
      ensures old(AbortStops()) && (e.Token? ==> old(RunReason()).None?) ==> AbortStops()
    {
      if AbortStops() && (e.Token? ==> RunReason().None?) {
        assert e.Token? ==> Clear(log, Sources(), |log|) by { assert log[..|log|] == log; }
        hide Checked;
        CheckedMore(log, Sources(), events, emittedAt, begunAt, e, |log|);
      }
      hide Checked;
      emittedAt := emittedAt + [|log|];
      events := events + [e];
      Await();
      torn := *;
    }

    /** A database write or read; when it throws it had no effect. */
    method WriteThrows() returns (throws: bool)
      modifies this`log
      ensures Later(old(log)) && (old(AbortStops()) ==> AbortStops())
    {
      Await();
      throws := *;
    }

    /** A write, or the reads before a model call, in a run that keeps its invariants meanwhile. */
    method WriteValid() returns (throws: bool)
      requires Valid()
      modifies this`log
      ensures Valid() && old(log) <= log
    {
      hide OpenIsStarted;
      hide EventsMatchRows;
      hide RoundsFollowModel;
      hide AbortStops;
      hide Correlated;
      throws := WriteThrows();
    }

    /** A message row is stored. */
    method Append(m: Message)
      requires Valid() && Correlated(messages + [m])
      modifies this`messages
      ensures Valid() && messages == old(messages) + [m]
    {
      hide OpenIsStarted;
      hide EventsMatchRows;
      hide RoundsFollowModel;
      hide AbortStops;
      hide Correlated;
      messages := messages + [m];
    }

    lemma {:induction false} ValidCorrelated()
      requires Valid()
      ensures Correlated(messages)
    {
    }

    /** `deriveCallDeadline`: a fresh timer, when the scope has a timeout. */
    method ArmTimer(scope: Scope, armed: bool)
      requires Valid() && timer.None?
      modifies this`timer, this`nextTimer
      ensures Valid() && TimerSources() == TimerOf(armed, old(nextTimer), scope)
      ensures nextTimer == old(nextTimer) + if armed then 1 else 0
    {
      hide OpenIsStarted;
      hide EventsMatchRows;
      hide RoundsFollowModel;
      hide Open;
      if armed {
        timer := Some(CallTimer(nextTimer, scope));
        nextTimer := nextTimer + 1;
      }
    }

    /** `dispose`: the timer of the call can no longer fire. */
    method DisposeTimer()
      requires Valid()
      modifies this`timer
      ensures Valid() && timer.None?
    {
      timer := None;
    }

    /** `timeoutReason` of the signal of the call in progress. */
    method CallTimeout() returns (fired: Option<Cause>)
      requires Valid()
      ensures fired == TimeoutReason(FirstCause(log, Sources() + TimerSources()))
      ensures fired.Some? ==> fired.value.RunTimeout? && log != [] && CauseOf(log[0]).RunTimeout?
    {
      hide FirstCause;
      TimeoutIsFirst(log, withExternal, TimerSources());
      fired := TimeoutReason(CallReason());
    }

    /** A call deadline that fired promotes the whole run to a timeout. */
    method RecordDeadline(fired: Option<Cause>)
      requires Valid()
      requires fired.Some? ==> fired.value.RunTimeout? && log != [] && CauseOf(log[0]).RunTimeout?
      modifies this`deadlineHit
      ensures Valid() && deadlineHit == if fired.Some? then fired else old(deadlineHit)
    {
      hide OpenIsStarted;
      hide EventsMatchRows;
      hide RoundsFollowModel;
      hide Open;
      if fired.Some? { deadlineHit := fired; }
    }

    // ---- Step: one model call -----------------------------------------------------------------

    /** Relays chunk `i` of the stream, a text chunk. */
    method RelayToken(i: nat) returns (torn: bool)
      requires Valid() && dangling.None? && |rounds| == iterationCount + 1
      requires i < |model(iterationCount)| && model(iterationCount)[i].TokenChunk?
      requires rounds[iterationCount] == Round(Texts(model(iterationCount)[..i]), [])
      requires assistantText == Joined(Texts(model(iterationCount)[..i])) && RunReason().None?
      modifies this`log, this`events, this`emittedAt, this`rounds, this`assistantText
      ensures Valid() && old(log) <= log
      ensures rounds == WithToken(old(rounds), model(iterationCount)[i].text)
      ensures |rounds| == iterationCount + 1 && rounds[..iterationCount] == old(rounds)[..iterationCount]
      ensures rounds[iterationCount] == Round(Texts(model(iterationCount)[..i + 1]), [])
      ensures AllCalls(rounds) == old(AllCalls(rounds))
      ensures assistantText == Joined(Texts(model(iterationCount)[..i + 1]))
    {
      hide Flat;
      hide AllCalls;
      hide Texts;
      hide Calls;
      hide Joined;
      hide Correlated;
      hide AbortStops;
      hide FirstCause;
      var stream := model(iterationCount);
      TextsStep(stream, i);
      FollowsToken(rounds[iterationCount], stream, i);
      FlatWithToken(rounds, stream[i].text);
      JoinedSnoc(Texts(stream[..i]), stream[i].text);
      assistantText := assistantText + stream[i].text;
      torn := Emit(Token(stream[i].text));
      rounds := WithToken(rounds, stream[i].text);
    }

    /** Consumes the stream of the current round. */
    method StreamChunks() returns (exit: Exit, calls: seq<Chunk>)
      requires Valid() && dangling.None? && |rounds| == iterationCount + 1
      requires rounds[iterationCount] == Round([], []) && assistantText == ""
      modifies this`log, this`events, this`emittedAt, this`rounds, this`assistantText
      ensures Valid() && old(log) <= log
      ensures |rounds| == iterationCount + 1 && rounds[..iterationCount] == old(rounds)[..iterationCount]
      ensures rounds[iterationCount].calls == [] && AllCalls(rounds) == old(AllCalls(rounds))
      ensures assistantText == Joined(rounds[iterationCount].tokens)
      ensures exit.Next? ==>
                rounds[iterationCount].tokens == Texts(model(iterationCount)) && calls == Calls(model(iterationCount))
    {
      hide *;
      var stream := model(iterationCount);
      EmptyPrefix(stream);
      calls := [];
      var i := 0;
      while i < |stream|
        invariant 0 <= i <= |stream|
        invariant Valid() && old(log) <= log
        invariant |rounds| == iterationCount + 1 && rounds[..iterationCount] == old(rounds)[..iterationCount]
        invariant rounds[iterationCount] == Round(Texts(stream[..i]), [])
        invariant AllCalls(rounds) == old(AllCalls(rounds))
        invariant assistantText == Joined(Texts(stream[..i])) && calls == Calls(stream[..i])
      {
        AwaitValid();
        var throws: bool := *;
        if throws {
          var code: Option<string> := *;
          return Threw(Thrown(code)), calls;
        }
        if RunReason().Some? { return Threw(Aborted(RunReason().value)), calls; }
        var chunk := stream[i];
        TextsStep(stream, i);
        match chunk {
          case TokenChunk(text) =>
            var torn := RelayToken(i);
            if torn { return Torn, calls; }
          case ToolCallChunk(_, _, _) =>
            calls := calls + [chunk];
          case FinishChunk =>
        }
        i := i + 1;
      }
      assert stream[..i] == stream;
      AwaitValid();
      var throws: bool := *;
      if throws {
        var code: Option<string> := *;
        return Threw(Thrown(code)), calls;
      }
      return Next, calls;
    }

    ghost method BeginRound()
      requires Valid() && dangling.None? && |rounds| == iterationCount
      requires Complete(rounds) && |begunAt| > |rounds|
      modifies this`rounds
      ensures Valid() && rounds == old(rounds) + [Round([], [])] && AllCalls(rounds) == old(AllCalls(rounds))
    {
      hide Flat;
      hide AllCalls;
      hide Texts;
      hide Calls;
      hide Correlated;
      FlatNewRound(rounds);
      EmptyPrefix(model(iterationCount));
      rounds := rounds + [Round([], [])];
    }

    /**
     A model call under its deadline. The deadline promotes the run to a timeout exactly when the
     call throws while its signal carries a timeout; a stream that ends normally is never promoted,
     however long it took.
     */
    method ModelCall() returns (exit: Exit, calls: seq<Chunk>)
      requires Valid() && dangling.None? && timer.None? && |rounds| == iterationCount && assistantText == ""
      requires Complete(rounds) && |begunAt| > |rounds|
      modifies this`log, this`events, this`emittedAt, this`rounds, this`assistantText, this`deadlineHit, this`timer,
               this`nextTimer
      ensures Valid() && old(log) <= log && timer.None?
      ensures |rounds| == iterationCount + 1 && rounds[..iterationCount] == old(rounds)
      ensures rounds[iterationCount].calls == [] && AllCalls(rounds) == old(AllCalls(rounds))
      ensures assistantText == Joined(rounds[iterationCount].tokens)
      ensures exit.Next? ==>
                rounds[iterationCount].tokens == Texts(model(iterationCount)) && calls == Calls(model(iterationCount))
      ensures var reason := FirstCause(log, Sources() + TimerOf(modelArmed, old(nextTimer), ModelScope));
              deadlineHit == if exit.Threw? && reason.Some? && reason.value.RunTimeout? then reason else old(deadlineHit)
      ensures nextTimer == old(nextTimer) + if modelArmed then 1 else 0
    {
      hide Valid;
      hide Exhausts;
      hide FirstCause;
      hide AllCalls;
      BeginRound();
      ArmTimer(ModelScope, modelArmed);
      exit, calls := StreamChunks();
      if exit.Threw? {
        var fired := CallTimeout();
        RecordDeadline(fired);
      }
      DisposeTimer();
    }

    // ---- Step: the tool calls of one round -----------------------------------------------------

    /** The current round has streamed all its text and completed `k` of its calls. */
    ghost predicate Emitted(calls: seq<Chunk>, k: nat)
      reads this`rounds, this`iterationCount
    {
      && calls == Calls(model(iterationCount)) && k <= |calls|
      && |rounds| == iterationCount + 1
      && rounds[iterationCount].tokens == Texts(model(iterationCount))
      && |rounds[iterationCount].calls| == k
    }

    method StartCall(id: nat, toolName: string) returns (torn: bool)
      requires Valid() && dangling.None?
      modifies this`log, this`events, this`emittedAt, this`dangling
      ensures Valid() && old(log) <= log && dangling == Some(Dangling(id, toolName))
    {
      hide Flat;
      hide OpenIsStarted;
      hide EventsMatchRows;
      hide RoundsFollowModel;
      torn := Emit(ToolCallStarted(id, toolName));
      dangling := Some(Dangling(id, toolName));
    }

    /** `toolCalls.create`. */
    method CreateRow(id: nat) returns (throws: bool)
      requires Valid() && id < nextCallId && id !in toolRows
      modifies this`log, this`toolRows, this`openToolCalls
      ensures Valid() && old(log) <= log
      ensures toolRows == if throws then old(toolRows) else old(toolRows)[id := ToolStarted]
      ensures openToolCalls == if throws then old(openToolCalls) else old(openToolCalls) + {id}
    {
      hide AllCalls;
      hide RoundsFollowModel;
      hide Open;
      throws := WriteThrows();
      if !throws {
        toolRows := toolRows[id := ToolStarted];
        openToolCalls := openToolCalls + {id};
      }
    }

    /** `toolCalls.updateResult`, guarded by `status = 'started'`. */
    method FinishRow(id: nat, to: ToolStatus) returns (throws: bool)
      requires Valid() && id in openToolCalls && !to.ToolStarted?
      modifies this`log, this`toolRows, this`openToolCalls
      ensures Valid() && old(log) <= log
      ensures toolRows == if throws then old(toolRows) else old(toolRows)[id := to]
      ensures openToolCalls == if throws then old(openToolCalls) else old(openToolCalls) - {id}
    {
      hide AllCalls;
      hide RoundsFollowModel;
      hide Open;
      throws := WriteThrows();
      if !throws {
        toolRows := toolRows[id := FinishTool(toolRows[id], to)];
        openToolCalls := openToolCalls - {id};
      }
    }

    ghost method RecordCall(c: CallTrace, calls: seq<Chunk>, k: nat)
      requires EventsMatchRows() && RoundsFollowModel() && Emitted(calls, k) && k < |calls|
      requires c.toolName == calls[k].toolName && c.callId in toolRows
      requires toolRows[c.callId] == c.status && !c.status.ToolStarted?
      modifies this`rounds
      ensures EventsMatchRows() && RoundsFollowModel() && Emitted(calls, k + 1)
      ensures rounds == WithCall(old(rounds), c)
      ensures Flat(rounds) == Flat(old(rounds))
        + [ToolCallStarted(c.callId, c.toolName), ToolCallCompleted(c.callId, c.toolName, c.status)]
    {
      hide Flat;
      hide AllCalls;
      hide Texts;
      hide Calls;
      FlatWithCall(rounds, c);
      rounds := WithCall(rounds, c);
    }

    /** The `tool_call_completed` event of the call in progress. */
    method CompleteCall(id: nat, calls: seq<Chunk>, k: nat, st: ToolStatus) returns (torn: bool)
      requires Valid() && Emitted(calls, k) && k < |calls|
      requires dangling == Some(Dangling(id, calls[k].toolName))
      requires id in toolRows && toolRows[id] == st && !st.ToolStarted?
      modifies this`log, this`events, this`emittedAt, this`rounds, this`dangling
      ensures Valid() && old(log) <= log && dangling.None? && Emitted(calls, k + 1)
      ensures rounds[..iterationCount] == old(rounds)[..iterationCount]
      ensures old(rounds) != [] && rounds == WithCall(old(rounds), CallTrace(id, calls[k].toolName, st))
    {
      hide Flat;
      hide AllCalls;
      hide Texts;
      hide Calls;
      hide OpenIsStarted;
      hide EventsMatchRows;
      hide RoundsFollowModel;
      torn := Emit(ToolCallCompleted(id, calls[k].toolName, st));
      RecordCall(CallTrace(id, calls[k].toolName, st), calls, k);
      dangling := None;
    }

    /** The tool result stored as a message that carries the provider id and the tool name. */
    method PersistResult(calls: seq<Chunk>, k: nat, result: Option<string>) returns (throws: bool)
      requires Valid() && forall i :: 0 <= i < |calls| ==> calls[i].ToolCallChunk?
      requires Block(messages, calls, k) && k < |calls|
      modifies this`log, this`messages
      ensures Valid() && old(log) <= log
      ensures messages == if throws then old(messages)
                          else old(messages)
                               + [Message(Tool, ToolJson(Some(calls[k].callId), None, Some(calls[k].toolName), result))]
      ensures !throws ==> Block(messages, calls, k + 1)
    {
      hide Valid;
      hide Block;
      hide Correlated;
      throws := WriteValid();
      if !throws {
        var m := Message(Tool, ToolJson(Some(calls[k].callId), None, Some(calls[k].toolName), result));
        ValidCorrelated();
        BlockAppend(messages, calls, k, m);
        Append(m);
      }
    }

    /** Executes one call under its deadline; an executor that throws counts as a failed result. */
    method Execute(id: nat, call: Chunk) returns (result: Result<Option<string>, string>, fired: Option<Cause>)
      requires Valid() && call.ToolCallChunk? && timer.None?
      modifies this`log, this`timer, this`nextTimer, this`executed
      ensures Valid() && old(log) <= log && timer.None?
      ensures fired == TimeoutReason(FirstCause(log, Sources() + TimerOf(toolArmed, old(nextTimer), ToolScope)))
      ensures fired.Some? ==> fired.value.RunTimeout? && log != [] && CauseOf(log[0]).RunTimeout?
      ensures executed == old(executed) + [Execution(id, call.toolName, call.arguments, result, fired)]
      ensures nextTimer == old(nextTimer) + if toolArmed then 1 else 0
    {
      hide Valid;
      hide FirstCause;
      ArmTimer(ToolScope, toolArmed);
      AwaitValid();
      result := *;
      fired := CallTimeout();
      DisposeTimer();
      executed := executed + [Execution(id, call.toolName, call.arguments, result, fired)];
    }

    /**
     Validates one call and, when it is accepted, executes it. A rejected call fails without reaching
     the executor; an executed one gets the status, the result and the deadline of its execution, the
     deadline being read off its signal after the first `n` aborts.
     */
    method SettleCall(id: nat, call: Chunk)
        returns (throws: bool, st: ToolStatus, result: Option<string>, ghost x: Settlement, ghost n: nat)
      requires Valid() && call.ToolCallChunk? && id in openToolCalls && timer.None? && deadlineHit.None?
      requires Executions() && NoTimeout() && NotExecuted(executed, id)
      modifies this`log, this`toolRows, this`openToolCalls, this`timer, this`nextTimer, this`deadlineHit, this`executed
      ensures Valid() && old(log) <= log && timer.None? && Executions() && TimeoutRecorded()
      ensures toolRows == if throws then old(toolRows) else old(toolRows)[id := st]
      ensures id in toolRows && !st.ToolStarted?
      ensures throws ==> deadlineHit.None?
      ensures !throws && deadlineHit.None? ==> NoTimeout()
      ensures Right(x, accepts) && x.trace == CallTrace(id, call.toolName, st) && x.call == call && x.result == result
      ensures executed == old(executed) + if x.execution.Some? then [x.execution.value] else []
      ensures x.execution.None? ==> deadlineHit.None? && nextTimer == old(nextTimer)
      ensures x.execution.Some? ==>
                && n <= |log| && nextTimer == old(nextTimer) + (if toolArmed then 1 else 0)
                && x.execution.value.timedOut
                   == TimeoutReason(FirstCause(log[..n], Sources() + TimerOf(toolArmed, old(nextTimer), ToolScope)))
                && (!throws ==> deadlineHit == x.execution.value.timedOut)
    {
      hide Valid;
      hide FirstCause;
      hide Accounted;
      ValidIds(id);
      n := 0;
      if !accepts(call.toolName, call.arguments) {
        AccountedFailed(executed, toolRows, accepts, id);
        st, result := ToolFailed, Some(REJECTION);
        x := Settlement(CallTrace(id, call.toolName, st), call, None, result);
        throws := FinishRow(id, st);
        return;
      }
      var r, fired := Execute(id, call);
      ghost var e := executed[|executed| - 1];
      AccountedExecuted(old(executed), toolRows, accepts, e);
      ghost var seen := log;
      n := |log|;
      match r {
        case Ok(output) => st, result := ToolCompleted, output;
        case Err(error) => st, result := ToolFailed, Some(error);
      }
      x := Settlement(CallTrace(id, call.toolName, st), call, Some(e), result);
      throws := FinishRow(id, st);
      assert log[..n] == seen;
      assert executed[..|executed| - 1] == old(executed);
      if !throws { RecordDeadline(fired); }
    }

    lemma {:induction false} ValidIds(id: nat)
      requires Valid() && id in openToolCalls
      ensures id in toolRows && toolRows[id].ToolStarted?
    {
    }

    method AwaitValid()
      requires Valid()
      modifies this`log
      ensures Valid() && old(log) <= log
    {
      Await();
    }

    /** The started event and the row of a call. */
    method OpenCall(id: nat, toolName: string) returns (exit: Exit)
      requires Valid() && dangling.None? && id < nextCallId && id !in toolRows && Executions()
      modifies this`log, this`events, this`emittedAt, this`dangling, this`toolRows, this`openToolCalls
      ensures Valid() && old(log) <= log && Executions() && NotExecuted(executed, id)
      ensures exit.Next? ==> id in openToolCalls && dangling == Some(Dangling(id, toolName))
      ensures forall c :: c in toolRows ==> c in old(toolRows) || c == id
    {
      hide Valid;
      AccountedCreated(executed, toolRows, accepts, id);
      hide Accounted;
      hide NotExecuted;
      var torn := StartCall(id, toolName);
      if torn { return Torn; }
      var code: Option<string> := *;
      var throws := CreateRow(id);
      if throws { return Threw(Thrown(code)); }
      return Next;
    }

    /**
     The completed event and the stored result of a call whose row is settled, as `x` says; `before` are
     the executions before this call's.
     */
    method CloseCall(id: nat, calls: seq<Chunk>, k: nat, st: ToolStatus, result: Option<string>,
                     ghost x: Settlement, ghost before: seq<Execution>) returns (exit: Exit)
      requires Valid() && Emitted(calls, k) && Block(messages, calls, k) && k < |calls|
      requires dangling == Some(Dangling(id, calls[k].toolName))
      requires id in toolRows && toolRows[id] == st && !st.ToolStarted?
      requires Booked(settled, rounds, model, accepts) && Balanced(settled, before, history, messages)
      requires Right(x, accepts) && x.trace == CallTrace(id, calls[k].toolName, st)
      requires x.call == calls[k] && x.result == result
      requires executed == before + if x.execution.Some? then [x.execution.value] else []
      modifies this`log, this`events, this`emittedAt, this`rounds, this`dangling, this`messages, this`settled
      ensures Valid() && old(log) <= log && old(messages) <= messages
      ensures |rounds| == iterationCount + 1 && rounds[..iterationCount] == old(rounds)[..iterationCount]
      ensures BooksAtEnd() && settled == old(settled) + [x]
      ensures exit.Next? ==> Emitted(calls, k + 1) && Block(messages, calls, k + 1) && dangling.None? && Books()
    {
      hide Valid;
      hide Block;
      hide Texts;
      hide Calls;
      hide Booked;
      hide Balanced;
      hide AlmostBalanced;
      hide Right;
      var code: Option<string> := *;
      var torn := CompleteCall(id, calls, k, st);
      BookedMore(settled, old(rounds), model, accepts, x);
      BalancedMore(settled, x, before, executed, history, old(messages));
      settled := settled + [x];
      if torn { return Torn; }
      var throws := PersistResult(calls, k, result);
      if throws { return Threw(Thrown(code)); }
      return Next;
    }

    /** One iteration of the loop over the prepared calls. */
    method RunTool(id: nat, calls: seq<Chunk>, k: nat) returns (exit: Exit)
      requires Valid() && Emitted(calls, k) && Block(messages, calls, k) && k < |calls|
      requires dangling.None? && timer.None? && deadlineHit.None? && Executions() && NoTimeout()
      requires id < nextCallId && id !in toolRows && Books()
      modifies this`log, this`events, this`emittedAt, this`rounds, this`dangling, this`toolRows, this`openToolCalls
      modifies this`messages, this`timer, this`nextTimer, this`deadlineHit, this`executed, this`settled
      ensures Executions() && TimeoutRecorded() && (exit.Next? ==> NoTimeout())
      ensures BooksAtEnd() && (exit.Next? ==> Books())
      ensures Valid() && old(log) <= log && old(messages) <= messages && timer.None?
      ensures |rounds| == iterationCount + 1 && rounds[..iterationCount] == old(rounds)[..iterationCount]
      ensures exit.Next? ==>
                Emitted(calls, k + 1) && Block(messages, calls, k + 1) && dangling.None? && deadlineHit.None?
      ensures forall c :: c in toolRows ==> c in old(toolRows) || c == id
    {
      hide Valid;
      hide Block;
      hide Texts;
      hide Calls;
      hide FirstCause;
      hide Accounted;
      hide NotExecuted;
      hide InTime;
      hide Booked;
      hide Balanced;
      hide AlmostBalanced;
      hide Right;
      BooksEnd();
      exit := OpenCall(id, calls[k].toolName);
      if !exit.Next? { return; }
      var code: Option<string> := *;
      var throws, st, result;
      ghost var x, n;
      throws, st, result, x, n := SettleCall(id, calls[k]);
      BalancedExecuted(settled, old(executed), executed, history, messages);
      if throws { return Threw(Thrown(code)); }
      exit := CloseCall(id, calls, k, st, result, x, old(executed));
      if !exit.Next? { return; }
      if deadlineHit.Some? { return Threw(Aborted(deadlineHit.value)); }
    }

    /** Persists the assistant message with its calls, then runs them in order. */
    method RunTools(calls: seq<Chunk>) returns (exit: Exit)
      requires Valid() && Emitted(calls, 0) && calls != [] && dangling.None? && timer.None? && deadlineHit.None?
      requires Executions() && NoTimeout() && Books()
      modifies this`log, this`events, this`emittedAt, this`rounds, this`dangling, this`toolRows, this`openToolCalls
      modifies this`messages, this`timer, this`nextTimer, this`deadlineHit, this`nextCallId, this`assistantText
      modifies this`executed, this`settled
      ensures Executions() && TimeoutRecorded() && (exit.Next? ==> NoTimeout())
      ensures BooksAtEnd() && (exit.Next? ==> Books())
      ensures Valid() && old(log) <= log && old(messages) <= messages && timer.None?
      ensures |rounds| == iterationCount + 1 && rounds[..iterationCount] == old(rounds)[..iterationCount]
      ensures exit.Next? ==>
                Emitted(calls, |calls|) && dangling.None? && deadlineHit.None? && assistantText == ""
    {
      hide Block;
      hide Valid;
      hide Texts;
      hide Calls;
      hide Accounted;
      hide InTime;
      hide Booked;
      hide Balanced;
      hide AlmostBalanced;
      var first := nextCallId;
      ReserveIds(|calls|);
      var throws := PersistCalls(calls);
      BooksEnd();
      var code: Option<string> := *;
      if throws { return Threw(Thrown(code)); }
      var k := 0;
      while k < |calls|
        invariant 0 <= k <= |calls|
        invariant Valid() && Emitted(calls, k) && Block(messages, calls, k)
        invariant dangling.None? && timer.None? && deadlineHit.None? && Executions() && NoTimeout()
        invariant Books() && BooksAtEnd()
        invariant old(log) <= log && old(messages) <= messages && assistantText == ""
        invariant rounds[..iterationCount] == old(rounds)[..iterationCount]
        invariant nextCallId == first + |calls| && forall c :: c in toolRows ==> c < first + k
      {
        exit := RunTool(first + k, calls, k);
        if !exit.Next? { return; }
        k := k + 1;
      }
      return Next;
    }

    method ReserveIds(n: nat)
      requires Valid()
      modifies this`nextCallId
      ensures Valid() && nextCallId == old(nextCallId) + n
      ensures forall c :: c in toolRows ==> c < old(nextCallId)
    {
      nextCallId := nextCallId + n;
    }

    method PersistCalls(calls: seq<Chunk>) returns (throws: bool)
      requires Valid() && Books() && forall i :: 0 <= i < |calls| ==> calls[i].ToolCallChunk?
      modifies this`log, this`messages, this`assistantText
      ensures Valid() && Books() && old(log) <= log && old(messages) <= messages
      ensures !throws ==> Block(messages, calls, 0) && assistantText == ""
      ensures messages == if throws then old(messages)
                          else old(messages) + [Message(Assistant, CallsJson(old(assistantText), Persisted(calls)))]
    {
      hide Valid;
      hide Correlated;
      hide ToolsOf;
      hide Booked;
      hide Balanced;
      throws := WriteValid();
      if !throws {
        var m := Message(Assistant, CallsJson(assistantText, Persisted(calls)));
        ToolsOfMore(messages, m);
        BalancedStill(settled, executed, history, messages, messages + [m]);
        ValidCorrelated();
        AppendOther(messages, m);
        Append(m);
        assistantText := "";
      }
    }

    // ---- Step: the end of the run ---------------------------------------------------------------

    /** A guarded terminal write to the run's row. */
    method FinishRun(to: RunStatus) returns (throws: bool)
      requires Valid()
      modifies this`log, this`status
      ensures Valid() && old(log) <= log
      ensures status == if throws then old(status) else Finish(old(status), to)
    {
      hide Valid;
      throws := WriteValid();
      if !throws { status := Finish(status, to); }
    }

    /** The final assistant text, stored when there is any. */
    method PersistText() returns (throws: bool)
      requires Valid() && BooksAtEnd()
      modifies this`log, this`messages
      ensures Valid() && BooksAtEnd() && old(log) <= log
      ensures messages == if throws || assistantText == "" then old(messages)
                          else old(messages) + [Message(Assistant, Text(assistantText))]
    {
      hide Valid;
      hide Correlated;
      hide ToolsOf;
      hide Booked;
      hide AlmostBalanced;
      if assistantText == "" { return false; }
      throws := WriteValid();
      if !throws {
        var m := Message(Assistant, Text(assistantText));
        ToolsOfMore(messages, m);
        BalancedStill(settled, executed, history, messages, messages + [m]);
        ValidCorrelated();
        AppendOther(messages, m);
        Append(m);
      }
    }

    function Limit(): nat { if maxToolIterations < 0 then 0 else maxToolIterations }

    lemma {:induction false} AnsweredNow()
      requires Valid() && |rounds| == iterationCount + 1 && rounds[iterationCount].calls == []
      requires rounds[iterationCount].tokens == Texts(model(iterationCount)) && Calls(model(iterationCount)) == []
      requires assistantText == Joined(rounds[iterationCount].tokens)
      ensures Answered()
    {
    }

    lemma {:induction false} CompleteNow(calls: seq<Chunk>)
      requires Valid() && Emitted(calls, |calls|) && calls != [] && Complete(rounds[..iterationCount])
      ensures Complete(rounds[..iterationCount + 1])
    {
      hide Texts;
      hide Calls;
      hide Correlated;
      var rs := rounds[..iterationCount + 1];
      forall k | 0 <= k < |rs| ensures Exhausts(rs[k], model(k)) && rs[k].calls != [] {
        if k < iterationCount { assert rs[k] == rounds[..iterationCount][k]; }
      }
    }

    /** Where a round may begin: every earlier one is complete, and nothing is open or timed out. */
    ghost predicate AtTop()
      reads this
    {
      && Valid() && timer.None? && dangling.None? && deadlineHit.None? && assistantText == ""
      && Executions() && NoTimeout() && Complete(rounds) && Books()
      && |begunAt| == |rounds| == iterationCount
    }

    /** The first half of a pass: the abort check, the reads and the model call. */
    method AskModel() returns (exit: Exit, calls: seq<Chunk>)
      requires AtTop()
      modifies this`log, this`events, this`emittedAt, this`rounds, this`assistantText, this`deadlineHit
      modifies this`timer, this`nextTimer, this`begunAt
      ensures Valid() && old(log) <= log && timer.None? && |begunAt| <= iterationCount + 1
      ensures |rounds| <= iterationCount + 1 && |rounds| >= iterationCount && rounds[..iterationCount] == old(rounds)
      ensures |rounds| > iterationCount ==> rounds[iterationCount].calls == []
      ensures Books()
      ensures exit.Next? ==>
                && |rounds| == |begunAt| == iterationCount + 1 && Emitted(calls, 0)
                && assistantText == Joined(rounds[iterationCount].tokens) && deadlineHit.None?
    {
      hide Valid;
      hide Texts;
      hide Calls;
      hide Exhausts;
      hide FirstCause;
      hide Booked;
      hide Balanced;
      var code: Option<string> := *;
      calls := [];
      assert rounds[..iterationCount] == rounds;
      if RunReason().Some? { return Threw(Aborted(RunReason().value)), calls; }
      MarkRound();
      var throws := WriteValid();
      if throws { return Threw(Thrown(code)), calls; }
      exit, calls := ModelCall();
      BookedQuietly(settled, old(rounds), rounds, model, accepts);
    }

    /** One pass of the loop; `answered` tells that the model made no call. */
    method OneRound() returns (exit: Exit, answered: bool)
      requires AtTop() && iterationCount < maxToolIterations
      modifies this`log, this`events, this`emittedAt, this`rounds, this`dangling, this`toolRows, this`openToolCalls,
               this`messages
      modifies this`timer, this`nextTimer, this`deadlineHit, this`nextCallId, this`assistantText, this`iterationCount
      modifies this`begunAt, this`executed, this`settled
      ensures Valid() && old(log) <= log && old(messages) <= messages && timer.None?
      ensures Executions() && TimeoutRecorded() && |rounds| <= old(iterationCount) + 1
      ensures BooksAtEnd() && (exit.Next? ==> Books())
      ensures exit.Next? && answered ==>
                && dangling.None? && deadlineHit.None? && iterationCount == old(iterationCount)
                && Answered() && Complete(rounds[..|rounds| - 1])
      ensures exit.Next? && !answered ==> AtTop() && iterationCount == old(iterationCount) + 1
    {
      hide Valid;
      hide Complete;
      hide Texts;
      hide Calls;
      hide Answered;
      hide Accounted;
      hide InTime;
      hide Joined;
      hide Booked;
      hide Balanced;
      hide AlmostBalanced;
      answered := false;
      var calls;
      exit, calls := AskModel();
      BooksEnd();
      if !exit.Next? { return; }
      assert rounds[..iterationCount] == old(rounds);
      if calls == [] {
        AnsweredNow();
        return Next, true;
      }
      exit := RunTools(calls);
      if !exit.Next? { return; }
      CompleteNow(calls);
      NextIteration();
      assert rounds[..iterationCount] == rounds;
    }

    /** The rounds: until an answer, the iteration limit, an error or a teardown. */
    method Iterate() returns (exit: Exit)
      requires AtTop() && iterationCount == 0
      modifies this`log, this`events, this`emittedAt, this`rounds, this`dangling, this`toolRows, this`openToolCalls,
               this`messages
      modifies this`timer, this`nextTimer, this`deadlineHit, this`nextCallId, this`assistantText, this`iterationCount
      modifies this`begunAt, this`executed, this`settled
      ensures Executions() && TimeoutRecorded() && (exit.Next? ==> deadlineHit.None?)
      ensures BooksAtEnd() && (exit.Next? ==> Books())
      ensures Valid() && old(log) <= log && old(messages) <= messages && timer.None?
      ensures |rounds| <= Limit()
      ensures exit.Next? ==> dangling.None?
      ensures exit.Next? && iterationCount < maxToolIterations ==> Answered() && Complete(rounds[..|rounds| - 1])
      ensures exit.Next? && iterationCount >= maxToolIterations ==>
                |rounds| == Limit() && Complete(rounds) && assistantText == ""
    {
      hide Valid;
      hide Complete;
      hide Answered;
      hide Accounted;
      hide InTime;
      hide Booked;
      hide Balanced;
      hide AlmostBalanced;
      BooksEnd();
      while iterationCount < maxToolIterations
        invariant AtTop() && BooksAtEnd() && old(log) <= log && old(messages) <= messages && iterationCount <= Limit()
        decreases maxToolIterations - iterationCount
      {
        var answered;
        exit, answered := OneRound();
        if !exit.Next? || answered { return; }
      }
      return Next;
    }

    /** A round has passed its abort check: the signal of the run is clear. */
    ghost method MarkRound()
      requires Valid() && RunReason().None?
      modifies this`begunAt
      ensures Valid() && begunAt == old(begunAt) + [|log|]
    {
      hide FirstCause;
      hide OpenIsStarted;
      hide EventsMatchRows;
      hide RoundsFollowModel;
      hide Open;
      assert log[..|log|] == log;
      begunAt := begunAt + [|log|];
    }

    method NextIteration()
      requires Valid()
      modifies this`iterationCount
      ensures Valid() && iterationCount == old(iterationCount) + 1
    {
      iterationCount := iterationCount + 1;
    }

    /** Everything inside the outer `try` up to the terminal event. */
    method Body() returns (exit: Exit, terminal: Option<Event>)
      requires Fresh()
      modifies this
      ensures Valid() && old(log) <= log && old(messages) <= messages && timer.None?
      ensures |rounds| <= Limit() && Executions() && TimeoutRecorded() && (exit.Next? ==> deadlineHit.None?)
      ensures BooksAtEnd()
      ensures !exit.Next? ==> terminal.None? && status.Running?
      ensures exit.Next? ==>
                && dangling.None? && terminal.Some? && !status.Running?
                && (|| (terminal.value == MessageCompleted && status.Completed? && Delivered())
                    || (terminal.value == RunFailed(MaxIterationsCode) && status.Failed?
                        && |rounds| == Limit() && Complete(rounds)))
    {
      hide Valid;
      hide Answered;
      hide Complete;
      hide Accounted;
      hide InTime;
      hide Booked;
      hide Balanced;
      hide AlmostBalanced;
      var torn := Opening();
      BooksEnd();
      if torn { return Torn, None; }
      var code: Option<string> := *;
      exit := Iterate();
      if !exit.Next? { return exit, None; }
      var throws := PersistText();
      if throws { return Threw(Thrown(code)), None; }
      if iterationCount >= maxToolIterations {
        throws := FinishRun(Failed);
        if throws { return Threw(Thrown(code)), None; }
        return Next, Some(RunFailed(MaxIterationsCode));
      }
      throws := FinishRun(Completed);
      if throws { return Threw(Thrown(code)), None; }
      return Next, Some(MessageCompleted);
    }

    /** The answer is complete, and it is the last stored message unless it is empty. */
    ghost predicate Delivered()
      reads this`rounds, this`iterationCount, this`assistantText, this`messages
    {
      && Answered() && Complete(rounds[..|rounds| - 1])
      && (assistantText != "" ==>
            messages != [] && messages[|messages| - 1] == Message(Assistant, Text(assistantText)))
    }

    /** The opening `message_started`. */
    method Opening() returns (torn: bool)
      requires Fresh()
      modifies this`log, this`events, this`emittedAt
      ensures AtTop() && old(log) <= log
    {
      torn := Emit(MessageStarted);
    }

    /** The `catch` block: classify, write the matching terminal status, emit the terminal event. */
    method HandleError(why: Failure) returns (terminal: Event, lost: bool)
      requires Valid() && status.Running?
      modifies this`log, this`status, this`events, this`emittedAt
      ensures Kept() && old(log) <= log
      ensures terminal.RunFailed? && (terminal.code.ErrorCode? <==> deadlineHit.None? && old(RunReason()).None?)
      ensures terminal == RunFailed(TimedOutCode) <==>
                deadlineHit.Some? || (old(RunReason()).Some? && old(RunReason()).value.RunTimeout?)
      ensures terminal == RunFailed(CancelledCode) <==> deadlineHit.None? && old(RunReason()) == Some(UserCancel)
      ensures forall c :: terminal == RunFailed(ErrorCode(c)) ==> Named(why, c)
      ensures events == Open(rounds, dangling) + [terminal]
      ensures status == if lost then Running else StatusNamed(terminal)
    {
      hide FirstCause;
      hide Valid;
      hide Kept;
      hide Open;
      var cause := Classify(deadlineHit, RunReason());
      var code;
      match cause {
        case ByTimeout =>
          lost := FinishRun(TimedOut);
          code := TimedOutCode;
        case ByCancel =>
          lost := FinishRun(Cancelled);
          code := CancelledCode;
        case ByFailure =>
          lost := FinishRun(Failed);
          code := ErrorCode(if why.Thrown? && why.code.Some? then why.code.value else "INTERNAL");
      }
      terminal := RunFailed(code);
      var _ := EmitTerminal(terminal);
    }

    /** The `finally` block: every tool call still open is closed `failed`, each write best-effort. */
    method Finalize() returns (lost: bool)
      requires Kept()
      modifies this`log, this`toolRows
      ensures Later(old(log)) && toolRows.Keys == old(toolRows).Keys && EventsMatchRows() && AbortStops()
      ensures forall c :: c in toolRows ==>
                toolRows[c] == old(toolRows)[c] || (old(toolRows)[c].ToolStarted? && toolRows[c].ToolFailed?)
      ensures !lost ==> forall c :: c in toolRows ==> !toolRows[c].ToolStarted?
    {
      hide AllCalls;
      hide RoundsFollowModel;
      hide Open;
      hide Checked;
      hide Correlated;
      hide IdsFresh;
      hide DeadlineIsFirst;
      assert forall c :: c in openToolCalls <==> c in toolRows && toolRows[c].ToolStarted?;
      hide OpenIsStarted;
      lost := false;
      var remaining := openToolCalls;
      while |remaining| != 0
        invariant Later(old(log)) && toolRows.Keys == old(toolRows).Keys && remaining <= openToolCalls && AbortStops()
        invariant forall c :: c in toolRows ==>
                    toolRows[c] == old(toolRows)[c] || (old(toolRows)[c].ToolStarted? && toolRows[c].ToolFailed?)
        invariant !lost ==> forall c :: c in toolRows && toolRows[c].ToolStarted? ==> c in remaining
        decreases |remaining|
      {
        var callId :| callId in remaining;
        var throws := WriteThrows();
        if throws {
          lost := true;
        } else {
          toolRows := toolRows[callId := FinishTool(toolRows[callId], ToolFailed)];
        }
        remaining := remaining - {callId};
      }
    }

    /** What the stream, the run row and the abort log say about each other once a run is over. */
    ghost predicate Settled(terminal: Option<Event>, lost: bool)
      reads this`events, this`rounds, this`dangling, this`status, this`messages
      reads this`iterationCount, this`assistantText
    {
      // The stream: an opening, rounds that follow the model, and one terminal event unless torn down.
      && events == Open(rounds, dangling) + (if terminal.Some? then [terminal.value] else [])
      && (terminal.Some? ==> IsTerminal(terminal.value) && (dangling.Some? ==> terminal.value.RunFailed?))
      && |rounds| <= Limit() && RoundsFollowModel() && Correlated(messages)
      && (terminal == Some(MessageCompleted) ==> Delivered())
      && (terminal == Some(RunFailed(MaxIterationsCode)) ==> |rounds| == Limit() && Complete(rounds))
      // The terminal event names the persisted status, unless the write of that status was lost.
      && (terminal.Some? && !lost ==> status == StatusNamed(terminal.value))
      && (terminal.None? || lost ==> status.Running?)
      && (lost ==> terminal.Some? && terminal.value.RunFailed? && !terminal.value.code.MaxIterationsCode?)
    }

    /**
     What is reported is what aborted. A run that left its `try` block is classified after `n` aborts:
     it is reported as timed out exactly when a call deadline is on record or the run's signal carries
     a deadline, as cancelled exactly when the signal carries a cancel instead, and with the code of an
     error exactly when nothing had aborted it. Any other end has no deadline on record.
     */
    ghost predicate Reported(terminal: Option<Event>, n: nat, why: Option<Failure>)
      reads this`log, this`deadlineHit
    {
      && n <= |log|
      && (terminal.Some? ==>
            var reason := FirstCause(log[..n], Sources());
            match terminal.value
            case RunFailed(TimedOutCode) => deadlineHit.Some? || (reason.Some? && reason.value.RunTimeout?)
            case RunFailed(CancelledCode) => deadlineHit.None? && reason == Some(UserCancel)
            case RunFailed(ErrorCode(code)) => deadlineHit.None? && reason.None? && why.Some? && Named(why.value, code)
            case _ => deadlineHit.None?)
    }

    /** The first cause to abort wins: no cancel is reported as a timeout, no total deadline as a cancel. */
    ghost predicate FirstCauseReported(terminal: Option<Event>)
      reads this`log, this`deadlineHit
    {
      && (log != [] && CauseOf(log[0]).UserCancel? ==> terminal != Some(RunFailed(TimedOutCode)))
      && (FirstCause(log, Sources()).Some? && FirstCause(log, Sources()).value.RunTimeout? ==>
            terminal != Some(RunFailed(CancelledCode)))
      && (FirstCause(log, Sources()).None? ==>
            terminal != Some(RunFailed(CancelledCode))
            && (terminal == Some(RunFailed(TimedOutCode)) ==> deadlineHit.Some?))
    }

    lemma {:induction false} ReportedIsFirst(terminal: Option<Event>, n: nat, why: Option<Failure>)
      requires Reported(terminal, n, why) && DeadlineIsFirst()
      requires forall i :: 0 <= i < |log| && log[i].External? ==> withExternal
      ensures FirstCauseReported(terminal)
    {
      assert log == log[..n] + log[n..];
      if FirstCause(log[..n], Sources()).Some? {
        FirstCauseStable(log[..n], log[n..], Sources());
      }
    }

    /** The `try` and `catch` blocks; `n` aborts had happened when an error was classified. */
    method Conclude() returns (terminal: Option<Event>, lost: bool, ghost n: nat, ghost why: Option<Failure>)
      requires Fresh()
      modifies this
      ensures Kept() && Settled(terminal, lost) && Reported(terminal, n, why)
      ensures Executions() && TimeoutRecorded() && BooksAtEnd()
    {
      hide OpenIsStarted;
      hide EventsMatchRows;
      hide Delivered;
      hide Complete;
      hide Correlated;
      hide FirstCause;
      hide Open;
      hide RoundsFollowModel;
      hide AbortStops;
      hide Accounted;
      hide InTime;
      var exit;
      exit, terminal := Body();
      lost := false;
      n := |log|;
      why := if exit.Threw? then Some(exit.why) else None;
      if exit.Next? {
        var _ := EmitTerminal(terminal.value);
      } else if exit.Threw? {
        ghost var seen := log;
        var e;
        e, lost := HandleError(exit.why);
        assert log[..n] == seen;
        terminal := Some(e);
      }
    }

    /**
     A whole run, driven until the generator ends or is torn down. `lost` tells that the terminal
     write of the `catch` block threw, `lostRow` that a finalizing tool-call write did; the code
     swallows both.
     */
    method RunAgentLoop()
        returns (terminal: Option<Event>, lost: bool, lostRow: bool, ghost n: nat, ghost why: Option<Failure>)
      requires Fresh()
      modifies this
      ensures Settled(terminal, lost) && Reported(terminal, n, why) && FirstCauseReported(terminal)
      ensures AbortStops() && |rounds| <= |begunAt|
      ensures Executions() && TimeoutRecorded() && EventsMatchRows() && BooksAtEnd() && StatusTold()
      ensures !lostRow ==> forall c :: c in toolRows ==> !toolRows[c].ToolStarted?
    {
      hide Settled;
      hide Accounted;
      hide InTime;
      hide FirstCause;
      hide OpenIsStarted;
      hide RoundsFollowModel;
      hide Open;
      hide Checked;
      hide StatusTold;
      terminal, lost, n, why := Conclude();
      BooksTell();
      ghost var rows, seen := toolRows, log;
      lostRow := Finalize();
      assert log[..n] == seen[..n];
      AccountedFinal(executed, rows, toolRows, accepts);
      assert forall i :: 0 <= i < |log| && log[i].External? ==> withExternal;
      ReportedIsFirst(terminal, n, why);
    }

    /**
     The run as `drive` leaves it. A cancellation that was requested, which aborted the controller, is
     written once more at the end. The terminal event still names the status of the row, unless the
     write of that status was lost; then the row is cancelled or still running.
     */
    method Drive() returns (terminal: Option<Event>, lost: bool, lostRow: bool)
      requires Fresh()
      modifies this
      ensures terminal.Some? && !lost ==> IsTerminal(terminal.value) && status == StatusNamed(terminal.value)
      ensures terminal.None? || lost ==> status.Running? || (status.Cancelled? && Controller in log)
      ensures events == Open(rounds, dangling) + (if terminal.Some? then [terminal.value] else [])
    {
      hide Reported;
      hide FirstCauseReported;
      hide AbortStops;
      hide Executions;
      hide TimeoutRecorded;
      hide EventsMatchRows;
      hide Delivered;
      hide Complete;
      hide RoundsFollowModel;
      hide Open;
      ghost var n, why;
      terminal, lost, lostRow, n, why := RunAgentLoop();
      if Controller in log {
        var throws := WriteThrows();
        if !throws { status := Finish(status, Cancelled); }
      }
    }

    /** The terminal event of a run that ended inside the `try` block. */
    method EmitTerminal(e: Event) returns (torn: bool)
      requires Valid() && IsTerminal(e)
      modifies this`log, this`events, this`emittedAt
      ensures Kept() && old(log) <= log && events == Open(rounds, dangling) + [e]
    {
      hide OpenIsStarted;
      hide EventsMatchRows;
      hide RoundsFollowModel;
      hide AbortStops;
      hide Correlated;
      hide Open;
      torn := Emit(e);
    }
  }
}
