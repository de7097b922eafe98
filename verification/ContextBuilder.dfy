/**
 Building the model context from a session's history (packages/runtime/src/context-builder.ts) with
 the last-n memory strategy (packages/runtime/src/memory/last-n.ts).
 */
module ContextBuilder {
  import opened Common
  import opened History

  datatype ModelCall = ModelCall(callId: string, toolName: string, arguments: string)

  datatype ModelMessage = ModelMessage(role: Role, content: string, toolCalls: Option<seq<ModelCall>>,
                                       toolCallId: Option<string>, toolName: Option<string>)

  // ---- Memory --------------------------------------------------------------------------------------

  function NonSystem(h: seq<Message>): seq<Message> {
    if h == [] then []
    else if h[|h| - 1].role == System then NonSystem(h[..|h| - 1])
    else NonSystem(h[..|h| - 1]) + [h[|h| - 1]]
  }

  /** `slice(start)`: a negative start counts from the end, and minus zero is zero. */
  function Slice<T>(s: seq<T>, start: int): seq<T> {
    if start < -|s| then s
    else if start < 0 then s[|s| + start..]
    else if start <= |s| then s[start..]
    else []
  }

  function Trim(h: seq<Message>, maxMessages: int): seq<Message> {
    var records := NonSystem(h);
    if |records| <= maxMessages then records else Slice(records, -maxMessages)
  }

  /** Trimming keeps a tail; the bound is kept exactly when it is positive or there is nothing to cut. */
  lemma {:induction false} TrimIsTail(h: seq<Message>, maxMessages: int)
    ensures var records, kept := NonSystem(h), Trim(h, maxMessages);
            && |kept| <= |records| && kept == records[|records| - |kept|..]
            && (maxMessages > 0 ==> |kept| == if |records| <= maxMessages then |records| else maxMessages)
            && (maxMessages == 0 ==> kept == records)
            && (|kept| <= maxMessages <==> maxMessages > 0 || (maxMessages == 0 && records == []))
  {
  }

  lemma {:induction false} NonSystemRoles(h: seq<Message>)
    ensures forall i :: 0 <= i < |NonSystem(h)| ==> NonSystem(h)[i].role != System
  {
    if h != [] { NonSystemRoles(h[..|h| - 1]); }
  }

  // ---- Mapping -------------------------------------------------------------------------------------

  function Or(a: Option<string>, b: Option<string>): Option<string> {
    if a.Some? then a else b
  }

  function Get(a: Option<string>): string {
    if a.Some? then a.value else ""
  }

  function CallOf(c: PersistedCall): ModelCall {
    ModelCall(Get(Or(c.providerCallId, c.callId)), Get(c.toolName), c.arguments)
  }

  function CallsOf(calls: seq<PersistedCall>): (r: seq<ModelCall>)
    ensures |r| == |calls| && forall i :: 0 <= i < |calls| ==> r[i] == CallOf(calls[i])
  {
    seq(|calls|, i requires 0 <= i < |calls| => CallOf(calls[i]))
  }

  /** The name of the latest call with each id. */
  function NamesAfter(names: map<string, string>, calls: seq<PersistedCall>): map<string, string> {
    if calls == [] then names
    else
      var before, c := NamesAfter(names, calls[..|calls| - 1]), CallOf(calls[|calls| - 1]);
      if c.callId != "" && c.toolName != "" then before[c.callId := c.toolName] else before
  }

  function Names(records: seq<Message>): map<string, string> {
    if records == [] then map[]
    else
      var before, m := Names(records[..|records| - 1]), records[|records| - 1];
      if m.role == Assistant && m.content.CallsJson? then NamesAfter(before, m.content.calls) else before
  }

  /** The text of a record: plain text is itself, and `render` is the JSON it was stored as otherwise. */
  function Raw(c: Content, render: Content -> string): string {
    if c.Text? then c.text else render(c)
  }

  function Plain(role: Role, text: string): ModelMessage {
    ModelMessage(role, text, None, None, None)
  }

  /** A tool record that can be mapped: it has a result and an id of its call. */
  predicate NamesACall(c: Content) {
    c.ToolJson? && c.result.Some? && (c.providerCallId.Some? || c.toolCallId.Some?)
  }

  function Mapped(m: Message, names: map<string, string>, render: Content -> string): ModelMessage {
    match m.role
    case Assistant =>
      if m.content.CallsJson? then ModelMessage(Assistant, m.content.text, Some(CallsOf(m.content.calls)), None, None)
      else Plain(Assistant, Raw(m.content, render))
    case Tool =>
      if NamesACall(m.content) then
        var id := Or(m.content.providerCallId, m.content.toolCallId);
        var name := if m.content.toolName.Some? then m.content.toolName
                    else if id.value in names then Some(names[id.value]) else None;
        ModelMessage(Tool, m.content.result.value, None, id, name)
      else Plain(Tool, Raw(m.content, render))
    case _ => Plain(m.role, Raw(m.content, render))
  }

  function Context(records: seq<Message>, render: Content -> string): seq<ModelMessage> {
    if records == [] then []
    else
      var before := records[..|records| - 1];
      Context(before, render) + [Mapped(records[|records| - 1], Names(before), render)]
  }

  /** What a message shows of the record it was made from. */
  ghost predicate Tells(m: Message, out: ModelMessage, render: Content -> string) {
    && out.role == m.role
    && match m.content
       case CallsJson(text, calls) =>
         if m.role == Assistant then
           && out.content == text && out.toolCallId.None? && out.toolName.None?
           && out.toolCalls.Some? && TellsCalls(calls, out.toolCalls.value)
         else IsPlain(out, render(m.content))
       case ToolJson(providerCallId, toolCallId, toolName, result) =>
         if m.role == Tool && result.Some? && (providerCallId.Some? || toolCallId.Some?) then
           && out.content == result.value && out.toolCalls.None?
           && (providerCallId.Some? ==> out.toolCallId == providerCallId)
           && (providerCallId.None? ==> out.toolCallId == toolCallId)
           && (toolName.Some? ==> out.toolName == toolName)
         else IsPlain(out, render(m.content))
       case Text(text) => IsPlain(out, text)
  }

  ghost predicate IsPlain(out: ModelMessage, text: string) {
    out.content == text && out.toolCalls.None? && out.toolCallId.None? && out.toolName.None?
  }

  /** Call by call: the arguments, the name, and the provider's id or else the legacy one. */
  ghost predicate TellsCalls(calls: seq<PersistedCall>, out: seq<ModelCall>) {
    && |out| == |calls|
    && forall i :: 0 <= i < |calls| ==>
         && out[i].arguments == calls[i].arguments
         && (calls[i].toolName == Some(out[i].toolName) || (calls[i].toolName.None? && out[i].toolName == ""))
         && (calls[i].providerCallId.Some? ==> calls[i].providerCallId == Some(out[i].callId))
         && (calls[i].providerCallId.None? && calls[i].callId.Some? ==> calls[i].callId == Some(out[i].callId))
         && (calls[i].providerCallId.None? && calls[i].callId.None? ==> out[i].callId == "")
  }

  lemma {:induction false} MappedTells(m: Message, names: map<string, string>, render: Content -> string)
    ensures Tells(m, Mapped(m, names, render), render)
  {
  }

  lemma {:induction false} ContextLength(records: seq<Message>, render: Content -> string)
    ensures |Context(records, render)| == |records|
  {
    hide Mapped;
    hide Names;
    if records != [] { ContextLength(records[..|records| - 1], render); }
  }

  lemma {:induction false} ContextAt(records: seq<Message>, i: nat, render: Content -> string)
    requires i < |records|
    ensures |Context(records, render)| == |records|
    ensures Context(records, render)[i] == Mapped(records[i], Names(records[..i]), render)
  {
    hide Mapped;
    hide Names;
    var before := records[..|records| - 1];
    ContextLength(before, render);
    if i < |before| {
      ContextAt(before, i, render);
      assert before[..i] == records[..i];
    }
  }

  lemma {:induction false} ContextEmpty(records: seq<Message>, render: Content -> string)
    requires |records| == 0
    ensures Context(records, render) == [] && Names(records) == map[]
  {
  }

  lemma {:induction false} ContextStep(records: seq<Message>, i: nat, render: Content -> string)
    requires i < |records|
    ensures Context(records[..i + 1], render)
              == Context(records[..i], render) + [Mapped(records[i], Names(records[..i]), render)]
    ensures Names(records[..i + 1])
         == if records[i].role == Assistant && records[i].content.CallsJson?
            then NamesAfter(Names(records[..i]), records[i].content.calls) else Names(records[..i])
  {
    assert records[..i + 1][..i] == records[..i];
  }

  lemma {:induction false} Regroup<T>(a: seq<T>, b: seq<T>, x: T)
    ensures a + (b + [x]) == a + b + [x]
  {
  }

  lemma {:induction false} CallsStep(names: map<string, string>, calls: seq<PersistedCall>, i: nat)
    requires i < |calls|
    ensures CallsOf(calls[..i + 1]) == CallsOf(calls[..i]) + [CallOf(calls[i])]
    ensures NamesAfter(names, calls[..i + 1])
         == var before, c := NamesAfter(names, calls[..i]), CallOf(calls[i]);
            if c.callId != "" && c.toolName != "" then before[c.callId := c.toolName] else before
  {
    assert calls[..i + 1][..i] == calls[..i];
  }

  class ContextBuilder {
    const systemPrompt: string
    const maxMessages: int
    const render: Content -> string
    var legacyToolNameByCallId: map<string, string>

    constructor (systemPrompt: string, maxMessages: int, render: Content -> string)
      ensures this.systemPrompt == systemPrompt && this.maxMessages == maxMessages && this.render == render
    {
      this.systemPrompt, this.maxMessages, this.render := systemPrompt, maxMessages, render;
      legacyToolNameByCallId := map[];
    }

    /** The prompt, if there is one, and then one message for every kept record. */
    method Build(history: seq<Message>) returns (messages: seq<ModelMessage>)
      modifies this
      ensures messages == Preamble(systemPrompt) + Context(Trim(history, maxMessages), render)
      ensures legacyToolNameByCallId == Names(Trim(history, maxMessages))
      ensures TellsAll(systemPrompt, Trim(history, maxMessages), messages, render)
    {
      messages := [];
      legacyToolNameByCallId := map[];
      if systemPrompt != "" { messages := messages + [Plain(System, systemPrompt)]; }
      var trimmed := Trim(history, maxMessages);
      NonSystemRoles(history);
      TrimIsTail(history, maxMessages);
      hide Trim;
      hide NonSystem;
      hide Preamble;
      var i := 0;
      ContextEmpty(trimmed[..0], render);
      hide Context;
      hide Names;
      hide Raw;
      while i < |trimmed|
        invariant i <= |trimmed|
        invariant messages == Preamble(systemPrompt) + Context(trimmed[..i], render)
        invariant legacyToolNameByCallId == Names(trimmed[..i])
      {
        ContextStep(trimmed, i, render);
        Regroup(Preamble(systemPrompt), Context(trimmed[..i], render), Mapped(trimmed[i], Names(trimmed[..i]), render));
        var record := trimmed[i];
        match record.role {
          case System =>
          case User =>
            messages := messages + [Plain(User, Raw(record.content, render))];
          case Assistant =>
            var m := MapAssistantMessage(record);
            messages := messages + [m];
          case Tool =>
            var m := MapToolMessage(record);
            messages := messages + [m];
        }
        i := i + 1;
      }
      assert trimmed[..i] == trimmed;
      hide *;
      ContextTells(systemPrompt, trimmed, render);
    }

    method MapAssistantMessage(record: Message) returns (m: ModelMessage)
      requires record.role == Assistant
      modifies this
      ensures m == Mapped(record, old(legacyToolNameByCallId), render)
      ensures legacyToolNameByCallId == if record.content.CallsJson?
                                        then NamesAfter(old(legacyToolNameByCallId), record.content.calls)
                                        else old(legacyToolNameByCallId)
    {
      if !record.content.CallsJson? { return Plain(Assistant, Raw(record.content, render)); }
      var calls := record.content.calls;
      var mapped: seq<ModelCall> := [];
      var i := 0;
      while i < |calls|
        invariant i <= |calls| && mapped == CallsOf(calls[..i])
        invariant legacyToolNameByCallId == NamesAfter(old(legacyToolNameByCallId), calls[..i])
      {
        CallsStep(old(legacyToolNameByCallId), calls, i);
        hide NamesAfter;
        hide CallsOf;
        var callId := Get(Or(calls[i].providerCallId, calls[i].callId));
        var toolName := Get(calls[i].toolName);
        if callId != "" && toolName != "" {
          legacyToolNameByCallId := legacyToolNameByCallId[callId := toolName];
        }
        mapped := mapped + [ModelCall(callId, toolName, calls[i].arguments)];
        i := i + 1;
      }
      assert calls[..i] == calls;
      m := ModelMessage(Assistant, record.content.text, Some(mapped), None, None);
    }

    method MapToolMessage(record: Message) returns (m: ModelMessage)
      requires record.role == Tool
      ensures m == Mapped(record, legacyToolNameByCallId, render)
    {
      if NamesACall(record.content) {
        var providerCallId := Or(record.content.providerCallId, record.content.toolCallId);
        var toolName := record.content.toolName;
        if toolName.None? { toolName := FindToolName(providerCallId); }
        return ModelMessage(Tool, record.content.result.value, None, providerCallId, toolName);
      }
      m := Plain(Tool, Raw(record.content, render));
    }

    function FindToolName(providerCallId: Option<string>): Option<string>
      reads this
    {
      if providerCallId.None? || providerCallId.value !in legacyToolNameByCallId then None
      else Some(legacyToolNameByCallId[providerCallId.value])
    }
  }

  function Preamble(systemPrompt: string): seq<ModelMessage> {
    if systemPrompt == "" then [] else [Plain(System, systemPrompt)]
  }

  /** The prompt if there is one, and then one message that tells of each record. */
  ghost predicate TellsAll(systemPrompt: string, kept: seq<Message>, messages: seq<ModelMessage>,
      render: Content -> string) {
    var first := if systemPrompt == "" then 0 else 1;
    && |messages| == first + |kept|
    && (first == 1 ==> messages[0].role == System && IsPlain(messages[0], systemPrompt))
    && forall i :: 0 <= i < |kept| ==> Tells(kept[i], messages[first + i], render)
  }

  lemma {:induction false} ContextTells(systemPrompt: string, kept: seq<Message>, render: Content -> string)
    ensures TellsAll(systemPrompt, kept, Preamble(systemPrompt) + Context(kept, render), render)
  {
    hide Tells;
    hide Mapped;
    hide Context;
    hide Names;
    var context := Context(kept, render);
    ContextLength(kept, render);
    forall k | 0 <= k < |kept| ensures Tells(kept[k], context[k], render) {
      ContextAt(kept, k, render);
      MappedTells(kept[k], Names(kept[..k]), render);
    }
  }

  // ---- Correlation ---------------------------------------------------------------------------------

  /** Tool message `i` of a context stands where the result of a call of assistant message `j` belongs. */
  ghost predicate InPlace(context: seq<ModelMessage>, j: int, i: int) {
    && 0 <= j < i < |context|
    && context[j].role == Assistant && context[j].toolCalls.Some?
    && (forall m :: j < m <= i ==> context[m].role == Tool)
    && i - j - 1 < |context[j].toolCalls.value|
  }

  /** And it carries the provider id and the tool name of that call. */
  ghost predicate NamesItsCall(context: seq<ModelMessage>, j: int, i: int)
    requires InPlace(context, j, i)
  {
    && context[i].toolCallId == Some(context[j].toolCalls.value[i - j - 1].callId)
    && context[i].toolName == Some(context[j].toolCalls.value[i - j - 1].toolName)
  }

  /** A message in place that names its call exactly when its record has a result, and nothing otherwise. */
  ghost predicate Replies(context: seq<ModelMessage>, j: int, i: int, hasResult: bool) {
    && InPlace(context, j, i)
    && (NamesItsCall(context, j, i) <==> hasResult)
    && (!hasResult ==> context[i].toolCallId.None? && context[i].toolName.None?)
  }

  lemma {:induction false} NonSystemSplit(a: seq<Message>, b: seq<Message>)
    ensures NonSystem(a + b) == NonSystem(a) + NonSystem(b)
  {
    if b == [] {
      assert a + b == a;
    } else {
      var n := |b| - 1;
      assert (a + b)[..|a + b| - 1] == a + b[..n];
      NonSystemSplit(a, b[..n]);
    }
  }

  lemma {:induction false} NonSystemKeeps(h: seq<Message>)
    requires forall i :: 0 <= i < |h| ==> h[i].role != System
    ensures NonSystem(h) == h
  {
    if h != [] { NonSystemKeeps(h[..|h| - 1]); }
  }

  /** Dropping system records does not separate a result from its call. */
  lemma {:induction false} NonSystemCorrelated(h: seq<Message>)
    requires Correlated(h)
    ensures Correlated(NonSystem(h))
  {
    if h != [] {
      var n := |h| - 1;
      var before, m := h[..n], h[n];
      PrefixCorrelated(h, n);
      NonSystemCorrelated(before);
      if m.role == Tool {
        var j :| Answers(h, j, n);
        AnswerKept(h, j);
        AppendAnswer(NonSystem(before), m, |NonSystem(h[..j])|);
      } else if m.role != System {
        AppendOther(NonSystem(before), m);
      }
    }
  }

  lemma {:induction false} BlockIsKept(h: seq<Message>, j: nat)
    requires h != [] && Answers(h, j, |h| - 1)
    ensures j < |h| - 1 && NonSystem(h[j..|h| - 1]) == h[j..|h| - 1]
  {
    hide NonSystem;
    NonSystemKeeps(h[j..|h| - 1]);
  }

  lemma {:induction false} AnswerKept(h: seq<Message>, j: nat)
    requires h != [] && Answers(h, j, |h| - 1)
    ensures j < |h| - 1
    ensures var kept := NonSystem(h[..|h| - 1]);
            Answers(kept + [h[|h| - 1]], |NonSystem(h[..j])|, |kept|)
  {
    hide *;
    var n := |h| - 1;
    BlockIsKept(h, j);
    var front := NonSystem(h[..j]);
    NonSystemSplit(h[..j], h[j..n]);
    Halves(h, j, front);
    AnswersInTail(h, j, j, n - j);
    AnswersAfter(front, h[j..], n - j);
  }

  lemma {:induction false} Halves(h: seq<Message>, j: nat, front: seq<Message>)
    requires j < |h|
    ensures var n := |h| - 1; h[..n] == h[..j] + h[j..n] && front + h[j..n] + [h[n]] == front + h[j..]
  {
    assert h[j..] == h[j..|h| - 1] + [h[|h| - 1]];
  }

  lemma {:induction false} AnswersInTail(h: seq<Message>, n: nat, j: int, i: nat)
    requires n <= j && n + i < |h| && Answers(h, j, n + i)
    ensures Answers(h[n..], j - n, i)
  {
    assert forall k :: 0 <= k < |h| - n ==> h[n..][k] == h[n + k];
  }

  lemma {:induction false} AnswersAfter(front: seq<Message>, h: seq<Message>, i: nat)
    requires Answers(h, 0, i)
    ensures Answers(front + h, |front|, |front| + i)
  {
    assert forall k :: 0 <= k < |h| ==> (front + h)[|front| + k] == h[k];
  }

  lemma {:induction false} PrefixCorrelated(h: seq<Message>, n: nat)
    requires Correlated(h) && n <= |h|
    ensures Correlated(h[..n])
  {
    forall i | 0 <= i < n && h[..n][i].role == Tool ensures exists j :: Answers(h[..n], j, i) {
      var j :| Answers(h, j, i);
      assert Answers(h[..n], j, i);
    }
  }

  /** How many tool records a tail starts with. */
  function LeadingTools(records: seq<Message>): (n: nat)
    ensures n <= |records|
    ensures forall i :: 0 <= i < n ==> records[i].role == Tool
    ensures n < |records| ==> records[n].role != Tool
  {
    if records != [] && records[0].role == Tool then 1 + LeadingTools(records[1..]) else 0
  }

  ghost predicate AnsweredFrom(records: seq<Message>, lead: nat) {
    forall i :: lead <= i < |records| && records[i].role == Tool ==> exists j :: Answers(records, j, i)
  }

  /** In a tail of a correlated history only the leading tool records can have lost their call. */
  lemma {:induction false} TailCorrelated(h: seq<Message>, n: nat)
    requires Correlated(h) && n <= |h|
    ensures AnsweredFrom(h[n..], LeadingTools(h[n..]))
    ensures n == 0 ==> LeadingTools(h[n..]) == 0
  {
    var tail := h[n..];
    var lead := LeadingTools(tail);
    forall i | lead <= i < |tail| && tail[i].role == Tool ensures exists j :: Answers(tail, j, i) {
      hide LeadingTools;
      var j :| Answers(h, j, n + i);
      CallIsKept(h, n, lead, j, i);
      hide Answers;
      AnswersInTail(h, n, j, i);
    }
    if n == 0 {
      assert forall j :: !Answers(h, j, 0);
      assert h[0..] == h;
    }
  }

  lemma {:induction false} CallIsKept(h: seq<Message>, n: nat, lead: nat, j: int, i: nat)
    requires n + lead <= n + i < |h| && h[n + lead].role != Tool && Answers(h, j, n + i)
    ensures n <= j
  {
  }

  ghost predicate HasResult(m: Message) {
    m.content.ToolJson? && m.content.result.Some?
  }

  lemma {:induction false} AnswerIsReply(records: seq<Message>, j: int, i: int, render: Content -> string)
    requires Answers(records, j, i)
    ensures Replies(Context(records, render), j, i, HasResult(records[i]))
  {
    ContextAt(records, j, render);
    ContextAt(records, i, render);
    hide Context;
    hide Names;
    var context := Context(records, render);
    forall m | j < m <= i ensures context[m].role == Tool {
      assert records[m].role == Tool;
      ContextAt(records, m, render);
    }
  }

  /**
   The first `lead` messages are tool messages, and every later tool message replies to a call of an
   assistant message before it, naming that call exactly when its record has a result.
   */
  ghost predicate OrphansLead(records: seq<Message>, context: seq<ModelMessage>, lead: nat) {
    && lead <= |context| == |records|
    && (forall i :: 0 <= i < lead ==> context[i].role == Tool)
    && (forall i :: lead <= i < |context| && context[i].role == Tool ==>
          exists j :: Replies(context, j, i, HasResult(records[i])))
  }

  /**
   For any history that loop runs wrote: in the context built from it every tool message follows the
   assistant message that made its call, except for one block of tool messages at the very front, which
   is there only when trimming cut their call off. A tool message behind that block names its call's
   provider id and tool if and only if its record has a result; without one it names nothing.
   */
  lemma {:induction false} ToolResultsFollowTheirCalls(history: seq<Message>, maxMessages: int,
      render: Content -> string)
    requires Correlated(history)
    ensures var context := Context(Trim(history, maxMessages), render);
            var lead := LeadingTools(Trim(history, maxMessages));
            && |context| == |Trim(history, maxMessages)|
            && OrphansLead(Trim(history, maxMessages), context, lead)
            && (|context| == |NonSystem(history)| ==> lead == 0)
  {
    hide *;
    var records, trimmed := NonSystem(history), Trim(history, maxMessages);
    NonSystemCorrelated(history);
    TrimIsTail(history, maxMessages);
    TailCorrelated(records, |records| - |trimmed|);
    ContextCorrelated(trimmed, render);
  }

  /** How many tool messages stand at `i` and behind it. */
  function ToolsFrom(context: seq<ModelMessage>, i: nat): (n: nat)
    requires i <= |context|
    ensures i + n <= |context| && (forall m :: i <= m < i + n ==> context[m].role == Tool)
    ensures i + n < |context| ==> context[i + n].role != Tool
    decreases |context| - i
  {
    if i < |context| && context[i].role == Tool then 1 + ToolsFrom(context, i + 1) else 0
  }

  /**
   The converse: a call has a message exactly if the tool messages behind its assistant message reach as
   far. The calls without one, which a run leaves that stopped in the middle of a round, are the last ones.
   */
  lemma {:induction false} UnansweredCallsAreLast(history: seq<Message>, maxMessages: int, render: Content -> string,
      j: nat)
    requires Correlated(history)
    requires var context := Context(Trim(history, maxMessages), render);
             j < |context| && context[j].role == Assistant && context[j].toolCalls.Some?
    ensures var context := Context(Trim(history, maxMessages), render);
            var calls, n := context[j].toolCalls.value, ToolsFrom(context, j + 1);
            n <= |calls| && forall i :: InPlace(context, j, i) <==> j < i <= j + n
  {
    var context := Context(Trim(history, maxMessages), render);
    ToolResultsFollowTheirCalls(history, maxMessages, render);
    hide Context;
    hide Trim;
    hide Correlated;
    hide LeadingTools;
    var n := ToolsFrom(context, j + 1);
    if n > 0 {
      assert context[j + n].role == Tool;
      var j' :| Replies(context, j', j + n, HasResult(Trim(history, maxMessages)[j + n]));
      assert j' == j;
    }
  }

  lemma {:induction false} ContextCorrelated(records: seq<Message>, render: Content -> string)
    requires AnsweredFrom(records, LeadingTools(records))
    ensures var context, lead := Context(records, render), LeadingTools(records);
            |context| == |records| && OrphansLead(records, context, lead)
  {
    hide Context;
    hide Names;
    hide Mapped;
    hide LeadingTools;
    hide Replies;
    hide Answers;
    var context, lead := Context(records, render), LeadingTools(records);
    forall i | 0 <= i < |records|
      ensures |context| == |records| && context[i].role == records[i].role
    {
      RoleKept(records, i, render);
    }
    ContextLength(records, render);
    forall i | lead <= i < |context| && context[i].role == Tool
      ensures exists j :: Replies(context, j, i, HasResult(records[i]))
    {
      var j :| Answers(records, j, i);
      AnswerIsReply(records, j, i, render);
    }
  }

  lemma {:induction false} RoleKept(records: seq<Message>, i: nat, render: Content -> string)
    requires i < |records|
    ensures |Context(records, render)| == |records| && Context(records, render)[i].role == records[i].role
  {
    ContextAt(records, i, render);
  }

  /** All calls of the assistant records, in order. */
  function CallsIn(records: seq<Message>): seq<ModelCall> {
    if records == [] then []
    else
      var before, m := CallsIn(records[..|records| - 1]), records[|records| - 1];
      if m.role == Assistant && m.content.CallsJson? then before + CallsOf(m.content.calls) else before
  }

  /** The name that the latest named call with an id has. */
  function LatestName(calls: seq<ModelCall>, id: string): Option<string> {
    if calls == [] || id == "" then None
    else
      var c := calls[|calls| - 1];
      if c.callId == id && c.toolName != "" then Some(c.toolName) else LatestName(calls[..|calls| - 1], id)
  }

  lemma {:induction false} LatestNameAfter(before: seq<ModelCall>, names: map<string, string>,
      calls: seq<PersistedCall>, id: string)
    requires LatestName(before, id) == if id in names then Some(names[id]) else None
    ensures LatestName(before + CallsOf(calls), id)
         == if id in NamesAfter(names, calls) then Some(NamesAfter(names, calls)[id]) else None
  {
    if calls == [] {
      assert before + CallsOf(calls) == before;
    } else {
      var n := |calls| - 1;
      LatestNameAfter(before, names, calls[..n], id);
      CallsStep(names, calls, n);
      assert calls[..n + 1] == calls;
      hide CallsOf;
      hide NamesAfter;
      hide CallOf;
      LatestNameMore(before + CallsOf(calls[..n]), CallOf(calls[n]), id);
      hide LatestName;
      assert before + (CallsOf(calls[..n]) + [CallOf(calls[n])]) == before + CallsOf(calls[..n]) + [CallOf(calls[n])];
    }
  }

  lemma {:induction false} LatestNameMore(calls: seq<ModelCall>, c: ModelCall, id: string)
    ensures LatestName(calls + [c], id)
         == if id != "" && c.callId == id && c.toolName != "" then Some(c.toolName) else LatestName(calls, id)
  {
    assert (calls + [c])[..|calls|] == calls;
  }

  /** A legacy tool record, which names no tool, gets the name of the latest kept call with its id. */
  lemma {:induction false} LegacyNameIsLatest(records: seq<Message>, i: nat, id: string, result: string,
      render: Content -> string)
    requires i < |records| && records[i] == Message(Tool, ToolJson(None, Some(id), None, Some(result)))
    ensures |Context(records, render)| == |records|
    ensures Context(records, render)[i]
         == ModelMessage(Tool, result, None, Some(id), LatestName(CallsIn(records[..i]), id))
  {
    ContextAt(records, i, render);
    NamesAreLatest(records[..i], id);
    hide Context;
    hide Names;
    hide LatestName;
  }

  lemma {:induction false} NamesAreLatest(records: seq<Message>, id: string)
    ensures LatestName(CallsIn(records), id) == if id in Names(records) then Some(Names(records)[id]) else None
  {
    if records != [] {
      var before, m := records[..|records| - 1], records[|records| - 1];
      NamesAreLatest(before, id);
      if m.role == Assistant && m.content.CallsJson? {
        LatestNameAfter(CallsIn(before), Names(before), m.content.calls, id);
      }
    }
  }

  /**
   A tool that returns nothing leaves a record without a result: its message is the raw stored text
   and does not name the call it answers, in a history like any that a run writes.
   */
  lemma {:induction false} VoidToolLosesItsCall(id: string, tool: string, arguments: string, render: Content -> string)
    ensures var call := PersistedCall(Some(id), None, Some(tool), arguments);
            var record := ToolJson(Some(id), None, Some(tool), None);
            var history := [Message(Assistant, CallsJson("", [call])), Message(Tool, record)];
            && Correlated(history)
            && var context := Context(Trim(history, 50), render);
               |context| == 2 && InPlace(context, 0, 1) && context[1] == Plain(Tool, render(record))
               && !NamesItsCall(context, 0, 1)
  {
    var call := PersistedCall(Some(id), None, Some(tool), arguments);
    var record := ToolJson(Some(id), None, Some(tool), None);
    var history := [Message(Assistant, CallsJson("", [call])), Message(Tool, record)];
    assert Answers(history, 0, 1);
    NonSystemKeeps(history);
    ContextAt(history, 0, render);
    ContextAt(history, 1, render);
    hide Context;
    hide Names;
    hide NonSystem;
  }

  /** An assistant text that was stored comes back as that text, unless it reads as a record of tool calls. */
  lemma {:induction false} PlainTextComesBack(text: string, parse: string -> Content, render: Content -> string,
      names: map<string, string>)
    requires parse(text) == Text(text) || (!parse(text).Text? && render(parse(text)) == text)
    ensures Mapped(Message(Assistant, parse(text)), names, render) == ModelMessage(Assistant, text, None, None, None)
       <==> !parse(text).CallsJson?
  {
  }
}
