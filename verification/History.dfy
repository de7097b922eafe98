/**
 Persisted messages of a session, as the loop writes them (packages/runtime/src/loop.ts) and the
 context builder reads them (packages/runtime/src/context-builder.ts).
 */
module History {
  import opened Common

  datatype Role = System | User | Assistant | Tool

  /** One call inside a persisted assistant message; legacy rows carry a single `callId`. */
  datatype PersistedCall = PersistedCall(
    providerCallId: Option<string>, callId: Option<string>, toolName: Option<string>, arguments: string)

  /**
   Message content by what `JSON.parse` makes of it. A tool record has no result when the tool
   returned nothing that JSON can express: the key is then missing from the stored object.
   */
  datatype Content =
    | Text(text: string)
    | CallsJson(text: string, calls: seq<PersistedCall>)
    | ToolJson(providerCallId: Option<string>, toolCallId: Option<string>, toolName: Option<string>, result: Option<string>)

  datatype Message = Message(role: Role, content: Content)

  /** Record `i` is the tool result for the right call of the assistant record `j`. */
  ghost predicate Answers(h: seq<Message>, j: int, i: int) {
    && 0 <= j < i < |h|
    && h[j].role == Assistant && h[j].content.CallsJson?
    && (forall m :: j < m < i ==> h[m].role == Tool)
    && i - j - 1 < |h[j].content.calls|
    && var call := h[j].content.calls[i - j - 1];
       h[i].role == Tool && h[i].content.ToolJson?
       && call.providerCallId.Some? && h[i].content.providerCallId == call.providerCallId
       && call.toolName.Some? && h[i].content.toolName == call.toolName
  }

  /**
   The k-th tool record after an assistant record with tool calls carries that record's k-th
   provider id and tool name, and there are no other tool records.
   */
  ghost predicate Correlated(h: seq<Message>) {
    forall i :: 0 <= i < |h| && h[i].role == Tool ==> exists j :: Answers(h, j, i)
  }

  lemma {:induction false} AnswersInLonger(h: seq<Message>, m: Message, j: int, i: int)
    requires Answers(h, j, i)
    ensures Answers(h + [m], j, i)
  {
  }

  lemma {:induction false} AppendOther(h: seq<Message>, m: Message)
    requires Correlated(h) && m.role != Tool
    ensures Correlated(h + [m])
  {
    hide Answers;
    forall i | 0 <= i < |h + [m]| && (h + [m])[i].role == Tool ensures exists j :: Answers(h + [m], j, i) {
      assert (h + [m])[i] == h[i];
      var j :| Answers(h, j, i);
      AnswersInLonger(h, m, j, i);
    }
  }

  lemma {:induction false} AppendAnswer(h: seq<Message>, m: Message, j: int)
    requires Correlated(h) && Answers(h + [m], j, |h|)
    ensures Correlated(h + [m])
  {
    hide Answers;
    forall i | 0 <= i < |h + [m]| && (h + [m])[i].role == Tool ensures exists j :: Answers(h + [m], j, i) {
      if i < |h| {
        assert (h + [m])[i] == h[i];
        var j' :| Answers(h, j', i);
        AnswersInLonger(h, m, j', i);
      }
    }
  }
}
