/**
 Assembly of a provider's streamed deltas into model chunks (packages/models/src/providers/openai.ts):
 text goes out as it comes, tool calls are accumulated by index and go out in index order at the end.
 */
module StreamAssembly {
  import opened Common
  import opened Sorting

  /** A tool-call delta; absent and empty strings are the same to the assembler. */
  datatype Delta = Delta(index: int, id: string, name: string, arguments: string)

  datatype Choice = Choice(content: string, toolCalls: seq<Delta>, finishReason: string)

  datatype Usage = Usage(inputTokens: nat, outputTokens: nat, totalTokens: nat)

  /** A provider chunk: the first choice if there is one, and usage. */
  datatype Chunk = Chunk(choice: Option<Choice>, usage: Option<Usage>)

  /** Arguments that parse, or the text itself. */
  datatype Arguments = Parsed(json: string) | Unparsed(text: string)

  datatype Out =
    | Token(text: string)
    | ToolCall(toolName: string, callId: string, arguments: Arguments)
    | Finish(reason: string, usage: Option<Usage>)

  datatype Partial = Partial(id: string, name: string, arguments: string)

  // ---- What is to come out -------------------------------------------------------------------------

  function At(index: int): Delta -> bool {
    (d: Delta) => d.index == index
  }

  function Joined(ds: seq<Delta>): string {
    if ds == [] then "" else Joined(ds[..|ds| - 1]) + ds[|ds| - 1].arguments
  }

  function LastId(ds: seq<Delta>): string {
    if ds == [] then "" else if ds[|ds| - 1].id != "" then ds[|ds| - 1].id else LastId(ds[..|ds| - 1])
  }

  function LastName(ds: seq<Delta>): string {
    if ds == [] then "" else if ds[|ds| - 1].name != "" then ds[|ds| - 1].name else LastName(ds[..|ds| - 1])
  }

  function Assembled(ds: seq<Delta>): Partial {
    Partial(LastId(ds), LastName(ds), Joined(ds))
  }

  function Opt(choice: Option<Choice>): Choice {
    if choice.Some? then choice.value else Choice("", [], "")
  }

  function Tokens(chunks: seq<Chunk>): seq<Out> {
    if chunks == [] then []
    else
      var text := Opt(chunks[|chunks| - 1].choice).content;
      Tokens(chunks[..|chunks| - 1]) + if text != "" then [Token(text)] else []
  }

  function Deltas(chunks: seq<Chunk>): seq<Delta> {
    if chunks == [] then [] else Deltas(chunks[..|chunks| - 1]) + Opt(chunks[|chunks| - 1].choice).toolCalls
  }

  function FinishReason(chunks: seq<Chunk>): string {
    if chunks == [] then "stop"
    else if Opt(chunks[|chunks| - 1].choice).finishReason != "" then Opt(chunks[|chunks| - 1].choice).finishReason
    else FinishReason(chunks[..|chunks| - 1])
  }

  function LastUsage(chunks: seq<Chunk>): Option<Usage> {
    if chunks == [] then None
    else if chunks[|chunks| - 1].usage.Some? then chunks[|chunks| - 1].usage
    else LastUsage(chunks[..|chunks| - 1])
  }

  function ParseArguments(text: string, parse: string -> Option<string>): Arguments {
    var parsed := parse(if text == "" then "{}" else text);
    if parsed.Some? then Parsed(parsed.value) else Unparsed(text)
  }

  function CallOf(p: Partial, parse: string -> Option<string>): Out {
    ToolCall(p.name, p.id, ParseArguments(p.arguments, parse))
  }

  /** A call goes out under its id and name; its arguments are parsed, absent ones as an empty object, or kept as text. */
  lemma {:induction false} CallIs(p: Partial, parse: string -> Option<string>)
    ensures var c := CallOf(p, parse);
            && c.ToolCall? && c.toolName == p.name && c.callId == p.id
            && (p.arguments == "" && parse("{}").Some? ==> c.arguments == Parsed(parse("{}").value))
            && (p.arguments != "" && parse(p.arguments).Some? ==> c.arguments == Parsed(parse(p.arguments).value))
            && (p.arguments == "" && parse("{}").None? ==> c.arguments == Unparsed(""))
            && (p.arguments != "" && parse(p.arguments).None? ==> c.arguments == Unparsed(p.arguments))
  {
  }

  /** The calls of `deltas` for increasing indices. */
  function CallsAt(indices: seq<int>, deltas: seq<Delta>, parse: string -> Option<string>): (r: seq<Out>)
    ensures |r| == |indices|
    ensures forall i :: 0 <= i < |indices| ==> r[i] == CallOf(Assembled(Filter(deltas, At(indices[i]))), parse)
  {
    seq(|indices|, i requires 0 <= i < |indices| => CallOf(Assembled(Filter(deltas, At(indices[i]))), parse))
  }

  predicate Increasing(s: seq<int>) {
    forall i, j :: 0 <= i < j < |s| ==> s[i] < s[j]
  }

  /** `indices` are the indices of `deltas`, each once, in order. */
  ghost predicate IndicesOf(indices: seq<int>, deltas: seq<Delta>) {
    Increasing(indices) && forall k :: k in indices <==> HasIndex(deltas, k)
  }

  ghost predicate HasIndex(deltas: seq<Delta>, k: int) {
    exists d :: d in deltas && d.index == k
  }

  // ---- The generator -------------------------------------------------------------------------------

  /** The map of partial calls: `order` is its insertion order. */
  ghost predicate Accumulates(accum: map<int, Partial>, order: seq<int>, deltas: seq<Delta>) {
    && (forall k :: k in accum <==> k in order)
    && Distinct(order) && (forall k :: k in order <==> HasIndex(deltas, k))
    && (forall k :: k in accum ==> accum[k] == Assembled(Filter(deltas, At(k))))
  }

  lemma {:induction false} AssembledMore(ds: seq<Delta>, d: Delta)
    ensures var p, more := Assembled(ds), Assembled(ds + [d]);
            && more.id == (if d.id != "" then d.id else p.id)
            && more.name == (if d.name != "" then d.name else p.name)
            && more.arguments == p.arguments + d.arguments
  {
    assert (ds + [d])[..|ds|] == ds;
  }

  lemma {:induction false} HasIndexMore(deltas: seq<Delta>, d: Delta, k: int)
    ensures HasIndex(deltas + [d], k) <==> k == d.index || HasIndex(deltas, k)
  {
    assert d in deltas + [d];
    if HasIndex(deltas, k) {
      var x :| x in deltas && x.index == k;
      assert x in deltas + [d];
    }
  }

  lemma {:induction false} NewIndex(deltas: seq<Delta>, k: int)
    requires !HasIndex(deltas, k)
    ensures Assembled(Filter(deltas, At(k))) == Partial("", "", "")
  {
    forall i | 0 <= i < |deltas| ensures !At(k)(deltas[i]) { assert deltas[i] in deltas; }
    NothingKept(deltas, At(k));
  }

  /** What has been accumulated for an index. */
  lemma {:induction false} AccumulatedAt(accum: map<int, Partial>, order: seq<int>, deltas: seq<Delta>, k: int)
    requires Accumulates(accum, order, deltas)
    ensures Assembled(Filter(deltas, At(k))) == if k in accum then accum[k] else Partial("", "", "")
  {
    if k !in accum { NewIndex(deltas, k); }
  }

  /** A delta is added to the call of its index: `p` is what its deltas make with it. */
  lemma {:induction false} AccumulateMore(accum: map<int, Partial>, order: seq<int>, deltas: seq<Delta>, d: Delta,
      p: Partial)
    requires Accumulates(accum, order, deltas) && p == Assembled(Filter(deltas, At(d.index)) + [d])
    ensures Accumulates(accum[d.index := p], if d.index in accum then order else order + [d.index], deltas + [d])
  {
    hide Filter;
    hide Assembled;
    hide HasIndex;
    forall k ensures HasIndex(deltas + [d], k) <==> k == d.index || HasIndex(deltas, k) { HasIndexMore(deltas, d, k); }
    forall k
      ensures Filter(deltas + [d], At(k)) == if k == d.index then Filter(deltas, At(k)) + [d] else Filter(deltas, At(k))
    {
      FilterAppend(deltas, d, At(k));
    }
  }

  function IntLe(): (int, int) -> bool {
    (a: int, b: int) => a <= b
  }

  lemma {:induction false} SortedIndices(accum: map<int, Partial>, order: seq<int>, deltas: seq<Delta>)
    requires Accumulates(accum, order, deltas)
    ensures IndicesOf(Sort(order, IntLe()), deltas)
  {
    SortSorts(order, IntLe());
    var sorted := Sort(order, IntLe());
    hide Sort;
    hide Filter;
    forall k ensures k in sorted <==> k in order { assert k in multiset(sorted) <==> k in multiset(order); }
    forall i, j | 0 <= i < j < |sorted| ensures sorted[i] < sorted[j] {
      assert IntLe()(sorted[i], sorted[j]);
      OnceInMultiset(order, sorted[i]);
      TwiceInMultiset(sorted, i, j);
    }
  }

  lemma {:induction false} OnceInMultiset(s: seq<int>, x: int)
    requires Distinct(s)
    ensures multiset(s)[x] <= 1
  {
    if s != [] {
      var n := |s| - 1;
      OnceInMultiset(s[..n], x);
      assert s == s[..n] + [s[n]];
      if s[n] == x { assert x !in multiset(s[..n]) by { assert x !in s[..n]; } }
    }
  }

  lemma {:induction false} TwiceInMultiset(s: seq<int>, i: nat, j: nat)
    requires i < j < |s|
    ensures s[i] == s[j] ==> multiset(s)[s[i]] >= 2
  {
    assert s == s[..j] + [s[j]] + s[j + 1..];
    assert s[i] in s[..j];
  }

  /**
   The generator over a provider stream that ends or throws after `chunks`. Returns everything it
   yielded and whether it threw.
   */
  method Generate(chunks: seq<Chunk>, throws: bool, parse: string -> Option<string>)
      returns (out: seq<Out>, threw: bool, ghost indices: seq<int>)
    ensures threw == throws && IndicesOf(indices, Deltas(chunks))
    ensures out == if throws then Tokens(chunks)
                   else Tokens(chunks) + CallsAt(indices, Deltas(chunks), parse)
                        + [Finish(FinishReason(chunks), LastUsage(chunks))]
  {
    var accum: map<int, Partial>, order: seq<int> := map[], [];
    var finishReason, usage := "stop", None;
    out, threw := [], throws;
    var i := 0;
    while i < |chunks|
      invariant i <= |chunks| && out == Tokens(chunks[..i])
      invariant finishReason == FinishReason(chunks[..i]) && usage == LastUsage(chunks[..i])
      invariant Accumulates(accum, order, Deltas(chunks[..i]))
    {
      ChunkStep(chunks, i);
      hide Tokens;
      hide Deltas;
      hide FinishReason;
      hide LastUsage;
      hide Accumulates;
      var chunk := chunks[i];
      if chunk.choice.Some? {
        var choice := chunk.choice.value;
        if choice.content != "" { out := out + [Token(choice.content)]; }
        accum, order := AccumulateAll(accum, order, choice.toolCalls, Deltas(chunks[..i]));
        if choice.finishReason != "" { finishReason := choice.finishReason; }
      }
      if chunk.usage.Some? { usage := chunk.usage; }
      i := i + 1;
    }
    assert chunks[..i] == chunks;
    SortedIndices(accum, order, Deltas(chunks));
    indices := Sort(order, IntLe());
    if throws { return; }
    var calls := EmitCalls(accum, order, parse, Deltas(chunks));
    out := out + calls + [Finish(finishReason, usage)];
  }

  lemma {:induction false} ChunkStep(chunks: seq<Chunk>, i: nat)
    requires i < |chunks|
    ensures var before, after, choice := chunks[..i], chunks[..i + 1], chunks[i].choice;
            && Tokens(after) == (if choice.Some? && choice.value.content != ""
                                 then Tokens(before) + [Token(choice.value.content)] else Tokens(before))
            && Deltas(after) == (if choice.Some? then Deltas(before) + choice.value.toolCalls else Deltas(before))
            && FinishReason(after) == (if choice.Some? && choice.value.finishReason != ""
                                       then choice.value.finishReason else FinishReason(before))
            && LastUsage(after) == (if chunks[i].usage.Some? then chunks[i].usage else LastUsage(before))
  {
    assert chunks[..i + 1][..i] == chunks[..i];
    assert Tokens(chunks[..i]) + [] == Tokens(chunks[..i]);
    assert Deltas(chunks[..i]) + [] == Deltas(chunks[..i]);
  }

  lemma {:induction false} SortedKeys(accum: map<int, Partial>, order: seq<int>, deltas: seq<Delta>)
    requires Accumulates(accum, order, deltas)
    ensures forall k :: k in Sort(order, IntLe()) ==> k in accum
  {
    var sorted := Sort(order, IntLe());
    SortSorts(order, IntLe());
    hide Sort;
    hide Sorted;
    hide Filter;
    hide Distinct;
    hide HasIndex;
    forall k | k in sorted ensures k in accum { assert k in multiset(sorted) && k in multiset(order); }
  }

  /** After the stream: the accumulated calls, by index. */
  method EmitCalls(accum: map<int, Partial>, order: seq<int>, parse: string -> Option<string>, ghost deltas: seq<Delta>)
      returns (calls: seq<Out>)
    requires Accumulates(accum, order, deltas)
    ensures calls == CallsAt(Sort(order, IntLe()), deltas, parse)
  {
    var sorted := Sort(order, IntLe());
    SortedKeys(accum, order, deltas);
    hide Sort;
    hide Filter;
    hide Assembled;
    hide Distinct;
    hide HasIndex;
    calls := [];
    var j := 0;
    while j < |sorted|
      invariant j <= |sorted| && calls == CallsAt(sorted, deltas, parse)[..j]
    {
      assert sorted[j] in sorted;
      calls := calls + [CallOf(accum[sorted[j]], parse)];
      j := j + 1;
    }
  }

  lemma {:induction false} Extended(before: seq<Delta>, more: seq<Delta>, i: nat)
    requires i < |more|
    ensures before + more[..i] + [more[i]] == before + more[..i + 1]
  {
  }

  /** Whatever deltas `acc` was assembled from, the result is assembled from them and `tc`. */
  method Patch(acc: Partial, tc: Delta) returns (patched: Partial)
    ensures forall ds :: Assembled(ds) == acc ==> Assembled(ds + [tc]) == patched
  {
    patched := acc;
    if tc.id != "" { patched := patched.(id := tc.id); }
    if tc.name != "" { patched := patched.(name := tc.name); }
    if tc.arguments != "" { patched := patched.(arguments := patched.arguments + tc.arguments); }
    forall ds | Assembled(ds) == acc ensures Assembled(ds + [tc]) == patched { AssembledMore(ds, tc); }
  }

  method AccumulateAll(accum0: map<int, Partial>, order0: seq<int>, toolCalls: seq<Delta>, ghost before: seq<Delta>)
      returns (accum: map<int, Partial>, order: seq<int>)
    requires Accumulates(accum0, order0, before)
    ensures Accumulates(accum, order, before + toolCalls)
  {
    hide *;
    accum, order := accum0, order0;
    assert before + toolCalls[..0] == before;
    var i := 0;
    while i < |toolCalls|
      invariant i <= |toolCalls| && Accumulates(accum, order, before + toolCalls[..i])
    {
      var tc := toolCalls[i];
      ghost var seen := before + toolCalls[..i];
      AccumulatedAt(accum, order, seen, tc.index);
      Extended(before, toolCalls, i);
      var acc := if tc.index in accum then accum[tc.index] else Partial("", "", "");
      acc := Patch(acc, tc);
      AccumulateMore(accum, order, seen, tc, acc);
      if tc.index !in accum { order := order + [tc.index]; }
      accum := accum[tc.index := acc];
      i := i + 1;
    }
    assert toolCalls[..i] == toolCalls;
  }

  // ---- Interleaving --------------------------------------------------------------------------------

  /** Two streams with the same deltas of every index, interleaved differently, give the same calls. */
  lemma {:induction false} InterleavingIsIrrelevant(a: seq<Delta>, b: seq<Delta>, i: seq<int>, j: seq<int>,
      parse: string -> Option<string>)
    requires IndicesOf(i, a) && IndicesOf(j, b)
    requires forall k :: Filter(a, At(k)) == Filter(b, At(k))
    ensures CallsAt(i, a, parse) == CallsAt(j, b, parse)
  {
    forall k ensures k in i <==> k in j {
      FilterMember(a, At(k));
      FilterMember(b, At(k));
      hide Filter;
      assert HasIndex(a, k) <==> HasIndex(b, k) by {
        if HasIndex(a, k) {
          var d :| d in a && d.index == k;
          assert d in Filter(a, At(k));
        }
        if HasIndex(b, k) {
          var d :| d in b && d.index == k;
          assert d in Filter(b, At(k));
        }
      }
    }
    hide Filter;
    hide HasIndex;
    SameIncreasing(i, j);
  }

  lemma {:induction false} SameIncreasing(a: seq<int>, b: seq<int>)
    requires Increasing(a) && Increasing(b) && forall k :: k in a <==> k in b
    ensures a == b
  {
    assert b != [] ==> b[0] in b && b[0] in a;
    if a != [] {
      assert a[0] in a && a[0] in b;
      assert a[0] == b[0];
      forall k ensures k in a[1..] <==> k in b[1..] {
        assert k in a <==> k == a[0] || k in a[1..];
        assert k in b <==> k == b[0] || k in b[1..];
        assert a[0] !in a[1..] && b[0] !in b[1..];
      }
      SameIncreasing(a[1..], b[1..]);
      assert a == [a[0]] + a[1..] && b == [b[0]] + b[1..];
    }
  }
}
