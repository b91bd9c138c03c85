/** The chunk stream of internal/llm/openai.go and its consumer, streamToClient of internal/agent/manager.go.
    The channel between the two goroutines is a queue, so the consumer sees the producer's chunks in order. */
module LlmStream {
  import opened Budget
  import opened Text

  datatype CallDelta = CallDelta(index: nat, hasIndex: bool, id: string, kind: string, name: string,
                                   arguments: string)

  /** What one Recv on the upstream stream returns; the end of the list is the end of the stream. */
  datatype Received = Failure(error: string) | NoChoices | Delta(content: string, calls: seq<CallDelta>)

  datatype Chunk =
    | Start
    | Token(text: string)
    | Failed(error: string)
    | Tool(name: string, id: string, arguments: string)
    | Complete(text: string)
    | Done

  const NO_CALL := ToolCall("", "", "", "")

  function Padded(calls: seq<ToolCall>, size: nat): (r: seq<ToolCall>)
    ensures |r| >= size && calls <= r
    decreases size - |calls|
  {
    if |calls| >= size then calls else Padded(calls + [NO_CALL], size)
  }

  /** Merging one fragment of a tool call into what has been collected. */
  function MergeCall(calls: seq<ToolCall>, d: CallDelta): seq<ToolCall> {
    if !d.hasIndex then calls
    else
      var padded := Padded(calls, d.index + 1);
      var prior := padded[d.index];
      padded[d.index := ToolCall(
        if d.id != "" then d.id else prior.id,
        if d.kind != "" then d.kind else prior.kind,
        if d.name != "" then d.name else prior.name,
        prior.arguments + d.arguments)]
  }

  function MergeCalls(calls: seq<ToolCall>, ds: seq<CallDelta>): seq<ToolCall> {
    if ds == [] then calls else MergeCall(MergeCalls(calls, ds[..|ds| - 1]), ds[|ds| - 1])
  }

  predicate Fails(recv: seq<Received>) { exists i | 0 <= i < |recv| :: recv[i].Failure? }

  /** The concatenated content deltas, the token chunks that carry them, and the collected tool calls. */
  function Content(recv: seq<Received>): string {
    if recv == [] then ""
    else
      var last := recv[|recv| - 1];
      var before := Content(recv[..|recv| - 1]);
      if last.Delta? && last.content != "" then before + last.content else before
  }

  function Tokens(recv: seq<Received>): seq<Chunk> {
    if recv == [] then []
    else
      var last := recv[|recv| - 1];
      var before := Tokens(recv[..|recv| - 1]);
      if last.Delta? && last.content != "" then before + [Token(last.content)] else before
  }

  function Collected(recv: seq<Received>): seq<ToolCall> {
    if recv == [] then []
    else
      var last := recv[|recv| - 1];
      var calls := Collected(recv[..|recv| - 1]);
      if last.Delta? then MergeCalls(calls, last.calls) else calls
  }

  function ToolChunk(tc: ToolCall, idx: nat, parses: string -> bool, defaultId: nat -> string): seq<Chunk> {
    if tc.name == "" then []
    else if !parses(tc.arguments) then [Failed("failed to parse tool arguments")]
    else [Tool(tc.name, if tc.id == "" then defaultId(idx) else tc.id, tc.arguments)]
  }

  function ToolChunks(calls: seq<ToolCall>, parses: string -> bool, defaultId: nat -> string): seq<Chunk> {
    if calls == [] then []
    else
      var n := |calls| - 1;
      ToolChunks(calls[..n], parses, defaultId) + ToolChunk(calls[n], n, parses, defaultId)
  }

  /** Everything received before the first failure. */
  function BeforeFailure(recv: seq<Received>): seq<Received> {
    if recv == [] || recv[0].Failure? then [] else [recv[0]] + BeforeFailure(recv[1..])
  }

  function Opening(recv: seq<Received>): seq<Chunk> { [Start] + Tokens(recv) }

  /** The whole chunk stream for what upstream sends. */
  function Chunks(recv: seq<Received>, parses: string -> bool, defaultId: nat -> string): seq<Chunk> {
    var good := BeforeFailure(recv);
    if good != recv then Opening(good) + [Failed("stream error")]
    else Opening(recv) + ToolChunks(Collected(recv), parses, defaultId) + [Complete(Content(recv))] + [Done]
  }

  lemma {:induction false} BeforeFailureIs(recv: seq<Received>, n: nat)
    requires n <= |recv| && (forall i | 0 <= i < n :: !recv[i].Failure?) && (n < |recv| ==> recv[n].Failure?)
    ensures BeforeFailure(recv) == recv[..n]
    ensures BeforeFailure(recv) != recv <==> Fails(recv)
    decreases n
  {
    if n == 0 {
    } else {
      BeforeFailureIs(recv[1..], n - 1);
      assert recv[..n] == [recv[0]] + recv[1..][..n - 1];
    }
  }

  /** The producing goroutine. */
  method StreamChat(recv: seq<Received>, parses: string -> bool, defaultId: nat -> string) returns (chunks: seq<Chunk>)
    ensures chunks == Chunks(recv, parses, defaultId)
  {
    chunks := [Start];
    var fullContent := "";
    var toolCalls: seq<ToolCall> := [];
    for n := 0 to |recv|
      invariant forall i | 0 <= i < n :: !recv[i].Failure?
      invariant chunks == Opening(recv[..n])
      invariant fullContent == Content(recv[..n]) && toolCalls == Collected(recv[..n])
    {
      assert recv[..n + 1][..n] == recv[..n];
      if recv[n].Failure? {
        chunks := chunks + [Failed("stream error")];
        BeforeFailureIs(recv, n);
        return;
      }
      if recv[n].NoChoices? {
        continue;
      }
      if recv[n].content != "" {
        fullContent := fullContent + recv[n].content;
        chunks := chunks + [Token(recv[n].content)];
      }
      toolCalls := CollectCalls(toolCalls, recv[n].calls);
    }
    assert recv[..|recv|] == recv;
    BeforeFailureIs(recv, |recv|);
    var tools := EmitTools(toolCalls, parses, defaultId);
    chunks := chunks + tools;
    chunks := chunks + [Complete(fullContent)];
    chunks := chunks + [Done];
  }

  method EmitTools(toolCalls: seq<ToolCall>, parses: string -> bool, defaultId: nat -> string)
    returns (chunks: seq<Chunk>)
    ensures chunks == ToolChunks(toolCalls, parses, defaultId)
  {
    chunks := [];
    for idx := 0 to |toolCalls|
      invariant chunks == ToolChunks(toolCalls[..idx], parses, defaultId)
    {
      assert toolCalls[..idx + 1][..idx] == toolCalls[..idx];
      var tc := toolCalls[idx];
      if tc.name == "" {
        continue;
      }
      if !parses(tc.arguments) {
        chunks := chunks + [Failed("failed to parse tool arguments")];
        continue;
      }
      chunks := chunks + [Tool(tc.name, if tc.id == "" then defaultId(idx) else tc.id, tc.arguments)];
    }
    assert toolCalls[..|toolCalls|] == toolCalls;
  }

  method CollectCalls(calls: seq<ToolCall>, ds: seq<CallDelta>) returns (merged: seq<ToolCall>)
    ensures merged == MergeCalls(calls, ds)
  {
    merged := calls;
    for i := 0 to |ds|
      invariant merged == MergeCalls(calls, ds[..i])
    {
      assert ds[..i + 1][..i] == ds[..i];
      var d := ds[i];
      if !d.hasIndex {
        continue;
      }
      ghost var unpadded := merged;
      while |merged| <= d.index
        invariant Padded(merged, d.index + 1) == Padded(unpadded, d.index + 1)
        decreases d.index - |merged|
      {
        merged := merged + [NO_CALL];
      }
      var tc := merged[d.index];
      if d.id != "" {
        tc := tc.(id := d.id);
      }
      if d.kind != "" {
        tc := tc.(kind := d.kind);
      }
      if d.name != "" {
        tc := tc.(name := d.name);
      }
      tc := tc.(arguments := tc.arguments + d.arguments);
      merged := merged[d.index := tc];
    }
    assert ds[..|ds|] == ds;
  }

  // ------------------------------------------------------------------ the consumer

  datatype ClientChunk =
    | Started
    | ToolUse(id: string, name: string)
    | ToolResult(id: string, name: string)
    | TokenOut(text: string)
    | CompleteOut(text: string)
    | ErrorOut
    | DoneOut

  function ForwardOne(c: Chunk): seq<ClientChunk> {
    match c
    case Token(t) => [TokenOut(t)]
    case Failed(_) => [ErrorOut]
    case Complete(t) => [CompleteOut(t)]
    case Done => [DoneOut]
    case _ => []
  }

  function Forward(chunks: seq<Chunk>): seq<ClientChunk> {
    if chunks == [] then [] else Forward(chunks[..|chunks| - 1]) + ForwardOne(chunks[|chunks| - 1])
  }

  function AccumulateOne(before: string, c: Chunk): string {
    match c
    case Token(t) => before + t
    case Complete(t) => if before == "" then t else before
    case _ => before
  }

  function Accumulated(chunks: seq<Chunk>): string {
    if chunks == [] then ""
    else AccumulateOne(Accumulated(chunks[..|chunks| - 1]), chunks[|chunks| - 1])
  }

  /** A chunk that brings text. */
  predicate Brings(c: Chunk) { (c.Token? || c.Complete?) && c.text != "" }

  lemma {:induction false} AccumulatedEmptyIff(chunks: seq<Chunk>)
    ensures Accumulated(chunks) == "" <==> forall i | 0 <= i < |chunks| :: !Brings(chunks[i])
  {
    if chunks == [] {
    } else {
      AccumulatedEmptyIff(chunks[..|chunks| - 1]);
    }
  }

  /** The complete text counts only where nothing else has brought any. */
  lemma CompleteFillsIn(chunks: seq<Chunk>, t: string)
    ensures (forall i | 0 <= i < |chunks| :: !Brings(chunks[i])) ==> Accumulated(chunks + [Complete(t)]) == t
    ensures (exists i | 0 <= i < |chunks| :: Brings(chunks[i])) ==>
              Accumulated(chunks + [Complete(t)]) == Accumulated(chunks)
  {
    AccumulatedEmptyIff(chunks);
    assert (chunks + [Complete(t)])[..|chunks|] == chunks;
  }

  method StreamToClient(chunks: seq<Chunk>) returns (content: string, out: seq<ClientChunk>)
    ensures out == Forward(chunks) && content == Accumulated(chunks)
  {
    content, out := "", [];
    for i := 0 to |chunks|
      invariant out == Forward(chunks[..i]) && content == Accumulated(chunks[..i])
    {
      assert chunks[..i + 1][..i] == chunks[..i];
      match chunks[i] {
        case Token(t) =>
          content := content + t;
          out := out + [TokenOut(t)];
        case Failed(_) =>
          out := out + [ErrorOut];
        case Complete(t) =>
          if content == "" {
            content := t;
          }
          out := out + [CompleteOut(t)];
        case Done =>
          out := out + [DoneOut];
        case _ =>
      }
    }
    assert chunks[..|chunks|] == chunks;
  }

  // ------------------------------------------------------------------ the shape of what reaches the client

  predicate Final(c: ClientChunk) { c.DoneOut? || c.ErrorOut? }

  /** The stream ends in `done` or `error`, and `done` comes nowhere but at the end. */
  predicate ProperlyEnded(out: seq<ClientChunk>) {
    && out != [] && Final(out[|out| - 1])
    && forall i | 0 <= i < |out| - 1 :: !out[i].DoneOut?
  }

  predicate NoDone(out: seq<ClientChunk>) { forall i | 0 <= i < |out| :: !out[i].DoneOut? }

  lemma ForwardSnoc(a: seq<Chunk>, c: Chunk)
    ensures Forward(a + [c]) == Forward(a) + ForwardOne(c)
  {
    assert (a + [c])[..|a|] == a;
  }

  lemma {:induction false} NoDoneForwarded(chunks: seq<Chunk>)
    requires forall i | 0 <= i < |chunks| :: !chunks[i].Done?
    ensures NoDone(Forward(chunks))
  {
    if chunks == [] {
    } else {
      NoDoneForwarded(chunks[..|chunks| - 1]);
    }
  }

  predicate Quiet(c: Chunk) { c.Failed? || c.Tool? }

  lemma {:induction false} TokensAreTokens(recv: seq<Received>)
    ensures forall i | 0 <= i < |Tokens(recv)| :: Tokens(recv)[i].Token?
  {
    if recv == [] {
    } else {
      TokensAreTokens(recv[..|recv| - 1]);
    }
  }

  lemma OpeningHasNoDone(recv: seq<Received>)
    ensures forall i | 0 <= i < |Opening(recv)| :: !Opening(recv)[i].Done?
  {
    TokensAreTokens(recv);
  }

  lemma {:induction false} ToolChunksAreQuiet(calls: seq<ToolCall>, parses: string -> bool, defaultId: nat -> string)
    ensures forall i | 0 <= i < |ToolChunks(calls, parses, defaultId)| :: Quiet(ToolChunks(calls, parses, defaultId)[i])
  {
    if calls == [] {
    } else {
      ToolChunksAreQuiet(calls[..|calls| - 1], parses, defaultId);
    }
  }

  lemma EndedBy(out: seq<ClientChunk>, end: ClientChunk)
    requires NoDone(out) && Final(end)
    ensures ProperlyEnded(out + [end])
  {
  }

  lemma CompletedEnds(head: seq<Chunk>, tools: seq<Chunk>, text: string)
    requires forall i | 0 <= i < |head| :: !head[i].Done?
    requires forall i | 0 <= i < |tools| :: Quiet(tools[i])
    ensures var out := Forward(head + tools + [Complete(text)] + [Done]); ProperlyEnded(out) && out[|out| - 1].DoneOut?
    ensures Accumulated(head) == text ==> Accumulated(head + tools + [Complete(text)] + [Done]) == text
  {
    var body := head + tools + [Complete(text)];
    NoDoneForwarded(body);
    ForwardSnoc(body, Done);
    EndedBy(Forward(body), DoneOut);
    AccumulatedQuiet(head, tools);
    AccumulatedSnoc(head + tools, Complete(text));
    AccumulatedSnoc(body, Done);
  }

  lemma FailedEnds(head: seq<Chunk>, error: string)
    requires forall i | 0 <= i < |head| :: !head[i].Done?
    ensures var out := Forward(head + [Failed(error)]); ProperlyEnded(out) && out[|out| - 1].ErrorOut?
    ensures Accumulated(head + [Failed(error)]) == Accumulated(head)
  {
    NoDoneForwarded(head);
    ForwardSnoc(head, Failed(error));
    EndedBy(Forward(head), ErrorOut);
    AccumulatedSnoc(head, Failed(error));
  }

  /** Whatever upstream does, the client's view of the reply is properly ended; it ends in `done` exactly when
      upstream reaches its end without a failure. The returned reply is the concatenation of the content received,
      so the tokens shown add up to what is stored. */
  lemma ReplyIsWellFormed(recv: seq<Received>, parses: string -> bool, defaultId: nat -> string)
    ensures var out := Forward(Chunks(recv, parses, defaultId));
            ProperlyEnded(out) && (out[|out| - 1].DoneOut? <==> !Fails(recv))
    ensures Accumulated(Chunks(recv, parses, defaultId)) == Content(BeforeFailure(recv))
  {
    var good := BeforeFailure(recv);
    FirstFailure(recv);
    OpeningHasNoDone(good);
    AccumulatedTokens(good);
    if good != recv {
      var head := Opening(good);
      assert Chunks(recv, parses, defaultId) == head + [Failed("stream error")];
      FailedEnds(head, "stream error");
    } else {
      var head, tools, text := Opening(recv), ToolChunks(Collected(recv), parses, defaultId), Content(recv);
      assert Chunks(recv, parses, defaultId) == head + tools + [Complete(text)] + [Done];
      ToolChunksAreQuiet(Collected(recv), parses, defaultId);
      CompletedEnds(head, tools, text);
    }
  }

  lemma {:induction false} FirstFailure(recv: seq<Received>)
    ensures BeforeFailure(recv) != recv <==> Fails(recv)
  {
    if recv != [] && !recv[0].Failure? {
      FirstFailure(recv[1..]);
      assert recv == [recv[0]] + recv[1..];
      if Fails(recv) {
        var i :| 0 <= i < |recv| && recv[i].Failure?;
        assert recv[1..][i - 1].Failure?;
      }
    }
  }

  lemma AccumulatedSnoc(a: seq<Chunk>, c: Chunk)
    ensures Accumulated(a + [c]) == AccumulateOne(Accumulated(a), c)
  {
    assert (a + [c])[..|a|] == a;
  }

  lemma {:induction false} AccumulatedTokens(recv: seq<Received>)
    ensures Accumulated(Opening(recv)) == Content(recv)
  {
    if recv == [] {
      AccumulatedSnoc([], Start);
      assert [] + [Start] == Opening(recv);
    } else {
      AccumulatedTokens(recv[..|recv| - 1]);
      var last := recv[|recv| - 1];
      if last.Delta? && last.content != "" {
        var toks := Tokens(recv[..|recv| - 1]);
        AccumulatedSnoc(Opening(recv[..|recv| - 1]), Token(last.content));
        Regroup([Start], toks, [Token(last.content)]);
      }
    }
  }

  lemma {:induction false} AccumulatedQuiet(head: seq<Chunk>, tools: seq<Chunk>)
    requires forall i | 0 <= i < |tools| :: Quiet(tools[i])
    ensures Accumulated(head + tools) == Accumulated(head)
  {
    if tools == [] {
      assert head + tools == head;
    } else {
      var init, last := tools[..|tools| - 1], tools[|tools| - 1];
      AccumulatedQuiet(head, init);
      AccumulatedSnoc(head + init, last);
      assert head + tools == head + init + [last];
    }
  }

  // ------------------------------------------------------------------ the collected calls, fragment by fragment

  /** All fragments of tool calls, in order. */
  function Fragments(recv: seq<Received>): seq<CallDelta> {
    if recv == [] then []
    else
      var last := recv[|recv| - 1];
      Fragments(recv[..|recv| - 1]) + if last.Delta? then last.calls else []
  }

  /** The arguments of the fragments for one call, joined. */
  function ArgumentsOf(ds: seq<CallDelta>, k: nat): string {
    if ds == [] then ""
    else
      var d := ds[|ds| - 1];
      ArgumentsOf(ds[..|ds| - 1], k) + if d.hasIndex && d.index == k then d.arguments else ""
  }

  /** The last text that is not blank among those that `text` picks from the fragments for one call. */
  function LastOf(ds: seq<CallDelta>, k: nat, text: CallDelta -> string): string {
    if ds == [] then ""
    else
      var d := ds[|ds| - 1];
      if d.hasIndex && d.index == k && text(d) != "" then text(d) else LastOf(ds[..|ds| - 1], k, text)
  }

  /** One more than the greatest index. */
  function Slots(ds: seq<CallDelta>): nat {
    if ds == [] then 0
    else
      var d, before := ds[|ds| - 1], Slots(ds[..|ds| - 1]);
      if d.hasIndex && d.index >= before then d.index + 1 else before
  }

  lemma {:induction false} PaddedAt(calls: seq<ToolCall>, size: nat, k: nat)
    requires k < |Padded(calls, size)|
    ensures |Padded(calls, size)| == (if |calls| >= size then |calls| else size)
    ensures Padded(calls, size)[k] == if k < |calls| then calls[k] else ToolCall("", "", "", "")
    decreases size - |calls|
  {
    if |calls| >= size {
    } else {
      PaddedAt(calls + [NO_CALL], size, k);
    }
  }

  lemma MergeCallAt(calls: seq<ToolCall>, d: CallDelta, k: nat)
    requires d.hasIndex
    ensures var after := MergeCall(calls, d);
            && |after| == (if d.index >= |calls| then d.index + 1 else |calls|)
            && (k < |after| ==>
                  var prior := if k < |calls| then calls[k] else ToolCall("", "", "", "");
                  if k != d.index then after[k] == prior
                  else
                    && after[k].id == (if d.id != "" then d.id else prior.id)
                    && after[k].kind == (if d.kind != "" then d.kind else prior.kind)
                    && after[k].name == (if d.name != "" then d.name else prior.name)
                    && after[k].arguments == prior.arguments + d.arguments)
  {
    PaddedAt(calls, d.index + 1, d.index);
    if k < |MergeCall(calls, d)| {
      PaddedAt(calls, d.index + 1, k);
    }
  }

  function CallOf(ds: seq<CallDelta>, k: nat): ToolCall {
    ToolCall(LastOf(ds, k, (d: CallDelta) => d.id), LastOf(ds, k, (d: CallDelta) => d.kind),
             LastOf(ds, k, (d: CallDelta) => d.name), ArgumentsOf(ds, k))
  }

  lemma {:induction false} NothingBeyond(ds: seq<CallDelta>, k: nat, text: CallDelta -> string)
    requires k >= Slots(ds)
    ensures ArgumentsOf(ds, k) == "" && LastOf(ds, k, text) == ""
  {
    if ds == [] {
    } else {
      NothingBeyond(ds[..|ds| - 1], k, text);
    }
  }

  lemma BeyondIsBlank(ds: seq<CallDelta>, k: nat)
    requires k >= Slots(ds)
    ensures CallOf(ds, k) == ToolCall("", "", "", "")
  {
    NothingBeyond(ds, k, (d: CallDelta) => d.id);
    NothingBeyond(ds, k, (d: CallDelta) => d.kind);
    NothingBeyond(ds, k, (d: CallDelta) => d.name);
  }

  lemma {:induction false} MergedCall(ds: seq<CallDelta>, k: nat)
    ensures var calls := MergeCalls([], ds);
            |calls| == Slots(ds) && (k < |calls| ==> calls[k] == CallOf(ds, k))
  {
    if ds == [] {
    } else {
      var init, d := ds[..|ds| - 1], ds[|ds| - 1];
      MergedCall(init, k);
      if d.hasIndex {
        MergeCallAt(MergeCalls([], init), d, k);
        if k >= Slots(init) {
          BeyondIsBlank(init, k);
        }
      }
    }
  }

  lemma {:induction false} MergeCallsConcat(calls: seq<ToolCall>, xs: seq<CallDelta>, ys: seq<CallDelta>)
    ensures MergeCalls(calls, xs + ys) == MergeCalls(MergeCalls(calls, xs), ys)
  {
    if ys == [] {
      assert xs + ys == xs;
    } else {
      assert (xs + ys)[..|xs + ys| - 1] == xs + ys[..|ys| - 1];
      MergeCallsConcat(calls, xs, ys[..|ys| - 1]);
    }
  }

  lemma {:induction false} CollectedIsMerged(recv: seq<Received>)
    ensures Collected(recv) == MergeCalls([], Fragments(recv))
  {
    if recv == [] {
    } else {
      var init, last := recv[..|recv| - 1], recv[|recv| - 1];
      CollectedIsMerged(init);
      if last.Delta? {
        MergeCallsConcat([], Fragments(init), last.calls);
      } else {
        assert Fragments(init) + [] == Fragments(init);
      }
    }
  }

  /** The k-th collected call has the fragments' arguments for it joined in order, and of its id, type and name the last
      that was given; there are as many calls as the greatest index asks for. */
  lemma CollectedCall(recv: seq<Received>, k: nat)
    ensures var calls := Collected(recv);
            |calls| == Slots(Fragments(recv)) && (k < |calls| ==> calls[k] == CallOf(Fragments(recv), k))
  {
    CollectedIsMerged(recv);
    MergedCall(Fragments(recv), k);
  }

  // ------------------------------------------------------------------ the tool chunks

  function CountNamed(calls: seq<ToolCall>): nat {
    if calls == [] then 0 else CountNamed(calls[..|calls| - 1]) + if calls[|calls| - 1].name != "" then 1 else 0
  }

  /** Each named call gives one chunk, behind those of the named calls before it. */
  lemma {:induction false} ToolChunksAt(calls: seq<ToolCall>, parses: string -> bool, defaultId: nat -> string, i: nat)
    requires i < |calls|
    ensures var out, p := ToolChunks(calls, parses, defaultId), CountNamed(calls[..i]);
            && |out| == CountNamed(calls)
            && (calls[i].name != "" ==>
                  p < |out| &&
                  if parses(calls[i].arguments) then
                    out[p] == Tool(calls[i].name, if calls[i].id != "" then calls[i].id else defaultId(i),
                                   calls[i].arguments)
                  else out[p].Failed?)
  {
    var n := |calls| - 1;
    ToolChunksLength(calls[..n], parses, defaultId);
    if i == n {
    } else {
      ToolChunksAt(calls[..n], parses, defaultId, i);
      assert calls[..n][..i] == calls[..i];
    }
  }

  lemma {:induction false} ToolChunksLength(calls: seq<ToolCall>, parses: string -> bool, defaultId: nat -> string)
    ensures |ToolChunks(calls, parses, defaultId)| == CountNamed(calls)
  {
    if calls == [] {
    } else {
      ToolChunksLength(calls[..|calls| - 1], parses, defaultId);
    }
  }

  // ------------------------------------------------------------------ the text

  /** The content received is what the deltas hold, joined. */
  lemma {:induction false} ContentConcat(a: seq<Received>, b: seq<Received>)
    ensures Content(a + b) == Content(a) + Content(b)
  {
    if b == [] {
      assert a + b == a;
    } else {
      var n := |b| - 1;
      assert (a + b)[..|a| + n] == a + b[..n] && (a + b)[|a| + n] == b[n];
      ContentConcat(a, b[..n]);
    }
  }

  lemma ContentOfOne(r: Received)
    ensures Content([r]) == if r.Delta? then r.content else ""
  {
    assert [r][..0] == [];
  }

  /** The text that the client is shown piece by piece. */
  function Shown(out: seq<ClientChunk>): string {
    if out == [] then ""
    else Shown(out[..|out| - 1]) + if out[|out| - 1].TokenOut? then out[|out| - 1].text else ""
  }

  lemma ShownSnoc(out: seq<ClientChunk>, c: ClientChunk)
    ensures Shown(out + [c]) == Shown(out) + if c.TokenOut? then c.text else ""
  {
    assert (out + [c])[..|out|] == out;
  }

  lemma ShownAfter(chunks: seq<Chunk>, c: Chunk)
    ensures Shown(Forward(chunks + [c])) == Shown(Forward(chunks)) + if c.Token? then c.text else ""
  {
    ForwardSnoc(chunks, c);
    if ForwardOne(c) != [] {
      ShownSnoc(Forward(chunks), ForwardOne(c)[0]);
    } else {
      assert Forward(chunks) + [] == Forward(chunks);
    }
  }

  lemma {:induction false} ShownOpening(recv: seq<Received>)
    ensures Shown(Forward(Opening(recv))) == Content(recv)
  {
    if recv == [] {
      ShownAfter([], Start);
      assert [] + [Start] == Opening(recv);
    } else {
      var init, last := recv[..|recv| - 1], recv[|recv| - 1];
      ShownOpening(init);
      if last.Delta? && last.content != "" {
        ShownAfter(Opening(init), Token(last.content));
        Regroup([Start], Tokens(init), [Token(last.content)]);
      }
    }
  }

  /** `shown` stands for what a stream of chunks shows. */
  lemma {:induction false} QuietShowsNothing(shown: seq<Chunk> -> string, head: seq<Chunk>, tools: seq<Chunk>)
    requires forall a, c {:trigger shown(a + [c])} :: Quiet(c) ==> shown(a + [c]) == shown(a)
    requires forall i | 0 <= i < |tools| :: Quiet(tools[i])
    ensures shown(head + tools) == shown(head)
  {
    if tools == [] {
      assert head + tools == head;
    } else {
      var init, last := tools[..|tools| - 1], tools[|tools| - 1];
      QuietShowsNothing(shown, head, init);
      assert head + tools == head + init + [last];
    }
  }

  lemma ShownQuiet(head: seq<Chunk>, tools: seq<Chunk>)
    requires forall i | 0 <= i < |tools| :: Quiet(tools[i])
    ensures Shown(Forward(head + tools)) == Shown(Forward(head))
  {
    var shown := (chunks: seq<Chunk>) => Shown(Forward(chunks));
    forall a, c | Quiet(c) ensures shown(a + [c]) == shown(a) {
      ShownAfter(a, c);
    }
    QuietShowsNothing(shown, head, tools);
  }

  lemma ShownOfCompleted(chunks: seq<Chunk>, head: seq<Chunk>, tools: seq<Chunk>, text: string)
    requires chunks == head + tools + [Complete(text)] + [Done] && forall i | 0 <= i < |tools| :: Quiet(tools[i])
    ensures var out := Forward(chunks);
            Shown(out) == Shown(Forward(head)) && |out| >= 2 && out[|out| - 2] == CompleteOut(text)
  {
    var body := head + tools;
    ShownQuiet(head, tools);
    ShownAfter(body, Complete(text));
    ShownAfter(body + [Complete(text)], Done);
    ForwardSnoc(body, Complete(text));
    ForwardSnoc(body + [Complete(text)], Done);
  }

  lemma ShownOfFailed(chunks: seq<Chunk>, head: seq<Chunk>, error: string)
    requires chunks == head + [Failed(error)]
    ensures Shown(Forward(chunks)) == Shown(Forward(head))
  {
    ShownAfter(head, Failed(error));
  }

  /** The pieces the client is shown add up to the stored reply, and so does the complete text, when there is one. */
  lemma ShownIsStored(recv: seq<Received>, parses: string -> bool, defaultId: nat -> string)
    ensures var out := Forward(Chunks(recv, parses, defaultId));
            && Shown(out) == Content(BeforeFailure(recv))
            && (!Fails(recv) ==> |out| >= 2 && out[|out| - 2] == CompleteOut(Content(recv)))
  {
    var good, chunks := BeforeFailure(recv), Chunks(recv, parses, defaultId);
    FirstFailure(recv);
    ShownOpening(good);
    if good != recv {
      ShownOfFailed(chunks, Opening(good), "stream error");
    } else {
      ToolChunksAreQuiet(Collected(recv), parses, defaultId);
      ShownOfCompleted(chunks, Opening(recv), ToolChunks(Collected(recv), parses, defaultId), Content(recv));
    }
  }
}
