/** What a run of the agent loop leaves behind, read off from the conversation, the recorded calls of the model and the
    client's stream, and explained by what the model and the tools answered. */
module AgentTraces {
  import opened AgentLoop
  import opened AgentRuns
  import opened Budget
  import opened LlmStream
  import opened Options
  import opened Text

  // ------------------------------------------------------------------ the conversation, message by message

  /** The number of messages that batches add. */
  function Span(batches: seq<Batch>): nat {
    if batches == [] then 0 else Span(batches[..|batches| - 1]) + 1 + |batches[|batches| - 1].results|
  }

  predicate Fit(batches: seq<Batch>) { forall b | 0 <= b < |batches| :: |batches[b].results| <= |batches[b].calls| }

  lemma {:induction false} ToolMessagesAt(calls: seq<ToolCall>, results: seq<string>, k: nat)
    requires k < |results| <= |calls|
    ensures |ToolMessages(calls, results)| == |results|
    ensures ToolMessages(calls, results)[k] == Message("tool", results[k], "", calls[k].id, [])
  {
    var n := |results| - 1;
    if n == 0 {
      assert ToolMessages(calls, results[..0]) == [];
    } else {
      ToolMessagesAt(calls, results[..n], if k < n then k else 0);
    }
  }

  lemma ToolMessagesLength(calls: seq<ToolCall>, results: seq<string>)
    requires |results| <= |calls|
    ensures |ToolMessages(calls, results)| == |results|
  {
    if results != [] {
      ToolMessagesAt(calls, results, 0);
    }
  }

  lemma {:induction false} ResultsAt(env: Env, ran: nat, calls: seq<ToolCall>, n: nat, k: nat)
    requires k < n <= |calls|
    ensures Results(env, ran, calls, n)[k] == env.tool(ran + k, calls[k])
  {
    if k == n - 1 {
    } else {
      ResultsAt(env, ran, calls, n - 1, k);
    }
  }

  /** The message at the head of a batch, and the results behind it. */
  predicate BatchAt(messages: seq<Message>, p: nat, batch: Batch) {
    && p + |batch.results| < |messages| && |batch.results| <= |batch.calls|
    && messages[p] == Message("assistant", "", "", "", batch.calls)
    && forall k | 0 <= k < |batch.results| ::
         messages[p + 1 + k] == Message("tool", batch.results[k], "", batch.calls[k].id, [])
  }

  lemma OneBatch(batch: Batch)
    requires |batch.results| <= |batch.calls|
    ensures var ms := [AssistantMessage(batch.calls)] + ToolMessages(batch.calls, batch.results);
            |ms| == 1 + |batch.results| && BatchAt(ms, 0, batch)
  {
    var tail := ToolMessages(batch.calls, batch.results);
    ToolMessagesLength(batch.calls, batch.results);
    forall k | 0 <= k < |batch.results|
      ensures ([AssistantMessage(batch.calls)] + tail)[0 + 1 + k]
              == Message("tool", batch.results[k], "", batch.calls[k].id, [])
    {
      ToolMessagesAt(batch.calls, batch.results, k);
    }
  }

  lemma ShiftBatch(ms: seq<Message>, p: nat, batch: Batch, before: seq<Message>, after: seq<Message>)
    requires BatchAt(ms, p, batch)
    ensures BatchAt(before + ms + after, |before| + p, batch)
  {
    var all, q := before + ms + after, |before| + p;
    assert forall i | 0 <= i < |ms| :: all[|before| + i] == ms[i];
  }

  lemma BatchInside(front: seq<Message>, tail: seq<Message>, p: nat, batch: Batch)
    ensures BatchAt(front, p, batch) ==> BatchAt(front + tail, p, batch)
    ensures BatchAt(tail, 0, batch) ==> BatchAt(front + tail, |front|, batch)
  {
    assert forall i | 0 <= i < |tail| :: (front + tail)[|front| + i] == tail[i];
  }

  lemma {:induction false} FlattenAt(batches: seq<Batch>, b: nat)
    requires Fit(batches) && b < |batches|
    ensures BatchAt(Flatten(batches), Span(batches[..b]), batches[b])
  {
    var n := |batches| - 1;
    var init, last := batches[..n], batches[n];
    var ms := [AssistantMessage(last.calls)] + ToolMessages(last.calls, last.results);
    assert Flatten(batches) == Flatten(init) + ms;
    BatchInside(Flatten(init), ms, Span(batches[..b]), batches[b]);
    if b == n {
      OneBatch(last);
      FlattenLength(init);
    } else {
      FlattenAt(init, b);
      assert init[..b] == batches[..b];
    }
  }

  lemma {:induction false} FlattenLength(batches: seq<Batch>)
    requires Fit(batches)
    ensures |Flatten(batches)| == Span(batches)
  {
    if batches == [] {
    } else {
      FlattenLength(batches[..|batches| - 1]);
      OneBatch(batches[|batches| - 1]);
    }
  }

  // ------------------------------------------------------------------ the recorded calls, explained by the answers

  /** A call's record is what the model did when it was asked just this, after just the calls before. */
  ghost predicate CallExplained(env: Env, calls: seq<LlmCall>, i: nat)
    requires i < |calls|
  {
    var c := calls[i];
    && c.estimate == EstimatePrompt(c.messages)
    && if c.kind.Offer? then
         var reply := env.chat(calls[..i], c.messages, c.cap);
         c.used == if reply.ChatFailed? then 0
                   else if reply.completionTokens > 0 then reply.completionTokens else EstimateText(reply.content)
       else
         var reply := env.stream(calls[..i], c.messages, c.cap);
         c.used == if reply.StreamRefused? then 0 else reply.tokens
  }

  /** The b-th batch is what the b-th reply asked for, run in order by the tools. */
  ghost predicate BatchExplained(env: Env, calls: seq<LlmCall>, batches: seq<Batch>, b: nat)
    requires b < |batches|
  {
    && b < |calls| && calls[b].kind.Offer?
    && var reply := env.chat(calls[..b], calls[b].messages, calls[b].cap);
    && reply.ChatOk? && batches[b].calls == reply.calls
    && |batches[b].results| <= |batches[b].calls|
    && forall k | 0 <= k < |batches[b].results| ::
         batches[b].results[k] == env.tool(Executed(batches[..b]) + k, batches[b].calls[k])
  }

  function Trimmed(env: Env, conversation: seq<Message>): seq<Message>
    requires env.Valid()
  {
    Fitted(View(env.system, env.window, conversation), env.Budget().maxPromptTokens).0
  }

  /** What a call sends: the trimmed conversation as it then is; with the guidance at the end after a trip; and the same
      again when a reply is streamed again. */
  ghost predicate PromptExplained(env: Env, history: seq<Message>, st: LoopState, i: nat)
    requires env.Valid() && i < |st.calls| && Fit(st.batches)
  {
    match st.calls[i].kind
    case Offer => i <= |st.batches| && st.calls[i].messages == Trimmed(env, history + Flatten(st.batches[..i]))
    case CloseOut =>
      st.calls[i].messages == Trimmed(env, history + Flatten(st.batches))
                              + (if st.trip.None? then []
                                 else [Message("system", env.guidance(st.trip.value), "", "", [])])
    case Restream => i > 0 && st.calls[i].messages == st.calls[i - 1].messages
  }

  function PromptUse(env: Env, calls: seq<LlmCall>): int {
    if calls == [] then 0
    else
      var n := |calls| - 1;
      var c := calls[n];
      var reply := env.chat(calls[..n], c.messages, c.cap);
      PromptUse(env, calls[..n])
      + if !c.kind.Offer? || reply.ChatFailed? then 0
        else if reply.promptTokens > 0 then reply.promptTokens else c.estimate
  }

  function CompletionUse(calls: seq<LlmCall>): nat {
    if calls == [] then 0
    else CompletionUse(calls[..|calls| - 1]) + if calls[|calls| - 1].kind.Offer? then calls[|calls| - 1].used else 0
  }

  /** The budget that has tripped, by precedence. */
  function Due(env: Env, requested: int, promptUse: int, completionUse: int): Option<Reason> {
    var b := env.Budget();
    if requested > b.maxToolCalls then Some(ToolCalls)
    else if completionUse >= b.maxCompletionTokens then Some(CompletionTokens)
    else if EstimateCost(b, promptUse, completionUse) > b.maxEstimatedCostUSD then Some(EstimatedCost)
    else None
  }

  // ------------------------------------------------------------------ the client's stream

  function ToolStream(batches: seq<Batch>): seq<ClientChunk>
    requires Fit(batches)
  {
    if batches == [] then []
    else
      var b := batches[|batches| - 1];
      ToolStream(batches[..|batches| - 1]) + ToolChunksOut(b.calls[..|b.results|])
  }

  lemma {:induction false} ToolChunksAt(calls: seq<ToolCall>, k: nat)
    requires k < |calls|
    ensures |ToolChunksOut(calls)| == 2 * |calls|
    ensures ToolChunksOut(calls)[2 * k] == ToolUse(calls[k].id, calls[k].name)
    ensures ToolChunksOut(calls)[2 * k + 1] == ToolResult(calls[k].id, calls[k].name)
  {
    var n := |calls| - 1;
    if n == 0 {
      assert ToolChunksOut(calls[..0]) == [];
    } else {
      ToolChunksAt(calls[..n], if k < n then k else 0);
    }
  }

  /** The chunks at p and p + 1 are those of one call. */
  predicate ToolPairAt(out: seq<ClientChunk>, p: nat, call: ToolCall) {
    && p + 1 < |out|
    && out[p] == ToolUse(call.id, call.name)
    && out[p + 1] == ToolResult(call.id, call.name)
  }

  lemma PairInFront(front: seq<ClientChunk>, tail: seq<ClientChunk>, p: nat, call: ToolCall)
    ensures ToolPairAt(front, p, call) ==> ToolPairAt(front + tail, p, call)
    ensures ToolPairAt(tail, p, call) ==> ToolPairAt(front + tail, |front| + p, call)
  {
  }

  lemma {:induction false} ToolStreamAt(batches: seq<Batch>, b: nat, k: nat)
    requires Fit(batches) && b < |batches| && k < |batches[b].results|
    ensures ToolPairAt(ToolStream(batches), 2 * (Executed(batches[..b]) + k), batches[b].calls[k])
  {
    var n := |batches| - 1;
    var last := batches[n].calls[..|batches[n].results|];
    var front := ToolStream(batches[..n]);
    ToolStreamLength(batches[..n]);
    if b == n {
      ToolChunksAt(last, k);
      PairInFront(front, ToolChunksOut(last), 2 * k, last[k]);
    } else {
      ToolStreamAt(batches[..n], b, k);
      assert batches[..n][..b] == batches[..b];
      PairInFront(front, ToolChunksOut(last), 2 * (Executed(batches[..b]) + k), batches[b].calls[k]);
    }
  }

  lemma {:induction false} ToolStreamLength(batches: seq<Batch>)
    requires Fit(batches)
    ensures |ToolStream(batches)| == 2 * Executed(batches)
  {
    if batches == [] {
    } else {
      var b := batches[|batches| - 1];
      ToolStreamLength(batches[..|batches| - 1]);
      if b.results != [] {
        ToolChunksAt(b.calls[..|b.results|], 0);
      }
    }
  }

  /** How a run ends: what it sends after the tools' chunks, and what it returns. */
  ghost predicate EndExplained(env: Env, st: LoopState, tail: seq<ClientChunk>) {
    var n := |st.calls| - 1;
    var told := Notice(env, st.trip);
    if |st.calls| == |st.batches| then
      var text := TrimSpace(env.notice(CompletionTokens));
      && st.completionUsed >= env.Budget().maxCompletionTokens
      && tail == told + [CompleteOut(text), DoneOut] && st.status == Finished(text)
    else if n < 0 then false
    else if st.calls[n].kind.Offer? then
      |st.calls| == |st.batches| + 1 &&
      match env.chat(st.calls[..n], st.calls[n].messages, st.calls[n].cap)
      case ChatFailed => tail == [ErrorOut] && st.status == Aborted
      case ChatOk(content, calls, _, _) =>
        calls == [] && tail == [TokenOut(content), CompleteOut(content), DoneOut] && st.status == Finished(content)
    else
      && |st.calls| == |st.batches| + (if st.calls[n].kind.CloseOut? then 1 else 2)
      && (st.calls[n].kind.CloseOut? ==> st.completionUsed < env.Budget().maxCompletionTokens)
      && var head := if st.calls[n].kind.CloseOut? then told else [];
      match env.stream(st.calls[..n], st.calls[n].messages, st.calls[n].cap)
      case StreamRefused => tail == head + [ErrorOut] && st.status == Aborted
      case Streaming(recv, _) =>
        && tail == head + Forward(Chunks(recv, env.parses, env.defaultId))
        && st.status == Finished(Content(BeforeFailure(recv)))
  }

  // ------------------------------------------------------------------ the invariant

  ghost predicate CallsLaw(env: Env, st: LoopState) {
    && (forall i | 0 <= i < |st.calls| :: CallExplained(env, st.calls, i))
    && st.completionUsed == CompletionUse(st.calls) && st.promptUsed == PromptUse(env, st.calls)
  }

  ghost predicate BatchLaw(env: Env, st: LoopState) {
    && (st.status.Running? ==> |st.calls| == |st.batches|)
    && forall b | 0 <= b < |st.batches| :: BatchExplained(env, st.calls, st.batches, b)
  }

  ghost predicate PromptLaw(env: Env, history: seq<Message>, st: LoopState)
    requires env.Valid()
  {
    && Fit(st.batches) && st.messages == history + Flatten(st.batches)
    && forall i | 0 <= i < |st.calls| :: PromptExplained(env, history, st, i)
  }

  predicate TripLaw(env: Env, st: LoopState) {
    st.trip == if !st.status.Running? && SystemTooBig(env) then Some(PromptTokens)
               else Due(env, Requested(st.batches), st.promptUsed, st.completionUsed)
  }

  ghost predicate OutLaw(env: Env, st: LoopState) {
    && Fit(st.batches)
    && var sent := [Started] + ToolStream(st.batches);
    && sent <= st.out
    && if st.status.Running? then st.out == sent else EndExplained(env, st, st.out[|sent|..])
  }

  // ------------------------------------------------------------------ each iteration keeps it

  lemma AddExplained(env: Env, calls: seq<LlmCall>, c: LlmCall)
    requires forall i | 0 <= i < |calls| :: CallExplained(env, calls, i)
    requires CallExplained(env, calls + [c], |calls|)
    ensures forall i | 0 <= i < |calls| + 1 :: CallExplained(env, calls + [c], i)
  {
    forall i | 0 <= i < |calls| ensures CallExplained(env, calls + [c], i) {
      assert CallExplained(env, calls, i);
      assert (calls + [c])[..i] == calls[..i] && (calls + [c])[i] == calls[i];
    }
  }

  lemma AddUse(env: Env, calls: seq<LlmCall>, c: LlmCall)
    ensures CompletionUse(calls + [c]) == CompletionUse(calls) + if c.kind.Offer? then c.used else 0
    ensures !c.kind.Offer? ==> PromptUse(env, calls + [c]) == PromptUse(env, calls)
    ensures c.kind.Offer? ==>
              var reply := env.chat(calls, c.messages, c.cap);
              PromptUse(env, calls + [c]) == PromptUse(env, calls)
                                             + if reply.ChatFailed? then 0
                                               else if reply.promptTokens > 0 then reply.promptTokens else c.estimate
  {
    assert (calls + [c])[..|calls|] == calls;
  }

  lemma StreamedLaw(env: Env, st: LoopState, kind: Kind, messages: seq<Message>, cap: nat)
    requires CallsLaw(env, st) && !kind.Offer?
    ensures CallsLaw(env, Streamed(env, st, kind, messages, cap))
  {
    var next := Streamed(env, st, kind, messages, cap);
    var c := next.calls[|st.calls|];
    assert next.calls == st.calls + [c] && next.calls[..|st.calls|] == st.calls;
    AddExplained(env, st.calls, c);
    AddUse(env, st.calls, c);
  }

  /** The state once the reply to an offer has been counted. */
  lemma OfferedLaw(env: Env, st: LoopState, fitted: seq<Message>, estimate: nat, cap: nat)
    requires CallsLaw(env, st) && estimate == EstimatePrompt(fitted)
    requires env.chat(st.calls, fitted, cap).ChatOk?
    ensures CallsLaw(env, Charged(env, st, env.chat(st.calls, fitted, cap), fitted, estimate, cap))
  {
    var reply := env.chat(st.calls, fitted, cap);
    var c := LlmCall(Offer, fitted, estimate, cap, Counted(reply));
    assert (st.calls + [c])[..|st.calls|] == st.calls;
    AddExplained(env, st.calls, c);
    AddUse(env, st.calls, c);
  }

  lemma RefusedLaw(env: Env, st: LoopState, fitted: seq<Message>, estimate: nat, cap: nat)
    requires CallsLaw(env, st) && estimate == EstimatePrompt(fitted)
    requires env.chat(st.calls, fitted, cap).ChatFailed?
    ensures CallsLaw(env, st.(calls := st.calls + [LlmCall(Offer, fitted, estimate, cap, 0)],
                              out := st.out + [ErrorOut], status := Aborted))
  {
    var c := LlmCall(Offer, fitted, estimate, cap, 0);
    assert (st.calls + [c])[..|st.calls|] == st.calls;
    AddExplained(env, st.calls, c);
    AddUse(env, st.calls, c);
  }

  lemma CloseCallsLaw(env: Env, st: LoopState, fitted: seq<Message>)
    requires CallsLaw(env, st)
    ensures CallsLaw(env, Close(env, st, fitted))
  {
    var remaining := Remaining(env.Budget(), st.completionUsed);
    var messages := if st.trip.Some? then fitted + [GuidanceMessage(env.guidance(st.trip.value))] else fitted;
    var told := if st.trip.Some? then st.(out := st.out + [TokenOut(env.notice(st.trip.value) + " ")]) else st;
    if remaining != 0 {
      StreamedLaw(env, told, CloseOut, messages, remaining);
    }
  }

  lemma OfferCallsLaw(env: Env, st: LoopState, fitted: seq<Message>, estimate: nat)
    requires CallsLaw(env, st) && estimate == EstimatePrompt(fitted)
    ensures CallsLaw(env, OfferTools(env, st, fitted, estimate))
  {
    var remaining := Remaining(env.Budget(), st.completionUsed);
    if remaining != 0 {
      match env.chat(st.calls, fitted, remaining) {
        case ChatFailed => RefusedLaw(env, st, fitted, estimate, remaining);
        case ChatOk(content, calls, pt, ct) =>
          OfferedLaw(env, st, fitted, estimate, remaining);
          if calls == [] && content == "" {
            StreamedLaw(env, Charged(env, st, ChatOk(content, calls, pt, ct), fitted, estimate, remaining), Restream,
                        fitted, remaining);
          }
      }
    }
  }

  lemma EarlierBatch(env: Env, calls: seq<LlmCall>, batches: seq<Batch>, moreCalls: seq<LlmCall>,
                     moreBatches: seq<Batch>, b: nat)
    requires b < |batches| && BatchExplained(env, calls, batches, b)
    requires calls <= moreCalls && batches <= moreBatches
    ensures BatchExplained(env, moreCalls, moreBatches, b)
  {
    assert moreCalls[..b] == calls[..b] && moreBatches[..b] == batches[..b];
  }

  lemma NewBatch(env: Env, calls: seq<LlmCall>, c: LlmCall, batches: seq<Batch>, asked: seq<ToolCall>, k: nat)
    requires |calls| == |batches| && c.kind.Offer? && k <= |asked|
    requires var reply := env.chat(calls, c.messages, c.cap); reply.ChatOk? && reply.calls == asked
    ensures BatchExplained(env, calls + [c], batches + [Batch(asked, Results(env, Executed(batches), asked, k))],
                           |batches|)
  {
    var n, results := |batches|, Results(env, Executed(batches), asked, k);
    var all := batches + [Batch(asked, results)];
    assert (calls + [c])[..n] == calls && all[..n] == batches;
    forall j | 0 <= j < k ensures all[n].results[j] == env.tool(Executed(all[..n]) + j, asked[j]) {
      ResultsAt(env, Executed(batches), asked, k, j);
    }
  }

  lemma EarlierBatches(env: Env, st: LoopState, moreCalls: seq<LlmCall>, moreBatches: seq<Batch>)
    requires BatchLaw(env, st) && st.calls <= moreCalls && st.batches <= moreBatches
    ensures forall b | 0 <= b < |st.batches| :: BatchExplained(env, moreCalls, moreBatches, b)
  {
    forall b | 0 <= b < |st.batches| ensures BatchExplained(env, moreCalls, moreBatches, b) {
      assert BatchExplained(env, st.calls, st.batches, b);
      EarlierBatch(env, st.calls, st.batches, moreCalls, moreBatches, b);
    }
  }

  lemma RunBatchLaw(env: Env, st: LoopState, fitted: seq<Message>, estimate: nat, cap: nat)
    requires BatchLaw(env, st) && st.status.Running? && st.ran == Executed(st.batches)
    requires var reply := env.chat(st.calls, fitted, cap); reply.ChatOk? && reply.calls != []
    ensures var reply := env.chat(st.calls, fitted, cap);
            BatchLaw(env, RunBatch(env, Charged(env, st, reply, fitted, estimate, cap), reply.calls))
  {
    var reply := env.chat(st.calls, fitted, cap);
    var next := RunBatch(env, Charged(env, st, reply, fitted, estimate, cap), reply.calls);
    var c := LlmCall(Offer, fitted, estimate, cap, Counted(reply));
    NewBatch(env, st.calls, c, st.batches, reply.calls, Affordable(env, st.ran, reply.calls));
    EarlierBatches(env, st, next.calls, next.batches);
  }

  /** Steps that end the run leave the batches as they are. */
  lemma EndBatchLaw(env: Env, st: LoopState, next: LoopState)
    requires BatchLaw(env, st) && !next.status.Running? && st.calls <= next.calls && next.batches == st.batches
    ensures BatchLaw(env, next)
  {
    EarlierBatches(env, st, next.calls, next.batches);
  }

  /** What closing the loop changes. */
  lemma CloseShape(env: Env, st: LoopState, fitted: seq<Message>)
    ensures var next := Close(env, st, fitted);
            && !next.status.Running? && st.calls <= next.calls && next.batches == st.batches
            && next.messages == st.messages && next.trip == st.trip
            && next.promptUsed == st.promptUsed && next.completionUsed == st.completionUsed
  {
  }

  /** What offering tools changes when it ends the run. */
  lemma OfferEndShape(env: Env, st: LoopState, fitted: seq<Message>, estimate: nat)
    requires st.status.Running? && !OfferTools(env, st, fitted, estimate).status.Running?
    ensures var next := OfferTools(env, st, fitted, estimate);
            st.calls <= next.calls && next.batches == st.batches && next.messages == st.messages
  {
  }

  lemma RunningOffer(env: Env, st: LoopState, fitted: seq<Message>, estimate: nat)
    requires st.status.Running? && OfferTools(env, st, fitted, estimate).status.Running?
    requires st.completionUsed < env.Budget().maxCompletionTokens
    ensures var cap := Remaining(env.Budget(), st.completionUsed);
            var reply := env.chat(st.calls, fitted, cap);
            && reply.ChatOk? && reply.calls != []
            && OfferTools(env, st, fitted, estimate)
               == RunBatch(env, Charged(env, st, reply, fitted, estimate, cap), reply.calls)
  {
  }

  lemma OfferBatchLaw(env: Env, st: LoopState, fitted: seq<Message>, estimate: nat)
    requires BatchLaw(env, st) && st.status.Running? && st.ran == Executed(st.batches)
    requires st.completionUsed < env.Budget().maxCompletionTokens
    ensures BatchLaw(env, OfferTools(env, st, fitted, estimate))
  {
    var next := OfferTools(env, st, fitted, estimate);
    if next.status.Running? {
      RunningOffer(env, st, fitted, estimate);
      RunBatchLaw(env, st, fitted, estimate, Remaining(env.Budget(), st.completionUsed));
    } else {
      OfferEndShape(env, st, fitted, estimate);
      EndBatchLaw(env, st, next);
    }
  }

  // ------------------------------------------------------------------ prompts

  lemma EarlierPrompt(env: Env, history: seq<Message>, st: LoopState, next: LoopState, i: nat)
    requires env.Valid() && Fit(st.batches) && Fit(next.batches) && i < |st.calls| && AllOffer(st.calls)
    requires PromptExplained(env, history, st, i) && st.calls <= next.calls && st.batches <= next.batches
    ensures PromptExplained(env, history, next, i)
  {
    assert next.calls[i] == st.calls[i];
    assert next.batches[..i] == st.batches[..i];
  }

  lemma EarlierPrompts(env: Env, history: seq<Message>, st: LoopState, next: LoopState)
    requires env.Valid() && PromptLaw(env, history, st) && AllOffer(st.calls)
    requires Fit(next.batches) && st.calls <= next.calls && st.batches <= next.batches
    ensures forall i | 0 <= i < |st.calls| :: PromptExplained(env, history, next, i)
  {
    forall i | 0 <= i < |st.calls| ensures PromptExplained(env, history, next, i) {
      assert PromptExplained(env, history, st, i);
      EarlierPrompt(env, history, st, next, i);
    }
  }

  lemma ClosePromptLaw(env: Env, history: seq<Message>, st: LoopState)
    requires env.Valid() && PromptLaw(env, history, st) && AllOffer(st.calls)
    ensures PromptLaw(env, history, Close(env, st, Trimmed(env, st.messages)))
  {
    var next := Close(env, st, Trimmed(env, st.messages));
    CloseShape(env, st, Trimmed(env, st.messages));
    EarlierPrompts(env, history, st, next);
    if |next.calls| > |st.calls| {
      assert Trimmed(env, st.messages) + [] == Trimmed(env, st.messages);
      assert PromptExplained(env, history, next, |st.calls|);
    }
  }

  /** The calls that an iteration offering tools adds: none, the offer, or the offer and the reply streamed again. */
  predicate Added(before: seq<LlmCall>, after: seq<LlmCall>, fitted: seq<Message>) {
    var n := |before|;
    && before <= after && |after| <= n + 2
    && (|after| > n ==> after[n].kind.Offer? && after[n].messages == fitted)
    && (|after| > n + 1 ==> after[n + 1].kind.Restream? && after[n + 1].messages == fitted)
  }

  lemma OfferAdds(env: Env, st: LoopState, fitted: seq<Message>, estimate: nat)
    ensures Added(st.calls, OfferTools(env, st, fitted, estimate).calls, fitted)
  {
  }

  lemma OfferPrompt(env: Env, history: seq<Message>, next: LoopState, n: nat, conversation: seq<Message>)
    requires env.Valid() && Fit(next.batches) && n < |next.calls| && n <= |next.batches| && next.calls[n].kind.Offer?
    requires conversation == history + Flatten(next.batches[..n])
    requires next.calls[n].messages == Trimmed(env, conversation)
    ensures PromptExplained(env, history, next, n)
  {
  }

  lemma RestreamPrompt(env: Env, history: seq<Message>, next: LoopState, n: nat)
    requires env.Valid() && Fit(next.batches) && n + 1 < |next.calls| && next.calls[n + 1].kind.Restream?
    requires next.calls[n + 1].messages == next.calls[n].messages
    ensures PromptExplained(env, history, next, n + 1)
  {
  }

  lemma AddedPrompts(env: Env, history: seq<Message>, next: LoopState, n: nat, conversation: seq<Message>)
    requires env.Valid() && Fit(next.batches) && n <= |next.batches| && n <= |next.calls|
    requires conversation == history + Flatten(next.batches[..n])
    requires Added(next.calls[..n], next.calls, Trimmed(env, conversation))
    ensures forall i | n <= i < |next.calls| :: PromptExplained(env, history, next, i)
  {
    if |next.calls| > n {
      OfferPrompt(env, history, next, n, conversation);
    }
    if |next.calls| > n + 1 {
      RestreamPrompt(env, history, next, n);
    }
  }

  lemma AddedPromptLaw(env: Env, history: seq<Message>, st: LoopState, next: LoopState)
    requires env.Valid() && PromptLaw(env, history, st) && AllOffer(st.calls) && |st.calls| == |st.batches|
    requires Added(st.calls, next.calls, Trimmed(env, st.messages)) && st.batches <= next.batches
    requires Fit(next.batches) && next.messages == history + Flatten(next.batches)
    ensures PromptLaw(env, history, next)
  {
    var n := |st.calls|;
    EarlierPrompts(env, history, st, next);
    assert next.batches[..n] == st.batches && next.calls[..n] == st.calls;
    AddedPrompts(env, history, next, n, st.messages);
  }

  // ------------------------------------------------------------------ trips

  lemma ChargedTrip(env: Env, st: LoopState, reply: ChatReply, fitted: seq<Message>, estimate: nat, cap: nat)
    requires st.trip.None? && reply.ChatOk? && Requested(st.batches) <= env.Budget().maxToolCalls
    ensures var charged := Charged(env, st, reply, fitted, estimate, cap);
            charged.trip == Due(env, Requested(st.batches), charged.promptUsed, charged.completionUsed)
  {
  }

  lemma RunBatchTrip(env: Env, st: LoopState, calls: seq<ToolCall>)
    requires st.ran == Requested(st.batches) <= env.Budget().maxToolCalls
    requires st.trip == Due(env, Requested(st.batches), st.promptUsed, st.completionUsed)
    ensures var next := RunBatch(env, st, calls);
            next.trip == Due(env, Requested(next.batches), next.promptUsed, next.completionUsed)
  {
    assert RunBatch(env, st, calls).batches[..|st.batches|] == st.batches;
  }

  lemma OfferTripLaw(env: Env, st: LoopState, fitted: seq<Message>, estimate: nat)
    requires st.status.Running? && st.trip.None? && TripLaw(env, st) && !SystemTooBig(env)
    requires st.ran == AtMost(Requested(st.batches), env.Budget().maxToolCalls)
    ensures TripLaw(env, OfferTools(env, st, fitted, estimate))
  {
    var cap := Remaining(env.Budget(), st.completionUsed);
    var reply := env.chat(st.calls, fitted, cap);
    if reply.ChatOk? {
      var charged := Charged(env, st, reply, fitted, estimate, cap);
      ChargedTrip(env, st, reply, fitted, estimate, cap);
      RunBatchTrip(env, charged, reply.calls);
      OfferTripCases(env, st, fitted, estimate);
    }
  }

  lemma OfferTripCases(env: Env, st: LoopState, fitted: seq<Message>, estimate: nat)
    requires st.completionUsed < env.Budget().maxCompletionTokens
    requires env.chat(st.calls, fitted, Remaining(env.Budget(), st.completionUsed)).ChatOk?
    ensures var cap := Remaining(env.Budget(), st.completionUsed);
            var reply := env.chat(st.calls, fitted, cap);
            var charged := Charged(env, st, reply, fitted, estimate, cap);
            var next := OfferTools(env, st, fitted, estimate);
            if reply.calls != [] then next == RunBatch(env, charged, reply.calls)
            else
              && next.trip == charged.trip && next.batches == charged.batches
              && next.promptUsed == charged.promptUsed && next.completionUsed == charged.completionUsed
  {
  }

  // ------------------------------------------------------------------ the stream

  lemma RunBatchOut(env: Env, st: LoopState, calls: seq<ToolCall>, out: seq<ClientChunk>)
    requires Fit(st.batches) && st.out == [Started] + ToolStream(st.batches)
    ensures var next := RunBatch(env, st, calls);
            Fit(next.batches) && next.out == [Started] + ToolStream(next.batches)
  {
    var next := RunBatch(env, st, calls);
    assert next.batches[..|st.batches|] == st.batches;
    Regroup([Started], ToolStream(st.batches), ToolChunksOut(calls[..Affordable(env, st.ran, calls)]));
  }

  lemma StreamedEnd(env: Env, st: LoopState, kind: Kind, messages: seq<Message>, cap: nat)
    ensures var next := Streamed(env, st, kind, messages, cap);
            && st.out <= next.out && next.calls[..|st.calls|] == st.calls && |next.calls| == |st.calls| + 1
            && next.calls[|st.calls|].kind == kind && next.calls[|st.calls|].messages == messages
            && next.calls[|st.calls|].cap == cap && next.batches == st.batches && next.trip == st.trip
            && match env.stream(st.calls, messages, cap)
               case StreamRefused => next.out == st.out + [ErrorOut] && next.status == Aborted
               case Streaming(recv, _) =>
                 && next.out == st.out + Forward(Chunks(recv, env.parses, env.defaultId))
                 && next.status == Finished(Content(BeforeFailure(recv)))
  {
    match env.stream(st.calls, messages, cap)
    case StreamRefused =>
    case Streaming(recv, _) => ReplyIsWellFormed(recv, env.parses, env.defaultId);
  }

  function Notice(env: Env, trip: Option<Reason>): seq<ClientChunk> {
    if trip.None? then [] else [TokenOut(env.notice(trip.value) + " ")]
  }

  lemma CloseWithoutCall(env: Env, st: LoopState, fitted: seq<Message>)
    requires OutLaw(env, st) && st.status.Running? && |st.calls| == |st.batches|
    requires Remaining(env.Budget(), st.completionUsed) == 0
    ensures OutLaw(env, Close(env, st, fitted))
  {
    var next, tail := Close(env, st, fitted), [CompleteOut(TrimSpace(env.notice(CompletionTokens))), DoneOut];
    Regroup(st.out, Notice(env, st.trip), tail);
    assert st.out + [] + tail == st.out + tail;
    EndOut(env, st, next, Notice(env, st.trip) + tail);
  }

  lemma CloseByCall(env: Env, st: LoopState, told: LoopState, messages: seq<Message>, cap: nat)
    requires OutLaw(env, st) && st.status.Running? && |st.calls| == |st.batches|
    requires told == st.(out := st.out + Notice(env, st.trip))
    requires st.completionUsed < env.Budget().maxCompletionTokens
    ensures OutLaw(env, Streamed(env, told, CloseOut, messages, cap))
  {
    var next := Streamed(env, told, CloseOut, messages, cap);
    StreamedEnd(env, told, CloseOut, messages, cap);
    match env.stream(st.calls, messages, cap)
    case StreamRefused =>
      Regroup(st.out, Notice(env, st.trip), [ErrorOut]);
      EndOut(env, st, next, Notice(env, st.trip) + [ErrorOut]);
    case Streaming(recv, _) =>
      var sent := Forward(Chunks(recv, env.parses, env.defaultId));
      Regroup(st.out, Notice(env, st.trip), sent);
      EndOut(env, st, next, Notice(env, st.trip) + sent);
  }

  lemma CloseOutLaw(env: Env, st: LoopState, fitted: seq<Message>)
    requires OutLaw(env, st) && st.status.Running? && |st.calls| == |st.batches|
    ensures OutLaw(env, Close(env, st, fitted))
  {
    var remaining := Remaining(env.Budget(), st.completionUsed);
    var messages := if st.trip.Some? then fitted + [GuidanceMessage(env.guidance(st.trip.value))] else fitted;
    var told := st.(out := st.out + Notice(env, st.trip));
    assert st.out + [] == st.out;
    if remaining == 0 {
      CloseWithoutCall(env, st, fitted);
    } else {
      CloseByCall(env, st, told, messages, remaining);
    }
  }

  /** A step that ends the run, whose additions to the stream explain it. */
  lemma EndOut(env: Env, st: LoopState, next: LoopState, tail: seq<ClientChunk>)
    requires OutLaw(env, st) && st.status.Running? && !next.status.Running? && next.batches == st.batches
    requires next.out == st.out + tail && EndExplained(env, next, tail)
    ensures OutLaw(env, next)
  {
    assert next.out[|st.out|..] == tail;
  }

  lemma AnswerOut(env: Env, st: LoopState, next: LoopState, fitted: seq<Message>, cap: nat, tail: seq<ClientChunk>)
    requires OutLaw(env, st) && st.status.Running? && |st.calls| == |st.batches| && next.batches == st.batches
    requires |next.calls| == |st.calls| + 1 && next.calls[..|st.calls|] == st.calls && next.out == st.out + tail
    requires var c := next.calls[|st.calls|]; c.kind.Offer? && c.messages == fitted && c.cap == cap
    requires match env.chat(st.calls, fitted, cap)
             case ChatFailed => tail == [ErrorOut] && next.status == Aborted
             case ChatOk(content, calls, _, _) =>
               && calls == [] && tail == [TokenOut(content), CompleteOut(content), DoneOut]
               && next.status == Finished(content)
    ensures OutLaw(env, next)
  {
    EndOut(env, st, next, tail);
  }

  lemma RestreamOut(env: Env, st: LoopState, charged: LoopState, fitted: seq<Message>, cap: nat)
    requires OutLaw(env, st) && st.status.Running? && |st.calls| == |st.batches| && charged.batches == st.batches
    requires |charged.calls| == |st.calls| + 1 && charged.out == st.out
    ensures OutLaw(env, Streamed(env, charged, Restream, fitted, cap))
  {
    var next := Streamed(env, charged, Restream, fitted, cap);
    StreamedEnd(env, charged, Restream, fitted, cap);
    match env.stream(charged.calls, fitted, cap)
    case StreamRefused =>
      assert [] + [ErrorOut] == [ErrorOut];
      EndOut(env, st, next, [ErrorOut]);
    case Streaming(recv, _) =>
      var sent := Forward(Chunks(recv, env.parses, env.defaultId));
      assert [] + sent == sent;
      EndOut(env, st, next, sent);
  }

  lemma OfferOutLaw(env: Env, st: LoopState, fitted: seq<Message>, estimate: nat)
    requires OutLaw(env, st) && st.status.Running? && |st.calls| == |st.batches|
    requires st.completionUsed < env.Budget().maxCompletionTokens
    ensures OutLaw(env, OfferTools(env, st, fitted, estimate))
  {
    var next := OfferTools(env, st, fitted, estimate);
    var cap := Remaining(env.Budget(), st.completionUsed);
    var reply := env.chat(st.calls, fitted, cap);
    if next.status.Running? {
      RunningOffer(env, st, fitted, estimate);
      RunBatchOut(env, Charged(env, st, reply, fitted, estimate, cap), reply.calls, st.out);
    } else if reply.ChatFailed? {
      AnswerOut(env, st, next, fitted, cap, [ErrorOut]);
    } else if reply.content != "" {
      AnswerOut(env, st, next, fitted, cap, [TokenOut(reply.content), CompleteOut(reply.content), DoneOut]);
    } else {
      RestreamOut(env, st, Charged(env, st, reply, fitted, estimate, cap), fitted, cap);
    }
  }

  // ------------------------------------------------------------------ whole runs

  ghost predicate Explained(env: Env, history: seq<Message>, st: LoopState)
    requires env.Valid()
  {
    CallsLaw(env, st) && BatchLaw(env, st) && PromptLaw(env, history, st) && TripLaw(env, st) && OutLaw(env, st)
  }

  /** Noting a trip before closing touches none of what has been recorded. */
  lemma NotedTrip(env: Env, history: seq<Message>, st: LoopState, trip: Option<Reason>)
    requires env.Valid() && AllOffer(st.calls)
    requires CallsLaw(env, st) && BatchLaw(env, st) && PromptLaw(env, history, st) && OutLaw(env, st)
    requires st.status.Running?
    ensures var noted := st.(trip := trip);
            CallsLaw(env, noted) && BatchLaw(env, noted) && PromptLaw(env, history, noted) && OutLaw(env, noted)
  {
    EarlierPrompts(env, history, st, st.(trip := trip));
  }

  lemma CloseExplained(env: Env, history: seq<Message>, st: LoopState, trip: Option<Reason>)
    requires env.Valid() && Explained(env, history, st) && RunInv(env, history, st) && st.status.Running?
    requires trip == if SystemTooBig(env) then Some(PromptTokens) else st.trip
    ensures Explained(env, history, Close(env, st.(trip := trip), Trimmed(env, st.messages)))
  {
    var noted, fitted := st.(trip := trip), Trimmed(env, st.messages);
    NotedTrip(env, history, st, trip);
    CloseShape(env, noted, fitted);
    CloseCallsLaw(env, noted, fitted);
    EndBatchLaw(env, noted, Close(env, noted, fitted));
    ClosePromptLaw(env, history, noted);
    CloseOutLaw(env, noted, fitted);
  }

  lemma OfferExplained(env: Env, history: seq<Message>, st: LoopState, estimate: nat)
    requires env.Valid() && Explained(env, history, st) && RunInv(env, history, st) && st.status.Running?
    requires st.trip.None? && !SystemTooBig(env) && estimate == EstimatePrompt(Trimmed(env, st.messages))
    requires HistoryInv(env, history, OfferTools(env, st, Trimmed(env, st.messages), estimate))
    ensures Explained(env, history, OfferTools(env, st, Trimmed(env, st.messages), estimate))
  {
    var fitted := Trimmed(env, st.messages);
    var next := OfferTools(env, st, fitted, estimate);
    assert st.completionUsed < env.Budget().maxCompletionTokens;
    OfferCallsLaw(env, st, fitted, estimate);
    OfferBatchLaw(env, st, fitted, estimate);
    OfferAdds(env, st, fitted, estimate);
    OfferKeepsBatches(env, st, fitted, estimate);
    AddedPromptLaw(env, history, st, next);
    OfferTripLaw(env, st, fitted, estimate);
    OfferOutLaw(env, st, fitted, estimate);
  }

  lemma OfferKeepsBatches(env: Env, st: LoopState, fitted: seq<Message>, estimate: nat)
    ensures st.batches <= OfferTools(env, st, fitted, estimate).batches
  {
  }

  lemma StepExplained(env: Env, history: seq<Message>, st: LoopState)
    requires env.Valid() && Explained(env, history, st) && RunInv(env, history, st) && st.status.Running?
    ensures Explained(env, history, Step(env, st))
  {
    var (fitted, dropped, estimate) := Fitted(View(env.system, env.window, st.messages), env.Budget().maxPromptTokens);
    ViewFits(env, st);
    StepHistory(env, history, st);
    var trip := if estimate > env.Budget().maxPromptTokens then Some(PromptTokens) else st.trip;
    if trip.Some? || st.iteration == env.MaxIterations() {
      CloseExplained(env, history, st, trip);
    } else {
      OfferExplained(env, history, st, estimate);
    }
  }

  lemma {:induction false} DriveExplained(env: Env, history: seq<Message>, st: LoopState)
    requires env.Valid() && Explained(env, history, st) && RunInv(env, history, st)
    ensures Explained(env, history, Drive(env, st))
    decreases env.MaxIterations() + 1 - st.iteration
  {
    if st.status.Running? {
      StepExplained(env, history, st);
      StepKeeps(env, history, st);
      StepAdvances(env, st);
      if Step(env, st).status.Running? {
        DriveExplained(env, history, Step(env, st));
      }
    }
  }

  lemma StepKeeps(env: Env, history: seq<Message>, st: LoopState)
    requires env.Valid() && RunInv(env, history, st) && st.status.Running?
    ensures RunInv(env, history, Step(env, st))
  {
    StepCalls(env, st);
    StepTrip(env, st);
    StepStream(env, st);
    StepHistory(env, history, st);
  }

  lemma BeginExplained(env: Env, history: seq<Message>)
    requires env.Valid()
    ensures Explained(env, history, Begin(history))
  {
    assert EstimateCost(env.Budget(), 0, 0) == 0.0;
  }

  lemma RunExplained(env: Env, history: seq<Message>)
    requires env.Valid()
    ensures Explained(env, history, Run(env, history)) && RunInv(env, history, Run(env, history))
    ensures !Run(env, history).status.Running?
  {
    BeginExplained(env, history);
    DriveExplained(env, history, Begin(history));
    RunKeeps(env, history);
  }

  lemma {:induction false} AfterExplained(env: Env, history: seq<Message>, n: nat)
    requires env.Valid()
    ensures var st := After(Iteration(env), Begin(history), n); Explained(env, history, st) && RunInv(env, history, st)
  {
    if n == 0 {
      BeginExplained(env, history);
    } else {
      AfterExplained(env, history, n - 1);
      var before := After(Iteration(env), Begin(history), n - 1);
      if before.status.Running? {
        StepExplained(env, history, before);
        StepKeeps(env, history, before);
      }
    }
  }

  // ------------------------------------------------------------------ main results

  /** Tools are never offered without completion tokens left: the reply that uses the last of them trips the budget. */
  lemma OffersHaveTokens(env: Env, history: seq<Message>, n: nat)
    requires env.Valid()
    ensures var st := After(Iteration(env), Begin(history), n);
            st.status.Running? && st.trip.None? ==> Remaining(env.Budget(), st.completionUsed) > 0
  {
    AfterExplained(env, history, n);
  }

  /** Where the messages of the b-th batch begin. */
  function Start(history: seq<Message>, batches: seq<Batch>, b: nat): nat
    requires b <= |batches|
  {
    |history| + Span(batches[..b])
  }

  lemma BatchInPlace(env: Env, history: seq<Message>, st: LoopState, b: nat)
    requires env.Valid() && PromptLaw(env, history, st) && b < |st.batches|
    ensures BatchAt(st.messages, Start(history, st.batches, b), st.batches[b])
  {
    FlattenAt(st.batches, b);
    ShiftBatch(Flatten(st.batches), Span(st.batches[..b]), st.batches[b], history, []);
    assert history + Flatten(st.batches) + [] == st.messages;
  }

  /** The b-th batch, message by message: the assistant's message with exactly its calls, and then, in order, the tools'
      answers, each under the id of its call. */
  ghost predicate Conversed(env: Env, history: seq<Message>, st: LoopState, b: nat)
    requires b < |st.batches|
  {
    var p, batch := Start(history, st.batches, b), st.batches[b];
    && BatchExplained(env, st.calls, st.batches, b)
    && p + |batch.results| < |st.messages|
    && st.messages[p] == Message("assistant", "", "", "", batch.calls)
    && forall k | 0 <= k < |batch.results| ::
         st.messages[p + 1 + k]
         == Message("tool", env.tool(Executed(st.batches[..b]) + k, batch.calls[k]), "", batch.calls[k].id, [])
  }

  lemma ConversedAt(env: Env, history: seq<Message>, st: LoopState, b: nat)
    requires env.Valid() && PromptLaw(env, history, st) && BatchLaw(env, st) && b < |st.batches|
    ensures Conversed(env, history, st, b)
  {
    assert BatchExplained(env, st.calls, st.batches, b);
    BatchInPlace(env, history, st, b);
  }

  lemma ConversationLength(env: Env, history: seq<Message>, st: LoopState)
    requires env.Valid() && PromptLaw(env, history, st)
    ensures history <= st.messages && |st.messages| == Start(history, st.batches, |st.batches|)
  {
    FlattenLength(st.batches);
    assert st.batches[..|st.batches|] == st.batches;
  }

  /** After the history come the batches in turn, and nothing else. */
  lemma ConversationIsExplained(env: Env, history: seq<Message>)
    requires env.Valid()
    ensures var end := Run(env, history);
            && history <= end.messages && |end.messages| == Start(history, end.batches, |end.batches|)
            && forall b | 0 <= b < |end.batches| :: Conversed(env, history, end, b)
  {
    RunExplained(env, history);
    var end := Run(env, history);
    ConversationLength(env, history, end);
    forall b | 0 <= b < |end.batches| ensures Conversed(env, history, end, b) {
      ConversedAt(env, history, end, b);
    }
  }

  lemma {:induction false} FlattenPrefix(batches: seq<Batch>, b: nat)
    requires Fit(batches) && b <= |batches|
    ensures Span(batches[..b]) <= |Flatten(batches)| && Flatten(batches)[..Span(batches[..b])] == Flatten(batches[..b])
  {
    if b == |batches| {
      assert batches[..b] == batches;
      FlattenLength(batches);
    } else {
      var init := batches[..|batches| - 1];
      FlattenPrefix(init, b);
      assert init[..b] == batches[..b];
    }
  }

  /** What a call sent, given the whole conversation afterwards. */
  ghost predicate Sent(env: Env, history: seq<Message>, st: LoopState, i: nat)
    requires env.Valid() && i < |st.calls|
  {
    match st.calls[i].kind
    case Offer =>
      && i <= |st.batches| && Start(history, st.batches, i) <= |st.messages|
      && st.calls[i].messages == Trimmed(env, st.messages[..Start(history, st.batches, i)])
    case CloseOut =>
      st.calls[i].messages == Trimmed(env, st.messages)
                              + (if st.trip.None? then []
                                 else [Message("system", env.guidance(st.trip.value), "", "", [])])
    case Restream => i > 0 && st.calls[i].messages == st.calls[i - 1].messages
  }

  /** Every call of the model is recorded as it was answered, and sent what the conversation then was: the first calls
      offer tools, the i-th after i batches; what follows closes the run. */
  lemma CallsAreExplained(env: Env, history: seq<Message>)
    requires env.Valid()
    ensures var end := Run(env, history);
            forall i | 0 <= i < |end.calls| ::
              CallExplained(env, end.calls, i) && Sent(env, history, end, i)
  {
    RunExplained(env, history);
    var end := Run(env, history);
    forall i | 0 <= i < |end.calls| ensures CallExplained(env, end.calls, i) && Sent(env, history, end, i) {
      CallAt(env, history, end, i);
    }
  }

  lemma CallAt(env: Env, history: seq<Message>, st: LoopState, i: nat)
    requires env.Valid() && PromptLaw(env, history, st) && CallsLaw(env, st) && i < |st.calls|
    ensures CallExplained(env, st.calls, i) && Sent(env, history, st, i)
  {
    assert CallExplained(env, st.calls, i) && PromptExplained(env, history, st, i);
    if st.calls[i].kind.Offer? {
      FlattenPrefix(st.batches, i);
      assert st.messages[..Start(history, st.batches, i)] == history + Flatten(st.batches[..i]);
    }
  }

  /** The budget that has tripped at the end of a run, from what was asked for and used. */
  lemma TripIsExplained(env: Env, history: seq<Message>)
    requires env.Valid()
    ensures var end := Run(env, history);
            && end.promptUsed == PromptUse(env, end.calls) && end.completionUsed == CompletionUse(end.calls)
            && end.trip == (if EstimatePrompt([env.system]) > env.Budget().maxPromptTokens then Some(PromptTokens)
                            else Due(env, Requested(end.batches), PromptUse(env, end.calls), CompletionUse(end.calls)))
  {
    RunExplained(env, history);
  }

  /** The chunks of the k-th tool that the b-th batch runs. */
  predicate Streams(st: LoopState, b: nat, k: nat)
    requires b < |st.batches| && k < |st.batches[b].results|
  {
    && k < |st.batches[b].calls|
    && ToolPairAt(st.out, 1 + 2 * (Executed(st.batches[..b]) + k), st.batches[b].calls[k])
  }

  lemma StreamsAt(st: LoopState, b: nat, k: nat)
    requires Fit(st.batches) && [Started] + ToolStream(st.batches) <= st.out
    requires b < |st.batches| && k < |st.batches[b].results|
    ensures Streams(st, b, k)
  {
    var q, call := 2 * (Executed(st.batches[..b]) + k), st.batches[b].calls[k];
    var sent := [Started] + ToolStream(st.batches);
    ToolStreamAt(st.batches, b, k);
    PairInFront([Started], ToolStream(st.batches), q, call);
    assert st.out == sent + st.out[|sent|..];
    PairInFront(sent, st.out[|sent|..], 1 + q, call);
  }

  /** The start, then for each executed tool its use and its result, then the ending. */
  ghost predicate StreamShape(env: Env, st: LoopState) {
    var n := 1 + 2 * Executed(st.batches);
    && n <= |st.out| && st.out[0] == Started && EndExplained(env, st, st.out[n..])
    && forall b, k | 0 <= b < |st.batches| && 0 <= k < |st.batches[b].results| :: Streams(st, b, k)
  }

  lemma StreamShapeOf(env: Env, st: LoopState)
    requires OutLaw(env, st) && !st.status.Running?
    ensures StreamShape(env, st)
  {
    var sent := [Started] + ToolStream(st.batches);
    ToolStreamLength(st.batches);
    assert |sent| == 1 + 2 * Executed(st.batches) && st.out[..|sent|] == sent && sent[0] == Started;
    forall b, k | 0 <= b < |st.batches| && 0 <= k < |st.batches[b].results| ensures Streams(st, b, k) {
      StreamsAt(st, b, k);
    }
  }

  /** The client's stream, from beginning to end. */
  lemma StreamIsExplained(env: Env, history: seq<Message>)
    requires env.Valid()
    ensures StreamShape(env, Run(env, history))
  {
    RunExplained(env, history);
    StreamShapeOf(env, Run(env, history));
  }
}
