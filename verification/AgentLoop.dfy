/** The agent loop of HandleChat in internal/agent/manager.go: a bounded number of LLM calls that offer tools, the
    execution of the tool calls they ask for, four budgets that can trip, and the stream sent to the client.
    The model and the tools are oracles: any behaviour of theirs is some choice of the functions in Env. */
module AgentLoop {
  import opened Budget
  import opened LlmStream
  import opened Options
  import opened Text

  datatype Reason = PromptTokens | CompletionTokens | ToolCalls | EstimatedCost

  /** A non-streaming reply, with the usage reported upstream, which may be absent (not positive). */
  datatype ChatReply =
    | ChatFailed
    | ChatOk(content: string, calls: seq<ToolCall>, promptTokens: int, completionTokens: int)

  /** A streaming reply: what upstream sends and the tokens that costs. */
  datatype StreamReply = StreamRefused | Streaming(recv: seq<Received>, tokens: nat)

  datatype Kind = Offer | CloseOut | Restream

  /** One call of the model: `Offer` passes the tools, the other two do not. `used` is the completion use. */
  datatype LlmCall = LlmCall(kind: Kind, messages: seq<Message>, estimate: nat, cap: nat, used: nat)

  /** One assistant message with tool calls and the results of a prefix of them. */
  datatype Batch = Batch(calls: seq<ToolCall>, results: seq<string>)

  /** Everything outside the loop. The oracles see all earlier calls, so they may behave differently each time. */
  datatype Env = Env(
    system: Message,
    window: int,
    rawBudget: RequestBudget,
    chat: (seq<LlmCall>, seq<Message>, nat) -> ChatReply,
    stream: (seq<LlmCall>, seq<Message>, nat) -> StreamReply,
    tool: (nat, ToolCall) -> string,
    parses: string -> bool,
    defaultId: nat -> string,
    guidance: Reason -> string,
    notice: Reason -> string)
  {
    predicate Valid() { window > 0 }
    function Budget(): RequestBudget { Normalize(rawBudget) }
    function MaxIterations(): nat { Budget().maxToolIterations }
  }

  datatype Status = Running | Finished(content: string) | Aborted

  datatype LoopState = LoopState(
    iteration: nat,
    messages: seq<Message>,
    batches: seq<Batch>,
    out: seq<ClientChunk>,
    calls: seq<LlmCall>,
    ran: nat,
    promptUsed: int,
    completionUsed: nat,
    trip: Option<Reason>,
    status: Status)

  function Begin(history: seq<Message>): LoopState {
    LoopState(0, history, [], [Started], [], 0, 0, 0, None, Running)
  }

  // ------------------------------------------------------------------ one iteration

  function AssistantMessage(calls: seq<ToolCall>): Message { Message("assistant", "", "", "", calls) }

  function ToolMessage(result: string, id: string): Message { Message("tool", result, "", id, []) }

  function GuidanceMessage(text: string): Message { Message("system", text, "", "", []) }

  /** The reply streamed without tools. */
  function Streamed(env: Env, st: LoopState, kind: Kind, messages: seq<Message>, cap: nat): LoopState {
    match env.stream(st.calls, messages, cap)
    case StreamRefused =>
      st.(calls := st.calls + [LlmCall(kind, messages, EstimatePrompt(messages), cap, 0)],
          out := st.out + [ErrorOut], status := Aborted)
    case Streaming(recv, tokens) =>
      var chunks := Chunks(recv, env.parses, env.defaultId);
      st.(calls := st.calls + [LlmCall(kind, messages, EstimatePrompt(messages), cap, tokens)],
          out := st.out + Forward(chunks), status := Finished(Accumulated(chunks)))
  }

  /** The last iteration, or one that a budget has made the last. */
  function Close(env: Env, st: LoopState, fitted: seq<Message>): LoopState {
    var messages := if st.trip.Some? then fitted + [GuidanceMessage(env.guidance(st.trip.value))] else fitted;
    var told := if st.trip.Some? then st.(out := st.out + [TokenOut(env.notice(st.trip.value) + " ")]) else st;
    var remaining := Remaining(env.Budget(), st.completionUsed);
    if remaining == 0 then
      var content := TrimSpace(env.notice(CompletionTokens));
      told.(out := told.out + [CompleteOut(content), DoneOut], status := Finished(content))
    else
      Streamed(env, told, CloseOut, messages, remaining)
  }

  function Counted(reply: ChatReply): nat
    requires reply.ChatOk?
  {
    if reply.completionTokens <= 0 then EstimateText(reply.content) else reply.completionTokens
  }

  /** The bookkeeping after a reply: completion use trips last and so overrides cost. */
  function Charged(env: Env, st: LoopState, reply: ChatReply, fitted: seq<Message>, estimate: nat, cap: nat): LoopState
    requires reply.ChatOk?
  {
    var prompt := st.promptUsed + (if reply.promptTokens <= 0 then estimate else reply.promptTokens);
    var completion := st.completionUsed + Counted(reply);
    var costTrip := if EstimateCost(env.Budget(), prompt, completion) > env.Budget().maxEstimatedCostUSD
                    then Some(EstimatedCost) else st.trip;
    st.(promptUsed := prompt, completionUsed := completion,
        trip := if completion >= env.Budget().maxCompletionTokens then Some(CompletionTokens) else costTrip,
        calls := st.calls + [LlmCall(Offer, fitted, estimate, cap, Counted(reply))])
  }

  /** How many calls of a batch are executed: those that the tool budget still allows. */
  function Affordable(env: Env, ran: nat, calls: seq<ToolCall>): nat {
    var left := env.Budget().maxToolCalls - ran;
    if left <= 0 then 0 else if left < |calls| then left else |calls|
  }

  function Results(env: Env, ran: nat, calls: seq<ToolCall>, k: nat): (rs: seq<string>)
    requires k <= |calls|
    ensures |rs| == k
  {
    if k == 0 then [] else Results(env, ran, calls, k - 1) + [env.tool(ran + k - 1, calls[k - 1])]
  }

  function ToolChunksOut(calls: seq<ToolCall>): seq<ClientChunk> {
    if calls == [] then []
    else
      var tc := calls[|calls| - 1];
      ToolChunksOut(calls[..|calls| - 1]) + [ToolUse(tc.id, tc.name), ToolResult(tc.id, tc.name)]
  }

  function ToolMessages(calls: seq<ToolCall>, results: seq<string>): seq<Message>
    requires |results| <= |calls|
  {
    if results == [] then []
    else
      var k := |results| - 1;
      ToolMessages(calls, results[..k]) + [ToolMessage(results[k], calls[k].id)]
  }

  /** A batch of tool calls: in order, as many as the budget allows. */
  function RunBatch(env: Env, st: LoopState, calls: seq<ToolCall>): LoopState {
    var k := Affordable(env, st.ran, calls);
    var results := Results(env, st.ran, calls, k);
    st.(messages := st.messages + [AssistantMessage(calls)] + ToolMessages(calls, results),
        batches := st.batches + [Batch(calls, results)],
        out := st.out + ToolChunksOut(calls[..k]),
        ran := st.ran + k,
        trip := if k < |calls| then Some(ToolCalls) else st.trip,
        iteration := st.iteration + 1)
  }

  /** An iteration that may offer tools. */
  function OfferTools(env: Env, st: LoopState, fitted: seq<Message>, estimate: nat): LoopState {
    var remaining := Remaining(env.Budget(), st.completionUsed);
    if remaining == 0 then st.(trip := Some(CompletionTokens), iteration := st.iteration + 1)
    else
      match env.chat(st.calls, fitted, remaining)
      case ChatFailed =>
        st.(calls := st.calls + [LlmCall(Offer, fitted, estimate, remaining, 0)],
            out := st.out + [ErrorOut], status := Aborted)
      case ChatOk(content, calls, pt, ct) =>
        var charged := Charged(env, st, ChatOk(content, calls, pt, ct), fitted, estimate, remaining);
        if calls != [] then RunBatch(env, charged, calls)
        else if content != "" then
          charged.(out := charged.out + [TokenOut(content), CompleteOut(content), DoneOut], status := Finished(content))
        else Streamed(env, charged, Restream, fitted, remaining)
  }

  function Step(env: Env, st: LoopState): LoopState
    requires env.Valid()
  {
    var (fitted, dropped, estimate) := Fitted(View(env.system, env.window, st.messages), env.Budget().maxPromptTokens);
    var trip := if estimate > env.Budget().maxPromptTokens then Some(PromptTokens) else st.trip;
    if trip.Some? || st.iteration == env.MaxIterations() then Close(env, st.(trip := trip), fitted)
    else OfferTools(env, st, fitted, estimate)
  }

  /** The loop: iterations from st on, up to and including number MaxIterations. */
  function Drive(env: Env, st: LoopState): LoopState
    requires env.Valid()
    decreases env.MaxIterations() + 1 - st.iteration
  {
    if !st.status.Running? || st.iteration > env.MaxIterations() then st
    else
      var next := Step(env, st);
      if !next.status.Running? then next
      else
        StepAdvances(env, st);
        Drive(env, next)
  }

  lemma StepAdvances(env: Env, st: LoopState)
    requires env.Valid() && st.status.Running?
    ensures var next := Step(env, st);
            next.status.Running? ==> next.iteration == st.iteration + 1 && st.iteration != env.MaxIterations()
  {
  }

  // ------------------------------------------------------------------ the loop as it is written

  /** Executes the tool calls of one reply until the tool budget is used up. */
  method ProcessToolCalls(env: Env, mem: Memory, calls: seq<ToolCall>, ran: nat)
    returns (executed: nat, out: seq<ClientChunk>, trip: Option<Reason>, results: seq<string>)
    modifies mem
    ensures executed == ran + Affordable(env, ran, calls)
    ensures results == Results(env, ran, calls, Affordable(env, ran, calls))
    ensures mem.messages == old(mem.messages) + ToolMessages(calls, results)
    ensures out == ToolChunksOut(calls[..|results|])
    ensures trip == if |results| < |calls| then Some(ToolCalls) else None
  {
    executed, out, trip, results := ran, [], None, [];
    for i := 0 to |calls|
      invariant executed == ran + i && |results| == i && i <= Affordable(env, ran, calls)
      invariant results == Results(env, ran, calls, i)
      invariant mem.messages == old(mem.messages) + ToolMessages(calls, results)
      invariant out == ToolChunksOut(calls[..i]) && trip == None
    {
      if executed >= env.Budget().maxToolCalls {
        trip := Some(ToolCalls);
        break;
      }
      executed := executed + 1;
      var tc := calls[i];
      out := out + [ToolUse(tc.id, tc.name)];
      var result := env.tool(ran + i, tc);
      out := out + [ToolResult(tc.id, tc.name)];
      ghost var before := results;
      results := results + [result];
      mem.Add(ToolMessage(result, tc.id));
      assert results[..i] == before && calls[..i + 1][..i] == calls[..i];
    }
  }

  /** The streamed reply: the call, and its chunks forwarded to the client. */
  method StreamReplyOut(env: Env, calls: seq<LlmCall>, kind: Kind, messages: seq<Message>, cap: nat)
    returns (out: seq<ClientChunk>, content: Option<string>, made: LlmCall)
    ensures forall st: LoopState | st.calls == calls ::
              Streamed(env, st, kind, messages, cap)
              == st.(calls := calls + [made], out := st.out + out,
                     status := if content.Some? then Finished(content.value) else Aborted)
  {
    var estimate := EstimateMessagesPromptTokens(messages);
    match env.stream(calls, messages, cap) {
      case StreamRefused =>
        return [ErrorOut], None, LlmCall(kind, messages, estimate, cap, 0);
      case Streaming(recv, tokens) =>
        var chunks := StreamChat(recv, env.parses, env.defaultId);
        var text, forwarded := StreamToClient(chunks);
        return forwarded, Some(text), LlmCall(kind, messages, estimate, cap, tokens);
    }
  }

  /** The loop of HandleChat. `end` gathers its variables and everything it did, for the specification. */
  method HandleChat(env: Env, mem: Memory) returns (end: LoopState)
    requires env.Valid() && mem.system == env.system && mem.window == env.window
    modifies mem
    ensures end == Drive(env, Begin(old(mem.messages)))
    ensures mem.messages == end.messages
  {
    end := Begin(mem.messages);
    ghost var start := end;
    while end.iteration <= env.MaxIterations()
      invariant end.status.Running? && mem.messages == end.messages
      invariant Drive(env, end) == Drive(env, start)
      decreases env.MaxIterations() + 1 - end.iteration
    {
      StepAdvances(env, end);
      end := Iterate(env, mem, end);
      if !end.status.Running? {
        return;
      }
    }
  }

  /** One iteration. */
  method Iterate(env: Env, mem: Memory, before: LoopState) returns (st: LoopState)
    requires env.Valid() && mem.system == env.system && mem.window == env.window && mem.messages == before.messages
    modifies mem
    ensures st == Step(env, before) && mem.messages == st.messages
  {
    st := before;
    var messages := mem.Messages();
    var fitted, dropped, estimate := FitMessages(messages, env.Budget().maxPromptTokens);
    if estimate > env.Budget().maxPromptTokens {
      st := st.(trip := Some(PromptTokens));
    }
    if st.trip.Some? || st.iteration == env.MaxIterations() {
      st := CloseLoop(env, st, fitted);
      return;
    }
    st := OfferOnce(env, mem, st, fitted, estimate);
  }

  /** The body of the loop once it must end. */
  method CloseLoop(env: Env, st: LoopState, fitted: seq<Message>) returns (end: LoopState)
    ensures end == Close(env, st, fitted)
  {
    var messages := fitted;
    end := st;
    if st.trip.Some? {
      messages := messages + [GuidanceMessage(env.guidance(st.trip.value))];
      end := end.(out := end.out + [TokenOut(env.notice(st.trip.value) + " ")]);
    }
    var remaining := Remaining(env.Budget(), st.completionUsed);
    if remaining == 0 {
      var content := TrimSpace(env.notice(CompletionTokens));
      return end.(out := end.out + [CompleteOut(content), DoneOut], status := Finished(content));
    }
    var out, content, made := StreamReplyOut(env, end.calls, CloseOut, messages, remaining);
    end := end.(calls := end.calls + [made], out := end.out + out,
                status := if content.Some? then Finished(content.value) else Aborted);
  }

  /** The bookkeeping after a reply. */
  method Charge(env: Env, st: LoopState, reply: ChatReply, fitted: seq<Message>, estimate: nat, cap: nat)
    returns (next: LoopState)
    requires reply.ChatOk?
    ensures next == Charged(env, st, reply, fitted, estimate, cap)
  {
    var promptTokens := reply.promptTokens;
    if promptTokens <= 0 {
      promptTokens := estimate;
    }
    var completionTokens := reply.completionTokens;
    if completionTokens <= 0 {
      completionTokens := EstimateText(reply.content);
    }
    next := st.(promptUsed := st.promptUsed + promptTokens, completionUsed := st.completionUsed + completionTokens,
                calls := st.calls + [LlmCall(Offer, fitted, estimate, cap, completionTokens)]);
    if EstimateCost(env.Budget(), next.promptUsed, next.completionUsed) > env.Budget().maxEstimatedCostUSD {
      next := next.(trip := Some(EstimatedCost));
    }
    if next.completionUsed >= env.Budget().maxCompletionTokens {
      next := next.(trip := Some(CompletionTokens));
    }
  }

  /** The tool calls of one reply, with the assistant message that asks for them. */
  method ProcessBatch(env: Env, mem: Memory, st: LoopState, calls: seq<ToolCall>) returns (next: LoopState)
    requires mem.messages == st.messages
    modifies mem
    ensures next == RunBatch(env, st, calls) && mem.messages == next.messages
  {
    mem.Add(AssistantMessage(calls));
    var executed, out, trip, results := ProcessToolCalls(env, mem, calls, st.ran);
    next := st.(messages := mem.messages, batches := st.batches + [Batch(calls, results)], out := st.out + out,
                ran := executed, trip := if trip.Some? then trip else st.trip, iteration := st.iteration + 1);
  }

  /** The body of the loop while tools may be offered. */
  method OfferOnce(env: Env, mem: Memory, st: LoopState, fitted: seq<Message>, estimate: nat) returns (next: LoopState)
    requires mem.messages == st.messages
    modifies mem
    ensures next == OfferTools(env, st, fitted, estimate) && mem.messages == next.messages
  {
    var remaining := Remaining(env.Budget(), st.completionUsed);
    if remaining == 0 {
      return st.(trip := Some(CompletionTokens), iteration := st.iteration + 1);
    }
    var reply := env.chat(st.calls, fitted, remaining);
    if reply.ChatFailed? {
      return st.(calls := st.calls + [LlmCall(Offer, fitted, estimate, remaining, 0)],
                 out := st.out + [ErrorOut], status := Aborted);
    }
    var charged := Charge(env, st, reply, fitted, estimate, remaining);
    if |reply.calls| == 0 {
      if reply.content != "" {
        return charged.(out := charged.out + [TokenOut(reply.content), CompleteOut(reply.content), DoneOut],
                        status := Finished(reply.content));
      }
      var out, content, made := StreamReplyOut(env, charged.calls, Restream, fitted, remaining);
      return charged.(calls := charged.calls + [made], out := charged.out + out,
                      status := if content.Some? then Finished(content.value) else Aborted);
    }
    next := ProcessBatch(env, mem, charged, reply.calls);
  }
}
