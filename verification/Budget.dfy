/** Token estimates, prompt trimming and budget arithmetic of internal/agent/request_budget.go, and the
    conversation window of internal/agent/memory.go. Strings stand for byte strings: lengths count bytes. */
module Budget {

  datatype ToolCall = ToolCall(id: string, kind: string, name: string, arguments: string)

  datatype Message = Message(role: string, content: string, name: string, toolCallId: string, toolCalls: seq<ToolCall>)

  datatype RequestBudget = RequestBudget(
    maxPromptTokens: int,
    maxCompletionTokens: int,
    maxToolIterations: int,
    maxToolCalls: int,
    maxEstimatedCostUSD: real,
    promptCostPer1MUSD: real,
    completionCostPer1MUSD: real)
  {
    predicate Valid() {
      && maxPromptTokens > 0 && maxCompletionTokens > 0 && maxToolIterations > 0 && maxToolCalls > 0
      && maxEstimatedCostUSD > 0.0 && promptCostPer1MUSD > 0.0 && completionCostPer1MUSD > 0.0
    }
  }

  const DEFAULT_BUDGET := RequestBudget(12000, 4000, 5, 12, 0.10, 0.80, 3.20)

  /** A setting that is positive is kept; any other is replaced by its default. */
  predicate KeptOr(kept: int, raw: int, fallback: int) { if raw > 0 then kept == raw else kept == fallback }

  predicate KeptOrReal(kept: real, raw: real, fallback: real) { if raw > 0.0 then kept == raw else kept == fallback }

  function Normalize(raw: RequestBudget): (b: RequestBudget)
    ensures b.Valid()
    ensures raw.Valid() ==> b == raw
    ensures KeptOr(b.maxPromptTokens, raw.maxPromptTokens, 12000)
    ensures KeptOr(b.maxCompletionTokens, raw.maxCompletionTokens, 4000)
    ensures KeptOr(b.maxToolIterations, raw.maxToolIterations, 5)
    ensures KeptOr(b.maxToolCalls, raw.maxToolCalls, 12)
    ensures KeptOrReal(b.maxEstimatedCostUSD, raw.maxEstimatedCostUSD, 0.10)
    ensures KeptOrReal(b.promptCostPer1MUSD, raw.promptCostPer1MUSD, 0.80)
    ensures KeptOrReal(b.completionCostPer1MUSD, raw.completionCostPer1MUSD, 3.20)
  {
    var d := DEFAULT_BUDGET;
    RequestBudget(
      if raw.maxPromptTokens > 0 then raw.maxPromptTokens else d.maxPromptTokens,
      if raw.maxCompletionTokens > 0 then raw.maxCompletionTokens else d.maxCompletionTokens,
      if raw.maxToolIterations > 0 then raw.maxToolIterations else d.maxToolIterations,
      if raw.maxToolCalls > 0 then raw.maxToolCalls else d.maxToolCalls,
      if raw.maxEstimatedCostUSD > 0.0 then raw.maxEstimatedCostUSD else d.maxEstimatedCostUSD,
      if raw.promptCostPer1MUSD > 0.0 then raw.promptCostPer1MUSD else d.promptCostPer1MUSD,
      if raw.completionCostPer1MUSD > 0.0 then raw.completionCostPer1MUSD else d.completionCostPer1MUSD)
  }

  // ------------------------------------------------------------------ estimates

  /** The least number of tokens of four bytes that covers the text. */
  function EstimateText(text: string): (tokens: nat)
    ensures |text| <= 4 * tokens < |text| + 4
  {
    (|text| + 3) / 4
  }

  function EstimateCalls(calls: seq<ToolCall>): nat {
    if calls == [] then 0
    else
      var tc := calls[|calls| - 1];
      EstimateCalls(calls[..|calls| - 1]) + EstimateText(tc.name) + EstimateText(tc.arguments) + 4
  }

  function EstimateMessage(msg: Message): (tokens: nat)
    ensures tokens >= 4
  {
    4 + EstimateText(msg.content) + EstimateText(msg.role) + EstimateText(msg.name) + EstimateText(msg.toolCallId)
    + EstimateCalls(msg.toolCalls)
  }

  function EstimateAll(messages: seq<Message>): nat {
    if messages == [] then 0
    else EstimateAll(messages[..|messages| - 1]) + EstimateMessage(messages[|messages| - 1])
  }

  function EstimatePrompt(messages: seq<Message>): nat { 2 + EstimateAll(messages) }

  method EstimateMessageTokens(msg: Message) returns (total: nat)
    ensures total == EstimateMessage(msg)
  {
    total := 4;
    total := total + EstimateText(msg.content);
    total := total + EstimateText(msg.role);
    total := total + EstimateText(msg.name);
    total := total + EstimateText(msg.toolCallId);
    ghost var base := total;
    for i := 0 to |msg.toolCalls|
      invariant total == base + EstimateCalls(msg.toolCalls[..i])
    {
      assert msg.toolCalls[..i + 1][..i] == msg.toolCalls[..i];
      total := total + EstimateText(msg.toolCalls[i].name);
      total := total + EstimateText(msg.toolCalls[i].arguments);
      total := total + 4;
    }
    assert msg.toolCalls[..|msg.toolCalls|] == msg.toolCalls;
  }

  method EstimateMessagesPromptTokens(messages: seq<Message>) returns (total: nat)
    ensures total == EstimatePrompt(messages)
  {
    total := 2;
    for i := 0 to |messages|
      invariant total == 2 + EstimateAll(messages[..i])
    {
      assert messages[..i + 1][..i] == messages[..i];
      var tokens := EstimateMessageTokens(messages[i]);
      total := total + tokens;
    }
    assert messages[..|messages|] == messages;
  }

  lemma {:induction false} EstimateConcat(a: seq<Message>, b: seq<Message>)
    ensures EstimateAll(a + b) == EstimateAll(a) + EstimateAll(b)
    ensures EstimateAll(b) >= 4 * |b|
  {
    if b == [] {
      assert a + b == a;
    } else {
      assert (a + b)[..|a + b| - 1] == a + b[..|b| - 1];
      EstimateConcat(a, b[..|b| - 1]);
    }
  }

  /** The bytes of the texts of calls. */
  function CallBytes(calls: seq<ToolCall>): nat {
    if calls == [] then 0
    else
      var tc := calls[|calls| - 1];
      CallBytes(calls[..|calls| - 1]) + |tc.name| + |tc.arguments|
  }

  lemma {:induction false} CallsCover(calls: seq<ToolCall>)
    ensures CallBytes(calls) + 16 * |calls| <= 4 * EstimateCalls(calls) <= CallBytes(calls) + 22 * |calls|
  {
    if calls == [] {
    } else {
      CallsCover(calls[..|calls| - 1]);
    }
  }

  /** At four bytes a token a message's estimate covers all its texts and four tokens more for itself and for each of
      its calls, with less than one token to spare for each text. */
  lemma MessageIsCovered(msg: Message)
    ensures var bytes := |msg.content| + |msg.role| + |msg.name| + |msg.toolCallId| + CallBytes(msg.toolCalls);
            var n := |msg.toolCalls|;
            bytes + 16 + 16 * n <= 4 * EstimateMessage(msg) <= bytes + 28 + 22 * n
  {
    CallsCover(msg.toolCalls);
  }

  /** A prompt is estimated at two tokens and those of its messages. */
  lemma PromptAdds(messages: seq<Message>, msg: Message)
    ensures EstimatePrompt([]) == 2
    ensures EstimatePrompt(messages + [msg]) == EstimatePrompt(messages) + EstimateMessage(msg)
  {
    assert (messages + [msg])[..|messages|] == messages;
  }

  // ------------------------------------------------------------------ trimming

  /** What trimming yields, without a search: nothing to trim, or the system message and the last one, or the
      system message alone. */
  function Fitted(messages: seq<Message>, maxPromptTokens: int): (seq<Message>, nat, nat) {
    if messages == [] then (messages, 0, 0)
    else if maxPromptTokens <= 0 || EstimatePrompt(messages) <= maxPromptTokens then
      (messages, 0, EstimatePrompt(messages))
    else
      var n := |messages|;
      var pair := [messages[0], messages[n - 1]];
      if n > 1 && EstimatePrompt(pair) <= maxPromptTokens then (pair, n - 2, EstimatePrompt(pair))
      else ([messages[0]], n - 1, EstimatePrompt([messages[0]]))
  }

  /** A longer suffix behind the same first message costs strictly more. */
  lemma SuffixCosts(system: Message, tail: seq<Message>, i: nat, j: nat)
    requires i < j <= |tail|
    ensures EstimatePrompt([system] + tail[i..]) > EstimatePrompt([system] + tail[j..])
  {
    assert tail[i..] == tail[i..j] + tail[j..];
    EstimateConcat([system], tail[i..]);
    EstimateConcat([system], tail[j..]);
    EstimateConcat(tail[i..j], tail[j..]);
    EstimateConcat([], tail[i..j]);
  }

  /** The backward scan for the first suffix that fits. */
  method FitMessages(messages: seq<Message>, maxPromptTokens: int)
    returns (fitted: seq<Message>, dropped: nat, estimated: nat)
    ensures (fitted, dropped, estimated) == Fitted(messages, maxPromptTokens)
    ensures maxPromptTokens <= 0 ==> fitted == messages && dropped == 0
  {
    if |messages| == 0 {
      return messages, 0, 0;
    }
    estimated := EstimateMessagesPromptTokens(messages);
    if maxPromptTokens <= 0 || estimated <= maxPromptTokens {
      return messages, 0, estimated;
    }
    var system := messages[0];
    var tail := messages[1..];
    var start := |tail|;
    while start > 0
      invariant 0 <= start <= |tail|
      invariant start < |tail| ==> EstimatePrompt([system] + tail[|tail| - 1..]) > maxPromptTokens
    {
      start := start - 1;
      var candidate := [system] + tail[start..];
      var candidateEstimate := EstimateMessagesPromptTokens(candidate);
      if candidateEstimate <= maxPromptTokens {
        if start < |tail| - 1 {
          SuffixCosts(system, tail, start, |tail| - 1);
          assert false;
        }
        assert candidate == [messages[0], messages[|messages| - 1]];
        return candidate, start, candidateEstimate;
      }
      if start < |tail| - 1 {
        SuffixCosts(system, tail, start, |tail| - 1);
      }
    }
    if |tail| > 0 {
      assert [system] + tail[|tail| - 1..] == [messages[0], messages[|messages| - 1]];
    }
    fitted := [system];
    dropped := |tail|;
    estimated := EstimateMessagesPromptTokens(fitted);
  }

  /** The estimate and the number of dropped messages are exact, the system message stays in front, and the result
      is over budget exactly when the system message alone is. */
  lemma FittedIsExact(messages: seq<Message>, maxPromptTokens: int)
    requires messages != [] && maxPromptTokens > 0
    ensures var (fitted, dropped, estimated) := Fitted(messages, maxPromptTokens);
            && fitted != [] && fitted[0] == messages[0]
            && fitted[1..] == messages[1 + dropped..] && |fitted| + dropped == |messages|
            && estimated == EstimatePrompt(fitted)
            && (estimated > maxPromptTokens <==> EstimatePrompt([messages[0]]) > maxPromptTokens)
  {
    assert messages == [messages[0]] + messages[1..];
    EstimateConcat([messages[0]], messages[1..]);
    if |messages| > 1 {
      var last := messages[|messages| - 1];
      assert [messages[0], last] == [messages[0]] + [last];
      EstimateConcat([messages[0]], [last]);
    }
  }

  /** The first message and what follows the `d` messages after it. */
  function Behind(messages: seq<Message>, d: nat): seq<Message>
    requires d < |messages|
  {
    [messages[0]] + messages[1 + d..]
  }

  /** Nothing that drops fewer than `dropped` messages fits. */
  ghost predicate NothingLongerFits(messages: seq<Message>, maxPromptTokens: int, dropped: nat)
    requires dropped < |messages|
  {
    forall d | 0 <= d < dropped :: EstimatePrompt(Behind(messages, d)) > maxPromptTokens
  }

  function Dropped(messages: seq<Message>, maxPromptTokens: int): (d: nat)
    requires messages != []
    ensures d < |messages|
  {
    Fitted(messages, maxPromptTokens).1
  }

  ghost predicate KeepsLongest(messages: seq<Message>, maxPromptTokens: int)
    requires messages != []
  {
    NothingLongerFits(messages, maxPromptTokens, Dropped(messages, maxPromptTokens))
  }

  lemma BehindCosts(messages: seq<Message>, d: nat, e: nat)
    requires d < e < |messages|
    ensures EstimatePrompt(Behind(messages, d)) > EstimatePrompt(Behind(messages, e))
  {
    var tail := messages[1..];
    SuffixCosts(messages[0], tail, d, e);
    assert tail[d..] == messages[1 + d..] && tail[e..] == messages[1 + e..];
  }

  lemma NothingLongerIff(messages: seq<Message>, maxPromptTokens: int, dropped: nat)
    requires dropped < |messages|
    ensures NothingLongerFits(messages, maxPromptTokens, dropped) <==>
            dropped == 0 || EstimatePrompt(Behind(messages, dropped - 1)) > maxPromptTokens
  {
    forall d | 0 <= d < dropped - 1
      ensures EstimatePrompt(Behind(messages, d)) > EstimatePrompt(Behind(messages, dropped - 1))
    {
      BehindCosts(messages, d, dropped - 1);
    }
  }

  /** The scan stops at the first suffix that fits, the shortest: it keeps the longest one exactly when everything fits
      or the last two messages do not. */
  lemma KeepsLongestIff(messages: seq<Message>, maxPromptTokens: int)
    requires messages != [] && maxPromptTokens > 0
    ensures KeepsLongest(messages, maxPromptTokens) <==>
            EstimatePrompt(messages) <= maxPromptTokens || |messages| <= 2
            || EstimatePrompt(Behind(messages, |messages| - 3)) > maxPromptTokens
  {
    var n := |messages|;
    NothingLongerIff(messages, maxPromptTokens, Dropped(messages, maxPromptTokens));
    if n > 1 {
      assert Behind(messages, n - 2) == [messages[0], messages[n - 1]];
    }
    if n > 2 {
      BehindCosts(messages, n - 3, n - 2);
    }
  }

  function Remaining(b: RequestBudget, used: int): nat {
    if b.maxCompletionTokens - used < 0 then 0 else b.maxCompletionTokens - used
  }

  function EstimateCost(b: RequestBudget, promptTokens: int, completionTokens: int): real {
    if promptTokens <= 0 && completionTokens <= 0 then 0.0
    else
      promptTokens as real / 1000000.0 * b.promptCostPer1MUSD
      + completionTokens as real / 1000000.0 * b.completionCostPer1MUSD
  }

  /** A million tokens cost the stated price, prompt and completion apart, and cost adds up. */
  lemma CostIsLinear(b: RequestBudget, p: nat, c: nat, moreP: nat, moreC: nat)
    ensures EstimateCost(b, 1000000, 0) == b.promptCostPer1MUSD
    ensures EstimateCost(b, 0, 1000000) == b.completionCostPer1MUSD
    ensures EstimateCost(b, p + moreP, c + moreC) == EstimateCost(b, p, c) + EstimateCost(b, moreP, moreC)
  {
    PriceAdds(b.promptCostPer1MUSD, p, moreP);
    PriceAdds(b.completionCostPer1MUSD, c, moreC);
    assert EstimateCost(b, 0, 0) == 0.0;
  }

  lemma PriceAdds(price: real, p: nat, more: nat)
    ensures (p + more) as real / 1000000.0 * price == p as real / 1000000.0 * price + more as real / 1000000.0 * price
  {
    var x, y := p as real / 1000000.0, more as real / 1000000.0;
    assert (p + more) as real / 1000000.0 == x + y;
    assert (x + y) * price == x * price + y * price;
  }

  /** What remains of the completion budget, never less than nothing. */
  lemma RemainingIs(b: RequestBudget, used: int)
    ensures used <= b.maxCompletionTokens ==> used + Remaining(b, used) == b.maxCompletionTokens
    ensures used >= b.maxCompletionTokens ==> Remaining(b, used) == 0
  {
  }

  // ------------------------------------------------------------------ the conversation window

  const DEFAULT_WINDOW := 20

  /** The system message and the most recent messages. */
  function View(system: Message, window: int, messages: seq<Message>): seq<Message>
    requires window >= 0
  {
    [system] + if |messages| > window then messages[|messages| - window..] else messages
  }

  /** The system message first, and behind it the newest messages in order, as many as the window holds. */
  lemma ViewIsNewest(system: Message, window: int, messages: seq<Message>, back: nat)
    requires window > 0
    ensures var view := View(system, window, messages);
            && |view| == 1 + (if |messages| > window then window else |messages|) && view[0] == system
            && (back + 1 < |view| ==> view[|view| - 1 - back] == messages[|messages| - 1 - back])
  {
  }

  /** A window of three or more messages can be trimmed more than it need be, whatever the system message; a smaller
      one never is. */
  lemma OverTrimmingIff(system: Message, window: int)
    requires window > 0
    ensures (exists history, maxPromptTokens: int | maxPromptTokens > 0 ::
               !KeepsLongest(View(system, window, history), maxPromptTokens))
            <==> window >= 3
  {
    if window >= 3 {
      var history := [Message("user", "hi", "", "", []), Message("assistant", "hi", "", "", []),
                      Message("user", "hi", "", "", [])];
      var view := View(system, window, history);
      var maxPromptTokens := EstimatePrompt(Behind(view, 1));
      BehindCosts(view, 0, 1);
      assert Behind(view, 0) == view;
      KeepsLongestIff(view, maxPromptTokens);
    } else {
      forall history, maxPromptTokens: int | maxPromptTokens > 0
        ensures KeepsLongest(View(system, window, history), maxPromptTokens)
      {
        SmallViewsKeepLongest(View(system, window, history), maxPromptTokens);
      }
    }
  }

  lemma SmallViewsKeepLongest(view: seq<Message>, maxPromptTokens: int)
    requires 0 < |view| <= 3 && maxPromptTokens > 0
    ensures KeepsLongest(view, maxPromptTokens)
  {
    KeepsLongestIff(view, maxPromptTokens);
    if |view| == 3 {
      assert Behind(view, 0) == view;
    }
  }

  /** Of a stored message the content stays and one of two roles; everything else is blank. */
  predicate Restored(m: Message, role: string, content: string) {
    && m == Message(m.role, content, "", "", [])
    && m.role == if role == "assistant" then "assistant" else "user"
  }

  class Memory {
    const system: Message
    const window: int
    var messages: seq<Message>

    constructor (systemPrompt: string, window: int)
      ensures Valid() && system == Message("system", systemPrompt, "", "", []) && messages == []
      ensures this.window == if window <= 0 then DEFAULT_WINDOW else window
    {
      system := Message("system", systemPrompt, "", "", []);
      this.window := if window <= 0 then DEFAULT_WINDOW else window;
      messages := [];
    }

    predicate Valid() { window > 0 }

    method Add(msg: Message)
      modifies this
      ensures messages == old(messages) + [msg]
    {
      messages := messages + [msg];
    }

    method Messages() returns (result: seq<Message>)
      requires Valid()
      ensures result == View(system, window, messages)
    {
      var msgs := messages;
      if |msgs| > window {
        msgs := msgs[|msgs| - window..];
      }
      result := [system];
      result := result + msgs;
    }

    /** Stored messages go in after what is there, one for one and in order; only two roles survive. */
    method LoadHistory(stored: seq<(string, string)>)
      modifies this
      ensures |messages| == |old(messages)| + |stored| && old(messages) <= messages
      ensures forall i | 0 <= i < |stored| :: Restored(messages[|old(messages)| + i], stored[i].0, stored[i].1)
    {
      for n := 0 to |stored|
        invariant |messages| == |old(messages)| + n && old(messages) <= messages
        invariant forall i | 0 <= i < n :: Restored(messages[|old(messages)| + i], stored[i].0, stored[i].1)
      {
        var role := "user";
        if stored[n].0 == "assistant" {
          role := "assistant";
        }
        messages := messages + [Message(role, stored[n].1, "", "", [])];
      }
    }
  }
}
