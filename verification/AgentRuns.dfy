/** What holds of every run of the agent loop, for every model and every tool. */
module AgentRuns {
  import opened AgentLoop
  import opened Budget
  import opened LlmStream
  import opened Options
  import opened Text

  function Used(calls: seq<LlmCall>): nat {
    if calls == [] then 0 else Used(calls[..|calls| - 1]) + calls[|calls| - 1].used
  }

  function Offers(calls: seq<LlmCall>): nat {
    if calls == [] then 0 else Offers(calls[..|calls| - 1]) + (if calls[|calls| - 1].kind.Offer? then 1 else 0)
  }

  lemma UsedSnoc(calls: seq<LlmCall>, c: LlmCall)
    ensures Used(calls + [c]) == Used(calls) + c.used
  {
    assert (calls + [c])[..|calls|] == calls;
  }

  /** All calls but possibly the last offered tools. */
  predicate OnlyLastCloses(calls: seq<LlmCall>) {
    forall i | 0 <= i < |calls| :: !calls[i].kind.Offer? ==> i == |calls| - 1
  }

  predicate AllOffer(calls: seq<LlmCall>) { forall i | 0 <= i < |calls| :: calls[i].kind.Offer? }

  /** Each call's cap is what the earlier replies left over; a re-streamed reply gets the cap of the empty reply
      before it. */
  predicate CapOk(b: RequestBudget, calls: seq<LlmCall>, i: nat)
    requires i < |calls|
  {
    var c := calls[i];
    && c.cap >= 1
    && (!c.kind.Restream? ==> c.cap + Used(calls[..i]) == b.maxCompletionTokens)
    && (c.kind.Restream? ==> i > 0 && calls[i - 1].kind.Offer? && c.cap == calls[i - 1].cap)
  }

  predicate CapsOk(b: RequestBudget, calls: seq<LlmCall>) {
    forall i | 0 <= i < |calls| :: CapOk(b, calls, i)
  }

  /** Every call that offers tools is within the prompt budget, by its exact estimate. */
  predicate PromptsOk(b: RequestBudget, calls: seq<LlmCall>) {
    forall i | 0 <= i < |calls| && calls[i].kind.Offer? ::
      calls[i].estimate == EstimatePrompt(calls[i].messages) <= b.maxPromptTokens
  }

  predicate SystemTooBig(env: Env) { EstimatePrompt([env.system]) > env.Budget().maxPromptTokens }

  function Flatten(batches: seq<Batch>): seq<Message>
    requires forall i | 0 <= i < |batches| :: |batches[i].results| <= |batches[i].calls|
  {
    if batches == [] then []
    else
      var b := batches[|batches| - 1];
      Flatten(batches[..|batches| - 1]) + ([AssistantMessage(b.calls)] + ToolMessages(b.calls, b.results))
  }

  function Executed(batches: seq<Batch>): nat {
    if batches == [] then 0 else Executed(batches[..|batches| - 1]) + |batches[|batches| - 1].results|
  }

  /** How many tool calls the model asked for. */
  function Requested(batches: seq<Batch>): nat {
    if batches == [] then 0 else Requested(batches[..|batches| - 1]) + |batches[|batches| - 1].calls|
  }

  predicate Complete(b: Batch) { |b.results| == |b.calls| }

  /** Every batch is answered completely, but for the last one when the tool budget tripped in it. */
  predicate BatchesOk(batches: seq<Batch>, trip: Option<Reason>) {
    forall i | 0 <= i < |batches| ::
      && batches[i].calls != []
      && |batches[i].results| <= |batches[i].calls|
      && (!Complete(batches[i]) ==> i == |batches| - 1 && trip == Some(ToolCalls))
  }

  predicate NoFinal(out: seq<ClientChunk>) { forall i | 0 <= i < |out| :: !Final(out[i]) }

  // ------------------------------------------------------------------ the invariant

  predicate CallsInv(env: Env, st: LoopState) {
    && OnlyLastCloses(st.calls) && CapsOk(env.Budget(), st.calls) && PromptsOk(env.Budget(), st.calls)
    && st.iteration <= env.MaxIterations()
    && |st.calls| <= env.MaxIterations() + 1
    && (|st.calls| == env.MaxIterations() + 1 ==> !st.calls[|st.calls| - 1].kind.Offer?)
    && (st.status.Running? ==> AllOffer(st.calls) && |st.calls| <= st.iteration && st.completionUsed == Used(st.calls))
    && (SystemTooBig(env) ==> |st.calls| <= 1 && AllCloseOut(st.calls))
  }

  predicate AllCloseOut(calls: seq<LlmCall>) { forall i | 0 <= i < |calls| :: calls[i].kind.CloseOut? }

  predicate TripInv(env: Env, st: LoopState) {
    && (st.status.Running? && SystemTooBig(env) ==> st.iteration == 0)
    && (st.status.Running? ==> st.trip != Some(PromptTokens))
    && (!st.status.Running? ==> (st.trip == Some(PromptTokens) <==> SystemTooBig(env)))
  }

  predicate StreamInv(st: LoopState) {
    if st.status.Running? then NoFinal(st.out) else ProperlyEnded(st.out)
  }

  predicate HistoryInv(env: Env, base: seq<Message>, st: LoopState) {
    && BatchesOk(st.batches, st.trip)
    && st.messages == base + Flatten(st.batches)
    && st.ran == Executed(st.batches) <= env.Budget().maxToolCalls
    && (st.iteration == 0 && st.status.Running? ==> st.batches == [])
    && (st.trip == Some(ToolCalls) <==> Requested(st.batches) > env.Budget().maxToolCalls)
    && st.ran == AtMost(Requested(st.batches), env.Budget().maxToolCalls)
  }

  function AtMost(n: nat, limit: int): int { if n <= limit then n else limit }

  // ------------------------------------------------------------------ each iteration keeps it

  lemma CapOkKept(b: RequestBudget, calls: seq<LlmCall>, c: LlmCall, i: nat)
    requires i < |calls| && CapOk(b, calls, i)
    ensures CapOk(b, calls + [c], i)
  {
    assert (calls + [c])[..i] == calls[..i];
  }

  lemma AddCall(env: Env, calls: seq<LlmCall>, c: LlmCall)
    requires AllOffer(calls) && CapsOk(env.Budget(), calls) && PromptsOk(env.Budget(), calls)
    requires c.cap >= 1
    requires !c.kind.Restream? ==> c.cap + Used(calls) == env.Budget().maxCompletionTokens
    requires c.kind.Restream? ==> calls != [] && c.cap == calls[|calls| - 1].cap
    requires c.kind.Offer? ==> c.estimate == EstimatePrompt(c.messages) <= env.Budget().maxPromptTokens
    ensures OnlyLastCloses(calls + [c]) && CapsOk(env.Budget(), calls + [c]) && PromptsOk(env.Budget(), calls + [c])
    ensures Used(calls + [c]) == Used(calls) + c.used
  {
    UsedSnoc(calls, c);
    AddCap(env.Budget(), calls, c);
  }

  lemma AddCap(b: RequestBudget, calls: seq<LlmCall>, c: LlmCall)
    requires AllOffer(calls) && CapsOk(b, calls) && c.cap >= 1
    requires !c.kind.Restream? ==> c.cap + Used(calls) == b.maxCompletionTokens
    requires c.kind.Restream? ==> calls != [] && c.cap == calls[|calls| - 1].cap
    ensures CapsOk(b, calls + [c])
  {
    forall i | 0 <= i < |calls| ensures CapOk(b, calls + [c], i) {
      CapOkKept(b, calls, c, i);
    }
    assert (calls + [c])[..|calls|] == calls;
    assert CapOk(b, calls + [c], |calls|);
  }

  /** Why the trimmed view of a running conversation is over budget only at the very start. */
  lemma ViewFits(env: Env, st: LoopState)
    requires env.Valid()
    ensures var view := View(env.system, env.window, st.messages);
            var (fitted, dropped, estimate) := Fitted(view, env.Budget().maxPromptTokens);
            && (estimate > env.Budget().maxPromptTokens <==> SystemTooBig(env))
            && estimate == EstimatePrompt(fitted)
  {
    FittedIsExact(View(env.system, env.window, st.messages), env.Budget().maxPromptTokens);
  }

  lemma StreamedCalls(env: Env, st: LoopState, kind: Kind, messages: seq<Message>, cap: nat)
    requires !kind.Offer? && AllOffer(st.calls) && CapsOk(env.Budget(), st.calls) && PromptsOk(env.Budget(), st.calls)
    requires cap >= 1 && st.iteration <= env.MaxIterations() && |st.calls| <= env.MaxIterations()
    requires kind.CloseOut? ==> cap + Used(st.calls) == env.Budget().maxCompletionTokens
    requires kind.Restream? ==> st.calls != [] && cap == st.calls[|st.calls| - 1].cap
    requires SystemTooBig(env) ==> st.calls == [] && kind.CloseOut?
    ensures CallsInv(env, Streamed(env, st, kind, messages, cap))
  {
    var next := Streamed(env, st, kind, messages, cap);
    AddCall(env, st.calls, next.calls[|st.calls|]);
  }

  lemma CloseCalls(env: Env, st: LoopState, fitted: seq<Message>)
    requires CallsInv(env, st) && st.status.Running?
    requires SystemTooBig(env) ==> st.iteration == 0
    ensures CallsInv(env, Close(env, st, fitted))
  {
    var remaining := Remaining(env.Budget(), st.completionUsed);
    var messages := if st.trip.Some? then fitted + [GuidanceMessage(env.guidance(st.trip.value))] else fitted;
    var told := if st.trip.Some? then st.(out := st.out + [TokenOut(env.notice(st.trip.value) + " ")]) else st;
    if remaining != 0 {
      StreamedCalls(env, told, CloseOut, messages, remaining);
    }
  }

  /** The call that an iteration offering tools makes. */
  predicate GoodOffer(env: Env, st: LoopState, c: LlmCall) {
    && c.kind.Offer? && c.cap >= 1 && c.cap + Used(st.calls) == env.Budget().maxCompletionTokens
    && c.estimate == EstimatePrompt(c.messages) <= env.Budget().maxPromptTokens
  }

  lemma OfferMade(env: Env, st: LoopState, c: LlmCall, next: LoopState)
    requires CallsInv(env, st) && st.status.Running? && st.iteration < env.MaxIterations() && !SystemTooBig(env)
    requires GoodOffer(env, st, c) && next.calls == st.calls + [c] && next.iteration <= env.MaxIterations()
    requires next.status.Running? ==>
               next.iteration == st.iteration + 1 && next.completionUsed == st.completionUsed + c.used
    ensures CallsInv(env, next)
  {
    AddCall(env, st.calls, c);
  }

  lemma RestreamCalls(env: Env, st: LoopState, c: LlmCall, charged: LoopState)
    requires CallsInv(env, st) && st.status.Running? && st.iteration < env.MaxIterations() && !SystemTooBig(env)
    requires GoodOffer(env, st, c) && charged.calls == st.calls + [c] && charged.iteration == st.iteration
    ensures CallsInv(env, Streamed(env, charged, Restream, c.messages, c.cap))
  {
    AddCall(env, st.calls, c);
    StreamedCalls(env, charged, Restream, c.messages, c.cap);
  }

  lemma OfferCalls(env: Env, st: LoopState, fitted: seq<Message>, estimate: nat)
    requires CallsInv(env, st) && st.status.Running? && st.iteration < env.MaxIterations()
    requires !SystemTooBig(env) && estimate == EstimatePrompt(fitted) <= env.Budget().maxPromptTokens
    ensures CallsInv(env, OfferTools(env, st, fitted, estimate))
  {
    var remaining := Remaining(env.Budget(), st.completionUsed);
    var next := OfferTools(env, st, fitted, estimate);
    if remaining != 0 {
      match env.chat(st.calls, fitted, remaining) {
        case ChatFailed =>
          OfferMade(env, st, LlmCall(Offer, fitted, estimate, remaining, 0), next);
        case ChatOk(content, calls, pt, ct) =>
          var reply := ChatOk(content, calls, pt, ct);
          var c := LlmCall(Offer, fitted, estimate, remaining, Counted(reply));
          if calls == [] && content == "" {
            RestreamCalls(env, st, c, Charged(env, st, reply, fitted, estimate, remaining));
          } else {
            OfferMade(env, st, c, next);
          }
      }
    }
  }

  lemma StepCalls(env: Env, st: LoopState)
    requires env.Valid() && CallsInv(env, st) && TripInv(env, st) && st.status.Running?
    ensures CallsInv(env, Step(env, st))
  {
    var (fitted, dropped, estimate) := Fitted(View(env.system, env.window, st.messages), env.Budget().maxPromptTokens);
    ViewFits(env, st);
    var trip := if estimate > env.Budget().maxPromptTokens then Some(PromptTokens) else st.trip;
    if trip.Some? || st.iteration == env.MaxIterations() {
      CloseCalls(env, st.(trip := trip), fitted);
    } else {
      OfferCalls(env, st, fitted, estimate);
    }
  }

  lemma CloseTrip(env: Env, st: LoopState, fitted: seq<Message>)
    ensures Close(env, st, fitted).trip == st.trip && !Close(env, st, fitted).status.Running?
  {
  }

  lemma OfferTrip(env: Env, st: LoopState, fitted: seq<Message>, estimate: nat)
    requires st.trip != Some(PromptTokens)
    ensures OfferTools(env, st, fitted, estimate).trip != Some(PromptTokens)
  {
  }

  lemma StepTrip(env: Env, st: LoopState)
    requires env.Valid() && TripInv(env, st) && st.status.Running?
    ensures TripInv(env, Step(env, st))
  {
    var (fitted, dropped, estimate) := Fitted(View(env.system, env.window, st.messages), env.Budget().maxPromptTokens);
    ViewFits(env, st);
    var trip := if estimate > env.Budget().maxPromptTokens then Some(PromptTokens) else st.trip;
    if trip.Some? || st.iteration == env.MaxIterations() {
      CloseTrip(env, st.(trip := trip), fitted);
    } else {
      OfferTrip(env, st, fitted, estimate);
    }
  }

  function Iteration(env: Env): LoopState -> LoopState
    requires env.Valid()
  {
    st => Step(env, st)
  }

  /** The state after `n` iterations, as long as the run goes on. */
  function After(step: LoopState -> LoopState, st: LoopState, n: nat): LoopState {
    if n == 0 then st
    else
      var before := After(step, st, n - 1);
      if before.status.Running? then step(before) else before
  }

  lemma DriveStep(env: Env, st: LoopState)
    requires env.Valid() && st.status.Running? && st.iteration <= env.MaxIterations() && Step(env, st).status.Running?
    ensures var next := Step(env, st);
            next.iteration == st.iteration + 1 <= env.MaxIterations() && Drive(env, st) == Drive(env, next)
  {
    StepAdvances(env, st);
  }

  /** `step` and `drive` stand for one iteration and for the rest of the run. */
  lemma {:induction false} DriveFromAfter(step: LoopState -> LoopState, drive: LoopState -> LoopState, limit: nat,
                                          st: LoopState, n: nat)
    requires forall s: LoopState {:trigger step(s)} ::
               s.status.Running? && s.iteration <= limit && step(s).status.Running? ==>
                 step(s).iteration == s.iteration + 1 <= limit && drive(s) == drive(step(s))
    requires st.iteration == 0 && After(step, st, n).status.Running?
    ensures After(step, st, n).iteration == n <= limit && drive(st) == drive(After(step, st, n))
  {
    if n == 0 {
    } else {
      DriveFromAfter(step, drive, limit, st, n - 1);
    }
  }

  /** In any run, once a budget has tripped, or before the last iteration, there is at most one more call of the model,
      no more tools are offered, and none are run. */
  lemma NothingAfterATrip(env: Env, history: seq<Message>, n: nat)
    requires env.Valid()
    ensures var st, end := After(Iteration(env), Begin(history), n), Drive(env, Begin(history));
            st.status.Running? && (st.trip.Some? || n == env.MaxIterations()) ==>
              && !end.status.Running?
              && (end.calls == st.calls || exists c :: end.calls == st.calls + [c] && c.kind.CloseOut?)
              && end.ran == st.ran && end.messages == st.messages
  {
    var step, drive := Iteration(env), (st: LoopState) => Drive(env, st);
    forall s: LoopState | s.status.Running? && s.iteration <= env.MaxIterations() && step(s).status.Running?
      ensures step(s).iteration == s.iteration + 1 <= env.MaxIterations() && drive(s) == drive(step(s))
    {
      DriveStep(env, s);
    }
    var st := After(step, Begin(history), n);
    if st.status.Running? && (st.trip.Some? || n == env.MaxIterations()) {
      DriveFromAfter(step, drive, env.MaxIterations(), Begin(history), n);
      TripEndsTheLoop(env, st);
    }
  }

  /** The same from any state of the loop. */
  lemma TripEndsTheLoop(env: Env, st: LoopState)
    requires env.Valid() && st.status.Running? && st.iteration <= env.MaxIterations()
    requires st.trip.Some? || st.iteration == env.MaxIterations()
    ensures var end := Drive(env, st);
            && !end.status.Running?
            && (end.calls == st.calls || exists c :: end.calls == st.calls + [c] && c.kind.CloseOut?)
            && end.ran == st.ran && end.messages == st.messages
  {
    var next := Step(env, st);
    StepCloses(env, st);
    assert Drive(env, st) == next;
  }

  lemma StepCloses(env: Env, st: LoopState)
    requires env.Valid() && st.status.Running? && (st.trip.Some? || st.iteration == env.MaxIterations())
    ensures var next := Step(env, st);
            && !next.status.Running?
            && (next.calls == st.calls || exists c :: next.calls == st.calls + [c] && c.kind.CloseOut?)
            && next.ran == st.ran && next.messages == st.messages
  {
    var (fitted, dropped, estimate) := Fitted(View(env.system, env.window, st.messages), env.Budget().maxPromptTokens);
    var trip := if estimate > env.Budget().maxPromptTokens then Some(PromptTokens) else st.trip;
    var next := Close(env, st.(trip := trip), fitted);
    if next.calls != st.calls {
      assert next.calls == st.calls + [next.calls[|st.calls|]];
    }
  }

  // ------------------------------------------------------------------ the client's stream

  lemma {:induction false} ToolChunksAreNotFinal(calls: seq<ToolCall>)
    ensures NoFinal(ToolChunksOut(calls))
  {
    if calls == [] {
    } else {
      ToolChunksAreNotFinal(calls[..|calls| - 1]);
    }
  }

  lemma EndedAfter(head: seq<ClientChunk>, tail: seq<ClientChunk>)
    requires NoFinal(head) && ProperlyEnded(tail)
    ensures ProperlyEnded(head + tail)
  {
  }

  lemma StreamedEnds(env: Env, st: LoopState, kind: Kind, messages: seq<Message>, cap: nat)
    requires NoFinal(st.out)
    ensures ProperlyEnded(Streamed(env, st, kind, messages, cap).out)
    ensures !Streamed(env, st, kind, messages, cap).status.Running?
  {
    match env.stream(st.calls, messages, cap)
    case StreamRefused =>
      EndedAfter(st.out, [ErrorOut]);
    case Streaming(recv, tokens) =>
      ReplyIsWellFormed(recv, env.parses, env.defaultId);
      EndedAfter(st.out, Forward(Chunks(recv, env.parses, env.defaultId)));
  }

  lemma CloseEnds(env: Env, st: LoopState, fitted: seq<Message>)
    requires NoFinal(st.out)
    ensures ProperlyEnded(Close(env, st, fitted).out) && !Close(env, st, fitted).status.Running?
  {
    var remaining := Remaining(env.Budget(), st.completionUsed);
    var messages := if st.trip.Some? then fitted + [GuidanceMessage(env.guidance(st.trip.value))] else fitted;
    var told := if st.trip.Some? then st.(out := st.out + [TokenOut(env.notice(st.trip.value) + " ")]) else st;
    if remaining == 0 {
      EndedAfter(told.out, [CompleteOut(TrimSpace(env.notice(CompletionTokens))), DoneOut]);
    } else {
      StreamedEnds(env, told, CloseOut, messages, remaining);
    }
  }

  lemma OfferEnds(env: Env, st: LoopState, fitted: seq<Message>, estimate: nat)
    requires st.status.Running? && NoFinal(st.out)
    ensures StreamInv(OfferTools(env, st, fitted, estimate))
  {
    var remaining := Remaining(env.Budget(), st.completionUsed);
    if remaining != 0 {
      match env.chat(st.calls, fitted, remaining) {
        case ChatFailed =>
          EndedAfter(st.out, [ErrorOut]);
        case ChatOk(content, calls, pt, ct) =>
          var charged := Charged(env, st, ChatOk(content, calls, pt, ct), fitted, estimate, remaining);
          if calls != [] {
            ToolChunksAreNotFinal(calls[..Affordable(env, charged.ran, calls)]);
          } else if content != "" {
            EndedAfter(st.out, [TokenOut(content), CompleteOut(content), DoneOut]);
          } else {
            StreamedEnds(env, charged, Restream, fitted, remaining);
          }
      }
    }
  }

  lemma StepStream(env: Env, st: LoopState)
    requires env.Valid() && st.status.Running? && StreamInv(st)
    ensures StreamInv(Step(env, st))
  {
    var (fitted, dropped, estimate) := Fitted(View(env.system, env.window, st.messages), env.Budget().maxPromptTokens);
    var trip := if estimate > env.Budget().maxPromptTokens then Some(PromptTokens) else st.trip;
    if trip.Some? || st.iteration == env.MaxIterations() {
      CloseEnds(env, st.(trip := trip), fitted);
    } else {
      OfferEnds(env, st, fitted, estimate);
    }
  }

  // ------------------------------------------------------------------ the stored history

  lemma FlattenSnoc(batches: seq<Batch>, b: Batch)
    requires forall i | 0 <= i < |batches| :: |batches[i].results| <= |batches[i].calls|
    requires |b.results| <= |b.calls|
    ensures Flatten(batches + [b])
            == Flatten(batches) + ([AssistantMessage(b.calls)] + ToolMessages(b.calls, b.results))
    ensures Executed(batches + [b]) == Executed(batches) + |b.results|
    ensures Requested(batches + [b]) == Requested(batches) + |b.calls|
  {
    assert (batches + [b])[..|batches|] == batches;
  }

  lemma RunBatchHistory(env: Env, base: seq<Message>, st: LoopState, calls: seq<ToolCall>)
    requires calls != [] && BatchesOk(st.batches, None) && st.ran == Executed(st.batches) <= env.Budget().maxToolCalls
    requires st.messages == base + Flatten(st.batches) && st.ran == Requested(st.batches) && st.trip != Some(ToolCalls)
    ensures HistoryInv(env, base, RunBatch(env, st, calls))
  {
    var k := Affordable(env, st.ran, calls);
    var b := Batch(calls, Results(env, st.ran, calls, k));
    FlattenSnoc(st.batches, b);
    Regroup(base, Flatten(st.batches), [AssistantMessage(calls)] + ToolMessages(calls, b.results));
    Regroup(st.messages, [AssistantMessage(calls)], ToolMessages(calls, b.results));
  }

  /** Batches answered completely stay well-formed whatever trips next. */
  lemma CompleteBatchesOk(batches: seq<Batch>, trip: Option<Reason>)
    requires BatchesOk(batches, None)
    ensures BatchesOk(batches, trip)
  {
  }

  lemma CloseHistory(env: Env, base: seq<Message>, st: LoopState, fitted: seq<Message>)
    requires HistoryInv(env, base, st)
    ensures HistoryInv(env, base, Close(env, st, fitted))
  {
  }

  lemma OfferHistory(env: Env, base: seq<Message>, st: LoopState, fitted: seq<Message>, estimate: nat)
    requires st.status.Running? && HistoryInv(env, base, st) && st.trip.None?
    ensures HistoryInv(env, base, OfferTools(env, st, fitted, estimate))
  {
    var remaining := Remaining(env.Budget(), st.completionUsed);
    CompleteBatchesOk(st.batches, OfferTools(env, st, fitted, estimate).trip);
    if remaining != 0 {
      var reply := env.chat(st.calls, fitted, remaining);
      if reply.ChatOk? && reply.calls != [] {
        RunBatchHistory(env, base, Charged(env, st, reply, fitted, estimate, remaining), reply.calls);
      }
    }
  }

  lemma StepHistory(env: Env, base: seq<Message>, st: LoopState)
    requires env.Valid() && st.status.Running? && HistoryInv(env, base, st) && TripInv(env, st)
    ensures HistoryInv(env, base, Step(env, st))
  {
    var (fitted, dropped, estimate) := Fitted(View(env.system, env.window, st.messages), env.Budget().maxPromptTokens);
    ViewFits(env, st);
    var trip := if estimate > env.Budget().maxPromptTokens then Some(PromptTokens) else st.trip;
    if trip.Some? || st.iteration == env.MaxIterations() {
      CloseHistory(env, base, st.(trip := trip), fitted);
    } else {
      OfferHistory(env, base, st, fitted, estimate);
    }
  }

  // ------------------------------------------------------------------ whole runs

  predicate RunInv(env: Env, base: seq<Message>, st: LoopState) {
    CallsInv(env, st) && TripInv(env, st) && StreamInv(st) && HistoryInv(env, base, st)
  }

  lemma {:induction false} DriveKeeps(env: Env, base: seq<Message>, st: LoopState)
    requires env.Valid() && RunInv(env, base, st)
    ensures RunInv(env, base, Drive(env, st)) && !Drive(env, st).status.Running?
    decreases env.MaxIterations() + 1 - st.iteration
  {
    if st.status.Running? {
      StepCalls(env, st);
      StepTrip(env, st);
      StepStream(env, st);
      StepHistory(env, base, st);
      StepAdvances(env, st);
      if Step(env, st).status.Running? {
        DriveKeeps(env, base, Step(env, st));
      }
    }
  }

  function Run(env: Env, history: seq<Message>): LoopState
    requires env.Valid()
  {
    Drive(env, Begin(history))
  }

  lemma RunKeeps(env: Env, history: seq<Message>)
    requires env.Valid()
    ensures RunInv(env, history, Run(env, history)) && !Run(env, history).status.Running?
  {
    DriveKeeps(env, history, Begin(history));
  }

  lemma {:induction false} OffersOfShape(calls: seq<LlmCall>)
    requires OnlyLastCloses(calls)
    ensures Offers(calls) == if calls != [] && !calls[|calls| - 1].kind.Offer? then |calls| - 1 else |calls|
  {
    if calls == [] {
    } else {
      OffersOfShape(calls[..|calls| - 1]);
    }
  }

  /** The loop always leaves through one of its own exits, after at most MaxToolIterations calls that offer tools,
      at most one call that does not, and at most MaxToolCalls executed tools. */
  lemma CallsAreBounded(env: Env, history: seq<Message>)
    requires env.Valid()
    ensures var end := Run(env, history);
            && !end.status.Running? && end.iteration <= env.MaxIterations()
            && Offers(end.calls) <= env.MaxIterations()
            && |end.calls| <= env.MaxIterations() + 1
            && |end.calls| - Offers(end.calls) <= 1
            && end.ran <= env.Budget().maxToolCalls
  {
    RunKeeps(env, history);
    OffersOfShape(Run(env, history).calls);
  }

  /** The client sees a stream that ends in `done` or `error`, with no `done` before the end. */
  lemma StreamIsProperlyEnded(env: Env, history: seq<Message>)
    requires env.Valid()
    ensures ProperlyEnded(Run(env, history).out)
  {
    RunKeeps(env, history);
  }

  /** The prompt budget trips exactly when the system message alone exceeds it, and then no tools are ever offered;
      every call that does offer tools is estimated within the budget. */
  lemma PromptTripIff(env: Env, history: seq<Message>)
    requires env.Valid()
    ensures var end := Run(env, history);
            && (end.trip == Some(PromptTokens) <==> EstimatePrompt([env.system]) > env.Budget().maxPromptTokens)
            && (end.trip == Some(PromptTokens) ==> Offers(end.calls) == 0)
            && forall i | 0 <= i < |end.calls| && end.calls[i].kind.Offer? ::
                 EstimatePrompt(end.calls[i].messages) <= env.Budget().maxPromptTokens
  {
    RunKeeps(env, history);
    var end := Run(env, history);
    OffersOfShape(end.calls);
  }

  /** What a run adds to the conversation: batches, each an assistant message with tool calls followed by the results
      of a prefix of them in order; only the last batch may be incomplete, and then because the tool budget tripped. */
  lemma HistoryIsWellFormed(env: Env, history: seq<Message>)
    requires env.Valid()
    ensures var end := Run(env, history);
            && BatchesOk(end.batches, end.trip)
            && end.messages == history + Flatten(end.batches)
            && end.ran == Executed(end.batches)
  {
    RunKeeps(env, history);
  }

  /** As many tools run as were asked for and are allowed; the tool budget trips exactly when more were asked for, and
      that is exactly when some batch is left incomplete. */
  lemma ToolTripIff(env: Env, history: seq<Message>)
    requires env.Valid()
    ensures var end := Run(env, history);
            && end.ran == AtMost(Requested(end.batches), env.Budget().maxToolCalls)
            && (end.trip == Some(ToolCalls) <==> Requested(end.batches) > env.Budget().maxToolCalls)
            && (end.trip == Some(ToolCalls) <==> exists i | 0 <= i < |end.batches| :: !Complete(end.batches[i]))
  {
    RunKeeps(env, history);
    CompleteIff(Run(env, history).batches);
  }

  lemma {:induction false} CompleteIff(batches: seq<Batch>)
    requires forall i | 0 <= i < |batches| :: |batches[i].results| <= |batches[i].calls|
    ensures Executed(batches) <= Requested(batches)
    ensures Executed(batches) == Requested(batches) <==> forall i | 0 <= i < |batches| :: Complete(batches[i])
  {
    if batches == [] {
    } else {
      var n := |batches| - 1;
      CompleteIff(batches[..n]);
      assert forall i | 0 <= i < n :: batches[..n][i] == batches[i];
    }
  }

  // ------------------------------------------------------------------ completion use

  /** The model never uses more completion tokens than it was allowed. */
  ghost predicate HonoursCaps(env: Env) {
    && (forall calls, messages, cap {:trigger env.chat(calls, messages, cap)} ::
          env.chat(calls, messages, cap).ChatOk? ==> Counted(env.chat(calls, messages, cap)) <= cap)
    && (forall calls, messages, cap {:trigger env.stream(calls, messages, cap)} ::
          env.stream(calls, messages, cap).Streaming? ==> env.stream(calls, messages, cap).tokens <= cap)
  }

  predicate WithinCaps(calls: seq<LlmCall>) { forall i | 0 <= i < |calls| :: calls[i].used <= calls[i].cap }

  lemma StreamedWithinCaps(env: Env, st: LoopState, kind: Kind, messages: seq<Message>, cap: nat)
    requires HonoursCaps(env) && WithinCaps(st.calls)
    ensures WithinCaps(Streamed(env, st, kind, messages, cap).calls)
  {
    var reply := env.stream(st.calls, messages, cap);
  }

  lemma CloseWithinCaps(env: Env, st: LoopState, fitted: seq<Message>)
    requires HonoursCaps(env) && WithinCaps(st.calls)
    ensures WithinCaps(Close(env, st, fitted).calls)
  {
    var remaining := Remaining(env.Budget(), st.completionUsed);
    var messages := if st.trip.Some? then fitted + [GuidanceMessage(env.guidance(st.trip.value))] else fitted;
    var told := if st.trip.Some? then st.(out := st.out + [TokenOut(env.notice(st.trip.value) + " ")]) else st;
    StreamedWithinCaps(env, told, CloseOut, messages, remaining);
  }

  lemma OfferWithinCaps(env: Env, st: LoopState, fitted: seq<Message>, estimate: nat)
    requires HonoursCaps(env) && WithinCaps(st.calls)
    ensures WithinCaps(OfferTools(env, st, fitted, estimate).calls)
  {
    var remaining := Remaining(env.Budget(), st.completionUsed);
    var reply := env.chat(st.calls, fitted, remaining);
    if remaining != 0 && reply.ChatOk? {
      StreamedWithinCaps(env, Charged(env, st, reply, fitted, estimate, remaining), Restream, fitted, remaining);
    }
  }

  lemma StepWithinCaps(env: Env, st: LoopState)
    requires env.Valid() && HonoursCaps(env) && WithinCaps(st.calls)
    ensures WithinCaps(Step(env, st).calls)
  {
    var (fitted, dropped, estimate) := Fitted(View(env.system, env.window, st.messages), env.Budget().maxPromptTokens);
    var trip := if estimate > env.Budget().maxPromptTokens then Some(PromptTokens) else st.trip;
    if trip.Some? || st.iteration == env.MaxIterations() {
      CloseWithinCaps(env, st.(trip := trip), fitted);
    } else {
      OfferWithinCaps(env, st, fitted, estimate);
    }
  }

  lemma {:induction false} DriveWithinCaps(env: Env, st: LoopState)
    requires env.Valid() && HonoursCaps(env) && WithinCaps(st.calls)
    ensures WithinCaps(Drive(env, st).calls)
    decreases env.MaxIterations() + 1 - st.iteration
  {
    if st.status.Running? && st.iteration <= env.MaxIterations() {
      StepWithinCaps(env, st);
      StepAdvances(env, st);
      if Step(env, st).status.Running? {
        DriveWithinCaps(env, Step(env, st));
      }
    }
  }

  /** Without a re-stream the use stays within the budget; a re-stream may exceed it by the empty reply's tokens. */
  lemma UseIsCapped(b: RequestBudget, calls: seq<LlmCall>)
    requires b.Valid() && OnlyLastCloses(calls) && CapsOk(b, calls) && WithinCaps(calls)
    ensures Used(calls) <= b.maxCompletionTokens + Overrun(calls)
  {
    if calls != [] {
      var n := |calls| - 1;
      assert CapOk(b, calls, n);
      assert calls[..n] == calls[..n];
      if calls[n].kind.Restream? {
        assert CapOk(b, calls, n - 1);
        assert calls[..n][..n - 1] == calls[..n - 1];
      }
    }
  }

  /** The tokens of the empty reply that was streamed again, if there was one. */
  function Overrun(calls: seq<LlmCall>): nat {
    if |calls| >= 2 && calls[|calls| - 1].kind.Restream? then calls[|calls| - 2].used else 0
  }

  /** No call is made without a positive cap. If the model honours its caps, the replies to calls that offer tools
      stay within the completion budget, and so does the whole run, but for the overrun of a re-streamed reply. */
  lemma CompletionUseIsBounded(env: Env, history: seq<Message>)
    requires env.Valid()
    ensures var end := Run(env, history);
            forall i | 0 <= i < |end.calls| :: 1 <= end.calls[i].cap <= env.Budget().maxCompletionTokens
    ensures HonoursCaps(env) ==>
              var end := Run(env, history);
              && Used(end.calls) <= env.Budget().maxCompletionTokens + Overrun(end.calls)
              && forall i | 0 <= i <= |end.calls| && AllOffer(end.calls[..i]) ::
                   Used(end.calls[..i]) <= env.Budget().maxCompletionTokens
  {
    RunKeeps(env, history);
    var end := Run(env, history);
    var b := env.Budget();
    forall i | 0 <= i < |end.calls| ensures 1 <= end.calls[i].cap <= b.maxCompletionTokens {
      assert CapOk(b, end.calls, i);
      if end.calls[i].kind.Restream? { assert CapOk(b, end.calls, i - 1); }
    }
    if HonoursCaps(env) {
      DriveWithinCaps(env, Begin(history));
      UseIsCapped(b, end.calls);
      forall i | 0 <= i <= |end.calls| && AllOffer(end.calls[..i])
        ensures Used(end.calls[..i]) <= b.maxCompletionTokens
      {
        PrefixCaps(b, end.calls, i);
        UseIsCapped(b, end.calls[..i]);
      }
    }
  }

  lemma PrefixCaps(b: RequestBudget, calls: seq<LlmCall>, i: nat)
    requires i <= |calls| && CapsOk(b, calls) && WithinCaps(calls) && AllOffer(calls[..i])
    ensures OnlyLastCloses(calls[..i]) && CapsOk(b, calls[..i]) && WithinCaps(calls[..i]) && Overrun(calls[..i]) == 0
  {
    forall j | 0 <= j < i ensures CapOk(b, calls[..i], j) {
      assert CapOk(b, calls, j);
      assert calls[..i][..j] == calls[..j];
      assert calls[..i][j] == calls[j];
    }
  }

  // ------------------------------------------------------------------ when the completion budget is kept

  /** Run by run, for a model that honours its caps: the budget is kept exactly when no reply was streamed again or the
      empty reply and the streamed one share a single cap. */
  lemma BudgetKeptIff(env: Env, history: seq<Message>)
    requires env.Valid() && HonoursCaps(env)
    ensures var calls := Run(env, history).calls;
            Used(calls) <= env.Budget().maxCompletionTokens <==> !RestreamsOverCap(calls)
  {
    RunKeeps(env, history);
    CompletionUseIsBounded(env, history);
    var calls := Run(env, history).calls;
    if calls != [] && calls[|calls| - 1].kind.Restream? {
      RestreamUse(env.Budget(), calls);
    }
  }

  predicate RestreamsOverCap(calls: seq<LlmCall>) {
    var n := |calls| - 1;
    n >= 1 && calls[n].kind.Restream? && calls[n - 1].used + calls[n].used > calls[n].cap
  }

  lemma RestreamUse(b: RequestBudget, calls: seq<LlmCall>)
    requires CapsOk(b, calls) && calls != [] && calls[|calls| - 1].kind.Restream?
    ensures var n := |calls| - 1;
            n >= 1 && Used(calls) - b.maxCompletionTokens == calls[n - 1].used + calls[n].used - calls[n].cap
  {
    var n := |calls| - 1;
    assert CapOk(b, calls, n);
    assert CapOk(b, calls, n - 1);
    assert calls[..n][..n - 1] == calls[..n - 1];
  }

  /** The same system message, window and limits, with any model and any tools. */
  predicate SameSettings(env: Env, other: Env) {
    other.system == env.system && other.window == env.window && other.rawBudget == env.rawBudget
  }

  /** A model that spends its whole cap on an empty reply, and again on the streamed one. */
  function Wasteful(env: Env): Env {
    env.(chat := (calls, messages, cap: nat) => ChatOk("", [], 1, cap),
         stream := (calls, messages, cap: nat) => Streaming([], cap))
  }

  /** Whatever the settings and the conversation, such a model honours its caps and uses twice the completion budget,
      unless the system message alone is over the prompt budget. */
  lemma RestreamOverruns(env: Env, history: seq<Message>)
    requires env.Valid() && !SystemTooBig(env)
    ensures HonoursCaps(Wasteful(env)) && SameSettings(env, Wasteful(env))
    ensures Used(Run(Wasteful(env), history).calls) == 2 * env.Budget().maxCompletionTokens
  {
    var w, st := Wasteful(env), Begin(history);
    var (fitted, dropped, estimate) := Fitted(View(w.system, w.window, history), w.Budget().maxPromptTokens);
    ViewFits(w, st);
    var cap := env.Budget().maxCompletionTokens;
    var first := LlmCall(Offer, fitted, estimate, cap, cap);
    var second := LlmCall(Restream, fitted, EstimatePrompt(fitted), cap, cap);
    var next := Step(w, st);
    assert next == OfferTools(w, st, fitted, estimate);
    assert next.calls == [] + [first] + [second] && !next.status.Running?;
    UsedSnoc([], first);
    UsedSnoc([] + [first], second);
  }

  /** Given the settings alone, every model that honours its caps keeps the completion budget in every conversation
      exactly when the system message is over the prompt budget, so that tools are never offered. */
  lemma BudgetAlwaysKeptIff(env: Env, history: seq<Message>)
    requires env.Valid()
    ensures (forall other: Env | SameSettings(env, other) && HonoursCaps(other) ::
               Used(Run(other, history).calls) <= env.Budget().maxCompletionTokens)
            <==> SystemTooBig(env)
  {
    if SystemTooBig(env) {
      forall other: Env | SameSettings(env, other) && HonoursCaps(other)
        ensures Used(Run(other, history).calls) <= env.Budget().maxCompletionTokens
      {
        RunKeeps(other, history);
        BudgetKeptIff(other, history);
      }
    } else {
      RestreamOverruns(env, history);
    }
  }
}
