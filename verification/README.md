# Grafana assistant: verified model

A Dafny model of the parts of the Grafana assistant that are state machines, concurrent protocols or arithmetic, with
proofs of what they guarantee on every input, every run and every interleaving. `dafny verify dfyconfig.toml` checks
everything.

| file | what it models |
|---|---|
| `RateLimiter.dfy` | the token-bucket limiter of the chat endpoint and the deletion of idle buckets |
| `Correlation.dfy`, `CorrelationTraces.dfy`, `PipeFraming.dfy` | MCP clients: concurrent requests matched with replies, what a sequence of steps says of the state it reaches, and newline framing on a shared pipe |
| `Discovery.dfy` | the allow/deny filter around an MCP client and its double-checked discovery cache |
| `Budget.dfy`, `LlmStream.dfy`, `AgentLoop.dfy` | token estimates and prompt trimming, the LLM chunk stream, and the agent loop |
| `AgentRuns.dfy`, `AgentTraces.dfy` | what holds of every run of the loop, and every message, call, budget and chunk of a run explained by what the model and the tools answered |
| `SseFraming.dfy` | the chat stream: frames printed by the server, parsed incrementally by the browser |
| `Reindex.dfy` | the incremental re-index of the vector table |
| `Similarity.dfy`, `StableSorting.dfy`, `Merge.dfy` | cosine similarity, the embedding codec, stable sorting, and the merged ranking |
| `TokenIndex.dfy` | the stored token index and search over it |
| `WordMatch.dfy` | word matching of the intent classifier |
| `Delimiters.dfy`, `Fetch.dfy` | delimiter repair, and the investigation fetch with its argument attempts and syntax retry |
| `RefIds.dfy` | default reference ids of explore queries |
| `Text.dfy`, `Options.dfy` | the string operations and the optional values that the others need |

Conventions. Code that changes things step by step is a method, or a class with methods, proved against a specification
function; the lemmas are about those functions. A protocol is a state machine whose steps are the atomic sections of
the code, and its results are about every state reached by any sequence of enabled steps. What lies outside (the LLM,
the tools, the database, the clock, JSON, SHA-256, Unicode tables, `sort`) is a parameter: an arbitrary function, with
only the assumptions written in a named predicate such as `IsSqrt`, `Sane`, `JsonObjects`, `GoodHash`, `ShowsKeys` or
`IsStableSort`.

Where a property that looks natural is false of the code, the model keeps the code and states exactly when it holds:

- The limiter that deletes idle buckets behaves like one that never deletes, keeps its window bound, and keeps clients
  apart, exactly when `10 * perMinute >= burst` (`CleanupUnobservableIff`, `WindowBoundedIff`, `KeysIsolatedIff`).
- A re-index equals a rebuild, titles included, exactly when every row whose content is listed unchanged is the row a
  rebuild would write (`ReindexEqualsRebuildIff`, `TitlesAreNotRefreshed`); a second run embeds nothing exactly when no
  id is listed with two contents (`SecondRunEmbedsNothingIff`).
- Prompt trimming keeps the longest suffix that fits exactly when everything fits or the last two messages do not
  (`KeepsLongestIff`); some conversation is trimmed more than it need be exactly when the window holds three or more
  messages (`OverTrimmingIff`).
- A model that honours its caps may still use more completion tokens than the budget, when its empty reply is streamed
  again. Given the settings, every such model keeps the budget exactly when the system message alone is over the prompt
  budget (`BudgetAlwaysKeptIff`); a single run keeps it exactly when no reply was streamed again or the two replies
  together fit under one cap (`BudgetKeptIff`).
- Lines on a pipe are the messages sent exactly when no failed write left a residue (`LinesAreMessagesIff`).
- Delimiter repair balances each kind but nests them only in the cases given by `RepairedIsNestedIff`.
- Reference ids are distinct exactly when the given ones are and avoid the defaults of blank positions
  (`AssignedDistinctIff`).

Where comments and code disagree the model follows the code: `LoadHistory` is described as prepending but appends
(internal/agent/memory.go:51-62), and vector scores are described as lying in [0, 1] (pkg/kb/merge.go:19-20)
while cosine similarity lies in [-1, 1] and only the threshold makes the kept ones positive.

## Model

| member | source | states |
|---|---|---|
| RateLimiter.Normalize | internal/middleware/ratelimit.go:53-59 | positive limits are kept, others become 20 a minute and a burst of 5, so every limiter has positive ones |
| RateLimiter.EarnedIsProduct | internal/middleware/ratelimit.go:28-30 | the refill, a repeated sum in the model, is elapsed time times rate |
| RateLimiter.Bucket.constructor | internal/middleware/ratelimit.go:17-24 | a new bucket is full |
| RateLimiter.Bucket.Allow | internal/middleware/ratelimit.go:26-39 | refill, cap and the decision, as a function of the bucket's level and the time; the time is updated on refusal too |
| RateLimiter.Limiter.constructor | internal/middleware/ratelimit.go:53-67 | no buckets, normalised limits, the cleanup clock started |
| RateLimiter.Limiter.Allow | internal/middleware/ratelimit.go:77-98 | one request: the cleanup when it is due, then the caller's bucket, all other buckets unchanged |
| RateLimiter.Limiter.Clean | internal/middleware/ratelimit.go:82-90 | the cleanup runs when the interval has passed and restarts the clock |
| RateLimiter.Limiter.DeleteStale | internal/middleware/ratelimit.go:83-88 | exactly the buckets idle since before the cutoff are deleted, in any order of the map |
| RateLimiter.Limiter.Admit | internal/middleware/ratelimit.go:92-97 | the caller's bucket, created full if missing, is charged |
| RateLimiter.SweepDeletesIff | internal/middleware/ratelimit.go:82-90 | when more than five minutes have passed since the last cleanup, exactly the buckets last used more than ten minutes before go, and the interval starts again |
| RateLimiter.CleanupUnobservableIff | internal/middleware/ratelimit.go:77-98 | deleting idle buckets changes no decision on any trace if and only if ten minutes refill the burst |
| RateLimiter.WindowBoundedIff | internal/middleware/ratelimit.go:26-98 | in every window of length T a key is allowed at most burst + perMinute/60 * T requests, with cleanup if and only if ten minutes refill the burst, without it always |
| RateLimiter.KeysIsolatedIff | internal/middleware/ratelimit.go:77-98 | a key's decisions depend on its own requests alone, if and only if ten minutes refill the burst |
| RateLimiter.SpacedRequestsAreAllowed | internal/middleware/ratelimit.go:26-98 | a request at least 60/perMinute seconds after every earlier one of its key is allowed, with or without cleanup |
| RateLimiter.IdleBucketIsFull | internal/middleware/ratelimit.go:28-33 | a bucket idle for ten minutes has refilled when ten minutes refill the burst |
| RateLimiter.ForgotRun | internal/middleware/ratelimit.go:77-98 | two limiters that differ only in full buckets one of them has forgotten decide alike for ever |
| RateLimiter.RelapseBreaksTheBound | internal/middleware/ratelimit.go:82-97 | otherwise some trace gets twice the burst within a window that allows less |
| RateLimiter.RelapseIsSeen | internal/middleware/ratelimit.go:82-97 | otherwise another client's request changes what a client is allowed |
| Correlation.Client.constructor | internal/mcp/sse_client.go:40-50 | the counter starts at 1 with an empty map |
| Correlation.Client.NextId | internal/mcp/sse_client.go:220 | the increment numbers the request with the new value |
| Correlation.Client.Register | internal/mcp/sse_client.go:236-240 | a fresh empty channel is put under the id |
| Correlation.Client.Claim | internal/mcp/sse_client.go:197-202 | look-up and removal in one critical section |
| Correlation.Client.Forget | internal/mcp/sse_client.go:243-247 | the deferred delete removes the id and nothing else |
| Correlation.InvStep | internal/mcp/sse_client.go:179-278 | every step of callers, readers, timeouts and cancels keeps the invariant: each reply is in exactly one place |
| Correlation.IdsAreDistinct | internal/mcp/sse_client.go:220 | ids are distinct and at least 2, so a null id, read as 0, matches nobody |
| Correlation.DeliveryNeverBlocks | internal/mcp/sse_client.go:204-206 | a reader that has claimed a call can always send at once; each channel is sent to at most once |
| Correlation.RepliesMatchRequests | internal/mcp/stdio_client.go:257-363 | a call returns only a message that arrived and bears its own id, and no two calls return the same one |
| Correlation.NothingLeaks | internal/mcp/sse_client.go:242-247 | a finished call's id is not in the map, which is empty when every call has finished |
| Correlation.NoReplyIsLost | internal/mcp/sse_client.go:197-206 | while a call waits, its entry is in the map, or its reply is held for it or in its channel; once its reply has arrived it is one of the latter two, by CorrelationTraces.ArrivedMeansGone |
| CorrelationTraces.NumberedInOrder | internal/mcp/sse_client.go:220 | calls are numbered from 2 in the order of their increments, and keep their numbers |
| CorrelationTraces.FirstReplyIsClaimed | internal/mcp/sse_client.go:197-206 | the first message to arrive with the id of a registered call is claimed for that call, stays claimed through any further steps, and is what the call returns if it returns a reply |
| CorrelationTraces.ArrivedMeansGone | internal/mcp/sse_client.go:197-202 | an entry still in the map has had no message with its id since it was registered |
| CorrelationTraces.WaitingCallCanReceive | internal/mcp/sse_client.go:269-272 | a waiting call whose reply has been sent can receive it at once, and then returns that reply |
| CorrelationTraces.PhaseIsOwnLastStep | internal/mcp/sse_client.go:219-278 | a call stands where its own last step left it, whatever other callers and readers do since |
| CorrelationTraces.FailureIsReported | internal/mcp/sse_client.go:248-277 | how a call failed is what its caller is told, through every later step |
| CorrelationTraces.ArrivedIsTrace | internal/mcp/sse_client.go:179-206 | what has arrived is the messages of the steps, in order, whether anybody waits for them or not |
| CorrelationTraces.NothingIsRuledOut | internal/mcp/sse_client.go:179-278 | at every phase the next step and every failure are possible, and any message may arrive at a free reader |
| PipeFraming.Pipe.WriteMessage | internal/mcp/stdio_client.go:301-313 | the payload, then the newline; a partial or failed write returns an error and leaves what it wrote |
| PipeFraming.InvReached | internal/mcp/stdio_client.go:301-313 | in every interleaving one caller at most is past the lock, and the pipe is the entries in lock order and what the holder has half written |
| PipeFraming.LinesAreMessagesIff | internal/mcp/stdio_client.go:301-313 | the complete lines are the payloads sent, in order of the lock, if and only if no failed write left a residue before a later message |
| PipeFraming.ReturnedMeansSent | internal/mcp/stdio_client.go:301-313 | a call that returned without an error has its payload among them |
| PipeFraming.PipeIsWritten | internal/mcp/stdio_client.go:301-313 | in every interleaving the pipe holds exactly what the writes put there, in their order, each a prefix of its own caller's payload or a newline |
| PipeFraming.SucceedsIffNewline | internal/mcp/stdio_client.go:306-312 | a call ends without an error exactly when its newline was written |
| PipeFraming.SomeCallerCanMove | internal/mcp/stdio_client.go:301-313 | no deadlock: while some call has not returned, some caller can take a step |
| PipeFraming.ResidueJoinsNextLine | internal/mcp/stdio_client.go:306-311 | whatever a failed write leaves of a message, all of it without its newline or any part, joins the next message in one line |
| Text.TrimSpaceIsTrim | internal/mcp/filtered_client.go:150-155 | trimming leaves no outer space, and a text without any as it is |
| Text.TrimSpaceAround | internal/mcp/filtered_client.go:150-155 | trimming takes off exactly the outer space |
| Text.AsciiSpace | internal/mcp/filtered_client.go:150-155 | of the ASCII characters the six usual ones are spaces |
| Discovery.BuildMatchSets | internal/mcp/filtered_client.go:148-164 | trimmed entries with and without the separator, blanks ignored |
| Discovery.ShortNameOf | internal/mcp/filtered_client.go:166-172 | with the separator first at k, the short form is what follows, unless that is blank, and then the name itself |
| Discovery.ShortNameOfPrefixed | internal/mcp/filtered_client.go:166-172 | the short form of a prefixed name is what follows its first separator |
| Discovery.ShortNameWithout | internal/mcp/filtered_client.go:166-172 | a name without the separator is its own short form |
| Discovery.MatchesIff | internal/mcp/filtered_client.go:121-172 | an entry matches its own name, and, when it has no separator itself, every name that has it behind the first separator |
| Discovery.AllowedIsPermitted | internal/mcp/filtered_client.go:121-146 | a tool is allowed when no deny entry means it and the allowlist is blank or some entry of it means it |
| Discovery.NamesMatch | internal/mcp/filtered_client.go:121-172 | looking a name and its short form up in the two sets is matching some configured entry |
| Discovery.NewFilteredClient | internal/mcp/filtered_client.go:13-26 | there is a wrapper exactly when some list is not empty, and it starts with its sets built and nothing cached |
| Discovery.UnconfiguredFiltersNothing | internal/mcp/filtered_client.go:14-16 | the wrapper that two empty lists would give passes everything, so leaving it out loses nothing |
| Discovery.FilteredClient.constructor | internal/mcp/filtered_client.go:18-25 | the sets describe the two lists; an allowlist of blanks counts as none |
| Discovery.FilteredClient.IsToolAllowed | internal/mcp/filtered_client.go:121-146 | a tool is allowed when no deny entry means it and the allowlist is blank or some entry means it, an entry without the separator meaning the tools of that name of every server |
| Discovery.FilteredClient.FilterTools | internal/mcp/filtered_client.go:80-88 | the allowed tools in order |
| Discovery.FilteredClient.Publish | internal/mcp/filtered_client.go:100-107 | the first list to arrive is cached, even an empty one, and is what is returned |
| Discovery.FilteredClient.InvokeTool | internal/mcp/filtered_client.go:110-119 | the upstream client is called exactly for permitted tools |
| Discovery.FilterKeepsCounts | internal/mcp/filtered_client.go:80-88 | every allowed tool is kept as often as it was discovered, every other one dropped |
| Discovery.FilterAt | internal/mcp/filtered_client.go:80-88 | each allowed tool stands right behind the allowed ones before it, and nothing else is there |
| Discovery.InvReached | internal/mcp/filtered_client.go:52-108 | the invariant of the two-lock protocol holds in every interleaving |
| Discovery.OneDiscovery | internal/mcp/filtered_client.go:52-108 | at most one upstream discovery succeeds, and every caller that returns a list returns the filter of that one |
| Discovery.ListedIffInvocable | internal/mcp/filtered_client.go:52-146 | what is listed is what upstream offered and may be invoked; no denied name is listed |
| Discovery.DeniedShortName | internal/mcp/filtered_client.go:121-172 | a short name in the denylist keeps every server's tool of that name out of what any caller is given, and from being invoked |
| Discovery.LateCallerIsServed | internal/mcp/filtered_client.go:53-60 | whoever asks once a list has been published is given one by that first check, and takes no further step |
| Discovery.FailureIsNotCached | internal/mcp/filtered_client.go:75-78 | failed discoveries leave no cache and no lock |
| Discovery.SomeCallerCanMove | internal/mcp/filtered_client.go:52-108 | no deadlock: while some caller has neither returned nor failed, some caller inside can take a step |
| Budget.Normalize | internal/agent/request_budget.go:29-67 | each positive setting is kept and each other one replaced by its default, so every limit is positive |
| Budget.EstimateText | internal/agent/request_budget.go:69-74 | the least number of four-byte tokens that covers the text |
| Budget.EstimateMessageTokens | internal/agent/request_budget.go:76-88 | the loop computes the estimate of one message |
| Budget.EstimateMessagesPromptTokens | internal/agent/request_budget.go:90-96 | the loop computes the estimate of a prompt |
| Budget.MessageIsCovered | internal/agent/request_budget.go:76-88 | at four bytes a token a message's estimate covers all its texts and four tokens more for itself and for each of its calls, with less than a token to spare for each text |
| Budget.PromptAdds | internal/agent/request_budget.go:90-96 | a prompt is estimated at two tokens and those of its messages |
| Budget.RemainingIs | internal/agent/request_budget.go:125-131 | what has been used and what remains make up the budget until nothing remains |
| Budget.CostIsLinear | internal/agent/request_budget.go:133-140 | a million tokens cost the stated price, prompt and completion apart, and cost adds up |
| Budget.EstimateConcat | internal/agent/request_budget.go:90-96 | estimates add up over concatenation, at least four tokens a message |
| Budget.SuffixCosts | internal/agent/request_budget.go:111-119 | a longer suffix behind the same first message costs strictly more |
| Budget.FitMessages | internal/agent/request_budget.go:98-123 | the scan equals a closed form: all, or the system message and the last one, or the system message alone; a limit that is not positive trims nothing |
| Budget.FittedIsExact | internal/agent/request_budget.go:98-123 | estimate and dropped count are exact; the result is over budget exactly when the system message alone is |
| Budget.KeepsLongestIff | internal/agent/request_budget.go:111-119 | trimming keeps the longest suffix that fits if and only if everything fits or the last two messages do not |
| Budget.OverTrimmingIff | internal/agent/request_budget.go:111-119 | with any system message, some conversation is trimmed more than it need be if and only if the window holds three or more messages |
| Budget.Memory.constructor | internal/agent/memory.go:20-31 | a window that is not positive becomes 20 |
| Budget.Memory.Add | internal/agent/memory.go:34-36 | the message goes to the end |
| Budget.Memory.Messages | internal/agent/memory.go:40-49 | the system message and the last `window` messages |
| Budget.ViewIsNewest | internal/agent/memory.go:40-49 | behind the system message stand the newest messages in order, as many as the window holds |
| Budget.Memory.LoadHistory | internal/agent/memory.go:52-63 | stored messages are appended one for one, content unchanged, as assistant when stored so and as user otherwise |
| LlmStream.StreamChat | internal/llm/openai.go:151-240 | the chunks produced for everything upstream may send, up to its first failure |
| LlmStream.CollectCalls | internal/llm/openai.go:190-210 | fragments are merged by index: id, type and name overwritten, arguments appended |
| LlmStream.CollectedCall | internal/llm/openai.go:190-210 | the k-th call has the arguments of its fragments joined in order, and of its id, type and name the last that was given; there are as many calls as the greatest index asks for |
| LlmStream.EmitTools | internal/llm/openai.go:214-236 | one chunk for each collected call with a name, carrying its arguments, an error for arguments that do not parse |
| LlmStream.ToolChunksAt | internal/llm/openai.go:214-236 | the chunk of the i-th call stands behind those of the named calls before it, with its name, its id or one made of its position, and its arguments, or is an error when they do not parse |
| LlmStream.StreamToClient | internal/agent/manager.go:767-786 | what is forwarded and what is accumulated |
| LlmStream.ReplyIsWellFormed | internal/llm/openai.go:151-240 | the client's view ends in `done` or `error`, in `done` exactly when upstream does not fail, with no `done` before the end; the stored reply is the content received |
| LlmStream.ContentConcat | internal/llm/openai.go:182-188 | the content received in two parts is that of the first and then that of the second |
| LlmStream.ContentOfOne | internal/llm/openai.go:182-188 | the content of one delta is its text, that of anything else nothing |
| LlmStream.ShownIsStored | internal/agent/manager.go:767-786 | the pieces that the client is shown add up to the reply that is stored, and so does the complete text when upstream does not fail |
| LlmStream.CompleteFillsIn | internal/agent/manager.go:771-780 | the complete text becomes the reply exactly when nothing before it has brought any |
| AgentLoop.HandleChat | internal/agent/manager.go:516-759 | the loop over memory, budgets, model and tools ends in the state of the specification |
| AgentLoop.Iterate | internal/agent/manager.go:531-759 | one iteration, with its bookkeeping and its exits |
| AgentLoop.ProcessToolCalls | internal/agent/manager.go:665-758 | calls run in order while the budget allows, each result stored under its call's id |
| AgentLoop.StreamReplyOut | internal/agent/manager.go:574-586 | a refused stream is an error and aborts; otherwise its chunks are forwarded and its content is the reply |
| AgentLoop.StepAdvances | internal/agent/manager.go:531-593 | an iteration that does not leave the loop was not the last, so the guard never ends it |
| AgentRuns.CallsAreBounded | internal/agent/manager.go:531-759 | the loop leaves through an exit of its own after at most MaxToolIterations calls that offer tools, one call more, and MaxToolCalls tools |
| AgentRuns.NothingAfterATrip | internal/agent/manager.go:531-588 | at whatever iteration of a run a budget has tripped, the rest of the run makes at most one more call, offers no tools and runs none |
| AgentRuns.StreamIsProperlyEnded | internal/agent/manager.go:531-786 | the stream of every run ends in `done` or `error`, with no `done` before the end |
| AgentRuns.PromptTripIff | internal/agent/manager.go:532-545 | the prompt budget trips exactly when the system message alone exceeds it, and then tools are never offered; every offering call is within the budget |
| AgentRuns.CompletionUseIsBounded | internal/agent/manager.go:566-657 | every call has a positive cap; a model that honours caps stays within the completion budget but for the tokens of a reply that is streamed again |
| AgentRuns.BudgetAlwaysKeptIff | internal/agent/manager.go:566-657 | in every conversation, all models that honour caps keep the completion budget if and only if the system message alone is over the prompt budget |
| AgentRuns.BudgetKeptIff | internal/agent/manager.go:641-654 | a run of such a model keeps it if and only if no reply was streamed again or the two replies together fit under one cap |
| AgentRuns.RestreamOverruns | internal/agent/manager.go:641-654 | for all other settings and every conversation some such model uses exactly twice the budget |
| AgentRuns.HistoryIsWellFormed | internal/agent/manager.go:659-758 | a run adds batches: an assistant message and the results of a prefix of its calls, complete but for the last batch when the tool budget trips; the results number the executed calls |
| AgentTraces.ConversationIsExplained | internal/agent/manager.go:659-758 | message by message: behind the history come the batches and nothing else, each the assistant's message with exactly the calls that the model asked for and then, in order, what the tools answered, each under the id of its own call |
| AgentTraces.CallsAreExplained | internal/agent/manager.go:531-657 | every call is recorded as it was answered, and was sent the trimmed conversation of that moment: the b-th offer after b batches, a closing call with the guidance for the trip at the end, a repeated one with the same messages |
| AgentTraces.TripIsExplained | internal/agent/manager.go:532-669 | which budget has tripped, if any, follows from what was asked for and used: prompt, then tool calls, then completion tokens, then cost; use is what the model reported, or the estimate where it reported none |
| AgentTraces.StreamIsExplained | internal/agent/manager.go:516-786 | the client's stream from beginning to end: the start, each executed tool's use and result in order, the notice of a trip, and the ending that the last answer determines; without a last call exactly when no completion tokens are left |
| AgentTraces.OffersHaveTokens | internal/agent/manager.go:566-631 | tools are never offered without completion tokens left, since the reply that uses the last of them trips the budget |
| AgentRuns.ToolTripIff | internal/agent/manager.go:665-669 | as many tools run as are asked for and allowed; the tool budget trips if and only if more are asked for than allowed, and if and only if some batch stays incomplete |
| AgentRuns.DriveKeeps | internal/agent/manager.go:531-759 | the invariants behind these results hold at the end of every run, from any state that has them |
| SseFraming.StreamResponse | frontend/src/services/api.ts:4-47 | for any chunks, events and leftover depend on the concatenated text alone |
| SseFraming.Drain | frontend/src/services/api.ts:20-45 | the inner loop takes every complete block off the buffer |
| SseFraming.ReadBlock | frontend/src/services/api.ts:25-42 | the values of the data lines that parse, in order |
| SseFraming.DataLine | frontend/src/services/api.ts:27-41 | a data line gives the value of what follows `data:`, white space around it left out, if that parses |
| SseFraming.OtherLine | frontend/src/services/api.ts:27-31 | a line that does not begin with `data:` behind its white space gives nothing |
| SseFraming.EmptyLine | frontend/src/services/api.ts:32-35 | a data line with nothing behind it gives nothing |
| SseFraming.SplitLinesJoin | frontend/src/services/api.ts:25 | the lines of a block have no line feeds, and joined by line feeds give the block |
| SseFraming.LinesAdd | frontend/src/services/api.ts:25-42 | the values of a block are those of its lines, in order |
| SseFraming.FirstBlock | frontend/src/services/api.ts:20-45 | a text up to its first two line feeds is one block and what follows them is read on; without them nothing is read and everything is left over |
| SseFraming.JsSpaceIff | frontend/src/services/api.ts:28-32 | the white space of JavaScript is that of Go but for two characters |
| SseFraming.EventsAppend | frontend/src/services/api.ts:19-45 | reading a text in two parts, keeping what is left over, is reading it whole |
| SseFraming.EventsOnlyGrow | frontend/src/services/api.ts:13-45 | what has been yielded is a prefix of what will be |
| SseFraming.ResponseWriter.Stream | internal/api/streaming.go:62-72 | one frame for a chunk that marshals, nothing for one that does not |
| SseFraming.PrintedEvents | internal/api/streaming.go:62-72 | parsing what was printed gives the chunks that marshalled, and nothing is left over |
| SseFraming.RoundTrip | frontend/src/services/api.ts:4-47 | the same however the network cuts the text |
| Reindex.VectorIndex.UpsertSection | pkg/kb/vector.go:61-68 | the row is replaced, or nothing changes |
| Reindex.VectorIndex.ContentHashForSection | pkg/kb/vector.go:131-135 | the stored hash, blank when there is none or the read fails |
| Reindex.VectorIndex.DeleteStale | pkg/kb/vector.go:71-98 | current rows stay; all others go when nothing fails, and none but stale rows otherwise |
| Reindex.VectorIndex.Reindex | cmd/kb-reindex/main.go:117-148 | the loop and the deletion end in the table and counts of the specification; however far a failing deletion gets, listed rows are as specified and any other row left is an old one unchanged |
| Reindex.RowIsOldOrWritten | cmd/kb-reindex/main.go:117-148 | every row that a run leaves is the old one unchanged, or was written whole from one listing of its id: its title, content and path, the embedding of the title, a line feed and the content, and the hash of the content |
| Reindex.EachListing | cmd/kb-reindex/main.go:121-146 | listing by listing: one whose stored hash can be read and matches is skipped; another is stored, and counted, when it can be embedded and written, and changes nothing when it cannot; no other row is touched |
| Reindex.PassIsPerId | cmd/kb-reindex/main.go:121-146 | what happens to one id's row depends on that row and the sections alone |
| Reindex.RunKeepsTheTableSound | cmd/kb-reindex/main.go:117-148 | whatever fails, deletions included, hashes keep matching contents and rows that are not listed are old ones unchanged; after successful deletions none is left |
| Reindex.ReindexIsRebuild | cmd/kb-reindex/main.go:117-148 | an id whose own listings embed and store has the content listed last and its hash, as after a rebuild, whatever else fails, from any consistent table and with repeated ids |
| Reindex.ReindexEqualsRebuildIff | cmd/kb-reindex/main.go:124-129 | the whole rows are those of a rebuild if and only if each stored row whose content is listed unchanged already is |
| Reindex.TitlesAreNotRefreshed | cmd/kb-reindex/main.go:124-129 | a renamed section with the same content keeps its old title |
| Reindex.SecondRunEmbedsNothingIff | cmd/kb-reindex/main.go:124-129 | a second run embeds nothing if and only if no id is listed with two contents |
| Similarity.CosineSimilarity | pkg/kb/vector.go:150-165 | the loop computes dot product over norms, 0 for vectors it cannot compare |
| Similarity.DotConcat | pkg/kb/vector.go:154-159 | the product of two vectors adds up over their parts |
| Similarity.DotOfOne | pkg/kb/vector.go:154-159 | on single coordinates the product is that of numbers |
| Similarity.CosineOfNothing | pkg/kb/vector.go:151-163 | the similarity of vectors of different lengths, of empty ones and of zero vectors is 0 |
| Similarity.CosineTimesLengths | pkg/kb/vector.go:160-164 | otherwise the similarity times the lengths of both vectors is their product |
| Similarity.CauchySchwarz | pkg/kb/vector.go:154-160 | the square of the dot product is at most the product of the squared norms |
| Similarity.CosineInRange | pkg/kb/vector.go:150-165 | cosine similarity of any two vectors lies in [-1, 1] |
| Similarity.SelfSimilarity | pkg/kb/vector.go:150-165 | a vector that is not zero has similarity 1 with itself |
| Similarity.EncodeEmbedding | pkg/kb/vector.go:168-174 | the loop fills the buffer with the values' encodings in order |
| Similarity.EncodingIsLittleEndian | pkg/kb/vector.go:168-174 | values are stored one after the other, each from its lowest byte to its highest |
| Similarity.DecodeEmbedding | pkg/kb/vector.go:177-184 | the loop decodes the complete values |
| Similarity.DecodeEncode | pkg/kb/vector.go:168-184 | what was stored is what is read back |
| Similarity.EncodeDecode | pkg/kb/vector.go:168-184 | a blob is the encoding of what it decodes to, up to an incomplete tail |
| StableSorting.StableSortIsStable | pkg/kb/merge.go:62-64 | the specification sort is sorted and keeps the order of equals |
| StableSorting.StableSortIsUnique | pkg/kb/merge.go:62-64 | what a stable sort promises determines its result |
| StableSorting.TiesKeepOrder | pkg/kb/merge.go:62-64 | on ties, elements of the first part come before those of the second |
| Merge.MergeResults | pkg/kb/merge.go:22-70 | the first `limit` of the stable descending sort of the kept results, token hits scaled by the greatest score, vector hits at or over the threshold |
| Merge.MaxScoreIsGreatest | pkg/kb/merge.go:26-31 | the normaliser is the greatest score, attained when positive |
| Merge.KeptAre | pkg/kb/merge.go:33-60 | the results kept are exactly the token hits with a positive score, in order, each document with its score over the greatest, and then the vector hits of 0.3 and more with their own |
| Merge.MergedRanking | pkg/kb/merge.go:22-70 | every merged score lies in (0, 1]; the list descends, token hits before vector hits on ties; nothing cut off scores higher than anything returned |
| TokenIndex.Tokenize | pkg/kb/index.go:276-297 | the scan collects the tokens of the maximal word runs |
| TokenIndex.TokensAreRuns | pkg/kb/index.go:276-297 | a token is a maximal run of word characters, each lower-cased twice, of at least two bytes; stated on characters and positions |
| TokenIndex.TokensFromText | pkg/kb/index.go:222-249 | the same tokens, each once, in increasing order |
| TokenIndex.BeforeIff | pkg/kb/index.go:244-248 | one string is before another when it is a proper beginning of it or smaller where they first differ |
| TokenIndex.IncreasingIsUnique | pkg/kb/index.go:244-248 | the sorted token list does not depend on the order of the map |
| TokenIndex.EnsureTokenSet | pkg/kb/index.go:251-258 | the set is built from the tokens once |
| TokenIndex.NewSection | pkg/kb/index.go:172-188 | a new section's tokens are those of its title, a newline and its body |
| TokenIndex.ScoreSection | pkg/kb/index.go:265-274 | the score is the sum of the weights of the tokens present, in any order of the map |
| TokenIndex.ScoreAdds | pkg/kb/index.go:265-274 | one more weighted token adds its weight exactly when the section has the token; without weights the score is 0 |
| TokenIndex.ScoreText | pkg/kb/index.go:222-297 | a section built from its text scores as tokenising the text does, both at once and after it has been saved and loaded |
| TokenIndex.TokensAreCanonical | pkg/kb/index.go:222-249 | what is stored is determined by the text |
| TokenIndex.Search | pkg/kb/index.go:127-150 | the first `limit` of the stable sort by score and then title |
| TokenIndex.SearchRanking | pkg/kb/index.go:127-150 | the results are in order of score and then title, scored by direct tokenising; nothing left out has a higher score, or the same and an earlier title |
| TokenIndex.FoundIsBuilt | pkg/kb/index.go:127-150 | every result is a section of the index, unchanged but for its token set, which is built from its tokens unless it was there |
| TokenIndex.FoundNothing | pkg/kb/index.go:128-130 | an empty index or a limit that is not positive finds nothing |
| WordMatch.NormalizeWordMatch | internal/agent/intent.go:201-218 | the loop joins the maximal word runs of the lower-cased text with single spaces |
| WordMatch.WordsAreRuns | internal/agent/intent.go:201-218 | each whole run of word characters is a word, behind those of the runs before it |
| WordMatch.WordsCount | internal/agent/intent.go:201-218 | there are as many words as places where a run begins, and so no others |
| WordMatch.NormalizeTwice | internal/agent/intent.go:201-218 | normalising is idempotent |
| WordMatch.PaddedTest | internal/agent/intent.go:184-186 | the padded substring test succeeds exactly when the needle's words are a contiguous sublist of the text's |
| WordMatch.IsLiteralNeedle | internal/agent/intent.go:191-199 | a needle is literal when some character is neither a word character nor a space |
| WordMatch.ContainsAnyNormalized | internal/agent/intent.go:158-189 | true exactly when the text is not blank and some needle occurs, literally or as whole words |
| WordMatch.HitsIff | internal/agent/intent.go:166-187 | outer space and case of a needle do not matter; one with a symbol has to occur character by character, any other has to have words and they have to follow each other among the text's |
| WordMatch.BestIntent | internal/agent/intent.go:99-123 | the highest score wins, ties by the fixed order, live data when nothing scored |
| Delimiters.CloseUnbalancedDelimiters | internal/agent/investigation_router.go:359-404 | the scan and the appending compute the repaired query |
| Delimiters.Balances | internal/agent/investigation_router.go:372-395 | the scan computes each kind's clipped balance |
| Delimiters.ResidualIsMaximum | internal/agent/investigation_router.go:377-395 | a balance is the greatest excess of openers over closers in any suffix |
| Delimiters.BalanceIsGreatestExcess | internal/agent/investigation_router.go:377-395 | the same by counting the two characters of each kind |
| Delimiters.RepairedIsBalanced | internal/agent/investigation_router.go:359-404 | the query is a prefix, every balance becomes zero, and repairing again changes nothing |
| Delimiters.FewestClosers | internal/agent/investigation_router.go:397-403 | nothing shorter balances the query by being appended |
| Delimiters.RepairedIsNestedIff | internal/agent/investigation_router.go:359-404 | the result is properly nested if and only if the query's closers fit and its open delimiters are braces, brackets, parentheses in that order |
| Delimiters.RepairCanCross | internal/agent/investigation_router.go:359-404 | an open parenthesis and bracket are closed in the wrong order |
| Fetch.EnsureRequired | internal/agent/investigation_router.go:647-688 | every missing required argument that the router knows is filled in, in any order |
| Fetch.DedupeArgs | internal/agent/investigation_router.go:755-775 | the cleaned entries, without empty ones and repetitions |
| Fetch.DedupedIsDistinct | internal/agent/investigation_router.go:755-775 | no two of them have the same text |
| Fetch.DedupedLosesNothing | internal/agent/investigation_router.go:755-775 | of every entry that is not empty, one with the same text is left |
| Fetch.CleanIff | internal/agent/investigation_router.go:777-809 | cleaning takes out blank texts and empty maps and the outer space of texts, and nothing else |
| Fetch.BuildArgAttempts | internal/agent/investigation_router.go:532-645 | the attempts: filtered by the tool's contract, primary, and the query under two other names |
| Fetch.AttemptsShape | internal/agent/investigation_router.go:532-645 | three or four attempts, pairwise different |
| Fetch.AttemptsCarryQuery | internal/agent/investigation_router.go:532-645 | every attempt carries the query unchanged under each name that it uses for it |
| Fetch.AttemptsAreAsAsked | internal/agent/investigation_router.go:532-688 | every argument of every attempt is what the request says under its name: the two ends of the time range, the datasource and its uid, the range, limit, step, instant and direction; a limit of 500 only where a required one was not given |
| Fetch.AttemptsSayAll | internal/agent/investigation_router.go:597-643 | under each of the three names for the query some attempt carries the query and every part of the context that the request gives |
| Fetch.ContractComesFirst | internal/agent/investigation_router.go:551-595 | a tool that declares its arguments is first tried with those alone: what was asked for under a declared name and everything required that can be filled in |
| Fetch.CorrectedIsBalanced | internal/agent/investigation_router.go:331-357 | a corrected query is balanced in each kind of delimiter |
| Fetch.CorrectedIsTrim | internal/agent/investigation_router.go:331-357 | a corrected query has no outer space |
| Fetch.CorrectedOfWrap | internal/agent/investigation_router.go:331-357 | outer backticks and one final semicolon come off and the missing closers go on; a log query that then ends in a line filter without its text gets an empty one |
| Fetch.DetectedIff | internal/agent/investigation_router.go:301-329 | an error counts as one of syntax exactly when it holds one of the seventeen phrases in any case, and the reason is that of the first group with one |
| Fetch.HintMatchesRetry | internal/agent/investigation_router.go:331-357 | after a syntax error the advice tells of a correction exactly when there is a second pass or nothing is left of the query |
| Fetch.TryAttempts | internal/agent/investigation_router.go:186-202 | attempts are tried in order up to the first that succeeds |
| Fetch.BothPasses | internal/agent/investigation_router.go:179-240 | the second pass happens exactly when the first failed, its last error looks like syntax, and the correction is a different query; it too tries a prefix of its attempts |
| Fetch.PassIsExplained | internal/agent/investigation_router.go:186-202 | a pass is invocations in order and without a gap, each but the last a failure, of all the attempts unless the last one succeeds |
| Fetch.SecondPassIff | internal/agent/investigation_router.go:204-240 | the second pass counts on from the first, and follows exactly a syntax error with another query to try |
| Fetch.RouteFetch | internal/agent/investigation_router.go:134-299 | a blank query and a missing tool are reported; otherwise the answer is `ok` exactly when the last invocation succeeded, with its arguments and result, all earlier ones having failed; there are between one and eight invocations |
| Fetch.Respond | internal/agent/investigation_router.go:242-299 | the answer reports the two passes, the last error, and the retry with its reason, advice and queries |
| Fetch.AnswerIsExplained | internal/agent/investigation_router.go:242-299 | field by field: the answer is a success with the last invocation's arguments, result and query, or an error with the last error and all invocations; detection, reason, correction and original query are those of the run |
| RefIds.RefIdFromIndex | internal/agent/explore.go:124-135 | the loop computes the numbering; a negative index gives A |
| RefIds.NumberingIsInOrder | internal/agent/explore.go:124-135 | the numbering runs through the ids by length and then alphabetically |
| RefIds.IndexOfRefId | internal/agent/explore.go:124-135 | decoding an index's id gives the index back |
| RefIds.RefIdOfIndex | internal/agent/explore.go:124-135 | every nonempty string over A to Z is the id of the index it decodes to |
| RefIds.FillDefaults | internal/agent/explore.go:65-78 | each query keeps what it has and gets what it lacks: the id of its position, the default legend, editor mode and datasource |
| RefIds.AssignedDistinctIff | internal/agent/explore.go:65-68 | default ids are distinct; with given ids, all are distinct if and only if the given ones are and none stands for a blank position |
| RefIds.GivenIdCanCollide | internal/agent/explore.go:65-68 | a blank query before one called A collides with it |

## Left out

- Transport and storage: HTTP, SSE connections, processes, the SQL engine and the OpenAI client are oracles, step labels or a map.
- JSON, SHA-256, UTF-8 decoding and Unicode tables are parameters with the stated assumptions; a value that does not marshal does not occur in fetch arguments.
- IEEE floating point: reals are used, so rounding, infinities and NaN are not modelled; Go integers are unbounded.
- Real time: the limiter takes its clock readings as inputs and assumes them nondecreasing where a result says so.
- LlmStream.CollectCalls: fragment indices are natural numbers; a negative index, which would panic, is not modelled.
- LlmStream.EmitTools: a tool chunk carries the text of its arguments, not the value parsed from it.
- PipeFraming.LinesAreMessagesIff: says what lines the server can read, not how the server splits or limits them.
- Merge.MergeResults: a negative limit, which would panic, is not modelled.
- TokenIndex.EnsureTokenSet: sections are values, as they are where `Search` copies them, so sharing of a set between copies is not modelled.
- AgentLoop.HandleChat: begins with the system prompt built and the history loaded; sub-agents, context building, audit entries, tool argument and result shaping and the persistence of the reply are not part of this model.
- Fetch.RouteFetch: message texts, previews, deep copies, the choice of tool, datasource and time range, and the shared timeout are not modelled; a timeout shows only as failed invocations.
- Fetch.Respond: the fields of the answer that repeat the request (action, tool, investigation, datasource, time range) and its message texts are not modelled.
- `ClassifyIntent`: its keyword lists and confidences, which state nothing beyond their tables.
- `splitMarkdownSections`, walking and saving the knowledge base; `VectorIndex.Search`, whose sort is not stable.
- Redaction, CORS, CSRF, header middleware, the investigation plan, summary and next-step actions, dashboards, evaluation, and all React components.
- The `tools` field of the MCP clients, which is read and written without synchronisation, and the tool-client cache.
