# OpenCS: record and replay, guarded execution, proposal queues

A Dafny model of the Python backend of OpenCS, with proofs. It covers three connected state machines and the text facts
they rest on.

1. **Record and replay.** The orchestrator appends messages, tool calls and tool results to the L0 log
   (`L0Store.dfy`); `TraceLoader` folds a conversation back into two caches (`Traces.dfy`); the replaying clients serve
   them by mode (`Replay.dfy`); `ReplayEngine` drives the reply worker, the guard and the orchestrator again over fresh
   stores (`Workers.dfy`, `Agents.dfy`, `Engine.dfy`); `ReplayDiffer` compares the two lists and gives a verdict
   (`Differ.dfy`); the shadow runner turns an inconclusive replay into a blocked gate (`Shadow.dfy`).
2. **Guarded execution as a protocol.** `handle` is a coroutine. `Protocol.dfy` gives every run in flight a program
   counter and lets any sequence of steps interleave: messages arriving, workers returning, the guard judging, adapters
   and tools acting, results arriving, exceptions and cancellations at any await, sessions closing, people deciding.
   `ProtocolSafety.dfy`, `ProtocolCounts.dfy` and `ProtocolTrails.dfy` prove what holds after every such sequence: what may
   happen, how the counts balance, and what must have happened.
3. **Proposals and their queue.** `ProposalStore` is a table whose row order is part of the state, because
   `INSERT OR REPLACE` moves a row to the end (`Proposals.dfy`, `ProposalTable.dfy`); the queue built on it refines the
   dict queue it replaces (`Queues.dfy`).

Below them: JSON text and its canonical form (`Json.dfy`, `JsonRoundTrip.dfy`, `Canon.dfy`), ISO timestamps as text
(`Timestamps.dfy`), `ORDER BY` with ties (`Sorting.dfy`), `WHERE` and paging (`Queries.dfy`), Python's `dict`
(`Dicts.dfy`), the signed token (`Token.dfy`), the audit log (`AuditLogs.dfy`), guard and in-process queue (`Guard.dfy`),
the memory layers (`Memory.dfy`), the order-reference pattern (`OrderRef.dfy`) and the webchat adapter (`WebChat.dfy`).

Conventions. A class of the source whose methods change fields is a class here; its `Valid()` ties the rows, which are
text, to the ghost list of values they stand for, and every method states its new list by a function of the old one.
`None` stands for a raised exception. Clock readings, uuid digits, model replies and tool results are answers of one
`World` object, which also records what was asked (`Outside.dfy`). SHA-256, HMAC, full-text ranking, `repr`, the Unicode
tables and the base prompt are parameters, so every statement holds for all of them. Texts are sequences of code points.

Three things the proofs brought out. The docstring of `ReplayDiffer` promises `INCONCLUSIVE` "otherwise", but the code
never yields it (`VerdictClosedForm`); only an empty trace does, and that is why the shadow gate has the closed form
below. Stored timestamps are compared as texts, and 09:30 UTC sorts before 10:00 at +08:00, which is earlier
(`MixedOffsetsCanBreakOrder`). `KeepsOrderIff` and `ListingIsChronologicalIff` say when this matters: stamps of one
offset always sort as time, stamps of different offsets do so exactly if their clocks are further apart than their
offsets or, at equal clock readings, one is west of UTC. And the audit filters compare texts too, so a `since` without an
offset lets in an entry in UTC of exactly its clock reading, while an `until` keeps it out (`NaiveBoundsAtTheEntry`).

## Model

| member | source | states |
|---|---|---|
| ProtocolSafety.EveryEffectWasApproved | src/opencs/agents/orchestrator.py:71-150 | in every interleaving, each tool execution and each send has an earlier `auto_approved` audit entry of the same handler for the same plan, its tier is at most ORANGE_B, so nothing ORANGE_C or RED ever takes effect, and it went where the plan is routed, behind a valid token unless the adapter there verifies none |
| ProtocolSafety.PlansAreJudgedInOrder | src/opencs/agents/orchestrator.py:90-98 | in every interleaving, the plans audited for a handler are a prefix of its workers' outputs one after another, each once and in order, and all of them if the handler ended normally |
| ProtocolSafety.VerifiedEffectsComeInTime | src/opencs/harness/token.py:45-81 | an effect behind a token check comes before the expiry of the approval it goes back to |
| ProtocolTrails.HandlersLeaveTheirTrail | src/opencs/agents/orchestrator.py:71-150 | in every interleaving, the events of a handler are exactly, one after another, the whole footprints of the plans it is done with (a verdict by tier; for an approved send the send; for an approved tool plan, if there are tools, call, execution and result) and the beginning of the footprint of the plan in hand, as far as the handler has got or where an exception or cancellation ended it; no plan it is done with was approved with nowhere to go |
| ProtocolTrails.EndedHandlersDidEverything | src/opencs/agents/orchestrator.py:71-150 | in every interleaving, a handler that has ended has asked every worker and left the whole footprint of every plan they returned, in order and nothing else; its effects are exactly its plans of tiers up to ORANGE_B that go to a channel or, if there are tools, to a tool; none of them had nowhere to go |
| ProtocolTrails.EffectsFollowApprovals | src/opencs/agents/orchestrator.py:95-150 | in every interleaving and at any time, the effects of a handler are, in order, those of its audited plans that are approved and go somewhere; only the last of these can be missing, while it is on its way or if it ended the handler |
| ProtocolTrails.ClearHandlersCanEnd | src/opencs/agents/orchestrator.py:71-150 | from every state of every run, a handler not ended by an exception or cancellation, and with nothing in the way of the plans it has left, can go on to its end by its own steps alone |
| Protocol.RoutesOfSends | src/opencs/agents/orchestrator.py:100-121 | a plan that is no send goes to a tool; a send without a conversation or a text goes nowhere, every other to the channel it names, by default webchat, or to webchat if there is no such channel |
| ProtocolCounts.EffectsNeverExceedApprovals | src/opencs/agents/orchestrator.py:90-136 | in every interleaving, effects of an action id plus its unused tokens never outnumber the approvals of that id |
| ProtocolCounts.ToolEventsBracket | src/opencs/agents/orchestrator.py:124-150 | per conversation and action id, calls recorded are results recorded plus calls in flight plus calls that raised, and no prefix of the log has more results than calls |
| ProtocolCounts.TurnsCountInboundEvents | src/opencs/memory/memory_store.py:23-32 | in every interleaving, the turn count of a conversation is the number of its inbound events since its session was last closed |
| ProtocolCounts.NeverClosedCountsAll | src/opencs/memory/memory_store.py:23-32 | for a session never closed that is the number of all its inbound events |
| ProtocolCounts.WaitingPlansAreAudited | src/opencs/harness/action_guard.py:52-67 | whatever waits in the queue waits under its own action id, is of a tier that needs a person, and has its `hitl_queued` entry |
| ProtocolCounts.QueueHoldsWhatWaits | src/opencs/harness/action_guard.py:52-58 | in every interleaving, exactly the plans wait that were judged to wait, the last one of an id, until a decision on the id, each with its reason and unmarked |
| Engine.ReplayEngine.Replay | src/opencs/replay/engine.py:45-109 | an empty trace is inconclusive with counts 0 and asks nothing. Otherwise the orchestrator of the rerun is put together for this trace and session (`Assembled`), and (`Replayed`) the fallback model was asked exactly the requests of the messages the run came to: none for those the STRICT cache answers, and for every other, in order, its customer words under the base prompt, the prompt and model overrides applied unless STRICT; nothing was sent and no channel looked up, even if an exception ended it; and a replay that returns has (`Reran`) one inbound event per recorded message with the call and the result of its lookup directly after it if it refers to an order, min(1000, n + 2k) events listed, exactly the diff and verdict of the two listings, and as its baseline count the conversation's events up to a thousand |
| Engine.ReplayEngine.AskedForQuestions | src/opencs/replay/engine.py:58-123 | the requests of a replay are, in order, one per message, those the STRICT cache answers missing: the base prompt, or the override outside STRICT mode if there is one, then the message's words stripped, to the replay's model or the override |
| Engine.RecordedMessageSaid | src/opencs/replay/engine.py:111-123 | the words of a recorded message that had some text are that text |
| Engine.Rerun | src/opencs/replay/engine.py:94-96 | the loop asks those requests and leaves, message by message and in order, its inbound event and, exactly if its words refer to an order, directly after it the call and the result of one lookup of the leftmost reference, the result the cached one if there is one to serve; a naive timestamp ends it |
| Engine.RecordedCounts | src/opencs/replay/engine.py:94-98 | such a log holds one event per message and two more per message that refers to an order, all of the one conversation, and its inbound events are the recorded ones again in order |
| Engine.ReplayEngine.Assemble | src/opencs/replay/engine.py:58-92 | the rerun starts from fresh empty stores and an unused cursor; cache, mode, prompt and model override of the model client and cache, mode and rerun ids of the tools are the trace's and the session's, the registered tools are the engine's, and the guard has its own key and a ttl of 30 seconds |
| Engine.ReplayEngine.Compare | src/opencs/replay/engine.py:98-109 | the result's counts, points and verdict are those of the two listings, the count a closed form of the messages and their order references |
| Engine.ReplayRepeatsInboundIffItHasText | src/opencs/replay/engine.py:111-123 | replaying a recorded message records the same event again exactly when the message had some text |
| Engine.RecordedListing | src/opencs/replay/engine.py:98 | listing a log of one conversation returns all of it up to a thousand events |
| Shadow.ShadowRunner.Run | src/opencs/evolution/shadow_runner.py:26-60 | a run that returns blocks the gate exactly when the proposal names a badcase conversation with no recorded events; without a name nothing is replayed; for a named conversation the model was asked, for every message the run came to and in order, its words under the payload's `prompt_override`, or the base prompt, by the payload's `model_override`, or the replay's model, and verdict and session id are the replay's |
| Shadow.ListingIsEmptyIffNoEvents | src/opencs/replay/engine.py:48-49 | the trace is empty exactly when the conversation has no event |
| Replay.RecordReplayRoundTrip | src/opencs/replay/replaying_tool.py:35-48 | a recorded result within the first 1000 events, not followed there by another of its action, is served for that action with the same success, data and error, empty error becoming none |
| Replay.DelegatesIffNeverRecordedOrRerun | src/opencs/replay/replaying_tool.py:35-48 | the real executor is reached exactly when no result of the action was recorded or, in WHAT_IF mode, the tool is one to rerun |
| Replay.LlmRoundTrip | src/opencs/replay/replaying_llm.py:30-36 | a recorded LLM call with an id and an output, not followed by another of its id: the loaded cache answers the id with that output, and the STRICT call whose number is how many ids occur before it answers it too and asks nobody |
| Replay.CallEventFields | src/opencs/agents/orchestrator.py:125-134 | the call is recorded with the id, the tool and the arguments of its plan |
| Replay.ResultEventFields | src/opencs/agents/orchestrator.py:138-150 | the result is recorded with the id and tool of its plan and with its success, data and error |
| Replay.ReplayingToolExecutor.Execute | src/opencs/replay/replaying_tool.py:35-48 | a served result, its error handed on if truthy, leaves the tool uncalled and the clock unread; otherwise the tool is called once, for a verified token and a registered tool only |
| Replay.ToolExecutor.Execute | src/opencs/tools/executor.py:19-22 | the tool is reached exactly with a verified token for a registered tool, and its answer is returned |
| Replay.ReplayingLlmClient.constructor | src/opencs/replay/replaying_llm.py:14-28 | the cursor starts at the first reply |
| Replay.ReplayingLlmClient.Chat | src/opencs/replay/replaying_llm.py:30-40 | STRICT call number n is cached reply n without asking the model; past the cache, and in the other modes, the model is asked one request: no message other than a leading system prompt is lost or moved, without a prompt override or in STRICT mode the messages are exactly the given ones, else the override comes first, and the model asked is the given one or, outside STRICT mode, the override |
| Replay.SentConveys | src/opencs/replay/replaying_llm.py:30-47 | the same of every request, and without overrides the request is exactly the given one in every mode |
| Replay.OverrideTouchesOnlySystemPrompt | src/opencs/replay/replaying_llm.py:42-47 | an override replaces or adds the system prompt, keeps every other message in place, and applying it twice is applying it once |
| Replay.ReadOnlyChannel.Send | src/opencs/replay/read_only_channel.py:28-30 | a send is captured with its time and goes nowhere else |
| Traces.TraceLoader.Load | src/opencs/replay/trace_loader.py:21-42 | the loop computes the inbound list and the two caches of the first 1000 events |
| Traces.ToolCacheHoldsLastResult | src/opencs/replay/trace_loader.py:34-39 | an action id is answered exactly if a `tool_result` was recorded under it, and with success, data and error of the last one |
| Traces.NthReplyIsFinalOutput | src/opencs/replay/trace_loader.py:28-33 | the n-th cached reply is the last output of the n-th distinct recording id, ids in order of first occurrence |
| Traces.ReplyPosition | src/opencs/replay/trace_loader.py:28-33 | the place of an id among the cached replies is the number of ids that occur before it does |
| Traces.LlmCacheHoldsLastReply | src/opencs/replay/trace_loader.py:28-33 | a recording id is answered exactly if an `llm_call` with an output was recorded under it, and with the output of the last one |
| Differ.ReplayDiffer.Diff | src/opencs/replay/differ.py:30-92 | the index loop, which compares texts, reports what the step-by-step comparison of JSON values says, and its verdict is the closed form |
| Differ.DiffIsSoundAndComplete | src/opencs/replay/differ.py:30-66 | the reported steps increase strictly and are exactly the steps where a side is missing or kind or payload differ |
| Differ.KindsSayWhatChanged | src/opencs/replay/differ.py:34-62 | TOOL_ADDED iff the replay side has a tool event and the baseline none of that kind, TOOL_MISSING iff only the baseline side has a tool event, LLM_OUTPUT_CHANGED iff both sides are there, one an LLM call and none a tool event, and ACTION_CHANGED never |
| Differ.SummariesShowTheirSides | src/opencs/replay/differ.py:34-62 | the baseline summary of a reported step shows the baseline's side and the replay summary the replay's: `<missing>` if there is none, else the kind and then the payload, which reads back whole if it was written in at most 120 characters and is cut there and marked otherwise |
| Differ.DiffIsEmptyIffEqual | src/opencs/replay/differ.py:30-66 | no divergence exactly when lengths, kinds and payload values agree |
| Differ.CommonPrefixShifts | src/opencs/replay/differ.py:30-66 | the same events before both sides shift every step by their number and change nothing else |
| Differ.RegressionDiverges | src/opencs/replay/differ.py:94-104 | a tool result whose success was lost is always among the divergences |
| Differ.VerdictClosedForm | src/opencs/replay/differ.py:68-104 | NEW_REGRESSION iff at some step a tool result that had succeeded does so no more, else BADCASE_REMAINS iff a badcase index is given and both sides there are missing or agree in kind and payload value, else BADCASE_FIXED, never INCONCLUSIVE |
| Canon.CanonTextIsInjective | src/opencs/replay/differ.py:107-108 | two payloads have one canonical text exactly when they are equal as JSON values, floats included, whatever the order of their keys |
| JsonRoundTrip.LoadsDumps | src/opencs/memory/l0_store.py:41-67 | what `json.dumps` writes, in any of the styles used, `json.loads` reads back unchanged, floats included |
| JsonRoundTrip.AsciiStyleIsAscii | src/opencs/harness/token.py:14-16 | with `ensure_ascii` every value is written in printable ASCII |
| JsonRoundTrip.StylesInUse | src/opencs/memory/l0_store.py:41-51 | the log writes unescaped text as it is, with spaced separators; the token's arguments are ASCII without spaces between them |
| L0Store.DecodeEncode | src/opencs/memory/l0_store.py:41-67 | a row reads back as the event it was written from |
| L0Store.L0RawEventStore.Append | src/opencs/memory/l0_store.py:41-51 | the log grows by exactly this event |
| L0Store.L0RawEventStore.List | src/opencs/memory/l0_store.py:53-67 | decoding the selected rows gives the selected events |
| L0Store.L0RawEventStore.ListByKinds | src/opencs/memory/l0_store.py:69-87 | the same for a set of kinds |
| L0Store.ListingLength | src/opencs/memory/l0_store.py:53-58 | a listing has min(limit, events of the conversation) entries |
| L0Store.KindsOfListing | src/opencs/memory/l0_store.py:69-87 | listing kinds is listing the conversation and keeping those kinds, order and ties included |
| L0Store.ListingIsChronological | src/opencs/memory/l0_store.py:53-58 | for stamps of one offset the full listing is a permutation of the conversation's events in time order, equal stamps in order of appending |
| L0Store.ListingIsChronologicalIff | src/opencs/memory/l0_store.py:53-58 | the full listing of a conversation runs forward in time if and only if no two of its stamps, naive ones read as UTC, sort against time, which two stamps do exactly if the earlier clock is the later instant or, at equal clock readings, the offsets are different and neither west |
| Sorting.SortByIsStable | src/opencs/memory/l0_store.py:29-58 | rows with equal keys come out in row order |
| Timestamps.TextOrderIsTimeOrder | src/opencs/memory/l0_store.py:41-58 | with equal UTC offsets the isoformat texts compare as the instants, also when one omits zero microseconds |
| Timestamps.EarlierLocalSortsFirst | src/opencs/memory/l0_store.py:41-58 | whatever the offsets, the earlier local clock reading sorts first |
| Timestamps.KeepsOrderIff | src/opencs/memory/l0_store.py:41-58 | for any two stamps with offsets, text order is time order exactly when the local clocks are further apart than the offsets or, reading the same, have equal offsets or one west of UTC |
| Timestamps.TextAgreesWithTimeIff | src/opencs/harness/audit_log.py:96-101 | for any two stamps, naive or of any offset, the first text sorts before the second exactly if it is earlier, if and only if clocks and offsets meet a stated condition |
| Timestamps.SortsInTimeIff | src/opencs/memory/l0_store.py:53-58 | the first of two texts sorts before the second only at an instant no later, if and only if clocks and offsets meet another stated condition |
| Timestamps.MixedOffsetsCanBreakOrder | src/opencs/memory/l0_store.py:41-58 | two stamps of different offsets that sort against time |
| Timestamps.FromIsoFormatIsoFormat | src/opencs/memory/l0_store.py:41-67 | `fromisoformat` gives back every datetime from its `isoformat` |
| Token.IssuedTokenVerifies | src/opencs/harness/token.py:45-84 | an issued token verifies exactly for its own action and before its expiry, with or without the key given |
| Token.ExpiryIsPermanent | src/opencs/harness/token.py:45-51 | a token rejected as expired is rejected as expired ever after |
| Token.MessageDecodesUniquely | src/opencs/harness/token.py:19-32 | the signed message determines action id, digest and expiry, even if the id contains bars |
| Token.SignatureBindsToken | src/opencs/harness/token.py:14-62 | a token that carries an issued signature and verifies under the key has the issued action, expiry and argument value, unless the two signed messages are a collision of HMAC under that key or the two argument texts one of SHA-256 |
| Token.IssuedTokenMeetsBinding | src/opencs/harness/token.py:45-84 | an issued token itself meets those premises until its expiry |
| Guard.ActionGuard.Evaluate | src/opencs/harness/action_guard.py:41-68 | every judged plan gets one audit entry with its id, tool and tier, `auto_approved` for tiers up to ORANGE_B and `hitl_queued` above, and either a token valid for exactly the ttl or a place in the queue, never both; an overflowing expiry leaves no trace |
| Guard.DecisionFiltersSplitByTier | src/opencs/harness/action_guard.py:13-66 | of the entries of any judged plans, the filter `hitl_queued` selects exactly those of ORANGE_C and RED, in order, and the filter `auto_approved` the others |
| Guard.HitlQueue.Enqueue | src/opencs/harness/hitl_queue.py:21-22 | the plan takes the place of its id or comes last |
| Guard.HitlQueue.Pending | src/opencs/harness/hitl_queue.py:24-25 | every waiting item once, each under its own action id, as many as wait, the ids in the order of the queue |
| Guard.HitlQueue.Approve | src/opencs/harness/hitl_queue.py:27-30 | the item leaves marked with who approved it, no other moves; an id that is not waiting is an error |
| Guard.HitlQueue.Reject | src/opencs/harness/hitl_queue.py:32-36 | the item leaves marked with who rejected it and why, no other moves |
| AuditLogs.DecodeEncodeEntry | src/opencs/harness/audit_log.py:41-121 | a row reads back as the entry it was written from, tier and time included |
| AuditLogs.AuditLog.Append | src/opencs/harness/audit_log.py:41-56 | the log grows by exactly this entry |
| AuditLogs.Where | src/opencs/harness/audit_log.py:88-102 | the clauses built step by step select exactly the rows that meet every filter given, the bounds as they came, naive or of any offset |
| AuditLogs.AuditLog.List | src/opencs/harness/audit_log.py:78-121 | the page of the matching entries, newest first |
| AuditLogs.AuditLog.Count | src/opencs/harness/audit_log.py:123-142 | the length of the full list of the same filters |
| AuditLogs.AuditFiltersCompose | src/opencs/harness/audit_log.py:88-102 | without filters the list is the whole log, newest first; the actor and the decision filter each select by their own column from what the other filters let through |
| AuditLogs.BoundsCompose | src/opencs/harness/audit_log.py:96-101 | with both bounds an entry is selected exactly if each bound alone selects it |
| AuditLogs.AppendShiftsPages | src/opencs/harness/audit_log.py:78-121 | after entries of which k match, the page at offset o + k is the old page at o |
| AuditLogs.TimeFiltersAgreeIff | src/opencs/harness/audit_log.py:96-101 | a bound, naive or of any offset, selects an entry by time exactly if their clocks and offsets meet the stated condition |
| AuditLogs.NaiveBoundsAtTheEntry | src/opencs/harness/audit_log.py:96-101 | a bound without offset at the clock reading of an entry in UTC lets it through as `since` and not as `until` |
| Queries.PagesTile | src/opencs/harness/audit_log.py:102-108 | successive pages concatenate to a prefix of the list and, once they reach its end, to the list |
| Memory.MemoryStore.RecordInbound | src/opencs/memory/memory_store.py:23-32 | one event more, and one turn more for this conversation and no other |
| Memory.MemoryStore.LoadContext | src/opencs/memory/memory_store.py:34-60 | the turn count and the bodies of the de-duplicated entries; when no version is stored twice, those of all entries of the customer in id order and then of the hits not among them in rank order; a blank text is not searched |
| Memory.Merge | src/opencs/memory/memory_store.py:47-52 | the loop over `seen` keeps the first entry of every version |
| Memory.DedupKeepsEachVersionOnce | src/opencs/memory/memory_store.py:47-52 | no version occurs twice and none is lost |
| Memory.MergeIsSubjectThenNewHits | src/opencs/memory/memory_store.py:44-54 | when no version is stored twice, and whatever ranking of the store's rows, the merge is all subject entries in id order, then the hits not among them in rank order |
| Memory.RetrievedAreOfCustomerOrHits | src/opencs/memory/memory_store.py:43-44 | retrieved are every entry of the customer and, unless the text is blank, the first three hits in rank order |
| Memory.SummarySeparatesBodies | src/opencs/memory/memory_store.py:54-60 | the summary is nothing without entries, else their bodies in order with `\n---\n` between them |
| Memory.StripTrimsSpace | src/opencs/memory/memory_store.py:44-46 | stripping takes white space from both ends, nothing else, and leaves none there |
| Memory.QuotedQueryScansBack | src/opencs/memory/l2_store.py:53-57 | read as an FTS5 string (section 3.1 of the SQLite FTS5 documentation) the quoted query is consumed whole and gives back the query |
| Memory.L2MemoryStore.Search | src/opencs/memory/l2_store.py:53-69 | the first `limit` entries of the ranking of exactly this query |
| Memory.L2MemoryStore.GetBySubject | src/opencs/memory/l2_store.py:71-80 | the subject's entries in id order |
| Memory.L2MemoryStore.Write | src/opencs/memory/l2_store.py:44-51 | one entry more, with its version; a version not stored before keeps the versions distinct |
| Memory.L1SessionStore.Set | src/opencs/memory/l1_store.py:7-8 | one cell changes, every other cell of every session stays |
| Memory.CellReadsLastSet | src/opencs/memory/l1_store.py:7-17 | after any run of sets and closes a cell reads as the value last set in it if its session was not closed since, and otherwise as nothing |
| Memory.L1SessionStore.Close | src/opencs/memory/l1_store.py:16-17 | this session is empty, every other as before |
| OrderRef.SearchFindsLeftmostMatch | src/opencs/agents/cs_reply.py:15-56 | the search answers exactly if the pattern matches somewhere, and with the leftmost match |
| OrderRef.MatchAtIsTheOnlyMatch | src/opencs/agents/cs_reply.py:15 | at a given start the pattern has one match or none, and the closing boundary forces the whole run |
| Workers.CSReplyWorker.Run | src/opencs/agents/cs_reply.py:47-82 | the model is asked exactly one request, or none if the STRICT cache answers: the prompt of this context and the customer's words; an answer makes a GREEN lookup of the leftmost order reference in lower case, exactly if there is one, and then an ORANGE_C reply that says the answer in the message's conversation |
| Workers.BuildSystemPrompt | src/opencs/agents/cs_reply.py:18-31 | the prompt is the opening, the customer context if any, the guidelines if any |
| Workers.PromptWithContext | src/opencs/agents/cs_reply.py:18-25 | the base prompt, then the context under its heading if it is not empty |
| Workers.PromptWithGuidelines | src/opencs/agents/cs_reply.py:25-31 | after that the guidelines under their heading, with rules between them |
| Workers.TextsAreSaid | src/opencs/agents/cs_reply.py:48-50 | the customer's words are the text parts joined by spaces and stripped, the recorded text has them line by line |
| Workers.OtherPartsSayNothing | src/opencs/agents/cs_reply.py:48-50 | parts that are no texts change neither |
| Agents.Orchestrator.Handle | src/opencs/agents/orchestrator.py:71-98 | one message asks the model, unless the STRICT cache answers, the one request of its words and of what memory knows, and leaves its inbound event; if nothing raises, also the call and result of its lookup, in that order, and one audit entry per plan, in order, with that plan's id, tool, tier and decision, the plans being the worker's for the model's answer; nothing is sent and no channel looked up, even if an exception ends it |
| Agents.Orchestrator.Intake | src/opencs/agents/orchestrator.py:72-93 | recording, context and worker: the message's event is recorded and the model asked even if the worker raises, and the plans are the worker's for the model's answer |
| Agents.Orchestrator.RunPlans | src/opencs/agents/orchestrator.py:95-98 | the audit entries are the plans in order, the new events one call and result pair per approved tool plan in order |
| Agents.Orchestrator.RunPlan | src/opencs/agents/orchestrator.py:95-98 | one plan leaves its audit entry and, if it is executed, its call and result; a plan that needs approval changes neither log nor tools |
| Agents.Orchestrator.CallTool | src/opencs/agents/orchestrator.py:121-150 | the call is recorded before it is made; the result recorded is the cached one if there is one to serve, else the answer to exactly this one call |
| Agents.Orchestrator.SendPlan | src/opencs/agents/orchestrator.py:103-119 | a send goes through exactly if the plan has a conversation and a text and names the one registered channel, and then that channel captures this text and conversation with the time; the channels looked up are the named one and, if there is no such, webchat |
| Agents.Orchestrator.RoutesLikeTheProtocol | src/opencs/agents/orchestrator.py:100-124 | the protocol's routing over the one replay channel and this orchestrator's agree on every plan |
| Agents.WorkerPlansAreQuiet | src/opencs/agents/cs_reply.py:72-81 | the worker never emits a send the guard would let through |
| Agents.WorkerPlansRunLookups | src/opencs/agents/cs_reply.py:47-82 | of the worker's plans exactly the lookups run without approval |
| Proposals.DecodeEncode | src/opencs/evolution/proposal_store.py:53-75 | a row reads back as the proposal it was written from, every field of it |
| Proposals.ColumnsHoldEnumTexts | src/opencs/evolution/proposal_store.py:53-75 | the enumerated columns hold the texts of the enumerations |
| ProposalTable.SaveThenGet | src/opencs/evolution/proposal_store.py:53-87 | after a save its id reads as what was saved and every other id as before |
| ProposalTable.AmendThenGet | src/opencs/evolution/proposal_store.py:89-117 | an update changes only the row of its id, and nothing if there is none |
| ProposalTable.StatusListsAgree | src/opencs/evolution/proposal_store.py:119-159 | `list(status)` in full is `list_by_status` backwards, `count_by_status` is its length, and its pages tile it |
| ProposalTable.SelectionFiltersCompose | src/opencs/evolution/proposal_store.py:128-152 | without filters the list is the whole table, last saved first; the status and the dimension filter each select by their own column |
| ProposalTable.ProposalStore.Save | src/opencs/evolution/proposal_store.py:53-75 | any row of the id goes and the new one comes last; ids stay distinct |
| ProposalTable.ProposalStore.Get | src/opencs/evolution/proposal_store.py:77-87 | the proposal of the id, or nothing |
| ProposalTable.ProposalStore.UpdateStatus | src/opencs/evolution/proposal_store.py:89-94 | the status of the one row, in place; every id reads as before but for this one's status |
| ProposalTable.ProposalStore.UpdateGateDecision | src/opencs/evolution/proposal_store.py:96-110 | four columns of the one row, in place; every id reads as before but for this one's gate decision, status, reviewer and note |
| ProposalTable.ProposalStore.AttachReplayResult | src/opencs/evolution/proposal_store.py:112-117 | the replay result of the one row, in place; every id reads as before but for this one's replay result |
| ProposalTable.ProposalStore.ListByStatus | src/opencs/evolution/proposal_store.py:119-126 | the proposals of the status in row order |
| ProposalTable.ProposalStore.List | src/opencs/evolution/proposal_store.py:128-152 | the page of the selected proposals, last saved first |
| ProposalTable.ProposalStore.CountByStatus | src/opencs/evolution/proposal_store.py:154-159 | the number of proposals of the status |
| Queues.PersistentHitlQueue.Enqueue | src/opencs/evolution/persistent_queue.py:13-15 | the table after an enqueue |
| Queues.PersistentHitlQueue.Pending | src/opencs/evolution/persistent_queue.py:17-18 | the pending rows in row order |
| Queues.PersistentHitlQueue.Approve | src/opencs/evolution/persistent_queue.py:20-29 | the table after an approval and the answer, KeyError unless the id is pending |
| Queues.PersistentHitlQueue.Reject | src/opencs/evolution/persistent_queue.py:31-41 | the same for a rejection, an empty note becoming none |
| Queues.EvolutionHitlQueue.Enqueue | src/opencs/evolution/hitl_queue.py:22-23 | the dict after an enqueue |
| Queues.EvolutionHitlQueue.Pending | src/opencs/evolution/hitl_queue.py:25-26 | every waiting item once, each under its own proposal id, as many as wait, the ids in the order of the queue |
| Queues.EvolutionHitlQueue.Approve | src/opencs/evolution/hitl_queue.py:28-31 | the dict after an approval and the answer |
| Queues.EvolutionHitlQueue.Reject | src/opencs/evolution/hitl_queue.py:33-39 | the dict after a rejection and the answer |
| Queues.EnqueueThenGet | src/opencs/evolution/persistent_queue.py:13-15 | after an enqueue its proposal reads as pending and every other as before |
| Queues.DictCallsThenGet | src/opencs/evolution/hitl_queue.py:22-39 | an enqueued item waits with its reason and unmarked, a decided one is gone and handed back marked with reviewer and note, and no other id changes |
| Queues.PersistentRefinesDict | src/opencs/evolution/persistent_queue.py:7-41 | from a table without pending rows, after every run both queues have the same ids pending with the same proposals, and give the same answer to every next call |
| Queues.SameOrderIffNeverDisplaces | src/opencs/evolution/persistent_queue.py:13-18 | both list the same order after every call of a run exactly if no call enqueues again a pending id that is not the last |
| Queues.DecisionsAreConserved | src/opencs/evolution/persistent_queue.py:13-41 | every enqueue of an id is decided once, replaced while pending, or still pending, so decisions never outnumber enqueues |
| Queues.NoSecondDecision | src/opencs/evolution/persistent_queue.py:20-41 | after a decision every other on that id fails until it is enqueued again |
| Queues.DecisionTouchesOneRow | src/opencs/evolution/persistent_queue.py:20-41 | a decision changes status, reviewer and, if a rejection, note of its row and leaves all other rows in order; a failed one changes nothing |
| WebChat.WebChatAdapter.Subscribe | src/opencs/channel/webchat.py:69-70 | one callback more at the end for this conversation, no change for any other |
| WebChat.WebChatAdapter.Unsubscribe | src/opencs/channel/webchat.py:72-76 | no occurrence is left for this conversation, no change for any other |
| WebChat.WebChatAdapter.Send | src/opencs/channel/webchat.py:46-51 | nothing is delivered without a valid token; with one, to the subscribers in order, up to the first that raises |
| WebChat.UnsubscribeUndoesIffNew | src/opencs/channel/webchat.py:69-76 | unsubscribing undoes a subscription exactly if the callback was not subscribed before |

## Left out

- FastAPI routes, WebSocket and WeCom callbacks, `APITool`, the web UI: input and output.
- Langfuse tracing, LiteLLM, skill files and their matching: calls into other systems and disk. The worker's `skills` list is a parameter, empty in `Handle`.
- `MemoryStore.write_l2` and its evolution hook, `L1SessionStore.get_all`: thin wrappers.
- `EvolutionGate`: each branch is settled by reading it.
- SHA-256, HMAC, uuid and the encoding of key and message to bytes: parameters of which nothing is assumed; `SignatureBindsToken` speaks of the two texts of a collision.
- Full-text ranking and tokenising: a parameter that names distinct rows; the text `NUL`, which ends an FTS5 query early, is not treated apart.
- `NaN` and the infinities, object keys that are not strings, and lone surrogates in payloads. A float stands for the decimal `repr` writes of it, so 1 and 1.0, or 0.0 and -0.0, are different values, as their texts are to the differ. A proposal's confidence is an exact real.
- Forms of `fromisoformat` that `isoformat` never writes: the model's reader rejects them; the stores only hold what `isoformat` wrote.
- `AuditLog.recent`: SQLite leaves the order of equal times open there. `ORDER BY ts` of the L0 log breaks ties by row, as its index gives them.
- The migration of old proposal tables and their `created_at` column, which no method writes or reads.
- `ExpiryIsPermanent` and the protocol take clock readings as they come; no step assumes that the clock runs forward.
- `HitlQueue` items as shared objects: an item handed out is a value, so a caller that changes it afterwards is not modelled. The same holds for the lists that payloads hold.
- Agents.Orchestrator.Handle: models one handler alone with one worker, a memory store, a replaying tool executor and the one capture-only channel, as the replay engine builds it; other configurations and concurrency are in `Protocol.dfy`, whose state is a value and whose handlers share it by construction.
- Protocol steps are finer than the code's: between an approval and the adapter's or tool's turn anything may happen, which asyncio allows only where an await suspends. What is proved for all these runs holds for the fewer real ones.
- WebChat.WebChatAdapter.Send: does not model callbacks that subscribe or unsubscribe while they are being called; `parse_inbound`, `on_install` and `health_check` are left out.
- No claim is made that a STRICT replay of a whole conversation has no divergence: every replayed plan gets a fresh action id, so the tool cache is missed, and replayed tool events carry the time of the replay. The round trip is stated where it holds, for loader and executor.
- `SINGLE_TURN` scope, `turn_index`, `skill_override` and `l2_version_id`: the engine reads none of them.
