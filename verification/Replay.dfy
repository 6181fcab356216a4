/** The tool executors, the replaying LLM client and the capture-only channel. */
module Replay {
  import opened Prelude
  import opened Dicts
  import opened Json
  import opened Timestamps
  import opened Token
  import opened L0Store
  import opened Traces
  import opened Outside

  datatype ReplayMode = Strict | Partial | WhatIf

  // ---- tools ------------------------------------------------------------------------------

  class ToolExecutor {
    const registered: set<string>
    const crypto: Crypto
    const world: World

    constructor (registered: set<string>, crypto: Crypto, world: World)
      ensures this.registered == registered && this.crypto == crypto && this.world == world
    {
      this.registered, this.crypto, this.world := registered, crypto, world;
    }

    /** Only a verified token for a registered tool reaches the tool; `None` is an exception. */
    method Execute(plan: ActionPlan, token: HarnessToken) returns (r: Option<ToolResult>)
      modifies world`ticks, world`called
      ensures var allowed := Verify(token, plan.actionId, None, world.times(old(world.ticks)), crypto) == Verified
                             && plan.toolId in registered;
              && world.called == old(world.called) + (if allowed then [plan] else [])
              && r == if allowed then world.results(|old(world.called)|) else None
    {
      var now := world.Now();
      if Verify(token, plan.actionId, None, now, crypto) != Verified { return None; }
      if plan.toolId !in registered { return None; }
      r := world.CallTool(plan);
    }
  }

  /** What the replaying executor serves by itself; `None` means it delegates. */
  function Served(mode: ReplayMode, cache: Dict<string, CachedTool>, rerun: set<string>,
                  plan: ActionPlan): Option<ToolResult>
  {
    if mode.WhatIf? && plan.toolId in rerun then None
    else
      var c :- Get(cache, plan.actionId);
      Some(FromCache(plan.toolId, c))
  }

  function FromCache(toolId: string, c: CachedTool): ToolResult
  {
    ToolResult(toolId, c.success.Truthy(), if c.data.Truthy() then c.data else JObj([]),
               if c.error.Truthy() then c.error else JNull)
  }

  datatype ReplayingToolExecutor = ReplayingToolExecutor(mode: ReplayMode, cache: Dict<string, CachedTool>,
                                                         executor: ToolExecutor, rerun: set<string>)
  {
    function Serves(plan: ActionPlan): Option<ToolResult> { Served(mode, cache, rerun, plan) }

    /** A cached result is served without touching the tool; otherwise the real executor answers. */
    method Execute(plan: ActionPlan, token: HarnessToken) returns (r: Option<ToolResult>)
      modifies executor.world`ticks, executor.world`called
      ensures Serves(plan).Some? ==>
                r == Serves(plan) && executor.world.called == old(executor.world.called)
                && executor.world.ticks == old(executor.world.ticks)
      ensures Serves(plan).None? ==>
                var allowed := Verify(token, plan.actionId, None, executor.world.times(old(executor.world.ticks)),
                                      executor.crypto)
                               == Verified && plan.toolId in executor.registered;
                && executor.world.called == old(executor.world.called) + (if allowed then [plan] else [])
                && r == if allowed then executor.world.results(|old(executor.world.called)|) else None
    {
      if mode.WhatIf? && plan.toolId in rerun {
        r := executor.Execute(plan, token);
        return;
      }
      var cached := Get(cache, plan.actionId);
      if cached.Some? {
        return Some(ToolResult(plan.toolId, cached.value.success.Truthy(),
                               if cached.value.data.Truthy() then cached.value.data else JObj([]),
                               if cached.value.error.Truthy() then cached.value.error else JNull));
      }
      r := executor.Execute(plan, token);
    }
  }

  // ---- what the orchestrator records about a tool call ------------------------------------

  function CallPayload(plan: ActionPlan): Payload
  {
    var members := [("action_id", JStr(plan.actionId)), ("tool_id", JStr(plan.toolId)), ("args", plan.args)];
    ObjectIsWellFormed(members);
    JObj(members)
  }

  function ResultPayload(plan: ActionPlan, result: ToolResult): Payload
    requires result.Held()
  {
    var members := [("action_id", JStr(plan.actionId)), ("tool_id", JStr(plan.toolId)),
                    ("success", JBool(result.success)), ("data", result.data),
                    ("error", result.error)];
    ObjectIsWellFormed(members);
    JObj(members)
  }

  function CallEvent(conversation: string, plan: ActionPlan, ts: Stamp): L0Event
  {
    L0Event(conversation, "tool_call", CallPayload(plan), ts)
  }

  function ResultEvent(conversation: string, plan: ActionPlan, result: ToolResult, ts: Stamp): L0Event
    requires result.Held()
  {
    L0Event(conversation, "tool_result", ResultPayload(plan, result), ts)
  }

  lemma ResultPayloadFields(plan: ActionPlan, result: ToolResult)
    requires result.Held()
    ensures var p := ResultPayload(plan, result);
            && p.At("action_id") == JStr(plan.actionId) && p.At("tool_id") == JStr(plan.toolId)
            && p.At("success") == JBool(result.success)
            && p.At("data") == result.data && p.At("error") == result.error
  {
    var ms := ResultPayload(plan, result).members;
    forall i, j | 0 <= i < j < |ms| ensures Keys(ms)[i] != Keys(ms)[j] { assert ms[i].0 != ms[j].0; }
    GetAtPosition(ms, 0);
    GetAtPosition(ms, 1);
    GetAtPosition(ms, 2);
    GetAtPosition(ms, 3);
    GetAtPosition(ms, 4);
  }

  /** The call is recorded with the id, the tool and the arguments of its plan. */
  lemma CallEventFields(conversation: string, plan: ActionPlan, ts: Stamp)
    ensures var e := CallEvent(conversation, plan, ts);
            && e.conversation == conversation && e.kind == "tool_call" && e.ts == ts
            && e.payload.At("action_id") == JStr(plan.actionId) && e.payload.At("tool_id") == JStr(plan.toolId)
            && e.payload.At("args") == plan.args
  {
    var ms := CallPayload(plan).members;
    forall i, j | 0 <= i < j < |ms| ensures Keys(ms)[i] != Keys(ms)[j] { assert ms[i].0 != ms[j].0; }
    GetAtPosition(ms, 0);
    GetAtPosition(ms, 1);
    GetAtPosition(ms, 2);
  }

  /** The result is recorded with the id and the tool of its plan and with its success, data and error. */
  lemma ResultEventFields(conversation: string, plan: ActionPlan, result: ToolResult, ts: Stamp)
    requires result.Held()
    ensures var e := ResultEvent(conversation, plan, result, ts);
            && e.conversation == conversation && e.kind == "tool_result" && e.ts == ts
            && e.payload.At("action_id") == JStr(plan.actionId) && e.payload.At("tool_id") == JStr(plan.toolId)
            && e.payload.At("success") == JBool(result.success) && e.payload.At("data") == result.data
            && e.payload.At("error") == result.error
  {
    ResultPayloadFields(plan, result);
  }

  /** The data of every cached result is well formed. */
  predicate HoldsData(cache: Dict<string, CachedTool>)
  {
    forall i {:trigger cache[i]} :: 0 <= i < |cache| ==> cache[i].1.data.WellFormed() && cache[i].1.error.WellFormed()
  }

  lemma {:induction false} ToolCacheIsWellFormed(events: seq<L0Event>, repr: Json -> string)
    ensures HoldsData(ToolCache(events, repr))
  {
    if events != [] {
      var n := |events| - 1;
      ToolCacheIsWellFormed(events[..n], repr);
      if ToolKey(events[n], repr).Some? {
        FieldIsWellFormed(events[n].payload, "data");
        FieldIsWellFormed(events[n].payload, "error");
        PutHoldsData(ToolCache(events[..n], repr), ToolKey(events[n], repr).value, ToolRecord(events[n]));
      }
    }
  }

  lemma PutHoldsData(cache: Dict<string, CachedTool>, k: string, c: CachedTool)
    requires HoldsData(cache) && c.data.WellFormed() && c.error.WellFormed()
    ensures HoldsData(Put(cache, k, c))
  {
    PutMembers(cache, k, c);
  }

  lemma {:induction false} MemberIsWellFormed(members: Dict<string, Json>, key: string)
    requires forall m :: m in members ==> m.1.WellFormed()
    ensures Get(members, key).Some? ==> Get(members, key).value.WellFormed()
  {
    if members != [] {
      assert members[0] in members;
      MemberIsWellFormed(members[1..], key);
    }
  }

  lemma FieldIsWellFormed(payload: Payload, key: string)
    ensures payload.At(key).WellFormed()
  {
    MemberIsWellFormed(payload.members, key);
  }

  /** No event after i records a result of this action. */
  predicate LastResult(trace: seq<L0Event>, i: nat, repr: Json -> string, actionId: string)
  {
    i < |trace| && forall j {:trigger trace[j]} :: i < j < |trace| ==> !ResultUnder(trace[j], actionId, repr)
  }

  lemma CacheHoldsRecord(trace: seq<L0Event>, i: nat, repr: Json -> string, recorded: ActionPlan, result: ToolResult)
    requires recorded.actionId != "" && result.Held()
    requires LastResult(trace, i, repr, recorded.actionId)
    requires trace[i].kind == "tool_result" && trace[i].payload == ResultPayload(recorded, result)
    ensures Get(ToolCache(trace, repr), recorded.actionId)
         == Some(CachedTool(JBool(result.success), result.data, result.error))
  {
    ResultPayloadFields(recorded, result);
    assert IsLast(trace, i, e => ResultUnder(e, recorded.actionId, repr));
    ToolCacheHoldsLastResult(trace, repr, recorded.actionId);
  }

  lemma CachedResultIsServed(mode: ReplayMode, cache: Dict<string, CachedTool>, rerun: set<string>, plan: ActionPlan,
                             result: ToolResult)
    requires Get(cache, plan.actionId) == Some(CachedTool(JBool(result.success), result.data, result.error))
    requires mode.WhatIf? ==> plan.toolId !in rerun
    ensures Served(mode, cache, rerun, plan)
         == Some(ToolResult(plan.toolId, result.success,
                            if result.data.Truthy() then result.data else JObj([]),
                            if result.error.Truthy() then result.error else JNull))
  {}

  /** A recorded result, once in the first thousand events of its conversation and not followed there by
      another result of the same action, is served again for that action: the same success, data and
      error, an empty error becoming none and falsy data becoming the empty object. */
  lemma {:induction false} RecordReplayRoundTrip(events: seq<L0Event>, conversation: string, i: nat,
                                                 repr: Json -> string, recorded: ActionPlan, result: ToolResult,
                                                 ts: Stamp, mode: ReplayMode, rerun: set<string>, plan: ActionPlan)
    requires recorded.actionId != "" && plan.actionId == recorded.actionId && result.Held()
    requires mode.WhatIf? ==> plan.toolId !in rerun
    ensures var trace := Listing(events, conversation, 1000);
            LastResult(trace, i, repr, recorded.actionId)
              && trace[i] == ResultEvent(conversation, recorded, result, ts) ==>
              Served(mode, TraceOf(conversation, trace, repr).toolCache, rerun, plan)
              == Some(ToolResult(plan.toolId, result.success,
                                 if result.data.Truthy() then result.data else JObj([]),
                                 if result.error.Truthy() then result.error else JNull))
  {
    var trace := Listing(events, conversation, 1000);
    if LastResult(trace, i, repr, recorded.actionId) && trace[i] == ResultEvent(conversation, recorded, result, ts) {
      CacheHoldsRecord(trace, i, repr, recorded, result);
      CachedResultIsServed(mode, ToolCache(trace, repr), rerun, plan, result);
    }
  }

  /** The executor delegates exactly when no result of the action was recorded or, in WHAT_IF mode, the tool is one to
      rerun. */
  lemma DelegatesIffNeverRecordedOrRerun(events: seq<L0Event>, repr: Json -> string, mode: ReplayMode,
                                         rerun: set<string>, plan: ActionPlan)
    ensures Served(mode, ToolCache(events, repr), rerun, plan).None?
       <==> (mode.WhatIf? && plan.toolId in rerun) || forall e :: e in events ==> !ResultUnder(e, plan.actionId, repr)
  {
    ToolCacheHoldsLastResult(events, repr, plan.actionId);
  }

  // ---- LLM --------------------------------------------------------------------------------

  function ApplyPromptOverride(prompt: Json, messages: seq<LlmMessage>): seq<LlmMessage>
  {
    if !prompt.Truthy() then messages
    else if messages != [] && messages[0].role == "system" then [LlmMessage("system", prompt)] + messages[1..]
    else [LlmMessage("system", prompt)] + messages
  }

  /** An override replaces the system prompt, or adds one, and leaves every other message in place. */
  lemma OverrideTouchesOnlySystemPrompt(prompt: Json, messages: seq<LlmMessage>)
    requires prompt.Truthy()
    ensures var out := ApplyPromptOverride(prompt, messages);
            && out != [] && out[0] == LlmMessage("system", prompt)
            && out[1..] == (if messages != [] && messages[0].role == "system" then messages[1..] else messages)
            && ApplyPromptOverride(prompt, out) == out
  {}

  lemma OverrideOfOpening(prompt: Json, content: Json, user: LlmMessage)
    ensures ApplyPromptOverride(prompt, [LlmMessage("system", content), user])
         == [LlmMessage("system", if prompt.Truthy() then prompt else content), user]
  {
    assert [LlmMessage("system", content), user][1..] == [user];
    assert [LlmMessage("system", prompt)] + [user] == [LlmMessage("system", prompt), user];
  }

  /** Every message other than a leading system prompt. */
  function Body(messages: seq<LlmMessage>): seq<LlmMessage>
  {
    if messages != [] && messages[0].role == "system" then messages[1..] else messages
  }

  /** The request is this one under the overrides: no message other than a leading system prompt is lost or moved. In
      STRICT mode, and without a prompt override, the messages are the ones given; otherwise the override comes first.
      The model is the given one, or the override outside STRICT mode. */
  predicate Conveys(r: Request, mode: ReplayMode, prompt: Json, modelOverride: Json, messages: seq<LlmMessage>,
                    model: Json)
  {
    && Body(r.0) == Body(messages)
    && (if mode.Strict? || !prompt.Truthy() then r.0 == messages
        else r.0 != [] && r.0[0] == LlmMessage("system", prompt) && r.0[1..] == Body(messages))
    && r.1 == if !mode.Strict? && modelOverride.Truthy() then modelOverride else model
  }

  /** What is sent conveys what was to be sent; without overrides it is exactly that, in every mode. */
  lemma SentConveys(mode: ReplayMode, prompt: Json, modelOverride: Json, messages: seq<LlmMessage>, model: Json)
    ensures Conveys(Sent(mode, prompt, modelOverride, messages, model), mode, prompt, modelOverride, messages, model)
    ensures !prompt.Truthy() && !modelOverride.Truthy() ==>
              Sent(mode, prompt, modelOverride, messages, model) == (messages, model)
  {}

  /** The request that goes out: as it came in STRICT mode, with the overrides applied otherwise. */
  function Sent(mode: ReplayMode, prompt: Json, modelOverride: Json, messages: seq<LlmMessage>, model: Json): Request
  {
    if mode.Strict? then (messages, model)
    else (ApplyPromptOverride(prompt, messages), if modelOverride.Truthy() then modelOverride else model)
  }

  class ReplayingLlmClient {
    const mode: ReplayMode
    const cache: seq<string>
    const fallback: World
    const modelOverride: Json
    const promptOverride: Json
    var cacheIndex: nat
    /** How many times `chat` was called. */
    ghost var calls: nat

    /** The cursor stands at the number of calls until the cache is used up and then never moves. */
    ghost predicate Valid()
      reads this
    {
      cacheIndex == if !mode.Strict? then 0 else if calls < |cache| then calls else |cache|
    }

    /** Call number n is answered from the cache. */
    predicate Cached(n: nat) { mode.Strict? && n < |cache| }

    /** The answer to call number n, the fallback having been asked `asked` times before. */
    function Answer(n: nat, asked: nat): Option<string>
    {
      if Cached(n) then Some(cache[n]) else fallback.replies(asked)
    }

    /** What call number n asks the fallback. */
    function Requests(n: nat, messages: seq<LlmMessage>, model: Json): seq<Request>
    {
      if Cached(n) then [] else [Sent(mode, promptOverride, modelOverride, messages, model)]
    }

    constructor (mode: ReplayMode, cache: seq<string>, fallback: World, modelOverride: Json, promptOverride: Json)
      ensures Valid() && calls == 0
      ensures this.mode == mode && this.cache == cache && this.fallback == fallback
      ensures this.modelOverride == modelOverride && this.promptOverride == promptOverride
    {
      this.mode, this.cache, this.fallback := mode, cache, fallback;
      this.modelOverride, this.promptOverride := modelOverride, promptOverride;
      cacheIndex, calls := 0, 0;
    }

    /** In STRICT mode call number n answers with cached reply n, and past the cache with the fallback; in the other
        modes every call asks the fallback, with the overrides applied. */
    method Chat(messages: seq<LlmMessage>, model: Json) returns (r: Option<string>)
      requires Valid()
      modifies this, fallback`asked
      ensures Valid() && calls == old(calls) + 1
      ensures r == Answer(old(calls), |old(fallback.asked)|)
      ensures fallback.asked == old(fallback.asked) + Requests(old(calls), messages, model)
      ensures mode.Strict? && old(calls) < |cache| ==>
              r == Some(cache[old(calls)]) && fallback.asked == old(fallback.asked)
      ensures !(mode.Strict? && old(calls) < |cache|) ==>
                && |fallback.asked| == |old(fallback.asked)| + 1
                && Conveys(fallback.asked[|old(fallback.asked)|], mode, promptOverride, modelOverride, messages, model)
                && r == fallback.replies(|old(fallback.asked)|)
    {
      SentConveys(mode, promptOverride, modelOverride, messages, model);
      calls := calls + 1;
      if mode.Strict? {
        if cacheIndex < |cache| {
          var result := cache[cacheIndex];
          cacheIndex := cacheIndex + 1;
          return Some(result);
        }
        r := fallback.Ask(messages, model);
        return;
      }
      var effectiveModel := if modelOverride.Truthy() then modelOverride else model;
      var effectiveMessages := ApplyPromptOverride(promptOverride, messages);
      r := fallback.Ask(effectiveMessages, effectiveModel);
    }
  }

  /** A recorded LLM call with an output, not followed by another of its id: the loaded cache answers the id with that
      output, and the STRICT call numbered by the ids that occur before it does answers it too and asks nobody. */
  lemma {:induction false} LlmRoundTrip(events: seq<L0Event>, repr: Json -> string, id: string, text: string,
                                        first: nat, last: nat, client: ReplayingLlmClient, asked: nat,
                                        messages: seq<LlmMessage>, model: Json)
    requires first <= last < |events| && id != "" && text != ""
    requires ReplyUnder(events[first], id, repr)
    requires forall j {:trigger events[j]} :: 0 <= j < first ==> !ReplyUnder(events[j], id, repr)
    requires events[last].kind == "llm_call"
    requires events[last].payload.At("recording_id") == JStr(id) && events[last].payload.At("output") == JStr(text)
    requires forall j {:trigger events[j]} :: last < j < |events| ==> !ReplyUnder(events[j], id, repr)
    requires client.mode.Strict? && client.cache == Values(LlmCache(events, repr))
    ensures Get(LlmCache(events, repr), id) == Some(text)
    ensures var n := |IdsBefore(events, first, repr)|;
            client.Answer(n, asked) == Some(text) && client.Requests(n, messages, model) == []
  {
    assert IsLast(events, last, e => ReplyUnder(e, id, repr));
    LlmCacheHoldsLastReply(events, repr, id);
    ReplyPosition(events, repr, id, first);
  }

  // ---- channels ---------------------------------------------------------------------------

  datatype OutboundAction = OutboundAction(conversation: string, text: string, actionId: string)

  class ReadOnlyChannel {
    var captured: seq<(OutboundAction, Utc)>
    const world: World

    constructor (world: World)
      ensures captured == [] && this.world == world
    {
      captured, this.world := [], world;
    }

    method Send(action: OutboundAction, token: HarnessToken)
      modifies this, world`ticks
      ensures captured == old(captured) + [(action, world.times(old(world.ticks)))]
    {
      var now := world.Now();
      captured := captured + [(action, now)];
    }
  }

  /** The registry as the replay engine fills it, with the one capture-only channel. */
  class ChannelRegistry {
    const adapter: ReadOnlyChannel
    /** The channel ids that were looked up. */
    ghost var lookups: seq<string>

    constructor (adapter: ReadOnlyChannel)
      ensures this.adapter == adapter && lookups == []
    {
      this.adapter, lookups := adapter, [];
    }

    /** `None` is UnknownChannelError. */
    method Find(channel: string) returns (r: Option<ReadOnlyChannel>)
      modifies this
      ensures lookups == old(lookups) + [channel]
      ensures r == if channel == "replay_readonly" then Some(adapter) else None
    {
      lookups := lookups + [channel];
      r := if channel == "replay_readonly" then Some(adapter) else None;
    }
  }
}
