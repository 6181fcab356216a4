/** ReplayEngine: a recorded conversation driven again through a fresh orchestrator. */
module Engine {
  import opened Prelude
  import opened Dicts
  import opened Json
  import opened Token
  import opened L0Store
  import opened Memory
  import opened Outside
  import opened Guard
  import opened Traces
  import opened Replay
  import opened Workers
  import opened Agents
  import AuditLogs
  import Differ
  import Queries

  /** An absent override is null. */
  datatype ReplayOverrides = ReplayOverrides(prompt: Json, model: Json, rerun: set<string>)

  datatype ReplaySession = ReplaySession(conversation: string, mode: ReplayMode, overrides: ReplayOverrides)

  datatype ReplayResult = ReplayResult(session: string, verdict: Differ.Verdict, points: seq<Differ.DivergencePoint>,
                                       replayCount: nat, baselineCount: nat)

  // ---- the message an event is replayed as ------------------------------------------------

  /** `_event_to_inbound_message` */
  function MessageOf(e: L0Event, conversation: string, repr: Json -> string): InboundMessage
  {
    var text := e.payload.At("text");
    var customer := Get(e.payload.members, "customer_id");
    InboundMessage("replay_readonly", conversation,
                   if customer.Some? then PyStr(customer.value, repr) else "unknown",
                   [ContentPart("text", Some(if text.Truthy() then PyStr(text, repr) else "."))], e.ts)
  }

  function Again(conversation: string, repr: Json -> string): L0Event -> L0Event
  {
    (e: L0Event) => InboundEvent(MessageOf(e, conversation, repr))
  }

  /** The customer's words in an event. */
  function WordsOf(e: L0Event, conversation: string, repr: Json -> string): string
  {
    CustomerText(MessageOf(e, conversation, repr))
  }

  ghost function Refers(conversation: string, repr: Json -> string, u: Unicode): L0Event -> bool
  {
    (e: L0Event) => RefersToOrder(WordsOf(e, conversation, repr), u)
  }

  lemma InboundFields(m: InboundMessage)
    ensures var e := InboundEvent(m);
            e.payload.At("text") == JStr(TextConcat(m))
              && Get(e.payload.members, "customer_id") == Some(JStr(m.customer))
  {
    var ms := InboundEvent(m).payload.members;
    forall i, j | 0 <= i < j < |ms| ensures Keys(ms)[i] != Keys(ms)[j] { assert ms[i].0 != ms[j].0; }
    GetAtPosition(ms, 0);
    GetAtPosition(ms, 1);
  }

  lemma OnePartText(m: InboundMessage, text: string)
    requires m.content == [ContentPart("text", Some(text))] && text != ""
    ensures TextConcat(m) == text
  {
    FilterSnoc([], m.content[0], (p: ContentPart) => p.kind == "text" && p.text.Some? && p.text.value != "");
    assert [] + [m.content[0]] == m.content;
  }

  /** A recorded message is replayed as the same event exactly when it had some text. */
  lemma ReplayRepeatsInboundIffItHasText(m: InboundMessage, repr: Json -> string)
    ensures Again(m.conversation, repr)(InboundEvent(m)) == InboundEvent(m) <==> TextConcat(m) != ""
  {
    var e := InboundEvent(m);
    InboundFields(m);
    var again := MessageOf(e, m.conversation, repr);
    var text := if TextConcat(m) != "" then TextConcat(m) else ".";
    OnePartText(again, text);
    InboundFields(again);
  }

  // ---- what a rerun leaves in the fresh log -----------------------------------------------

  /** The call and the result of a lookup of the first order the words refer to. */
  ghost predicate LookedUp(call: L0Event, result: L0Event, words: string, conversation: string, u: Unicode,
                           tools: ReplayingToolExecutor)
  {
    exists plan ::
      && IsLookup(plan) && LooksUpFirstOrder(plan, words, u)
      && IsCallOf(call, plan, conversation) && IsResultOf(result, plan, conversation, tools)
  }

  ghost function Lookups(conversation: string, repr: Json -> string, u: Unicode, tools: ReplayingToolExecutor)
    : (L0Event, L0Event, L0Event) -> bool
  {
    (call: L0Event, result: L0Event, e: L0Event) =>
      LookedUp(call, result, WordsOf(e, conversation, repr), conversation, u, tools)
  }

  /** What one input leaves: its event again and, if it refers to an order, the two events of its lookup directly
      after. */
  predicate Part<E(==)>(part: seq<E>, e: E, again: E -> E, refers: E -> bool, lookups: (E, E, E) -> bool)
  {
    && |part| == (if refers(e) then 3 else 1)
    && part[0] == again(e)
    && (|part| == 3 ==> lookups(part[1], part[2], e))
  }

  ghost function Parts(conversation: string, repr: Json -> string, u: Unicode, tools: ReplayingToolExecutor)
    : (seq<L0Event>, L0Event) -> bool
  {
    var again, refers := Again(conversation, repr), Refers(conversation, repr, u);
    var lookups := Lookups(conversation, repr, u, tools);
    (part: seq<L0Event>, e: L0Event) => Part(part, e, again, refers, lookups)
  }

  /** The events are one part after another, part k being what input k leaves. */
  predicate Recorded<E(==)>(events: seq<E>, parts: seq<seq<E>>, inputs: seq<E>, leaves: (seq<E>, E) -> bool)
  {
    && |parts| == |inputs| && events == Concat(parts)
    && forall k {:trigger parts[k]} :: 0 <= k < |parts| ==> leaves(parts[k], inputs[k])
  }

  lemma {:induction false} RecordedOneMore<E>(events: seq<E>, parts: seq<seq<E>>, part: seq<E>, inputs: seq<E>, i: nat,
                                              leaves: (seq<E>, E) -> bool)
    requires i < |inputs| && Recorded(events, parts, inputs[..i], leaves) && leaves(part, inputs[i])
    ensures Recorded(events + part, parts + [part], inputs[..i + 1], leaves)
  {
    Queries.ConcatSnoc(parts, part);
    var all := parts + [part];
    forall k {:trigger all[k]} | 0 <= k < |all| ensures leaves(all[k], inputs[..i + 1][k]) {
      if k < i { assert all[k] == parts[k] && inputs[..i][k] == inputs[k]; }
    }
  }

  predicate IsOf(e: L0Event, conversation: string) { e.conversation == conversation }

  function Own(conversation: string): L0Event -> bool { (e: L0Event) => IsOf(e, conversation) }

  lemma CallIsOwn(e: L0Event, plan: ActionPlan, conversation: string)
    requires IsCallOf(e, plan, conversation)
    ensures IsOf(e, conversation) && !IsInbound(e)
  {}

  lemma ResultIsOwn(e: L0Event, plan: ActionPlan, conversation: string, tools: ReplayingToolExecutor)
    requires IsResultOf(e, plan, conversation, tools)
    ensures IsOf(e, conversation) && !IsInbound(e)
  {
    var result :| Records(e, plan, conversation, tools, result);
    RecordIsOwn(e, plan, conversation, result);
  }

  lemma RecordIsOwn(e: L0Event, plan: ActionPlan, conversation: string, result: ToolResult)
    requires result.Held() && e == ResultEvent(conversation, plan, result, e.ts)
    ensures IsOf(e, conversation) && !IsInbound(e)
  {}

  lemma ToolEventsAreOwn(call: L0Event, result: L0Event, words: string, conversation: string, u: Unicode,
                         tools: ReplayingToolExecutor)
    requires LookedUp(call, result, words, conversation, u, tools)
    ensures IsOf(call, conversation) && IsOf(result, conversation) && !IsInbound(call) && !IsInbound(result)
  {
    var plan :| IsLookup(plan) && LooksUpFirstOrder(plan, words, u)
                && IsCallOf(call, plan, conversation) && IsResultOf(result, plan, conversation, tools);
    CallIsOwn(call, plan, conversation);
    ResultIsOwn(result, plan, conversation, tools);
  }

  lemma InboundIsOwn(e: L0Event, conversation: string, repr: Json -> string)
    ensures IsOf(Again(conversation, repr)(e), conversation) && IsInbound(Again(conversation, repr)(e))
  {}

  lemma {:induction false} OnlyFirstIsInput<T>(s: seq<T>, isInput: T -> bool)
    requires s != [] && forall i {:trigger s[i]} :: 0 <= i < |s| ==> (isInput(s[i]) <==> i == 0)
    ensures Filter(s, isInput) == [s[0]]
  {
    var before := s[..|s| - 1];
    if before == [] {
      assert Filter(before, isInput) + [s[0]] == [s[0]];
    } else {
      OnlyFirstIsInput(before, isInput);
      AppendNothing([s[0]]);
    }
  }

  lemma PartIsOwn(part: seq<L0Event>, e: L0Event, conversation: string, repr: Json -> string, u: Unicode,
                  tools: ReplayingToolExecutor)
    requires Parts(conversation, repr, u, tools)(part, e)
    ensures |part| == if Refers(conversation, repr, u)(e) then 3 else 1
    ensures Count(part, Own(conversation)) == |part| && Filter(part, IsInbound) == [Again(conversation, repr)(e)]
  {
    InboundIsOwn(e, conversation, repr);
    if |part| == 3 { ToolEventsAreOwn(part[1], part[2], WordsOf(e, conversation, repr), conversation, u, tools); }
    forall i {:trigger part[i]} | 0 <= i < |part|
      ensures Own(conversation)(part[i]) && (IsInbound(part[i]) <==> i == 0)
    {
      assert i == 0 || i == 1 || i == 2;
    }
    CountByIndex(part, Own(conversation));
    OnlyFirstIsInput(part, IsInbound);
  }

  lemma {:induction false} CountByIndex<E>(s: seq<E>, p: E -> bool)
    requires forall i {:trigger s[i]} :: 0 <= i < |s| ==> p(s[i])
    ensures Count(s, p) == |s|
  {
    if s != [] { CountByIndex(s[..|s| - 1], p); }
  }

  lemma {:induction false} PartsAddUp<E>(events: seq<E>, parts: seq<seq<E>>, inputs: seq<E>,
                                         leaves: (seq<E>, E) -> bool, refers: E -> bool, own: E -> bool,
                                         isInput: E -> bool, again: E -> E)
    requires Recorded(events, parts, inputs, leaves)
    requires forall k {:trigger parts[k]} :: 0 <= k < |parts| ==>
               && |parts[k]| == (if refers(inputs[k]) then 3 else 1)
               && Count(parts[k], own) == |parts[k]| && Filter(parts[k], isInput) == [again(inputs[k])]
    ensures |events| == |inputs| + 2 * Count(inputs, refers) && Count(events, own) == |events|
    ensures Image(inputs, Filter(events, isInput), again)
    decreases |parts|
  {
    if parts != [] {
      var n := |parts| - 1;
      PartsAddUp(Concat(parts[..n]), parts[..n], inputs[..n], leaves, refers, own, isInput, again);
      CountAppend(Concat(parts[..n]), parts[n], own);
      FilterAppend(Concat(parts[..n]), parts[n], isInput);
      ImageSnoc(inputs, Filter(Concat(parts[..n]), isInput), again);
    }
  }

  lemma ImageSnoc<T, U>(s: seq<T>, t: seq<U>, f: T -> U)
    requires s != [] && Image(s[..|s| - 1], t, f)
    ensures Image(s, t + [f(s[|s| - 1])], f)
  {}

  /** How many events a rerun records, of which conversation, and which of them are inbound: one for every recorded
      message and two more for every one that refers to an order; all of the one conversation; the recorded messages
      again, in order. */
  lemma {:induction false} RecordedCounts(events: seq<L0Event>, parts: seq<seq<L0Event>>, inputs: seq<L0Event>,
                                          conversation: string, repr: Json -> string, u: Unicode,
                                          tools: ReplayingToolExecutor)
    requires Recorded(events, parts, inputs, Parts(conversation, repr, u, tools))
    ensures |events| == |inputs| + 2 * Count(inputs, Refers(conversation, repr, u))
    ensures Count(events, Own(conversation)) == |events|
    ensures Image(inputs, Filter(events, IsInbound), Again(conversation, repr))
  {
    forall k {:trigger parts[k]} | 0 <= k < |parts|
      ensures |parts[k]| == if Refers(conversation, repr, u)(inputs[k]) then 3 else 1
      ensures Count(parts[k], Own(conversation)) == |parts[k]|
      ensures Filter(parts[k], IsInbound) == [Again(conversation, repr)(inputs[k])]
    {
      assert Parts(conversation, repr, u, tools)(parts[k], inputs[k]);
      PartIsOwn(parts[k], inputs[k], conversation, repr, u, tools);
    }
    PartsAddUp(events, parts, inputs, Parts(conversation, repr, u, tools), Refers(conversation, repr, u),
               Own(conversation), IsInbound, Again(conversation, repr));
  }

  lemma RecordedListing(events: seq<L0Event>, conversation: string)
    requires Count(events, Own(conversation)) == |events|
    ensures |Listing(events, conversation, 1000)| == if |events| < 1000 then |events| else 1000
  {
    ListingLength(events, conversation, 1000);
    CountSame(events, Own(conversation), (e: L0Event) => e.conversation == conversation);
  }

  lemma {:induction false} CountSame<E>(s: seq<E>, p: E -> bool, q: E -> bool)
    requires forall e :: p(e) == q(e)
    ensures Count(s, p) == Count(s, q)
  {
    if s != [] { CountSame(s[..|s| - 1], p, q); }
  }

  // ---- what a rerun asks the model --------------------------------------------------------

  /** The messages of a recorded message's request, of which a fresh memory knows nothing. */
  function Opens(base: string, conversation: string, repr: Json -> string): L0Event -> seq<LlmMessage>
  {
    (e: L0Event) => Opening(base, None, [], WordsOf(e, conversation, repr))
  }

  /** How many of n calls the cache answers. */
  function Skipped(mode: ReplayMode, cached: nat, n: nat): (k: nat)
    ensures k <= n
  {
    if !mode.Strict? then 0 else if cached < n then cached else n
  }

  /** The requests of a rerun over these inputs: none for those the STRICT cache answers, and for every other one, in
      order, what its messages become under the overrides. */
  function Requested<E>(mode: ReplayMode, prompt: Json, modelOverride: Json, cached: nat, inputs: seq<E>,
                        opens: E -> seq<LlmMessage>, model: Json): (r: seq<Request>)
    ensures |r| == |inputs| - Skipped(mode, cached, |inputs|)
    ensures forall k {:trigger r[k]} :: 0 <= k < |r| ==>
              r[k] == Sent(mode, prompt, modelOverride, opens(inputs[Skipped(mode, cached, |inputs|) + k]), model)
  {
    var skipped := Skipped(mode, cached, |inputs|);
    seq(|inputs| - skipped, k requires 0 <= k < |inputs| - skipped =>
          Sent(mode, prompt, modelOverride, opens(inputs[skipped + k]), model))
  }

  lemma RequestedOneMore<E>(mode: ReplayMode, prompt: Json, modelOverride: Json, cached: nat, inputs: seq<E>, i: nat,
                            opens: E -> seq<LlmMessage>, model: Json)
    requires i < |inputs|
    ensures Requested(mode, prompt, modelOverride, cached, inputs[..i + 1], opens, model)
         == Requested(mode, prompt, modelOverride, cached, inputs[..i], opens, model)
            + if mode.Strict? && i < cached then [] else [Sent(mode, prompt, modelOverride, opens(inputs[i]), model)]
  {}

  /** What the customer said in an event, "." if it was nothing. */
  function Said(e: L0Event, repr: Json -> string): string
  {
    if e.payload.At("text").Truthy() then PyStr(e.payload.At("text"), repr) else "."
  }

  /** The request of one recorded message: the base prompt or the override, then the customer's words, to the model of
      the replay or the override. */
  function Question(base: string, prompt: Json, model: Json, e: L0Event, repr: Json -> string): Request
  {
    ([LlmMessage("system", if prompt.Truthy() then prompt else JStr(base)),
      LlmMessage("user", JStr(Strip(Said(e, repr))))],
     if model.Truthy() then model else JStr("replay"))
  }

  lemma WordsAreSaid(e: L0Event, conversation: string, repr: Json -> string)
    ensures WordsOf(e, conversation, repr) == Strip(Said(e, repr))
  {
    var m := MessageOf(e, conversation, repr);
    FilterSnoc([], m.content[0], (p: ContentPart) => p.kind == "text");
    assert [] + [m.content[0]] == m.content;
  }

  lemma SentIsQuestion(mode: ReplayMode, prompt: Json, modelOverride: Json, base: string, e: L0Event,
                       conversation: string, repr: Json -> string)
    ensures Sent(mode, prompt, modelOverride, Opens(base, conversation, repr)(e), JStr("replay"))
         == if mode.Strict? then Question(base, JNull, JNull, e, repr)
            else Question(base, prompt, modelOverride, e, repr)
  {
    WordsAreSaid(e, conversation, repr);
    PromptAlone(base);
    OverrideOfOpening(prompt, JStr(base), LlmMessage("user", JStr(Strip(Said(e, repr)))));
  }

  function Questions(mode: ReplayMode, prompt: Json, model: Json, base: string,
                     repr: Json -> string): L0Event -> Request
  {
    (e: L0Event) =>
      if mode.Strict? then Question(base, JNull, JNull, e, repr) else Question(base, prompt, model, e, repr)
  }

  lemma SentAreQuestions(mode: ReplayMode, prompt: Json, modelOverride: Json, base: string, conversation: string,
                         repr: Json -> string)
    ensures forall e {:trigger Opens(base, conversation, repr)(e)} ::
              Sent(mode, prompt, modelOverride, Opens(base, conversation, repr)(e), JStr("replay"))
              == Questions(mode, prompt, modelOverride, base, repr)(e)
  {
    forall e {:trigger Opens(base, conversation, repr)(e)}
      ensures Sent(mode, prompt, modelOverride, Opens(base, conversation, repr)(e), JStr("replay"))
           == Questions(mode, prompt, modelOverride, base, repr)(e)
    {
      SentIsQuestion(mode, prompt, modelOverride, base, e, conversation, repr);
    }
  }

  lemma RequestedAt<E(!new)>(mode: ReplayMode, prompt: Json, modelOverride: Json, cached: nat, inputs: seq<E>,
                             opens: E -> seq<LlmMessage>, model: Json, question: E -> Request, k: nat)
    requires forall e {:trigger opens(e)} :: Sent(mode, prompt, modelOverride, opens(e), model) == question(e)
    requires k < |inputs| - Skipped(mode, cached, |inputs|)
    ensures Requested(mode, prompt, modelOverride, cached, inputs, opens, model)[k]
         == question(inputs[Skipped(mode, cached, |inputs|) + k])
  {}

  /** A recorded message that had some text said exactly that. */
  lemma RecordedMessageSaid(m: InboundMessage, repr: Json -> string)
    ensures TextConcat(m) != "" ==> Said(InboundEvent(m), repr) == TextConcat(m)
  {
    InboundFields(m);
  }

  // ---- the loop ---------------------------------------------------------------------------

  /** The requests of the first n messages of a rerun by this orchestrator. */
  function Asked(orch: Orchestrator, inbound: seq<L0Event>, n: nat, conversation: string): seq<Request>
    requires n <= |inbound|
  {
    var llm := orch.worker.llm;
    Requested(llm.mode, llm.promptOverride, llm.modelOverride, |llm.cache|, inbound[..n],
              Opens(orch.worker.basePrompt, conversation, orch.repr), JStr(orch.worker.model))
  }

  lemma AskedOneMore(orch: Orchestrator, inbound: seq<L0Event>, n: nat, conversation: string)
    requires n < |inbound|
    ensures Asked(orch, inbound, n + 1, conversation)
         == Asked(orch, inbound, n, conversation)
            + orch.worker.llm.Requests(n, Opens(orch.worker.basePrompt, conversation, orch.repr)(inbound[n]),
                                       JStr(orch.worker.model))
  {
    var llm := orch.worker.llm;
    RequestedOneMore(llm.mode, llm.promptOverride, llm.modelOverride, |llm.cache|, inbound, n,
                     Opens(orch.worker.basePrompt, conversation, orch.repr), JStr(orch.worker.model));
  }

  /** The loop of `replay`: every inbound event is handled again, over a memory that knows nothing. False is an
      exception, also that of a naive timestamp, which no message accepts; until then `tried` messages have had their
      requests. */
  method Rerun(orch: Orchestrator, inbound: seq<L0Event>, conversation: string)
    returns (ok: bool, ghost tried: nat, ghost parts: seq<seq<L0Event>>)
    requires orch.Ready() && orch.memory.l0.events == [] && orch.memory.l2.rows == [] && orch.worker.llm.calls == 0
    modifies orch.memory.l0, orch.memory.l1, orch.guard.log, orch.guard.hitl, orch.worker.llm, orch.world,
             orch.registry, orch.registry.adapter
    ensures orch.Ready()
    ensures orch.registry.lookups == old(orch.registry.lookups)
    ensures orch.registry.adapter.captured == old(orch.registry.adapter.captured)
    ensures tried <= |inbound| && (ok ==> tried == |inbound|)
    ensures orch.world.asked == old(orch.world.asked) + Asked(orch, inbound, tried, conversation)
    ensures ok ==> Recorded(orch.memory.l0.events, parts, inbound,
                            Parts(conversation, orch.repr, orch.worker.unicode, orch.tools))
  {
    tried, parts := 0, [];
    AppendNothing(orch.world.asked);
    ghost var leaves := Parts(conversation, orch.repr, orch.worker.unicode, orch.tools);
    for i := 0 to |inbound|
      invariant orch.Ready() && orch.worker.llm.calls == i && tried == i
      invariant orch.registry.lookups == old(orch.registry.lookups)
      invariant orch.registry.adapter.captured == old(orch.registry.adapter.captured)
      invariant orch.world.asked == old(orch.world.asked) + Asked(orch, inbound, i, conversation)
      invariant Recorded(orch.memory.l0.events, parts, inbound[..i], leaves)
    {
      if inbound[i].ts.offset.None? { return false, tried, parts; }
      ghost var before, asked, part := orch.memory.l0.events, Asked(orch, inbound, i, conversation), [];
      ok, part := HandleEvent(orch, inbound[i], conversation);
      AskedOneMore(orch, inbound, i, conversation);
      Reassociate(old(orch.world.asked), asked,
                  orch.worker.llm.Requests(i, Opens(orch.worker.basePrompt, conversation, orch.repr)(inbound[i]),
                                           JStr(orch.worker.model)));
      tried := i + 1;
      if !ok { return; }
      RecordedOneMore(before, parts, part, inbound, i, leaves);
      parts := parts + [part];
    }
    assert inbound[..|inbound|] == inbound;
    ok := true;
  }

  method HandleEvent(orch: Orchestrator, event: L0Event, conversation: string)
    returns (ok: bool, ghost part: seq<L0Event>)
    requires orch.Ready() && orch.memory.l2.rows == [] && event.ts.offset.Some?
    modifies orch.memory.l0, orch.memory.l1, orch.guard.log, orch.guard.hitl, orch.worker.llm, orch.world,
             orch.registry, orch.registry.adapter
    ensures orch.Ready() && orch.worker.llm.calls == old(orch.worker.llm.calls) + 1
    ensures orch.registry.lookups == old(orch.registry.lookups)
    ensures orch.registry.adapter.captured == old(orch.registry.adapter.captured)
    ensures orch.world.asked == old(orch.world.asked)
              + orch.worker.llm.Requests(old(orch.worker.llm.calls),
                                         Opens(orch.worker.basePrompt, conversation, orch.repr)(event),
                                         JStr(orch.worker.model))
    ensures ok ==> orch.memory.l0.events == old(orch.memory.l0.events) + part
    ensures ok ==> Parts(conversation, orch.repr, orch.worker.unicode, orch.tools)(part, event)
  {
    ghost var message, summary, plans, added, audited := MessageOf(event, conversation, orch.repr), None, [], [], [];
    part := [];
    ok, summary, plans, added, audited := orch.Handle(MessageOf(event, conversation, orch.repr));
    FreshMemoryKnowsNothing(orch, message, summary);
    if ok {
      part := [InboundEvent(message)] + added;
      Reassociate(old(orch.memory.l0.events), [InboundEvent(message)], added);
      HandledIsPart(plans, added, audited, event, conversation, orch.repr, orch.worker.unicode, orch.tools,
                    orch.worker.llm.Answer(old(orch.worker.llm.calls), |old(orch.world.asked)|));
    }
  }

  lemma FreshMemoryKnowsNothing(orch: Orchestrator, message: InboundMessage, summary: Option<string>)
    requires orch.memory.l2.Valid() && orch.Knows([], message, summary)
    ensures summary == None
  {
    assert summary == orch.Summary([], message);
    var rank := orch.memory.l2.rank;
    assert Positions(rank([], TextConcat(message)), 0);
    NoPositions(rank([], TextConcat(message)));
    assert Retrieved([], rank, message.customer, TextConcat(message)) == [];
  }

  lemma NoPositions(ps: seq<nat>)
    requires Positions(ps, 0)
    ensures ps == []
  {}

  lemma PairIsLookup(plan: ActionPlan, call: L0Event, result: L0Event, words: string, conversation: string, u: Unicode,
                     tools: ReplayingToolExecutor)
    requires IsLookup(plan) && LooksUpFirstOrder(plan, words, u)
    requires Calls(conversation)(call, plan) && Results(conversation, tools)(result, plan)
    ensures LookedUp(call, result, words, conversation, u, tools)
  {
    assert IsCallOf(call, plan, conversation) && IsResultOf(result, plan, conversation, tools);
  }

  lemma OnePair<E, P>(events: seq<E>, plans: seq<P>, opens: (E, P) -> bool, closes: (E, P) -> bool)
    requires Paired(events, plans, opens, closes)
    ensures |events| == 2 * |plans|
    ensures |plans| == 1 ==> opens(events[0], plans[0]) && closes(events[1], plans[0])
  {
    if |plans| == 1 { assert opens(events[2 * 0], plans[0]) && closes(events[2 * 0 + 1], plans[0]); }
  }

  lemma PartOfPair<E>(added: seq<E>, e: E, again: E -> E, refers: E -> bool, lookups: (E, E, E) -> bool)
    requires |added| == if refers(e) then 2 else 0
    requires |added| == 2 ==> lookups(added[0], added[1], e)
    ensures Part([again(e)] + added, e, again, refers, lookups)
  {}

  lemma HandledIsPart(plans: seq<ActionPlan>, added: seq<L0Event>, audited: seq<AuditLogs.AuditEntry>, event: L0Event,
                      conversation: string, repr: Json -> string, u: Unicode, tools: ReplayingToolExecutor,
                      answer: Option<string>)
    requires Handled(plans, added, audited, MessageOf(event, conversation, repr), u, tools, answer)
    ensures Parts(conversation, repr, u, tools)([Again(conversation, repr)(event)] + added, event)
  {
    var message := MessageOf(event, conversation, repr);
    WorkerPlansRunLookups(plans, message, u, answer);
    assert PlansFor(plans, conversation, CustomerText(message), u, answer.value);
    OnePair(added, plans[..|plans| - 1], Calls(conversation), Results(conversation, tools));
    if |plans| == 2 {
      PairIsLookup(plans[0], added[0], added[1], WordsOf(event, conversation, repr), conversation, u, tools);
    }
    PartOfPair(added, event, Again(conversation, repr), Refers(conversation, repr, u),
               Lookups(conversation, repr, u, tools));
  }

  // ---- ReplayEngine -----------------------------------------------------------------------

  class ReplayEngine {
    const l0: L0RawEventStore
    const loader: TraceLoader
    const registered: set<string>
    const crypto: Crypto
    const rank: (seq<MemoryEntry>, string) -> seq<nat>
    const basePrompt: string
    const unicode: Unicode
    const repr: Json -> string
    const world: World

    ghost predicate Wired()
    {
      loader.l0 == l0 && loader.repr == repr && world.Valid() && forall rs, q :: Positions(rank(rs, q), |rs|)
    }

    constructor (l0: L0RawEventStore, registered: set<string>, crypto: Crypto,
                 rank: (seq<MemoryEntry>, string) -> seq<nat>, basePrompt: string, unicode: Unicode,
                 repr: Json -> string, world: World)
      requires world.Valid() && forall rs, q :: Positions(rank(rs, q), |rs|)
      ensures Wired() && this.l0 == l0 && this.registered == registered && this.crypto == crypto
      ensures this.basePrompt == basePrompt && this.unicode == unicode && this.repr == repr && this.world == world
    {
      this.l0, this.registered, this.crypto, this.rank := l0, registered, crypto, rank;
      this.basePrompt, this.unicode, this.repr, this.world := basePrompt, unicode, repr, world;
      loader := new TraceLoader(l0, repr);
    }

    /** The recorded conversation as the engine sees it. */
    ghost function Baseline(conversation: string): Trace
      reads l0
    {
      TraceOf(conversation, Listing(l0.events, conversation, 1000), repr)
    }

    /** The orchestrator is put together for this trace and session: the caches, the mode, the overrides and the ids to
        rerun are theirs, the tools are the engine's, and the tokens are its own. */
    ghost predicate Assembled(orch: Orchestrator, trace: Trace, session: ReplaySession)
    {
      && orch.world == world && orch.repr == repr
      && orch.worker.unicode == unicode && orch.worker.basePrompt == basePrompt && orch.worker.model == "replay"
      && orch.worker.llm.mode == session.mode && orch.worker.llm.cache == Values(trace.llmCache)
      && orch.worker.llm.promptOverride == session.overrides.prompt
      && orch.worker.llm.modelOverride == session.overrides.model
      && orch.tools.mode == session.mode && orch.tools.cache == trace.toolCache
      && orch.tools.rerun == session.overrides.rerun
      && orch.tools.executor.registered == registered && orch.tools.executor.crypto == crypto
      && orch.guard.secret == "replay-engine-internal" && orch.guard.ttl == 30 && orch.guard.crypto == crypto
    }

    /** Nothing is recorded, looked up, sent, known or asked yet. */
    ghost predicate Unused(orch: Orchestrator)
      reads orch.memory.l0, orch.memory.l2, orch.worker.llm, orch.registry, orch.registry.adapter
    {
      && orch.memory.l0.events == [] && orch.memory.l2.rows == [] && orch.worker.llm.calls == 0
      && orch.registry.lookups == [] && orch.registry.adapter.captured == []
    }

    method AssembleWorker(trace: Trace, session: ReplaySession) returns (worker: CSReplyWorker)
      ensures fresh(worker.llm) && worker.llm.Valid() && worker.llm.calls == 0
      ensures worker.llm.mode == session.mode && worker.llm.cache == Values(trace.llmCache)
      ensures worker.llm.promptOverride == session.overrides.prompt
      ensures worker.llm.modelOverride == session.overrides.model
      ensures worker.world == world && worker.llm.fallback == world && worker.unicode == unicode
      ensures worker.model == "replay" && worker.basePrompt == basePrompt
    {
      var llm := new ReplayingLlmClient(session.mode, Values(trace.llmCache), world, session.overrides.model,
                                        session.overrides.prompt);
      worker := new CSReplyWorker(llm, "replay", basePrompt, world, unicode);
    }

    /** A fresh orchestrator over fresh stores, with the trace's caches. */
    method Assemble(trace: Trace, session: ReplaySession) returns (orch: Orchestrator)
      requires Wired() && HoldsData(trace.toolCache)
      ensures orch.Ready() && Assembled(orch, trace, session) && Unused(orch)
      ensures fresh(orch.memory.l0) && fresh(orch.memory.l1) && fresh(orch.guard.log) && fresh(orch.guard.hitl)
      ensures fresh(orch.worker.llm) && fresh(orch.registry) && fresh(orch.registry.adapter)
    {
      var executor := new ToolExecutor(registered, crypto, world);
      var tools := ReplayingToolExecutor(session.mode, trace.toolCache, executor, session.overrides.rerun);
      var memory := new MemoryStore(rank);
      var adapter := new ReadOnlyChannel(world);
      var registry := new ChannelRegistry(adapter);
      var log := new AuditLogs.AuditLog();
      var hitl := new HitlQueue();
      var guard := new ActionGuard("replay-engine-internal", 30, crypto, log, hitl, world);
      var worker := AssembleWorker(trace, session);
      orch := new Orchestrator(worker, guard, registry, memory, tools, world, repr);
    }

    lemma BaselineLength(conversation: string)
      ensures var n := Count(l0.events, Own(conversation));
              |Baseline(conversation).events| == if n < 1000 then n else 1000
    {
      ListingLength(l0.events, conversation, 1000);
      CountSame(l0.events, Own(conversation), (e: L0Event) => e.conversation == conversation);
    }

    /** An empty trace is inconclusive and asks nothing. Otherwise `orch` is the orchestrator of the rerun, and
        `Replayed` says what it did. `None` is an exception that left a handler. The source log, outside the frame, is
        as it was. */
    method Replay(session: ReplaySession)
      returns (r: Option<ReplayResult>, ghost orch: Orchestrator?, ghost tried: nat, ghost parts: seq<seq<L0Event>>)
      requires Wired() && l0.Valid()
      modifies world
      ensures r.Some? ==> r.value.session == "replay-" + world.digits(old(world.drawn))
      ensures r.Some? ==> (r.value.verdict == Differ.Inconclusive <==> Baseline(session.conversation).events == [])
      ensures r.Some? ==>
                var n := Count(l0.events, Own(session.conversation));
                r.value.baselineCount == if n < 1000 then n else 1000
      ensures Baseline(session.conversation).events == [] ==>
                r.Some? && r.value == ReplayResult(r.value.session, Differ.Inconclusive, [], 0, 0)
                  && world.asked == old(world.asked)
      ensures Baseline(session.conversation).events != [] ==>
                orch != null && Replayed(orch, Baseline(session.conversation), session, tried, parts, r,
                                         old(world.asked))
    {
      orch, tried, parts := null, 0, [];
      var hex := world.Hex();
      var trace := loader.Load(session.conversation);
      BaselineLength(session.conversation);
      if trace.events == [] {
        return Some(ReplayResult("replay-" + hex, Differ.Inconclusive, [], 0, 0)), null, 0, [];
      }
      r, orch, tried, parts := ReplayTrace(trace, session, "replay-" + hex);
    }

    method ReplayTrace(trace: Trace, session: ReplaySession, id: string)
      returns (r: Option<ReplayResult>, ghost orch: Orchestrator, ghost tried: nat, ghost parts: seq<seq<L0Event>>)
      requires Wired() && trace.toolCache == ToolCache(trace.events, repr)
      modifies world
      ensures r.Some? ==> r.value.session == id && r.value.verdict != Differ.Inconclusive
      ensures r.Some? ==> r.value.baselineCount == |trace.events|
      ensures Replayed(orch, trace, session, tried, parts, r, old(world.asked))
    {
      ToolCacheIsWellFormed(trace.events, repr);
      var rerun := Assemble(trace, session);
      orch := rerun;
      var ok;
      ok, tried, parts := Rerun(rerun, trace.inbound, session.conversation);
      AskedInSession(rerun, trace, session, tried);
      if !ok { return None, orch, tried, parts; }
      var result := Compare(trace, rerun, session, id, parts);
      r := Some(result);
    }

    /** The orchestrator was put together for this trace and session. The model was asked the requests of the messages
        it came to, and through its channel and registry nothing was sent or looked up. A result says what its log
        holds. */
    ghost predicate Replayed(orch: Orchestrator, trace: Trace, session: ReplaySession, tried: nat,
                             parts: seq<seq<L0Event>>, r: Option<ReplayResult>, asked: seq<Request>)
      reads world, orch.memory.l0, orch.registry, orch.registry.adapter
    {
      && Assembled(orch, trace, session)
      && orch.registry.lookups == [] && orch.registry.adapter.captured == []
      && tried <= |trace.inbound| && (r.Some? ==> tried == |trace.inbound|)
      && world.asked == asked + AskedFor(trace, session, tried)
      && (r.Some? ==> Reran(orch, trace, session, parts, r.value))
    }

    /** The requests of the first n messages of a replay, in terms of the session. */
    ghost function AskedFor(trace: Trace, session: ReplaySession, n: nat): seq<Request>
      requires n <= |trace.inbound|
    {
      Requested(session.mode, session.overrides.prompt, session.overrides.model, |trace.llmCache|, trace.inbound[..n],
                Opens(basePrompt, session.conversation, repr), JStr("replay"))
    }

    lemma AskedInSession(orch: Orchestrator, trace: Trace, session: ReplaySession, n: nat)
      requires n <= |trace.inbound| && Assembled(orch, trace, session)
      ensures Asked(orch, trace.inbound, n, session.conversation) == AskedFor(trace, session, n)
    {}

    lemma QuestionAt(trace: Trace, session: ReplaySession, n: nat, k: nat)
      requires n <= |trace.inbound| && k < |AskedFor(trace, session, n)|
      ensures var skipped := Skipped(session.mode, |trace.llmCache|, n);
              && |AskedFor(trace, session, n)| == n - skipped
              && AskedFor(trace, session, n)[k]
                 == Questions(session.mode, session.overrides.prompt, session.overrides.model, basePrompt, repr)
                             (trace.inbound[skipped + k])
    {
      var mode, o := session.mode, session.overrides;
      SentAreQuestions(mode, o.prompt, o.model, basePrompt, session.conversation, repr);
      RequestedAt(mode, o.prompt, o.model, |trace.llmCache|, trace.inbound[..n],
                  Opens(basePrompt, session.conversation, repr), JStr("replay"),
                  Questions(mode, o.prompt, o.model, basePrompt, repr), k);
    }

    /** The requests of the first n messages of a replay: the first ones answered by the STRICT cache are missing, and
        each of the others, in order, is the question of its message, under the overrides unless STRICT. */
    lemma AskedForQuestions(trace: Trace, session: ReplaySession, n: nat, k: nat)
      requires n <= |trace.inbound| && k < |AskedFor(trace, session, n)|
      ensures var cached := |trace.llmCache|;
              var skipped := if !session.mode.Strict? then 0 else if cached < n then cached else n;
              var o := session.overrides;
              && |AskedFor(trace, session, n)| == n - skipped
              && AskedFor(trace, session, n)[k]
                 == if session.mode.Strict? then Question(basePrompt, JNull, JNull, trace.inbound[skipped + k], repr)
                    else Question(basePrompt, o.prompt, o.model, trace.inbound[skipped + k], repr)
    {
      QuestionAt(trace, session, n, k);
    }

    /** The rerun's listing against the recorded one. */
    method Compare(trace: Trace, orch: Orchestrator, session: ReplaySession, id: string, ghost parts: seq<seq<L0Event>>)
      returns (r: ReplayResult)
      requires orch.memory.l0.Valid() && Assembled(orch, trace, session)
      requires Recorded(orch.memory.l0.events, parts, trace.inbound,
                        Parts(session.conversation, repr, unicode, orch.tools))
      ensures r.session == id && r.verdict != Differ.Inconclusive && Reran(orch, trace, session, parts, r)
    {
      var replayed := orch.memory.l0.List(session.conversation, 1000);
      var differ := Differ.ReplayDiffer(None);
      var points, verdict := differ.Diff(trace.events, replayed);
      RecordedCounts(orch.memory.l0.events, parts, trace.inbound, session.conversation, repr, unicode, orch.tools);
      RecordedListing(orch.memory.l0.events, session.conversation);
      r := ReplayResult(id, verdict, points, |replayed|, |trace.events|);
    }

    /** What a replay that returns has found: the rerun's log holds for every recorded message its event and, for one
        that refers to an order, the lookup's call and result; it is listed like the recorded log, up to a thousand
        events, and compared with it. */
    ghost predicate Reran(orch: Orchestrator, trace: Trace, session: ReplaySession, parts: seq<seq<L0Event>>,
                          r: ReplayResult)
      reads orch.memory.l0
    {
      var replayed := Listing(orch.memory.l0.events, session.conversation, 1000);
      var total := |trace.inbound| + 2 * Count(trace.inbound, Refers(session.conversation, repr, unicode));
      && Recorded(orch.memory.l0.events, parts, trace.inbound, Parts(session.conversation, repr, unicode, orch.tools))
      && r.baselineCount == |trace.events| && r.replayCount == |replayed| == (if total < 1000 then total else 1000)
      && r.points == Differ.Divergences(trace.events, replayed)
      && r.verdict == Differ.VerdictOf(None, trace.events, replayed)
    }
  }
}
