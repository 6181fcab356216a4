/** The orchestrator, as one `handle` runs when nothing else does. */
module Agents {
  import opened Prelude
  import opened Dicts
  import opened Json
  import opened Token
  import opened L0Store
  import opened Memory
  import opened Outside
  import opened Guard
  import opened Replay
  import opened Workers
  import AuditLogs
  import Protocol
  import Traces

  // ---- what a list of plans leaves --------------------------------------------------------

  /** The plans that run without approval and are not sends. */
  predicate RunsTool(p: ActionPlan) { p.risk.Level() <= 3 && p.toolId != "channel.send" }

  predicate IsCallOf(e: L0Event, plan: ActionPlan, conversation: string)
  {
    e == CallEvent(conversation, plan, e.ts)
  }

  /** The event records this result of the plan, the one the tools serve from their cache if they serve one. */
  predicate Records(e: L0Event, plan: ActionPlan, conversation: string, tools: ReplayingToolExecutor,
                    result: ToolResult)
  {
    && result.Held() && e == ResultEvent(conversation, plan, result, e.ts)
    && (tools.Serves(plan).Some? ==> tools.Serves(plan).value == result)
  }

  ghost predicate IsResultOf(e: L0Event, plan: ActionPlan, conversation: string, tools: ReplayingToolExecutor)
  {
    exists result :: Records(e, plan, conversation, tools, result)
  }

  /** For every plan, in order, an element that opens it and then one that closes it, and nothing else. */
  predicate Paired<E, P>(events: seq<E>, plans: seq<P>, opens: (E, P) -> bool, closes: (E, P) -> bool)
  {
    && |events| == 2 * |plans|
    && forall k {:trigger plans[k]} :: 0 <= k < |plans| ==>
       opens(events[2 * k], plans[k]) && closes(events[2 * k + 1], plans[k])
  }

  function Calls(conversation: string): (L0Event, ActionPlan) -> bool
  {
    (e: L0Event, p: ActionPlan) => IsCallOf(e, p, conversation)
  }

  ghost function Results(conversation: string, tools: ReplayingToolExecutor): (L0Event, ActionPlan) -> bool
  {
    (e: L0Event, p: ActionPlan) => IsResultOf(e, p, conversation, tools)
  }

  /** What one plan leaves: a pair if it is executed, nothing otherwise. */
  predicate Leaves<E, P>(events: seq<E>, plan: P, executed: bool, opens: (E, P) -> bool, closes: (E, P) -> bool)
  {
    if executed then |events| == 2 && opens(events[0], plan) && closes(events[1], plan) else events == []
  }

  ghost predicate Executed(events: seq<L0Event>, plan: ActionPlan, conversation: string, tools: ReplayingToolExecutor)
  {
    Leaves(events, plan, RunsTool(plan), Calls(conversation), Results(conversation, tools))
  }

  /** What the log and the audit log gain from a list of plans that all went through: for every plan that runs, in
      order, its call and its result and nothing else; for every plan, in order, its audit entry. */
  ghost predicate Carried(added: seq<L0Event>, audited: seq<AuditLogs.AuditEntry>, plans: seq<ActionPlan>,
                          conversation: string, tools: ReplayingToolExecutor)
  {
    && Paired(added, Filter(plans, RunsTool), Calls(conversation), Results(conversation, tools))
    && Audited(audited, plans)
  }

  lemma OneMoreCarried(added: seq<L0Event>, audited: seq<AuditLogs.AuditEntry>, plans: seq<ActionPlan>, i: nat,
                       conversation: string, tools: ReplayingToolExecutor,
                       more: seq<L0Event>, entry: seq<AuditLogs.AuditEntry>)
    requires i < |plans| && Carried(added, audited, plans[..i], conversation, tools)
    requires Executed(more, plans[i], conversation, tools) && Audited(entry, [plans[i]])
    ensures Carried(added + more, audited + entry, plans[..i + 1], conversation, tools)
  {
    assert plans[..i + 1] == plans[..i] + [plans[i]];
    StepIsPaired(added, more, plans[..i], plans[i], RunsTool, Calls(conversation), Results(conversation, tools));
    AuditedSnoc(audited, plans[..i], entry, plans[i]);
  }

  lemma StepIsPaired<E, P>(before: seq<E>, added: seq<E>, plans: seq<P>, plan: P, executed: P -> bool,
                           opens: (E, P) -> bool, closes: (E, P) -> bool)
    requires Paired(before, Filter(plans, executed), opens, closes)
    requires Leaves(added, plan, executed(plan), opens, closes)
    ensures Paired(before + added, Filter(plans + [plan], executed), opens, closes)
  {
    FilterSnoc(plans, plan, executed);
    var done := Filter(plans, executed);
    if executed(plan) {
      PairedSnoc(before, added, done, plan, opens, closes);
    } else {
      assert before + added == before && done + [] == done;
    }
  }

  lemma PairedSnoc<E, P>(before: seq<E>, added: seq<E>, done: seq<P>, plan: P, opens: (E, P) -> bool,
                         closes: (E, P) -> bool)
    requires Paired(before, done, opens, closes) && Leaves(added, plan, true, opens, closes)
    ensures Paired(before + added, done + [plan], opens, closes)
  {
    var all, ps := before + added, done + [plan];
    forall k {:trigger ps[k]} | 0 <= k < |ps| ensures opens(all[2 * k], ps[k]) && closes(all[2 * k + 1], ps[k]) {
      if k < |done| { assert ps[k] == done[k] && all[2 * k] == before[2 * k] && all[2 * k + 1] == before[2 * k + 1]; }
    }
  }

  lemma AuditedSnoc(audited: seq<AuditLogs.AuditEntry>, plans: seq<ActionPlan>, entry: seq<AuditLogs.AuditEntry>,
                    plan: ActionPlan)
    requires Audited(audited, plans) && Audited(entry, [plan])
    ensures Audited(audited + entry, plans + [plan])
  {
    var all, ps := audited + entry, plans + [plan];
    forall i {:trigger all[i]} | 0 <= i < |ps| ensures Judges(all[i], ps[i]) {
      if i < |plans| { assert ps[i] == plans[i] && all[i] == audited[i]; } else { assert all[i] == entry[0]; }
    }
  }

  /** The call event, and after it the result event if the tool answered. */
  predicate RecordedCall(added: seq<L0Event>, plan: ActionPlan, conversation: string, result: Option<ToolResult>)
  {
    && |added| == (if result.Some? then 2 else 1)
    && IsCallOf(added[0], plan, conversation)
    && (result.Some? ==> result.value.Held() && added[1] == ResultEvent(conversation, plan, result.value, added[1].ts))
  }

  lemma RecordedCallIsPair(added: seq<L0Event>, plan: ActionPlan, conversation: string, tools: ReplayingToolExecutor,
                           result: Option<ToolResult>)
    requires RecordedCall(added, plan, conversation, result)
    requires tools.Serves(plan).Some? ==> result == tools.Serves(plan)
    ensures result.Some? ==> Leaves(added, plan, true, Calls(conversation), Results(conversation, tools))
  {
    if result.Some? { assert Records(added[1], plan, conversation, tools, result.value); }
  }

  // ---- no send without approval -----------------------------------------------------------

  /** No plan sends without approval. */
  predicate Quiet(plans: seq<ActionPlan>)
  {
    forall i {:trigger plans[i]} :: 0 <= i < |plans| && plans[i].toolId == "channel.send" ==> plans[i].risk.Level() > 3
  }

  lemma LookupRuns(p: ActionPlan)
    requires IsLookup(p)
    ensures RunsTool(p) && Quiet([p])
  {}

  lemma ReplyWaits(p: ActionPlan)
    requires IsReply(p)
    ensures !RunsTool(p) && Quiet([p])
  {}

  lemma FilterFirstOfTwo<T>(s: seq<T>, p: T -> bool)
    requires |s| == 2 && p(s[0]) && !p(s[1])
    ensures Filter(s, p) == s[..1]
  {
    FilterSnoc([], s[0], p);
    FilterSnoc([s[0]], s[1], p);
    assert [] + [s[0]] == [s[0]] == s[..1] && [s[0]] + [s[1]] == s && Filter([], p) + [s[0]] == s[..1];
  }

  lemma FilterNoneOfOne<T>(s: seq<T>, p: T -> bool)
    requires |s| == 1 && !p(s[0])
    ensures Filter(s, p) == s[..0]
  {
    FilterSnoc([], s[0], p);
    assert [] + [s[0]] == s;
  }

  lemma QuietByPlan(plans: seq<ActionPlan>)
    requires forall i {:trigger plans[i]} :: 0 <= i < |plans| ==> Quiet([plans[i]])
    ensures Quiet(plans)
  {
    forall i {:trigger plans[i]} | 0 <= i < |plans| && plans[i].toolId == "channel.send"
      ensures plans[i].risk.Level() > 3
    {
      assert Quiet([plans[i]]) && [plans[i]][0] == plans[i];
    }
  }

  /** The plans the worker makes of a message, given the model's answer. */
  ghost predicate Planned(plans: seq<ActionPlan>, message: InboundMessage, u: Unicode, answer: Option<string>)
  {
    && answer.Some?
    && forall a {:trigger PlansFor(plans, message.conversation, CustomerText(message), u, a)} ::
         answer == Some(a) ==> PlansFor(plans, message.conversation, CustomerText(message), u, a)
  }

  /** The reply waits for approval, so the worker's plans send nothing. */
  lemma {:induction false} WorkerPlansAreQuiet(plans: seq<ActionPlan>, message: InboundMessage, u: Unicode,
                                               answer: Option<string>)
    requires Planned(plans, message, u, answer)
    ensures Quiet(plans)
  {
    assert PlansFor(plans, message.conversation, CustomerText(message), u, answer.value);
    ReplyWaits(plans[|plans| - 1]);
    if |plans| == 2 { LookupRuns(plans[0]); }
    QuietByPlan(plans);
  }

  /** The lookup, if any, is what runs. */
  lemma {:induction false} WorkerPlansRunLookups(plans: seq<ActionPlan>, message: InboundMessage, u: Unicode,
                                                 answer: Option<string>)
    requires Planned(plans, message, u, answer)
    ensures plans != [] && Filter(plans, RunsTool) == plans[..|plans| - 1]
  {
    assert PlansFor(plans, message.conversation, CustomerText(message), u, answer.value);
    ReplyWaits(plans[|plans| - 1]);
    if |plans| == 2 {
      LookupRuns(plans[0]);
      FilterFirstOfTwo(plans, RunsTool);
    } else {
      FilterNoneOfOne(plans, RunsTool);
    }
  }

  /** What a message that was handled to the end has left: the events and the audit entries of the plans made of it. */
  ghost predicate Handled(plans: seq<ActionPlan>, added: seq<L0Event>, audited: seq<AuditLogs.AuditEntry>,
                          message: InboundMessage, u: Unicode, tools: ReplayingToolExecutor, answer: Option<string>)
  {
    Planned(plans, message, u, answer) && Carried(added, audited, plans, message.conversation, tools)
  }

  // ---- the orchestrator -------------------------------------------------------------------

  class Orchestrator {
    const worker: CSReplyWorker
    const guard: ActionGuard
    const registry: ChannelRegistry
    const memory: MemoryStore
    const tools: ReplayingToolExecutor
    const world: World
    const repr: Json -> string

    /** How the parts are put together. */
    ghost predicate Wired()
    {
      && guard.world == world && worker.world == world && worker.llm.fallback == world && tools.executor.world == world
      && registry.adapter.world == world && world.Valid() && memory.l2.Valid()
      && HoldsData(tools.cache)
    }

    ghost predicate Ready()
      reads memory.l0, memory.l1, guard.log, guard.hitl, worker.llm
    {
      Wired() && memory.l0.Valid() && memory.l1.Valid() && guard.log.Valid() && guard.hitl.Valid() && worker.llm.Valid()
    }

    /** What the entries of the long-term memory say that bears on a message. */
    function Summary(entries: seq<MemoryEntry>, message: InboundMessage): Option<string>
      requires memory.l2.Valid()
    {
      assert Positions(memory.l2.rank(entries, TextConcat(message)), |entries|);
      Summarized(Dedup(Retrieved(entries, memory.l2.rank, message.customer, TextConcat(message))))
    }

    /** The summary is what these entries say. */
    ghost predicate Knows(entries: seq<MemoryEntry>, message: InboundMessage, summary: Option<string>)
      requires memory.l2.Valid()
    {
      forall e {:trigger Summary(e, message)} :: e == entries ==> summary == Summary(e, message)
    }

    /** What call number n asks the fallback model for a message of which this much is known. */
    function Asks(n: nat, message: InboundMessage, summary: Option<string>): seq<Request>
    {
      worker.llm.Requests(n, Opening(worker.basePrompt, summary, [], CustomerText(message)), JStr(worker.model))
    }

    constructor (worker: CSReplyWorker, guard: ActionGuard, registry: ChannelRegistry, memory: MemoryStore,
                 tools: ReplayingToolExecutor, world: World, repr: Json -> string)
      ensures this.worker == worker && this.guard == guard && this.registry == registry
      ensures this.memory == memory && this.tools == tools && this.world == world && this.repr == repr
    {
      this.worker, this.guard, this.registry := worker, guard, registry;
      this.memory, this.tools, this.world, this.repr := memory, tools, world, repr;
    }

    /** `handle`: record, load context, run the worker, then guard every plan and execute the approved ones.
        False means that an exception left it. Whatever happens the model gets the one request of this message, and
        nothing is sent, because the only plan that sends is one the guard queues. */
    method Handle(message: InboundMessage)
      returns (ok: bool, ghost summary: Option<string>, ghost plans: seq<ActionPlan>, ghost added: seq<L0Event>,
               ghost audited: seq<AuditLogs.AuditEntry>)
      requires Ready()
      modifies memory.l0, memory.l1, guard.log, guard.hitl, worker.llm, world, registry, registry.adapter
      ensures Ready() && registry.lookups == old(registry.lookups)
              && registry.adapter.captured == old(registry.adapter.captured)
      ensures worker.llm.calls == old(worker.llm.calls) + 1
      ensures Knows(memory.l2.rows, message, summary)
      ensures world.asked == old(world.asked) + Asks(old(worker.llm.calls), message, summary)
      ensures memory.l0.events == old(memory.l0.events) + [InboundEvent(message)] + added
      ensures guard.log.entries == old(guard.log.entries) + audited
      ensures ok ==> Handled(plans, added, audited, message, worker.unicode, tools,
                             worker.llm.Answer(old(worker.llm.calls), |old(world.asked)|))
    {
      plans, added, audited := [], [], [];
      var planned;
      planned, summary := Intake(message);
      if planned.None? {
        AppendNothing(memory.l0.events);
        AppendNothing(guard.log.entries);
        return false, summary, [], [], [];
      }
      plans := planned.value;
      ok, added, audited := CarryOut(planned.value, message,
                                     worker.llm.Answer(old(worker.llm.calls), |old(world.asked)|));
    }

    /** The plans made of a message are judged and the approved ones executed; none of them sends. */
    method CarryOut(plans: seq<ActionPlan>, message: InboundMessage, ghost answer: Option<string>)
      returns (ok: bool, ghost added: seq<L0Event>, ghost audited: seq<AuditLogs.AuditEntry>)
      requires Ready() && Planned(plans, message, worker.unicode, answer)
      modifies memory.l0, guard.log, guard.hitl, world, registry, registry.adapter
      ensures Ready() && registry.lookups == old(registry.lookups)
              && registry.adapter.captured == old(registry.adapter.captured)
      ensures memory.l0.events == old(memory.l0.events) + added && guard.log.entries == old(guard.log.entries) + audited
      ensures world.asked == old(world.asked)
      ensures ok ==> Handled(plans, added, audited, message, worker.unicode, tools, answer)
    {
      WorkerPlansAreQuiet(plans, message, worker.unicode, answer);
      ok, added, audited := RunPlans(plans, message.conversation);
    }

    /** The message is recorded, its context loaded, and the worker asked for its plans. */
    method Intake(message: InboundMessage) returns (plans: Option<seq<ActionPlan>>, ghost summary: Option<string>)
      requires Ready()
      modifies memory.l0, memory.l1, worker.llm, world
      ensures Ready() && worker.llm.calls == old(worker.llm.calls) + 1
      ensures Knows(memory.l2.rows, message, summary)
      ensures world.asked == old(world.asked) + Asks(old(worker.llm.calls), message, summary)
      ensures memory.l0.events == old(memory.l0.events) + [InboundEvent(message)]
      ensures plans.Some? ==>
                Planned(plans.value, message, worker.unicode,
                        worker.llm.Answer(old(worker.llm.calls), |old(world.asked)|))
    {
      var known := Remember(message);
      summary := known;
      plans := worker.Run(message, known, []);
    }

    /** The message is recorded and its context loaded. */
    method Remember(message: InboundMessage) returns (summary: Option<string>)
      requires Ready()
      modifies memory.l0, memory.l1
      ensures Ready() && memory.l0.events == old(memory.l0.events) + [InboundEvent(message)]
      ensures Knows(memory.l2.rows, message, summary)
    {
      memory.RecordInbound(message);
      var context := memory.LoadContext(message.conversation, message.customer, TextConcat(message));
      summary := context.summary;
    }

    /** Every plan is judged, in order, once; an approved tool plan leaves its call and its result in the log. */
    method RunPlans(plans: seq<ActionPlan>, conversation: string)
      returns (ok: bool, ghost added: seq<L0Event>, ghost audited: seq<AuditLogs.AuditEntry>)
      requires Ready()
      modifies memory.l0, guard.log, guard.hitl, world, registry, registry.adapter
      ensures Ready()
      ensures Quiet(plans) ==>
                registry.lookups == old(registry.lookups)
                && registry.adapter.captured == old(registry.adapter.captured)
      ensures memory.l0.events == old(memory.l0.events) + added && guard.log.entries == old(guard.log.entries) + audited
      ensures world.asked == old(world.asked)
      ensures ok ==> Carried(added, audited, plans, conversation, tools)
    {
      added, audited := [], [];
      for i := 0 to |plans|
        invariant Ready()
        invariant Quiet(plans) ==>
                    registry.lookups == old(registry.lookups)
                    && registry.adapter.captured == old(registry.adapter.captured)
        invariant memory.l0.events == old(memory.l0.events) + added
                  && guard.log.entries == old(guard.log.entries) + audited
        invariant world.asked == old(world.asked)
        invariant Carried(added, audited, plans[..i], conversation, tools)
      {
        ghost var more, entry;
        ok, more, entry := RunPlan(plans[i], conversation);
        if ok { OneMoreCarried(added, audited, plans, i, conversation, tools, more, entry); }
        Reassociate(old(memory.l0.events), added, more);
        Reassociate(old(guard.log.entries), audited, entry);
        added, audited := added + more, audited + entry;
        if !ok { return; }
      }
      assert plans[..|plans|] == plans;
      ok := true;
    }

    /** One turn of the loop over the plans: the guard's judgement, and what follows from it. */
    method RunPlan(plan: ActionPlan, conversation: string)
      returns (ok: bool, ghost added: seq<L0Event>, ghost audited: seq<AuditLogs.AuditEntry>)
      requires Ready()
      modifies memory.l0, guard.log, guard.hitl, world, registry, registry.adapter
      ensures Ready()
      ensures (plan.toolId == "channel.send" ==> plan.risk.Level() > 3) ==>
                registry.lookups == old(registry.lookups) && registry.adapter.captured == old(registry.adapter.captured)
      ensures plan.risk.Level() > 3 ==> memory.l0.events == old(memory.l0.events) && world.called == old(world.called)
      ensures memory.l0.events == old(memory.l0.events) + added && guard.log.entries == old(guard.log.entries) + audited
      ensures world.asked == old(world.asked)
      ensures ok ==> Executed(added, plan, conversation, tools) && Audited(audited, [plan])
    {
      added := [];
      var token;
      ok, token, audited := Judge(plan);
      if token.Some? { ok, added := ExecutePlan(plan, token.value, conversation); }
    }

    /** The guard's judgement of a plan: its audit entry, and a token if it is approved. */
    method Judge(plan: ActionPlan)
      returns (ok: bool, token: Option<HarnessToken>, ghost audited: seq<AuditLogs.AuditEntry>)
      requires guard.log.Valid() && guard.hitl.Valid()
      modifies guard.log, guard.hitl, guard.world`ticks
      ensures guard.log.Valid() && guard.hitl.Valid() && guard.log.entries == old(guard.log.entries) + audited
      ensures ok ==> Audited(audited, [plan]) && token.Some? == (plan.risk.Level() <= 3)
      ensures !ok ==> token.None?
    {
      token, audited := None, [];
      var outcome := guard.Evaluate(plan);
      ok := outcome.Some?;
      if ok {
        audited := [guard.log.entries[|guard.log.entries| - 1]];
        if outcome.value.decision.AutoApproved? { token := outcome.value.token; }
      }
    }

    method ExecutePlan(plan: ActionPlan, token: HarnessToken, conversation: string)
      returns (ok: bool, ghost added: seq<L0Event>)
      requires Wired() && memory.l0.Valid() && plan.risk.Level() <= 3
      modifies memory.l0, world, registry, registry.adapter
      ensures memory.l0.Valid() && memory.l0.events == old(memory.l0.events) + added
      ensures plan.toolId == "channel.send" ==> world.called == old(world.called)
      ensures plan.toolId != "channel.send" ==>
                registry.lookups == old(registry.lookups) && registry.adapter.captured == old(registry.adapter.captured)
      ensures world.asked == old(world.asked)
      ensures ok ==> Executed(added, plan, conversation, tools)
    {
      if plan.toolId == "channel.send" {
        added := [];
        ok := SendPlan(plan, token);
      } else {
        ghost var result;
        ok, result, added := CallTool(plan, token, conversation);
        RecordedCallIsPair(added, plan, conversation, tools, result);
      }
    }

    /** The channel id a send names, or webchat. */
    function Named(plan: ActionPlan): string
    {
      match Get(plan.args.members, "channel_id")
      case Some(channel) => Traces.PyStr(channel, repr)
      case None => "webchat"
    }

    /** The plan has a conversation and a text that is not empty. */
    predicate Sendable(plan: ActionPlan)
    {
      && Get(plan.args.members, "conversation_id").Some?
      && Get(plan.args.members, "text").Some? && Traces.PyStr(Get(plan.args.members, "text").value, repr) != ""
    }

    /** The protocol routes a plan as this orchestrator does: to a channel if the plan can be sent and names the
        registered one, to a tool if it is no send, and nowhere otherwise. */
    lemma RoutesLikeTheProtocol(plan: ActionPlan)
      ensures var route := Protocol.RouteOf(plan, map["replay_readonly" := false], repr);
              && (route.Tool? <==> plan.toolId != "channel.send")
              && (route.Channel? <==>
                    plan.toolId == "channel.send" && Sendable(plan) && Named(plan) == "replay_readonly")
              && (route.Channel? ==> !route.verifies)
    {}

    /** The named channel is looked up, and after it webchat if there is no such channel. The one registered channel
        gets the text exactly if it is the named one and the plan can be sent; otherwise an exception leaves nothing
        sent. */
    method SendPlan(plan: ActionPlan, token: HarnessToken) returns (ok: bool)
      requires Wired()
      modifies world, registry, registry.adapter
      ensures world.asked == old(world.asked) && world.called == old(world.called)
      ensures ok <==> Sendable(plan) && Named(plan) == "replay_readonly"
      ensures !ok ==> registry.adapter.captured == old(registry.adapter.captured)
      ensures ok ==>
                registry.adapter.captured == old(registry.adapter.captured)
                + [(OutboundAction(Traces.PyStr(plan.args.At("conversation_id"), repr),
                                   Traces.PyStr(plan.args.At("text"), repr), plan.actionId),
                    world.times(old(world.ticks)))]
      ensures registry.lookups == old(registry.lookups)
                + (if Get(plan.args.members, "conversation_id").None? || Get(plan.args.members, "text").None? then []
                   else if Named(plan) == "replay_readonly" then [Named(plan)] else [Named(plan), "webchat"])
    {
      var conv, text := Get(plan.args.members, "conversation_id"), Get(plan.args.members, "text");
      if conv.None? || text.None? { return false; }
      var channelId := Named(plan);
      var channel := registry.Find(channelId);
      if channel.None? { channel := registry.Find("webchat"); }
      if channel.None? || Traces.PyStr(text.value, repr) == "" { return false; }
      channel.value.Send(OutboundAction(Traces.PyStr(conv.value, repr), Traces.PyStr(text.value, repr), plan.actionId),
                         token);
      ok := true;
    }

    /** A tool call is recorded before it is made, and its result, if there is one, right after it: the cached result if
        there is one to serve, else what the tool answered to this one call. */
    method CallTool(plan: ActionPlan, token: HarnessToken, conversation: string)
      returns (ok: bool, ghost result: Option<ToolResult>, ghost added: seq<L0Event>)
      requires Wired() && memory.l0.Valid()
      modifies memory.l0, world
      ensures memory.l0.Valid() && memory.l0.events == old(memory.l0.events) + added && ok == result.Some?
      ensures world.asked == old(world.asked)
      ensures RecordedCall(added, plan, conversation, result)
      ensures if tools.Serves(plan).Some? then result == tools.Serves(plan) && world.called == old(world.called)
              else ok ==> world.called == old(world.called) + [plan] && result == world.results(|old(world.called)|)
    {
      added := RecordCall(plan, conversation);
      var answer := tools.Execute(plan, token);
      result := answer;
      if answer.None? { return false, result, added; }
      ServedResultIsHeld(tools, plan);
      ghost var outcome := RecordResult(plan, conversation, answer.value);
      Reassociate(old(memory.l0.events), added, outcome);
      added := added + outcome;
      ok := true;
    }

    method RecordCall(plan: ActionPlan, conversation: string) returns (ghost added: seq<L0Event>)
      requires memory.l0.Valid()
      modifies memory.l0, world
      ensures memory.l0.Valid() && memory.l0.events == old(memory.l0.events) + added
      ensures |added| == 1 && IsCallOf(added[0], plan, conversation)
      ensures world.asked == old(world.asked) && world.called == old(world.called)
    {
      var now := world.Now();
      memory.l0.Append(CallEvent(conversation, plan, now));
      added := [CallEvent(conversation, plan, now)];
    }

    method RecordResult(plan: ActionPlan, conversation: string, result: ToolResult) returns (ghost added: seq<L0Event>)
      requires memory.l0.Valid() && result.Held()
      modifies memory.l0, world
      ensures memory.l0.Valid() && memory.l0.events == old(memory.l0.events) + added
      ensures |added| == 1 && added[0] == ResultEvent(conversation, plan, result, added[0].ts)
      ensures world.asked == old(world.asked) && world.called == old(world.called)
    {
      var now := world.Now();
      memory.l0.Append(ResultEvent(conversation, plan, result, now));
      added := [ResultEvent(conversation, plan, result, now)];
    }
  }

  lemma ServedResultIsHeld(tools: ReplayingToolExecutor, plan: ActionPlan)
    requires HoldsData(tools.cache)
    ensures tools.Serves(plan).Some? ==> tools.Serves(plan).value.Held()
  {
    CachedResultIsHeld(tools.cache, plan.actionId);
  }

  lemma {:induction false} CachedResultIsHeld(cache: Dict<string, Traces.CachedTool>, k: string)
    requires HoldsData(cache)
    ensures Get(cache, k).Some? ==> Get(cache, k).value.data.WellFormed() && Get(cache, k).value.error.WellFormed()
  {
    if cache != [] {
      assert cache[0].1.data.WellFormed() && cache[0].1.error.WellFormed();
      CachedResultIsHeld(cache[1..], k);
    }
  }
}
