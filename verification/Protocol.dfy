/** `Orchestrator.handle` as a coroutine: any number of handlers over shared memory, guard, audit log and HITL queue,
    interleaved at their awaits in every way. */
module Protocol {
  import opened Prelude
  import opened Dicts
  import opened Json
  import opened Token
  import opened Guard
  import Traces

  /** Where an approved plan goes: to a tool, to a channel, whose adapter may or may not verify tokens before it sends,
      or nowhere, because the plan names no text, no conversation or no channel there is. */
  datatype Route = Tool | Channel(verifies: bool) | Nowhere

  /** How the orchestrator is put together; the guard's tokens and the routing are functions of the plan. */
  datatype Config = Config(workers: nat, hasMemory: bool, hasTools: bool, tools: set<string>,
                           route: ActionPlan -> Route,
                           issue: (ActionPlan, Aware) -> Option<HarnessToken>,
                           verify: (HarnessToken, ActionPlan, Aware) -> bool)

  /** The harness of the program: its routing over the registered channels, its tokens. */
  function Harness(workers: nat, hasMemory: bool, hasTools: bool, tools: set<string>, channels: map<string, bool>,
                   repr: Json -> string, secret: string, ttl: int, crypto: Crypto): Config
  {
    Config(workers, hasMemory, hasTools, tools, (plan: ActionPlan) => RouteOf(plan, channels, repr),
           (plan: ActionPlan, now: Aware) => Issue(secret, ttl, plan.actionId, plan.args, now, crypto),
           (token: HarnessToken, plan: ActionPlan, now: Aware) =>
             Verify(token, plan.actionId, None, now, crypto) == Verified)
  }

  /** `channel.send` goes to the named channel, or to webchat if that is not registered; everything else is a tool. */
  function RouteOf(plan: ActionPlan, channels: map<string, bool>, repr: Json -> string): Route
  {
    if plan.toolId != "channel.send" then Tool
    else
      var conversation, text := Get(plan.args.members, "conversation_id"), Get(plan.args.members, "text");
      var named := Get(plan.args.members, "channel_id");
      var channel := if named.Some? then Traces.PyStr(named.value, repr) else "webchat";
      if conversation.None? || text.None? || Traces.PyStr(text.value, repr) == "" then Nowhere
      else if channel in channels then Channel(channels[channel])
      else if "webchat" in channels then Channel(channels["webchat"])
      else Nowhere
  }

  /** A plan that is no send goes to a tool. A send without a conversation or without a text goes nowhere; every other
      goes to the channel it names, by default webchat, or to webchat if there is no such channel. */
  lemma RoutesOfSends(plan: ActionPlan, channels: map<string, bool>, repr: Json -> string)
    ensures plan.toolId != "channel.send" ==> RouteOf(plan, channels, repr) == Tool
    ensures plan.toolId == "channel.send" ==>
              var text, channel := plan.args.At("text"), Get(plan.args.members, "channel_id");
              var named := if channel.Some? then Traces.PyStr(channel.value, repr) else "webchat";
              RouteOf(plan, channels, repr)
              == if Get(plan.args.members, "conversation_id").None? || Get(plan.args.members, "text").None?
                    || Traces.PyStr(text, repr) == "" then Nowhere
                 else if named in channels then Channel(channels[named])
                 else if "webchat" in channels then Channel(channels["webchat"]) else Nowhere
  {}

  /** Where a handler stands: at the await of a worker, before the next plan, at the await of a send or of a tool that
      has not acted yet, at the await of a tool that has, or at its end. */
  datatype Pc =
    | Asking
    | Judging(at: nat)
    | Sending(at: nat, token: HarnessToken, verifies: bool)
    | Calling(at: nat, token: HarnessToken)
    | Called(at: nat)
    | Ended
    | Failed(judged: nat, inCall: bool)

  /** One `handle` run: what its workers have returned so far, and the list of all their plans. */
  datatype Handler = Handler(conversation: string, outputs: seq<seq<ActionPlan>>, plans: seq<ActionPlan>, pc: Pc)

  /** What the run leaves behind, in order: rows of the L0 log and of the audit log, and effects on the world. */
  datatype Event =
    | Inbound(conversation: string)
    | Closed(conversation: string)
    | Audited(handler: nat, plan: ActionPlan, decision: Decision, issued: Aware)
    | ToolCall(handler: nat, conversation: string, actionId: string)
    | Effect(handler: nat, plan: ActionPlan, verified: bool, now: Aware)
    | ToolResult(handler: nat, conversation: string, actionId: string)

  datatype State = State(handlers: seq<Handler>, history: seq<Event>, turns: map<string, nat>,
                         hitl: Dict<string, HitlItem>)

  datatype Step =
    | Receive(conversation: string)
    | WorkerReturns(h: nat, output: seq<ActionPlan>)
    | Judge(h: nat, now: Aware)
    | Act(h: nat, now: Aware, raises: bool)
    | Return(h: nat)
    | Abort(h: nat)
    | CloseSession(conversation: string)
    | Review(actionId: string)

  // ---- one handler's next stretch of code -------------------------------------------------

  function Fresh(c: Config, conversation: string): Handler
  {
    Handler(conversation, [], [], if c.workers == 0 then Judging(0) else Asking)
  }

  /** `plans = await worker.run(inp); all_plans.extend(plans)` */
  function Extended(c: Config, hd: Handler, output: seq<ActionPlan>): Handler
  {
    hd.(outputs := hd.outputs + [output], plans := hd.plans + output,
        pc := if |hd.outputs| + 1 < c.workers then Asking else Judging(0))
  }

  /** What follows an approval, up to the next await; an exception ends the handler. */
  function Dispatch(c: Config, plan: ActionPlan, at: nat, token: HarnessToken): Pc
  {
    match c.route(plan)
    case Channel(verifies) => Sending(at, token, verifies)
    case Nowhere => Failed(at + 1, false)
    case Tool => if c.hasTools then Calling(at, token) else Judging(at + 1)
  }

  /** `guard.evaluate(plan)` and the code after it. */
  function Judged(c: Config, h: nat, hd: Handler, now: Aware): (Handler, seq<Event>)
    requires hd.pc.Judging?
  {
    var at := hd.pc.at;
    if at >= |hd.plans| then (hd.(pc := Ended), [])
    else if !hd.plans[at].risk.Auto() then
      (hd.(pc := Judging(at + 1)), [Audited(h, hd.plans[at], HitlQueued, now)])
    else
      match c.issue(hd.plans[at], now)
      case None => (hd.(pc := Failed(at, false)), [])
      case Some(token) =>
        var pc := Dispatch(c, hd.plans[at], at, token);
        (hd.(pc := pc),
         [Audited(h, hd.plans[at], AutoApproved, now)]
         + if pc.Calling? && c.hasMemory then [ToolCall(h, hd.conversation, hd.plans[at].actionId)] else [])
  }

  /** The adapter's `send`, or the executor's way to the tool. */
  function Acted(c: Config, h: nat, hd: Handler, now: Aware, raises: bool): (Handler, seq<Event>)
    requires (hd.pc.Sending? || hd.pc.Calling?) && hd.pc.at < |hd.plans|
  {
    var at, plan := hd.pc.at, hd.plans[hd.pc.at];
    var valid := c.verify(hd.pc.token, plan, now);
    if hd.pc.Sending? then
      if hd.pc.verifies && !valid then (hd.(pc := Failed(at + 1, false)), [])
      else (hd.(pc := if raises then Failed(at + 1, false) else Judging(at + 1)),
            [Effect(h, plan, hd.pc.verifies, now)])
    else if !valid || plan.toolId !in c.tools then (hd.(pc := Failed(at + 1, true)), [])
    else (hd.(pc := Called(at)), [Effect(h, plan, true, now)])
  }

  /** An exception or a cancellation at an await. */
  function Aborted(hd: Handler): Handler
  {
    match hd.pc
    case Asking => hd.(pc := Failed(0, false))
    case Sending(at, _, _) => hd.(pc := Failed(at + 1, false))
    case Calling(at, _) => hd.(pc := Failed(at + 1, true))
    case Called(at) => hd.(pc := Failed(at + 1, true))
    case _ => hd
  }

  /** A handler's part of a step. */
  function Advance(c: Config, h: nat, hd: Handler, step: Step): (Handler, seq<Event>)
  {
    match step
    case WorkerReturns(_, output) => if hd.pc.Asking? then (Extended(c, hd, output), []) else (hd, [])
    case Judge(_, now) => if hd.pc.Judging? then Judged(c, h, hd, now) else (hd, [])
    case Act(_, now, raises) =>
      if (hd.pc.Sending? || hd.pc.Calling?) && hd.pc.at < |hd.plans| then Acted(c, h, hd, now, raises) else (hd, [])
    case Return(_) =>
      if hd.pc.Called? && hd.pc.at < |hd.plans| then
        (hd.(pc := Judging(hd.pc.at + 1)),
         if c.hasMemory then [ToolResult(h, hd.conversation, hd.plans[hd.pc.at].actionId)] else [])
      else (hd, [])
    case Abort(_) => (Aborted(hd), [])
    case _ => (hd, [])
  }

  // ---- the system -------------------------------------------------------------------------

  function TurnsOf(s: State, conversation: string): nat
  {
    if conversation in s.turns then s.turns[conversation] else 0
  }

  /** The queue after a judgement: a plan that waits takes the place of its action id. */
  function QueueAfter(hitl: Dict<string, HitlItem>, more: seq<Event>): Dict<string, HitlItem>
  {
    if more != [] && more[0].Audited? && more[0].decision.HitlQueued? then
      Put(hitl, more[0].plan.actionId,
          HitlItem(more[0].plan, "tier=" + more[0].plan.risk.Name() + " requires HITL approval", None, None, None))
    else hitl
  }

  /** A step of a handler that is not there, or not at that point, changes nothing. */
  function Next(c: Config, s: State, step: Step): State
  {
    match step
    case Receive(conversation) =>
      State(s.handlers + [Fresh(c, conversation)],
            s.history + (if c.hasMemory then [Inbound(conversation)] else []),
            if c.hasMemory then s.turns[conversation := TurnsOf(s, conversation) + 1] else s.turns,
            s.hitl)
    case CloseSession(conversation) =>
      s.(history := s.history + [Closed(conversation)], turns := s.turns - {conversation})
    case Review(actionId) => s.(hitl := Pop(s.hitl, actionId))
    case _ =>
      if step.h < |s.handlers| then
        var (hd, more) := Advance(c, step.h, s.handlers[step.h], step);
        s.(handlers := s.handlers[step.h := hd], history := s.history + more, hitl := QueueAfter(s.hitl, more))
      else s
  }

  const START := State([], [], map[], [])

  /** The state after any sequence of steps. */
  function Run(c: Config, steps: seq<Step>): State
  {
    if steps == [] then START else Next(c, Run(c, steps[..|steps| - 1]), steps[|steps| - 1])
  }
}
