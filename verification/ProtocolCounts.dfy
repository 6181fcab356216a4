/** Counts that every run of the protocol keeps: effects against approvals, tool results against tool calls, turns
    against messages, and the queue against the audit log. */
module ProtocolCounts {
  import opened Prelude
  import opened Dicts
  import opened Token
  import opened Guard
  import opened Protocol
  import opened ProtocolSafety

  lemma CountSnoc<T>(s: seq<T>, x: T, p: T -> bool)
    ensures Count(s + [x], p) == Count(s, p) + One(p(x))
  {
    CountAppend(s, [x], p);
    CountUpToTwo([x], p);
  }

  lemma CountNoneOfOne<T>(s: seq<T>, more: seq<T>, p: T -> bool)
    requires |more| <= 1 && (|more| > 0 ==> !p(more[0]))
    ensures Count(s + more, p) == Count(s, p)
  {
    CountAppend(s, more, p);
    CountUpToTwo(more, p);
  }

  // ---- effects and approvals --------------------------------------------------------------

  function Approvals(id: string): Event -> bool
  {
    (e: Event) => e.Audited? && e.decision.AutoApproved? && e.plan.actionId == id
  }

  function Effects(id: string): Event -> bool
  {
    (e: Event) => e.Effect? && e.plan.actionId == id
  }

  /** The handler holds an unused token for the action. */
  function Unused(id: string): Handler -> bool
  {
    (hd: Handler) => Holds(hd) && hd.plans[hd.pc.at].actionId == id
  }

  predicate Covered(s: State, id: string)
  {
    Count(s.history, Effects(id)) + Count(s.handlers, Unused(id)) <= Count(s.history, Approvals(id))
  }

  lemma AdvanceIsCovered(c: Config, h: nat, hd: Handler, step: Step, id: string)
    requires Sound(c, hd)
    ensures var (hd', more) := Advance(c, h, hd, step);
            Count(more, Effects(id)) + One(Unused(id)(hd')) <= Count(more, Approvals(id)) + One(Unused(id)(hd))
  {
    var (hd', more) := Advance(c, h, hd, step);
    AdvanceEvents(c, h, hd, step);
    AdvanceUsesToken(c, h, hd, step);
    CountUpToTwo(more, Effects(id));
    CountUpToTwo(more, Approvals(id));
    AdvanceSpendsToken(c, h, hd, step);
  }

  /** A handler keeps no token that it has used. */
  lemma AdvanceSpendsToken(c: Config, h: nat, hd: Handler, step: Step)
    requires Sound(c, hd)
    ensures var (hd', more) := Advance(c, h, hd, step);
            more != [] && more[0].Effect? ==> !Holds(hd')
    ensures var (hd', more) := Advance(c, h, hd, step);
            Holds(hd') && hd' == hd ==> more == []
  {}

  lemma HandlerStepCovers(c: Config, s: State, step: Step, h: nat, id: string)
    requires h < |s.handlers| && Sound(c, s.handlers[h]) && Covered(s, id)
    ensures var (hd', more) := Advance(c, h, s.handlers[h], step);
            Covered(s.(handlers := s.handlers[h := hd'], history := s.history + more), id)
  {
    var hd := s.handlers[h];
    var (hd', more) := Advance(c, h, hd, step);
    AdvanceIsCovered(c, h, hd, step, id);
    CountAppend(s.history, more, Effects(id));
    CountAppend(s.history, more, Approvals(id));
    CountUpdate(s.handlers, h, hd', Unused(id));
  }

  lemma NextIsCovered(c: Config, s: State, step: Step, id: string)
    requires Covered(s, id) && forall i: nat :: InOrder(c, s, i)
    ensures Covered(Next(c, s, step), id)
  {
    match step
    case Receive(conversation) =>
      var more := if c.hasMemory then [Inbound(conversation)] else [];
      CountNoneOfOne(s.history, more, Effects(id));
      CountNoneOfOne(s.history, more, Approvals(id));
      CountSnoc(s.handlers, Fresh(c, conversation), Unused(id));
    case CloseSession(conversation) =>
      CountNoneOfOne(s.history, [Closed(conversation)], Effects(id));
      CountNoneOfOne(s.history, [Closed(conversation)], Approvals(id));
    case Review(_) =>
    case _ =>
      if step.h < |s.handlers| {
        assert InOrder(c, s, step.h);
        HandlerStepCovers(c, s, step, step.h, id);
      }
  }

  /** In every run the effects of an action id, and the tokens for it not yet used, never outnumber the guard's
      approvals of that id. */
  lemma {:induction false} EffectsNeverExceedApprovals(c: Config, steps: seq<Step>, id: string)
    ensures Covered(Run(c, steps), id)
    ensures Count(Run(c, steps).history, Effects(id)) <= Count(Run(c, steps).history, Approvals(id))
  {
    if steps != [] {
      var before := steps[..|steps| - 1];
      EffectsNeverExceedApprovals(c, before, id);
      forall i: nat ensures InOrder(c, Run(c, before), i) { PlansAreJudgedInOrder(c, before, i); }
      NextIsCovered(c, Run(c, before), steps[|steps| - 1], id);
    }
  }

  // ---- tool calls and tool results --------------------------------------------------------

  function CallsOf(conversation: string, id: string): Event -> bool
  {
    (e: Event) => e.ToolCall? && e.conversation == conversation && e.actionId == id
  }

  function ResultsOf(conversation: string, id: string): Event -> bool
  {
    (e: Event) => e.ToolResult? && e.conversation == conversation && e.actionId == id
  }

  /** The handler is between the call and the result of this action. */
  function InFlight(conversation: string, id: string): Handler -> bool
  {
    (hd: Handler) => hd.conversation == conversation && (hd.pc.Calling? || hd.pc.Called?)
                     && hd.pc.at < |hd.plans| && hd.plans[hd.pc.at].actionId == id
  }

  /** The handler was ended by an exception there. */
  function Raised(conversation: string, id: string): Handler -> bool
  {
    (hd: Handler) => hd.conversation == conversation && hd.pc.Failed? && hd.pc.inCall
                     && 0 < hd.pc.judged <= |hd.plans| && hd.plans[hd.pc.judged - 1].actionId == id
  }

  predicate Bracketing(s: State, conversation: string, id: string)
  {
    Count(s.history, CallsOf(conversation, id))
    == Count(s.history, ResultsOf(conversation, id)) + Count(s.handlers, InFlight(conversation, id))
       + Count(s.handlers, Raised(conversation, id))
  }

  /** From hd to hd' a call or a result was recorded exactly as the handler went into or came out of the call. */
  predicate Brackets(hd: Handler, hd': Handler, more: seq<Event>, conversation: string, id: string)
  {
    One(|more| > 1 && CallsOf(conversation, id)(more[1]))
    + One(InFlight(conversation, id)(hd)) + One(Raised(conversation, id)(hd))
    == One(|more| > 0 && ResultsOf(conversation, id)(more[0]))
       + One(InFlight(conversation, id)(hd')) + One(Raised(conversation, id)(hd'))
  }

  lemma JudgedBrackets(c: Config, h: nat, hd: Handler, now: Aware, conversation: string, id: string)
    requires c.hasMemory && hd.pc.Judging?
    ensures var r := Judged(c, h, hd, now); Brackets(hd, r.0, r.1, conversation, id)
  {}

  lemma ActedBrackets(c: Config, h: nat, hd: Handler, now: Aware, raises: bool, conversation: string, id: string)
    requires (hd.pc.Sending? || hd.pc.Calling?) && hd.pc.at < |hd.plans|
    ensures var r := Acted(c, h, hd, now, raises); Brackets(hd, r.0, r.1, conversation, id)
  {}

  lemma ReturnedBrackets(c: Config, h: nat, hd: Handler, step: Step, conversation: string, id: string)
    requires c.hasMemory && step.Return?
    ensures var r := Advance(c, h, hd, step); Brackets(hd, r.0, r.1, conversation, id)
  {}

  lemma AbortedBrackets(c: Config, hd: Handler, conversation: string, id: string)
    requires Sound(c, hd)
    ensures Brackets(hd, Aborted(hd), [], conversation, id)
  {}

  lemma AdvanceBrackets(c: Config, h: nat, hd: Handler, step: Step, conversation: string, id: string)
    requires Sound(c, hd) && c.hasMemory
    ensures var r := Advance(c, h, hd, step); Brackets(hd, r.0, r.1, conversation, id)
  {
    match step
    case Judge(_, now) => if hd.pc.Judging? { JudgedBrackets(c, h, hd, now, conversation, id); }
    case Act(_, now, raises) =>
      if (hd.pc.Sending? || hd.pc.Calling?) && hd.pc.at < |hd.plans| {
        ActedBrackets(c, h, hd, now, raises, conversation, id);
      }
    case Return(_) => ReturnedBrackets(c, h, hd, step, conversation, id);
    case Abort(_) => AbortedBrackets(c, hd, conversation, id);
    case _ =>
  }

  lemma StepCounts(h: nat, own: string, more: seq<Event>, conversation: string, id: string)
    requires StepEvents(h, own, more)
    ensures Count(more, CallsOf(conversation, id)) == One(|more| > 1 && CallsOf(conversation, id)(more[1]))
    ensures Count(more, ResultsOf(conversation, id)) == One(|more| > 0 && ResultsOf(conversation, id)(more[0]))
  {
    CountUpToTwo(more, CallsOf(conversation, id));
    CountUpToTwo(more, ResultsOf(conversation, id));
  }

  lemma HandlerStepBrackets(c: Config, s: State, step: Step, h: nat, conversation: string, id: string)
    requires c.hasMemory && h < |s.handlers| && Sound(c, s.handlers[h]) && Bracketing(s, conversation, id)
    ensures var (hd', more) := Advance(c, h, s.handlers[h], step);
            Bracketing(s.(handlers := s.handlers[h := hd'], history := s.history + more), conversation, id)
  {
    var hd := s.handlers[h];
    var (hd', more) := Advance(c, h, hd, step);
    AdvanceEvents(c, h, hd, step);
    AdvanceBrackets(c, h, hd, step, conversation, id);
    StepCounts(h, hd.conversation, more, conversation, id);
    CountAppend(s.history, more, CallsOf(conversation, id));
    CountAppend(s.history, more, ResultsOf(conversation, id));
    CountUpdate(s.handlers, h, hd', InFlight(conversation, id));
    CountUpdate(s.handlers, h, hd', Raised(conversation, id));
  }

  lemma ReceiveBrackets(c: Config, s: State, conv: string, conversation: string, id: string)
    requires c.hasMemory && Bracketing(s, conversation, id)
    ensures Bracketing(Next(c, s, Receive(conv)), conversation, id)
  {
    CountNoneOfOne(s.history, [Inbound(conv)], CallsOf(conversation, id));
    CountNoneOfOne(s.history, [Inbound(conv)], ResultsOf(conversation, id));
    CountSnoc(s.handlers, Fresh(c, conv), InFlight(conversation, id));
    CountSnoc(s.handlers, Fresh(c, conv), Raised(conversation, id));
  }

  lemma CloseBrackets(c: Config, s: State, conv: string, conversation: string, id: string)
    requires c.hasMemory && Bracketing(s, conversation, id)
    ensures Bracketing(Next(c, s, CloseSession(conv)), conversation, id)
  {
    CountNoneOfOne(s.history, [Closed(conv)], CallsOf(conversation, id));
    CountNoneOfOne(s.history, [Closed(conv)], ResultsOf(conversation, id));
  }

  lemma NextBrackets(c: Config, s: State, step: Step, conversation: string, id: string)
    requires c.hasMemory && Bracketing(s, conversation, id) && forall i: nat :: InOrder(c, s, i)
    ensures Bracketing(Next(c, s, step), conversation, id)
  {
    match step
    case Receive(conv) => ReceiveBrackets(c, s, conv, conversation, id);
    case CloseSession(conv) => CloseBrackets(c, s, conv, conversation, id);
    case Review(_) =>
    case _ =>
      if step.h < |s.handlers| {
        assert InOrder(c, s, step.h);
        HandlerStepBrackets(c, s, step, step.h, conversation, id);
      }
  }

  /** No prefix of the log holds more results than calls. */
  predicate NeverAhead(history: seq<Event>, conversation: string, id: string)
  {
    forall n {:trigger history[..n]} :: 0 <= n <= |history| ==>
      Count(history[..n], ResultsOf(conversation, id)) <= Count(history[..n], CallsOf(conversation, id))
  }

  lemma NeverAheadGrows(history: seq<Event>, more: seq<Event>, conversation: string, id: string)
    requires NeverAhead(history, conversation, id)
    requires |more| <= 2 && (|more| == 2 ==> !more[0].ToolResult?)
    requires Count(history + more, ResultsOf(conversation, id)) <= Count(history + more, CallsOf(conversation, id))
    ensures NeverAhead(history + more, conversation, id)
  {
    var all := history + more;
    var calls, results := CallsOf(conversation, id), ResultsOf(conversation, id);
    forall n {:trigger all[..n]} | 0 <= n <= |all| ensures Count(all[..n], results) <= Count(all[..n], calls) {
      if n <= |history| {
        assert all[..n] == history[..n];
      } else if n == |all| {
        assert all[..n] == all;
      } else {
        assert all[..n] == history + [more[0]] && history[..|history|] == history;
        CountSnoc(history, more[0], results);
        CountSnoc(history, more[0], calls);
      }
    }
  }

  lemma NextAdds(c: Config, s: State, step: Step) returns (more: seq<Event>)
    ensures Next(c, s, step).history == s.history + more
    ensures |more| <= 2 && (|more| == 2 ==> !more[0].ToolResult?)
  {
    match step
    case Receive(conversation) => more := if c.hasMemory then [Inbound(conversation)] else [];
    case CloseSession(conversation) => more := [Closed(conversation)];
    case Review(_) => more := []; assert s.history + more == s.history;
    case _ =>
      if step.h < |s.handlers| {
        more := Advance(c, step.h, s.handlers[step.h], step).1;
        AdvanceEvents(c, step.h, s.handlers[step.h], step);
      } else {
        more := [];
        assert s.history + more == s.history;
      }
  }

  /** In every run, for every conversation and action id: the calls recorded are the results recorded, plus the calls in
      flight, plus the calls that raised; and in no prefix of the log are there more results than calls. */
  lemma {:induction false} ToolEventsBracket(c: Config, steps: seq<Step>, conversation: string, id: string)
    requires c.hasMemory
    ensures Bracketing(Run(c, steps), conversation, id)
    ensures NeverAhead(Run(c, steps).history, conversation, id)
  {
    if steps != [] {
      var before, step := steps[..|steps| - 1], steps[|steps| - 1];
      ToolEventsBracket(c, before, conversation, id);
      forall i: nat ensures InOrder(c, Run(c, before), i) { PlansAreJudgedInOrder(c, before, i); }
      NextBrackets(c, Run(c, before), step, conversation, id);
      var more := NextAdds(c, Run(c, before), step);
      NeverAheadGrows(Run(c, before).history, more, conversation, id);
    }
  }

  // ---- turns ------------------------------------------------------------------------------

  /** The messages of a conversation since its session was last closed. */
  function SinceClose(history: seq<Event>, conversation: string): nat
  {
    if history == [] then 0
    else
      match history[|history| - 1]
      case Inbound(conv) => SinceClose(history[..|history| - 1], conversation) + One(conv == conversation)
      case Closed(conv) => if conv == conversation then 0 else SinceClose(history[..|history| - 1], conversation)
      case _ => SinceClose(history[..|history| - 1], conversation)
  }

  lemma SinceCloseSnoc(history: seq<Event>, e: Event, conversation: string)
    ensures SinceClose(history + [e], conversation)
         == match e {
              case Inbound(conv) => SinceClose(history, conversation) + One(conv == conversation)
              case Closed(conv) => if conv == conversation then 0 else SinceClose(history, conversation)
              case _ => SinceClose(history, conversation) }
  {
    assert (history + [e])[..|history + [e]| - 1] == history;
  }

  lemma SinceCloseOfStep(h: nat, own: string, history: seq<Event>, more: seq<Event>, conversation: string)
    requires StepEvents(h, own, more)
    ensures SinceClose(history + more, conversation) == SinceClose(history, conversation)
  {
    if |more| == 0 {
      assert history + more == history;
    } else {
      SinceCloseSnoc(history, more[0], conversation);
      if |more| == 1 {
        assert history + more == history + [more[0]];
      } else {
        SinceCloseSnoc(history + [more[0]], more[1], conversation);
        assert history + more == history + [more[0]] + [more[1]];
      }
    }
  }

  lemma NextKeepsTurns(c: Config, s: State, step: Step, conversation: string)
    requires TurnsOf(s, conversation) == SinceClose(s.history, conversation)
    ensures TurnsOf(Next(c, s, step), conversation) == SinceClose(Next(c, s, step).history, conversation)
  {
    match step
    case Receive(conv) =>
      if c.hasMemory {
        SinceCloseSnoc(s.history, Inbound(conv), conversation);
      } else {
        assert s.history + [] == s.history;
      }
    case CloseSession(conv) => SinceCloseSnoc(s.history, Closed(conv), conversation);
    case Review(_) =>
    case _ =>
      if step.h < |s.handlers| {
        AdvanceEvents(c, step.h, s.handlers[step.h], step);
        SinceCloseOfStep(step.h, s.handlers[step.h].conversation, s.history,
                         Advance(c, step.h, s.handlers[step.h], step).1,
                         conversation);
      }
  }

  /** In every run the turn count of a conversation is the number of its inbound events since its last close. */
  lemma {:induction false} TurnsCountInboundEvents(c: Config, steps: seq<Step>, conversation: string)
    ensures TurnsOf(Run(c, steps), conversation) == SinceClose(Run(c, steps).history, conversation)
  {
    if steps != [] {
      TurnsCountInboundEvents(c, steps[..|steps| - 1], conversation);
      NextKeepsTurns(c, Run(c, steps[..|steps| - 1]), steps[|steps| - 1], conversation);
    }
  }

  /** While a session is never closed that is all its inbound events. */
  lemma {:induction false} NeverClosedCountsAll(history: seq<Event>, conversation: string)
    requires Closed(conversation) !in history
    ensures SinceClose(history, conversation) == Count(history, (e: Event) => e == Inbound(conversation))
  {
    if history != [] {
      var n := |history| - 1;
      assert history == history[..n] + [history[n]];
      NeverClosedCountsAll(history[..n], conversation);
    }
  }

  // ---- the queue --------------------------------------------------------------------------

  /** The audit log holds a `hitl_queued` entry for the plan. */
  predicate Queued(history: seq<Event>, plan: ActionPlan)
  {
    exists j {:trigger history[j]} :: 0 <= j < |history| && history[j].Audited? && history[j].decision.HitlQueued?
      && history[j].plan == plan
  }

  ghost predicate QueueIsAudited(s: State)
  {
    && Distinct(s.hitl)
    && forall id {:trigger Get(s.hitl, id)} :: Get(s.hitl, id).Some? ==>
         var plan := Get(s.hitl, id).value.plan; plan.actionId == id && plan.risk.Level() > 3 && Queued(s.history, plan)
  }

  lemma QueuedStays(history: seq<Event>, more: seq<Event>, plan: ActionPlan)
    requires Queued(history, plan)
    ensures Queued(history + more, plan)
  {
    var j :| 0 <= j < |history| && history[j].Audited? && history[j].decision.HitlQueued? && history[j].plan == plan;
    assert (history + more)[j] == history[j];
  }

  lemma QueueStaysAudited(s: State, more: seq<Event>)
    requires QueueIsAudited(s)
    requires more != [] && more[0].Audited? && more[0].decision.HitlQueued? ==> more[0].plan.risk.Level() > 3
    ensures QueueIsAudited(s.(history := s.history + more, hitl := QueueAfter(s.hitl, more)))
  {
    var hitl', all := QueueAfter(s.hitl, more), s.history + more;
    if hitl' != s.hitl {
      assert all[|s.history|] == more[0];
      PutDistinct(s.hitl, more[0].plan.actionId, Get(hitl', more[0].plan.actionId).value);
    }
    forall id {:trigger Get(hitl', id)} | Get(hitl', id).Some?
      ensures var plan := Get(hitl', id).value.plan; plan.actionId == id && plan.risk.Level() > 3 && Queued(all, plan)
    {
      if hitl' != s.hitl { PutGet(s.hitl, more[0].plan.actionId, Get(hitl', more[0].plan.actionId).value, id); }
      if Get(hitl', id) == Get(s.hitl, id) {
        QueuedStays(s.history, more, Get(s.hitl, id).value.plan);
      } else {
        assert all[|s.history|] == more[0];
      }
    }
  }

  lemma AdvanceQueuesEscalated(c: Config, h: nat, hd: Handler, step: Step)
    ensures var more := Advance(c, h, hd, step).1;
            more != [] && more[0].Audited? && more[0].decision.HitlQueued? ==> more[0].plan.risk.Level() > 3
  {}

  lemma NextKeepsQueueAudited(c: Config, s: State, step: Step)
    requires QueueIsAudited(s)
    ensures QueueIsAudited(Next(c, s, step))
  {
    match step
    case Receive(conversation) => QueueStaysAudited(s, if c.hasMemory then [Inbound(conversation)] else []);
    case CloseSession(conversation) => QueueStaysAudited(s, [Closed(conversation)]);
    case Review(id) =>
      PopDistinct(s.hitl, id);
      forall q {:trigger Get(Pop(s.hitl, id), q)}
        ensures Get(Pop(s.hitl, id), q) == if q == id then None else Get(s.hitl, q)
      {
        PopGet(s.hitl, id, q);
      }
    case _ =>
      if step.h < |s.handlers| {
        AdvanceQueuesEscalated(c, step.h, s.handlers[step.h], step);
        QueueStaysAudited(s, Advance(c, step.h, s.handlers[step.h], step).1);
      }
  }

  /** In every run, what waits in the queue is there under its own action id, is of a tier that needs a person, and has
      its `hitl_queued` entry in the audit log. */
  lemma {:induction false} WaitingPlansAreAudited(c: Config, steps: seq<Step>)
    ensures QueueIsAudited(Run(c, steps))
  {
    if steps != [] {
      WaitingPlansAreAudited(c, steps[..|steps| - 1]);
      NextKeepsQueueAudited(c, Run(c, steps[..|steps| - 1]), steps[|steps| - 1]);
    }
  }

  /** The plan of this id, of a tier that needs a person, that the step judges. */
  function QueuedBy(s: State, step: Step, id: string): Option<ActionPlan>
  {
    if step.Judge? && step.h < |s.handlers| && s.handlers[step.h].pc.Judging? then
      var hd := s.handlers[step.h];
      if hd.pc.at < |hd.plans| && hd.plans[hd.pc.at].risk.Level() > 3 && hd.plans[hd.pc.at].actionId == id
      then Some(hd.plans[hd.pc.at]) else None
    else None
  }

  /** The plan of this id that was judged to wait last, if no decision on the id came after it. */
  function LastQueued(c: Config, steps: seq<Step>, id: string): Option<ActionPlan>
  {
    if steps == [] then None
    else
      var before, step := steps[..|steps| - 1], steps[|steps| - 1];
      if step == Review(id) then None
      else if QueuedBy(Run(c, before), step, id).Some? then QueuedBy(Run(c, before), step, id)
      else LastQueued(c, before, id)
  }

  function WaitingItem(plan: ActionPlan): HitlItem
  {
    HitlItem(plan, "tier=" + plan.risk.Name() + " requires HITL approval", None, None, None)
  }

  lemma JudgeQueues(c: Config, s: State, h: nat, now: Aware, id: string)
    requires h < |s.handlers|
    ensures Get(Next(c, s, Judge(h, now)).hitl, id)
         == match QueuedBy(s, Judge(h, now), id) { case None => Get(s.hitl, id) case Some(p) => Some(WaitingItem(p)) }
  {
    var more := Advance(c, h, s.handlers[h], Judge(h, now)).1;
    if more != [] && more[0].Audited? && more[0].decision.HitlQueued? {
      PutGet(s.hitl, more[0].plan.actionId, WaitingItem(more[0].plan), id);
    }
  }

  lemma OtherStepsQueueNothing(c: Config, h: nat, hd: Handler, step: Step)
    requires !step.Judge?
    ensures var more := Advance(c, h, hd, step).1; more != [] ==> !more[0].Audited?
  {}

  lemma NextQueues(c: Config, s: State, step: Step, id: string)
    requires Distinct(s.hitl)
    ensures Get(Next(c, s, step).hitl, id)
         == if step == Review(id) then None
            else match QueuedBy(s, step, id) { case None => Get(s.hitl, id) case Some(p) => Some(WaitingItem(p)) }
  {
    match step
    case Receive(_) =>
    case CloseSession(_) =>
    case Review(q) => PopGet(s.hitl, q, id);
    case Judge(h, now) => if h < |s.handlers| { JudgeQueues(c, s, h, now, id); }
    case _ => if step.h < |s.handlers| { OtherStepsQueueNothing(c, step.h, s.handlers[step.h], step); }
  }

  /** In every run, exactly the plans wait that were judged to wait, the last one of an id, until a decision on the id.
      */
  lemma {:induction false} QueueHoldsWhatWaits(c: Config, steps: seq<Step>, id: string)
    ensures Get(Run(c, steps).hitl, id)
         == match LastQueued(c, steps, id) { case None => None case Some(p) => Some(WaitingItem(p)) }
  {
    if steps != [] {
      var before := steps[..|steps| - 1];
      QueueHoldsWhatWaits(c, before, id);
      WaitingPlansAreAudited(c, before);
      NextQueues(c, Run(c, before), steps[|steps| - 1], id);
    }
  }
}
