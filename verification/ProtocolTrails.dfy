/** What every handler of the protocol must have done: the events it leaves are fixed by its plans, and it can always go
    on to its end. */
module ProtocolTrails {
  import opened Prelude
  import opened Token
  import opened Protocol
  import opened ProtocolSafety

  // ---- what plans leave -------------------------------------------------------------------

  /** An event of a handler, clocks aside. */
  datatype Mark =
    | Verdict(plan: ActionPlan, approved: bool)
    | Call(conversation: string, actionId: string)
    | Did(plan: ActionPlan, verified: bool)
    | Answer(conversation: string, actionId: string)

  function MarksOf(e: Event, h: nat): seq<Mark>
  {
    match e
    case Audited(handler, plan, decision, _) => if handler == h then [Verdict(plan, decision.AutoApproved?)] else []
    case ToolCall(handler, conversation, actionId) => if handler == h then [Call(conversation, actionId)] else []
    case Effect(handler, plan, verified, _) => if handler == h then [Did(plan, verified)] else []
    case ToolResult(handler, conversation, actionId) => if handler == h then [Answer(conversation, actionId)] else []
    case _ => []
  }

  /** The events of one handler, in order. */
  function Marks(history: seq<Event>, h: nat): seq<Mark>
  {
    if history == [] then []
    else Marks(history[..|history| - 1], h) + MarksOf(history[|history| - 1], h)
  }

  /** What one plan leaves when it is done: a verdict; for an approved send the send; for an approved tool plan, if
      there are tools, the call and the execution and the result, the first and the last of them if there is a memory.
      */
  function Footprint(c: Config, conversation: string, plan: ActionPlan): seq<Mark>
  {
    if plan.risk.Level() > 3 then [Verdict(plan, false)]
    else
      match c.route(plan)
      case Channel(verifies) => [Verdict(plan, true), Did(plan, verifies)]
      case Nowhere => [Verdict(plan, true)]
      case Tool =>
        if !c.hasTools then [Verdict(plan, true)]
        else if !c.hasMemory then [Verdict(plan, true), Did(plan, true)]
        else [Verdict(plan, true), Call(conversation, plan.actionId), Did(plan, true),
              Answer(conversation, plan.actionId)]
  }

  /** What a list of plans leaves, one after another. */
  function Trail(c: Config, conversation: string, plans: seq<ActionPlan>): seq<Mark>
  {
    if plans == [] then []
    else Trail(c, conversation, plans[..|plans| - 1]) + Footprint(c, conversation, plans[|plans| - 1])
  }

  /** How many plans the handler is done with. */
  function Finished(hd: Handler): nat
  {
    match hd.pc
    case Asking => 0
    case Judging(at) => at
    case Sending(at, _, _) => at
    case Calling(at, _) => at
    case Called(at) => at
    case Ended => |hd.plans|
    case Failed(judged, _) => judged
  }

  /** How much of its footprint the plan in hand has left. */
  function Begun(c: Config, hd: Handler): nat
  {
    match hd.pc
    case Sending(_, _, _) => 1
    case Calling(_, _) => if c.hasMemory then 2 else 1
    case Called(_) => if c.hasMemory then 3 else 2
    case _ => 0
  }

  /** The footprints of the first n plans, and k marks of the next one's. */
  predicate Left(c: Config, marks: seq<Mark>, conversation: string, plans: seq<ActionPlan>, n: nat, k: nat)
  {
    && n <= |plans| && (k > 0 ==> n < |plans| && k <= |Footprint(c, conversation, plans[n])|)
    && marks == Trail(c, conversation, plans[..n]) + if k > 0 then Footprint(c, conversation, plans[n])[..k] else []
  }

  /** The footprints of the first n plans, and the beginning of the next one's. */
  ghost predicate LeftMidway(c: Config, marks: seq<Mark>, conversation: string, plans: seq<ActionPlan>, n: nat)
  {
    exists k: nat :: k > 0 && Left(c, marks, conversation, plans, n, k)
  }

  /** The handler broke off after n plans, or in the middle of the last of them. */
  ghost predicate BrokeOff(c: Config, marks: seq<Mark>, conversation: string, plans: seq<ActionPlan>, n: nat)
  {
    Left(c, marks, conversation, plans, n, 0) || (n > 0 && LeftMidway(c, marks, conversation, plans, n - 1))
  }

  /** None of the first n plans is an approved one that has nowhere to go. */
  predicate AllArrived(c: Config, plans: seq<ActionPlan>, n: int)
  {
    forall i {:trigger plans[i]} :: 0 <= i < n && i < |plans| && plans[i].risk.Level() <= 3 ==>
      !c.route(plans[i]).Nowhere?
  }

  /** The handler is at a plan of a tier up to ORANGE_B. */
  predicate HasApproved(hd: Handler)
  {
    (hd.pc.Sending? || hd.pc.Calling? || hd.pc.Called?) && hd.pc.at < |hd.plans| && hd.plans[hd.pc.at].risk.Level() <= 3
  }

  ghost predicate OnTrail(c: Config, marks: seq<Mark>, hd: Handler)
  {
    if hd.pc.Failed? then
      && BrokeOff(c, marks, hd.conversation, hd.plans, hd.pc.judged)
      && AllArrived(c, hd.plans, hd.pc.judged - 1)
    else
      && Left(c, marks, hd.conversation, hd.plans, Finished(hd), Begun(c, hd))
      && AllArrived(c, hd.plans, Finished(hd))
      && (Begun(c, hd) > 0 ==> HasApproved(hd))
  }

  // ---- one handler's steps ----------------------------------------------------------------

  lemma {:induction false} MarksAppend(a: seq<Event>, b: seq<Event>, h: nat)
    ensures Marks(a + b, h) == Marks(a, h) + Marks(b, h)
  {
    if b == [] {
      assert a + b == a;
      AppendNothing(Marks(a, h));
    } else {
      var n := |b| - 1;
      MarksAppend(a, b[..n], h);
      assert (a + b)[..|a + b| - 1] == a + b[..n];
      Reassociate(Marks(a, h), Marks(b[..n], h), MarksOf(b[n], h));
    }
  }

  lemma MarksOfOne(e: Event, h: nat)
    ensures Marks([e], h) == MarksOf(e, h)
  {
    assert [e][..0] == [];
    assert Marks([], h) + MarksOf(e, h) == MarksOf(e, h);
  }

  lemma MarksOfTwo(e: Event, f: Event, h: nat)
    ensures Marks([e, f], h) == MarksOf(e, h) + MarksOf(f, h)
  {
    assert [e, f] == [e] + [f];
    MarksAppend([e], [f], h);
    MarksOfOne(e, h);
    MarksOfOne(f, h);
  }

  /** One more mark of the plan in hand. */
  lemma OneMoreMark(c: Config, marks: seq<Mark>, conversation: string, plans: seq<ActionPlan>, n: nat, k: nat,
                    mark: Mark)
    requires Left(c, marks, conversation, plans, n, k) && n < |plans| && k < |Footprint(c, conversation, plans[n])|
    requires mark == Footprint(c, conversation, plans[n])[k]
    ensures Left(c, marks + [mark], conversation, plans, n, k + 1)
  {
    var f, t := Footprint(c, conversation, plans[n]), Trail(c, conversation, plans[..n]);
    assert f[..k + 1] == f[..k] + [mark];
    assert f[..0] == [];
    Reassociate(t, f[..k], [mark]);
  }

  /** The plan in hand is done when its whole footprint is there. */
  lemma FootprintDone(c: Config, marks: seq<Mark>, conversation: string, plans: seq<ActionPlan>, n: nat)
    requires n < |plans| && Left(c, marks, conversation, plans, n, |Footprint(c, conversation, plans[n])|)
    ensures Left(c, marks, conversation, plans, n + 1, 0)
  {
    var f := Footprint(c, conversation, plans[n]);
    assert f[..|f|] == f;
    assert plans[..n + 1][..n] == plans[..n];
    AppendNothing(Trail(c, conversation, plans[..n + 1]));
  }

  lemma FailsMidway(c: Config, marks: seq<Mark>, hd: Handler, n: nat, k: nat, inCall: bool)
    requires Left(c, marks, hd.conversation, hd.plans, n, k) && k > 0 && AllArrived(c, hd.plans, n)
    ensures OnTrail(c, marks, hd.(pc := Failed(n + 1, inCall)))
  {
    assert LeftMidway(c, marks, hd.conversation, hd.plans, n);
  }

  lemma MovesOn(c: Config, marks: seq<Mark>, hd: Handler, n: nat)
    requires n < |hd.plans| && AllArrived(c, hd.plans, n)
    requires Left(c, marks, hd.conversation, hd.plans, n, |Footprint(c, hd.conversation, hd.plans[n])|)
    requires hd.plans[n].risk.Level() <= 3 ==> !c.route(hd.plans[n]).Nowhere?
    ensures OnTrail(c, marks, hd.(pc := Judging(n + 1)))
  {
    FootprintDone(c, marks, hd.conversation, hd.plans, n);
  }

  lemma TiersUpToThreeAreAuto(t: RiskTier)
    ensures t.Auto() <==> t.Level() <= 3
  {}

  /** The verdict on the next plan. */
  lemma VerdictLeft(c: Config, marks: seq<Mark>, hd: Handler, at: nat)
    requires at < |hd.plans| && Left(c, marks, hd.conversation, hd.plans, at, 0)
    ensures var plan := hd.plans[at];
            Left(c, marks + [Verdict(plan, plan.risk.Level() <= 3)], hd.conversation, hd.plans, at, 1)
  {
    OneMoreMark(c, marks, hd.conversation, hd.plans, at, 0, Footprint(c, hd.conversation, hd.plans[at])[0]);
  }

  /** What an approval leads to, the verdict and possibly the call being recorded. */
  lemma DispatchOnTrail(c: Config, marks: seq<Mark>, hd: Handler, at: nat, token: HarnessToken)
    requires at < |hd.plans| && hd.plans[at].risk.Level() <= 3 && AllArrived(c, hd.plans, at)
    requires Left(c, marks, hd.conversation, hd.plans, at, 0)
    ensures var plan, pc := hd.plans[at], Dispatch(c, hd.plans[at], at, token);
            var more := [Verdict(plan, true)]
                        + if pc.Calling? && c.hasMemory then [Call(hd.conversation, plan.actionId)] else [];
            OnTrail(c, marks + more, hd.(pc := pc))
  {
    var plan, pc := hd.plans[at], Dispatch(c, hd.plans[at], at, token);
    var one := marks + [Verdict(plan, true)];
    VerdictLeft(c, marks, hd, at);
    assert [Verdict(plan, true)] + [] == [Verdict(plan, true)];
    if pc.Calling? && c.hasMemory {
      OneMoreMark(c, one, hd.conversation, hd.plans, at, 1, Call(hd.conversation, plan.actionId));
      Reassociate(marks, [Verdict(plan, true)], [Call(hd.conversation, plan.actionId)]);
    } else if pc.Failed? {
      FailsMidway(c, one, hd, at, 1, false);
    } else if pc.Judging? {
      MovesOn(c, one, hd, at);
    }
  }

  lemma MarksOfApproval(c: Config, h: nat, hd: Handler, now: Aware)
    requires hd.pc.Judging? && hd.pc.at < |hd.plans|
    requires hd.plans[hd.pc.at].risk.Level() <= 3 && c.issue(hd.plans[hd.pc.at], now).Some?
    ensures var at, plan := hd.pc.at, hd.plans[hd.pc.at];
            var pc := Dispatch(c, plan, at, c.issue(plan, now).value);
            && Judged(c, h, hd, now).0 == hd.(pc := pc)
            && Marks(Judged(c, h, hd, now).1, h)
               == [Verdict(plan, true)]
                  + if pc.Calling? && c.hasMemory then [Call(hd.conversation, plan.actionId)] else []
  {
    var more := Judged(c, h, hd, now).1;
    TiersUpToThreeAreAuto(hd.plans[hd.pc.at].risk);
    if |more| == 1 {
      MarksOfOne(more[0], h);
      assert more == [more[0]];
    } else {
      MarksOfTwo(more[0], more[1], h);
      assert more == [more[0], more[1]];
    }
  }

  lemma ApprovedOnTrail(c: Config, marks: seq<Mark>, h: nat, hd: Handler, now: Aware)
    requires OnTrail(c, marks, hd) && hd.pc.Judging? && hd.pc.at < |hd.plans|
    requires hd.plans[hd.pc.at].risk.Level() <= 3 && c.issue(hd.plans[hd.pc.at], now).Some?
    ensures var r := Judged(c, h, hd, now); OnTrail(c, marks + Marks(r.1, h), r.0)
  {
    MarksOfApproval(c, h, hd, now);
    DispatchOnTrail(c, marks, hd, hd.pc.at, c.issue(hd.plans[hd.pc.at], now).value);
  }

  lemma EscalatedOnTrail(c: Config, marks: seq<Mark>, h: nat, hd: Handler, now: Aware)
    requires OnTrail(c, marks, hd) && hd.pc.Judging? && hd.pc.at < |hd.plans| && hd.plans[hd.pc.at].risk.Level() > 3
    ensures var r := Judged(c, h, hd, now); OnTrail(c, marks + Marks(r.1, h), r.0)
  {
    var at, plan := hd.pc.at, hd.plans[hd.pc.at];
    TiersUpToThreeAreAuto(plan.risk);
    MarksOfOne(Judged(c, h, hd, now).1[0], h);
    VerdictLeft(c, marks, hd, at);
    MovesOn(c, marks + [Verdict(plan, false)], hd, at);
  }

  lemma JudgedOnTrail(c: Config, marks: seq<Mark>, h: nat, hd: Handler, now: Aware)
    requires Sound(c, hd) && OnTrail(c, marks, hd) && hd.pc.Judging?
    ensures var r := Judged(c, h, hd, now); OnTrail(c, marks + Marks(r.1, h), r.0)
  {
    AppendNothing(marks);
    if hd.pc.at < |hd.plans| {
      TiersUpToThreeAreAuto(hd.plans[hd.pc.at].risk);
      if hd.plans[hd.pc.at].risk.Level() > 3 {
        EscalatedOnTrail(c, marks, h, hd, now);
      } else if c.issue(hd.plans[hd.pc.at], now).Some? {
        ApprovedOnTrail(c, marks, h, hd, now);
      }
    }
  }

  lemma MarksOfSend(c: Config, h: nat, hd: Handler, now: Aware, raises: bool)
    requires hd.pc.Sending? && hd.pc.at < |hd.plans|
    ensures var at, plan, r := hd.pc.at, hd.plans[hd.pc.at], Acted(c, h, hd, now, raises);
            if hd.pc.verifies && !c.verify(hd.pc.token, plan, now)
            then r.0 == hd.(pc := Failed(at + 1, false)) && Marks(r.1, h) == []
            else r.0 == hd.(pc := if raises then Failed(at + 1, false) else Judging(at + 1))
                 && Marks(r.1, h) == [Did(plan, hd.pc.verifies)]
  {
    MarksOfOne(Effect(h, hd.plans[hd.pc.at], hd.pc.verifies, now), h);
  }

  lemma SentOnTrail(c: Config, marks: seq<Mark>, h: nat, hd: Handler, now: Aware, raises: bool)
    requires Sound(c, hd) && OnTrail(c, marks, hd) && hd.pc.Sending? && hd.pc.at < |hd.plans|
    ensures var r := Acted(c, h, hd, now, raises); OnTrail(c, marks + Marks(r.1, h), r.0)
  {
    var at, did := hd.pc.at, Did(hd.plans[hd.pc.at], hd.pc.verifies);
    MarksOfSend(c, h, hd, now, raises);
    AppendNothing(marks);
    FailsMidway(c, marks, hd, at, 1, false);
    OneMoreMark(c, marks, hd.conversation, hd.plans, at, 1, did);
    FailsMidway(c, marks + [did], hd, at, 2, false);
    MovesOn(c, marks + [did], hd, at);
  }

  lemma ToolRuns(c: Config, marks: seq<Mark>, hd: Handler, at: nat)
    requires at < |hd.plans| && hd.plans[at].risk.Level() <= 3 && c.route(hd.plans[at]).Tool? && c.hasTools
    requires AllArrived(c, hd.plans, at)
    requires Left(c, marks, hd.conversation, hd.plans, at, if c.hasMemory then 2 else 1)
    ensures OnTrail(c, marks + [Did(hd.plans[at], true)], hd.(pc := Called(at)))
  {
    OneMoreMark(c, marks, hd.conversation, hd.plans, at, if c.hasMemory then 2 else 1, Did(hd.plans[at], true));
  }

  lemma MarksOfCall(c: Config, h: nat, hd: Handler, now: Aware, raises: bool)
    requires hd.pc.Calling? && hd.pc.at < |hd.plans|
    ensures var at, plan, r := hd.pc.at, hd.plans[hd.pc.at], Acted(c, h, hd, now, raises);
            if c.verify(hd.pc.token, plan, now) && plan.toolId in c.tools
            then r.0 == hd.(pc := Called(at)) && Marks(r.1, h) == [Did(plan, true)]
            else r.0 == hd.(pc := Failed(at + 1, true)) && Marks(r.1, h) == []
  {
    MarksOfOne(Effect(h, hd.plans[hd.pc.at], true, now), h);
  }

  lemma CalledOnTrail(c: Config, marks: seq<Mark>, h: nat, hd: Handler, now: Aware, raises: bool)
    requires Sound(c, hd) && OnTrail(c, marks, hd) && hd.pc.Calling? && hd.pc.at < |hd.plans|
    ensures var r := Acted(c, h, hd, now, raises); OnTrail(c, marks + Marks(r.1, h), r.0)
  {
    MarksOfCall(c, h, hd, now, raises);
    AppendNothing(marks);
    ToolRuns(c, marks, hd, hd.pc.at);
    FailsMidway(c, marks, hd, hd.pc.at, if c.hasMemory then 2 else 1, true);
  }

  lemma ReturnedOnTrail(c: Config, marks: seq<Mark>, h: nat, hd: Handler, step: Step)
    requires Sound(c, hd) && OnTrail(c, marks, hd) && hd.pc.Called? && hd.pc.at < |hd.plans| && step.Return?
    ensures var r := Advance(c, h, hd, step); OnTrail(c, marks + Marks(r.1, h), r.0)
  {
    var at, answer := hd.pc.at, Answer(hd.conversation, hd.plans[hd.pc.at].actionId);
    if c.hasMemory {
      MarksOfOne(ToolResult(h, hd.conversation, hd.plans[at].actionId), h);
      OneMoreMark(c, marks, hd.conversation, hd.plans, at, 3, answer);
      MovesOn(c, marks + [answer], hd, at);
    } else {
      AppendNothing(marks);
      MovesOn(c, marks, hd, at);
    }
  }

  lemma ExtendedOnTrail(c: Config, marks: seq<Mark>, hd: Handler, output: seq<ActionPlan>)
    requires OnTrail(c, marks, hd) && hd.pc.Asking?
    ensures OnTrail(c, marks, Extended(c, hd, output))
  {
    assert hd.plans[..0] == [] == Extended(c, hd, output).plans[..0];
  }

  lemma AbortedOnTrail(c: Config, marks: seq<Mark>, hd: Handler)
    requires Sound(c, hd) && OnTrail(c, marks, hd)
    ensures OnTrail(c, marks, Aborted(hd))
  {
    if Begun(c, hd) > 0 { FailsMidway(c, marks, hd, hd.pc.at, Begun(c, hd), !hd.pc.Sending?); }
  }

  lemma AdvanceOnTrail(c: Config, marks: seq<Mark>, h: nat, hd: Handler, step: Step)
    requires Sound(c, hd) && OnTrail(c, marks, hd)
    ensures var r := Advance(c, h, hd, step); OnTrail(c, marks + Marks(r.1, h), r.0)
  {
    AppendNothing(marks);
    match step
    case WorkerReturns(_, output) => if hd.pc.Asking? { ExtendedOnTrail(c, marks, hd, output); }
    case Judge(_, now) => if hd.pc.Judging? { JudgedOnTrail(c, marks, h, hd, now); }
    case Act(_, now, raises) =>
      if (hd.pc.Sending? || hd.pc.Calling?) && hd.pc.at < |hd.plans| {
        if hd.pc.Sending? {
          SentOnTrail(c, marks, h, hd, now, raises);
        } else {
          CalledOnTrail(c, marks, h, hd, now, raises);
        }
      }
    case Return(_) => if hd.pc.Called? && hd.pc.at < |hd.plans| { ReturnedOnTrail(c, marks, h, hd, step); }
    case Abort(_) => AbortedOnTrail(c, marks, hd);
    case _ =>
  }

  // ---- every run --------------------------------------------------------------------------

  ghost predicate TrailKept(c: Config, s: State, i: nat)
  {
    if i < |s.handlers| then OnTrail(c, Marks(s.history, i), s.handlers[i]) else Marks(s.history, i) == []
  }

  lemma OtherMarks(h: nat, conversation: string, more: seq<Event>, i: nat)
    requires StepEvents(h, conversation, more) && i != h
    ensures Marks(more, i) == []
  {
    if |more| == 1 {
      assert more == [more[0]];
      MarksOfOne(more[0], i);
    } else if |more| == 2 {
      assert more == [more[0], more[1]];
      MarksOfTwo(more[0], more[1], i);
    }
  }

  lemma QuietMarks(history: seq<Event>, more: seq<Event>, i: nat)
    requires |more| <= 1 && (|more| == 1 ==> more[0].Inbound? || more[0].Closed?)
    ensures Marks(history + more, i) == Marks(history, i)
  {
    MarksAppend(history, more, i);
    if |more| == 1 {
      assert more == [more[0]];
      MarksOfOne(more[0], i);
    }
    AppendNothing(Marks(history, i));
  }

  lemma FreshOnTrail(c: Config, conversation: string)
    ensures OnTrail(c, [], Fresh(c, conversation))
  {}

  lemma NextKeepsTrail(c: Config, s: State, step: Step, i: nat)
    requires TrailKept(c, s, i) && forall j: nat :: InOrder(c, s, j)
    ensures TrailKept(c, Next(c, s, step), i)
  {
    match step
    case Receive(conversation) =>
      QuietMarks(s.history, if c.hasMemory then [Inbound(conversation)] else [], i);
      if i == |s.handlers| { FreshOnTrail(c, conversation); }
    case CloseSession(conversation) => QuietMarks(s.history, [Closed(conversation)], i);
    case Review(_) =>
    case _ =>
      if step.h < |s.handlers| { HandlerStepKeepsTrail(c, s, step, step.h, i); }
  }

  lemma HandlerStepKeepsTrail(c: Config, s: State, step: Step, h: nat, i: nat)
    requires TrailKept(c, s, i) && h < |s.handlers| && InOrder(c, s, h)
    ensures var (hd, more) := Advance(c, h, s.handlers[h], step);
            TrailKept(c, s.(handlers := s.handlers[h := hd], history := s.history + more), i)
  {
    var (hd, more) := Advance(c, h, s.handlers[h], step);
    MarksAppend(s.history, more, i);
    if i == h {
      AdvanceOnTrail(c, Marks(s.history, i), h, s.handlers[h], step);
    } else {
      AdvanceEvents(c, h, s.handlers[h], step);
      OtherMarks(h, s.handlers[h].conversation, more, i);
      AppendNothing(Marks(s.history, i));
    }
  }

  /** In every run, the events of a handler are, one after another, the whole footprints of the plans it is done with
      and the beginning of the footprint of the plan in hand, as far as the handler has got; if an exception or
      cancellation ended it, of the plan it was at. No plan it is done with was approved with nowhere to go. */
  lemma {:induction false} HandlersLeaveTheirTrail(c: Config, steps: seq<Step>, i: nat)
    ensures TrailKept(c, Run(c, steps), i)
  {
    if steps != [] {
      var before := steps[..|steps| - 1];
      HandlersLeaveTheirTrail(c, before, i);
      forall j: nat ensures InOrder(c, Run(c, before), j) { PlansAreJudgedInOrder(c, before, j); }
      NextKeepsTrail(c, Run(c, before), steps[|steps| - 1], i);
    }
  }

  // ---- effects ----------------------------------------------------------------------------

  /** The plans a handler has had effects for, in order. */
  function EffectPlans(history: seq<Event>, h: nat): seq<ActionPlan>
  {
    if history == [] then []
    else
      var e := history[|history| - 1];
      EffectPlans(history[..|history| - 1], h) + if e.Effect? && e.handler == h then [e.plan] else []
  }

  function Dones(marks: seq<Mark>): seq<ActionPlan>
  {
    if marks == [] then []
    else
      var m := marks[|marks| - 1];
      Dones(marks[..|marks| - 1]) + if m.Did? then [m.plan] else []
  }

  lemma {:induction false} DonesAppend(a: seq<Mark>, b: seq<Mark>)
    ensures Dones(a + b) == Dones(a) + Dones(b)
  {
    if b == [] {
      assert a + b == a;
      AppendNothing(Dones(a));
    } else {
      var n := |b| - 1;
      DonesAppend(a, b[..n]);
      assert (a + b)[..|a + b| - 1] == a + b[..n];
    }
  }

  lemma DonesOfOne(m: Mark)
    ensures Dones([m]) == if m.Did? then [m.plan] else []
  {
    assert [m][..0] == [];
    assert [] + Dones([m]) == Dones([m]);
  }

  lemma DonesOfEvent(e: Event, h: nat)
    ensures Dones(MarksOf(e, h)) == if e.Effect? && e.handler == h then [e.plan] else []
  {
    if MarksOf(e, h) != [] { DonesOfOne(MarksOf(e, h)[0]); }
  }

  lemma {:induction false} EffectsAreDones(history: seq<Event>, h: nat)
    ensures EffectPlans(history, h) == Dones(Marks(history, h))
  {
    if history != [] {
      var n := |history| - 1;
      EffectsAreDones(history[..n], h);
      DonesAppend(Marks(history[..n], h), MarksOf(history[n], h));
      DonesOfEvent(history[n], h);
    }
  }

  /** Approved plans that go somewhere: to a channel, or to a tool if there are tools. */
  function Acts(c: Config): ActionPlan -> bool
  {
    (p: ActionPlan) => p.risk.Level() <= 3
      && match c.route(p) { case Channel(_) => true case Nowhere => false case Tool => c.hasTools }
  }

  /** If at most one mark is a deed, a prefix has it or has none. */
  lemma {:induction false} PrefixDones(f: seq<Mark>, k: nat)
    requires k <= |f| && forall i, j :: 0 <= i < j < |f| ==> !(f[i].Did? && f[j].Did?)
    ensures Dones(f[..k]) == [] <==> forall i :: 0 <= i < k ==> !f[i].Did?
    ensures forall i {:trigger f[i]} :: 0 <= i < k && f[i].Did? ==> Dones(f[..k]) == [f[i].plan]
  {
    if k > 0 {
      PrefixDones(f, k - 1);
      assert f[..k][..k - 1] == f[..k - 1];
    }
  }

  lemma {:induction false} DonesOfTrail(c: Config, conversation: string, plans: seq<ActionPlan>)
    ensures Dones(Trail(c, conversation, plans)) == Filter(plans, Acts(c))
  {
    if plans != [] {
      var n := |plans| - 1;
      DonesOfTrail(c, conversation, plans[..n]);
      DonesAppend(Trail(c, conversation, plans[..n]), Footprint(c, conversation, plans[n]));
      var f := Footprint(c, conversation, plans[n]);
      DonesOfPrefix(c, conversation, plans[n], |f|);
      assert f[..|f|] == f;
    }
  }

  /** All that is due, or that without its last, which is this plan. */
  predicate AllButLast(done: seq<ActionPlan>, due: seq<ActionPlan>, plan: ActionPlan)
  {
    done == due || (due != [] && done == due[..|due| - 1] && due[|due| - 1] == plan)
  }

  /** The deeds of the first n plans and k marks of the next: all that is due of them, or that without the last. */
  lemma DonesOfLeft(c: Config, marks: seq<Mark>, conversation: string, plans: seq<ActionPlan>, n: nat, k: nat)
    requires Left(c, marks, conversation, plans, n, k)
    ensures k == 0 ==> Dones(marks) == Filter(plans[..n], Acts(c))
    ensures k > 0 ==>
              var due := Filter(plans[..n + 1], Acts(c));
              && AllButLast(Dones(marks), due, plans[n])
              && (Footprint(c, conversation, plans[n])[k - 1].Did? ==> Dones(marks) == due)
  {
    DonesOfTrail(c, conversation, plans[..n]);
    AppendNothing(Trail(c, conversation, plans[..n]));
    if k > 0 {
      var f := Footprint(c, conversation, plans[n]);
      DonesAppend(Trail(c, conversation, plans[..n]), f[..k]);
      DonesOfPrefix(c, conversation, plans[n], k);
      assert plans[..n + 1][..n] == plans[..n];
      AppendNothing(Filter(plans[..n], Acts(c)));
    }
  }

  lemma DonesOfPrefix(c: Config, conversation: string, plan: ActionPlan, k: nat)
    requires k <= |Footprint(c, conversation, plan)|
    ensures var done := Dones(Footprint(c, conversation, plan)[..k]);
            && (done == [] || (done == [plan] && Acts(c)(plan)))
            && (k == |Footprint(c, conversation, plan)| ==> done == if Acts(c)(plan) then [plan] else [])
            && (k > 0 && Footprint(c, conversation, plan)[k - 1].Did? ==> done == [plan])
  {
    PrefixDones(Footprint(c, conversation, plan), k);
  }

  /** In every run, a handler that has ended has asked every worker and has left the whole footprint of every plan they
      returned, in order, and nothing else: so it has had an effect for exactly the approved plans that go to a channel
      or, if there are tools, to a tool, each execution between its call and its result if there is a memory. None of
      its approved plans had nowhere to go. */
  lemma {:induction false} EndedHandlersDidEverything(c: Config, steps: seq<Step>, i: nat)
    requires i < |Run(c, steps).handlers| && Run(c, steps).handlers[i].pc.Ended?
    ensures var s, hd := Run(c, steps), Run(c, steps).handlers[i];
            && |hd.outputs| == c.workers && hd.plans == Concat(hd.outputs)
            && Marks(s.history, i) == Trail(c, hd.conversation, hd.plans)
            && EffectPlans(s.history, i) == Filter(hd.plans, Acts(c))
            && forall p :: p in hd.plans && p.risk.Level() <= 3 ==> !c.route(p).Nowhere?
  {
    var s, hd := Run(c, steps), Run(c, steps).handlers[i];
    HandlersLeaveTheirTrail(c, steps, i);
    PlansAreJudgedInOrder(c, steps, i);
    assert hd.plans[..|hd.plans|] == hd.plans;
    AppendNothing(Trail(c, hd.conversation, hd.plans));
    EffectsAreDones(s.history, i);
    DonesOfTrail(c, hd.conversation, hd.plans);
  }

  /** The effects of a handler against the plans it has had judged. */
  ghost predicate Effected(c: Config, done: seq<ActionPlan>, hd: Handler)
    requires JudgedCount(hd) <= |hd.plans|
  {
    var n := JudgedCount(hd);
    var due := Filter(hd.plans[..n], Acts(c));
    if hd.pc.Sending? || hd.pc.Calling? || hd.pc.Failed? then
      done == due || (n > 0 && AllButLast(done, due, hd.plans[n - 1]))
    else done == due
  }

  lemma MidwayEffects(c: Config, marks: seq<Mark>, hd: Handler, m: nat, k: nat)
    requires hd.pc.Failed? && hd.pc.judged == m + 1 <= |hd.plans|
    requires k > 0 && Left(c, marks, hd.conversation, hd.plans, m, k)
    ensures Effected(c, Dones(marks), hd)
  {
    DonesOfLeft(c, marks, hd.conversation, hd.plans, m, k);
  }

  lemma WholeEffects(c: Config, marks: seq<Mark>, hd: Handler)
    requires hd.pc.Failed? && hd.pc.judged <= |hd.plans|
    requires Left(c, marks, hd.conversation, hd.plans, hd.pc.judged, 0)
    ensures Effected(c, Dones(marks), hd)
  {
    DonesOfLeft(c, marks, hd.conversation, hd.plans, hd.pc.judged, 0);
  }

  lemma FailedEffects(c: Config, marks: seq<Mark>, hd: Handler)
    requires Sound(c, hd) && OnTrail(c, marks, hd) && hd.pc.Failed?
    ensures Effected(c, Dones(marks), hd)
  {
    var n := hd.pc.judged;
    if n > 0 && LeftMidway(c, marks, hd.conversation, hd.plans, n - 1) {
      var k: nat :| k > 0 && Left(c, marks, hd.conversation, hd.plans, n - 1, k);
      MidwayEffects(c, marks, hd, n - 1, k);
    } else {
      WholeEffects(c, marks, hd);
    }
  }

  lemma OpenEffects(c: Config, marks: seq<Mark>, hd: Handler)
    requires Sound(c, hd) && OnTrail(c, marks, hd) && !hd.pc.Failed?
    ensures Effected(c, Dones(marks), hd)
  {
    DonesOfLeft(c, marks, hd.conversation, hd.plans, Finished(hd), Begun(c, hd));
    if hd.pc.Called? {
      assert Footprint(c, hd.conversation, hd.plans[hd.pc.at])[Begun(c, hd) - 1].Did?;
    }
  }

  /** In every run, the effects of a handler are, in order, those of its audited plans that are approved and go
      somewhere; the last of these plans is the only one that can be missing, while it is on its way or if that ended
      the handler. */
  lemma {:induction false} EffectsFollowApprovals(c: Config, steps: seq<Step>, i: nat)
    requires i < |Run(c, steps).handlers|
    ensures var s, hd := Run(c, steps), Run(c, steps).handlers[i];
            && JudgedCount(hd) <= |hd.plans| && JudgedPlans(s.history, i) == hd.plans[..JudgedCount(hd)]
            && Effected(c, EffectPlans(s.history, i), hd)
  {
    var s, hd := Run(c, steps), Run(c, steps).handlers[i];
    HandlersLeaveTheirTrail(c, steps, i);
    PlansAreJudgedInOrder(c, steps, i);
    EffectsAreDones(s.history, i);
    if hd.pc.Failed? { FailedEffects(c, Marks(s.history, i), hd); } else { OpenEffects(c, Marks(s.history, i), hd); }
  }

  // ---- going on to the end ----------------------------------------------------------------

  /** At this time nothing is in the way of the plan: its token is issued and verifies, and it has somewhere to go. */
  predicate Clear(c: Config, plan: ActionPlan, now: Aware)
  {
    plan.risk.Level() <= 3 ==>
      && c.issue(plan, now).Some? && Passes(c, plan, c.issue(plan, now).value, now)
      && !c.route(plan).Nowhere?
  }

  predicate Passes(c: Config, plan: ActionPlan, token: HarnessToken, now: Aware)
  {
    c.verify(token, plan, now) && (c.route(plan).Tool? && c.hasTools ==> plan.toolId in c.tools)
  }

  /** Nothing is in the way of the plans that are left. */
  predicate Going(c: Config, hd: Handler, now: Aware)
  {
    && !hd.pc.Failed?
    && (forall i {:trigger hd.plans[i]} :: Finished(hd) <= i < |hd.plans| ==> Clear(c, hd.plans[i], now))
    && (hd.pc.Sending? || hd.pc.Calling? ==> hd.pc.at < |hd.plans| && Passes(c, hd.plans[hd.pc.at], hd.pc.token, now))
  }

  /** What is left to do. */
  function Rank(c: Config, hd: Handler): nat
    requires Sound(c, hd)
  {
    match hd.pc
    case Asking => c.workers - |hd.outputs| + 4 * |hd.plans| + 1
    case Judging(at) => 4 * (|hd.plans| - at) + 1
    case Sending(at, _, _) => 4 * (|hd.plans| - at)
    case Calling(at, _) => 4 * (|hd.plans| - at)
    case Called(at) => 4 * (|hd.plans| - at) - 1
    case _ => 0
  }

  /** What the handler waits for. */
  function Awaited(h: nat, hd: Handler, now: Aware): Step
  {
    match hd.pc
    case Asking => WorkerReturns(h, [])
    case Judging(_) => Judge(h, now)
    case Called(_) => Return(h)
    case _ => Act(h, now, false)
  }

  lemma JudgeGoesOn(c: Config, h: nat, hd: Handler, now: Aware)
    requires Sound(c, hd) && Going(c, hd, now) && hd.pc.Judging?
    ensures var hd' := Judged(c, h, hd, now).0;
            Sound(c, hd') && Going(c, hd', now) && Rank(c, hd') < Rank(c, hd)
  {
    JudgedKeepsSound(c, h, hd, now);
    if hd.pc.at < |hd.plans| {
      TiersUpToThreeAreAuto(hd.plans[hd.pc.at].risk);
      assert Clear(c, hd.plans[hd.pc.at], now);
    }
  }

  lemma ActGoesOn(c: Config, h: nat, hd: Handler, now: Aware)
    requires Sound(c, hd) && Going(c, hd, now) && (hd.pc.Sending? || hd.pc.Calling?)
    ensures var hd' := Acted(c, h, hd, now, false).0;
            Sound(c, hd') && Going(c, hd', now) && Rank(c, hd') < Rank(c, hd)
  {
    ActedKeepsSound(c, h, hd, now, false);
  }

  lemma AwaitedGoesOn(c: Config, h: nat, hd: Handler, now: Aware)
    requires Sound(c, hd) && Going(c, hd, now) && !hd.pc.Ended?
    ensures var hd' := Advance(c, h, hd, Awaited(h, hd, now)).0;
            Sound(c, hd') && Going(c, hd', now) && Rank(c, hd') < Rank(c, hd)
  {
    match hd.pc
    case Asking => ExtendedIsSound(c, hd, []); AppendNothing(hd.plans);
    case Judging(_) => JudgeGoesOn(c, h, hd, now);
    case Called(_) => AdvanceKeepsSound(c, h, hd, Return(h));
    case _ => ActGoesOn(c, h, hd, now);
  }

  lemma RunSnoc(c: Config, steps: seq<Step>, step: Step)
    ensures Run(c, steps + [step]) == Next(c, Run(c, steps), step)
  {
    var all := steps + [step];
    assert all[..|all| - 1] == steps;
  }

  /** A step of handler h itself that does not raise. */
  predicate OwnStep(step: Step, h: nat, now: Aware)
  {
    step == WorkerReturns(h, []) || step == Judge(h, now) || step == Act(h, now, false) || step == Return(h)
  }

  lemma {:induction false} GoesOnToItsEnd(c: Config, steps: seq<Step>, h: nat, now: Aware) returns (more: seq<Step>)
    requires h < |Run(c, steps).handlers| && Going(c, Run(c, steps).handlers[h], now)
    requires Sound(c, Run(c, steps).handlers[h])
    ensures h < |Run(c, steps + more).handlers| && Run(c, steps + more).handlers[h].pc.Ended?
    ensures forall i {:trigger more[i]} :: 0 <= i < |more| ==> OwnStep(more[i], h, now)
    decreases Rank(c, Run(c, steps).handlers[h])
  {
    var hd := Run(c, steps).handlers[h];
    if hd.pc.Ended? {
      more := [];
      AppendNothing(steps);
    } else {
      var step := Awaited(h, hd, now);
      AwaitedGoesOn(c, h, hd, now);
      RunSnoc(c, steps, step);
      var rest := GoesOnToItsEnd(c, steps + [step], h, now);
      more := [step] + rest;
      Reassociate(steps, [step], rest);
    }
  }

  /** From every state of every run, a handler that no exception or cancellation has ended, and with nothing in the way
      of the plans it has left, can go on by its own steps alone to its end. */
  lemma {:induction false} ClearHandlersCanEnd(c: Config, steps: seq<Step>, h: nat, now: Aware)
    requires h < |Run(c, steps).handlers| && Going(c, Run(c, steps).handlers[h], now)
    ensures exists more: seq<Step> ::
              && (forall i {:trigger more[i]} :: 0 <= i < |more| ==> OwnStep(more[i], h, now))
              && h < |Run(c, steps + more).handlers| && Run(c, steps + more).handlers[h].pc.Ended?
  {
    PlansAreJudgedInOrder(c, steps, h);
    var more := GoesOnToItsEnd(c, steps, h, now);
  }
}
