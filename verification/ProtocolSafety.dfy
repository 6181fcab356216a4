/** What holds after every sequence of steps of the protocol. */
module ProtocolSafety {
  import opened Prelude
  import opened Timestamps
  import opened Token
  import opened Protocol
  import Json
  import Queries

  // ---- lists of at most two events --------------------------------------------------------

  function One(b: bool): nat { if b then 1 else 0 }

  lemma CountUpToTwo<T>(s: seq<T>, p: T -> bool)
    requires |s| <= 2
    ensures Count(s, p) == One(|s| > 0 && p(s[0])) + One(|s| > 1 && p(s[1]))
  {
    if |s| == 1 {
      assert s[..0] == [];
    } else if |s| == 2 {
      assert s[..1][..0] == [] && s[..1][0] == s[0];
    }
  }

  // ---- a handler by itself ----------------------------------------------------------------

  /** How many of its plans the handler has had judged. */
  function JudgedCount(hd: Handler): nat
  {
    match hd.pc
    case Asking => 0
    case Judging(at) => at
    case Sending(at, _, _) => at + 1
    case Calling(at, _) => at + 1
    case Called(at) => at + 1
    case Ended => |hd.plans|
    case Failed(judged, _) => judged
  }

  predicate Sound(c: Config, hd: Handler)
  {
    && hd.plans == Concat(hd.outputs)
    && JudgedCount(hd) <= |hd.plans|
    && (hd.pc.Asking? ==> |hd.outputs| < c.workers)
    && (!hd.pc.Asking? && !hd.pc.Failed? ==> |hd.outputs| == c.workers)
    && (hd.pc.Failed? && hd.pc.inCall ==> hd.pc.judged > 0)
    && (hd.pc.Sending? ==> c.route(hd.plans[hd.pc.at]) == Channel(hd.pc.verifies))
    && (hd.pc.Calling? || hd.pc.Called? ==> c.route(hd.plans[hd.pc.at]) == Tool && c.hasTools)
  }

  lemma FreshIsSound(c: Config, conversation: string)
    ensures Sound(c, Fresh(c, conversation)) && JudgedCount(Fresh(c, conversation)) == 0
  {}

  lemma JudgedKeepsSound(c: Config, h: nat, hd: Handler, now: Aware)
    requires Sound(c, hd) && hd.pc.Judging?
    ensures Sound(c, Judged(c, h, hd, now).0)
  {}

  lemma ActedKeepsSound(c: Config, h: nat, hd: Handler, now: Aware, raises: bool)
    requires Sound(c, hd) && (hd.pc.Sending? || hd.pc.Calling?) && hd.pc.at < |hd.plans|
    ensures Sound(c, Acted(c, h, hd, now, raises).0)
  {}

  lemma ExtendedIsSound(c: Config, hd: Handler, output: seq<ActionPlan>)
    requires Sound(c, hd) && hd.pc.Asking?
    ensures Sound(c, Extended(c, hd, output))
  {
    Queries.ConcatSnoc(hd.outputs, output);
  }

  lemma AbortedIsSound(c: Config, hd: Handler)
    requires Sound(c, hd)
    ensures Sound(c, Aborted(hd))
  {}

  lemma AdvanceKeepsSound(c: Config, h: nat, hd: Handler, step: Step)
    requires Sound(c, hd)
    ensures Sound(c, Advance(c, h, hd, step).0)
  {
    match step
    case WorkerReturns(_, output) => if hd.pc.Asking? { ExtendedIsSound(c, hd, output); }
    case Judge(_, now) => if hd.pc.Judging? { JudgedKeepsSound(c, h, hd, now); }
    case Act(_, now, raises) =>
      if (hd.pc.Sending? || hd.pc.Calling?) && hd.pc.at < |hd.plans| { ActedKeepsSound(c, h, hd, now, raises); }
    case Abort(_) => AbortedIsSound(c, hd);
    case _ =>
  }

  /** The plans of the audit entries one handler has caused, in order. */
  function JudgedPlans(history: seq<Event>, h: nat): seq<ActionPlan>
  {
    if history == [] then []
    else
      var e := history[|history| - 1];
      JudgedPlans(history[..|history| - 1], h) + if e.Audited? && e.handler == h then [e.plan] else []
  }

  lemma {:induction false} JudgedPlansAppend(a: seq<Event>, b: seq<Event>, h: nat)
    ensures JudgedPlans(a + b, h) == JudgedPlans(a, h) + JudgedPlans(b, h)
  {
    if b == [] {
      assert a + b == a;
    } else {
      var n := |b| - 1;
      JudgedPlansAppend(a, b[..n], h);
      assert (a + b)[..|a + b| - 1] == a + b[..n];
    }
  }

  /** What a handler's step adds: nothing, one event, or an audit entry and a tool call, all its own. */
  predicate StepEvents(h: nat, conversation: string, more: seq<Event>)
  {
    && |more| <= 2
    && (|more| > 0 ==> match more[0] {
          case Audited(handler, _, _, _) => handler == h
          case Effect(handler, _, _, _) => handler == h && |more| == 1
          case ToolResult(handler, conv, _) => handler == h && conv == conversation && |more| == 1
          case _ => false })
    && (|more| > 1 ==> more[1].ToolCall? && more[1].handler == h && more[1].conversation == conversation)
  }

  lemma AdvanceEvents(c: Config, h: nat, hd: Handler, step: Step)
    ensures StepEvents(h, hd.conversation, Advance(c, h, hd, step).1)
    ensures Advance(c, h, hd, step).0.conversation == hd.conversation
  {}

  lemma JudgedPlansOfStep(h: nat, conversation: string, more: seq<Event>, h': nat)
    requires StepEvents(h, conversation, more)
    ensures JudgedPlans(more, h') == if |more| > 0 && more[0].Audited? && h == h' then [more[0].plan] else []
  {
    if |more| == 1 {
      assert more[..0] == [];
    } else if |more| == 2 {
      assert more[..1][..0] == [] && more[..1][0] == more[0];
    }
  }

  /** From hd to hd' the next plan was judged if `more` starts with an audit entry, and no plan otherwise. */
  predicate Judges(hd: Handler, hd': Handler, more: seq<Event>)
  {
    var n := JudgedCount(hd);
    && n <= |hd.plans| <= |hd'.plans| && hd'.plans[..n] == hd.plans[..n]
    && (if |more| > 0 && more[0].Audited?
        then JudgedCount(hd') == n + 1 && n < |hd'.plans| && more[0].plan == hd'.plans[n]
        else JudgedCount(hd') == n)
  }

  lemma JudgedJudges(c: Config, h: nat, hd: Handler, now: Aware)
    requires Sound(c, hd) && hd.pc.Judging?
    ensures var r := Judged(c, h, hd, now); Judges(hd, r.0, r.1)
  {}

  lemma ActedJudges(c: Config, h: nat, hd: Handler, now: Aware, raises: bool)
    requires Sound(c, hd) && (hd.pc.Sending? || hd.pc.Calling?) && hd.pc.at < |hd.plans|
    ensures var r := Acted(c, h, hd, now, raises); Judges(hd, r.0, r.1)
  {}

  /** A step judges the next plan exactly when it adds an audit entry, and then that plan's. */
  lemma AdvanceJudges(c: Config, h: nat, hd: Handler, step: Step)
    requires Sound(c, hd)
    ensures var r := Advance(c, h, hd, step); Judges(hd, r.0, r.1)
  {
    match step
    case Judge(_, now) => if hd.pc.Judging? { JudgedJudges(c, h, hd, now); }
    case Act(_, now, raises) =>
      if (hd.pc.Sending? || hd.pc.Calling?) && hd.pc.at < |hd.plans| { ActedJudges(c, h, hd, now, raises); }
    case _ =>
  }

  // ---- every plan is judged once, in order ------------------------------------------------

  /** Handler i has had exactly the first plans of its workers judged, in order. */
  predicate InOrder(c: Config, s: State, i: nat)
  {
    if i < |s.handlers| then
      && Sound(c, s.handlers[i])
      && JudgedPlans(s.history, i) == s.handlers[i].plans[..JudgedCount(s.handlers[i])]
    else JudgedPlans(s.history, i) == []
  }

  lemma QuietEventsJudgeNothing(history: seq<Event>, more: seq<Event>, h: nat)
    requires |more| <= 1 && (|more| > 0 ==> !more[0].Audited?)
    ensures JudgedPlans(history + more, h) == JudgedPlans(history, h)
  {
    JudgedPlansAppend(history, more, h);
    if |more| == 1 { assert more[..0] == []; }
    assert JudgedPlans(history, h) + [] == JudgedPlans(history, h);
  }

  lemma AdvanceKeepsOrder(c: Config, history: seq<Event>, h: nat, hd: Handler, step: Step)
    requires Sound(c, hd) && JudgedPlans(history, h) == hd.plans[..JudgedCount(hd)]
    ensures var (hd', more) := Advance(c, h, hd, step);
            Sound(c, hd') && JudgedPlans(history + more, h) == hd'.plans[..JudgedCount(hd')]
  {
    var (hd', more) := Advance(c, h, hd, step);
    AdvanceKeepsSound(c, h, hd, step);
    AdvanceEvents(c, h, hd, step);
    AdvanceJudges(c, h, hd, step);
    JudgedStaysInOrder(history, more, h, hd, hd');
  }

  lemma JudgedStaysInOrder(history: seq<Event>, more: seq<Event>, h: nat, hd: Handler, hd': Handler)
    requires StepEvents(h, hd.conversation, more) && Judges(hd, hd', more) && JudgedCount(hd') <= |hd'.plans|
    requires JudgedPlans(history, h) == hd.plans[..JudgedCount(hd)]
    ensures JudgedPlans(history + more, h) == hd'.plans[..JudgedCount(hd')]
  {
    JudgedPlansAppend(history, more, h);
    JudgedPlansOfStep(h, hd.conversation, more, h);
    PrefixGrows(hd'.plans, JudgedCount(hd));
  }

  lemma PrefixGrows<T>(s: seq<T>, n: nat)
    requires n <= |s|
    ensures n < |s| ==> s[..n + 1] == s[..n] + [s[n]]
    ensures s[..n] + [] == s[..n]
  {}

  lemma OthersKeepOrder(c: Config, history: seq<Event>, h: nat, hd: Handler, step: Step, i: nat)
    requires i != h
    ensures JudgedPlans(history + Advance(c, h, hd, step).1, i) == JudgedPlans(history, i)
  {
    var more := Advance(c, h, hd, step).1;
    AdvanceEvents(c, h, hd, step);
    JudgedPlansAppend(history, more, i);
    JudgedPlansOfStep(h, hd.conversation, more, i);
    assert JudgedPlans(history, i) + [] == JudgedPlans(history, i);
  }

  lemma NextKeepsOrder(c: Config, s: State, step: Step, i: nat)
    requires InOrder(c, s, i)
    ensures InOrder(c, Next(c, s, step), i)
  {
    match step
    case Receive(conversation) =>
      FreshIsSound(c, conversation);
      QuietEventsJudgeNothing(s.history, if c.hasMemory then [Inbound(conversation)] else [], i);
    case CloseSession(conversation) => QuietEventsJudgeNothing(s.history, [Closed(conversation)], i);
    case Review(_) =>
    case _ =>
      if step.h < |s.handlers| {
        if i == step.h {
          AdvanceKeepsOrder(c, s.history, i, s.handlers[i], step);
        } else {
          OthersKeepOrder(c, s.history, step.h, s.handlers[step.h], step, i);
        }
      }
  }

  /** In every run, the plans a handler has had judged are a prefix of its workers' outputs one after another: each
      judged once and in order, and all of them if the handler ended normally. */
  lemma {:induction false} PlansAreJudgedInOrder(c: Config, steps: seq<Step>, i: nat)
    ensures InOrder(c, Run(c, steps), i)
    ensures var s := Run(c, steps);
            i < |s.handlers| ==>
              && JudgedPlans(s.history, i) <= Concat(s.handlers[i].outputs)
              && (s.handlers[i].pc.Ended? ==>
                    |s.handlers[i].outputs| == c.workers && JudgedPlans(s.history, i) == Concat(s.handlers[i].outputs))
  {
    if steps != [] {
      PlansAreJudgedInOrder(c, steps[..|steps| - 1], i);
      NextKeepsOrder(c, Run(c, steps[..|steps| - 1]), steps[|steps| - 1], i);
    }
  }

  // ---- no effect without an earlier approval ----------------------------------------------

  /** The effect went where the plan is routed: to a tool there is, or to a channel; and it was verified unless it went
      through an adapter that does not verify. */
  predicate Routed(c: Config, plan: ActionPlan, verified: bool)
  {
    match c.route(plan)
    case Tool => c.hasTools && plan.toolId in c.tools && verified
    case Channel(verifies) => verified == verifies
    case Nowhere => false
  }

  /** Entry `a` is the guard's approval under which effect `e` took place. */
  predicate Approves(c: Config, a: Event, e: Event)
  {
    && a.Audited? && e.Effect? && a.handler == e.handler && a.plan == e.plan
    && a.decision.AutoApproved? && a.plan.risk.Auto() && Routed(c, a.plan, e.verified)
    && (e.verified ==> c.issue(a.plan, a.issued).Some? && c.verify(c.issue(a.plan, a.issued).value, a.plan, e.now))
  }

  /** Entry `a` approved this plan of handler h with this token. */
  predicate Grants(c: Config, a: Event, h: nat, plan: ActionPlan, token: HarnessToken)
  {
    && a.Audited? && a.handler == h && a.plan == plan && a.decision.AutoApproved? && plan.risk.Auto()
    && c.issue(plan, a.issued) == Some(token)
  }

  predicate Approved(c: Config, history: seq<Event>, k: nat)
    requires k < |history|
  {
    history[k].Effect? ==> exists j {:trigger history[j]} :: 0 <= j < k && Approves(c, history[j], history[k])
  }

  predicate AllApproved(c: Config, history: seq<Event>)
  {
    forall k {:trigger Approved(c, history, k)} :: 0 <= k < |history| ==> Approved(c, history, k)
  }

  /** The handler holds a token it has not used. */
  predicate Holds(hd: Handler)
  {
    (hd.pc.Sending? || hd.pc.Calling?) && hd.pc.at < |hd.plans|
  }

  predicate Granted(c: Config, history: seq<Event>, h: nat, hd: Handler)
  {
    Holds(hd) ==> exists j {:trigger history[j]} ::
      0 <= j < |history| && Grants(c, history[j], h, hd.plans[hd.pc.at], hd.pc.token)
  }

  predicate AllGranted(c: Config, s: State)
  {
    forall i {:trigger s.handlers[i]} :: 0 <= i < |s.handlers| ==> Granted(c, s.history, i, s.handlers[i])
  }

  /** A step that has an effect uses the handler's token, and a step that leaves a token has just got it. */
  lemma AdvanceUsesToken(c: Config, h: nat, hd: Handler, step: Step)
    requires Sound(c, hd)
    ensures var (hd', more) := Advance(c, h, hd, step);
            && (forall k {:trigger more[k]} :: 0 <= k < |more| && more[k].Effect? ==>
                  Holds(hd) && |more| == 1 && more[k].handler == h && more[k].plan == hd.plans[hd.pc.at]
                  && Routed(c, more[k].plan, more[k].verified)
                  && (more[k].verified ==> c.verify(hd.pc.token, more[k].plan, more[k].now)))
            && (Holds(hd') ==> hd' == hd || (more != [] && Grants(c, more[0], h, hd'.plans[hd'.pc.at], hd'.pc.token)))
  {}

  lemma HistoryGrows(c: Config, history: seq<Event>, more: seq<Event>, k: nat)
    requires k < |history| && Approved(c, history, k)
    ensures Approved(c, history + more, k)
  {
    var all := history + more;
    if history[k].Effect? {
      var j :| 0 <= j < k && Approves(c, history[j], history[k]);
      assert all[j] == history[j] && all[k] == history[k];
    }
  }

  lemma GrantStays(c: Config, history: seq<Event>, more: seq<Event>, h: nat, hd: Handler)
    requires Granted(c, history, h, hd)
    ensures Granted(c, history + more, h, hd)
  {
    if Holds(hd) {
      var j :| 0 <= j < |history| && Grants(c, history[j], h, hd.plans[hd.pc.at], hd.pc.token);
      assert (history + more)[j] == history[j];
    }
  }

  lemma NoEffectsKeepApproved(c: Config, history: seq<Event>, more: seq<Event>)
    requires AllApproved(c, history) && forall k {:trigger more[k]} :: 0 <= k < |more| ==> !more[k].Effect?
    ensures AllApproved(c, history + more)
  {
    var all := history + more;
    forall k {:trigger Approved(c, all, k)} | 0 <= k < |all| ensures Approved(c, all, k) {
      if k < |history| { HistoryGrows(c, history, more, k); } else { assert all[k] == more[k - |history|]; }
    }
  }

  lemma EffectIsApproved(c: Config, history: seq<Event>, h: nat, hd: Handler, e: Event)
    requires AllApproved(c, history) && Holds(hd) && Granted(c, history, h, hd)
    requires e.Effect? && e.handler == h && e.plan == hd.plans[hd.pc.at] && Routed(c, e.plan, e.verified)
    requires e.verified ==> c.verify(hd.pc.token, e.plan, e.now)
    ensures AllApproved(c, history + [e])
  {
    var all, n := history + [e], |history|;
    var j :| 0 <= j < n && Grants(c, history[j], h, hd.plans[hd.pc.at], hd.pc.token);
    assert all[n] == e && all[j] == history[j];
    assert Approves(c, all[j], all[n]);
    forall k {:trigger Approved(c, all, k)} | 0 <= k < |all| ensures Approved(c, all, k) {
      if k < n { HistoryGrows(c, history, [e], k); }
    }
  }

  lemma AdvanceKeepsApproved(c: Config, history: seq<Event>, h: nat, hd: Handler, step: Step)
    requires Sound(c, hd) && AllApproved(c, history) && Granted(c, history, h, hd)
    ensures var (hd', more) := Advance(c, h, hd, step);
            AllApproved(c, history + more) && Granted(c, history + more, h, hd')
  {
    var (hd', more) := Advance(c, h, hd, step);
    AdvanceUsesToken(c, h, hd, step);
    if k :| 0 <= k < |more| && more[k].Effect? {
      EffectIsApproved(c, history, h, hd, more[k]);
      assert more == [more[k]];
    } else {
      NoEffectsKeepApproved(c, history, more);
    }
    GrantStays(c, history, more, h, hd);
    if Holds(hd') && hd' != hd { assert (history + more)[|history|] == more[0]; }
  }

  lemma OthersStayGranted(c: Config, s: State, more: seq<Event>)
    requires AllGranted(c, s)
    ensures forall i {:trigger s.handlers[i]} :: 0 <= i < |s.handlers| ==>
            Granted(c, s.history + more, i, s.handlers[i])
  {
    forall i {:trigger s.handlers[i]} | 0 <= i < |s.handlers| ensures Granted(c, s.history + more, i, s.handlers[i]) {
      GrantStays(c, s.history, more, i, s.handlers[i]);
    }
  }

  lemma NextKeepsApproved(c: Config, s: State, step: Step)
    requires AllApproved(c, s.history) && AllGranted(c, s) && forall i: nat :: InOrder(c, s, i)
    ensures AllApproved(c, Next(c, s, step).history) && AllGranted(c, Next(c, s, step))
  {
    match step
    case Receive(conversation) =>
      var more := if c.hasMemory then [Inbound(conversation)] else [];
      NoEffectsKeepApproved(c, s.history, more);
      OthersStayGranted(c, s, more);
    case CloseSession(conversation) =>
      NoEffectsKeepApproved(c, s.history, [Closed(conversation)]);
      OthersStayGranted(c, s, [Closed(conversation)]);
    case Review(_) =>
    case _ =>
      if step.h < |s.handlers| {
        assert InOrder(c, s, step.h);
        AdvanceKeepsApproved(c, s.history, step.h, s.handlers[step.h], step);
        OthersStayGranted(c, s, Advance(c, step.h, s.handlers[step.h], step).1);
      }
  }

  lemma {:induction false} RunKeepsApproved(c: Config, steps: seq<Step>)
    ensures AllApproved(c, Run(c, steps).history) && AllGranted(c, Run(c, steps))
  {
    if steps != [] {
      var before := steps[..|steps| - 1];
      RunKeepsApproved(c, before);
      forall i: nat ensures InOrder(c, Run(c, before), i) { PlansAreJudgedInOrder(c, before, i); }
      NextKeepsApproved(c, Run(c, before), steps[|steps| - 1]);
    }
  }

  /** In every run, every tool execution and every send was approved before it happened: the audit log holds an
      `auto_approved` entry of the same handler for the same plan, of tier ORANGE_B or less. It went where the plan is
      routed, and behind a valid token unless the adapter there does not verify. */
  lemma EveryEffectWasApproved(c: Config, steps: seq<Step>, k: nat)
    requires k < |Run(c, steps).history| && Run(c, steps).history[k].Effect?
    ensures exists j :: 0 <= j < k && Approves(c, Run(c, steps).history[j], Run(c, steps).history[k])
    ensures Run(c, steps).history[k].plan.risk.Level() <= OrangeB.Level()
  {
    RunKeepsApproved(c, steps);
    assert Approved(c, Run(c, steps).history, k);
  }

  /** With the program's own tokens, an effect behind a token check comes before the expiry of its approval. */
  lemma {:induction false} VerifiedEffectsComeInTime(workers: nat, hasMemory: bool, hasTools: bool,
      tools: set<string>, channels: map<string, bool>, repr: Json.Json -> string, secret: string, ttl: int,
      crypto: Crypto, a: Event, e: Event)
    requires Approves(Harness(workers, hasMemory, hasTools, tools, channels, repr, secret, ttl, crypto), a, e)
             && e.verified
    ensures Instant(e.now) < Instant(a.issued) + ttl * 1_000_000
  {
    IssuedTokenVerifies(secret, ttl, a.plan.actionId, a.plan.args, a.issued, a.plan.actionId, e.now, crypto);
  }
}
