/** ActionGuard and the in-process HITL queue it fills. */
module Guard {
  import opened Prelude
  import opened Dicts
  import opened Timestamps
  import opened Token
  import opened AuditLogs
  import opened Outside

  datatype HitlItem = HitlItem(plan: ActionPlan, reason: string, approvedBy: Option<string>,
                               rejectedBy: Option<string>, note: Option<string>)

  function ActionId(item: HitlItem): string { item.plan.actionId }

  class HitlQueue {
    var waiting: Dict<string, HitlItem>

    /** Every id once, and every item under its own. */
    ghost predicate Valid()
      reads this
    {
      Distinct(waiting) && KeyedBy(waiting, ActionId)
    }

    constructor ()
      ensures Valid() && waiting == []
    {
      waiting := [];
    }

    method Enqueue(plan: ActionPlan, reason: string)
      requires Valid()
      modifies this
      ensures Valid() && waiting == Put(old(waiting), plan.actionId, HitlItem(plan, reason, None, None, None))
      ensures Keys(waiting) == if Has(old(waiting), plan.actionId) then Keys(old(waiting))
                               else Keys(old(waiting)) + [plan.actionId]
      ensures Get(waiting, plan.actionId) == Some(HitlItem(plan, reason, None, None, None))
      ensures forall k :: k != plan.actionId ==> Get(waiting, k) == Get(old(waiting), k)
    {
      PutDistinct(waiting, plan.actionId, HitlItem(plan, reason, None, None, None));
      PutKeys(waiting, plan.actionId, HitlItem(plan, reason, None, None, None));
      PutKeyed(waiting, HitlItem(plan, reason, None, None, None), ActionId);
      forall k
        ensures Get(Put(waiting, plan.actionId, HitlItem(plan, reason, None, None, None)), k)
                == if k == plan.actionId then Some(HitlItem(plan, reason, None, None, None)) else Get(waiting, k)
      {
        PutGet(waiting, plan.actionId, HitlItem(plan, reason, None, None, None), k);
      }
      waiting := Put(waiting, plan.actionId, HitlItem(plan, reason, None, None, None));
    }

    /** Every waiting item once, each under its own action id, the ids in the order of their first enqueue. */
    method Pending() returns (r: seq<HitlItem>)
      requires Valid()
      ensures AnswersForAll(r, waiting, ActionId)
    {
      r := Values(waiting);
      ValuesAnswer(waiting, ActionId);
    }

    /** `None` is the KeyError of an id that is not waiting. */
    method Approve(actionId: string, reviewer: string) returns (r: Option<HitlItem>)
      requires Valid()
      modifies this
      ensures Valid() && waiting == Pop(old(waiting), actionId)
      ensures r == (match Get(old(waiting), actionId)
                    case None => None
                    case Some(item) => Some(item.(approvedBy := Some(reviewer))))
      ensures forall k :: Get(waiting, k) == if k == actionId then None else Get(old(waiting), k)
    {
      r := Take(actionId);
      if r.Some? { r := Some(r.value.(approvedBy := Some(reviewer))); }
    }

    method Reject(actionId: string, reviewer: string, note: string) returns (r: Option<HitlItem>)
      requires Valid()
      modifies this
      ensures Valid() && waiting == Pop(old(waiting), actionId)
      ensures r == (match Get(old(waiting), actionId)
                    case None => None
                    case Some(item) => Some(item.(rejectedBy := Some(reviewer), note := Some(note))))
      ensures forall k :: Get(waiting, k) == if k == actionId then None else Get(old(waiting), k)
    {
      r := Take(actionId);
      if r.Some? { r := Some(r.value.(rejectedBy := Some(reviewer), note := Some(note))); }
    }

    /** `self._pending.pop(action_id)` */
    method Take(actionId: string) returns (r: Option<HitlItem>)
      requires Valid()
      modifies this
      ensures Valid() && waiting == Pop(old(waiting), actionId) && r == Get(old(waiting), actionId)
      ensures forall k :: Get(waiting, k) == if k == actionId then None else Get(old(waiting), k)
    {
      r := Get(waiting, actionId);
      PopDistinct(waiting, actionId);
      PopKeyed(waiting, actionId, ActionId);
      forall k ensures Get(Pop(waiting, actionId), k) == if k == actionId then None else Get(waiting, k) {
        PopGet(waiting, actionId, k);
      }
      waiting := Pop(waiting, actionId);
    }
  }

  datatype Decision = AutoApproved | HitlQueued
  {
    function Text(): string { if AutoApproved? then "auto_approved" else "hitl_queued" }
  }

  /** The entry records the judgement of this plan: tiers up to ORANGE_B (3) are approved, the two above wait. */
  predicate Judges(e: AuditEntry, plan: ActionPlan)
  {
    && e.actionId == plan.actionId && e.toolId == plan.toolId && e.tier == plan.risk && e.actor == "action_guard"
    && e.decision == if plan.risk.Level() <= 3 then "auto_approved" else "hitl_queued"
  }

  /** One entry for each plan, in order. */
  predicate Audited(entries: seq<AuditEntry>, plans: seq<ActionPlan>)
  {
    Matched(entries, plans, Judges)
  }

  function WithDecision(decision: string): AuditEntry -> bool
  {
    (e: AuditEntry) => Query(None, Some(decision), None, None).Matches(e)
  }

  /** Of the entries of judged plans, the filter `hitl_queued` selects those of tier ORANGE_C and RED, in order, and the
      filter `auto_approved` those of the tiers below. */
  lemma DecisionFiltersSplitByTier(entries: seq<AuditEntry>, plans: seq<ActionPlan>)
    requires Audited(entries, plans)
    ensures Audited(Filter(entries, WithDecision("hitl_queued")), Filter(plans, (p: ActionPlan) => p.risk.Level() >= 4))
    ensures Audited(Filter(entries, WithDecision("auto_approved")),
                    Filter(plans, (p: ActionPlan) => p.risk.Level() < 4))
  {
    var waits, runs := (p: ActionPlan) => p.risk.Level() >= 4, (p: ActionPlan) => p.risk.Level() < 4;
    forall e, plan | Judges(e, plan)
      ensures WithDecision("hitl_queued")(e) == waits(plan) && WithDecision("auto_approved")(e) == runs(plan)
    {
      EntryIsOnOneSide(e, plan);
    }
    FiltersMatch(entries, plans, Judges, WithDecision("hitl_queued"), waits);
    FiltersMatch(entries, plans, Judges, WithDecision("auto_approved"), runs);
  }

  lemma EntryIsOnOneSide(e: AuditEntry, plan: ActionPlan)
    requires Judges(e, plan)
    ensures WithDecision("hitl_queued")(e) <==> plan.risk.Level() >= 4
    ensures WithDecision("auto_approved")(e) <==> plan.risk.Level() < 4
  {
    assert "hitl_queued"[0] != "auto_approved"[0];
  }

  /** What the guard notes on a plan of this tier. */
  function Reason(tier: RiskTier): string
  {
    "tier=" + tier.Name() + if tier.Level() <= 3 then " is auto-approved" else " queued for human review"
  }

  datatype GuardOutcome = GuardOutcome(decision: Decision, token: Option<HarnessToken>, reason: string)

  /** The token the guard issues for a plan is good for that plan exactly until it expires. */
  lemma OwnTokenVerifies(secret: string, ttl: int, plan: ActionPlan, now: Aware, crypto: Crypto)
    requires Issue(secret, ttl, plan.actionId, plan.args, now, crypto).Some?
    ensures var token := Issue(secret, ttl, plan.actionId, plan.args, now, crypto).value;
            forall t: Aware :: Verify(token, plan.actionId, None, t, crypto) == Verified
                          <==> Instant(t) < Instant(now) + ttl * 1_000_000
  {
    forall t: Aware
      ensures Verify(Issue(secret, ttl, plan.actionId, plan.args, now, crypto).value, plan.actionId, None, t, crypto)
              == Verified
         <==> Instant(t) < Instant(now) + ttl * 1_000_000
    {
      IssuedTokenVerifies(secret, ttl, plan.actionId, plan.args, now, plan.actionId, t, crypto);
    }
  }

  class ActionGuard {
    const secret: string
    const ttl: int
    const crypto: Crypto
    const log: AuditLog
    const hitl: HitlQueue
    const world: World

    constructor (secret: string, ttl: int, crypto: Crypto, log: AuditLog, hitl: HitlQueue, world: World)
      ensures this.secret == secret && this.ttl == ttl && this.crypto == crypto
      ensures this.log == log && this.hitl == hitl && this.world == world
    {
      this.secret, this.ttl, this.crypto := secret, ttl, crypto;
      this.log, this.hitl, this.world := log, hitl, world;
    }

    /** `None` is the OverflowError of an expiry no `datetime` can hold. Otherwise exactly one audit entry is
        written, and the plan either leaves with a token of its own or waits in the queue, never both. */
    method Evaluate(plan: ActionPlan) returns (r: Option<GuardOutcome>)
      requires log.Valid() && hitl.Valid()
      modifies log, hitl, world`ticks
      ensures log.Valid() && hitl.Valid()
      ensures r.None? ==> plan.risk.Level() <= 3 && log.entries == old(log.entries) && hitl.waiting == old(hitl.waiting)
      ensures r.Some? ==>
                && |log.entries| > 0
                && (var e := log.entries[|log.entries| - 1];
                    && log.entries == old(log.entries) + [e]
                    && Judges(e, plan) && e.note == Some(r.value.reason))
                && r.value.reason == Reason(plan.risk)
                && r.value.decision.AutoApproved? == r.value.token.Some? == (plan.risk.Level() <= 3)
      ensures r.Some? && plan.risk.Level() <= 3 ==>
                && hitl.waiting == old(hitl.waiting)
                && forall now: Aware :: Verify(r.value.token.value, plan.actionId, None, now, crypto) == Verified
                                   <==> Instant(now) < Instant(world.times(old(world.ticks))) + ttl * 1_000_000
      ensures r.Some? && plan.risk.Level() > 3 ==>
                && Get(hitl.waiting, plan.actionId)
                   == Some(HitlItem(plan, "tier=" + plan.risk.Name() + " requires HITL approval", None, None, None))
                && forall k :: k != plan.actionId ==> Get(hitl.waiting, k) == Get(old(hitl.waiting), k)
    {
      var tier := plan.risk;
      var outcome: GuardOutcome;
      if tier.Auto() {
        var now := world.Now();
        var token := Issue(secret, ttl, plan.actionId, plan.args, now, crypto);
        if token.None? { return None; }
        OwnTokenVerifies(secret, ttl, plan, now, crypto);
        outcome := GuardOutcome(AutoApproved, token, "tier=" + tier.Name() + " is auto-approved");
      } else {
        hitl.Enqueue(plan, "tier=" + tier.Name() + " requires HITL approval");
        outcome := GuardOutcome(HitlQueued, None, "tier=" + tier.Name() + " queued for human review");
      }
      Record(plan, outcome);
      r := Some(outcome);
    }

    method Record(plan: ActionPlan, outcome: GuardOutcome)
      requires log.Valid() && outcome.decision.AutoApproved? == (plan.risk.Level() <= 3)
      modifies log, world`ticks
      ensures log.Valid() && |log.entries| > 0
      ensures var e := log.entries[|log.entries| - 1];
              log.entries == old(log.entries) + [e] && Judges(e, plan) && e.note == Some(outcome.reason)
    {
      var ts := world.Now();
      log.Append(AuditEntry(plan.actionId, plan.toolId, plan.risk, outcome.decision.Text(), "action_guard", ts,
                            Some(outcome.reason)));
    }
  }
}
