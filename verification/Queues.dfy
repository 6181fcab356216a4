/** The two HITL queues of the evolution loop: the dict-based one and the one whose state is the proposal table. */
module Queues {
  import opened Prelude
  import opened Dicts
  import opened Proposals
  import opened ProposalTable

  // ---- operations and their effect --------------------------------------------------------

  datatype Op =
    | Enqueue(proposal: Proposal, reason: string)
    | Approve(id: string, reviewer: string)
    | Reject(id: string, reviewer: string, note: string)
  {
    function Target(): string { if Enqueue? then proposal.id else id }
  }

  datatype Item = Item(proposal: Proposal, reason: string, approvedBy: Option<string>, rejectedBy: Option<string>,
                       note: Option<string>)

  /** What a call answers. */
  datatype Answer<T> = Done | KeyError | Decided(value: T)

  /** `note or None` */
  function NoteOf(note: string): Option<string>
  {
    if note == "" then None else Some(note)
  }

  /** The proposal an approval or rejection leaves. */
  function Ruled(op: Op, p: Proposal): Proposal
    requires !op.Enqueue?
  {
    if op.Approve? then p.(status := HitlApproved, reviewer := Some(op.reviewer))
    else p.(status := Proposals.Rejected, reviewer := Some(op.reviewer), note := NoteOf(op.note))
  }

  /** The item an approval or rejection hands back. */
  function Marked(op: Op, item: Item): Item
    requires !op.Enqueue?
  {
    if op.Approve? then item.(approvedBy := Some(op.reviewer))
    else item.(rejectedBy := Some(op.reviewer), note := Some(op.note))
  }

  function Waiting(p: Proposal): Proposal
  {
    p.(status := HitlPending)
  }

  /** The row of an id, if it is pending. */
  function PendingAt(ps: seq<Proposal>, id: string): Option<Proposal>
  {
    match Lookup(ps, id)
    case Some(p) => if p.status == HitlPending then Some(p) else None
    case None => None
  }

  function TableAfter(ps: seq<Proposal>, op: Op): seq<Proposal>
  {
    if op.Enqueue? then Saved(ps, Waiting(op.proposal))
    else match PendingAt(ps, op.id)
         case None => ps
         case Some(p) => Saved(ps, Ruled(op, p))
  }

  function TableAnswer(ps: seq<Proposal>, op: Op): Answer<Proposal>
  {
    if op.Enqueue? then Done
    else match PendingAt(ps, op.id)
         case None => KeyError
         case Some(p) => Decided(Ruled(op, p))
  }

  function DictAfter(d: Dict<string, Item>, op: Op): Dict<string, Item>
  {
    if op.Enqueue? then Put(d, op.proposal.id, Item(op.proposal, op.reason, None, None, None)) else Pop(d, op.id)
  }

  function DictAnswer(d: Dict<string, Item>, op: Op): Answer<Item>
  {
    if op.Enqueue? then Done
    else match Get(d, op.id)
         case None => KeyError
         case Some(item) => Decided(Marked(op, item))
  }

  // ---- the two classes --------------------------------------------------------------------

  class PersistentHitlQueue {
    const store: ProposalStore

    constructor (store: ProposalStore)
      ensures this.store == store
    {
      this.store := store;
    }

    method Enqueue(proposal: Proposal, reason: string)
      requires store.Valid()
      modifies store
      ensures store.Valid() && store.proposals == TableAfter(old(store.proposals), Op.Enqueue(proposal, reason))
    {
      store.Save(proposal.(status := HitlPending));
    }

    method Pending() returns (r: seq<Proposal>)
      requires store.Valid()
      ensures r == ByStatus(store.proposals, HitlPending)
    {
      r := store.ListByStatus(HitlPending);
    }

    /** `None` is the KeyError. */
    method Approve(id: string, reviewer: string) returns (r: Option<Proposal>)
      requires store.Valid()
      modifies store
      ensures store.Valid() && store.proposals == TableAfter(old(store.proposals), Op.Approve(id, reviewer))
      ensures TableAnswer(old(store.proposals), Op.Approve(id, reviewer))
              == if r.None? then KeyError else Decided(r.value)
    {
      var current := store.Get(id);
      if current.None? || current.value.status != HitlPending { return None; }
      var updated := current.value.(status := HitlApproved, reviewer := Some(reviewer));
      store.Save(updated);
      r := Some(updated);
    }

    method Reject(id: string, reviewer: string, note: string) returns (r: Option<Proposal>)
      requires store.Valid()
      modifies store
      ensures store.Valid() && store.proposals == TableAfter(old(store.proposals), Op.Reject(id, reviewer, note))
      ensures TableAnswer(old(store.proposals), Op.Reject(id, reviewer, note))
              == if r.None? then KeyError else Decided(r.value)
    {
      var current := store.Get(id);
      if current.None? || current.value.status != HitlPending { return None; }
      var updated := current.value.(status := Proposals.Rejected, reviewer := Some(reviewer),
                                    note := if note != "" then Some(note) else None);
      store.Save(updated);
      r := Some(updated);
    }
  }

  function ProposalId(item: Item): string { item.proposal.id }

  class EvolutionHitlQueue {
    var waiting: Dict<string, Item>

    /** Every id once, and every item under its own. */
    ghost predicate Valid()
      reads this
    {
      Distinct(waiting) && KeyedBy(waiting, ProposalId)
    }

    constructor ()
      ensures Valid() && waiting == []
    {
      waiting := [];
    }

    method Enqueue(proposal: Proposal, reason: string)
      requires Valid()
      modifies this
      ensures Valid() && waiting == DictAfter(old(waiting), Op.Enqueue(proposal, reason))
    {
      PutDistinct(waiting, proposal.id, Item(proposal, reason, None, None, None));
      PutKeyed(waiting, Item(proposal, reason, None, None, None), ProposalId);
      waiting := Put(waiting, proposal.id, Item(proposal, reason, None, None, None));
    }

    /** Every waiting item once, each under the id of its proposal, the ids in the order of their first enqueue. */
    method Pending() returns (r: seq<Item>)
      requires Valid()
      ensures AnswersForAll(r, waiting, ProposalId)
    {
      r := Values(waiting);
      ValuesAnswer(waiting, ProposalId);
    }

    /** `None` is the KeyError of `dict.pop`. */
    method Approve(id: string, reviewer: string) returns (r: Option<Item>)
      requires Valid()
      modifies this
      ensures Valid() && waiting == DictAfter(old(waiting), Op.Approve(id, reviewer))
      ensures DictAnswer(old(waiting), Op.Approve(id, reviewer)) == if r.None? then KeyError else Decided(r.value)
    {
      r := Take(id);
      if r.Some? { r := Some(r.value.(approvedBy := Some(reviewer))); }
    }

    method Reject(id: string, reviewer: string, note: string) returns (r: Option<Item>)
      requires Valid()
      modifies this
      ensures Valid() && waiting == DictAfter(old(waiting), Op.Reject(id, reviewer, note))
      ensures DictAnswer(old(waiting), Op.Reject(id, reviewer, note)) == if r.None? then KeyError else Decided(r.value)
    {
      r := Take(id);
      if r.Some? { r := Some(r.value.(rejectedBy := Some(reviewer), note := Some(note))); }
    }

    /** `self._pending.pop(proposal_id)` */
    method Take(id: string) returns (r: Option<Item>)
      requires Valid()
      modifies this
      ensures Valid() && waiting == Pop(old(waiting), id) && r == Get(old(waiting), id)
    {
      r := Get(waiting, id);
      PopDistinct(waiting, id);
      PopKeyed(waiting, id, ProposalId);
      waiting := Pop(waiting, id);
    }
  }

  // ---- refinement -------------------------------------------------------------------------

  /** For every id the pending row, if any, is the waiting proposal with the pending status, and one is there exactly if
      the other is. */
  ghost predicate Same(ps: seq<Proposal>, d: Dict<string, Item>)
  {
    && Distinct(d)
    && forall id {:trigger Get(d, id)} ::
      PendingAt(ps, id) == match Get(d, id) { case None => None case Some(item) => Some(Waiting(item.proposal)) }
  }

  /** The two answers to one call: both KeyErrors, or both the same ruling on the same proposal. */
  predicate Agree(op: Op, a: Answer<Proposal>, b: Answer<Item>)
  {
    match (a, b)
    case (Done, Done) => true
    case (KeyError, KeyError) => true
    case (Decided(p), Decided(item)) =>
      !op.Enqueue? && p == Ruled(op, Waiting(item.proposal))
      && (op.Approve? ==> item.approvedBy == Some(op.reviewer))
      && (op.Reject? ==> item.rejectedBy == Some(op.reviewer) && item.note == Some(op.note))
    case _ => false
  }

  lemma StepsAgree(ps: seq<Proposal>, d: Dict<string, Item>, op: Op)
    requires Same(ps, d)
    ensures Agree(op, TableAnswer(ps, op), DictAnswer(d, op))
  {
    if !op.Enqueue? {
      assert Get(d, op.id).Some? ==> PendingAt(ps, op.id) == Some(Waiting(Get(d, op.id).value.proposal));
      assert Get(d, op.id).None? ==> PendingAt(ps, op.id) == None;
    }
  }

  lemma PendingAfter(ps: seq<Proposal>, op: Op, id: string)
    ensures PendingAt(TableAfter(ps, op), id)
         == if id != op.Target() then PendingAt(ps, id) else if op.Enqueue? then Some(Waiting(op.proposal)) else None
  {
    if op.Enqueue? {
      SaveThenGet(ps, Waiting(op.proposal), id);
    } else if PendingAt(ps, op.id).Some? {
      var p := PendingAt(ps, op.id).value;
      LookupMember(ps, op.id);
      SaveThenGet(ps, Ruled(op, p), id);
    }
  }

  lemma WaitingAfter(d: Dict<string, Item>, op: Op, id: string)
    requires Distinct(d)
    ensures Distinct(DictAfter(d, op))
    ensures Get(DictAfter(d, op), id)
         == if id != op.Target() then Get(d, id)
            else if op.Enqueue? then Some(Item(op.proposal, op.reason, None, None, None)) else None
  {
    if op.Enqueue? {
      PutDistinct(d, op.proposal.id, Item(op.proposal, op.reason, None, None, None));
      PutGet(d, op.proposal.id, Item(op.proposal, op.reason, None, None, None), id);
    } else {
      PopDistinct(d, op.id);
      PopGet(d, op.id, id);
    }
  }

  lemma SameAfter(ps: seq<Proposal>, d: Dict<string, Item>, op: Op)
    requires Same(ps, d)
    ensures Same(TableAfter(ps, op), DictAfter(d, op))
  {
    var ps', d' := TableAfter(ps, op), DictAfter(d, op);
    WaitingAfter(d, op, "");
    forall id {:trigger Get(d', id)}
      ensures PendingAt(ps', id)
              == match Get(d', id) { case None => None case Some(item) => Some(Waiting(item.proposal)) }
    {
      PendingAfter(ps, op, id);
      WaitingAfter(d, op, id);
      assert PendingAt(ps, id)
          == match Get(d, id) { case None => None case Some(item) => Some(Waiting(item.proposal)) };
    }
  }

  // ---- runs -------------------------------------------------------------------------------

  function TableRun(ps: seq<Proposal>, ops: seq<Op>): seq<Proposal>
  {
    if ops == [] then ps else TableAfter(TableRun(ps, ops[..|ops| - 1]), ops[|ops| - 1])
  }

  function DictRun(d: Dict<string, Item>, ops: seq<Op>): Dict<string, Item>
  {
    if ops == [] then d else DictAfter(DictRun(d, ops[..|ops| - 1]), ops[|ops| - 1])
  }

  predicate NothingPending(ps: seq<Proposal>)
  {
    forall p :: p in ps ==> p.status != HitlPending
  }

  lemma {:induction false} RunsStaySame(ps: seq<Proposal>, ops: seq<Op>)
    requires NothingPending(ps)
    ensures Same(TableRun(ps, ops), DictRun([], ops))
  {
    if ops == [] {
      forall id ensures PendingAt(ps, id) == None { LookupMember(ps, id); }
    } else {
      RunsStaySame(ps, ops[..|ops| - 1]);
      SameAfter(TableRun(ps, ops[..|ops| - 1]), DictRun([], ops[..|ops| - 1]), ops[|ops| - 1]);
    }
  }

  /** The table queue refines the dict queue: started without pending rows, after every run the same ids are pending in
      both, with the same proposals, and the next call gets the same answer from both. */
  lemma {:induction false} PersistentRefinesDict(ps: seq<Proposal>, ops: seq<Op>, next: Op)
    requires NothingPending(ps)
    ensures forall id :: PendingAt(TableRun(ps, ops), id).Some? <==> Has(DictRun([], ops), id)
    ensures forall id :: Has(DictRun([], ops), id) ==>
              PendingAt(TableRun(ps, ops), id).value == Waiting(Get(DictRun([], ops), id).value.proposal)
    ensures Agree(next, TableAnswer(TableRun(ps, ops), next), DictAnswer(DictRun([], ops), next))
  {
    RunsStaySame(ps, ops);
    StepsAgree(TableRun(ps, ops), DictRun([], ops), next);
    forall id ensures PendingAt(TableRun(ps, ops), id) == match Get(DictRun([], ops), id) {
                        case None => None case Some(item) => Some(Waiting(item.proposal)) }
    {
      assert Get(DictRun([], ops), id).Some? || Get(DictRun([], ops), id).None?;
    }
  }

  // ---- the order of pending() -------------------------------------------------------------

  function Ids(ps: seq<Proposal>): (r: seq<string>)
    ensures |r| == |ps| && forall i :: 0 <= i < |ps| ==> r[i] == ps[i].id
  {
    seq(|ps|, i requires 0 <= i < |ps| => ps[i].id)
  }

  /** The ids `pending()` lists, in its order. */
  function PendingIds(ps: seq<Proposal>): seq<string>
  {
    Ids(ByStatus(ps, HitlPending))
  }

  function Not(id: string): string -> bool { x => x != id }

  lemma IdsSnoc(ps: seq<Proposal>, p: Proposal)
    ensures Ids(ps + [p]) == Ids(ps) + [p.id]
  {}

  lemma PendingIdsSnoc(ps: seq<Proposal>, p: Proposal)
    ensures PendingIds(ps + [p]) == PendingIds(ps) + if p.status == HitlPending then [p.id] else []
  {
    FilterSnoc(ps, p, (q: Proposal) => q.status == HitlPending);
    IdsSnoc(ByStatus(ps, HitlPending), p);
    AppendNothing(ByStatus(ps, HitlPending));
    AppendNothing(PendingIds(ps));
  }

  lemma {:induction false} PendingIdsWithout(ps: seq<Proposal>, id: string)
    ensures PendingIds(Without(ps, id)) == Filter(PendingIds(ps), Not(id))
  {
    if ps != [] {
      var n := |ps| - 1;
      assert ps == ps[..n] + [ps[n]];
      PendingIdsWithout(ps[..n], id);
      PendingIdsSnoc(ps[..n], ps[n]);
      FilterSnoc(ps[..n], ps[n], (p: Proposal) => p.id != id);
      if ps[n].id != id { PendingIdsSnoc(Without(ps[..n], id), ps[n]); }
      if ps[n].status == HitlPending { FilterSnoc(PendingIds(ps[..n]), ps[n].id, Not(id)); }
      assert forall s: seq<string> :: s + [] == s;
      assert Without(ps[..n], id) + [] == Without(ps[..n], id);
    }
  }

  lemma PendingIdsAfter(ps: seq<Proposal>, p: Proposal)
    ensures PendingIds(Saved(ps, p)) == Filter(PendingIds(ps), Not(p.id))
            + if p.status == HitlPending then [p.id] else []
  {
    PendingIdsSnoc(Without(ps, p.id), p);
    PendingIdsWithout(ps, p.id);
  }

  lemma {:induction false} DropAbsent(keys: seq<string>, id: string)
    requires id !in keys
    ensures Filter(keys, Not(id)) == keys
  {
    if keys != [] {
      DropAbsent(keys[..|keys| - 1], id);
      assert keys == keys[..|keys| - 1] + [keys[|keys| - 1]];
    }
  }

  lemma {:induction false} KeysAfterPop(d: Dict<string, Item>, id: string)
    requires Distinct(d)
    ensures Keys(Pop(d, id)) == Filter(Keys(d), Not(id))
  {
    if d != [] {
      var rest := Keys(d[1..]);
      assert Keys(d) == [d[0].0] + rest;
      FilterAppend([d[0].0], rest, Not(id));
      FilterSnoc([], d[0].0, Not(id));
      assert [] + [d[0].0] == [d[0].0];
      if d[0].0 == id {
        HasKeys(d[1..], id);
        DropAbsent(rest, id);
      } else {
        KeysAfterPop(d[1..], id);
      }
    }
  }

  lemma LastDroppedAndAppended<T>(before: seq<T>, x: T, p: T -> bool)
    requires Filter(before, p) == before && !p(x)
    ensures Filter(before + [x], p) + [x] == before + [x]
  {
    FilterSnoc(before, x, p);
    assert before + [] == before;
  }

  lemma LastOfSnoc<T>(s: seq<T>, x: T, t: seq<T>)
    requires s + [x] == t
    ensures t[|t| - 1] == x
  {}

  /** Moving a key to the end leaves the order as it is exactly when the key was last. */
  lemma {:induction false} MovedToEndIffLast(keys: seq<string>, id: string)
    requires id in keys && forall i, j :: 0 <= i < j < |keys| ==> keys[i] != keys[j]
    ensures Filter(keys, Not(id)) + [id] == keys <==> keys[|keys| - 1] == id
  {
    var before, last := keys[..|keys| - 1], keys[|keys| - 1];
    if last == id {
      SplitLast(keys);
      DropAbsent(before, id);
      LastDroppedAndAppended(before, id, Not(id));
    } else if Filter(keys, Not(id)) + [id] == keys {
      LastOfSnoc(Filter(keys, Not(id)), id, keys);
      assert false;
    }
  }

  lemma SplitLast<T>(s: seq<T>)
    requires s != []
    ensures s == s[..|s| - 1] + [s[|s| - 1]]
  {}

  lemma {:induction false} DistinctKeys(d: Dict<string, Item>)
    requires Distinct(d)
    ensures forall i, j :: 0 <= i < j < |d| ==> Keys(d)[i] != Keys(d)[j]
  {
    if d != [] {
      DistinctKeys(d[1..]);
      HasKeys(d[1..], d[0].0);
      assert Keys(d) == [d[0].0] + Keys(d[1..]);
    }
  }

  /** The call enqueues an id that is still pending and is not the last one. */
  predicate Displaces(d: Dict<string, Item>, op: Op)
  {
    op.Enqueue? && Has(d, op.proposal.id) && d[|d| - 1].0 != op.proposal.id
  }

  lemma EnqueueKeepsOrderIffNotDisplaced(ps: seq<Proposal>, d: Dict<string, Item>, op: Op)
    requires op.Enqueue? && Same(ps, d) && Keys(d) == PendingIds(ps)
    ensures Keys(DictAfter(d, op)) == PendingIds(TableAfter(ps, op)) <==> !Displaces(d, op)
  {
    var id := op.proposal.id;
    PendingIdsAfter(ps, Waiting(op.proposal));
    PutKeys(d, id, Item(op.proposal, op.reason, None, None, None));
    HasKeys(d, id);
    if Has(d, id) {
      DistinctKeys(d);
      MovedToEndIffLast(Keys(d), id);
    } else {
      DropAbsent(Keys(d), id);
    }
  }

  lemma RulingKeepsOrder(ps: seq<Proposal>, d: Dict<string, Item>, op: Op)
    requires !op.Enqueue? && Same(ps, d) && Keys(d) == PendingIds(ps)
    ensures Keys(DictAfter(d, op)) == PendingIds(TableAfter(ps, op))
  {
    KeysAfterPop(d, op.id);
    assert Get(d, op.id).Some? || Get(d, op.id).None?;
    LookupMember(ps, op.id);
    if PendingAt(ps, op.id).Some? {
      PendingIdsAfter(ps, Ruled(op, PendingAt(ps, op.id).value));
      assert Filter(PendingIds(ps), Not(op.id)) + [] == Filter(PendingIds(ps), Not(op.id));
    } else {
      HasKeys(d, op.id);
      DropAbsent(Keys(d), op.id);
    }
  }

  /** After every call of the run both queues list the same ids in the same order. */
  predicate SameOrderThroughout(ps: seq<Proposal>, ops: seq<Op>)
  {
    && Keys(DictRun([], ops)) == PendingIds(TableRun(ps, ops))
    && (ops != [] ==> SameOrderThroughout(ps, ops[..|ops| - 1]))
  }

  predicate NeverDisplaces(ops: seq<Op>)
  {
    ops != [] ==> NeverDisplaces(ops[..|ops| - 1]) && !Displaces(DictRun([], ops[..|ops| - 1]), ops[|ops| - 1])
  }

  /** The two orders of `pending()` stay equal exactly as long as no call enqueues again an id that is still pending and
      is not the last of the queue. */
  lemma {:induction false} SameOrderIffNeverDisplaces(ps: seq<Proposal>, ops: seq<Op>)
    requires NothingPending(ps)
    ensures SameOrderThroughout(ps, ops) <==> NeverDisplaces(ops)
  {
    if ops == [] {
      PendingIdsOfNone(ps);
    } else {
      var before, op := ops[..|ops| - 1], ops[|ops| - 1];
      SameOrderIffNeverDisplaces(ps, before);
      if SameOrderThroughout(ps, before) {
        RunsStaySame(ps, before);
        var t, d := TableRun(ps, before), DictRun([], before);
        if op.Enqueue? { EnqueueKeepsOrderIffNotDisplaced(t, d, op); } else { RulingKeepsOrder(t, d, op); }
      }
    }
  }

  lemma {:induction false} PendingIdsOfNone(ps: seq<Proposal>)
    requires NothingPending(ps)
    ensures PendingIds(ps) == []
  {
    if ps != [] {
      var n := |ps| - 1;
      assert ps == ps[..n] + [ps[n]];
      PendingIdsOfNone(ps[..n]);
      PendingIdsSnoc(ps[..n], ps[n]);
    }
  }

  // ---- what a call leaves -----------------------------------------------------------------

  /** After an enqueue its proposal reads as pending, and every other proposal as before. */
  lemma EnqueueThenGet(ps: seq<Proposal>, p: Proposal, reason: string, q: string)
    ensures Lookup(TableAfter(ps, Op.Enqueue(p, reason)), q)
         == if q == p.id then Some(p.(status := HitlPending)) else Lookup(ps, q)
  {
    SaveThenGet(ps, Waiting(p), q);
  }

  /** In the dict an enqueued item waits with its reason and unmarked, a decided one is gone and handed back marked, and
      no other id changes. */
  lemma DictCallsThenGet(d: Dict<string, Item>, op: Op, q: string)
    requires Distinct(d)
    ensures Get(DictAfter(d, op), q)
         == if q != op.Target() then Get(d, q)
            else if op.Enqueue? then Some(Item(op.proposal, op.reason, None, None, None)) else None
    ensures op.Approve? && Get(d, op.id).Some? ==>
              DictAnswer(d, op) == Decided(Get(d, op.id).value.(approvedBy := Some(op.reviewer)))
    ensures op.Reject? && Get(d, op.id).Some? ==>
              DictAnswer(d, op) == Decided(Get(d, op.id).value.(rejectedBy := Some(op.reviewer), note := Some(op.note)))
  {
    if op.Enqueue? {
      PutGet(d, op.proposal.id, Item(op.proposal, op.reason, None, None, None), q);
    } else {
      PopGet(d, op.id, q);
    }
  }

  // ---- conservation of decisions ----------------------------------------------------------

  predicate DecidesOn(ps: seq<Proposal>, op: Op, id: string)
  {
    op.Target() == id && TableAnswer(ps, op).Decided?
  }

  /** The call enqueues an id that is still pending. */
  predicate Replaces(ps: seq<Proposal>, op: Op, id: string)
  {
    op.Enqueue? && op.Target() == id && PendingAt(ps, id).Some?
  }

  function Decisions(ps: seq<Proposal>, ops: seq<Op>, id: string): nat
  {
    if ops == [] then 0
    else Decisions(ps, ops[..|ops| - 1], id)
         + if DecidesOn(TableRun(ps, ops[..|ops| - 1]), ops[|ops| - 1], id) then 1 else 0
  }

  function Replacements(ps: seq<Proposal>, ops: seq<Op>, id: string): nat
  {
    if ops == [] then 0
    else Replacements(ps, ops[..|ops| - 1], id)
         + if Replaces(TableRun(ps, ops[..|ops| - 1]), ops[|ops| - 1], id) then 1 else 0
  }

  predicate Enqueues(op: Op, id: string) { op.Enqueue? && op.proposal.id == id }

  function PendingNow(ps: seq<Proposal>, id: string): nat { if PendingAt(ps, id).Some? then 1 else 0 }

  /** Every enqueue of an id is decided once, or replaced by a later enqueue, or still pending: decisions never
      outnumber enqueues. */
  lemma {:induction false} DecisionsAreConserved(ps: seq<Proposal>, ops: seq<Op>, id: string)
    ensures Decisions(ps, ops, id) + Replacements(ps, ops, id) + PendingNow(TableRun(ps, ops), id)
         == Count(ops, (op: Op) => Enqueues(op, id)) + PendingNow(ps, id)
  {
    if ops != [] {
      var before, op := ops[..|ops| - 1], ops[|ops| - 1];
      DecisionsAreConserved(ps, before, id);
      PendingAfter(TableRun(ps, before), op, id);
    }
  }

  /** After a decision every further decision on that id fails until the id is enqueued again. */
  lemma {:induction false} NoSecondDecision(ps: seq<Proposal>, first: Op, ops: seq<Op>, second: Op)
    requires DecidesOn(ps, first, first.Target()) && !second.Enqueue? && second.Target() == first.Target()
    requires forall i :: 0 <= i < |ops| ==> !Enqueues(ops[i], first.Target())
    ensures TableAnswer(TableRun(TableAfter(ps, first), ops), second) == KeyError
  {
    var id := first.Target();
    if ops == [] {
      PendingAfter(ps, first, id);
    } else {
      var before, op := ops[..|ops| - 1], ops[|ops| - 1];
      NoSecondDecision(ps, first, before, second);
      PendingAfter(TableRun(TableAfter(ps, first), before), op, id);
      assert !Enqueues(op, id);
    }
  }

  lemma {:induction false} WithoutTwice(ps: seq<Proposal>, id: string)
    ensures Without(Without(ps, id), id) == Without(ps, id)
  {
    if ps != [] {
      var n := |ps| - 1;
      WithoutTwice(ps[..n], id);
      FilterSnoc(Without(ps[..n], id), ps[n], (p: Proposal) => p.id != id);
      assert Without(ps[..n], id) + [] == Without(ps[..n], id);
    }
  }

  /** A decision changes the status, the reviewer and, if it is a rejection, the note of its one row, and moves that row
      to the end; a failed one changes nothing. */
  lemma {:induction false} DecisionTouchesOneRow(ps: seq<Proposal>, op: Op)
    requires !op.Enqueue?
    ensures TableAnswer(ps, op) == KeyError ==> TableAfter(ps, op) == ps
    ensures TableAnswer(ps, op).Decided? ==>
              var ruled := TableAnswer(ps, op).value;
              && Lookup(ps, op.id).Some? && Lookup(ps, op.id).value.status == HitlPending
              && ruled == Lookup(ps, op.id).value.(status := if op.Approve? then HitlApproved else Proposals.Rejected,
                                                   reviewer := Some(op.reviewer), note := ruled.note)
              && ruled.note == (if op.Approve? then Lookup(ps, op.id).value.note
                             else if op.note == "" then None else Some(op.note))
              && TableAfter(ps, op) == Without(ps, op.id) + [ruled]
              && Without(TableAfter(ps, op), op.id) == Without(ps, op.id)
  {
    LookupMember(ps, op.id);
    if TableAnswer(ps, op).Decided? {
      var ruled := TableAnswer(ps, op).value;
      FilterSnoc(Without(ps, op.id), ruled, (p: Proposal) => p.id != op.id);
      WithoutTwice(ps, op.id);
      assert Without(ps, op.id) + [] == Without(ps, op.id);
    }
  }
}
