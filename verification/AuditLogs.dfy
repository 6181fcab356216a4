/** The append-only audit log: newest-first pages over optional filters. */
module AuditLogs {
  import opened Prelude
  import opened Queries
  import opened Timestamps
  import opened Token

  datatype AuditEntry = AuditEntry(actionId: string, toolId: string, tier: RiskTier, decision: string,
                                   actor: string, ts: Aware, note: Option<string>)

  datatype AuditRow = AuditRow(actionId: string, toolId: string, tier: int, decision: string,
                               actor: string, ts: string, note: Option<string>)

  function EncodeEntry(e: AuditEntry): AuditRow
  {
    AuditRow(e.actionId, e.toolId, e.tier.Level(), e.decision, e.actor, IsoFormat(e.ts), e.note)
  }

  function TierOf(n: int): Option<RiskTier>
  {
    match n
    case 0 => Some(Green) case 1 => Some(Yellow) case 2 => Some(OrangeA)
    case 3 => Some(OrangeB) case 4 => Some(OrangeC) case 5 => Some(Red) case _ => None
  }

  function DecodeEntry(r: AuditRow): Option<AuditEntry>
  {
    var tier :- TierOf(r.tier);
    var ts :- FromIsoFormat(r.ts);
    if ts.offset.Some? then Some(AuditEntry(r.actionId, r.toolId, tier, r.decision, r.actor, ts, r.note)) else None
  }

  lemma TierReadsBack(t: RiskTier)
    ensures TierOf(t.Level()) == Some(t)
  {}

  lemma DecodeEncodeEntry(e: AuditEntry)
    ensures DecodeEntry(EncodeEntry(e)) == Some(e)
  {
    TierReadsBack(e.tier);
    FromIsoFormatIsoFormat(e.ts);
    var r := EncodeEntry(e);
    assert TierOf(r.tier) == Some(e.tier);
    assert FromIsoFormat(r.ts) == Some(e.ts);
  }

  /** The filters of `list`; an absent one lets everything through. */
  datatype Query = Query(actor: Option<string>, decision: Option<string>, since: Option<Stamp>, until: Option<Stamp>)
  {
    predicate Matches(e: AuditEntry)
    {
      && (actor.Some? ==> e.actor == actor.value)
      && (decision.Some? ==> e.decision == decision.value)
      && (since.Some? ==> !TextLess(IsoFormat(e.ts), IsoFormat(since.value)))
      && (until.Some? ==> !TextLess(IsoFormat(until.value), IsoFormat(e.ts)))
    }

    predicate MatchesRow(r: AuditRow)
    {
      && (actor.Some? ==> r.actor == actor.value)
      && (decision.Some? ==> r.decision == decision.value)
      && (since.Some? ==> !TextLess(r.ts, IsoFormat(since.value)))
      && (until.Some? ==> !TextLess(IsoFormat(until.value), r.ts))
    }
  }

  /** Every matching entry, newest first. */
  function Matching(entries: seq<AuditEntry>, q: Query): seq<AuditEntry>
  {
    Reverse(Filter(entries, (e: AuditEntry) => q.Matches(e)))
  }

  /** The rows stand for the entries, one for one. */
  predicate Encoded(rows: seq<AuditRow>, entries: seq<AuditEntry>)
  {
    Image(entries, rows, EncodeEntry)
  }

  lemma EncodedPage(rows: seq<AuditRow>, entries: seq<AuditEntry>, limit: int, offset: int)
    requires Encoded(rows, entries)
    ensures Encoded(Page(Reverse(rows), limit, offset), Page(Reverse(entries), limit, offset))
  {
    ImagePage(entries, rows, EncodeEntry, limit, offset);
  }

  /** The `WHERE` of a query: one clause for every filter that is given, joined by AND. */
  method Where(q: Query) returns (clauses: seq<AuditRow -> bool>)
    ensures forall r :: All(clauses, r) <==> q.MatchesRow(r)
  {
    clauses := [];
    if q.actor.Some? { clauses := AddClause(clauses, (row: AuditRow) => row.actor == q.actor.value); }
    assert forall r :: All(clauses, r) <==> (q.actor.Some? ==> r.actor == q.actor.value);
    if q.decision.Some? { clauses := AddClause(clauses, (row: AuditRow) => row.decision == q.decision.value); }
    assert forall r :: All(clauses, r) <==> (q.actor.Some? ==> r.actor == q.actor.value)
                                            && (q.decision.Some? ==> r.decision == q.decision.value);
    if q.since.Some? {
      var since := IsoFormat(q.since.value);
      clauses := AddClause(clauses, (row: AuditRow) => !TextLess(row.ts, since));
    }
    assert forall r :: All(clauses, r) <==> q.(until := None).MatchesRow(r);
    if q.until.Some? {
      var until := IsoFormat(q.until.value);
      clauses := AddClause(clauses, (row: AuditRow) => !TextLess(until, row.ts));
    }
  }

  lemma SelectedRows(rows: seq<AuditRow>, entries: seq<AuditEntry>, clauses: seq<AuditRow -> bool>, q: Query)
    requires Encoded(rows, entries)
    requires forall r :: All(clauses, r) <==> q.MatchesRow(r)
    ensures Encoded(Filter(rows, (r: AuditRow) => All(clauses, r)), Filter(entries, (e: AuditEntry) => q.Matches(e)))
  {
    forall e: AuditEntry ensures All(clauses, EncodeEntry(e)) == q.Matches(e) { RowMatches(e, q); }
    ImageFilter(entries, rows, EncodeEntry, (e: AuditEntry) => q.Matches(e), (r: AuditRow) => All(clauses, r));
  }

  lemma RowMatches(e: AuditEntry, q: Query)
    ensures q.MatchesRow(EncodeEntry(e)) == q.Matches(e)
  {}

  class AuditLog {
    var rows: seq<AuditRow>
    /** The entries the rows stand for, oldest first. */
    ghost var entries: seq<AuditEntry>

    ghost predicate Valid()
      reads this
    {
      Encoded(rows, entries)
    }

    constructor ()
      ensures Valid() && entries == []
    {
      rows, entries := [], [];
    }

    method Append(entry: AuditEntry)
      requires Valid()
      modifies this
      ensures Valid() && entries == old(entries) + [entry]
    {
      rows := rows + [AuditRow(entry.actionId, entry.toolId, entry.tier.Level(), entry.decision, entry.actor,
                               IsoFormat(entry.ts), entry.note)];
      entries := entries + [entry];
    }

    method List(q: Query, limit: int, offset: int) returns (r: seq<AuditEntry>)
      requires Valid()
      ensures r == Page(Matching(entries, q), limit, offset)
    {
      var clauses := Where(q);
      SelectedRows(rows, entries, clauses, q);
      var fetched := Page(Reverse(Filter(rows, (r: AuditRow) => All(clauses, r))), limit, offset);
      EncodedPage(Filter(rows, (r: AuditRow) => All(clauses, r)), Filter(entries, (e: AuditEntry) => q.Matches(e)),
                  limit, offset);
      r := DecodeAll(fetched, Page(Matching(entries, q), limit, offset));
    }

    method Count(actor: Option<string>, decision: Option<string>) returns (n: int)
      requires Valid()
      ensures n == |Matching(entries, Query(actor, decision, None, None))|
    {
      var q := Query(actor, decision, None, None);
      var clauses := Where(q);
      SelectedRows(rows, entries, clauses, q);
      n := Prelude.Count(rows, (r: AuditRow) => All(clauses, r));
      CountIsFilterLength(rows, (r: AuditRow) => All(clauses, r));
    }
  }

  method DecodeAll(fetched: seq<AuditRow>, ghost expected: seq<AuditEntry>) returns (r: seq<AuditEntry>)
    requires Encoded(fetched, expected)
    ensures r == expected
  {
    r := [];
    for i := 0 to |fetched|
      invariant r == expected[..i]
    {
      var entry := DecodeAt(fetched, i, expected);
      r := r + [entry];
    }
  }

  method DecodeAt(fetched: seq<AuditRow>, i: nat, ghost expected: seq<AuditEntry>) returns (r: AuditEntry)
    requires i < |fetched| && Encoded(fetched, expected)
    ensures r == expected[i]
  {
    DecodeEncodeEntry(expected[i]);
    r := DecodeEntry(fetched[i]).value;
  }

  // ---- filters, pages and times ---------------------------------------------------------------------

  /** Every filter given selects by its own column, one after another; one that is not given lets everything through. */
  lemma AuditFiltersCompose(entries: seq<AuditEntry>, actor: string, decision: string, since: Option<Stamp>,
                            until: Option<Stamp>)
    ensures Matching(entries, Query(None, None, None, None)) == Reverse(entries)
    ensures Matching(entries, Query(Some(actor), None, since, until))
         == Reverse(Filter(Filter(entries, (e: AuditEntry) => Query(None, None, since, until).Matches(e)),
                           (e: AuditEntry) => e.actor == actor))
    ensures Matching(entries, Query(Some(actor), Some(decision), since, until))
         == Reverse(Filter(Filter(entries, (e: AuditEntry) => Query(Some(actor), None, since, until).Matches(e)),
                           (e: AuditEntry) => e.decision == decision))
  {
    FilterAll(entries, (e: AuditEntry) => Query(None, None, None, None).Matches(e));
    FilterTwice(entries, (e: AuditEntry) => Query(None, None, since, until).Matches(e),
                (e: AuditEntry) => e.actor == actor,
                (e: AuditEntry) => Query(Some(actor), None, since, until).Matches(e));
    FilterTwice(entries, (e: AuditEntry) => Query(Some(actor), None, since, until).Matches(e),
                (e: AuditEntry) => e.decision == decision,
                (e: AuditEntry) => Query(Some(actor), Some(decision), since, until).Matches(e));
  }

  /** With both bounds an entry is selected exactly if each bound alone selects it. */
  lemma BoundsCompose(e: AuditEntry, since: Stamp, until: Stamp)
    ensures Query(None, None, Some(since), Some(until)).Matches(e)
       <==> Query(None, None, Some(since), None).Matches(e) && Query(None, None, None, Some(until)).Matches(e)
  {}

  /** Appending entries of which k match moves every page back by exactly k. */
  lemma AppendShiftsPages(entries: seq<AuditEntry>, more: seq<AuditEntry>, q: Query, limit: int, offset: nat)
    ensures var k := |Matching(more, q)|;
            && k == Prelude.Count(more, (e: AuditEntry) => q.Matches(e))
            && Page(Matching(entries + more, q), limit, offset + k) == Page(Matching(entries, q), limit, offset)
  {
    var p := (e: AuditEntry) => q.Matches(e);
    CountIsFilterLength(more, p);
    FilterAppend(entries, more, p);
    ReverseAppend(Filter(entries, p), Filter(more, p));
    PageAfterPrefix(Matching(more, q), Matching(entries, q), limit, offset);
  }

  /** A bound, naive or of any offset, selects an entry by time exactly if the two agree: the entry's stamp before
      `since` would sort before it exactly if it were earlier, and likewise `until` before the entry's. A naive bound of
      the entry's own clock reading is the exception to look out for: as `since` it lets an entry in UTC through, as
      `until` it does not. */
  lemma TimeFiltersAgreeIff(e: AuditEntry, bound: Stamp)
    ensures (Query(None, None, Some(bound), None).Matches(e) <==> Instant(bound) <= Instant(e.ts))
            <==> Agrees(e.ts, bound)
    ensures (Query(None, None, None, Some(bound)).Matches(e) <==> Instant(e.ts) <= Instant(bound))
            <==> Agrees(bound, e.ts)
  {
    TextAgreesWithTimeIff(e.ts, bound);
    TextAgreesWithTimeIff(bound, e.ts);
  }

  lemma NaiveBoundsAtTheEntry(e: AuditEntry, bound: Stamp)
    requires bound.offset == None && e.ts.offset == Some(0) && Local(bound) == Local(e.ts)
    ensures Query(None, None, Some(bound), None).Matches(e) && !Query(None, None, None, Some(bound)).Matches(e)
  {
    TimeFiltersAgreeIff(e, bound);
  }
}
