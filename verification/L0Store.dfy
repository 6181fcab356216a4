/** The append-only event log: rows of text in SQLite, events for its callers. */
module L0Store {
  import opened Prelude
  import opened Json
  import opened JsonRoundTrip
  import opened Timestamps
  import opened Sorting

  type Payload = j: Json | j.JObj? && j.WellFormed() witness JObj([])

  datatype L0Event = L0Event(conversation: string, kind: string, payload: Payload, ts: Stamp)

  /** A row of `l0_events`; the rows are held in `id` order. */
  datatype Row = Row(conversation: string, kind: string, payloadJson: string, ts: string)

  function Encode(e: L0Event): Row
  {
    Row(e.conversation, e.kind, Dumps(e.payload, UNICODE), IsoFormat(e.ts))
  }

  function Decode(r: Row): Option<L0Event>
  {
    var payload :- Loads(r.payloadJson);
    var ts :- FromIsoFormat(r.ts);
    if payload.JObj? && payload.WellFormed() then Some(L0Event(r.conversation, r.kind, payload, ts)) else None
  }

  lemma {:induction false} DecodeEncode(e: L0Event)
    ensures Decode(Encode(e)) == Some(e)
  {
    LoadsDumps(e.payload, UNICODE);
    FromIsoFormatIsoFormat(e.ts);
  }

  /** The text an event is sorted by. */
  function TsText(e: L0Event): string { IsoFormat(e.ts) }

  /** `ORDER BY ts ASC LIMIT ?` over the events that satisfy a condition. */
  function Select(events: seq<L0Event>, p: L0Event -> bool, limit: int): seq<L0Event>
  {
    Limit(SortBy(Filter(events, p), TsText), limit)
  }

  function Listing(events: seq<L0Event>, conversation: string, limit: int): seq<L0Event>
  {
    Select(events, (e: L0Event) => e.conversation == conversation, limit)
  }

  /** The rows stand for the events, one for one. */
  predicate Encoded(rows: seq<Row>, events: seq<L0Event>)
  {
    Image(events, rows, Encode)
  }

  function RowTs(r: Row): string { r.ts }

  /** The rows a query returns are the encodings of the events `Select` names. */
  lemma RowsOfSelect(rows: seq<Row>, events: seq<L0Event>, q: Row -> bool, p: L0Event -> bool, limit: int)
    requires Encoded(rows, events)
    requires forall e: L0Event :: q(Encode(e)) == p(e)
    ensures Encoded(Limit(SortBy(Filter(rows, q), RowTs), limit), Select(events, p, limit))
  {
    ImageFilter(events, rows, Encode, p, q);
    ImageSort(Filter(events, p), Filter(rows, q), Encode, TsText, RowTs);
    var s, t := SortBy(Filter(events, p), TsText), SortBy(Filter(rows, q), RowTs);
    var n := if limit < 0 || limit > |s| then |s| else limit;
    ImageSlice(s, t, Encode, 0, n);
    assert Limit(s, limit) == s[0..n] && Limit(t, limit) == t[0..n];
  }

  class L0RawEventStore {
    var rows: seq<Row>
    /** The events the rows stand for. */
    ghost var events: seq<L0Event>

    ghost predicate Valid()
      reads this
    {
      Encoded(rows, events)
    }

    constructor ()
      ensures Valid() && events == []
    {
      rows, events := [], [];
    }

    method Append(event: L0Event)
      requires Valid()
      modifies this
      ensures Valid() && events == old(events) + [event]
    {
      rows := rows + [Row(event.conversation, event.kind, Dumps(event.payload, UNICODE), IsoFormat(event.ts))];
      events := events + [event];
    }

    method List(conversation: string, limit: int) returns (r: seq<L0Event>)
      requires Valid()
      ensures r == Listing(events, conversation, limit)
    {
      var q := (row: Row) => row.conversation == conversation;
      var fetched := Limit(SortBy(Filter(rows, q), RowTs), limit);
      RowsOfSelect(rows, events, q, (e: L0Event) => e.conversation == conversation, limit);
      r := DecodeAll(fetched, Listing(events, conversation, limit));
    }

    method ListByKinds(conversation: string, kinds: seq<string>, limit: int) returns (r: seq<L0Event>)
      requires Valid()
      ensures r == Select(events, (e: L0Event) => e.conversation == conversation && e.kind in kinds, limit)
    {
      var q := (row: Row) => row.conversation == conversation && row.kind in kinds;
      ghost var p := (e: L0Event) => e.conversation == conversation && e.kind in kinds;
      var fetched := Limit(SortBy(Filter(rows, q), RowTs), limit);
      RowsOfSelect(rows, events, q, p, limit);
      r := DecodeAll(fetched, Select(events, p, limit));
    }
  }

  /** The loop that turns fetched rows back into events. */
  method DecodeAll(fetched: seq<Row>, ghost expected: seq<L0Event>) returns (r: seq<L0Event>)
    requires Encoded(fetched, expected)
    ensures r == expected
  {
    r := [];
    for i := 0 to |fetched|
      invariant r == expected[..i]
    {
      var event := DecodeAt(fetched, i, expected);
      r := r + [event];
    }
  }

  method DecodeAt(fetched: seq<Row>, i: nat, ghost expected: seq<L0Event>) returns (r: L0Event)
    requires i < |fetched| && Encoded(fetched, expected)
    ensures r == expected[i]
  {
    DecodeEncode(expected[i]);
    r := Decode(fetched[i]).value;
  }

  // ---- what a listing is ------------------------------------------------------------------

  lemma ListingLength(events: seq<L0Event>, conversation: string, limit: int)
    ensures var n := Count(events, (e: L0Event) => e.conversation == conversation);
            |Listing(events, conversation, limit)| == if limit < 0 || limit > n then n else limit
  {
    var p := (e: L0Event) => e.conversation == conversation;
    CountIsFilterLength(events, p);
    SortBySorts(Filter(events, p), TsText);
  }

  /** Listing some kinds is listing the conversation and then keeping those kinds. */
  lemma {:induction false} KindsOfListing(events: seq<L0Event>, conversation: string, kinds: seq<string>, limit: int)
    ensures Select(events, (e: L0Event) => e.conversation == conversation && e.kind in kinds, limit)
         == Limit(Filter(Listing(events, conversation, -1), (e: L0Event) => e.kind in kinds), limit)
  {
    var p, k := (e: L0Event) => e.conversation == conversation, (e: L0Event) => e.kind in kinds;
    FilterCommutesWithSort(Filter(events, p), TsText, k);
    FilterTwice(events, p, k, (e: L0Event) => e.conversation == conversation && e.kind in kinds);
  }

  function AtStamp(events: seq<L0Event>, ts: Stamp): seq<L0Event>
  {
    Filter(events, (e: L0Event) => e.ts == ts)
  }

  /** The events stand in time order. */
  predicate InTime(r: seq<L0Event>)
  {
    forall i, j :: 0 <= i < j < |r| ==> Instant(r[i].ts) <= Instant(r[j].ts)
  }

  lemma MembersPass<T>(s: seq<T>, p: T -> bool, r: seq<T>)
    requires multiset(r) == multiset(Filter(s, p))
    ensures forall x :: x in r ==> x in s && p(x)
  {
    FilterMembers(s, p);
    forall x | x in r ensures x in s && p(x) {
      assert x in multiset(r);
      assert x in Filter(s, p);
    }
  }

  lemma SortedOfOneOffset(r: seq<L0Event>, offset: Option<int>)
    requires SortedBy(r, TsText) && forall e :: e in r ==> e.ts.offset == offset
    ensures InTime(r)
  {
    forall i, j | 0 <= i < j < |r| ensures Instant(r[i].ts) <= Instant(r[j].ts) {
      assert r[i] in r && r[j] in r;
      TextOrderIsTimeOrder(r[j].ts, r[i].ts);
      assert !TextLess(TsText(r[j]), TsText(r[i]));
    }
  }

  /** The listing of a conversation whose stamps share an offset runs forward in time, holds exactly the
      conversation's events, and events with equal stamps keep the order they were appended in. */
  lemma {:induction false} ListingIsChronological(events: seq<L0Event>, conversation: string, offset: Option<int>)
    requires forall e :: e in events && e.conversation == conversation ==> e.ts.offset == offset
    ensures var r := Listing(events, conversation, -1);
            && multiset(r) == multiset(Filter(events, (e: L0Event) => e.conversation == conversation))
            && InTime(r)
            && forall ts: Stamp ::
                 AtStamp(r, ts) == AtStamp(Filter(events, (e: L0Event) => e.conversation == conversation), ts)
  {
    var p := (e: L0Event) => e.conversation == conversation;
    var own := Filter(events, p);
    var r := Listing(events, conversation, -1);
    SortBySorts(own, TsText);
    MembersPass(events, p, r);
    SortedOfOneOffset(r, offset);
    forall ts: Stamp ensures AtStamp(r, ts) == AtStamp(own, ts) {
      EqualStampsKeepOrder(own, ts);
    }
  }

  /** No two of the events sort against time. */
  predicate NoneReversed(events: seq<L0Event>)
  {
    forall i, j {:trigger NeverReversed(events[i].ts, events[j].ts)} :: 0 <= i < |events| && 0 <= j < |events| ==>
      NeverReversed(events[i].ts, events[j].ts)
  }

  /** The full listing of a conversation runs forward in time if and only if no two of its stamps sort against time. */
  lemma {:induction false} ListingIsChronologicalIff(events: seq<L0Event>, conversation: string)
    ensures InTime(Listing(events, conversation, -1))
       <==> NoneReversed(Filter(events, (e: L0Event) => e.conversation == conversation))
  {
    var own := Filter(events, (e: L0Event) => e.conversation == conversation);
    SortBySorts(own, TsText);
    SortedIsInTimeIff(own, SortBy(own, TsText));
  }

  lemma SortedIsInTimeIff(own: seq<L0Event>, r: seq<L0Event>)
    requires SortedBy(r, TsText) && multiset(r) == multiset(own)
    ensures InTime(r) <==> NoneReversed(own)
  {
    if NoneReversed(own) {
      forall i, j | 0 <= i < j < |r| ensures Instant(r[i].ts) <= Instant(r[j].ts) {
        var a := IndexIn(r, own, i);
        var b := IndexIn(r, own, j);
        assert NeverReversed(own[a].ts, own[b].ts);
        SortedPairIsInTime(r, i, j);
      }
    }
    if InTime(r) {
      forall i, j | 0 <= i < |own| && 0 <= j < |own| ensures NeverReversed(own[i].ts, own[j].ts) {
        var a := IndexIn(own, r, i);
        var b := IndexIn(own, r, j);
        InTimeIsNeverReversed(r, a, b);
      }
    }
  }

  /** Where an element of one list stands in another with the same elements. */
  lemma IndexIn<T>(s: seq<T>, t: seq<T>, i: nat) returns (j: nat)
    requires i < |s| && multiset(s) == multiset(t)
    ensures j < |t| && t[j] == s[i]
  {
    assert s[i] in multiset(s);
    assert s[i] in t;
    j :| j < |t| && t[j] == s[i];
  }

  lemma SortedPairIsInTime(r: seq<L0Event>, i: nat, j: nat)
    requires SortedBy(r, TsText) && i < j < |r| && NeverReversed(r[i].ts, r[j].ts)
    ensures Instant(r[i].ts) <= Instant(r[j].ts)
  {
    SortsInTimeIff(r[i].ts, r[j].ts);
    TextLessTotal(TsText(r[i]), TsText(r[j]));
    assert !TextLess(TsText(r[j]), TsText(r[i]));
    FromIsoFormatIsoFormat(r[i].ts);
    FromIsoFormatIsoFormat(r[j].ts);
  }

  lemma InTimeIsNeverReversed(r: seq<L0Event>, i: nat, j: nat)
    requires SortedBy(r, TsText) && InTime(r) && i < |r| && j < |r|
    ensures NeverReversed(r[i].ts, r[j].ts)
  {
    SortsInTimeIff(r[i].ts, r[j].ts);
    TextLessIrreflexive(TsText(r[i]));
    assert j < i ==> !TextLess(TsText(r[i]), TsText(r[j]));
  }

  lemma EqualStampsKeepOrder(own: seq<L0Event>, ts: Stamp)
    ensures AtStamp(SortBy(own, TsText), ts) == AtStamp(own, ts)
  {
    var q := (e: L0Event) => e.ts == ts;
    FilterCommutesWithSort(own, TsText, q);
    var f := Filter(own, q);
    FilterMembers(own, q);
    forall i, j | 0 <= i < j < |f| ensures !TextLess(TsText(f[j]), TsText(f[i])) {
      assert q(f[i]) && q(f[j]);
      TextLessIrreflexive(IsoFormat(ts));
    }
    SortOfSorted(f, TsText);
  }
}
