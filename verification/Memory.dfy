/** The three memory layers and the facade the orchestrator uses. */
module Memory {
  import opened Prelude
  import opened Dicts
  import opened Json
  import opened Timestamps
  import opened L0Store

  datatype ContentPart = ContentPart(kind: string, text: Option<string>)

  datatype InboundMessage = InboundMessage(channel: string, conversation: string, customer: string,
                                           content: seq<ContentPart>, ts: Stamp)

  function Join(sep: string, parts: seq<string>): string
  {
    if parts == [] then ""
    else if |parts| == 1 then parts[0]
    else Join(sep, parts[..|parts| - 1]) + sep + parts[|parts| - 1]
  }

  /** Every part of a joined text but the first stands behind the separator. */
  lemma {:induction false} JoinFromFront(sep: string, first: string, rest: seq<string>)
    ensures Join(sep, [first] + rest) == if rest == [] then first else first + sep + Join(sep, rest)
  {
    var all := [first] + rest;
    if |rest| == 1 {
      assert all[..1] == [first];
    } else if |rest| > 1 {
      var n := |rest| - 1;
      JoinFromFront(sep, first, rest[..n]);
      assert all[..|all| - 1] == [first] + rest[..n];
    }
  }

  /** `part.text or ""` */
  function Texts(parts: seq<ContentPart>): seq<string>
  {
    seq(|parts|, i requires 0 <= i < |parts| => if parts[i].text.Some? then parts[i].text.value else "")
  }

  /** `text_concat`: the non-empty text parts, one a line. */
  function TextConcat(m: InboundMessage): string
  {
    var parts := Filter(m.content, (p: ContentPart) => p.kind == "text" && p.text.Some? && p.text.value != "");
    Join("\n", Texts(parts))
  }

  predicate IsSpace(c: char)
  {
    var n := c as int;
    9 <= n <= 13 || 28 <= n <= 32 || n == 0x85 || n == 0xa0 || n == 0x1680 || 0x2000 <= n <= 0x200a
    || n == 0x2028 || n == 0x2029 || n == 0x202f || n == 0x205f || n == 0x3000
  }

  function LStrip(s: string): string { if s != "" && IsSpace(s[0]) then LStrip(s[1..]) else s }

  /** `s.strip()` */
  function Strip(s: string): string
  {
    if s != "" && IsSpace(s[|s| - 1]) then Strip(s[..|s| - 1]) else LStrip(s)
  }

  predicate AllSpace(s: string) { forall c :: c in s ==> IsSpace(c) }

  lemma {:induction false} LStripDropsSpace(s: string) returns (before: string)
    ensures s == before + LStrip(s) && AllSpace(before)
    ensures LStrip(s) != "" ==> !IsSpace(LStrip(s)[0])
  {
    before := "";
    if s != "" && IsSpace(s[0]) {
      before := LStripDropsSpace(s[1..]);
      before := [s[0]] + before;
    }
  }

  /** Stripping takes white space from both ends and leaves none there. */
  lemma {:induction false} StripTrimsSpace(s: string) returns (before: string, after: string)
    ensures s == before + Strip(s) + after && AllSpace(before) && AllSpace(after)
    ensures Strip(s) != "" ==> !IsSpace(Strip(s)[0]) && !IsSpace(Strip(s)[|Strip(s)| - 1])
  {
    if s != "" && IsSpace(s[|s| - 1]) {
      before, after := StripTrimsSpace(s[..|s| - 1]);
      Reassociate(before + Strip(s), after, [s[|s| - 1]]);
      assert s == s[..|s| - 1] + [s[|s| - 1]];
      after := after + [s[|s| - 1]];
    } else {
      before := LStripDropsSpace(s);
      after := "";
      AppendNothing(s);
    }
  }

  // ---- L1 ---------------------------------------------------------------------------------

  type Sessions = Dict<string, Dict<string, Json>>

  function Session(sessions: Sessions, conversation: string): Dict<string, Json>
  {
    match Get(sessions, conversation) case None => [] case Some(s) => s
  }

  /** `self._sessions.setdefault(conversation, {})[key] = value` */
  function WithCell(sessions: Sessions, conversation: string, key: string, value: Json): Sessions
  {
    Put(sessions, conversation, Put(Session(sessions, conversation), key, value))
  }

  predicate DistinctKeys(sessions: Sessions)
  {
    Distinct(sessions) && EachDistinct(sessions)
  }

  predicate EachDistinct(sessions: Sessions)
  {
    sessions == [] || (Distinct(sessions[0].1) && EachDistinct(sessions[1..]))
  }

  lemma {:induction false} PutKeepsEachDistinct(sessions: Sessions, conversation: string, session: Dict<string, Json>)
    requires EachDistinct(sessions) && Distinct(session)
    ensures EachDistinct(Put(sessions, conversation, session))
  {
    if sessions != [] && sessions[0].0 != conversation { PutKeepsEachDistinct(sessions[1..], conversation, session); }
  }

  lemma {:induction false} PopKeepsEachDistinct(sessions: Sessions, conversation: string)
    requires EachDistinct(sessions)
    ensures EachDistinct(Pop(sessions, conversation))
  {
    if sessions != [] && sessions[0].0 != conversation { PopKeepsEachDistinct(sessions[1..], conversation); }
  }

  lemma {:induction false} SessionIsDistinct(sessions: Sessions, conversation: string)
    requires EachDistinct(sessions)
    ensures Distinct(Session(sessions, conversation))
  {
    if sessions != [] && sessions[0].0 != conversation { SessionIsDistinct(sessions[1..], conversation); }
  }

  lemma {:induction false} PutKeepsDistinctKeys(sessions: Sessions, conversation: string, session: Dict<string, Json>)
    requires DistinctKeys(sessions) && Distinct(session)
    ensures DistinctKeys(Put(sessions, conversation, session))
  {
    PutDistinct(sessions, conversation, session);
    PutKeepsEachDistinct(sessions, conversation, session);
  }

  lemma {:induction false} PopKeepsDistinctKeys(sessions: Sessions, conversation: string)
    requires DistinctKeys(sessions)
    ensures DistinctKeys(Pop(sessions, conversation))
  {
    PopDistinct(sessions, conversation);
    PopKeepsEachDistinct(sessions, conversation);
  }

  lemma CellsAfterSet(sessions: Sessions, conversation: string, key: string, value: Json, c: string, k: string)
    ensures Get(Session(WithCell(sessions, conversation, key, value), c), k)
         == if c == conversation && k == key then Some(value) else Get(Session(sessions, c), k)
  {
    PutGet(sessions, conversation, Put(Session(sessions, conversation), key, value), c);
    PutGet(Session(sessions, conversation), key, value, k);
  }

  lemma CellsAfterClose(sessions: Sessions, conversation: string, c: string)
    requires Distinct(sessions)
    ensures Session(Pop(sessions, conversation), c) == if c == conversation then [] else Session(sessions, c)
  {
    PopGet(sessions, conversation, c);
  }

  class L1SessionStore {
    var sessions: Sessions

    ghost predicate Valid()
      reads this
    {
      DistinctKeys(sessions)
    }

    constructor ()
      ensures Valid() && sessions == []
    {
      sessions := [];
    }

    /** One cell changes; every other cell of every session stays. */
    method Set(conversation: string, key: string, value: Json)
      requires Valid()
      modifies this
      ensures Valid() && sessions == WithCell(old(sessions), conversation, key, value)
      ensures forall c, k :: Get(Session(sessions, c), k)
                == if c == conversation && k == key then Some(value) else Get(Session(old(sessions), c), k)
    {
      SessionIsDistinct(sessions, conversation);
      PutDistinct(Session(sessions, conversation), key, value);
      PutKeepsDistinctKeys(sessions, conversation, Put(Session(sessions, conversation), key, value));
      forall c, k
        ensures Get(Session(WithCell(sessions, conversation, key, value), c), k)
             == if c == conversation && k == key then Some(value) else Get(Session(sessions, c), k)
      {
        CellsAfterSet(sessions, conversation, key, value, c, k);
      }
      sessions := WithCell(sessions, conversation, key, value);
    }

    method Lookup(conversation: string, key: string) returns (r: Option<Json>)
      ensures r == Get(Session(sessions, conversation), key)
    {
      r := Get(Session(sessions, conversation), key);
    }

    method Close(conversation: string)
      requires Valid()
      modifies this
      ensures Valid() && sessions == Pop(old(sessions), conversation)
      ensures forall c :: Session(sessions, c) == if c == conversation then [] else Session(old(sessions), c)
    {
      PopKeepsDistinctKeys(sessions, conversation);
      forall c
        ensures Session(Pop(sessions, conversation), c) == if c == conversation then [] else Session(sessions, c)
      {
        CellsAfterClose(sessions, conversation, c);
      }
      sessions := Pop(sessions, conversation);
    }
  }

  datatype SessionOp = SetCell(conversation: string, key: string, value: Json) | CloseSession(conversation: string)

  function SessionsAfter(ops: seq<SessionOp>): Sessions
  {
    if ops == [] then []
    else
      match ops[|ops| - 1]
      case SetCell(conversation, key, value) => WithCell(SessionsAfter(ops[..|ops| - 1]), conversation, key, value)
      case CloseSession(conversation) => Pop(SessionsAfter(ops[..|ops| - 1]), conversation)
  }

  /** Operation i is the last one on the cell, and it set it: nothing sets the cell or closes its session afterwards. */
  predicate LastOnCell(ops: seq<SessionOp>, c: string, k: string, i: nat)
  {
    i < |ops| && ops[i].SetCell? && ops[i].conversation == c && ops[i].key == k
    && forall j :: i < j < |ops| ==> !Touches(ops[j], c, k)
  }

  predicate Touches(op: SessionOp, c: string, k: string)
  {
    op.conversation == c && (op.SetCell? ==> op.key == k)
  }

  lemma {:induction false} SessionsStayDistinct(ops: seq<SessionOp>)
    ensures DistinctKeys(SessionsAfter(ops))
  {
    if ops != [] {
      var before := SessionsAfter(ops[..|ops| - 1]);
      SessionsStayDistinct(ops[..|ops| - 1]);
      match ops[|ops| - 1]
      case SetCell(conversation, key, value) =>
        SessionIsDistinct(before, conversation);
        PutDistinct(Session(before, conversation), key, value);
        PutKeepsDistinctKeys(before, conversation, Put(Session(before, conversation), key, value));
      case CloseSession(conversation) => PopKeepsDistinctKeys(before, conversation);
    }
  }

  lemma CellAfterOne(ops: seq<SessionOp>, c: string, k: string)
    requires ops != []
    ensures var op := ops[|ops| - 1];
            Get(Session(SessionsAfter(ops), c), k)
            == if Touches(op, c, k) then (if op.SetCell? then Some(op.value) else None)
               else Get(Session(SessionsAfter(ops[..|ops| - 1]), c), k)
  {
    var before := SessionsAfter(ops[..|ops| - 1]);
    SessionsStayDistinct(ops[..|ops| - 1]);
    match ops[|ops| - 1]
    case SetCell(conversation, key, value) => CellsAfterSet(before, conversation, key, value, c, k);
    case CloseSession(conversation) => CellsAfterClose(before, conversation, c);
  }

  /** After any run of sets and closes a cell reads as the value last set in it, if its session was not closed since,
      and otherwise as nothing. */
  lemma {:induction false} CellReadsLastSet(ops: seq<SessionOp>, c: string, k: string)
    ensures Get(Session(SessionsAfter(ops), c), k).Some? <==> exists i: nat :: LastOnCell(ops, c, k, i)
    ensures forall i: nat :: LastOnCell(ops, c, k, i) ==> Get(Session(SessionsAfter(ops), c), k) == Some(ops[i].value)
  {
    if ops != [] {
      var n := |ops| - 1;
      CellReadsLastSet(ops[..n], c, k);
      CellAfterOne(ops, c, k);
      if Touches(ops[n], c, k) {
        assert ops[n].SetCell? ==> LastOnCell(ops, c, k, n);
        forall i: nat | LastOnCell(ops, c, k, i) ensures i == n {}
      } else {
        forall i: nat
          ensures LastOnCell(ops, c, k, i) <==> LastOnCell(ops[..n], c, k, i)
        {
          LastOnCellOfInit(ops, c, k, i);
        }
      }
    }
  }

  lemma LastOnCellOfInit(ops: seq<SessionOp>, c: string, k: string, i: nat)
    requires ops != [] && !Touches(ops[|ops| - 1], c, k)
    ensures LastOnCell(ops, c, k, i) <==> LastOnCell(ops[..|ops| - 1], c, k, i)
  {
    var t := ops[..|ops| - 1];
    if LastOnCell(t, c, k, i) {
      forall j | i < j < |ops| ensures !Touches(ops[j], c, k) { if j < |t| { assert t[j] == ops[j]; } }
    }
    if LastOnCell(ops, c, k, i) {
      assert Touches(ops[i], c, k) && i < |t| && t[i] == ops[i];
      forall j | i < j < |t| ensures !Touches(t[j], c, k) { assert t[j] == ops[j]; }
    }
  }

  // ---- FTS quoting ------------------------------------------------------------------------

  function DoubleQuotes(q: string): string
  {
    if q == "" then "" else (if q[0] == '"' then "\"\"" else [q[0]]) + DoubleQuotes(q[1..])
  }

  /** `'"{}"'.format(query.replace('"', '""'))` */
  function FtsQuote(q: string): string
  {
    "\"" + DoubleQuotes(q) + "\""
  }

  /** The body of an FTS5 string and what follows it: a doubled quote is one quote, a single one ends it. */
  function FtsScanBody(s: string): Option<(string, string)>
  {
    if s == "" then None
    else if s[0] != '"' then
      var (body, rest) :- FtsScanBody(s[1..]);
      Some(([s[0]] + body, rest))
    else if |s| > 1 && s[1] == '"' then
      var (body, rest) :- FtsScanBody(s[2..]);
      Some(("\"" + body, rest))
    else Some(("", s[1..]))
  }

  function FtsScan(s: string): Option<(string, string)>
  {
    if s == "" || s[0] != '"' then None else FtsScanBody(s[1..])
  }

  lemma {:induction false} FtsBodyScansBack(q: string)
    ensures FtsScanBody(DoubleQuotes(q) + "\"") == Some((q, ""))
  {
    var t := DoubleQuotes(q) + "\"";
    if q == "" {
      assert t == "\"" && t[1..] == "";
    } else {
      FtsBodyScansBack(q[1..]);
      var more := DoubleQuotes(q[1..]) + "\"";
      assert q == [q[0]] + q[1..];
      if q[0] == '"' {
        assert t == "\"\"" + more && t[2..] == more;
      } else {
        assert t == [q[0]] + more && t[1..] == more;
      }
    }
  }

  /** Read as an FTS5 string, the quoted query is consumed whole and gives back the query. */
  lemma QuotedQueryScansBack(q: string)
    ensures FtsScan(FtsQuote(q)) == Some((q, ""))
  {
    FtsBodyScansBack(q);
    assert FtsQuote(q)[1..] == DoubleQuotes(q) + "\"";
  }

  // ---- L2 ---------------------------------------------------------------------------------

  datatype MemoryEntry = MemoryEntry(subject: string, kind: string, body: string, version: string)

  /** Different positions of a list of length n. */
  predicate Positions(ps: seq<nat>, n: nat)
  {
    ps == [] || (ps[|ps| - 1] < n && ps[|ps| - 1] !in ps[..|ps| - 1] && Positions(ps[..|ps| - 1], n))
  }

  lemma {:induction false} PositionsDiffer(ps: seq<nat>, n: nat)
    requires Positions(ps, n)
    ensures forall i :: 0 <= i < |ps| ==> ps[i] < n
    ensures forall i, j :: 0 <= i < j < |ps| ==> ps[i] != ps[j]
  {
    if ps != [] {
      var m := |ps| - 1;
      PositionsDiffer(ps[..m], n);
      forall i | 0 <= i < m ensures ps[i] < n && ps[i] != ps[m] { assert ps[i] == ps[..m][i] && ps[..m][i] in ps[..m]; }
      forall i, j | 0 <= i < j < m ensures ps[i] != ps[j] { assert ps[..m][i] != ps[..m][j]; }
    }
  }

  function At(rows: seq<MemoryEntry>, ps: seq<nat>): (r: seq<MemoryEntry>)
    requires forall i :: 0 <= i < |ps| ==> ps[i] < |rows|
    ensures |r| == |ps| && forall i :: 0 <= i < |ps| ==> r[i] == rows[ps[i]]
  {
    seq(|ps|, i requires 0 <= i < |ps| => rows[ps[i]])
  }

  /** The first entries in rank order. */
  function Ranked(rows: seq<MemoryEntry>, rank: (seq<MemoryEntry>, string) -> seq<nat>, query: string, limit: int)
    : seq<MemoryEntry>
    requires Positions(rank(rows, query), |rows|)
  {
    PositionsDiffer(rank(rows, query), |rows|);
    At(rows, Limit(rank(rows, query), limit))
  }

  class L2MemoryStore {
    var rows: seq<MemoryEntry>
    /** The full-text index: the positions of the rows that hold a phrase, best rank first. */
    const rank: (seq<MemoryEntry>, string) -> seq<nat>

    ghost predicate Valid()
    {
      forall rs, q :: Positions(rank(rs, q), |rs|)
    }

    constructor (rank: (seq<MemoryEntry>, string) -> seq<nat>)
      requires forall rs, q :: Positions(rank(rs, q), |rs|)
      ensures Valid() && rows == []
    {
      this.rank := rank;
      rows := [];
    }

    /** The version id is a uuid; if it is new, versions stay distinct. */
    method Write(entry: MemoryEntry, version: string)
      modifies this
      ensures rows == old(rows) + [entry.(version := version)]
      ensures DistinctVersions(old(rows)) && (forall i :: 0 <= i < |old(rows)| ==> old(rows)[i].version != version)
              ==> DistinctVersions(rows)
    {
      rows := rows + [MemoryEntry(entry.subject, entry.kind, entry.body, version)];
    }

    method Search(query: string, limit: int) returns (r: seq<MemoryEntry>)
      requires Valid()
      ensures assert Positions(rank(rows, query), |rows|); r == Ranked(rows, rank, query, limit)
    {
      var ftsQuery := FtsQuote(query);
      QuotedQueryScansBack(query);
      var phrase := FtsScan(ftsQuery).value.0;
      assert Positions(rank(rows, phrase), |rows|);
      PositionsDiffer(rank(rows, phrase), |rows|);
      var hits := Limit(rank(rows, phrase), limit);
      r := [];
      for i := 0 to |hits|
        invariant r == At(rows, hits)[..i]
      {
        r := r + [rows[hits[i]]];
      }
    }

    method GetBySubject(subject: string) returns (r: seq<MemoryEntry>)
      ensures r == Filter(rows, (e: MemoryEntry) => e.subject == subject)
    {
      r := [];
      for i := 0 to |rows|
        invariant r == Filter(rows[..i], (e: MemoryEntry) => e.subject == subject)
      {
        assert rows[..i + 1][..i] == rows[..i];
        if rows[i].subject == subject { r := r + [rows[i]]; }
      }
      assert rows[..|rows|] == rows;
    }
  }

  // ---- the merge of load_context ----------------------------------------------------------

  /** The entries whose version has not occurred before, in order. */
  function Dedup(entries: seq<MemoryEntry>): seq<MemoryEntry>
  {
    if entries == [] then []
    else
      var n := |entries| - 1;
      Dedup(entries[..n])
      + if exists e :: e in entries[..n] && e.version == entries[n].version then [] else [entries[n]]
  }

  function Bodies(entries: seq<MemoryEntry>): seq<string>
  {
    seq(|entries|, i requires 0 <= i < |entries| => entries[i].body)
  }

  predicate DistinctVersions(entries: seq<MemoryEntry>)
  {
    forall i, j :: 0 <= i < j < |entries| ==> entries[i].version != entries[j].version
  }

  /** No version occurs twice in the merge, and none is lost. */
  lemma {:induction false} DedupKeepsEachVersionOnce(entries: seq<MemoryEntry>)
    ensures DistinctVersions(Dedup(entries))
    ensures forall e :: e in Dedup(entries) ==> e in entries
    ensures forall e :: e in entries ==> exists d :: d in Dedup(entries) && d.version == e.version
  {
    if entries != [] {
      var n := |entries| - 1;
      DedupKeepsEachVersionOnce(entries[..n]);
      var before, all := Dedup(entries[..n]), Dedup(entries);
      forall i | 0 <= i < |before| ensures before[i] in entries[..n] { assert before[i] in before; }
      forall e | e in entries ensures exists d :: d in all && d.version == e.version {
        if e in entries[..n] {
          var d :| d in before && d.version == e.version;
          assert d in all;
        } else {
          assert e == entries[n];
          if earlier :| earlier in entries[..n] && earlier.version == e.version {
            var d :| d in before && d.version == earlier.version;
            assert d in all;
          } else {
            assert e in all;
          }
        }
      }
    }
  }

  lemma LastVersionIsNew(entries: seq<MemoryEntry>)
    requires DistinctVersions(entries) && entries != []
    ensures DistinctVersions(entries[..|entries| - 1])
    ensures forall e :: e in entries[..|entries| - 1] ==> e.version != entries[|entries| - 1].version
  {}

  lemma DedupOfNew(before: seq<MemoryEntry>, e: MemoryEntry)
    requires forall d :: d in before ==> d.version != e.version
    ensures Dedup(before + [e]) == Dedup(before) + [e]
  {
    var all := before + [e];
    assert all[..|all| - 1] == before;
  }

  /** Every entry's version is new to the entries before it. */
  predicate EachNew(entries: seq<MemoryEntry>)
  {
    entries != [] ==>
      var n := |entries| - 1;
      EachNew(entries[..n]) && forall d :: d in entries[..n] ==> d.version != entries[n].version
  }

  lemma {:induction false} DistinctIsEachNew(entries: seq<MemoryEntry>)
    requires DistinctVersions(entries)
    ensures EachNew(entries)
  {
    if entries != [] {
      LastVersionIsNew(entries);
      DistinctIsEachNew(entries[..|entries| - 1]);
    }
  }

  lemma {:induction false} DedupOfEachNew(entries: seq<MemoryEntry>)
    requires EachNew(entries)
    ensures Dedup(entries) == entries
  {
    if entries != [] {
      var before, e := entries[..|entries| - 1], entries[|entries| - 1];
      DedupOfEachNew(before);
      DedupOfNew(before, e);
      assert entries == before + [e];
    }
  }

  /** Entries of the two lists with the same version are the same entry. */
  predicate SameStore(subject: seq<MemoryEntry>, hits: seq<MemoryEntry>)
  {
    forall i, j :: 0 <= i < |subject| && 0 <= j < |hits| && subject[i].version == hits[j].version ==>
      subject[i] == hits[j]
  }

  lemma {:induction false} MergeOfLists(subject: seq<MemoryEntry>, hits: seq<MemoryEntry>)
    requires DistinctVersions(subject) && DistinctVersions(hits) && SameStore(subject, hits)
    ensures Dedup(subject + hits) == subject + Filter(hits, (e: MemoryEntry) => e !in subject)
  {
    if hits == [] {
      DistinctIsEachNew(subject);
      DedupOfEachNew(subject);
      assert subject + hits == subject;
    } else {
      var n := |hits| - 1;
      MergeOfLists(subject, hits[..n]);
      assert hits == hits[..n] + [hits[n]];
      MergeNext(subject, hits[..n], hits[n]);
    }
  }

  lemma MergeNext(subject: seq<MemoryEntry>, earlier: seq<MemoryEntry>, h: MemoryEntry)
    requires DistinctVersions(earlier + [h]) && SameStore(subject, earlier + [h])
    requires Dedup(subject + earlier) == subject + Filter(earlier, (e: MemoryEntry) => e !in subject)
    ensures Dedup(subject + (earlier + [h])) == subject + Filter(earlier + [h], (e: MemoryEntry) => e !in subject)
  {
    var isNew := (e: MemoryEntry) => e !in subject;
    FilterSnoc(earlier, h, isNew);
    MergeStep(subject, earlier, h);
    Reassociate(subject, earlier, [h]);
    Reassociate(subject, Filter(earlier, isNew), if isNew(h) then [h] else []);
  }

  lemma MergeStep(subject: seq<MemoryEntry>, earlier: seq<MemoryEntry>, h: MemoryEntry)
    requires DistinctVersions(earlier + [h]) && SameStore(subject, earlier + [h])
    ensures Dedup(subject + earlier + [h]) == Dedup(subject + earlier) + if h in subject then [] else [h]
  {
    DedupSnoc(subject + earlier, h);
    if h in subject {
      assert h in subject + earlier;
    } else {
      assert (earlier + [h])[|earlier|] == h;
      NewHitHasNewVersion(subject, earlier, h);
    }
  }

  lemma NewHitHasNewVersion(subject: seq<MemoryEntry>, earlier: seq<MemoryEntry>, h: MemoryEntry)
    requires DistinctVersions(earlier + [h]) && h !in subject
    requires forall a :: a in subject && a.version == h.version ==> a == h
    ensures !exists e :: e in subject + earlier && e.version == h.version
  {
    var all := earlier + [h];
    forall i | 0 <= i < |earlier| ensures earlier[i].version != h.version {
      assert all[i].version != all[|earlier|].version;
    }
  }

  lemma DedupSnoc(entries: seq<MemoryEntry>, e: MemoryEntry)
    ensures Dedup(entries + [e])
         == Dedup(entries) + if exists d :: d in entries && d.version == e.version then [] else [e]
  {
    var all := entries + [e];
    assert all[..|all| - 1] == entries;
  }

  lemma BodiesSnoc(entries: seq<MemoryEntry>, e: MemoryEntry)
    ensures Bodies(entries + [e]) == Bodies(entries) + [e.body]
  {}

  datatype Context = Context(turnCount: int, summary: Option<string>, customer: string)

  function TurnCount(raw: Option<Json>): int
  {
    match raw
    case Some(JInt(n)) => n
    case Some(JBool(b)) => if b then 1 else 0
    case _ => 0
  }

  function Turns(sessions: Sessions, conversation: string): int
  {
    TurnCount(Get(Session(sessions, conversation), "turn_count"))
  }

  function InboundPayload(text: string, customer: string): Payload
  {
    var members := [("text", JStr(text)), ("customer_id", JStr(customer))];
    ObjectIsWellFormed(members);
    JObj(members)
  }

  function InboundEvent(m: InboundMessage): L0Event
  {
    L0Event(m.conversation, "inbound_message", InboundPayload(TextConcat(m), m.customer), m.ts)
  }

  function SubjectEntries(rows: seq<MemoryEntry>, customer: string): seq<MemoryEntry>
  {
    Filter(rows, (e: MemoryEntry) => e.subject == "customer:" + customer)
  }

  /** The hits of the message; a blank text is not searched. */
  function Hits(rows: seq<MemoryEntry>, rank: (seq<MemoryEntry>, string) -> seq<nat>, text: string): seq<MemoryEntry>
    requires Positions(rank(rows, text), |rows|)
  {
    if Strip(text) != "" then Ranked(rows, rank, text, 3) else []
  }

  /** What the context of a message is made of. */
  function Retrieved(rows: seq<MemoryEntry>, rank: (seq<MemoryEntry>, string) -> seq<nat>,
                     customer: string, text: string): seq<MemoryEntry>
    requires Positions(rank(rows, text), |rows|)
  {
    SubjectEntries(rows, customer) + Hits(rows, rank, text)
  }

  /** What is retrieved for a message: every entry of its customer, and the first three hits unless the text is blank.
      */
  lemma RetrievedAreOfCustomerOrHits(rows: seq<MemoryEntry>, rank: (seq<MemoryEntry>, string) -> seq<nat>,
                                     customer: string, text: string, e: MemoryEntry)
    requires Positions(rank(rows, text), |rows|)
    ensures e in SubjectEntries(rows, customer) <==> e in rows && e.subject == "customer:" + customer
    ensures Strip(text) == "" ==> Hits(rows, rank, text) == []
    ensures Strip(text) != "" ==>
              var hits, ps := Hits(rows, rank, text), rank(rows, text);
              && |hits| == (if |ps| < 3 then |ps| else 3)
              && forall i :: 0 <= i < |hits| ==> ps[i] < |rows| && hits[i] == rows[ps[i]]
  {
    FilterMembers(rows, (x: MemoryEntry) => x.subject == "customer:" + customer);
    if e in SubjectEntries(rows, customer) {
      var i :| 0 <= i < |SubjectEntries(rows, customer)| && SubjectEntries(rows, customer)[i] == e;
    }
    if e in rows && e.subject == "customer:" + customer {
      var i :| 0 <= i < |rows| && rows[i] == e;
    }
    PositionsDiffer(rank(rows, text), |rows|);
  }

  lemma {:induction false} FilterKeepsVersionsDistinct(rows: seq<MemoryEntry>, p: MemoryEntry -> bool)
    requires DistinctVersions(rows)
    ensures DistinctVersions(Filter(rows, p))
    ensures forall i :: 0 <= i < |Filter(rows, p)| ==> Filter(rows, p)[i] in rows
  {
    FilterMembers(rows, p);
    if rows != [] {
      var n := |rows| - 1;
      FilterKeepsVersionsDistinct(rows[..n], p);
      var before := Filter(rows[..n], p);
      forall i | 0 <= i < |before| ensures before[i].version != rows[n].version {
        var j :| 0 <= j < n && rows[..n][j] == before[i];
        assert rows[j].version != rows[n].version;
      }
    }
  }

  lemma HitsAreOfTheStore(rows: seq<MemoryEntry>, rank: (seq<MemoryEntry>, string) -> seq<nat>, text: string)
    requires DistinctVersions(rows) && Positions(rank(rows, text), |rows|)
    ensures DistinctVersions(Hits(rows, rank, text))
    ensures forall i :: 0 <= i < |Hits(rows, rank, text)| ==> Hits(rows, rank, text)[i] in rows
  {
    PositionsDiffer(rank(rows, text), |rows|);
    var hits, ps := Hits(rows, rank, text), Limit(rank(rows, text), 3);
    forall i, j | 0 <= i < j < |hits| ensures hits[i].version != hits[j].version {
      assert ps[i] == rank(rows, text)[i] && ps[j] == rank(rows, text)[j];
      if ps[i] < ps[j] { assert rows[ps[i]].version != rows[ps[j]].version; }
    }
  }

  lemma SameVersionIsSameEntry(rows: seq<MemoryEntry>, a: MemoryEntry, b: MemoryEntry)
    requires DistinctVersions(rows) && a in rows && b in rows && a.version == b.version
    ensures a == b
  {
    var i :| 0 <= i < |rows| && rows[i] == a;
    var j :| 0 <= j < |rows| && rows[j] == b;
    assert i == j;
  }

  /** When no version is stored twice, the merged context of a message is every entry of its customer, in id order, and
      then the search hits that are not among them, in rank order. */
  lemma {:induction false} MergeIsSubjectThenNewHits(rows: seq<MemoryEntry>,
                                                     rank: (seq<MemoryEntry>, string) -> seq<nat>,
                                                     customer: string, text: string)
    requires DistinctVersions(rows) && Positions(rank(rows, text), |rows|)
    ensures var subject := SubjectEntries(rows, customer);
            Dedup(Retrieved(rows, rank, customer, text))
            == subject + Filter(Hits(rows, rank, text), (e: MemoryEntry) => e !in subject)
  {
    var subject, hits := SubjectEntries(rows, customer), Hits(rows, rank, text);
    FilterKeepsVersionsDistinct(rows, (e: MemoryEntry) => e.subject == "customer:" + customer);
    HitsAreOfTheStore(rows, rank, text);
    forall i, j | 0 <= i < |subject| && 0 <= j < |hits| && subject[i].version == hits[j].version
      ensures subject[i] == hits[j]
    {
      SameVersionIsSameEntry(rows, subject[i], hits[j]);
    }
    MergeOfLists(subject, hits);
  }

  /** The summary of a context: the bodies, or nothing if there is none. */
  function Summarized(entries: seq<MemoryEntry>): Option<string>
  {
    if entries == [] then None else Some(Join("\n---\n", Bodies(entries)))
  }

  /** The summary is the bodies in order, separated by a rule. */
  lemma SummarySeparatesBodies(first: MemoryEntry, rest: seq<MemoryEntry>)
    ensures Summarized([]) == None
    ensures Summarized([first] + rest)
         == Some(if rest == [] then first.body else first.body + "\n---\n" + Summarized(rest).value)
  {
    assert Bodies([first] + rest) == [first.body] + Bodies(rest);
    JoinFromFront("\n---\n", first.body, Bodies(rest));
  }

  class MemoryStore {
    const l0: L0RawEventStore
    const l1: L1SessionStore
    const l2: L2MemoryStore

    constructor (rank: (seq<MemoryEntry>, string) -> seq<nat>)
      requires forall rs, q :: Positions(rank(rs, q), |rs|)
      ensures l0.Valid() && l1.Valid() && l2.Valid() && fresh(l0) && fresh(l1) && fresh(l2)
      ensures l0.events == [] && l1.sessions == [] && l2.rows == []
    {
      l0 := new L0RawEventStore();
      l1 := new L1SessionStore();
      l2 := new L2MemoryStore(rank);
    }

    /** One event and one turn more for this conversation, nothing for any other. */
    method RecordInbound(message: InboundMessage)
      requires l0.Valid() && l1.Valid()
      modifies l0, l1
      ensures l0.Valid() && l1.Valid()
      ensures l0.events == old(l0.events) + [InboundEvent(message)]
      ensures forall c :: Turns(l1.sessions, c)
                == Turns(old(l1.sessions), c) + if c == message.conversation then 1 else 0
    {
      l0.Append(L0Event(message.conversation, "inbound_message",
                        InboundPayload(TextConcat(message), message.customer), message.ts));
      var raw := l1.Lookup(message.conversation, "turn_count");
      l1.Set(message.conversation, "turn_count", JInt(TurnCount(raw) + 1));
    }

    method LoadContext(conversation: string, customer: string, text: string) returns (c: Context)
      requires l2.Valid()
      ensures c.turnCount == Turns(l1.sessions, conversation) && c.customer == customer
      ensures assert Positions(l2.rank(l2.rows, text), |l2.rows|);
              c.summary == Summarized(Dedup(Retrieved(l2.rows, l2.rank, customer, text)))
      ensures assert Positions(l2.rank(l2.rows, text), |l2.rows|);
              var subject := SubjectEntries(l2.rows, customer);
              DistinctVersions(l2.rows) ==>
                c.summary == Summarized(subject + Filter(Hits(l2.rows, l2.rank, text),
                                                         (e: MemoryEntry) => e !in subject))
    {
      var raw := l1.Lookup(conversation, "turn_count");
      var entries := l2.GetBySubject("customer:" + customer);
      assert Positions(l2.rank(l2.rows, text), |l2.rows|);
      if Strip(text) != "" {
        var hits := l2.Search(text, 3);
        entries := entries + hits;
      }
      assert entries == Retrieved(l2.rows, l2.rank, customer, text);
      if DistinctVersions(l2.rows) { MergeIsSubjectThenNewHits(l2.rows, l2.rank, customer, text); }
      var combined := Merge(entries);
      c := Context(TurnCount(raw), if combined == [] then None else Some(Join("\n---\n", combined)), customer);
    }
  }

  /** The loop of load_context over the subject's entries and the hits. */
  method Merge(entries: seq<MemoryEntry>) returns (combined: seq<string>)
    ensures combined == Bodies(Dedup(entries))
  {
    var seen: set<string> := {};
    combined := [];
    for i := 0 to |entries|
      invariant forall v :: v in seen <==> exists e :: e in entries[..i] && e.version == v
      invariant combined == Bodies(Dedup(entries[..i]))
    {
      assert entries[..i + 1] == entries[..i] + [entries[i]];
      DedupSnoc(entries[..i], entries[i]);
      if entries[i].version !in seen {
        BodiesSnoc(Dedup(entries[..i]), entries[i]);
        seen := seen + {entries[i].version};
        combined := combined + [entries[i].body];
      }
    }
    assert entries[..|entries|] == entries;
  }
}
