/** ProposalStore: the table operations as its callers see them. */
module ProposalTable {
  import opened Prelude
  import opened Queries
  import opened Proposals
  import Json

  // ---- the table as a list of proposals ---------------------------------------------------

  predicate DistinctIds(ps: seq<Proposal>)
  {
    forall i, j :: 0 <= i < j < |ps| ==> ps[i].id != ps[j].id
  }

  function Without(ps: seq<Proposal>, id: string): seq<Proposal>
  {
    Filter(ps, (p: Proposal) => p.id != id)
  }

  /** `INSERT OR REPLACE`: any row of that id goes, and the new one comes last. */
  function Saved(ps: seq<Proposal>, p: Proposal): seq<Proposal>
  {
    Without(ps, p.id) + [p]
  }

  /** `UPDATE ... WHERE id=?`: the row changes where it stands. */
  function Amended(ps: seq<Proposal>, id: string, f: Proposal -> Proposal): (r: seq<Proposal>)
    ensures |r| == |ps|
    ensures forall i {:trigger r[i]} :: 0 <= i < |ps| ==> r[i] == if ps[i].id == id then f(ps[i]) else ps[i]
  {
    seq(|ps|, i requires 0 <= i < |ps| => if ps[i].id == id then f(ps[i]) else ps[i])
  }

  function Lookup(ps: seq<Proposal>, id: string): Option<Proposal>
  {
    if ps == [] then None
    else if ps[|ps| - 1].id == id then Some(ps[|ps| - 1])
    else Lookup(ps[..|ps| - 1], id)
  }

  lemma {:induction false} LookupFinds(ps: seq<Proposal>, i: nat)
    requires i < |ps| && DistinctIds(ps)
    ensures Lookup(ps, ps[i].id) == Some(ps[i])
  {
    var n := |ps| - 1;
    if i < n {
      assert ps[i].id != ps[n].id;
      LookupFinds(ps[..n], i);
    }
  }

  lemma {:induction false} LookupMember(ps: seq<Proposal>, id: string)
    ensures Lookup(ps, id).Some? ==> Lookup(ps, id).value in ps && Lookup(ps, id).value.id == id
  {
    if ps != [] { LookupMember(ps[..|ps| - 1], id); }
  }

  lemma {:induction false} LookupMisses(ps: seq<Proposal>, id: string)
    requires forall i {:trigger ps[i]} :: 0 <= i < |ps| ==> ps[i].id != id
    ensures Lookup(ps, id) == None
  {
    if ps != [] {
      assert ps[|ps| - 1].id != id;
      LookupMisses(ps[..|ps| - 1], id);
    }
  }

  lemma {:induction false} LookupWithout(ps: seq<Proposal>, id: string, q: string)
    ensures Lookup(Without(ps, id), q) == if q == id then None else Lookup(ps, q)
  {
    if ps != [] {
      var n := |ps| - 1;
      LookupWithout(ps[..n], id, q);
      if ps[n].id != id { LookupSnoc(Without(ps[..n], id), ps[n], q); }
      assert Without(ps[..n], id) + [] == Without(ps[..n], id);
    }
  }

  lemma LookupSnoc(ps: seq<Proposal>, p: Proposal, q: string)
    ensures Lookup(ps + [p], q) == if q == p.id then Some(p) else Lookup(ps, q)
  {
    assert (ps + [p])[..|ps + [p]| - 1] == ps;
  }

  /** What is saved is what is read, every field of it, and no other proposal is touched. */
  lemma SaveThenGet(ps: seq<Proposal>, p: Proposal, q: string)
    ensures Lookup(Saved(ps, p), q) == if q == p.id then Some(p) else Lookup(ps, q)
  {
    LookupSnoc(Without(ps, p.id), p, q);
    LookupWithout(ps, p.id, q);
  }

  /** What an id reads as once the row of `id` has changed. */
  function Amending(ps: seq<Proposal>, id: string, f: Proposal -> Proposal, q: string): Option<Proposal>
  {
    if q == id && Lookup(ps, id).Some? then Some(f(Lookup(ps, id).value)) else Lookup(ps, q)
  }

  lemma AmendedReadsOn(ps: seq<Proposal>, amended: seq<Proposal>, id: string, f: Proposal -> Proposal, q: string)
    requires |amended| == |ps| > 0 && f(ps[|ps| - 1]).id == ps[|ps| - 1].id
    requires Lookup(amended[..|ps| - 1], q) == Amending(ps[..|ps| - 1], id, f, q)
    requires amended[|ps| - 1] == if ps[|ps| - 1].id == id then f(ps[|ps| - 1]) else ps[|ps| - 1]
    ensures Lookup(amended, q) == Amending(ps, id, f, q)
  {}

  lemma AmendedEnds(ps: seq<Proposal>, id: string, f: Proposal -> Proposal)
    requires ps != []
    ensures var n := |ps| - 1;
            && Amended(ps, id, f)[..n] == Amended(ps[..n], id, f)
            && Amended(ps, id, f)[n] == if ps[n].id == id then f(ps[n]) else ps[n]
  {}

  lemma {:induction false} AmendThenGet(ps: seq<Proposal>, id: string, f: Proposal -> Proposal, q: string)
    requires forall p :: f(p).id == p.id
    ensures Lookup(Amended(ps, id, f), q)
         == if q == id && Lookup(ps, id).Some? then Some(f(Lookup(ps, id).value)) else Lookup(ps, q)
  {
    if ps != [] {
      var n := |ps| - 1;
      AmendThenGet(ps[..n], id, f, q);
      AmendedEnds(ps, id, f);
      AmendedReadsOn(ps, Amended(ps, id, f), id, f, q);
    }
  }

  lemma AmendThenGetAll(ps: seq<Proposal>, id: string, f: Proposal -> Proposal)
    requires forall p :: f(p).id == p.id
    ensures forall q :: Lookup(Amended(ps, id, f), q)
              == match Lookup(ps, q) { case Some(p) => if q == id then Some(f(p)) else Some(p) case None => None }
  {
    forall q ensures Lookup(Amended(ps, id, f), q)
                  == match Lookup(ps, q) { case Some(p) => if q == id then Some(f(p)) else Some(p) case None => None }
    {
      AmendThenGet(ps, id, f, q);
    }
  }

  lemma LastIdIsNew(ps: seq<Proposal>, p: Proposal)
    requires DistinctIds(ps) && ps != [] && p in ps[..|ps| - 1]
    ensures p.id != ps[|ps| - 1].id
  {}

  lemma {:induction false} WithoutIsDistinct(ps: seq<Proposal>, id: string)
    requires DistinctIds(ps)
    ensures DistinctIds(Without(ps, id))
    ensures forall i :: 0 <= i < |Without(ps, id)| ==> Without(ps, id)[i].id != id && Without(ps, id)[i] in ps
  {
    if ps != [] {
      var n := |ps| - 1;
      WithoutIsDistinct(ps[..n], id);
      var before := Without(ps[..n], id);
      forall i | 0 <= i < |before| ensures before[i].id != ps[n].id { LastIdIsNew(ps, before[i]); }
    }
  }

  lemma SavedIsDistinct(ps: seq<Proposal>, p: Proposal)
    requires DistinctIds(ps)
    ensures DistinctIds(Saved(ps, p))
  {
    WithoutIsDistinct(ps, p.id);
  }

  lemma AmendedIsDistinct(ps: seq<Proposal>, id: string, f: Proposal -> Proposal)
    requires DistinctIds(ps) && forall p :: f(p).id == p.id
    ensures DistinctIds(Amended(ps, id, f))
  {
    var r := Amended(ps, id, f);
    forall i, j | 0 <= i < j < |r| ensures r[i].id != r[j].id { assert ps[i].id != ps[j].id; }
  }

  // The columns that the update methods set.

  function WithStatus(status: Status): Proposal -> Proposal
  {
    (p: Proposal) => p.(status := status)
  }

  function WithDecision(gate: Gate, status: Status, reviewer: Option<string>,
                        note: Option<string>): Proposal -> Proposal
  {
    (p: Proposal) => p.(gate := Some(gate), status := status, reviewer := reviewer, note := note)
  }

  function WithReplay(result: Object): Proposal -> Proposal
  {
    (p: Proposal) => p.(replay := Some(result))
  }

  // ---- selections -------------------------------------------------------------------------

  function ByStatus(ps: seq<Proposal>, status: Status): seq<Proposal>
  {
    Filter(ps, (p: Proposal) => p.status == status)
  }

  predicate Selects(status: Option<Status>, dimension: Option<Dimension>, p: Proposal)
  {
    (status.Some? ==> p.status == status.value) && (dimension.Some? ==> p.dimension == dimension.value)
  }

  predicate SelectsRow(status: Option<Status>, dimension: Option<Dimension>, r: Row)
  {
    (status.Some? ==> r.status == status.value.Text()) && (dimension.Some? ==> r.dimension == dimension.value.Text())
  }

  /** Every selected proposal, last saved first. */
  function Selection(ps: seq<Proposal>, status: Option<Status>, dimension: Option<Dimension>): seq<Proposal>
  {
    Reverse(Filter(ps, (p: Proposal) => Selects(status, dimension, p)))
  }

  lemma RowSelects(status: Option<Status>, dimension: Option<Dimension>, p: Proposal)
    ensures SelectsRow(status, dimension, Encode(p)) == Selects(status, dimension, p)
  {
    if status.Some? { StatusTextsDiffer(p.status, status.value); }
    if dimension.Some? { DimensionTextsDiffer(p.dimension, dimension.value); }
  }

  /** `list(status)` in full is `list_by_status` backwards, `count_by_status` is its length, and its pages tile it. */
  lemma StatusListsAgree(ps: seq<Proposal>, status: Status, limit: nat, pages: nat)
    requires limit > 0
    ensures Page(Selection(ps, Some(status), None), -1, 0) == Reverse(ByStatus(ps, status))
    ensures |Selection(ps, Some(status), None)| == Count(ps, (p: Proposal) => p.status == status)
    ensures pages * limit >= Count(ps, (p: Proposal) => p.status == status) ==>
              Concat(Pages(Selection(ps, Some(status), None), limit, pages)) == Reverse(ByStatus(ps, status))
  {
    FilterSame(ps, (p: Proposal) => Selects(Some(status), None, p), (p: Proposal) => p.status == status);
    CountIsFilterLength(ps, (p: Proposal) => p.status == status);
    PagesTile(Selection(ps, Some(status), None), limit, pages);
  }

  /** With both filters the list is that of the status filter and of the dimension filter one after the other; a filter
      not given lets everything through. */
  lemma SelectionFiltersCompose(ps: seq<Proposal>, status: Status, dimension: Dimension)
    ensures Selection(ps, None, None) == Reverse(ps)
    ensures Selection(ps, None, Some(dimension)) == Reverse(Filter(ps, (p: Proposal) => p.dimension == dimension))
    ensures Selection(ps, Some(status), Some(dimension))
         == Reverse(Filter(Filter(ps, (p: Proposal) => p.status == status), (p: Proposal) => p.dimension == dimension))
  {
    FilterAll(ps, (p: Proposal) => Selects(None, None, p));
    FilterSame(ps, (p: Proposal) => Selects(None, Some(dimension), p), (p: Proposal) => p.dimension == dimension);
    FilterTwice(ps, (p: Proposal) => p.status == status, (p: Proposal) => p.dimension == dimension,
                (p: Proposal) => Selects(Some(status), Some(dimension), p));
  }

  // ---- the store --------------------------------------------------------------------------

  lemma RowsWithout(rows: seq<Row>, ps: seq<Proposal>, id: string)
    requires Image(ps, rows, Encode)
    ensures Image(Without(ps, id), Filter(rows, (r: Row) => r.id != id), Encode)
  {
    ImageFilter(ps, rows, Encode, (p: Proposal) => p.id != id, (r: Row) => r.id != id);
  }

  lemma RowsSelected(rows: seq<Row>, ps: seq<Proposal>, status: Option<Status>, dimension: Option<Dimension>,
                     q: Row -> bool)
    requires Image(ps, rows, Encode) && forall r :: q(r) == SelectsRow(status, dimension, r)
    ensures Image(Filter(ps, (p: Proposal) => Selects(status, dimension, p)), Filter(rows, q), Encode)
  {
    forall p: Proposal ensures q(Encode(p)) == Selects(status, dimension, p) { RowSelects(status, dimension, p); }
    ImageFilter(ps, rows, Encode, (p: Proposal) => Selects(status, dimension, p), q);
  }

  /** The row update is the row form of the proposal update, which keeps the id. */
  ghost predicate Updates(update: Row -> Row, f: Proposal -> Proposal)
  {
    forall p {:trigger f(p)} :: Encode(f(p)) == update(Encode(p)) && f(p).id == p.id
  }

  // The `SET` clauses of the update methods.

  function SetStatus(status: Status): Row -> Row
  {
    (r: Row) => r.(status := status.Text())
  }

  function SetDecision(gate: Gate, status: Status, reviewer: Option<string>, note: Option<string>): Row -> Row
  {
    (r: Row) => r.(gate := Some(gate.Text()), status := status.Text(), reviewer := reviewer, note := note)
  }

  function SetReplay(result: Object): Row -> Row
  {
    (r: Row) => r.(replay := Some(Json.Dumps(result, Json.DEFAULT)))
  }

  lemma SetStatusUpdates(status: Status)
    ensures Updates(SetStatus(status), WithStatus(status))
  {}

  lemma SetDecisionUpdates(gate: Gate, status: Status, reviewer: Option<string>, note: Option<string>)
    ensures Updates(SetDecision(gate, status, reviewer, note), WithDecision(gate, status, reviewer, note))
  {}

  lemma SetReplayUpdates(result: Object)
    ensures Updates(SetReplay(result), WithReplay(result))
  {}

  class ProposalStore {
    var rows: seq<Row>
    /** The proposals the rows stand for. */
    ghost var proposals: seq<Proposal>

    ghost predicate Valid()
      reads this
    {
      Image(proposals, rows, Encode) && DistinctIds(proposals)
    }

    constructor ()
      ensures Valid() && proposals == []
    {
      rows, proposals := [], [];
    }

    method Save(p: Proposal)
      requires Valid()
      modifies this
      ensures Valid() && proposals == Saved(old(proposals), p)
    {
      RowsWithout(rows, proposals, p.id);
      SavedIsDistinct(proposals, p);
      rows := Filter(rows, (r: Row) => r.id != p.id) + [Encode(p)];
      proposals := Saved(proposals, p);
    }

    method Get(id: string) returns (r: Option<Proposal>)
      requires Valid()
      ensures r == Lookup(proposals, id)
    {
      for i := 0 to |rows|
        invariant forall j {:trigger proposals[j]} :: 0 <= j < i ==> proposals[j].id != id
      {
        assert rows[i] == Encode(proposals[i]);
        if rows[i].id == id {
          LookupFinds(proposals, i);
          DecodeEncode(proposals[i]);
          return Decode(rows[i]);
        }
      }
      LookupMisses(proposals, id);
      r := None;
    }

    /** `UPDATE proposals SET ... WHERE id=?` */
    method Amend(id: string, update: Row -> Row, ghost f: Proposal -> Proposal)
      requires Valid() && Updates(update, f)
      modifies this
      ensures Valid() && proposals == Amended(old(proposals), id, f)
    {
      AmendedIsDistinct(proposals, id, f);
      var before := rows;
      rows := seq(|before|, i requires 0 <= i < |before| =>
        if before[i].id == id then update(before[i]) else before[i]);
      proposals := Amended(proposals, id, f);
    }

    method UpdateStatus(id: string, status: Status)
      requires Valid()
      modifies this
      ensures Valid() && proposals == Amended(old(proposals), id, WithStatus(status))
      ensures forall q :: Lookup(proposals, q)
                == match Lookup(old(proposals), q) {
                     case Some(p) => if q == id then Some(p.(status := status)) else Some(p)
                     case None => None }
    {
      AmendThenGetAll(proposals, id, WithStatus(status));
      SetStatusUpdates(status);
      Amend(id, SetStatus(status), WithStatus(status));
    }

    method UpdateGateDecision(id: string, gate: Gate, status: Status, reviewer: Option<string>, note: Option<string>)
      requires Valid()
      modifies this
      ensures Valid() && proposals == Amended(old(proposals), id, WithDecision(gate, status, reviewer, note))
      ensures forall q :: Lookup(proposals, q)
                == match Lookup(old(proposals), q) {
                     case Some(p) =>
                       if q != id then Some(p)
                       else Some(p.(gate := Some(gate), status := status, reviewer := reviewer, note := note))
                     case None => None }
    {
      AmendThenGetAll(proposals, id, WithDecision(gate, status, reviewer, note));
      SetDecisionUpdates(gate, status, reviewer, note);
      Amend(id, SetDecision(gate, status, reviewer, note), WithDecision(gate, status, reviewer, note));
    }

    method AttachReplayResult(id: string, result: Object)
      requires Valid()
      modifies this
      ensures Valid() && proposals == Amended(old(proposals), id, WithReplay(result))
      ensures forall q :: Lookup(proposals, q)
                == match Lookup(old(proposals), q) {
                     case Some(p) => if q == id then Some(p.(replay := Some(result))) else Some(p)
                     case None => None }
    {
      AmendThenGetAll(proposals, id, WithReplay(result));
      SetReplayUpdates(result);
      Amend(id, SetReplay(result), WithReplay(result));
    }

    method ListByStatus(status: Status) returns (r: seq<Proposal>)
      requires Valid()
      ensures r == ByStatus(proposals, status)
    {
      var q := (row: Row) => row.status == status.Text();
      RowsSelected(rows, proposals, Some(status), None, q);
      FilterSame(proposals, (p: Proposal) => Selects(Some(status), None, p), (p: Proposal) => p.status == status);
      r := DecodeAll(Filter(rows, q), ByStatus(proposals, status));
    }

    method List(status: Option<Status>, dimension: Option<Dimension>, limit: int, offset: int)
      returns (r: seq<Proposal>)
      requires Valid()
      ensures r == Page(Selection(proposals, status, dimension), limit, offset)
    {
      var clauses := Where(status, dimension);
      var q := (row: Row) => All(clauses, row);
      RowsSelected(rows, proposals, status, dimension, q);
      ghost var p := (p: Proposal) => Selects(status, dimension, p);
      ImagePage(Filter(proposals, p), Filter(rows, q), Encode, limit, offset);
      r := DecodeAll(Page(Reverse(Filter(rows, q)), limit, offset),
                     Page(Selection(proposals, status, dimension), limit, offset));
    }

    method CountByStatus(status: Status) returns (n: int)
      requires Valid()
      ensures n == |ByStatus(proposals, status)|
    {
      var q := (row: Row) => row.status == status.Text();
      n := Count(rows, q);
      CountIsFilterLength(rows, q);
      RowsSelected(rows, proposals, Some(status), None, q);
      FilterSame(proposals, (p: Proposal) => Selects(Some(status), None, p), (p: Proposal) => p.status == status);
    }
  }

  /** One clause for every filter that is given. */
  method Where(status: Option<Status>, dimension: Option<Dimension>) returns (clauses: seq<Row -> bool>)
    ensures forall r :: All(clauses, r) == SelectsRow(status, dimension, r)
  {
    clauses := [];
    if status.Some? { clauses := AddClause(clauses, (r: Row) => r.status == status.value.Text()); }
    assert forall r :: All(clauses, r) == SelectsRow(status, None, r);
    if dimension.Some? { clauses := AddClause(clauses, (r: Row) => r.dimension == dimension.value.Text()); }
  }

  method DecodeAll(fetched: seq<Row>, ghost expected: seq<Proposal>) returns (r: seq<Proposal>)
    requires Image(expected, fetched, Encode)
    ensures r == expected
  {
    r := [];
    for i := 0 to |fetched|
      invariant r == expected[..i]
    {
      var p := DecodeAt(fetched, i, expected);
      r := r + [p];
    }
  }

  method DecodeAt(fetched: seq<Row>, i: nat, ghost expected: seq<Proposal>) returns (r: Proposal)
    requires i < |fetched| && Image(expected, fetched, Encode)
    ensures r == expected[i]
  {
    DecodeEncode(expected[i]);
    r := Decode(fetched[i]).value;
  }
}
