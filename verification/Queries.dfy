/** What SQL selects: rows that meet every clause, newest first, a page at a time. */
module Queries {
  import opened Prelude

  predicate All<R>(clauses: seq<R -> bool>, r: R)
  {
    forall i :: 0 <= i < |clauses| ==> clauses[i](r)
  }

  lemma AllSnoc<R>(clauses: seq<R -> bool>, c: R -> bool, r: R)
    ensures All(clauses + [c], r) <==> All(clauses, r) && c(r)
  {
    var more := clauses + [c];
    if All(more, r) {
      assert more[|clauses|](r);
      forall i | 0 <= i < |clauses| ensures clauses[i](r) { assert more[i](r); }
    }
  }

  method AddClause<R(!new)>(clauses: seq<R -> bool>, c: R -> bool) returns (more: seq<R -> bool>)
    ensures more == clauses + [c]
    ensures forall r :: All(more, r) <==> All(clauses, r) && c(r)
  {
    more := clauses + [c];
    forall r ensures All(more, r) <==> All(clauses, r) && c(r) { AllSnoc(clauses, c, r); }
  }

  // ---- pages ------------------------------------------------------------------------------

  /** `LIMIT ? OFFSET ?`: SQLite reads a negative offset as zero and a negative limit as none. */
  function Page<T>(s: seq<T>, limit: int, offset: int): seq<T>
  {
    var from := if offset < 0 then 0 else if offset > |s| then |s| else offset;
    Limit(s[from..], limit)
  }

  lemma ImagePage<T, U>(s: seq<T>, t: seq<U>, f: T -> U, limit: int, offset: int)
    requires Image(s, t, f)
    ensures Image(Page(Reverse(s), limit, offset), Page(Reverse(t), limit, offset), f)
  {
    ImageReverse(s, t, f);
    var from := if offset < 0 then 0 else if offset > |s| then |s| else offset;
    var to := if limit < 0 || from + limit > |s| then |s| else from + limit;
    ImageSlice(Reverse(s), Reverse(t), f, from, to);
    PageIsSlice(Reverse(s), limit, offset);
    PageIsSlice(Reverse(t), limit, offset);
  }

  lemma PageIsSlice<T>(s: seq<T>, limit: int, offset: int)
    ensures var from := if offset < 0 then 0 else if offset > |s| then |s| else offset;
            var to := if limit < 0 || from + limit > |s| then |s| else from + limit;
            Page(s, limit, offset) == s[from..to]
  {}

  /** The offset of page number k. */
  function Offset(limit: nat, k: nat): nat
  {
    if k == 0 then 0 else Offset(limit, k - 1) + limit
  }

  lemma {:induction false} OffsetIsProduct(limit: nat, k: nat)
    ensures Offset(limit, k) == k * limit
  {
    if k > 0 {
      OffsetIsProduct(limit, k - 1);
      assert (k - 1) * limit + limit == k * limit;
    }
  }

  /** The pages at offsets 0, limit, 2 * limit, ... */
  function Pages<T>(s: seq<T>, limit: nat, k: nat): (r: seq<seq<T>>)
    ensures |r| == k
  {
    if k == 0 then [] else Pages(s, limit, k - 1) + [Page(s, limit, Offset(limit, k - 1))]
  }

  function Take<T>(s: seq<T>, n: nat): seq<T>
  {
    if n < |s| then s[..n] else s
  }

  lemma PageExtends<T>(s: seq<T>, limit: nat, from: nat)
    ensures Take(s, from) + Page(s, limit, from) == Take(s, from + limit)
  {}

  lemma ConcatSnoc<T>(parts: seq<seq<T>>, last: seq<T>)
    ensures Concat(parts + [last]) == Concat(parts) + last
  {
    var all := parts + [last];
    assert all[..|all| - 1] == parts;
  }

  lemma {:induction false} PagesTakeMore<T>(s: seq<T>, limit: nat, k: nat)
    ensures Concat(Pages(s, limit, k)) == Take(s, Offset(limit, k))
  {
    if k > 0 {
      PagesTakeMore(s, limit, k - 1);
      NextPage(Pages(s, limit, k - 1), s, limit, Offset(limit, k - 1));
    }
  }

  lemma NextPage<T>(before: seq<seq<T>>, s: seq<T>, limit: nat, from: nat)
    requires Concat(before) == Take(s, from)
    ensures Concat(before + [Page(s, limit, from)]) == Take(s, from + limit)
  {
    PageExtends(s, limit, from);
    ConcatSnoc(before, Page(s, limit, from));
  }

  /** Successive pages concatenate to a prefix of the list, and to the whole of it once they reach its end. */
  lemma PagesTile<T>(s: seq<T>, limit: nat, k: nat)
    requires limit > 0
    ensures Concat(Pages(s, limit, k)) == Take(s, k * limit)
    ensures k * limit >= |s| ==> Concat(Pages(s, limit, k)) == s
  {
    PagesTakeMore(s, limit, k);
    OffsetIsProduct(limit, k);
  }

  lemma PageAfterPrefix<T>(a: seq<T>, b: seq<T>, limit: int, offset: nat)
    ensures Page(a + b, limit, |a| + offset) == Page(b, limit, offset)
  {
    if offset <= |b| {
      assert (a + b)[|a| + offset..] == b[offset..];
    } else {
      assert (a + b)[|a + b|..] == [] && b[|b|..] == [];
    }
  }

  lemma {:induction false} ReverseAppend<T>(s: seq<T>, t: seq<T>)
    ensures Reverse(s + t) == Reverse(t) + Reverse(s)
  {
    var r := Reverse(t) + Reverse(s);
    forall i | 0 <= i < |r| ensures Reverse(s + t)[i] == r[i] {}
  }
}
