/** Option, the text order, and small facts about sequences that every other module uses. */
module Prelude {

  datatype Option<+T> = None | Some(value: T)
  {
    predicate IsFailure() { None? }

    function PropagateFailure<U>(): Option<U>
      requires None?
    {
      None
    }

    function Extract(): T
      requires Some?
    {
      value
    }
  }

  /** Order of texts: by code point, a proper prefix first.
      SQLite's BINARY collation and Python's `<` on `str` agree on it. */
  predicate TextLess(a: string, b: string)
  {
    if |b| == 0 then false
    else if |a| == 0 then true
    else if a[0] != b[0] then a[0] < b[0]
    else TextLess(a[1..], b[1..])
  }

  lemma {:induction false} TextLessIrreflexive(a: string)
    ensures !TextLess(a, a)
  {
    if |a| > 0 { TextLessIrreflexive(a[1..]); }
  }

  lemma {:induction false} TextLessTransitive(a: string, b: string, c: string)
    requires TextLess(a, b) && TextLess(b, c)
    ensures TextLess(a, c)
  {
    if |a| > 0 && a[0] == b[0] == c[0] { TextLessTransitive(a[1..], b[1..], c[1..]); }
  }

  lemma {:induction false} TextLessTotal(a: string, b: string)
    ensures a == b || TextLess(a, b) || TextLess(b, a)
  {
    if |a| > 0 && |b| > 0 && a[0] == b[0] {
      TextLessTotal(a[1..], b[1..]);
      assert a == [a[0]] + a[1..] && b == [b[0]] + b[1..];
    }
  }

  lemma TextLessAsymmetric(a: string, b: string)
    requires TextLess(a, b)
    ensures !TextLess(b, a) && a != b
  {
    TextLessIrreflexive(a);
    if TextLess(b, a) { TextLessTransitive(a, b, a); }
  }

  /** Two texts that start with blocks of equal length compare block first, remainder second. */
  lemma {:induction false} TextLessByBlock(p: string, q: string, a: string, b: string)
    requires |p| == |q|
    ensures TextLess(p + a, q + b) <==> TextLess(p, q) || (p == q && TextLess(a, b))
  {
    if |p| == 0 {
      assert p + a == a && q + b == b;
    } else {
      TextLessByBlock(p[1..], q[1..], a, b);
      assert (p + a)[1..] == p[1..] + a && (q + b)[1..] == q[1..] + b;
      assert p == [p[0]] + p[1..] && q == [q[0]] + q[1..];
    }
  }

  /** SQL's and Python's `LIMIT`: a negative limit means no limit. */
  function Limit<T>(s: seq<T>, limit: int): (r: seq<T>)
    ensures r <= s
    ensures |r| == if limit < 0 || limit > |s| then |s| else limit
  {
    if 0 <= limit <= |s| then s[..limit] else s
  }

  lemma Reassociate<T>(a: seq<T>, b: seq<T>, c: seq<T>)
    ensures a + (b + c) == a + b + c
  {}

  lemma AppendNothing<T>(s: seq<T>)
    ensures s + [] == s
  {}

  function Concat<T>(parts: seq<seq<T>>): seq<T>
  {
    if parts == [] then [] else Concat(parts[..|parts| - 1]) + parts[|parts| - 1]
  }

  function Reverse<T>(s: seq<T>): (r: seq<T>)
    ensures |r| == |s|
    ensures forall i :: 0 <= i < |s| ==> r[i] == s[|s| - 1 - i]
  {
    if s == [] then [] else [s[|s| - 1]] + Reverse(s[..|s| - 1])
  }

  /** The elements of `s` that satisfy `p`, in order. */
  function Filter<T>(s: seq<T>, p: T -> bool): seq<T>
  {
    if s == [] then []
    else Filter(s[..|s| - 1], p) + if p(s[|s| - 1]) then [s[|s| - 1]] else []
  }

  lemma FilterSnoc<T>(s: seq<T>, x: T, p: T -> bool)
    ensures Filter(s + [x], p) == Filter(s, p) + if p(x) then [x] else []
  {
    var t := s + [x];
    assert t[..|t| - 1] == s;
  }

  lemma {:induction false} FilterAppend<T>(s: seq<T>, t: seq<T>, p: T -> bool)
    ensures Filter(s + t, p) == Filter(s, p) + Filter(t, p)
  {
    if t == [] {
      assert s + t == s;
    } else {
      var n := |t| - 1;
      FilterAppend(s, t[..n], p);
      assert (s + t)[..|s + t| - 1] == s + t[..n];
      assert (s + t)[|s + t| - 1] == t[n];
    }
  }

  lemma {:induction false} FilterMembers<T>(s: seq<T>, p: T -> bool)
    ensures forall i :: 0 <= i < |Filter(s, p)| ==> Filter(s, p)[i] in s && p(Filter(s, p)[i])
    ensures forall i :: 0 <= i < |s| && p(s[i]) ==> s[i] in Filter(s, p)
  {
    if s != [] {
      var n := |s| - 1;
      FilterMembers(s[..n], p);
      assert s == s[..n] + [s[n]];
    }
  }

  lemma {:induction false} FilterAll<T>(s: seq<T>, p: T -> bool)
    requires forall i :: 0 <= i < |s| ==> p(s[i])
    ensures Filter(s, p) == s
  {
    if s != [] {
      FilterAll(s[..|s| - 1], p);
      assert s == s[..|s| - 1] + [s[|s| - 1]];
    }
  }

  lemma {:induction false} FilterSame<T(!new)>(s: seq<T>, p: T -> bool, q: T -> bool)
    requires forall x :: p(x) == q(x)
    ensures Filter(s, p) == Filter(s, q)
  {
    if s != [] { FilterSame(s[..|s| - 1], p, q); }
  }

  lemma {:induction false} FilterTwice<T>(s: seq<T>, p: T -> bool, q: T -> bool, both: T -> bool)
    requires forall i :: 0 <= i < |s| ==> both(s[i]) == (p(s[i]) && q(s[i]))
    ensures Filter(Filter(s, p), q) == Filter(s, both)
  {
    if s != [] {
      var n := |s| - 1;
      FilterTwice(s[..n], p, q, both);
      FilterSnoc(Filter(s[..n], p), s[n], q);
      assert Filter(s[..n], p) + [] == Filter(s[..n], p);
    }
  }

  /** How many elements of `s` satisfy `p`. */
  function Count<T>(s: seq<T>, p: T -> bool): nat
  {
    if s == [] then 0
    else Count(s[..|s| - 1], p) + if p(s[|s| - 1]) then 1 else 0
  }

  lemma {:induction false} CountIsFilterLength<T>(s: seq<T>, p: T -> bool)
    ensures Count(s, p) == |Filter(s, p)|
  {
    if s != [] { CountIsFilterLength(s[..|s| - 1], p); }
  }

  lemma {:induction false} CountAppend<T>(s: seq<T>, t: seq<T>, p: T -> bool)
    ensures Count(s + t, p) == Count(s, p) + Count(t, p)
  {
    CountIsFilterLength(s, p);
    CountIsFilterLength(t, p);
    CountIsFilterLength(s + t, p);
    FilterAppend(s, t, p);
  }

  /** Replacing one element changes the count by that element's share alone. */
  lemma {:induction false} CountUpdate<T>(s: seq<T>, i: nat, x: T, p: T -> bool)
    requires i < |s|
    ensures Count(s[i := x], p) + (if p(s[i]) then 1 else 0) == Count(s, p) + if p(x) then 1 else 0
  {
    var n := |s| - 1;
    if i == n {
      assert s[i := x][..n] == s[..n];
    } else {
      CountUpdate(s[..n], i, x, p);
      assert s[i := x][..n] == s[..n][i := x];
    }
  }

  /** Two lists of one length whose elements are related, place by place. */
  predicate Matched<E, P>(s: seq<E>, t: seq<P>, related: (E, P) -> bool)
  {
    |s| == |t| && forall i {:trigger s[i]} :: 0 <= i < |s| ==> related(s[i], t[i])
  }

  lemma {:induction false} FiltersMatch<E(!new), P(!new)>(s: seq<E>, t: seq<P>, related: (E, P) -> bool,
                                                          p: E -> bool, q: P -> bool)
    requires Matched(s, t, related) && forall x, y {:trigger related(x, y)} :: related(x, y) ==> p(x) == q(y)
    ensures Matched(Filter(s, p), Filter(t, q), related)
  {
    if s != [] {
      var n := |s| - 1;
      FiltersMatch(s[..n], t[..n], related, p, q);
      assert related(s[n], t[n]);
    }
  }

  // ---- a list and its image under a change of representation ------------------------------

  predicate Image<T, U(==)>(s: seq<T>, t: seq<U>, f: T -> U)
  {
    |s| == |t| && forall i {:trigger t[i]} :: 0 <= i < |t| ==> t[i] == f(s[i])
  }

  lemma ImageReverse<T, U>(s: seq<T>, t: seq<U>, f: T -> U)
    requires Image(s, t, f)
    ensures Image(Reverse(s), Reverse(t), f)
  {}

  lemma ImageSlice<T, U>(s: seq<T>, t: seq<U>, f: T -> U, from: nat, to: nat)
    requires Image(s, t, f) && from <= to <= |s|
    ensures Image(s[from..to], t[from..to], f)
  {}

  lemma {:induction false} ImageFilter<T, U>(s: seq<T>, t: seq<U>, f: T -> U, p: T -> bool, q: U -> bool)
    requires Image(s, t, f)
    requires forall x :: x in s ==> q(f(x)) == p(x)
    ensures Image(Filter(s, p), Filter(t, q), f)
  {
    if s != [] {
      var n := |s| - 1;
      ImageFilter(s[..n], t[..n], f, p, q);
      assert s[n] in s && t[n] == f(s[n]);
    }
  }
}
