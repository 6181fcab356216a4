/** SQL's `ORDER BY key ASC` with ties in row order, as a stable insertion. */
module Sorting {
  import opened Prelude

  function InsertBy<T>(sorted: seq<T>, x: T, key: T -> string): seq<T>
  {
    if sorted == [] then [x]
    else
      var n := |sorted| - 1;
      if TextLess(key(x), key(sorted[n])) then InsertBy(sorted[..n], x, key) + [sorted[n]]
      else sorted + [x]
  }

  function SortBy<T>(s: seq<T>, key: T -> string): seq<T>
  {
    if s == [] then [] else InsertBy(SortBy(s[..|s| - 1], key), s[|s| - 1], key)
  }

  predicate SortedBy<T>(s: seq<T>, key: T -> string)
  {
    forall i, j :: 0 <= i < j < |s| ==> !TextLess(key(s[j]), key(s[i]))
  }

  lemma NotLessTransitive(a: string, b: string, c: string)
    requires !TextLess(b, a) && !TextLess(c, b)
    ensures !TextLess(c, a)
  {
    TextLessTotal(a, b);
    if TextLess(c, a) && TextLess(a, b) { TextLessTransitive(c, a, b); }
  }

  lemma {:induction false} InsertByKeepsElements<T>(sorted: seq<T>, x: T, key: T -> string)
    ensures multiset(InsertBy(sorted, x, key)) == multiset(sorted) + multiset{x}
  {
    if sorted != [] {
      var n := |sorted| - 1;
      InsertByKeepsElements(sorted[..n], x, key);
      assert sorted == sorted[..n] + [sorted[n]];
    }
  }

  lemma {:induction false} InsertBySorted<T>(sorted: seq<T>, x: T, key: T -> string)
    requires SortedBy(sorted, key)
    ensures SortedBy(InsertBy(sorted, x, key), key)
  {
    if sorted != [] {
      var n := |sorted| - 1;
      if TextLess(key(x), key(sorted[n])) {
        InsertBySorted(sorted[..n], x, key);
        InsertByKeepsElements(sorted[..n], x, key);
        var r := InsertBy(sorted[..n], x, key);
        forall i | 0 <= i < |r| ensures !TextLess(key(sorted[n]), key(r[i])) {
          assert r[i] in multiset(r);
          if r[i] == x { TextLessAsymmetric(key(x), key(sorted[n])); } else { assert r[i] in sorted[..n]; }
        }
      } else {
        forall i | 0 <= i < n ensures !TextLess(key(x), key(sorted[i])) {
          NotLessTransitive(key(sorted[i]), key(sorted[n]), key(x));
        }
      }
    }
  }

  lemma {:induction false} SortBySorts<T>(s: seq<T>, key: T -> string)
    ensures SortedBy(SortBy(s, key), key)
    ensures multiset(SortBy(s, key)) == multiset(s)
    ensures |SortBy(s, key)| == |s|
  {
    if s != [] {
      var n := |s| - 1;
      SortBySorts(s[..n], key);
      InsertBySorted(SortBy(s[..n], key), s[n], key);
      InsertByKeepsElements(SortBy(s[..n], key), s[n], key);
      assert s == s[..n] + [s[n]];
    }
    assert |multiset(SortBy(s, key))| == |SortBy(s, key)|;
    assert |multiset(s)| == |s|;
  }

  lemma InsertBySnoc<T>(s: seq<T>, last: T, x: T, key: T -> string)
    ensures InsertBy(s + [last], x, key)
         == if TextLess(key(x), key(last)) then InsertBy(s, x, key) + [last] else s + [last] + [x]
  {
    var t := s + [last];
    assert t[..|t| - 1] == s;
  }

  /** Inserting after a last element that is no greater. */
  lemma InsertByAtEnd<T>(s: seq<T>, x: T, key: T -> string)
    requires s == [] || !TextLess(key(x), key(s[|s| - 1]))
    ensures InsertBy(s, x, key) == s + [x]
  {}

  lemma {:induction false} InsertByFilter<T>(sorted: seq<T>, x: T, key: T -> string, p: T -> bool)
    requires SortedBy(sorted, key)
    ensures Filter(InsertBy(sorted, x, key), p)
         == if p(x) then InsertBy(Filter(sorted, p), x, key) else Filter(sorted, p)
  {
    if sorted == [] {
      FilterSnoc([], x, p);
      assert [] + [x] == [x];
    } else {
      var n := |sorted| - 1;
      var last := sorted[n];
      assert sorted == sorted[..n] + [last];
      FilterSnoc(sorted[..n], last, p);
      if TextLess(key(x), key(last)) {
        InsertByFilter(sorted[..n], x, key, p);
        FilterSnoc(InsertBy(sorted[..n], x, key), last, p);
        InsertBySnoc(Filter(sorted[..n], p), last, x, key);
        assert Filter(sorted[..n], p) + [] == Filter(sorted[..n], p);
      } else {
        FilterSnoc(sorted, x, p);
        LastIsAfterAll(sorted, x, key);
        FilteredInsertAtEnd(sorted, x, key, p);
      }
    }
  }

  lemma LastIsAfterAll<T>(sorted: seq<T>, x: T, key: T -> string)
    requires sorted != [] && SortedBy(sorted, key) && !TextLess(key(x), key(sorted[|sorted| - 1]))
    ensures forall i :: 0 <= i < |sorted| ==> !TextLess(key(x), key(sorted[i]))
  {
    var n := |sorted| - 1;
    forall i | 0 <= i < |sorted| ensures !TextLess(key(x), key(sorted[i])) {
      if i < n { NotLessTransitive(key(sorted[i]), key(sorted[n]), key(x)); }
    }
  }

  lemma FilteredInsertAtEnd<T>(s: seq<T>, x: T, key: T -> string, p: T -> bool)
    requires forall i :: 0 <= i < |s| ==> !TextLess(key(x), key(s[i]))
    ensures InsertBy(Filter(s, p), x, key) == Filter(s, p) + [x]
  {
    FilterMembers(s, p);
    InsertByAtEnd(Filter(s, p), x, key);
  }

  /** Selecting rows before or after sorting gives the same list. */
  lemma {:induction false} FilterCommutesWithSort<T>(s: seq<T>, key: T -> string, p: T -> bool)
    ensures Filter(SortBy(s, key), p) == SortBy(Filter(s, p), key)
  {
    if s != [] {
      var n := |s| - 1;
      FilterCommutesWithSort(s[..n], key, p);
      SortBySorts(s[..n], key);
      InsertByFilter(SortBy(s[..n], key), s[n], key, p);
      SortBySnoc(Filter(s[..n], p), s[n], key);
      assert Filter(s[..n], p) + [] == Filter(s[..n], p);
    }
  }

  lemma SortBySnoc<T>(s: seq<T>, x: T, key: T -> string)
    ensures SortBy(s + [x], key) == InsertBy(SortBy(s, key), x, key)
  {
    var t := s + [x];
    assert t[..|t| - 1] == s;
  }

  lemma {:induction false} SortOfSorted<T>(s: seq<T>, key: T -> string)
    requires SortedBy(s, key)
    ensures SortBy(s, key) == s
  {
    if s != [] {
      var n := |s| - 1;
      SortOfSorted(s[..n], key);
      assert s == s[..n] + [s[n]];
    }
  }

  /** Rows with equal keys come out in row order. */
  lemma SortByIsStable<T>(s: seq<T>, key: T -> string, k: string)
    ensures Filter(SortBy(s, key), (x: T) => key(x) == k) == Filter(s, (x: T) => key(x) == k)
  {
    var p := (x: T) => key(x) == k;
    FilterCommutesWithSort(s, key, p);
    FilterMembers(s, p);
    var f := Filter(s, p);
    forall i, j | 0 <= i < j < |f| ensures !TextLess(key(f[j]), key(f[i])) {
      assert p(f[i]) && p(f[j]);
      TextLessIrreflexive(k);
    }
    SortOfSorted(f, key);
  }

  /** Sorting after a change of representation that keeps the key. */
  lemma {:induction false} ImageSort<T, U>(s: seq<T>, t: seq<U>, f: T -> U, key: T -> string, key': U -> string)
    requires Image(s, t, f)
    requires forall x :: x in s ==> key'(f(x)) == key(x)
    ensures Image(SortBy(s, key), SortBy(t, key'), f)
  {
    if s != [] {
      var n := |s| - 1;
      ImageSort(s[..n], t[..n], f, key, key');
      SortBySorts(s[..n], key);
      var u := SortBy(s[..n], key);
      forall x | x in u ensures key'(f(x)) == key(x) {
        assert x in multiset(u);
        assert x in s[..n];
      }
      assert s[n] in s && t[n] == f(s[n]);
      ImageInsert(u, SortBy(t[..n], key'), s[n], f, key, key');
    }
  }

  lemma {:induction false} ImageInsert<T, U>(s: seq<T>, t: seq<U>, x: T, f: T -> U, key: T -> string, key': U -> string)
    requires Image(s, t, f)
    requires key'(f(x)) == key(x) && forall y :: y in s ==> key'(f(y)) == key(y)
    ensures Image(InsertBy(s, x, key), InsertBy(t, f(x), key'), f)
  {
    if s != [] {
      var n := |s| - 1;
      assert s[n] in s && t[n] == f(s[n]);
      ImageInsert(s[..n], t[..n], x, f, key, key');
    }
  }
}
