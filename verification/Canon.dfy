/** Canonical text: `json.dumps(payload, sort_keys=True)` is equal for two payloads exactly when
    they are equal as JSON values. */
module Canon {
  import opened Prelude
  import opened Dicts
  import opened Json
  import opened JsonRoundTrip

  /** A JSON value with the order of its keys forgotten. */
  datatype Value =
    | VNull
    | VBool(b: bool)
    | VInt(n: int)
    | VFloat(f: Float)
    | VStr(s: string)
    | VArr(items: seq<Value>)
    | VObj(members: map<string, Value>)

  function Denote(v: Json): Value
    decreases v, 1
  {
    match v
    case JNull => VNull
    case JBool(b) => VBool(b)
    case JInt(n) => VInt(n)
    case JFloat(f) => VFloat(f)
    case JStr(s) => VStr(s)
    case JArr(items) => VArr(DenoteItems(items))
    case JObj(members) => VObj(DenoteMembers(members))
  }

  function DenoteItems(items: seq<Json>): seq<Value>
    decreases items, 0
  {
    if items == [] then [] else [Denote(items[0])] + DenoteItems(items[1..])
  }

  function DenoteMembers(members: Dict<string, Json>): map<string, Value>
    decreases members, 0
  {
    if members == [] then map[]
    else DenoteMembers(members[1..])[members[0].0 := DenoteMember(members[0])]
  }

  function DenoteMember(m: (string, Json)): Value
    decreases m, 0
  {
    Denote(m.1)
  }

  // ---- sort_keys --------------------------------------------------------------------------

  function Insert(m: (string, Json), sorted: Dict<string, Json>): Dict<string, Json>
  {
    if sorted == [] || TextLess(m.0, sorted[0].0) then [m] + sorted
    else [sorted[0]] + Insert(m, sorted[1..])
  }

  /** The value with the keys of every object in text order. */
  function Sorted(v: Json): Json
    decreases v, 1
  {
    match v
    case JArr(items) => JArr(SortedItems(items))
    case JObj(members) => JObj(SortedMembers(members))
    case _ => v
  }

  function SortedItems(items: seq<Json>): seq<Json>
    decreases items, 0
  {
    if items == [] then [] else [Sorted(items[0])] + SortedItems(items[1..])
  }

  function SortedMembers(members: Dict<string, Json>): Dict<string, Json>
    decreases members, 0
  {
    if members == [] then [] else Insert(SortedMember(members[0]), SortedMembers(members[1..]))
  }

  function SortedMember(m: (string, Json)): (string, Json)
    decreases m, 0
  {
    (m.0, Sorted(m.1))
  }

  function CanonText(v: Json, st: Style): string
  {
    Dumps(Sorted(v), st)
  }

  // ---- sorting keeps the value ------------------------------------------------------------

  predicate KeysIncrease(members: Dict<string, Json>)
  {
    forall i, j :: 0 <= i < j < |members| ==> TextLess(members[i].0, members[j].0)
  }

  predicate Ordered(v: Json)
  {
    match v
    case JArr(items) => forall x | x in items :: Ordered(x)
    case JObj(members) => KeysIncrease(members) && forall m | m in members :: Ordered(m.1)
    case _ => true
  }

  lemma {:induction false} DenotedKeys(members: Dict<string, Json>, k: string)
    ensures k in DenoteMembers(members) <==> Has(members, k)
  {
    if members != [] { DenotedKeys(members[1..], k); }
  }

  lemma {:induction false} HasIsMembership(members: Dict<string, Json>, k: string)
    ensures Has(members, k) <==> exists i :: 0 <= i < |members| && members[i].0 == k
  {
    HasKeys(members, k);
  }

  lemma {:induction false} InsertKeeps(m: (string, Json), s: Dict<string, Json>)
    requires KeysIncrease(s) && !Has(s, m.0)
    ensures var r := Insert(m, s);
            && KeysIncrease(r)
            && DenoteMembers(r) == DenoteMembers(s)[m.0 := DenoteMember(m)]
            && (forall x :: x in r <==> x == m || x in s)
  {
    if s == [] || TextLess(m.0, s[0].0) {
      var r := [m] + s;
      assert r[1..] == s;
      forall j | 0 < j < |r| ensures TextLess(m.0, r[j].0) {
        if j > 1 { TextLessTransitive(m.0, s[0].0, s[j - 1].0); }
      }
    } else {
      TextLessTotal(m.0, s[0].0);
      InsertKeeps(m, s[1..]);
      var t := Insert(m, s[1..]);
      var r := [s[0]] + t;
      assert r[1..] == t;
      forall j | 0 <= j < |t| ensures TextLess(s[0].0, t[j].0) {
        assert t[j] in t;
        if t[j] != m { var i :| 0 <= i < |s[1..]| && s[1..][i] == t[j]; }
      }
      assert s == [s[0]] + s[1..];
    }
  }

  lemma {:induction false} SortedKeeps(v: Json)
    requires v.WellFormed()
    ensures Denote(Sorted(v)) == Denote(v) && Ordered(Sorted(v))
    decreases v, 1
  {
    match v
    case JArr(items) => SortedItemsKeep(items);
    case JObj(members) => SortedMembersKeep(members);
    case _ =>
  }

  lemma {:induction false} SortedItemsKeep(items: seq<Json>)
    requires forall x | x in items :: x.WellFormed()
    ensures DenoteItems(SortedItems(items)) == DenoteItems(items)
    ensures forall x | x in SortedItems(items) :: Ordered(x)
    decreases items, 0
  {
    if items != [] {
      SortedKeeps(items[0]);
      SortedItemsKeep(items[1..]);
      assert SortedItems(items)[1..] == SortedItems(items[1..]);
    }
  }

  lemma {:induction false} SortedMembersKeep(members: Dict<string, Json>)
    requires Distinct(members) && forall m | m in members :: m.1.WellFormed()
    ensures DenoteMembers(SortedMembers(members)) == DenoteMembers(members)
    ensures KeysIncrease(SortedMembers(members))
    ensures forall m | m in SortedMembers(members) :: Ordered(m.1)
    decreases members, 0
  {
    if members != [] {
      assert members[0] in members;
      SortedMemberKeeps(members[0]);
      SortedMembersKeep(members[1..]);
      var rest := SortedMembers(members[1..]);
      DenotedKeys(rest, members[0].0);
      DenotedKeys(members[1..], members[0].0);
      InsertKeeps(SortedMember(members[0]), rest);
    }
  }

  lemma {:induction false} SortedMemberKeeps(m: (string, Json))
    requires m.1.WellFormed()
    ensures DenoteMember(SortedMember(m)) == DenoteMember(m) && Ordered(SortedMember(m).1)
    decreases m, 0
  {
    SortedKeeps(m.1);
  }

  lemma {:induction false} OrderedIsWellFormed(v: Json)
    requires Ordered(v)
    ensures v.WellFormed()
  {
    match v
    case JArr(items) => forall x | x in items ensures x.WellFormed() { OrderedIsWellFormed(x); }
    case JObj(members) =>
      forall m | m in members ensures m.1.WellFormed() { OrderedIsWellFormed(m.1); }
      IncreasingIsDistinct(members);
    case _ =>
  }

  lemma {:induction false} IncreasingIsDistinct(members: Dict<string, Json>)
    requires KeysIncrease(members)
    ensures Distinct(members)
  {
    if members != [] {
      IncreasingIsDistinct(members[1..]);
      HasIsMembership(members[1..], members[0].0);
      TextLessIrreflexive(members[0].0);
    }
  }

  // ---- an ordered value is determined by what it denotes ----------------------------------

  lemma {:induction false} OrderedIsUnique(x: Json, y: Json)
    requires Ordered(x) && Ordered(y) && Denote(x) == Denote(y)
    ensures x == y
    decreases x, 1
  {
    match x
    case JArr(items) => OrderedItemsAreUnique(items, y.items);
    case JObj(members) => OrderedMembersAreUnique(members, y.members);
    case _ =>
  }

  lemma {:induction false} OrderedItemsAreUnique(xs: seq<Json>, ys: seq<Json>)
    requires forall x | x in xs :: Ordered(x)
    requires forall y | y in ys :: Ordered(y)
    requires DenoteItems(xs) == DenoteItems(ys)
    ensures xs == ys
    decreases xs, 0
  {
    if xs != [] && ys != [] {
      assert DenoteItems(xs)[0] == Denote(xs[0]) && DenoteItems(xs)[1..] == DenoteItems(xs[1..]);
      assert DenoteItems(ys)[0] == Denote(ys[0]) && DenoteItems(ys)[1..] == DenoteItems(ys[1..]);
      OrderedIsUnique(xs[0], ys[0]);
      OrderedItemsAreUnique(xs[1..], ys[1..]);
      assert xs == [xs[0]] + xs[1..] && ys == [ys[0]] + ys[1..];
    }
  }

  /** The first key of an increasing list is below every other key it holds. */
  lemma FirstKeyIsLeast(members: Dict<string, Json>, k: string)
    requires members != [] && KeysIncrease(members) && Has(members, k)
    ensures k == members[0].0 || TextLess(members[0].0, k)
  {
    HasIsMembership(members, k);
  }

  lemma FirstKeysAgree(xs: Dict<string, Json>, ys: Dict<string, Json>)
    requires xs != [] && ys != [] && KeysIncrease(xs) && KeysIncrease(ys)
    requires DenoteMembers(xs) == DenoteMembers(ys)
    ensures xs[0].0 == ys[0].0
  {
    DenotedKeys(xs, xs[0].0);
    DenotedKeys(ys, xs[0].0);
    DenotedKeys(xs, ys[0].0);
    DenotedKeys(ys, ys[0].0);
    FirstKeyIsLeast(xs, ys[0].0);
    FirstKeyIsLeast(ys, xs[0].0);
    if xs[0].0 != ys[0].0 { TextLessAsymmetric(xs[0].0, ys[0].0); }
  }

  lemma TailDenotes(xs: Dict<string, Json>)
    requires xs != [] && KeysIncrease(xs)
    ensures DenoteMembers(xs[1..]) == DenoteMembers(xs) - {xs[0].0}
  {
    IncreasingIsDistinct(xs);
    DenotedKeys(xs[1..], xs[0].0);
  }

  lemma {:induction false} OrderedMembersAreUnique(xs: Dict<string, Json>, ys: Dict<string, Json>)
    requires KeysIncrease(xs) && forall m | m in xs :: Ordered(m.1)
    requires KeysIncrease(ys) && forall m | m in ys :: Ordered(m.1)
    requires DenoteMembers(xs) == DenoteMembers(ys)
    ensures xs == ys
    decreases xs, 0
  {
    if xs == [] || ys == [] {
      if xs != [] { DenotedKeys(xs, xs[0].0); }
      if ys != [] { DenotedKeys(ys, ys[0].0); }
    } else {
      FirstKeysAgree(xs, ys);
      assert DenoteMembers(xs)[xs[0].0] == DenoteMember(xs[0]);
      assert DenoteMembers(ys)[ys[0].0] == DenoteMember(ys[0]);
      assert xs[0] in xs && ys[0] in ys;
      OrderedMemberIsUnique(xs[0], ys[0]);
      TailDenotes(xs);
      TailDenotes(ys);
      OrderedMembersAreUnique(xs[1..], ys[1..]);
      assert xs == [xs[0]] + xs[1..] && ys == [ys[0]] + ys[1..];
    }
  }

  lemma {:induction false} OrderedMemberIsUnique(x: (string, Json), y: (string, Json))
    requires Ordered(x.1) && Ordered(y.1) && DenoteMember(x) == DenoteMember(y)
    ensures x.1 == y.1
    decreases x, 0
  {
    OrderedIsUnique(x.1, y.1);
  }

  /** Two payloads have the same canonical text exactly when they are equal as JSON values. */
  lemma CanonTextIsInjective(a: Json, b: Json, st: Style)
    requires a.WellFormed() && b.WellFormed()
    ensures CanonText(a, st) == CanonText(b, st) <==> Denote(a) == Denote(b)
  {
    SortedKeeps(a);
    SortedKeeps(b);
    OrderedIsWellFormed(Sorted(a));
    OrderedIsWellFormed(Sorted(b));
    LoadsDumps(Sorted(a), st);
    LoadsDumps(Sorted(b), st);
    if Denote(a) == Denote(b) { OrderedIsUnique(Sorted(a), Sorted(b)); }
  }

  /** `payload.get(key)` depends on the value alone, not on the order of the keys. */
  lemma {:induction false} GetDenotes(members: Dict<string, Json>, key: string)
    ensures Get(members, key).Some? <==> key in DenoteMembers(members)
    ensures Get(members, key).Some? ==> Denote(Get(members, key).value) == DenoteMembers(members)[key]
  {
    if members != [] {
      if members[0].0 != key { GetDenotes(members[1..], key); }
      assert DenoteMember(members[0]) == Denote(members[0].1);
    }
  }

  lemma AtDenotes(a: Json, b: Json, key: string)
    requires Denote(a) == Denote(b)
    ensures Denote(a.At(key)) == Denote(b.At(key))
  {
    if a.JObj? {
      GetDenotes(a.members, key);
      GetDenotes(b.members, key);
    }
  }
}
