/** `json.loads(json.dumps(v)) == v`: every value is read back whole, whatever text follows it. */
module JsonRoundTrip {
  import opened Prelude
  import opened Dicts
  import opened Json

  // ---- strings ----------------------------------------------------------------------------

  lemma HexDigitReadsBack(k: nat)
    requires k < 16
    ensures HexValue(HexDigit(k)) == Some(k)
  {}

  lemma FourDigitsReadBack(a: nat, b: nat, c: nat, d: nat, rest: string)
    requires a < 16 && b < 16 && c < 16 && d < 16
    ensures ReadHex4([HexDigit(a), HexDigit(b), HexDigit(c), HexDigit(d)] + rest)
         == Some((a * 0x1000 + b * 0x100 + c * 0x10 + d, rest))
  {
    var t := [HexDigit(a), HexDigit(b), HexDigit(c), HexDigit(d)] + rest;
    assert t[4..] == rest;
    HexDigitReadsBack(a);
    HexDigitReadsBack(b);
    HexDigitReadsBack(c);
    HexDigitReadsBack(d);
    assert t[0] == HexDigit(a) && t[1] == HexDigit(b) && t[2] == HexDigit(c) && t[3] == HexDigit(d);
  }

  lemma HexPlaces(n: nat)
    requires n < 0x10000
    ensures n / 0x1000 < 16
    ensures n / 0x1000 * 0x1000 + n / 0x100 % 16 * 0x100 + n / 0x10 % 16 * 0x10 + n % 16 == n
  {
    assert n / 0x100 / 16 == n / 0x1000 && n / 0x10 / 16 == n / 0x100;
  }

  lemma Hex4RoundTrip(n: nat, rest: string)
    requires n < 0x10000
    ensures ReadHex4(Hex4(n) + rest) == Some((n, rest))
  {
    HexPlaces(n);
    var a, b, c, d := n / 0x1000, n / 0x100 % 16, n / 0x10 % 16, n % 16;
    assert Hex4(n) == [HexDigit(a), HexDigit(b), HexDigit(c), HexDigit(d)];
    FourDigitsReadBack(a, b, c, d, rest);
  }

  lemma UnicodeEscapeReadsBack(n: nat, rest: string)
    requires n < 0xd800 || 0xe000 <= n < 0x10000
    ensures ReadEscape("u" + (Hex4(n) + rest)) == Some((n as char, rest))
  {
    Hex4RoundTrip(n, rest);
    assert ("u" + (Hex4(n) + rest))[1..] == Hex4(n) + rest;
  }

  lemma SurrogatesReadBack(hi: nat, lo: nat, rest: string)
    requires 0xd800 <= hi < 0xdc00 <= lo < 0xe000
    ensures ReadEscape("u" + (Hex4(hi) + ("\\u" + (Hex4(lo) + rest))))
         == Some(((0x10000 + (hi - 0xd800) * 0x400 + (lo - 0xdc00)) as char, rest))
  {
    var low := "\\u" + (Hex4(lo) + rest);
    Hex4RoundTrip(hi, low);
    Hex4RoundTrip(lo, rest);
    assert ("u" + (Hex4(hi) + low))[1..] == Hex4(hi) + low;
    assert low[2..] == Hex4(lo) + rest;
  }

  predicate ShortEscape(c: char)
  {
    c in "\"\\\n\r\t" || c as int == 12 || c as int == 8
  }

  lemma ShortEscapeReadsBack(c: char, ascii: bool, rest: string)
    requires ShortEscape(c)
    ensures var t := EscapeChar(c, ascii) + rest; t[0] == '\\' && ReadEscape(t[1..]) == Some((c, rest))
  {
    var t := EscapeChar(c, ascii) + rest;
    assert t[1..][1..] == rest;
  }

  lemma ControlEscapeReadsBack(c: char, ascii: bool, rest: string)
    requires !ShortEscape(c) && EscapeChar(c, ascii) != [c] && c as int < 0x10000
    ensures var t := EscapeChar(c, ascii) + rest; t[0] == '\\' && ReadEscape(t[1..]) == Some((c, rest))
  {
    UnicodeEscapeReadsBack(c as int, rest);
    AfterBackslash(Hex4(c as int), rest);
  }

  lemma AfterBackslash(digits: string, rest: string)
    ensures ("\\u" + digits + rest)[0] == '\\' && ("\\u" + digits + rest)[1..] == "u" + (digits + rest)
  {}

  lemma HalvesJoin(n: nat)
    requires 0x10000 <= n < 0x110000
    ensures 0x10000 + (HighHalf(n) - 0xd800) * 0x400 + (LowHalf(n) - 0xdc00) == n
  {}

  lemma AstralEscape(c: char)
    requires c as int >= 0x10000
    ensures EscapeChar(c, true) == "\\u" + Hex4(HighHalf(c as int)) + "\\u" + Hex4(LowHalf(c as int))
  {}

  lemma TwoEscapes(hi: string, lo: string, rest: string)
    ensures var t := ("\\u" + hi + "\\u" + lo) + rest;
            t[0] == '\\' && t[1..] == "u" + (hi + ("\\u" + (lo + rest)))
  {}

  lemma AstralEscapeReadsBack(c: char, rest: string)
    requires c as int >= 0x10000
    ensures var t := EscapeChar(c, true) + rest; t[0] == '\\' && ReadEscape(t[1..]) == Some((c, rest))
  {
    var n := c as int;
    HalvesJoin(n);
    SurrogatesReadBack(HighHalf(n), LowHalf(n), rest);
    AstralEscape(c);
    TwoEscapes(Hex4(HighHalf(n)), Hex4(LowHalf(n)), rest);
  }

  /** Every character is written as itself, or as a backslash and an escape that reads back as it. */
  lemma EscapeReadsBack(c: char, ascii: bool, rest: string)
    requires EscapeChar(c, ascii) != [c]
    ensures var t := EscapeChar(c, ascii) + rest; t[0] == '\\' && ReadEscape(t[1..]) == Some((c, rest))
  {
    if ShortEscape(c) {
      ShortEscapeReadsBack(c, ascii, rest);
    } else if c as int < 0x10000 {
      ControlEscapeReadsBack(c, ascii, rest);
    } else {
      AstralEscapeReadsBack(c, rest);
    }
  }

  lemma PlainCharacters(c: char, ascii: bool)
    ensures EscapeChar(c, ascii) == [c] ==> c != '"' && c != '\\' && c as int >= 0x20
  {}

  lemma EscapedCharReadsBack(c: char, ascii: bool, rest: string)
    requires ReadChars(rest).Some?
    ensures ReadChars(EscapeChar(c, ascii) + rest) == Some(([c] + ReadChars(rest).value.0, ReadChars(rest).value.1))
  {
    if EscapeChar(c, ascii) == [c] {
      PlainCharacters(c, ascii);
      assert ([c] + rest)[1..] == rest;
    } else {
      EscapeReadsBack(c, ascii, rest);
    }
  }

  lemma {:induction false} CharsRoundTrip(s: string, ascii: bool, rest: string)
    ensures ReadChars(WriteChars(s, ascii, rest)) == Some((s, rest))
  {
    if s == "" {
      assert ("\"" + rest)[1..] == rest;
    } else {
      CharsRoundTrip(s[1..], ascii, rest);
      EscapedCharReadsBack(s[0], ascii, WriteChars(s[1..], ascii, rest));
      assert [s[0]] + s[1..] == s;
    }
  }

  // ---- numbers ----------------------------------------------------------------------------

  /** What follows a value: nothing that could lengthen a number. */
  predicate Stops(rest: string)
  {
    rest == "" || (!IsDigit(rest[0]) && rest[0] !in ".eE")
  }

  lemma {:induction false} NatStart(n: nat, rest: string)
    ensures WriteNat(n, rest) != "" && IsDigit(WriteNat(n, rest)[0])
    ensures n > 0 ==> WriteNat(n, rest)[0] != '0'
  {
    if n >= 10 { NatStart(n / 10, [Digit(n % 10)] + rest); }
  }

  lemma {:induction false} DigitsReadBack(n: nat, rest: string)
    ensures ReadDigits(WriteNat(n, rest), 0) == ReadDigits(rest, n)
  {
    var d := [Digit(n % 10)] + rest;
    assert d[1..] == rest;
    if n >= 10 { DigitsReadBack(n / 10, d); }
  }

  predicate NoDigit(rest: string) { rest == "" || !IsDigit(rest[0]) }

  lemma NatRoundTrip(n: nat, rest: string)
    requires NoDigit(rest)
    ensures ReadNat(WriteNat(n, rest)) == Some((n, rest))
  {
    NatStart(n, rest);
    DigitsReadBack(n, rest);
    var t := WriteNat(n, rest);
    if n == 0 {
      assert t[1..] == rest;
    } else {
      assert ReadDigits(t, 0) == ReadDigits(t[1..], t[0] as int - '0' as int);
    }
  }

  lemma {:induction false} DigitRunReadsBack(digits: string, rest: string)
    requires AllDigits(digits) && NoDigit(rest)
    ensures DigitRun(digits + rest) == (digits, rest)
  {
    if digits == "" {
      assert digits + rest == rest;
    } else {
      DigitRunReadsBack(digits[1..], rest);
      assert (digits + rest)[1..] == digits[1..] + rest;
      assert digits == [digits[0]] + digits[1..];
    }
  }

  lemma ExponentReadsBack(f: Float, rest: string)
    requires Stops(rest)
    ensures ReadExponent(WriteExponent(f, rest)) == (f.exponent, rest) && NoDigit(WriteExponent(f, rest))
    ensures ReadFraction(WriteExponent(f, rest)) == ("", WriteExponent(f, rest))
  {
    if f.exponent != "" {
      var sign, digits := f.exponent[0], f.exponent[1..];
      assert f.exponent == [sign] + digits;
      SomeExponentReadsBack(sign, digits, rest);
      assert f.exponent + rest == [sign] + (digits + rest);
    }
  }

  lemma SomeExponentReadsBack(sign: char, digits: string, rest: string)
    requires sign in "+-" && digits != "" && AllDigits(digits) && NoDigit(rest)
    ensures ReadExponent("e" + ([sign] + (digits + rest))) == ([sign] + digits, rest)
  {
    var s := "e" + ([sign] + (digits + rest));
    DigitRunReadsBack(digits, rest);
    assert s[0] == 'e' && s[1] == sign && s[2] == digits[0] && s[2..] == digits + rest;
  }

  lemma FractionReadsBack(f: Float, rest: string)
    requires Stops(rest)
    ensures ReadFraction(WriteFraction(f, rest)) == (f.fraction, WriteExponent(f, rest))
            && NoDigit(WriteFraction(f, rest))
  {
    ExponentReadsBack(f, rest);
    if f.fraction != "" {
      DigitRunReadsBack(f.fraction, WriteExponent(f, rest));
      assert WriteFraction(f, rest)[1..] == f.fraction + WriteExponent(f, rest);
    }
  }

  lemma FloatReadsBack(f: Float, rest: string)
    requires Stops(rest)
    ensures ReadNumber(f.negative, WriteNat(f.whole, WriteFraction(f, rest))) == Some((JFloat(f), rest))
  {
    FractionReadsBack(f, rest);
    ExponentReadsBack(f, rest);
    NatRoundTrip(f.whole, WriteFraction(f, rest));
  }

  lemma IntReadsBack(negative: bool, n: nat, rest: string)
    requires Stops(rest)
    ensures ReadNumber(negative, WriteNat(n, rest)) == Some((JInt(if negative then 0 - n else n), rest))
  {
    NatRoundTrip(n, rest);
  }

  lemma {:induction false} ReadsNegative(t: string, v: Json, rest: string)
    requires ReadNumber(true, t) == Some((v, rest))
    ensures ReadValue("-" + t) == Some((v, rest))
  {
    assert ("-" + t)[1..] == t;
  }

  lemma NotPrefix(word: string, t: string)
    requires word != "" && t != "" && t[0] != word[0]
    ensures !(word <= t)
  {}

  lemma {:induction false} ReadsPositive(t: string, v: Json, rest: string)
    requires t != "" && IsDigit(t[0]) && ReadNumber(false, t) == Some((v, rest))
    ensures ReadValue(t) == Some((v, rest))
  {
    NotPrefix("null", t);
    NotPrefix("true", t);
    NotPrefix("false", t);
  }

  // ---- values -----------------------------------------------------------------------------

  /** A value's text starts with a character that is no space and closes nothing. */
  lemma ValueStart(v: Json, st: Style, rest: string)
    ensures var t := Write(v, st, rest); t != "" && t[0] !in " \t\n\r]}"
  {
    if v.JInt? { NatStart(if v.n < 0 then -v.n else v.n, rest); }
    if v.JFloat? { NatStart(v.f.whole, WriteFraction(v.f, rest)); }
  }

  // One step of the reader each, on texts of which only the ends are known.

  lemma ReadsArray(t: string, items: seq<Json>, rest: string)
    requires t != "" && t[0] !in " \t\n\r]" && ReadItems(t) == Some((items, rest))
    ensures ReadValue("[" + t) == Some((JArr(items), rest))
  {
    assert ("[" + t)[1..] == t;
    ReadsArrayAt("[" + t, t, items, rest);
  }

  lemma ReadsArrayAt(s: string, t: string, items: seq<Json>, rest: string)
    requires s != "" && s[0] == '[' && SkipSpace(s[1..]) == t && t != "" && t[0] != ']'
    requires ReadItems(t) == Some((items, rest))
    ensures ReadValue(s) == Some((JArr(items), rest))
  {}

  lemma ReadsObject(t: string, members: Dict<string, Json>, rest: string)
    requires t != "" && t[0] == '"' && ReadMembers(t) == Some((members, rest)) && Distinct(members)
    ensures ReadValue("{" + t) == Some((JObj(members), rest))
  {
    assert ("{" + t)[1..] == t;
    FromDistinctPairs(members);
    ReadsObjectAt("{" + t, t, members, rest);
  }

  lemma ReadsObjectAt(s: string, t: string, members: Dict<string, Json>, rest: string)
    requires s != "" && s[0] == '{' && SkipSpace(s[1..]) == t && t != "" && t[0] != '}'
    requires ReadMembers(t) == Some((members, rest)) && FromPairs(members) == members
    ensures ReadValue(s) == Some((JObj(members), rest))
  {}

  lemma ReadsEmpty(rest: string)
    ensures ReadValue("[]" + rest) == Some((JArr([]), rest))
    ensures ReadValue("{}" + rest) == Some((JObj([]), rest))
  {
    assert ("[]" + rest)[1..] == "]" + rest && ("]" + rest)[1..] == rest;
    assert ("{}" + rest)[1..] == "}" + rest && ("}" + rest)[1..] == rest;
  }

  lemma ReadsLastItem(s: string, v: Json, rest: string)
    requires ReadValue(s) == Some((v, "]" + rest))
    ensures ReadItems(s) == Some(([v], rest))
  {
    assert ("]" + rest)[1..] == rest;
  }

  lemma ReadsNextItem(s: string, v: Json, after: string, more: string, vs: seq<Json>, rest: string)
    requires ReadValue(s) == Some((v, after))
    requires SkipSpace(after) == after && after != "" && after[0] == ',' && SkipSpace(after[1..]) == more
    requires ReadItems(more) == Some((vs, rest))
    ensures ReadItems(s) == Some(([v] + vs, rest))
  {}

  lemma ReadsItemThenMore(s: string, v: Json, st: Style, more: string, vs: seq<Json>, rest: string)
    requires ReadValue(s) == Some((v, st.ItemSep() + more))
    requires more != "" && more[0] !in " \t\n\r" && ReadItems(more) == Some((vs, rest))
    ensures ReadItems(s) == Some(([v] + vs, rest))
  {
    SeparatorSkipped(st, more);
    ReadsNextItem(s, v, st.ItemSep() + more, more, vs, rest);
  }

  lemma ReadsMemberThenMore(s: string, m: (string, Json), st: Style, more: string, ms: seq<(string, Json)>,
                            rest: string)
    requires ReadMember(s) == Some((m, st.ItemSep() + more))
    requires more != "" && more[0] !in " \t\n\r" && ReadMembers(more) == Some((ms, rest))
    ensures ReadMembers(s) == Some(([m] + ms, rest))
  {
    SeparatorSkipped(st, more);
    ReadsNextMember(s, m, st.ItemSep() + more, more, ms, rest);
  }

  lemma ReadsLastMember(s: string, m: (string, Json), rest: string)
    requires ReadMember(s) == Some((m, "}" + rest))
    ensures ReadMembers(s) == Some(([m], rest))
  {
    assert ("}" + rest)[1..] == rest;
  }

  lemma ReadsNextMember(s: string, m: (string, Json), after: string, more: string, ms: seq<(string, Json)>,
                        rest: string)
    requires ReadMember(s) == Some((m, after))
    requires SkipSpace(after) == after && after != "" && after[0] == ',' && SkipSpace(after[1..]) == more
    requires ReadMembers(more) == Some((ms, rest))
    ensures ReadMembers(s) == Some(([m] + ms, rest))
  {}

  lemma ReadsMember(s: string, key: string, afterKey: string, value: string, v: Json, after: string)
    requires s != "" && s[0] == '"' && ReadChars(s[1..]) == Some((key, afterKey))
    requires afterKey != "" && afterKey[0] == ':' && SkipSpace(afterKey[1..]) == value
    requires ReadValue(value) == Some((v, after))
    ensures ReadMember(s) == Some(((key, v), after))
  {}

  lemma WordRoundTrip(v: Json, st: Style, rest: string)
    requires v.JNull? || v.JBool?
    ensures ReadValue(Write(v, st, rest)) == Some((v, rest))
  {
    assert ("null" + rest)[4..] == rest && ("true" + rest)[4..] == rest && ("false" + rest)[5..] == rest;
  }

  lemma IntRoundTrip(n: int, st: Style, rest: string)
    requires Stops(rest)
    ensures ReadValue(Write(JInt(n), st, rest)) == Some((JInt(n), rest))
  {
    var abs: nat := if n < 0 then -n else n;
    var t := WriteNat(abs, rest);
    IntReadsBack(n < 0, abs, rest);
    NatStart(abs, rest);
    if n < 0 { ReadsNegative(t, JInt(n), rest); } else { ReadsPositive(t, JInt(n), rest); }
  }

  lemma FloatRoundTrip(f: Float, st: Style, rest: string)
    requires Stops(rest)
    ensures ReadValue(Write(JFloat(f), st, rest)) == Some((JFloat(f), rest))
  {
    var t := WriteNat(f.whole, WriteFraction(f, rest));
    FloatReadsBack(f, rest);
    NatStart(f.whole, WriteFraction(f, rest));
    if f.negative { ReadsNegative(t, JFloat(f), rest); } else { ReadsPositive(t, JFloat(f), rest); assert "" + t == t; }
  }

  lemma StrRoundTrip(s: string, st: Style, rest: string)
    ensures ReadValue(Write(JStr(s), st, rest)) == Some((JStr(s), rest))
  {
    CharsRoundTrip(s, st.ascii, rest);
    assert WriteStr(s, st.ascii, rest)[1..] == WriteChars(s, st.ascii, rest);
  }

  lemma ArrayRoundTrip(items: seq<Json>, st: Style, rest: string)
    requires items != [] && ReadItems(WriteItems(items, st, rest)) == Some((items, rest))
    ensures ReadValue(Write(JArr(items), st, rest)) == Some((JArr(items), rest))
  {
    ReadsArray(WriteItems(items, st, rest), items, rest);
  }

  lemma ObjectRoundTrip(members: Dict<string, Json>, st: Style, rest: string)
    requires members != [] && Distinct(members)
    requires ReadMembers(WriteMembers(members, st, rest)) == Some((members, rest))
    ensures ReadValue(Write(JObj(members), st, rest)) == Some((JObj(members), rest))
  {
    MembersStart(members, st, rest);
    ReadsObject(WriteMembers(members, st, rest), members, rest);
  }

  lemma {:induction false} ValueRoundTrip(v: Json, st: Style, rest: string)
    requires v.WellFormed() && Stops(rest)
    ensures ReadValue(Write(v, st, rest)) == Some((v, rest))
    decreases v, 1
  {
    match v
    case JNull => WordRoundTrip(v, st, rest);
    case JBool(b) => WordRoundTrip(v, st, rest);
    case JInt(n) => IntRoundTrip(n, st, rest);
    case JFloat(f) => FloatRoundTrip(f, st, rest);
    case JStr(s) => StrRoundTrip(s, st, rest);
    case JArr(items) =>
      if items == [] {
        ReadsEmpty(rest);
        assert Write(v, st, rest) == "[]" + rest;
      } else {
        ItemsRoundTrip(items, st, rest);
        ArrayRoundTrip(items, st, rest);
      }
    case JObj(members) =>
      if members == [] {
        ReadsEmpty(rest);
        assert Write(v, st, rest) == "{}" + rest;
      } else {
        MembersRoundTrip(members, st, rest);
        ObjectRoundTrip(members, st, rest);
      }
  }

  lemma ItemsStart(items: seq<Json>, st: Style, rest: string)
    requires items != []
    ensures var t := WriteItems(items, st, rest); t != "" && t[0] !in " \t\n\r]"
  {
    ValueStart(items[0], st, if |items| == 1 then "]" + rest else st.ItemSep() + WriteItems(items[1..], st, rest));
  }

  lemma {:induction false} ItemsRoundTrip(items: seq<Json>, st: Style, rest: string)
    requires items != [] && forall x | x in items :: x.WellFormed()
    ensures ReadItems(WriteItems(items, st, rest)) == Some((items, rest))
    ensures var t := WriteItems(items, st, rest); t != "" && t[0] !in " \t\n\r]"
    decreases items, 0
  {
    ItemsStart(items, st, rest);
    var s := WriteItems(items, st, rest);
    if |items| == 1 {
      ValueRoundTrip(items[0], st, "]" + rest);
      ReadsLastItem(s, items[0], rest);
      assert items == [items[0]];
    } else {
      var more := WriteItems(items[1..], st, rest);
      ItemsRoundTrip(items[1..], st, rest);
      SeparatorStops(st, more);
      ValueRoundTrip(items[0], st, st.ItemSep() + more);
      ReadsItemThenMore(s, items[0], st, more, items[1..], rest);
      assert items == [items[0]] + items[1..];
    }
  }

  lemma MembersStart(members: Dict<string, Json>, st: Style, rest: string)
    requires members != []
    ensures var t := WriteMembers(members, st, rest); t != "" && t[0] == '"'
  {}

  lemma WriteMembersUnfolds(members: Dict<string, Json>, st: Style, rest: string)
    requires |members| > 1
    ensures WriteMembers(members, st, rest)
            == WriteMember(members[0], st, st.ItemSep() + WriteMembers(members[1..], st, rest))
  {}

  lemma MembersStep(members: Dict<string, Json>, st: Style, rest: string)
    requires |members| > 1
    requires ReadMembers(WriteMembers(members[1..], st, rest)) == Some((members[1..], rest))
    requires var after := st.ItemSep() + WriteMembers(members[1..], st, rest);
             ReadMember(WriteMember(members[0], st, after)) == Some((members[0], after))
    ensures ReadMembers(WriteMembers(members, st, rest)) == Some((members, rest))
  {
    var more := WriteMembers(members[1..], st, rest);
    MembersStart(members[1..], st, rest);
    WriteMembersUnfolds(members, st, rest);
    ReadsMemberThenMore(WriteMembers(members, st, rest), members[0], st, more, members[1..], rest);
    assert members == [members[0]] + members[1..];
  }

  lemma {:induction false} MembersRoundTrip(members: Dict<string, Json>, st: Style, rest: string)
    requires members != [] && forall m | m in members :: m.1.WellFormed()
    ensures ReadMembers(WriteMembers(members, st, rest)) == Some((members, rest))
    decreases members, 0
  {
    assert members[0] in members;
    if |members| == 1 {
      MemberRoundTrip(members[0], st, "}" + rest);
      ReadsLastMember(WriteMembers(members, st, rest), members[0], rest);
      assert members == [members[0]];
    } else {
      MembersRoundTrip(members[1..], st, rest);
      SeparatorStops(st, WriteMembers(members[1..], st, rest));
      MemberRoundTrip(members[0], st, st.ItemSep() + WriteMembers(members[1..], st, rest));
      MembersStep(members, st, rest);
    }
  }

  lemma SeparatorStops(st: Style, more: string)
    ensures Stops(st.ItemSep() + more)
  {}

  lemma {:induction false} MemberRoundTrip(m: (string, Json), st: Style, after: string)
    requires m.1.WellFormed() && Stops(after)
    ensures ReadMember(WriteMember(m, st, after)) == Some((m, after))
    decreases m, 0
  {
    var value := Write(m.1, st, after);
    ValueStart(m.1, st, after);
    ValueRoundTrip(m.1, st, after);
    ReadsKeyAndValue(m.0, st, value, m.1, after);
  }

  lemma {:induction false} ReadsKeyAndValue(key: string, st: Style, value: string, v: Json, after: string)
    requires value != "" && value[0] !in " \t\n\r]}" && ReadValue(value) == Some((v, after))
    ensures ReadMember(WriteStr(key, st.ascii, st.KeySep() + value)) == Some(((key, v), after))
  {
    var c := st.KeySep() + value;
    CharsRoundTrip(key, st.ascii, c);
    assert c[1..] == (if st.spaced then " " else "") + value;
    SpaceSkipped(value, st.spaced);
    ReadsQuoted(WriteChars(key, st.ascii, c), key, c, value, v, after);
  }

  lemma ReadsQuoted(chars: string, key: string, afterKey: string, value: string, v: Json, after: string)
    requires ReadChars(chars) == Some((key, afterKey))
    requires afterKey != "" && afterKey[0] == ':' && SkipSpace(afterKey[1..]) == value
    requires ReadValue(value) == Some((v, after))
    ensures ReadMember("\"" + chars) == Some(((key, v), after))
  {
    assert ("\"" + chars)[1..] == chars;
    ReadsMember("\"" + chars, key, afterKey, value, v, after);
  }

  lemma SpaceSkipped(t: string, spaced: bool)
    requires t != "" && t[0] !in " \t\n\r"
    ensures SkipSpace((if spaced then " " else "") + t) == t
  {
    var u := (if spaced then " " else "") + t;
    if spaced { assert u[1..] == t; } else { assert u == t; }
  }

  lemma SeparatorSkipped(st: Style, more: string)
    requires more != "" && more[0] !in " \t\n\r"
    ensures var s := st.ItemSep() + more; SkipSpace(s) == s && s[0] == ',' && SkipSpace(s[1..]) == more
    ensures Stops(st.ItemSep() + more)
  {
    assert (st.ItemSep() + more)[1..] == (if st.spaced then " " else "") + more;
    SpaceSkipped(more, st.spaced);
  }

  lemma {:induction false} DistinctSplit<V>(d: Dict<string, V>, x: (string, V))
    requires Distinct(d + [x])
    ensures Distinct(d) && !Has(d, x.0)
  {
    if d != [] {
      assert (d + [x])[1..] == d[1..] + [x];
      DistinctSplit(d[1..], x);
      HasAppend(d[1..], [x], d[0].0);
    }
  }

  /** Reading the pairs of a `dict` rebuilds that `dict`. */
  lemma {:induction false} FromDistinctPairs(pairs: Dict<string, Json>)
    requires Distinct(pairs)
    ensures FromPairs(pairs) == pairs
  {
    if pairs != [] {
      var n := |pairs| - 1;
      assert pairs == pairs[..n] + [pairs[n]];
      DistinctSplit(pairs[..n], pairs[n]);
      FromDistinctPairs(pairs[..n]);
      PutNew(pairs[..n], pairs[n].0, pairs[n].1);
    }
  }

  // ---- the styles -------------------------------------------------------------------------

  predicate Ascii(s: string) { forall c :: c in s ==> ' ' <= c <= '~' }

  /** A character that JSON need not escape. */
  predicate IsPlain(c: char) { c >= ' ' && c != '"' && c != '\\' }

  /** Without `ensure_ascii` such characters are written as they are, also those beyond ASCII. */
  lemma {:induction false} PlainTextStaysItself(s: string, rest: string)
    requires forall i :: 0 <= i < |s| ==> IsPlain(s[i])
    ensures WriteChars(s, false, rest) == s + "\"" + rest
  {
    if s != "" {
      PlainTextStaysItself(s[1..], rest);
      assert EscapeChar(s[0], false) == [s[0]];
      assert [s[0]] + (s[1..] + "\"" + rest) == s + "\"" + rest;
    } else {
      assert s + "\"" == "\"";
    }
  }

  lemma EscapeIsAscii(c: char)
    ensures Ascii(EscapeChar(c, true))
  {}

  lemma {:induction false} CharsAreAscii(s: string, rest: string)
    requires Ascii(rest)
    ensures Ascii(WriteChars(s, true, rest))
  {
    if s != "" {
      EscapeIsAscii(s[0]);
      CharsAreAscii(s[1..], rest);
    }
  }

  lemma {:induction false} NatIsAscii(n: nat, rest: string)
    requires Ascii(rest)
    ensures Ascii(WriteNat(n, rest))
  {
    if n >= 10 { NatIsAscii(n / 10, [Digit(n % 10)] + rest); }
  }

  lemma ExponentIsAscii(f: Float, rest: string)
    requires Ascii(rest)
    ensures Ascii(WriteExponent(f, rest))
  {
    if f.exponent != "" { assert f.exponent == [f.exponent[0]] + f.exponent[1..]; }
  }

  lemma FractionIsAscii(f: Float, rest: string)
    requires Ascii(rest)
    ensures Ascii(WriteFraction(f, rest))
  {
    ExponentIsAscii(f, rest);
  }

  /** With `ensure_ascii` everything is written in printable ASCII. */
  lemma {:induction false} AsciiStyleIsAscii(v: Json, st: Style, rest: string)
    requires st.ascii && Ascii(rest)
    ensures Ascii(Write(v, st, rest))
    decreases v, 1
  {
    match v
    case JInt(n) => NatIsAscii(if n < 0 then -n else n, rest);
    case JFloat(f) =>
      FractionIsAscii(f, rest);
      NatIsAscii(f.whole, WriteFraction(f, rest));
    case JStr(s) => CharsAreAscii(s, rest);
    case JArr(items) => if items != [] { ItemsAreAscii(items, st, rest); }
    case JObj(members) => if members != [] { MembersAreAscii(members, st, rest); }
    case _ =>
  }

  lemma {:induction false} ItemsAreAscii(items: seq<Json>, st: Style, rest: string)
    requires items != [] && st.ascii && Ascii(rest)
    ensures Ascii(WriteItems(items, st, rest))
    decreases items, 0
  {
    if |items| > 1 { ItemsAreAscii(items[1..], st, rest); }
    AsciiStyleIsAscii(items[0], st,
                      if |items| == 1 then "]" + rest else st.ItemSep() + WriteItems(items[1..], st, rest));
  }

  lemma {:induction false} MembersAreAscii(members: Dict<string, Json>, st: Style, rest: string)
    requires members != [] && st.ascii && Ascii(rest)
    ensures Ascii(WriteMembers(members, st, rest))
    decreases members, 0
  {
    if |members| > 1 { MembersAreAscii(members[1..], st, rest); }
    MemberIsAscii(members[0], st,
                  if |members| == 1 then "}" + rest else st.ItemSep() + WriteMembers(members[1..], st, rest));
  }

  lemma {:induction false} MemberIsAscii(m: (string, Json), st: Style, rest: string)
    requires st.ascii && Ascii(rest)
    ensures Ascii(WriteMember(m, st, rest))
    decreases m, 0
  {
    AsciiStyleIsAscii(m.1, st, rest);
    CharsAreAscii(m.0, st.KeySep() + Write(m.1, st, rest));
  }

  /** The three styles in use: the stores write ASCII with spaced separators or any text so, the token ASCII without
      spaces. */
  lemma StylesInUse(s: string)
    requires forall i :: 0 <= i < |s| ==> IsPlain(s[i])
    ensures Ascii(Dumps(JStr(s), DEFAULT)) && Ascii(Dumps(JStr(s), COMPACT))
            && Dumps(JStr(s), UNICODE) == "\"" + s + "\""
    ensures DEFAULT.ItemSep() == UNICODE.ItemSep() == ", " && DEFAULT.KeySep() == UNICODE.KeySep() == ": "
    ensures COMPACT.ItemSep() == "," && COMPACT.KeySep() == ":"
  {
    CharsAreAscii(s, "");
    PlainTextStaysItself(s, "");
    AppendNothing(s + "\"");
    assert "\"" + (s + "\"") == "\"" + s + "\"";
  }

  /** What `json.dumps` writes, `json.loads` reads back unchanged, in any style. */
  lemma LoadsDumps(v: Json, st: Style)
    requires v.WellFormed()
    ensures Loads(Dumps(v, st)) == Some(v)
  {
    ValueStart(v, st, "");
    ValueRoundTrip(v, st, "");
  }
}
