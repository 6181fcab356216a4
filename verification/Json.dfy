/** JSON values as Python holds them, `json.dumps` and `json.loads`. */
module Json {
  import opened Prelude
  import opened Dicts

  predicate IsDigit(c: char) { '0' <= c <= '9' }

  predicate AllDigits(s: string)
  {
    forall i :: 0 <= i < |s| ==> IsDigit(s[i])
  }

  /** A finite float stands as the decimal that `repr` gives it, which is its own: `-1.5e-07` has the fraction 5 and the
      exponent -07. */
  datatype Decimal = Decimal(negative: bool, whole: nat, fraction: string, exponent: string)
  {
    predicate IsRepr()
    {
      && AllDigits(fraction)
      && (exponent == "" || (|exponent| > 1 && exponent[0] in "+-" && AllDigits(exponent[1..])))
      && (fraction != "" || exponent != "")
    }

    predicate IsZero() { whole == 0 && forall i :: 0 <= i < |fraction| ==> fraction[i] == '0' }
  }

  type Float = d: Decimal | d.IsRepr() witness Decimal(false, 0, "0", "")

  datatype Json =
    | JNull
    | JBool(b: bool)
    | JInt(n: int)
    | JFloat(f: Float)
    | JStr(s: string)
    | JArr(items: seq<Json>)
    | JObj(members: Dict<string, Json>)
  {
    /** Python's `dict` never holds a key twice. */
    predicate WellFormed()
    {
      match this
      case JArr(items) => forall x | x in items :: x.WellFormed()
      case JObj(members) => Distinct(members) && forall m | m in members :: m.1.WellFormed()
      case _ => true
    }

    /** `d.get(key)` on a payload. */
    function At(key: string): Json
    {
      if JObj? then (match Get(members, key) case Some(v) => v case None => JNull) else JNull
    }

    /** Python's `bool(x)`. */
    predicate Truthy()
    {
      match this
      case JNull => false
      case JBool(b) => b
      case JInt(n) => n != 0
      case JFloat(f) => !f.IsZero()
      case JStr(s) => s != ""
      case JArr(items) => items != []
      case JObj(members) => members != []
    }
  }

  /** What Python takes for false. */
  lemma FalsyValues(v: Json)
    ensures !v.Truthy() <==> v == JNull || v == JBool(false) || v == JInt(0) || v == JStr("") || v == JArr([])
                             || v == JObj([])
                             || (v.JFloat? && v.f.whole == 0 && forall c :: c in v.f.fraction ==> c == '0')
  {
    if v.JFloat? && forall c :: c in v.f.fraction ==> c == '0' {
      forall i | 0 <= i < |v.f.fraction| ensures v.f.fraction[i] == '0' { assert v.f.fraction[i] in v.f.fraction; }
    }
  }

  /** A field that is not there reads as null. */
  lemma AbsentFieldsAreNull(members: Dict<string, Json>, key: string)
    ensures JObj(members).At(key) == match Get(members, key) { case None => JNull case Some(v) => v }
  {}

  lemma ObjectIsWellFormed(members: Dict<string, Json>)
    requires forall i, j :: 0 <= i < j < |members| ==> members[i].0 != members[j].0
    requires forall i :: 0 <= i < |members| ==> members[i].1.WellFormed()
    ensures JObj(members).WellFormed()
  {
    DistinctByKeys(members);
  }

  /** What `json.dumps` is asked for: `ensure_ascii`, and the default or the compact separators. */
  datatype Style = Style(ascii: bool, spaced: bool)
  {
    function ItemSep(): string { if spaced then ", " else "," }
    function KeySep(): string { if spaced then ": " else ":" }
  }

  const DEFAULT := Style(true, true)
  const UNICODE := Style(false, true)
  const COMPACT := Style(true, false)

  // ---- json.dumps -------------------------------------------------------------------------

  function HexDigit(n: nat): char
    requires n < 16
  {
    if n < 10 then ('0' as int + n) as char else ('a' as int + (n - 10)) as char
  }

  function Hex4(n: nat): string
    requires n < 0x10000
  {
    [HexDigit(n / 0x1000), HexDigit(n / 0x100 % 16), HexDigit(n / 0x10 % 16), HexDigit(n % 16)]
  }

  /** The two surrogates that stand for a code point beyond the basic plane. */
  function HighHalf(n: nat): (r: nat)
    requires 0x10000 <= n < 0x110000
    ensures 0xd800 <= r < 0xdc00
  {
    0xd800 + (n - 0x10000) / 0x400
  }

  function LowHalf(n: nat): (r: nat)
    requires 0x10000 <= n < 0x110000
    ensures 0xdc00 <= r < 0xe000
  {
    0xdc00 + (n - 0x10000) % 0x400
  }

  /** One character of a JSON string, escaped as CPython does. */
  function EscapeChar(c: char, ascii: bool): string
  {
    var n := c as int;
    if c == '"' then "\\\""
    else if c == '\\' then "\\\\"
    else if c == '\n' then "\\n"
    else if c == '\r' then "\\r"
    else if c == '\t' then "\\t"
    else if n == 12 then "\\f"
    else if n == 8 then "\\b"
    else if n < 0x20 || (ascii && 0x7e < n < 0x10000) then "\\u" + Hex4(n)
    else if ascii && 0x10000 <= n then
      "\\u" + Hex4(HighHalf(n)) + "\\u" + Hex4(LowHalf(n))
    else [c]
  }

  // The writers take the text that follows, so that `Write(v, st, rest)` is v's text and then rest.

  function WriteChars(s: string, ascii: bool, rest: string): string
  {
    if s == "" then "\"" + rest else EscapeChar(s[0], ascii) + WriteChars(s[1..], ascii, rest)
  }

  function WriteStr(s: string, ascii: bool, rest: string): string
  {
    "\"" + WriteChars(s, ascii, rest)
  }

  function Digit(n: nat): char
    requires n < 10
  {
    ('0' as int + n) as char
  }

  function WriteNat(n: nat, rest: string): string
  {
    if n < 10 then [Digit(n)] + rest else WriteNat(n / 10, [Digit(n % 10)] + rest)
  }

  function WriteExponent(f: Float, rest: string): string
  {
    if f.exponent == "" then rest else "e" + (f.exponent + rest)
  }

  function WriteFraction(f: Float, rest: string): string
  {
    if f.fraction == "" then WriteExponent(f, rest) else "." + (f.fraction + WriteExponent(f, rest))
  }

  function Write(v: Json, st: Style, rest: string): string
    decreases v, 1
  {
    match v
    case JNull => "null" + rest
    case JBool(b) => (if b then "true" else "false") + rest
    case JInt(n) => if n < 0 then "-" + WriteNat(-n, rest) else WriteNat(n, rest)
    case JFloat(f) => (if f.negative then "-" else "") + WriteNat(f.whole, WriteFraction(f, rest))
    case JStr(s) => WriteStr(s, st.ascii, rest)
    case JArr(items) => "[" + if items == [] then "]" + rest else WriteItems(items, st, rest)
    case JObj(members) => "{" + if members == [] then "}" + rest else WriteMembers(members, st, rest)
  }

  function WriteItems(items: seq<Json>, st: Style, rest: string): string
    requires items != []
    decreases items, 0
  {
    Write(items[0], st,
          if |items| == 1 then "]" + rest else st.ItemSep() + WriteItems(items[1..], st, rest))
  }

  function WriteMembers(members: Dict<string, Json>, st: Style, rest: string): string
    requires members != []
    decreases members, 0
  {
    WriteMember(members[0], st,
                if |members| == 1 then "}" + rest else st.ItemSep() + WriteMembers(members[1..], st, rest))
  }

  function WriteMember(m: (string, Json), st: Style, rest: string): string
    decreases m, 0
  {
    WriteStr(m.0, st.ascii, st.KeySep() + Write(m.1, st, rest))
  }

  function Dumps(v: Json, st: Style): string
  {
    Write(v, st, "")
  }

  // ---- json.loads -------------------------------------------------------------------------

  type Parsed<T> = Option<(T, string)>

  function SkipSpace(s: string): (r: string)
    ensures |r| <= |s|
  {
    if s != "" && s[0] in " \t\n\r" then SkipSpace(s[1..]) else s
  }

  function HexValue(c: char): (r: Option<nat>)
    ensures r.Some? ==> r.value < 16
  {
    if '0' <= c <= '9' then Some(c as int - '0' as int)
    else if 'a' <= c <= 'f' then Some(c as int - 'a' as int + 10)
    else if 'A' <= c <= 'F' then Some(c as int - 'A' as int + 10)
    else None
  }

  function ReadHex4(s: string): (r: Parsed<nat>)
    ensures r.Some? ==> r.value.0 < 0x10000 && |r.value.1| + 4 == |s|
  {
    if |s| < 4 then None
    else
      match (HexValue(s[0]), HexValue(s[1]), HexValue(s[2]), HexValue(s[3]))
      case (Some(a), Some(b), Some(c), Some(d)) =>
        Some((a * 0x1000 + b * 0x100 + c * 0x10 + d, s[4..]))
      case _ => None
  }

  /** The escape that follows a backslash; a surrogate pair is one character. */
  function ReadEscape(s: string): (r: Parsed<char>)
    ensures r.Some? ==> |r.value.1| < |s|
  {
    if s == "" then None
    else if s[0] in "\"\\/" then Some((s[0], s[1..]))
    else if s[0] == 'n' then Some(('\n', s[1..]))
    else if s[0] == 'r' then Some(('\r', s[1..]))
    else if s[0] == 't' then Some(('\t', s[1..]))
    else if s[0] == 'f' then Some((12 as char, s[1..]))
    else if s[0] == 'b' then Some((8 as char, s[1..]))
    else if s[0] == 'u' then
      match ReadHex4(s[1..])
      case None => None
      case Some((n, rest)) =>
        if n < 0xd800 || 0xe000 <= n then Some((n as char, rest))
        else if n < 0xdc00 && |rest| >= 2 && rest[0] == '\\' && rest[1] == 'u' then
          match ReadHex4(rest[2..])
          case None => None
          case Some((m, tail)) =>
            if 0xdc00 <= m < 0xe000
            then Some(((0x10000 + (n - 0xd800) * 0x400 + (m - 0xdc00)) as char, tail))
            else None
        else None
    else None
  }

  /** The characters up to and including the closing quote. */
  function ReadChars(s: string): (r: Parsed<string>)
    ensures r.Some? ==> |r.value.1| < |s|
    decreases |s|
  {
    if s == "" then None
    else if s[0] == '"' then Some(("", s[1..]))
    else if s[0] == '\\' then
      match ReadEscape(s[1..])
      case None => None
      case Some((c, rest)) =>
        match ReadChars(rest)
        case None => None
        case Some((cs, tail)) => Some(([c] + cs, tail))
    else if s[0] as int < 0x20 then None
    else
      match ReadChars(s[1..])
      case None => None
      case Some((cs, tail)) => Some(([s[0]] + cs, tail))
  }

  function ReadDigits(s: string, acc: nat): (r: (nat, string))
    ensures |r.1| <= |s|
  {
    if s != "" && IsDigit(s[0]) then ReadDigits(s[1..], acc * 10 + (s[0] as int - '0' as int))
    else (acc, s)
  }

  /** `0` or a digit run without a leading zero. */
  function ReadNat(s: string): (r: Parsed<nat>)
    ensures r.Some? ==> |r.value.1| < |s|
  {
    if s == "" || !IsDigit(s[0]) then None
    else if s[0] == '0' then Some((0, s[1..]))
    else Some(ReadDigits(s[1..], s[0] as int - '0' as int))
  }

  /** The digits at the start of the text, and what follows them. */
  function DigitRun(s: string): (r: (string, string))
    ensures AllDigits(r.0) && |r.0| + |r.1| == |s|
  {
    if s != "" && IsDigit(s[0]) then
      var (more, rest) := DigitRun(s[1..]);
      ([s[0]] + more, rest)
    else ("", s)
  }

  /** `(\.[0-9]+)?`: the digits, or nothing. */
  function ReadFraction(s: string): (r: (string, string))
    ensures AllDigits(r.0) && |r.1| <= |s|
  {
    if |s| > 1 && s[0] == '.' && IsDigit(s[1]) then DigitRun(s[1..]) else ("", s)
  }

  /** `([eE][-+]?[0-9]+)?`: the sign and the digits, or nothing. */
  function ReadExponent(s: string): (r: (string, string))
    ensures |r.1| <= |s|
    ensures r.0 == "" || (|r.0| > 1 && r.0[0] in "+-" && AllDigits(r.0[1..]))
  {
    if |s| > 2 && s[0] in "eE" && s[1] in "+-" && IsDigit(s[2]) then
      var (digits, rest) := DigitRun(s[2..]);
      assert digits != "";
      ([s[1]] + digits, rest)
    else if |s| > 1 && s[0] in "eE" && IsDigit(s[1]) then
      var (digits, rest) := DigitRun(s[1..]);
      assert digits != "";
      ("+" + digits, rest)
    else ("", s)
  }

  /** An integer, or a float if a fraction or an exponent follows. */
  function ReadNumber(negative: bool, s: string): (r: Parsed<Json>)
    ensures r.Some? ==> |r.value.1| < |s|
  {
    match ReadNat(s)
    case None => None
    case Some((n, afterWhole)) =>
      var (fraction, afterFraction) := ReadFraction(afterWhole);
      var (exponent, rest) := ReadExponent(afterFraction);
      if fraction == "" && exponent == "" then Some((JInt(if negative then 0 - n else n), rest))
      else Some((JFloat(Decimal(negative, n, fraction, exponent)), rest))
  }

  function ReadValue(s: string): (r: Parsed<Json>)
    ensures r.Some? ==> |r.value.1| < |s|
    decreases |s|, 0
  {
    if s == "" then None
    else if s[0] == '"' then
      match ReadChars(s[1..]) case None => None case Some((cs, rest)) => Some((JStr(cs), rest))
    else if s[0] == '[' then
      var t := SkipSpace(s[1..]);
      if t != "" && t[0] == ']' then Some((JArr([]), t[1..]))
      else match ReadItems(t) case None => None case Some((xs, rest)) => Some((JArr(xs), rest))
    else if s[0] == '{' then
      var t := SkipSpace(s[1..]);
      if t != "" && t[0] == '}' then Some((JObj([]), t[1..]))
      else match ReadMembers(t) case None => None case Some((ms, rest)) => Some((JObj(FromPairs(ms)), rest))
    else if "null" <= s then Some((JNull, s[4..]))
    else if "true" <= s then Some((JBool(true), s[4..]))
    else if "false" <= s then Some((JBool(false), s[5..]))
    else if s[0] == '-' then ReadNumber(true, s[1..])
    else ReadNumber(false, s)
  }

  /** `value ws ( "]" / "," ws items )` */
  function ReadItems(s: string): (r: Parsed<seq<Json>>)
    ensures r.Some? ==> |r.value.1| < |s|
    decreases |s|, 1
  {
    match ReadValue(s)
    case None => None
    case Some((v, rest)) =>
      var t := SkipSpace(rest);
      if t != "" && t[0] == ']' then Some(([v], t[1..]))
      else if t != "" && t[0] == ',' then
        match ReadItems(SkipSpace(t[1..]))
        case None => None
        case Some((vs, tail)) => Some(([v] + vs, tail))
      else None
  }

  /** `string ws ":" ws value` */
  function ReadMember(s: string): (r: Parsed<(string, Json)>)
    ensures r.Some? ==> |r.value.1| < |s|
    decreases |s|, 1
  {
    if s == "" || s[0] != '"' then None
    else
      match ReadChars(s[1..])
      case None => None
      case Some((k, afterKey)) =>
        var c := SkipSpace(afterKey);
        if c == "" || c[0] != ':' then None
        else
          match ReadValue(SkipSpace(c[1..]))
          case None => None
          case Some((v, rest)) => Some(((k, v), rest))
  }

  /** `member ws ( "}" / "," ws members )` */
  function ReadMembers(s: string): (r: Parsed<seq<(string, Json)>>)
    ensures r.Some? ==> |r.value.1| < |s|
    decreases |s|, 2
  {
    match ReadMember(s)
    case None => None
    case Some((m, rest)) =>
      var t := SkipSpace(rest);
      if t != "" && t[0] == '}' then Some(([m], t[1..]))
      else if t != "" && t[0] == ',' then
        match ReadMembers(SkipSpace(t[1..]))
        case None => None
        case Some((ms, tail)) => Some(([m] + ms, tail))
      else None
  }

  /** `dict(pairs)`: a repeated key keeps its first position and its last value. */
  function FromPairs(pairs: seq<(string, Json)>): Dict<string, Json>
  {
    if pairs == [] then []
    else Put(FromPairs(pairs[..|pairs| - 1]), pairs[|pairs| - 1].0, pairs[|pairs| - 1].1)
  }

  function Loads(text: string): Option<Json>
  {
    match ReadValue(SkipSpace(text))
    case None => None
    case Some((v, rest)) => if SkipSpace(rest) == "" then Some(v) else None
  }
}
