/** Python's `datetime` with its calendar, `isoformat`, and the order of the texts it writes. */
module Timestamps {
  import opened Prelude

  /** `offset` is the UTC offset in microseconds, `None` for a naive datetime. */
  datatype DateTime = DateTime(year: nat, month: nat, day: nat, hour: nat, minute: nat, second: nat,
                               micro: nat, offset: Option<int>)
  {
    predicate Valid()
    {
      && 1 <= year <= 9999 && 1 <= month <= 12 && 1 <= day <= DaysInMonth(year, month)
      && hour < 24 && minute < 60 && second < 60 && micro < 1_000_000
      && (offset.Some? ==> -DAY < offset.value < DAY)
    }
  }

  const DAY := 86_400_000_000

  type Stamp = d: DateTime | d.Valid() witness DateTime(1, 1, 1, 0, 0, 0, 0, None)

  // ---- calendar ---------------------------------------------------------------------------

  predicate Leap(y: nat)
  {
    y % 4 == 0 && (y % 100 != 0 || y % 400 == 0)
  }

  function DaysInMonth(y: nat, m: nat): nat
  {
    if m == 2 then (if Leap(y) then 29 else 28)
    else if m == 4 || m == 6 || m == 9 || m == 11 then 30
    else 31
  }

  /** Days before 1 January of year y, year 1 being the first. */
  function DaysBeforeYear(y: nat): int
  {
    (y - 1) * 365 + (y - 1) / 4 - (y - 1) / 100 + (y - 1) / 400
  }

  function DaysBeforeMonth(y: nat, m: nat): nat
  {
    if m <= 1 then 0 else DaysBeforeMonth(y, m - 1) + DaysInMonth(y, m - 1)
  }

  function Ordinal(y: nat, m: nat, d: nat): int
  {
    DaysBeforeYear(y) + DaysBeforeMonth(y, m) + d
  }

  /** Microseconds on the local clock. */
  function Local(d: DateTime): int
  {
    (((Ordinal(d.year, d.month, d.day) * 24 + d.hour) * 60 + d.minute) * 60 + d.second) * 1_000_000 + d.micro
  }

  /** Microseconds on the UTC clock; a naive datetime is compared by its local clock. */
  function Instant(d: DateTime): int
  {
    Local(d) - if d.offset.Some? then d.offset.value else 0
  }

  lemma Next4(k: nat)
    ensures (k + 1) / 4 == k / 4 + if (k + 1) % 4 == 0 then 1 else 0
  {}

  lemma Next100(k: nat)
    ensures (k + 1) / 100 == k / 100 + if (k + 1) % 100 == 0 then 1 else 0
  {}

  lemma Next400(k: nat)
    ensures (k + 1) / 400 == k / 400 + if (k + 1) % 400 == 0 then 1 else 0
  {}

  lemma Divisors(y: nat)
    ensures y % 400 == 0 ==> y % 100 == 0
    ensures y % 100 == 0 ==> y % 4 == 0
  {
    if y % 400 == 0 { assert y == 100 * (4 * (y / 400)); }
    if y % 100 == 0 { assert y == 4 * (25 * (y / 100)); }
  }

  lemma YearLength(y: nat)
    requires y >= 1
    ensures DaysBeforeYear(y + 1) == DaysBeforeYear(y) + if Leap(y) then 366 else 365
  {
    Next4(y - 1);
    Next100(y - 1);
    Next400(y - 1);
    Divisors(y);
  }

  lemma {:induction false} YearsGrow(y: nat, z: nat)
    requires 1 <= y < z
    ensures DaysBeforeYear(y) + (if Leap(y) then 366 else 365) <= DaysBeforeYear(z)
    decreases z - y
  {
    YearLength(y);
    if y + 1 < z { YearsGrow(y + 1, z); }
  }

  lemma {:induction false} MonthsGrow(y: nat, m: nat, n: nat)
    requires 1 <= m < n
    ensures DaysBeforeMonth(y, m) + DaysInMonth(y, m) <= DaysBeforeMonth(y, n)
  {
    if m < n - 1 { MonthsGrow(y, m, n - 1); }
  }

  lemma YearHoldsItsMonths(y: nat)
    ensures DaysBeforeMonth(y, 12) + 31 == if Leap(y) then 366 else 365
  {
    var f := DaysInMonth(y, 2);
    assert DaysBeforeMonth(y, 2) == 31 && DaysBeforeMonth(y, 3) == 31 + f && DaysBeforeMonth(y, 4) == 62 + f;
    assert DaysBeforeMonth(y, 5) == 92 + f && DaysBeforeMonth(y, 6) == 123 + f && DaysBeforeMonth(y, 7) == 153 + f;
    assert DaysBeforeMonth(y, 8) == 184 + f && DaysBeforeMonth(y, 9) == 215 + f && DaysBeforeMonth(y, 10) == 245 + f;
    assert DaysBeforeMonth(y, 11) == 276 + f;
  }

  predicate DateLess(a: DateTime, b: DateTime)
  {
    a.year < b.year || (a.year == b.year && (a.month < b.month || (a.month == b.month && a.day < b.day)))
  }

  lemma DayOfYear(d: Stamp)
    ensures 1 <= DaysBeforeMonth(d.year, d.month) + d.day <= if Leap(d.year) then 366 else 365
  {
    YearHoldsItsMonths(d.year);
    if d.month < 12 { MonthsGrow(d.year, d.month, 12); }
  }

  lemma EarlierDateIsSmaller(a: Stamp, b: Stamp)
    requires DateLess(a, b)
    ensures Ordinal(a.year, a.month, a.day) < Ordinal(b.year, b.month, b.day)
  {
    DayOfYear(a);
    DayOfYear(b);
    if a.year < b.year {
      YearsGrow(a.year, b.year);
    } else if a.month < b.month {
      MonthsGrow(a.year, a.month, b.month);
    }
  }

  // ---- adding a timedelta -----------------------------------------------------------------

  /** The year, not before y, that holds day n. */
  function YearAt(n: int, y: nat): (r: nat)
    requires y >= 1 && DaysBeforeYear(y) < n
    ensures r >= y && DaysBeforeYear(r) < n <= DaysBeforeYear(r + 1)
    decreases n - DaysBeforeYear(y)
  {
    YearLength(y);
    if n <= DaysBeforeYear(y + 1) then y else YearAt(n, y + 1)
  }

  /** The month, not before m, that holds day r of year y. */
  function MonthAt(y: nat, r: nat, m: nat): (k: nat)
    requires 1 <= m <= 12 && DaysBeforeMonth(y, m) < r <= DaysBeforeMonth(y, 12) + 31
    ensures m <= k <= 12 && DaysBeforeMonth(y, k) < r <= DaysBeforeMonth(y, k) + DaysInMonth(y, k)
    decreases 12 - m
  {
    if m == 12 || r <= DaysBeforeMonth(y, m + 1) then m else MonthAt(y, r, m + 1)
  }

  /** The reading of the local clock after t microseconds. */
  function FromLocal(t: int, offset: Option<int>): (d: DateTime)
    requires t >= DAY
    ensures d.offset == offset
  {
    var n := t / DAY;
    var y := YearAt(n, 1);
    YearLength(y);
    YearHoldsItsMonths(y);
    var r: nat := n - DaysBeforeYear(y);
    var m := MonthAt(y, r, 1);
    DateTime(y, m, r - DaysBeforeMonth(y, m),
             t / 3_600_000_000 % 24, t / 60_000_000 % 60, t / 1_000_000 % 60, t % 1_000_000, offset)
  }

  lemma ClockParts(t: int)
    requires t >= 0
    ensures (((t / DAY * 24 + t / 3_600_000_000 % 24) * 60 + t / 60_000_000 % 60) * 60 + t / 1_000_000 % 60) * 1_000_000
            + t % 1_000_000 == t
  {
    assert t / 1_000_000 / 60 == t / 60_000_000;
    assert t / 60_000_000 / 60 == t / 3_600_000_000;
    assert t / 3_600_000_000 / 24 == t / DAY;
  }

  lemma FromLocalReads(t: int, offset: Option<int>)
    requires t >= DAY && (offset.Some? ==> -DAY < offset.value < DAY)
    ensures var d := FromLocal(t, offset); Local(d) == t && (d.year <= 9999 ==> d.Valid())
  {
    ClockParts(t);
  }

  /** `d + timedelta(seconds=s)`; `None` stands for Python's OverflowError. */
  function Plus(d: Stamp, s: int): (r: Option<Stamp>)
    ensures r.Some? ==> r.value.offset == d.offset && Local(r.value) == Local(d) + s * 1_000_000
  {
    var t := Local(d) + s * 1_000_000;
    if t < DAY then None
    else
      FromLocalReads(t, d.offset);
      var e := FromLocal(t, d.offset);
      if e.year <= 9999 then Some(e) else None
  }

  predicate ClockLess(a: DateTime, b: DateTime)
  {
    || a.hour < b.hour
    || (a.hour == b.hour
        && (a.minute < b.minute
            || (a.minute == b.minute
                && (a.second < b.second || (a.second == b.second && a.micro < b.micro)))))
  }

  predicate SameDate(a: DateTime, b: DateTime)
  {
    a.year == b.year && a.month == b.month && a.day == b.day
  }

  /** Field by field, the local clocks read earlier. */
  predicate FieldsLess(a: DateTime, b: DateTime)
  {
    DateLess(a, b) || (SameDate(a, b) && ClockLess(a, b))
  }

  lemma EarlierFieldsAreSmaller(a: Stamp, b: Stamp)
    requires FieldsLess(a, b)
    ensures Local(a) < Local(b)
  {
    if DateLess(a, b) { EarlierDateIsSmaller(a, b); }
  }

  lemma FieldOrderIsLocalOrder(a: Stamp, b: Stamp)
    ensures FieldsLess(a, b) <==> Local(a) < Local(b)
  {
    if FieldsLess(a, b) {
      EarlierFieldsAreSmaller(a, b);
    } else if FieldsLess(b, a) {
      EarlierFieldsAreSmaller(b, a);
    }
  }

  // ---- isoformat --------------------------------------------------------------------------

  /** `n` in decimal with leading zeros, `w` characters wide. */
  function Pad(n: nat, w: nat): (r: string)
    ensures |r| == w
  {
    if w == 0 then "" else Pad(n / 10, w - 1) + [('0' as int + n % 10) as char]
  }

  function Pow10(w: nat): nat { if w == 0 then 1 else 10 * Pow10(w - 1) }

  function Fraction(micro: nat): string
  {
    if micro == 0 then "" else "." + Pad(micro, 6)
  }

  /** Whole hours, minutes, seconds and microseconds of a span. */
  function Split(abs: nat): (nat, nat, nat, nat)
  {
    (abs / 3_600_000_000, abs / 60_000_000 % 60, abs / 1_000_000 % 60, abs % 1_000_000)
  }

  /** `+HH:MM`, then `:SS` and `.ffffff` only where they are not zero. */
  function OffsetText(offset: Option<int>): string
  {
    match offset
    case None => ""
    case Some(o) => SpanText(o < 0, if o < 0 then 0 - o else o)
  }

  function SpanText(negative: bool, abs: nat): string
  {
    var (hh, mm, ss, micros) := Split(abs);
    OffsetFields(negative, hh, mm, ss, micros)
  }

  function OffsetFields(negative: bool, hh: nat, mm: nat, ss: nat, micros: nat): string
  {
    (if negative then "-" else "+") + OffsetBody(hh, mm, ss, micros)
  }

  function OffsetBody(hh: nat, mm: nat, ss: nat, micros: nat): string
  {
    Pad(hh, 2) + (":" + (Pad(mm, 2) + OffsetTail(ss, micros)))
  }

  function OffsetTail(ss: nat, micros: nat): string
  {
    if ss == 0 && micros == 0 then "" else ":" + (Pad(ss, 2) + Fraction(micros))
  }

  function TimeText(d: DateTime, rest: string): string
  {
    "T" + (Pad(d.hour, 2) + (":" + (Pad(d.minute, 2) + (":" + (Pad(d.second, 2) + rest)))))
  }

  function DateText(d: DateTime, rest: string): string
  {
    Pad(d.year, 4) + ("-" + (Pad(d.month, 2) + ("-" + (Pad(d.day, 2) + rest))))
  }

  function IsoFormat(d: DateTime): string
  {
    DateText(d, TimeText(d, Fraction(d.micro) + OffsetText(d.offset)))
  }

  // ---- fromisoformat, on the texts isoformat writes ---------------------------------------

  predicate AllDigits(s: string) { forall i :: 0 <= i < |s| ==> '0' <= s[i] <= '9' }

  function DigitsValue(s: string): nat
    requires AllDigits(s)
  {
    if s == "" then 0 else DigitsValue(s[..|s| - 1]) * 10 + (s[|s| - 1] as int - '0' as int)
  }

  function ReadPad(s: string, w: nat): Option<(nat, string)>
  {
    if |s| < w || !AllDigits(s[..w]) then None else Some((DigitsValue(s[..w]), s[w..]))
  }

  function ReadMark(s: string, c: char): Option<string>
  {
    if s == "" || s[0] != c then None else Some(s[1..])
  }

  /** A separator and then a two-digit field. */
  function ReadNext(s: string, c: char): Option<(nat, string)>
  {
    var t :- ReadMark(s, c);
    ReadPad(t, 2)
  }

  function ReadFraction(s: string): Option<(nat, string)>
  {
    if s == "" || s[0] != '.' then Some((0, s)) else ReadPad(s[1..], 6)
  }

  /** `[:SS[.ffffff]]` to the end of the text. */
  function ReadOffsetTail(s: string): Option<(nat, nat)>
  {
    if s == "" then Some((0, 0))
    else
      var (seconds, t) :- ReadNext(s, ':');
      var (micros, end) :- ReadFraction(t);
      if end == "" then Some((seconds, micros)) else None
  }

  /** `HH:MM[:SS[.ffffff]]` in microseconds. */
  function ReadOffsetSize(s: string): Option<nat>
  {
    var (hours, s1) :- ReadPad(s, 2);
    var (minutes, s2) :- ReadNext(s1, ':');
    var (seconds, micros) :- ReadOffsetTail(s2);
    Some(((hours * 60 + minutes) * 60 + seconds) * 1_000_000 + micros)
  }

  function ReadOffset(s: string): Option<Option<int>>
  {
    if s == "" then Some(None)
    else if s[0] !in "+-" then None
    else
      var abs :- ReadOffsetSize(s[1..]);
      Some(Some(if s[0] == '-' then 0 - abs else abs))
  }

  function FromIsoFormat(s: string): Option<Stamp>
  {
    var (year, s1) :- ReadPad(s, 4);
    var (month, s2) :- ReadNext(s1, '-');
    var (day, s3) :- ReadNext(s2, '-');
    var (hour, s4) :- ReadNext(s3, 'T');
    var (minute, s5) :- ReadNext(s4, ':');
    var (second, s6) :- ReadNext(s5, ':');
    var (micro, s7) :- ReadFraction(s6);
    var offset :- ReadOffset(s7);
    var d := DateTime(year, month, day, hour, minute, second, micro, offset);
    if d.Valid() then Some(d) else None
  }

  lemma {:induction false} PadReadsBack(n: nat, w: nat)
    requires n < Pow10(w)
    ensures AllDigits(Pad(n, w)) && DigitsValue(Pad(n, w)) == n
  {
    if w > 0 {
      PadReadsBack(n / 10, w - 1);
      assert Pad(n, w)[..w - 1] == Pad(n / 10, w - 1);
    }
  }

  lemma FieldReadsBack(n: nat, w: nat, rest: string)
    requires n < Pow10(w)
    ensures ReadPad(Pad(n, w) + rest, w) == Some((n, rest))
  {
    PadReadsBack(n, w);
    assert (Pad(n, w) + rest)[..w] == Pad(n, w) && (Pad(n, w) + rest)[w..] == rest;
  }

  lemma NextReadsBack(c: char, n: nat, rest: string)
    requires n < 100
    ensures ReadNext([c] + (Pad(n, 2) + rest), c) == Some((n, rest))
  {
    Widths();
    FieldReadsBack(n, 2, rest);
    assert ([c] + (Pad(n, 2) + rest))[1..] == Pad(n, 2) + rest;
  }

  lemma NoFractionReadsBack(rest: string)
    requires rest == "" || rest[0] != '.'
    ensures ReadFraction(rest) == Some((0, rest))
  {}

  lemma SomeFractionReadsBack(t: string, micro: nat, rest: string)
    requires ReadPad(t, 6) == Some((micro, rest))
    ensures ReadFraction("." + t) == Some((micro, rest))
  {
    assert ("." + t)[1..] == t;
  }

  lemma FractionReadsBack(micro: nat, rest: string)
    requires micro < 1_000_000 && (rest == "" || rest[0] != '.')
    ensures ReadFraction(Fraction(micro) + rest) == Some((micro, rest))
  {
    if micro == 0 {
      NoFractionReadsBack(rest);
      assert Fraction(micro) + rest == rest;
    } else {
      Widths();
      FieldReadsBack(micro, 6, rest);
      SomeFractionReadsBack(Pad(micro, 6) + rest, micro, rest);
      assert Fraction(micro) + rest == "." + (Pad(micro, 6) + rest);
    }
  }

  /** The parts of a span add up to it. */
  lemma SplitAddsUp(abs: nat)
    requires abs < DAY
    ensures var (hh, mm, ss, micros) := Split(abs);
            && hh < 24 && mm < 60 && ss < 60 && micros < 1_000_000
            && ((hh * 60 + mm) * 60 + ss) * 1_000_000 + micros == abs
  {
    var seconds := abs / 1_000_000;
    var minutes := abs / 60_000_000;
    assert seconds / 60 == minutes && minutes / 60 == abs / 3_600_000_000;
  }

  lemma ReadsOffsetTail(s: string, ss: nat, t: string, micros: nat)
    requires s != "" && ReadNext(s, ':') == Some((ss, t)) && ReadFraction(t) == Some((micros, ""))
    ensures ReadOffsetTail(s) == Some((ss, micros))
  {}

  lemma OffsetTailReadsBack(ss: nat, micros: nat)
    requires ss < 60 && micros < 1_000_000
    ensures ReadOffsetTail(OffsetTail(ss, micros)) == Some((ss, micros))
  {
    if ss != 0 || micros != 0 {
      FractionReadsBack(micros, "");
      assert Fraction(micros) + "" == Fraction(micros);
      NextReadsBack(':', ss, Fraction(micros));
      ReadsOffsetTail([':'] + (Pad(ss, 2) + Fraction(micros)), ss, Fraction(micros), micros);
    }
  }

  lemma ReadsOffsetSize(s: string, hh: nat, s1: string, mm: nat, s2: string, ss: nat, micros: nat)
    requires ReadPad(s, 2) == Some((hh, s1)) && ReadNext(s1, ':') == Some((mm, s2))
    requires ReadOffsetTail(s2) == Some((ss, micros))
    ensures ReadOffsetSize(s) == Some(((hh * 60 + mm) * 60 + ss) * 1_000_000 + micros)
  {}

  lemma OffsetSizeReadsBack(hh: nat, mm: nat, ss: nat, micros: nat)
    requires hh < 24 && mm < 60 && ss < 60 && micros < 1_000_000
    ensures ReadOffsetSize(OffsetBody(hh, mm, ss, micros)) == Some(((hh * 60 + mm) * 60 + ss) * 1_000_000 + micros)
  {
    var s2 := OffsetTail(ss, micros);
    var s1 := [':'] + (Pad(mm, 2) + s2);
    OffsetTailReadsBack(ss, micros);
    NextReadsBack(':', mm, s2);
    Widths();
    FieldReadsBack(hh, 2, s1);
    ReadsOffsetSize(Pad(hh, 2) + s1, hh, s1, mm, s2, ss, micros);
  }

  lemma SignReadsBack(negative: bool, body: string, size: nat)
    requires ReadOffsetSize(body) == Some(size)
    ensures ReadOffset((if negative then "-" else "+") + body) == Some(Some(if negative then 0 - size else size))
  {
    assert ((if negative then "-" else "+") + body)[1..] == body;
  }

  lemma OffsetFieldsReadBack(negative: bool, hh: nat, mm: nat, ss: nat, micros: nat, size: nat)
    requires ReadOffsetSize(OffsetBody(hh, mm, ss, micros)) == Some(size)
    ensures ReadOffset(OffsetFields(negative, hh, mm, ss, micros)) == Some(Some(if negative then 0 - size else size))
  {
    SignReadsBack(negative, OffsetBody(hh, mm, ss, micros), size);
  }

  lemma FieldsReadBack(negative: bool, hh: nat, mm: nat, ss: nat, micros: nat, size: nat)
    requires hh < 24 && mm < 60 && ss < 60 && micros < 1_000_000
    requires ((hh * 60 + mm) * 60 + ss) * 1_000_000 + micros == size
    ensures ReadOffset(OffsetFields(negative, hh, mm, ss, micros)) == Some(Some(if negative then 0 - size else size))
  {
    OffsetSizeReadsBack(hh, mm, ss, micros);
    OffsetFieldsReadBack(negative, hh, mm, ss, micros, size);
  }

  lemma SpanReadsBack(negative: bool, abs: nat)
    requires abs < DAY
    ensures ReadOffset(SpanText(negative, abs)) == Some(Some(if negative then 0 - abs else abs))
  {
    SplitAddsUp(abs);
    var (hh, mm, ss, micros) := Split(abs);
    FieldsReadBack(negative, hh, mm, ss, micros, abs);
  }

  lemma OffsetTextIsSpan(o: int)
    ensures OffsetText(Some(o)) == SpanText(o < 0, if o < 0 then 0 - o else o)
  {}

  lemma OffsetReadsBack(offset: Option<int>)
    requires offset.Some? ==> -DAY < offset.value < DAY
    ensures ReadOffset(OffsetText(offset)) == Some(offset)
  {
    if offset.Some? {
      var o := offset.value;
      var abs: nat := if o < 0 then 0 - o else o;
      OffsetTextIsSpan(o);
      SpanReadsBack(o < 0, abs);
      assert o == if o < 0 then 0 - abs else abs;
    }
  }

  /** `datetime.fromisoformat(d.isoformat()) == d`. */
  lemma FromIsoFormatIsoFormat(d: Stamp)
    ensures FromIsoFormat(IsoFormat(d)) == Some(d)
  {
    var s7 := OffsetText(d.offset);
    OffsetReadsBack(d.offset);
    OffsetTextStart(d.offset);
    FractionReadsBack(d.micro, s7);
    var s6 := Fraction(d.micro) + s7;
    NextReadsBack(':', d.second, s6);
    var s5 := [':'] + (Pad(d.second, 2) + s6);
    NextReadsBack(':', d.minute, s5);
    var s4 := [':'] + (Pad(d.minute, 2) + s5);
    NextReadsBack('T', d.hour, s4);
    var s3 := ['T'] + (Pad(d.hour, 2) + s4);
    NextReadsBack('-', d.day, s3);
    var s2 := ['-'] + (Pad(d.day, 2) + s3);
    NextReadsBack('-', d.month, s2);
    var s1 := ['-'] + (Pad(d.month, 2) + s2);
    Widths();
    FieldReadsBack(d.year, 4, s1);
    assert IsoFormat(d) == Pad(d.year, 4) + s1;
  }

  // ---- order of the texts -----------------------------------------------------------------

  lemma {:induction false} PadOrder(n: nat, m: nat, w: nat)
    requires n < Pow10(w) && m < Pow10(w)
    ensures TextLess(Pad(n, w), Pad(m, w)) <==> n < m
    ensures Pad(n, w) == Pad(m, w) <==> n == m
  {
    if w > 0 {
      PadOrder(n / 10, m / 10, w - 1);
      var c, d := [('0' as int + n % 10) as char], [('0' as int + m % 10) as char];
      TextLessByBlock(Pad(n / 10, w - 1), Pad(m / 10, w - 1), c, d);
      assert Pad(n, w)[w - 1] == c[0] && Pad(m, w)[w - 1] == d[0];
      assert Pad(n, w)[..w - 1] == Pad(n / 10, w - 1) && Pad(m, w)[..w - 1] == Pad(m / 10, w - 1);
    }
  }

  /** A fixed-width field decides the order, and on a tie what follows the separator does. */
  lemma FieldOrder(n: nat, m: nat, w: nat, sep: string, a: string, b: string)
    requires n < Pow10(w) && m < Pow10(w)
    ensures TextLess(Pad(n, w) + (sep + a), Pad(m, w) + (sep + b)) <==> n < m || (n == m && TextLess(a, b))
    ensures Pad(n, w) + (sep + a) == Pad(m, w) + (sep + b) <==> n == m && a == b
  {
    PadOrder(n, m, w);
    TextLessByBlock(Pad(n, w), Pad(m, w), sep + a, sep + b);
    TextLessByBlock(sep, sep, a, b);
    TextLessIrreflexive(sep);
    var s, t := Pad(n, w) + (sep + a), Pad(m, w) + (sep + b);
    assert s[..w] == Pad(n, w) && t[..w] == Pad(m, w);
    assert s[w..][|sep|..] == a && t[w..][|sep|..] == b;
  }

  lemma Widths()
    ensures Pow10(2) == 100 && Pow10(4) == 10_000 && Pow10(6) == 1_000_000
  {
    assert Pow10(3) == 1000 && Pow10(5) == 100_000;
  }

  lemma TimeTextOrder(a: Stamp, b: Stamp, r: string, s: string)
    ensures TextLess(TimeText(a, r), TimeText(b, s)) <==>
            || a.hour < b.hour
            || (a.hour == b.hour
                && (a.minute < b.minute
                    || (a.minute == b.minute
                        && (a.second < b.second || (a.second == b.second && TextLess(r, s))))))
    ensures TimeText(a, r) == TimeText(b, s) <==>
            a.hour == b.hour && a.minute == b.minute && a.second == b.second && r == s
  {
    Widths();
    FieldOrder(a.second, b.second, 2, "", r, s);
    assert "" + r == r && "" + s == s;
    var sa, sb := Pad(a.second, 2) + r, Pad(b.second, 2) + s;
    FieldOrder(a.minute, b.minute, 2, ":", sa, sb);
    var ma, mb := Pad(a.minute, 2) + (":" + sa), Pad(b.minute, 2) + (":" + sb);
    FieldOrder(a.hour, b.hour, 2, ":", ma, mb);
    var ha, hb := Pad(a.hour, 2) + (":" + ma), Pad(b.hour, 2) + (":" + mb);
    TextLessByBlock("T", "T", ha, hb);
    TextLessIrreflexive("T");
    assert ("T" + ha)[1..] == ha && ("T" + hb)[1..] == hb;
  }

  lemma DateTextOrder(a: Stamp, b: Stamp, r: string, s: string)
    ensures TextLess(DateText(a, r), DateText(b, s)) <==> DateLess(a, b) || (SameDate(a, b) && TextLess(r, s))
    ensures DateText(a, r) == DateText(b, s) <==> SameDate(a, b) && r == s
  {
    Widths();
    FieldOrder(a.day, b.day, 2, "", r, s);
    assert "" + r == r && "" + s == s;
    var da, db := Pad(a.day, 2) + r, Pad(b.day, 2) + s;
    FieldOrder(a.month, b.month, 2, "-", da, db);
    var ma, mb := Pad(a.month, 2) + ("-" + da), Pad(b.month, 2) + ("-" + db);
    FieldOrder(a.year, b.year, 4, "-", ma, mb);
  }

  /** What can follow a second or a fraction sorts below a fraction's point. */
  lemma OffsetTextStart(offset: Option<int>)
    ensures OffsetText(offset) == "" <==> offset.None?
    ensures OffsetText(offset) != "" ==> OffsetText(offset)[0] in "+-"
  {}

  lemma FractionOrder(m: nat, n: nat, o: Option<int>)
    requires m < 1_000_000 && n < 1_000_000
    ensures TextLess(Fraction(m) + OffsetText(o), Fraction(n) + OffsetText(o)) <==> m < n
  {
    var t := OffsetText(o);
    OffsetTextStart(o);
    Widths();
    TextLessIrreflexive(t);
    if m == 0 && n == 0 {
      assert Fraction(m) + t == t;
    } else if m == 0 || n == 0 {
      assert Fraction(0) + t == t;
    } else {
      PadOrder(m, n, 6);
      TextLessByBlock(Fraction(m), Fraction(n), t, t);
      TextLessByBlock(".", ".", Pad(m, 6), Pad(n, 6));
      TextLessIrreflexive(".");
    }
  }

  /** With equal UTC offsets, the stored texts compare as the instants do. */
  lemma {:induction false} TextOrderIsTimeOrder(a: Stamp, b: Stamp)
    requires a.offset == b.offset
    ensures TextLess(IsoFormat(a), IsoFormat(b)) <==> Instant(a) < Instant(b)
  {
    var fa, fb := Fraction(a.micro) + OffsetText(a.offset), Fraction(b.micro) + OffsetText(b.offset);
    FractionOrder(a.micro, b.micro, a.offset);
    TimeTextOrder(a, b, fa, fb);
    DateTextOrder(a, b, TimeText(a, fa), TimeText(b, fb));
    FieldOrderIsLocalOrder(a, b);
  }

  // ---- different offsets ------------------------------------------------------------------

  /** An earlier reading of the local clock sorts first whatever the offsets are. */
  lemma {:induction false} EarlierLocalSortsFirst(a: Stamp, b: Stamp)
    requires Local(a) < Local(b)
    ensures TextLess(IsoFormat(a), IsoFormat(b))
  {
    FieldOrderIsLocalOrder(a, b);
    var fa, fb := Fraction(a.micro) + OffsetText(a.offset), Fraction(b.micro) + OffsetText(b.offset);
    if !(SameDate(a, b) && a.hour == b.hour && a.minute == b.minute && a.second == b.second) {
      TimeTextOrder(a, b, fa, fb);
      DateTextOrder(a, b, TimeText(a, fa), TimeText(b, fb));
    } else {
      FractionBeforeAnyOffset(a.micro, b.micro, a.offset, b.offset);
      TimeTextOrder(a, b, fa, fb);
      DateTextOrder(a, b, TimeText(a, fa), TimeText(b, fb));
    }
  }

  lemma FractionBeforeAnyOffset(m: nat, n: nat, o: Option<int>, p: Option<int>)
    requires m < n < 1_000_000
    ensures TextLess(Fraction(m) + OffsetText(o), Fraction(n) + OffsetText(p))
  {
    OffsetTextStart(o);
    Widths();
    if m > 0 {
      PadOrder(m, n, 6);
      TextLessByBlock(Fraction(m), Fraction(n), OffsetText(o), OffsetText(p));
      TextLessByBlock(".", ".", Pad(m, 6), Pad(n, 6));
    } else {
      assert Fraction(0) + OffsetText(o) == OffsetText(o);
    }
  }

  lemma PlainFractionOrder(m: nat, n: nat)
    requires m < 1_000_000 && n < 1_000_000
    ensures TextLess(Fraction(m), Fraction(n)) <==> m < n
  {
    FractionOrder(m, n, None);
    assert Fraction(m) + "" == Fraction(m) && Fraction(n) + "" == Fraction(n);
  }

  lemma OffsetTailOrder(ss: nat, micros: nat, ss': nat, micros': nat)
    requires ss < 60 && micros < 1_000_000 && ss' < 60 && micros' < 1_000_000
    ensures TextLess(OffsetTail(ss, micros), OffsetTail(ss', micros')) <==> ss < ss' || (ss == ss' && micros < micros')
  {
    if (ss != 0 || micros != 0) && (ss' != 0 || micros' != 0) {
      var f, f' := Fraction(micros), Fraction(micros');
      Widths();
      PlainFractionOrder(micros, micros');
      FieldOrder(ss, ss', 2, "", f, f');
      assert "" + f == f && "" + f' == f';
      TextLessByBlock(":", ":", Pad(ss, 2) + f, Pad(ss', 2) + f');
      TextLessIrreflexive(":");
    }
  }

  lemma OffsetBodyOrder(hh: nat, mm: nat, tail: string, hh': nat, mm': nat, tail': string)
    requires hh < 24 && mm < 60 && hh' < 24 && mm' < 60
    ensures TextLess(Pad(hh, 2) + (":" + (Pad(mm, 2) + tail)), Pad(hh', 2) + (":" + (Pad(mm', 2) + tail')))
       <==> hh < hh' || (hh == hh' && (mm < mm' || (mm == mm' && TextLess(tail, tail'))))
  {
    Widths();
    FieldOrder(mm, mm', 2, "", tail, tail');
    assert "" + tail == tail && "" + tail' == tail';
    FieldOrder(hh, hh', 2, ":", Pad(mm, 2) + tail, Pad(mm', 2) + tail');
  }

  /** With one sign the longer span sorts later. */
  lemma SpanTextOrder(negative: bool, x: nat, y: nat)
    requires x < DAY && y < DAY
    ensures TextLess(SpanText(negative, x), SpanText(negative, y)) <==> x < y
  {
    SplitAddsUp(x);
    SplitAddsUp(y);
    var (hh, mm, ss, micros) := Split(x);
    var (hh', mm', ss', micros') := Split(y);
    OffsetTailOrder(ss, micros, ss', micros');
    OffsetBodyOrder(hh, mm, OffsetTail(ss, micros), hh', mm', OffsetTail(ss', micros'));
    SignedOrder(negative, OffsetBody(hh, mm, ss, micros), OffsetBody(hh', mm', ss', micros'));
  }

  lemma SignedOrder(negative: bool, s: string, t: string)
    ensures var sign := if negative then "-" else "+"; TextLess(sign + s, sign + t) <==> TextLess(s, t)
  {
    var sign := if negative then "-" else "+";
    TextLessByBlock(sign, sign, s, t);
    TextLessIrreflexive(sign);
  }

  /** East sorts before west. */
  lemma SignsOrder(x: nat, y: nat)
    ensures TextLess(SpanText(false, x), SpanText(true, y)) && !TextLess(SpanText(true, y), SpanText(false, x))
  {
    var (hh, mm, ss, micros) := Split(x);
    var (hh', mm', ss', micros') := Split(y);
    PlusBeforeMinus(OffsetBody(hh, mm, ss, micros), OffsetBody(hh', mm', ss', micros'));
  }

  lemma PlusBeforeMinus(s: string, t: string)
    ensures TextLess("+" + s, "-" + t) && !TextLess("-" + t, "+" + s)
  {}

  lemma OffsetOrder(o: int, p: int)
    requires -DAY < o < DAY && -DAY < p < DAY
    ensures TextLess(OffsetText(Some(o)), OffsetText(Some(p)))
       <==> if o >= 0 && p >= 0 then o < p else if o < 0 && p < 0 then p < o else o >= 0
  {
    var x: nat, y: nat := if o < 0 then 0 - o else o, if p < 0 then 0 - p else p;
    OffsetTextIsSpan(o);
    OffsetTextIsSpan(p);
    if o >= 0 && p < 0 {
      SignsOrder(x, y);
    } else if o < 0 && p >= 0 {
      SignsOrder(y, x);
    } else {
      SpanTextOrder(o < 0, x, y);
    }
  }

  lemma EqualReadingsSortByOffset(a: Stamp, b: Stamp)
    requires Local(a) == Local(b)
    ensures TextLess(IsoFormat(a), IsoFormat(b)) <==> TextLess(OffsetText(a.offset), OffsetText(b.offset))
  {
    EqualReadingsHaveEqualFields(a, b);
    EqualFieldsSortByTail(a, b, Fraction(a.micro), OffsetText(a.offset), OffsetText(b.offset));
  }

  lemma EqualReadingsHaveEqualFields(a: Stamp, b: Stamp)
    requires Local(a) == Local(b)
    ensures SameDate(a, b) && a.hour == b.hour && a.minute == b.minute && a.second == b.second && a.micro == b.micro
  {
    FieldOrderIsLocalOrder(a, b);
    FieldOrderIsLocalOrder(b, a);
  }

  lemma EqualFieldsSortByTail(a: Stamp, b: Stamp, fraction: string, x: string, y: string)
    requires SameDate(a, b) && a.hour == b.hour && a.minute == b.minute && a.second == b.second
    ensures TextLess(DateText(a, TimeText(a, fraction + x)), DateText(b, TimeText(b, fraction + y))) <==> TextLess(x, y)
  {
    TextLessByBlock(fraction, fraction, x, y);
    TextLessIrreflexive(fraction);
    TimeTextOrder(a, b, fraction + x, fraction + y);
    DateTextOrder(a, b, TimeText(a, fraction + x), TimeText(b, fraction + y));
  }

  /** The offset, a naive stamp being read as UTC. */
  function Zone(d: DateTime): int
  {
    if d.offset.Some? then d.offset.value else 0
  }

  /** What it takes for `a` to sort before `b` exactly if it is earlier: clocks further apart than the offsets or, if
      they read the same, equal offsets or one west of UTC; a naive stamp sorts before every aware one of its reading.
      */
  predicate Agrees(a: DateTime, b: DateTime)
  {
    if Local(a) < Local(b) then Zone(b) - Zone(a) < Local(b) - Local(a)
    else if Local(b) < Local(a) then Zone(a) - Zone(b) <= Local(a) - Local(b)
    else
      match (a.offset, b.offset)
      case (None, None) => true
      case (None, Some(q)) => q < 0
      case (Some(p), None) => p <= 0
      case (Some(p), Some(q)) => p == q || p < 0 || q < 0
  }

  /** For any two stamps, naive or aware, the text of the first sorts before that of the second exactly if it is
      earlier, if and only if they agree in this sense. */
  lemma {:induction false} TextAgreesWithTimeIff(a: Stamp, b: Stamp)
    ensures (TextLess(IsoFormat(a), IsoFormat(b)) <==> Instant(a) < Instant(b)) <==> Agrees(a, b)
  {
    if Local(a) < Local(b) {
      EarlierLocalSortsFirst(a, b);
    } else if Local(b) < Local(a) {
      EarlierLocalSortsFirst(b, a);
      TextLessAsymmetric(IsoFormat(b), IsoFormat(a));
    } else {
      EqualReadingsSortByOffset(a, b);
      OffsetTextStart(a.offset);
      OffsetTextStart(b.offset);
      if a.offset.Some? && b.offset.Some? { OffsetOrder(a.offset.value, b.offset.value); }
    }
  }

  /** The texts compare as the instants do, both ways. */
  predicate KeepsOrder(a: Stamp, b: Stamp)
  {
    && (TextLess(IsoFormat(a), IsoFormat(b)) <==> Instant(a) < Instant(b))
    && (TextLess(IsoFormat(b), IsoFormat(a)) <==> Instant(b) < Instant(a))
  }

  /** For any two stamps with offsets, text order is time order exactly when the local clocks are further apart than the
      offsets or, if the clocks read the same, the offsets are equal or one of them is west. */
  lemma {:induction false} KeepsOrderIff(a: Stamp, b: Stamp)
    requires a.offset.Some? && b.offset.Some?
    ensures KeepsOrder(a, b) <==>
              if Local(a) < Local(b) then b.offset.value - a.offset.value < Local(b) - Local(a)
              else if Local(b) < Local(a) then a.offset.value - b.offset.value < Local(a) - Local(b)
              else a.offset == b.offset || a.offset.value < 0 || b.offset.value < 0
  {
    TextAgreesWithTimeIff(a, b);
    TextAgreesWithTimeIff(b, a);
  }

  /** A list sorted by these texts can have `a` before `b` only in time order. */
  predicate NeverReversed(a: DateTime, b: DateTime)
  {
    if Local(a) < Local(b) then Zone(b) - Zone(a) <= Local(b) - Local(a)
    else Local(a) == Local(b) ==> !(0 <= Zone(a) < Zone(b))
  }

  lemma {:induction false} SortsInTimeIff(a: Stamp, b: Stamp)
    ensures (TextLess(IsoFormat(a), IsoFormat(b)) ==> Instant(a) <= Instant(b)) <==> NeverReversed(a, b)
  {
    if Local(a) < Local(b) {
      EarlierLocalSortsFirst(a, b);
    } else if Local(b) < Local(a) {
      EarlierLocalSortsFirst(b, a);
      TextLessAsymmetric(IsoFormat(b), IsoFormat(a));
    } else {
      EqualReadingsSortByOffset(a, b);
      OffsetTextStart(a.offset);
      OffsetTextStart(b.offset);
      if a.offset.Some? && b.offset.Some? { OffsetOrder(a.offset.value, b.offset.value); }
    }
  }

  /** 09:30 in UTC sorts before 10:00 at +08:00, which is seven and a half hours earlier. */
  lemma MixedOffsetsCanBreakOrder()
    ensures exists a: Stamp, b: Stamp ::
              Instant(b) < Instant(a) && TextLess(IsoFormat(a), IsoFormat(b))
  {
    var a: Stamp := DateTime(2026, 5, 1, 9, 30, 0, 0, Some(0));
    var b: Stamp := DateTime(2026, 5, 1, 10, 0, 0, 0, Some(28_800_000_000));
    assert Local(b) == Local(a) + 1_800_000_000;
    EarlierLocalSortsFirst(a, b);
    assert Instant(b) < Instant(a);
  }
}
