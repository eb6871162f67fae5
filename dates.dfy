/** Calendar dates as Python's `datetime.date` holds them, the ordinal numbering
    behind `date - timedelta(days=k)`, and the parser behind
    `datetime.strptime(s, '%Y-%m-%d')` that the endpoints use to validate dates. */
module Dates {
  import opened Wrappers

  datatype Date = Date(year: int, month: int, day: int)

  predicate IsLeapYear(y: int) {
    y % 4 == 0 && (y % 100 != 0 || y % 400 == 0)
  }

  function DaysInMonth(y: int, m: int): (n: int)
    requires 1 <= m <= 12
    ensures 28 <= n <= 31
    ensures n == 29 <==> m == 2 && IsLeapYear(y)
  {
    if m == 2 then (if IsLeapYear(y) then 29 else 28)
    else if m == 4 || m == 6 || m == 9 || m == 11 then 30
    else 31
  }

  /** The dates `datetime.date` accepts: years 1 to 9999, a real day of the month. */
  predicate IsValidDate(d: Date) {
    1 <= d.year <= 9999 && 1 <= d.month <= 12 && 1 <= d.day <= DaysInMonth(d.year, d.month)
  }

  /** Days in the years before `year` (proleptic Gregorian), as `date.toordinal` counts them. */
  function DaysBeforeYear(year: int): (n: int)
    requires year >= 1
    ensures n >= 0
  {
    var y := year - 1;
    y * 365 + y / 4 - y / 100 + y / 400
  }

  function DaysBeforeMonth(year: int, month: int): (n: int)
    requires 1 <= month <= 12
    ensures 0 <= n <= 335
  {
    var table := [0, 31, 59, 90, 120, 151, 181, 212, 243, 273, 304, 334];
    table[month - 1] + (if month > 2 && IsLeapYear(year) then 1 else 0)
  }

  /** `date.toordinal()`: 0001-01-01 is day 1. */
  function ToOrdinal(d: Date): (n: int)
    requires IsValidDate(d)
    ensures n >= 1
  {
    DaysBeforeYear(d.year) + DaysBeforeMonth(d.year, d.month) + d.day
  }

  /** `date.replace(day=1)`. */
  function FirstOfMonth(d: Date): (r: Date)
    requires IsValidDate(d)
    ensures IsValidDate(r) && r.year == d.year && r.month == d.month && r.day == 1
    ensures ToOrdinal(r) <= ToOrdinal(d)
    ensures ToOrdinal(r) == ToOrdinal(d) <==> d.day == 1
  {
    d.(day := 1)
  }

  // ---------------------------------------------------------------------------
  // Digits

  predicate IsDigit(c: char) {
    '0' <= c <= '9'
  }

  function DigitValue(c: char): (v: nat)
    requires IsDigit(c)
    ensures v <= 9
  {
    (c as int) - ('0' as int)
  }

  function DigitChar(v: nat): (c: char)
    requires v <= 9
    ensures IsDigit(c) && DigitValue(c) == v
  {
    (('0' as int) + v) as char
  }

  function Pow10(k: nat): (p: nat)
    ensures p >= 1
  {
    if k == 0 then 1 else 10 * Pow10(k - 1)
  }

  predicate AllDigits(s: string) {
    forall i :: 0 <= i < |s| ==> IsDigit(s[i])
  }

  /** The number a run of decimal digits spells, most significant first (`int(s)`). */
  function DigitsValue(s: string): (n: nat)
    requires AllDigits(s)
    ensures n < Pow10(|s|)
  {
    if s == [] then 0 else DigitsValue(s[..|s| - 1]) * 10 + DigitValue(s[|s| - 1])
  }

  /** `n` written with exactly `width` digits, zero-padded on the left (`%0Nd`). */
  function Digits(n: nat, width: nat): (s: string)
    ensures |s| == width && AllDigits(s)
  {
    if width == 0 then [] else Digits(n / 10, width - 1) + [DigitChar(n % 10)]
  }

  lemma {:induction false} DigitsRoundTrip(n: nat, width: nat)
    requires n < Pow10(width)
    ensures DigitsValue(Digits(n, width)) == n
  {
    if width > 0 {
      var s := Digits(n, width);
      assert s[..|s| - 1] == Digits(n / 10, width - 1);
      DigitsRoundTrip(n / 10, width - 1);
    }
  }

  // ---------------------------------------------------------------------------
  // strptime(s, '%Y-%m-%d')
  //
  // CPython compiles the format to the regular expression
  //   (?P<Y>\d\d\d\d)-(?P<m>1[0-2]|0[1-9]|[1-9])-(?P<d>3[0-1]|[1-2]\d|0[1-9]|[1-9]| [1-9])
  // matches it at the start of the string, rejects any text left after the match
  // ("unconverted data remains"), and then builds `datetime.date(Y, m, d)`, which
  // rejects year 0 and a day past the end of the month. Every failure is a ValueError.
  // The regular expression tries the alternatives of a group in order; for %m
  // at most one alternative can be followed by '-', so taking the first one that
  // matches gives the same outcome as the engine's backtracking, and %d ends the
  // pattern, so its first matching alternative is the one the engine keeps.

  /** A field the pattern matched: its value and how many characters it took. */
  datatype Field = Field(value: nat, width: nat)

  /** `%m` at position `p`: 1[0-2] | 0[1-9] | [1-9]. */
  function MonthAt(s: string, p: nat): (r: Option<Field>)
    ensures r.Some? ==> 1 <= r.value.value <= 12 && 1 <= r.value.width <= 2 && p + r.value.width <= |s|
  {
    if p + 1 < |s| && s[p] == '1' && '0' <= s[p + 1] <= '2' then Some(Field(10 + DigitValue(s[p + 1]), 2))
    else if p + 1 < |s| && s[p] == '0' && '1' <= s[p + 1] <= '9' then Some(Field(DigitValue(s[p + 1]), 2))
    else if p < |s| && '1' <= s[p] <= '9' then Some(Field(DigitValue(s[p]), 1))
    else None
  }

  /** `%d` at position `p`: 3[0-1] | [1-2]\d | 0[1-9] | [1-9] | ' '[1-9]. */
  function DayAt(s: string, p: nat): (r: Option<Field>)
    ensures r.Some? ==> 1 <= r.value.value <= 31 && 1 <= r.value.width <= 2 && p + r.value.width <= |s|
  {
    if p + 1 < |s| && s[p] == '3' && '0' <= s[p + 1] <= '1' then Some(Field(30 + DigitValue(s[p + 1]), 2))
    else if p + 1 < |s| && '1' <= s[p] <= '2' && IsDigit(s[p + 1]) then Some(Field(10 * DigitValue(s[p]) + DigitValue(s[p + 1]), 2))
    else if p + 1 < |s| && s[p] == '0' && '1' <= s[p + 1] <= '9' then Some(Field(DigitValue(s[p + 1]), 2))
    else if p < |s| && '1' <= s[p] <= '9' then Some(Field(DigitValue(s[p]), 1))
    else if p + 1 < |s| && s[p] == ' ' && '1' <= s[p + 1] <= '9' then Some(Field(DigitValue(s[p + 1]), 2))
    else None
  }

  /** `datetime.strptime(s, '%Y-%m-%d').date()`; None stands for the ValueError. */
  function ParseIsoDate(s: string): (r: Option<Date>)
    ensures r.Some? ==> IsValidDate(r.value)
    ensures r.Some? ==> |s| >= 5 && AllDigits(s[..4]) && s[4] == '-' && r.value.year == DigitsValue(s[..4])
    ensures r.Some? ==> MonthAt(s, 5).Some? && r.value.month == MonthAt(s, 5).value.value
    ensures r.Some? ==>
      var q := 5 + MonthAt(s, 5).value.width;
      q < |s| && s[q] == '-' && DayAt(s, q + 1) == Some(Field(r.value.day, |s| - (q + 1)))
  {
    if |s| < 5 || !AllDigits(s[..4]) || s[4] != '-' then None
    else
      var year := DigitsValue(s[..4]);
      match MonthAt(s, 5)
      case None => None
      case Some(m) =>
        var q := 5 + m.width;
        if q >= |s| || s[q] != '-' then None
        else
          match DayAt(s, q + 1)
          case None => None
          case Some(d) =>
            if q + 1 + d.width != |s| then None
            else if year < 1 || d.value > DaysInMonth(year, m.value) then None
            else Some(Date(year, m.value, d.value))
  }

  /** The ISO form `YYYY-MM-DD` of a date (`strftime('%Y-%m-%d')` for four-digit years). */
  function FormatIsoDate(d: Date): (s: string)
    requires IsValidDate(d)
    ensures |s| == 10 && s[4] == '-' && s[7] == '-'
  {
    Digits(d.year, 4) + "-" + Digits(d.month, 2) + "-" + Digits(d.day, 2)
  }

  /** A two-digit field is its tens digit then its units digit. */
  lemma TwoDigits(v: nat)
    requires v < 100
    ensures Digits(v, 2) == [DigitChar(v / 10), DigitChar(v % 10)]
  {
    assert Digits(v / 10, 1) == [DigitChar(v / 10 % 10)];
  }

  /** %m reads back a zero-padded month. */
  lemma MonthField(s: string, p: nat, m: nat)
    requires 1 <= m <= 12 && p + 1 < |s|
    requires s[p] == DigitChar(m / 10) && s[p + 1] == DigitChar(m % 10)
    ensures MonthAt(s, p) == Some(Field(m, 2))
  {
  }

  /** %d reads back a zero-padded day. */
  lemma DayField(s: string, p: nat, d: nat)
    requires 1 <= d <= 31 && p + 1 == |s| - 1
    requires s[p] == DigitChar(d / 10) && s[p + 1] == DigitChar(d % 10)
    ensures DayAt(s, p) == Some(Field(d, 2))
  {
  }

  /** Every date the format writes is read back unchanged. */
  lemma FormatThenParse(d: Date)
    requires IsValidDate(d)
    ensures ParseIsoDate(FormatIsoDate(d)) == Some(d)
  {
    var s := FormatIsoDate(d);
    assert s[..4] == Digits(d.year, 4);
    DigitsRoundTrip(d.year, 4);
    TwoDigits(d.month);
    TwoDigits(d.day);
    assert s[5..7] == Digits(d.month, 2) && s[8..10] == Digits(d.day, 2);
    MonthField(s, 5, d.month);
    DayField(s, 8, d.day);
  }

  /** The last decimal digit of a*10 + v is v, and the rest is a. */
  lemma DivModTen(a: nat, v: nat)
    requires v <= 9
    ensures (a * 10 + v) / 10 == a && (a * 10 + v) % 10 == v
  {
  }

  /** A run of digits is read back by writing its value at its own width. */
  lemma {:induction false} ValueThenDigits(t: string)
    requires AllDigits(t)
    ensures Digits(DigitsValue(t), |t|) == t
  {
    if t != [] {
      var prefix := t[..|t| - 1];
      var c := t[|t| - 1];
      var n := DigitsValue(t);
      DivModTen(DigitsValue(prefix), DigitValue(c));
      ValueThenDigits(prefix);
      assert DigitChar(DigitValue(c)) == c;
      assert Digits(n, |t|) == Digits(DigitsValue(prefix), |prefix|) + [c];
      assert t == prefix + [c];
    }
  }

  /** A two-character %m field is the zero-padded month it stands for. */
  lemma MonthFieldBack(s: string, p: nat, m: nat)
    requires MonthAt(s, p) == Some(Field(m, 2))
    ensures p + 2 <= |s| && Digits(m, 2) == s[p..p + 2]
  {
    TwoDigits(m);
  }

  /** A two-character %d field, unless it is the space-padded form, is the
      zero-padded day it stands for. */
  lemma DayFieldBack(s: string, p: nat, d: nat)
    requires DayAt(s, p) == Some(Field(d, 2)) && s[p] != ' '
    ensures p + 2 <= |s| && Digits(d, 2) == s[p..p + 2]
  {
    TwoDigits(d);
  }

  /** What an accepted ten-character text consists of: four digits, '-',
      a two-character month field, '-', a two-character day field. */
  lemma ParsedFields(s: string)
    requires |s| == 10 && ParseIsoDate(s).Some?
    ensures var d := ParseIsoDate(s).value;
      && AllDigits(s[..4]) && d.year == DigitsValue(s[..4]) && s[4] == '-' && s[7] == '-'
      && MonthAt(s, 5) == Some(Field(d.month, 2)) && DayAt(s, 8) == Some(Field(d.day, 2))
  {
    assert MonthAt(s, 5).value.width == 2;
  }

  /** A ten-character text is its four parts and the two dashes between them. */
  lemma IsoPieces(s: string)
    requires |s| == 10 && s[4] == '-' && s[7] == '-'
    ensures s == s[..4] + "-" + s[5..7] + "-" + s[8..10]
  {
  }

  /** A ten-character text that parses is the ISO form of its date, unless
      its day is written with a leading space, which `%d` also accepts. */
  lemma ParseThenFormat(s: string)
    requires |s| == 10 && s[8] != ' ' && ParseIsoDate(s).Some?
    ensures FormatIsoDate(ParseIsoDate(s).value) == s
  {
    var d := ParseIsoDate(s).value;
    ParsedFields(s);
    ValueThenDigits(s[..4]);
    MonthFieldBack(s, 5, d.month);
    DayFieldBack(s, 8, d.day);
    IsoPieces(s);
  }

  /** The space-padded day: "2025-01- 5" is 5 January 2025, whose ISO form
      is a different text. */
  lemma SpacePaddedDayAccepted()
    ensures ParseIsoDate("2025-01- 5") == Some(Date(2025, 1, 5))
    ensures FormatIsoDate(Date(2025, 1, 5)) != "2025-01- 5"
  {
    assert "2025-01- 5"[..4] == "2025";
    assert DigitsValue("2025") == 2025 by {
      assert "2025"[..3] == "202" && "202"[..2] == "20" && "20"[..1] == "2" && "2"[..0] == "";
    }
    assert FormatIsoDate(Date(2025, 1, 5))[8] == DigitChar(0) by {
      TwoDigits(5);
    }
  }

  /** A month 13, a day 32, and 29 February outside a leap year are ValueErrors. */
  lemma MonthThirteenRejected()
    ensures ParseIsoDate("2025-13-40") == None
    ensures ParseIsoDate("2025-01-32") == None
    ensures ParseIsoDate("2025-02-29") == None
  {
    assert "2025-13-40"[..4] == "2025";
    assert "2025-01-32"[..4] == "2025";
    assert "2025-02-29"[..4] == "2025";
    assert DigitsValue("2025") == 2025 by {
      assert "2025"[..3] == "202" && "202"[..2] == "20" && "20"[..1] == "2" && "2"[..0] == "";
    }
  }

  /** 29 February of a leap year is a date. */
  lemma LeapDayAccepted()
    ensures ParseIsoDate("2024-02-29") == Some(Date(2024, 2, 29))
  {
    assert "2024-02-29"[..4] == "2024";
    assert DigitsValue("2024") == 2024 by {
      assert "2024"[..3] == "202" && "202"[..2] == "20" && "20"[..1] == "2" && "2"[..0] == "";
    }
  }

  /** One-digit month and day fields are accepted. */
  lemma ShortFieldsAccepted()
    ensures ParseIsoDate("2025-1-5") == Some(Date(2025, 1, 5))
  {
    assert "2025-1-5"[..4] == "2025";
    assert DigitsValue("2025") == 2025 by {
      assert "2025"[..3] == "202" && "202"[..2] == "20" && "20"[..1] == "2" && "2"[..0] == "";
    }
  }

  /** The Japanese form `YYYY年MM月DD日` the notes quote (`strftime('%Y年%m月%d日')`). */
  function FormatJapanese(d: Date): (s: string)
    requires IsValidDate(d)
    ensures |s| == 11
  {
    Digits(d.year, 4) + "年" + Digits(d.month, 2) + "月" + Digits(d.day, 2) + "日"
  }

  /** Two dates with the same Japanese form are the same date. */
  lemma FormatJapaneseInjective(d1: Date, d2: Date)
    requires IsValidDate(d1) && IsValidDate(d2)
    requires FormatJapanese(d1) == FormatJapanese(d2)
    ensures d1 == d2
  {
    var s1, s2 := FormatJapanese(d1), FormatJapanese(d2);
    assert s1[..4] == Digits(d1.year, 4) && s2[..4] == Digits(d2.year, 4);
    assert s1[5..7] == Digits(d1.month, 2) && s2[5..7] == Digits(d2.month, 2);
    assert s1[8..10] == Digits(d1.day, 2) && s2[8..10] == Digits(d2.day, 2);
    DigitsRoundTrip(d1.year, 4);
    DigitsRoundTrip(d2.year, 4);
    DigitsRoundTrip(d1.month, 2);
    DigitsRoundTrip(d2.month, 2);
    DigitsRoundTrip(d1.day, 2);
    DigitsRoundTrip(d2.day, 2);
  }
}
