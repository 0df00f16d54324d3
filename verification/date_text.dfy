/** The birth-date text format `dd/MM/yyyy` of the registration form: a
    Gregorian calendar date, its rendering as text and the parser that reads
    typed text back into a date. The parser stands in for the date library's
    `parse` followed by `isValid`: each numeric field is read greedily (one
    or two digits for day and month, one to four for the year), the fields
    are separated by `/`, nothing may follow the year, and the day must exist
    in that month of that year. */
module DateText {
  import opened Common

  datatype Date = Date(day: nat, month: nat, year: nat)

  predicate IsLeapYear(year: nat)
  {
    year % 4 == 0 && (year % 100 != 0 || year % 400 == 0)
  }

  function DaysInMonth(year: nat, month: nat): (n: nat)
    requires 1 <= month <= 12
    ensures 28 <= n <= 31
  {
    if month == 2 then (if IsLeapYear(year) then 29 else 28)
    else if month in {4, 6, 9, 11} then 30
    else 31
  }

  /** A real calendar day whose year fits the four digits of `yyyy`; the
      year parser of the date library refuses year zero. */
  predicate ValidDate(d: Date)
  {
    1 <= d.month <= 12 && 1 <= d.day <= DaysInMonth(d.year, d.month) && 1 <= d.year <= 9999
  }

  type CalendarDate = d: Date | ValidDate(d) witness Date(1, 1, 2000)

  function Pow10(n: nat): (p: nat)
  {
    if n == 0 then 1 else 10 * Pow10(n - 1)
  }

  function DigitChar(x: nat): (c: char)
    requires x < 10
    ensures IsDigit(c)
  {
    ('0' as int + x) as char
  }

  function DigitValue(c: char): (x: nat)
    requires IsDigit(c)
    ensures x < 10
  {
    c as int - '0' as int
  }

  /** The value of a string of decimal digits, most significant first. */
  function NumberValue(s: string): (n: nat)
    requires AllDigits(s)
  {
    if s == [] then 0 else 10 * NumberValue(s[..|s| - 1]) + DigitValue(s[|s| - 1])
  }

  /** `x` written in exactly `width` digits, with leading zeros. */
  function Padded(x: nat, width: nat): (s: string)
    ensures |s| == width && AllDigits(s)
  {
    if width == 0 then [] else Padded(x / 10, width - 1) + [DigitChar(x % 10)]
  }

  /** The number of leading digits of `s`, counting at most `max` of them. */
  function DigitRunLength(s: string, max: nat): (n: nat)
    ensures n <= max && n <= |s|
    ensures AllDigits(s[..n])
    ensures n < max && n < |s| ==> !IsDigit(s[n])
  {
    if max == 0 || s == [] || !IsDigit(s[0]) then 0
    else 1 + DigitRunLength(s[1..], max - 1)
  }

  /** Reads one numeric field of one to `max` digits from the front of `s`;
      yields its value and the text after it. */
  function ReadNumber(s: string, max: nat): (r: Option<(nat, string)>)
    ensures r.Some? ==> |r.value.1| < |s|
  {
    var n := DigitRunLength(s, max);
    if n == 0 then None else Some((NumberValue(s[..n]), s[n..]))
  }

  /** Reads the separator `/` from the front of `s`. */
  function ReadSlash(s: string): (r: Option<string>)
  {
    if |s| > 0 && s[0] == '/' then Some(s[1..]) else None
  }

  /** Parses `dd/MM/yyyy`; None when the text is malformed or names no real day. */
  function Parse(text: string): (r: Option<CalendarDate>)
  {
    match ReadNumber(text, 2)
    case None => None
    case Some((day, afterDay)) =>
      match ReadSlash(afterDay)
      case None => None
      case Some(monthText) =>
        match ReadNumber(monthText, 2)
        case None => None
        case Some((month, afterMonth)) =>
          match ReadSlash(afterMonth)
          case None => None
          case Some(yearText) =>
            match ReadNumber(yearText, 4)
            case None => None
            case Some((year, rest)) =>
              if rest == [] && ValidDate(Date(day, month, year))
              then Some(Date(day, month, year)) else None
  }

  /** Day, month and year zero-padded to two, two and four digits, separated by `/`. */
  function FieldText(day: nat, month: nat, year: nat): (text: string)
  {
    Padded(day, 2) + ("/" + (Padded(month, 2) + ("/" + Padded(year, 4))))
  }

  /** Renders a date as `dd/MM/yyyy`. */
  function Format(d: CalendarDate): (text: string)
  {
    FieldText(d.day, d.month, d.year)
  }

  lemma {:induction false} PaddedValue(x: nat, width: nat)
    requires x < Pow10(width)
    ensures NumberValue(Padded(x, width)) == x
  {
    if width > 0 {
      var p := Padded(x, width);
      assert x / 10 < Pow10(width - 1);
      PaddedValue(x / 10, width - 1);
      assert p[..|p| - 1] == Padded(x / 10, width - 1);
      assert DigitValue(p[|p| - 1]) == x % 10;
    }
  }

  lemma DigitRunOfPadded(digits: string, rest: string)
    requires AllDigits(digits)
    requires rest == [] || !IsDigit(rest[0])
    ensures DigitRunLength(digits + rest, |digits|) == |digits|
  {
  }

  /** A padded field followed by a non-digit is read back as its value. */
  lemma ReadPadded(x: nat, width: nat, rest: string)
    requires 0 < width && x < Pow10(width)
    requires rest == [] || !IsDigit(rest[0])
    ensures ReadNumber(Padded(x, width) + rest, width) == Some((x, rest))
  {
    var p := Padded(x, width);
    DigitRunOfPadded(p, rest);
    assert (p + rest)[..width] == p;
    assert (p + rest)[width..] == rest;
    PaddedValue(x, width);
  }

  /** Zero-padded fields are read back exactly: the text is accepted when,
      and only when, it names a real calendar day. */
  lemma ParseFieldText(day: nat, month: nat, year: nat)
    requires day < 100 && month < 100 && year < 10000
    ensures Parse(FieldText(day, month, year)) ==
      if ValidDate(Date(day, month, year)) then Some(Date(day, month, year)) else None
  {
    var yearText := Padded(year, 4);
    var monthText := Padded(month, 2) + ("/" + yearText);
    assert Pow10(2) == 100 && Pow10(4) == 10000;
    ReadPadded(day, 2, "/" + monthText);
    assert ReadSlash("/" + monthText) == Some(monthText);
    ReadPadded(month, 2, "/" + yearText);
    assert ReadSlash("/" + yearText) == Some(yearText);
    ReadPadded(year, 4, []);
    assert yearText + [] == yearText;
  }

  /** Every date the form renders is parsed back to itself. */
  lemma ParseFormat(d: CalendarDate)
    ensures Parse(Format(d)) == Some(d)
  {
    ParseFieldText(d.day, d.month, d.year);
  }

  /** The 31st of February is rejected in every year. */
  lemma ParseRejectsFebruary31(year: nat)
    requires year < 10000
    ensures Parse(FieldText(31, 2, year)) == None
  {
    ParseFieldText(31, 2, year);
  }

  /** Year `0000` is rejected whatever the day and month. */
  lemma ParseRejectsYearZero(day: nat, month: nat)
    requires day < 100 && month < 100
    ensures Parse(FieldText(day, month, 0)) == None
  {
    ParseFieldText(day, month, 0);
  }

  /** The 29th of February is accepted exactly in leap years. */
  lemma ParseLeapDay(year: nat)
    requires 1 <= year < 10000
    ensures Parse(FieldText(29, 2, year)).Some? <==> IsLeapYear(year)
  {
    ParseFieldText(29, 2, year);
  }
}
