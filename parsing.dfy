/**
 * The string parsing the use cases do before they query the store:
 * status path parameters (upper-cased, then matched against the enum
 * constant names, as Enum.valueOf(s.toUpperCase()) does) and due dates in
 * the pattern yyyy-MM-dd (as LocalDate.parse with that formatter does).
 */
module Parsing {
  import opened Domain

  /* ---------- case mapping ---------- */

  /** The dotless small i, which String.toUpperCase maps to 'I' in every locale. */
  const DotlessI: char := '\U{131}'

  /** The upper case of a character, for the characters that can upper-case
    * into a letter of a status name: the ASCII letters and the dotless i. */
  function UpperChar(c: char): char
  {
    if 'a' <= c <= 'z' then (c as int - 32) as char
    else if c == DotlessI then 'I'
    else c
  }

  function LowerChar(c: char): char
  {
    if 'A' <= c <= 'Z' then (c as int + 32) as char else c
  }

  function ToUpperCase(s: string): string
  {
    seq(|s|, i requires 0 <= i < |s| => UpperChar(s[i]))
  }

  function ToLowerAscii(s: string): (r: string)
    ensures |r| == |s|
    ensures forall i :: 0 <= i < |s| ==> r[i] == LowerChar(s[i])
  {
    seq(|s|, i requires 0 <= i < |s| => LowerChar(s[i]))
  }

  /** Upper-casing forgets the case a string was written in. */
  lemma UpperIgnoresCase(s: string)
    ensures ToUpperCase(ToLowerAscii(s)) == ToUpperCase(s)
    ensures ToUpperCase(ToUpperCase(s)) == ToUpperCase(s)
  {
    var l := ToLowerAscii(s);
    assert forall i :: 0 <= i < |s| ==> ToUpperCase(l)[i] == UpperChar(LowerChar(s[i]));
  }

  predicate AllUpperLetters(s: string)
  {
    forall i :: 0 <= i < |s| ==> 'A' <= s[i] <= 'Z'
  }

  /** Upper-casing undoes lower-casing on a word of capital letters. */
  lemma UpperOfLower(s: string)
    requires AllUpperLetters(s)
    ensures ToUpperCase(ToLowerAscii(s)) == s
  {
    var r := ToUpperCase(ToLowerAscii(s));
    forall i | 0 <= i < |s|
      ensures r[i] == s[i]
    {
      assert ToLowerAscii(s)[i] == LowerChar(s[i]);
    }
  }

  /* ---------- status names ---------- */

  function TaskStatusName(s: TaskStatus): string
  {
    match s
    case TODO => "TODO"
    case DOING => "DOING"
    case DONE => "DONE"
  }

  function BoardStatusName(s: BoardStatus): string
  {
    match s
    case ACTIVE => "ACTIVE"
    case COMPLETED => "COMPLETED"
  }

  /** TaskStatus.valueOf(s.toUpperCase()): None where valueOf throws. */
  function ParseTaskStatus(s: string): (r: Option<TaskStatus>)
    ensures forall st :: r == Some(st) <==> ToUpperCase(s) == TaskStatusName(st)
  {
    var u := ToUpperCase(s);
    if u == "TODO" then Some(TODO)
    else if u == "DOING" then Some(DOING)
    else if u == "DONE" then Some(DONE)
    else None
  }

  /** BoardStatus.valueOf(s.toUpperCase()): None where valueOf throws. */
  function ParseBoardStatus(s: string): (r: Option<BoardStatus>)
    ensures forall st :: r == Some(st) <==> ToUpperCase(s) == BoardStatusName(st)
  {
    var u := ToUpperCase(s);
    if u == "ACTIVE" then Some(ACTIVE)
    else if u == "COMPLETED" then Some(COMPLETED)
    else None
  }

  /** Every status is recognised by its name in upper and in lower case. */
  lemma {:induction false} TaskStatusParsesInAnyCase(st: TaskStatus)
    ensures ParseTaskStatus(TaskStatusName(st)) == Some(st)
    ensures ParseTaskStatus(ToLowerAscii(TaskStatusName(st))) == Some(st)
  {
    var n := TaskStatusName(st);
    assert AllUpperLetters(n);
    UpperOfLower(n);
    assert ToUpperCase(n) == n by {
      forall i | 0 <= i < |n| ensures ToUpperCase(n)[i] == n[i] { }
    }
  }

  lemma {:induction false} BoardStatusParsesInAnyCase(st: BoardStatus)
    ensures ParseBoardStatus(BoardStatusName(st)) == Some(st)
    ensures ParseBoardStatus(ToLowerAscii(BoardStatusName(st))) == Some(st)
  {
    var n := BoardStatusName(st);
    assert AllUpperLetters(n);
    UpperOfLower(n);
    assert ToUpperCase(n) == n by {
      forall i | 0 <= i < |n| ensures ToUpperCase(n)[i] == n[i] { }
    }
  }

  /** Status parsing does not depend on the case the text is written in. */
  lemma {:induction false} StatusParsingIgnoresCase(s: string)
    ensures ParseTaskStatus(ToLowerAscii(s)) == ParseTaskStatus(s)
    ensures ParseTaskStatus(ToUpperCase(s)) == ParseTaskStatus(s)
    ensures ParseBoardStatus(ToLowerAscii(s)) == ParseBoardStatus(s)
    ensures ParseBoardStatus(ToUpperCase(s)) == ParseBoardStatus(s)
  {
    UpperIgnoresCase(s);
  }

  /** The dotless i upper-cases to I, so "do\u0131ng" and "act\u0131ve" are statuses. */
  lemma DotlessIAccepted()
    ensures ParseTaskStatus(['d', 'o', DotlessI, 'n', 'g']) == Some(DOING)
    ensures ParseBoardStatus(['a', 'c', 't', DotlessI, 'v', 'e']) == Some(ACTIVE)
  {
    assert ToUpperCase(['d', 'o', DotlessI, 'n', 'g']) == "DOING";
    assert ToUpperCase(['a', 'c', 't', DotlessI, 'v', 'e']) == "ACTIVE";
  }

  /** A string whose length is no status name's is rejected, whatever its case. */
  lemma TaskStatusRejectsOtherLengths(s: string)
    requires |s| != 4 && |s| != 5
    ensures ParseTaskStatus(s) == None
  {
  }

  /* ---------- dates ---------- */

  predicate IsDigit(c: char)
  {
    '0' <= c <= '9'
  }

  function DigitValue(c: char): nat
    requires IsDigit(c)
  {
    c as int - '0' as int
  }

  function DigitChar(n: nat): char
    requires n < 10
  {
    ('0' as int + n) as char
  }

  predicate LeapYear(y: nat)
  {
    y % 4 == 0 && (y % 100 != 0 || y % 400 == 0)
  }

  function DaysInMonth(y: nat, m: nat): nat
  {
    if m == 2 then (if LeapYear(y) then 29 else 28)
    else if m == 4 || m == 6 || m == 9 || m == 11 then 30
    else 31
  }

  /** A real calendar date of the proleptic Gregorian calendar, year 1 or later. */
  predicate ValidDate(d: Date)
  {
    1 <= d.year && 1 <= d.month <= 12 && 1 <= d.day <= DaysInMonth(d.year, d.month)
  }

  /** The text has the shape DDDD-DD-DD. */
  predicate DateShape(s: string)
  {
    && |s| == 10
    && s[4] == '-' && s[7] == '-'
    && IsDigit(s[0]) && IsDigit(s[1]) && IsDigit(s[2]) && IsDigit(s[3])
    && IsDigit(s[5]) && IsDigit(s[6]) && IsDigit(s[8]) && IsDigit(s[9])
  }

  /**
   * LocalDate.parse(s, ofPattern("yyyy-MM-dd")) for four-digit years:
   * month 1..12 and day 1..31 are range-checked, year 0 is rejected (year of
   * era starts at 1), and a day past the end of its month is moved back to
   * the month's last day (the SMART resolver style).
   */
  function ParseDate(s: string): (r: Option<Date>)
    ensures r.Some? ==> DateShape(s) && ValidDate(r.value) && r.value.year <= 9999
  {
    if !DateShape(s) then None
    else
      var y := 1000 * DigitValue(s[0]) + 100 * DigitValue(s[1]) + 10 * DigitValue(s[2]) + DigitValue(s[3]);
      var m := 10 * DigitValue(s[5]) + DigitValue(s[6]);
      var d := 10 * DigitValue(s[8]) + DigitValue(s[9]);
      if y < 1 || m < 1 || 12 < m || d < 1 || 31 < d then None
      else if d <= DaysInMonth(y, m) then Some(Date(y, m, d))
      else Some(Date(y, m, DaysInMonth(y, m)))
  }

  /** The yyyy-MM-dd text of a date with a four-digit year. */
  function FormatDate(d: Date): (s: string)
    requires d.year <= 9999 && d.month <= 99 && d.day <= 99
    ensures DateShape(s)
  {
    [ DigitChar(d.year / 10 / 10 / 10), DigitChar(d.year / 10 / 10 % 10),
      DigitChar(d.year / 10 % 10), DigitChar(d.year % 10), '-',
      DigitChar(d.month / 10), DigitChar(d.month % 10), '-',
      DigitChar(d.day / 10), DigitChar(d.day % 10) ]
  }

  /** The four decimal digits of a number below 10000 add back up to it. */
  lemma FourDigits(n: nat)
    requires n <= 9999
    ensures n / 10 / 10 / 10 < 10
    ensures 1000 * (n / 10 / 10 / 10) + 100 * (n / 10 / 10 % 10) + 10 * (n / 10 % 10) + n % 10 == n
  {
    var q1 := n / 10;
    assert n == 10 * q1 + n % 10;
    var q2 := q1 / 10;
    assert q1 == 10 * q2 + q1 % 10;
    assert q2 == 10 * (q2 / 10) + q2 % 10;
  }

  /** Formatting a valid date and parsing the text gives the date back. */
  lemma {:induction false} ParseFormatDate(d: Date)
    requires ValidDate(d) && d.year <= 9999
    ensures ParseDate(FormatDate(d)) == Some(d)
  {
    var s := FormatDate(d);
    FourDigits(d.year);
    assert DigitValue(s[0]) == d.year / 10 / 10 / 10;
    assert DigitValue(s[1]) == d.year / 10 / 10 % 10;
    assert DigitValue(s[2]) == d.year / 10 % 10;
    assert DigitValue(s[3]) == d.year % 10;
    assert DigitValue(s[5]) == d.month / 10;
    assert DigitValue(s[6]) == d.month % 10;
    assert DigitValue(s[8]) == d.day / 10;
    assert DigitValue(s[9]) == d.day % 10;
  }

  /** Text without the dashes of yyyy-MM-dd is rejected. */
  lemma SlashedDateRejected()
    ensures ParseDate("09/10/2025") == None
  {
  }

  lemma {:induction false} IsoDateAccepted()
    ensures ParseDate("2025-10-09") == Some(Date(2025, 10, 9))
  {
    var d := Date(2025, 10, 9);
    ParseFormatDate(d);
    assert FormatDate(d) == "2025-10-09";
  }

  /** A day past the end of its month is moved back to the month's last day. */
  lemma ShortMonthDayClamped()
    ensures ParseDate("2025-02-30") == Some(Date(2025, 2, 28))
    ensures ParseDate("2024-02-30") == Some(Date(2024, 2, 29))
  {
  }

  /** Month 13 and day 32 are out of range. */
  lemma OutOfRangeFieldsRejected()
    ensures ParseDate("2025-13-01") == None
    ensures ParseDate("2025-01-32") == None
    ensures ParseDate("0000-01-01") == None
  {
  }
}
