/** Dates as the text the availability search passes around: the full-date of section 5.6 of RFC 3339. */
module IsoDates {
  import opened Common
  import opened Tables
  import opened Calendar

  function Digit(k: nat): char
    requires k < 10
  {
    '0' + k as char
  }

  function Digits(n: nat): (r: string)
    ensures |r| > 0
    ensures n >= 10 ==> |r| > 1
  {
    if n < 10 then [Digit(n)] else Digits(n / 10) + [Digit(n % 10)]
  }

  /** A number in a template literal. */
  function NumberText(n: int): string {
    if n < 0 then "-" + Digits(-n) else Digits(n)
  }

  /** padStart(2, '0') */
  function Pad2(s: string): string {
    if |s| == 0 then "00" else if |s| == 1 then "0" + s else s
  }

  function ToDateOnly(day: Day): string {
    var d := CivilOf(day);
    NumberText(d.year) + "-" + Pad2(NumberText(d.month)) + "-" + Pad2(NumberText(d.day))
  }

  function Split(s: string): (parts: seq<string>)
    ensures |parts| > 0
  {
    if s == "" then [""]
    else if s[0] == '-' then [""] + Split(s[1..])
    else
      var rest := Split(s[1..]);
      [[s[0]] + rest[0]] + rest[1..]
  }

  /** Number of a piece of digits; the empty text is 0 and anything else is not a number here. */
  function NumberOf(s: string): Option<nat> {
    if s == "" then Some(0)
    else
      var last := s[|s| - 1];
      match NumberOf(s[..|s| - 1])
      case Some(n) => if '0' <= last <= '9' then Some(10 * n + (last - '0') as nat) else None
      case None => None
  }

  /** The Date constructor reads the years 0 to 99 as 1900 to 1999. */
  function FullYear(y: int): int {
    if 0 <= y <= 99 then 1900 + y else y
  }

  function ParseDateOnly(iso: string): Option<Day> {
    AddMonthsTo(iso, 0)
  }

  function AddMonthsTo(iso: string, months: int): Option<Day> {
    var parts := Split(iso);
    if |parts| < 3 then None
    else
      match (NumberOf(parts[0]), NumberOf(parts[1]), NumberOf(parts[2]))
      case (Some(y), Some(m), Some(d)) => Some(MakeDay(FullYear(y), m - 1 + months, d))
      case _ => None
  }

  /** addMonthsISO; None stands for an invalid date. */
  function AddMonthsISO(iso: string, months: int): Option<string> {
    match AddMonthsTo(iso, months)
    case Some(day) => Some(ToDateOnly(day))
    case None => None
  }

  // ---------------------------------------------------------------- reading back what was written

  lemma NumberAppend(s: string, k: nat)
    requires k < 10 && NumberOf(s).Some?
    ensures NumberOf(s + [Digit(k)]) == Some(10 * NumberOf(s).value + k)
  {
    assert (s + [Digit(k)])[..|s|] == s;
  }

  lemma {:induction false} DigitsRead(n: nat)
    ensures NumberOf(Digits(n)) == Some(n)
    ensures forall c :: c in Digits(n) ==> '0' <= c <= '9'
    decreases n
  {
    if n < 10 {
      NumberAppend("", n);
    } else {
      DigitsRead(n / 10);
      hide NumberOf;
      NumberAppend(Digits(n / 10), n % 10);
    }
  }

  lemma ShortDigits(n: nat)
    ensures Pad2(Digits(n)) == if n < 10 then "0" + [Digit(n)] else Digits(n)
  {}

  lemma PaddedRead(n: nat)
    ensures NumberOf(Pad2(Digits(n))) == Some(n)
    ensures '-' !in Pad2(Digits(n))
  {
    DigitsRead(n);
    ShortDigits(n);
    if n < 10 {
      NumberAppend("", 0);
      NumberAppend("0", n);
    }
    hide NumberOf, Digits;
  }

  lemma {:induction false} SplitAt(piece: string, rest: string)
    requires '-' !in piece
    ensures Split(piece + "-" + rest) == [piece] + Split(rest)
    decreases |piece|
  {
    var s := piece + "-" + rest;
    if piece == "" {
      assert s[1..] == rest;
    } else {
      assert s[1..] == piece[1..] + "-" + rest;
      SplitAt(piece[1..], rest);
      assert [piece[0]] + piece[1..] == piece;
    }
  }

  lemma {:induction false} SplitLast(piece: string)
    requires '-' !in piece
    ensures Split(piece) == [piece]
    decreases |piece|
  {
    if piece != "" {
      SplitLast(piece[1..]);
      assert [piece[0]] + piece[1..] == piece;
    }
  }

  lemma SplitThree(a: string, b: string, c: string)
    requires '-' !in a && '-' !in b && '-' !in c
    ensures Split(a + "-" + b + "-" + c) == [a, b, c]
  {
    hide Split;
    var rest := b + "-" + c;
    assert a + "-" + b + "-" + c == a + "-" + rest;
    SplitAt(a, rest);
    SplitAt(b, c);
    SplitLast(c);
  }

  lemma SplitFour(a: string, b: string, c: string, d: string)
    requires '-' !in a && '-' !in b && '-' !in c && '-' !in d
    ensures Split(a + "-" + b + "-" + c + "-" + d) == [a, b, c, d]
  {
    hide Split;
    var rest := b + "-" + c + "-" + d;
    assert a + "-" + b + "-" + c + "-" + d == a + "-" + rest;
    SplitAt(a, rest);
    SplitThree(b, c, d);
  }

  /** A negative year starts with a sign, which the split takes for a separator. */
  function Pieces(d: Date): seq<string>
    requires d.month >= 0 && d.day >= 0
  {
    (if d.year < 0 then ["", Digits(-d.year)] else [Digits(d.year)]) + [Pad2(Digits(d.month)), Pad2(Digits(d.day))]
  }

  lemma TextSplits(day: Day)
    ensures Split(ToDateOnly(day)) == Pieces(CivilOf(day))
  {
    var d := CivilOf(day);
    hide CivilOf, Split, NumberOf, Digits, Pad2;
    var year := Digits(Abs(d.year));
    var month, dayText := Pad2(Digits(d.month)), Pad2(Digits(d.day));
    DigitsRead(Abs(d.year));
    PaddedRead(d.month);
    PaddedRead(d.day);
    if d.year < 0 {
      SplitFour("", year, month, dayText);
      assert "" + "-" + year == "-" + year;
    } else {
      SplitThree(year, month, dayText);
    }
  }

  lemma PiecesRead(d: Date)
    requires d.month >= 0 && d.day >= 0
    ensures var p := Pieces(d);
      if d.year < 0 then
        |p| == 4 && NumberOf(p[0]) == Some(0) && NumberOf(p[1]) == Some(-d.year)
        && NumberOf(p[2]) == Some(d.month) && NumberOf(p[3]) == Some(d.day)
      else
        |p| == 3 && NumberOf(p[0]) == Some(d.year) && NumberOf(p[1]) == Some(d.month) && NumberOf(p[2]) == Some(d.day)
  {
    DigitsRead(Abs(d.year));
    PaddedRead(d.month);
    PaddedRead(d.day);
    assert NumberOf("") == Some(0);
    hide NumberOf, Digits, Pad2;
  }

  /** Different days have different texts, in any year. */
  lemma TextsDiffer(a: Day, b: Day)
    requires ToDateOnly(a) == ToDateOnly(b)
    ensures a == b
  {
    hide CivilOf, ToDateOnly, NumberOf, Split, Pieces;
    TextSplits(a);
    TextSplits(b);
    PiecesRead(CivilOf(a));
    PiecesRead(CivilOf(b));
  }

  /** What the Date constructor makes of the text of a day: right from the year 100 on, 1900 years late
      before that; before the year 0 the sign splits off a piece, and year and month are taken for month and day. */
  lemma TextReadAs(day: Day, n: int)
    ensures var d := CivilOf(day);
      AddMonthsTo(ToDateOnly(day), n)
      == if d.year >= 100 then Some(AddMonths(day, n))
         else if d.year >= 0 then Some(MakeDay(1900 + d.year, d.month - 1 + n, d.day))
         else Some(MakeDay(1900, -d.year - 1 + n, d.month))
  {
    hide CivilOf, ToDateOnly, NumberOf, Split, Pieces, MakeDay;
    TextSplits(day);
    PiecesRead(CivilOf(day));
  }

  lemma LaterMonth(year: int, month: int, day: int, year': int, month': int, day': int)
    requires 12 * year + month + 2 <= 12 * year' + month' && 1 <= day <= 31 && 1 <= day'
    ensures MakeDay(year, month, day) < MakeDay(year', month', day')
  {
    hide MonthStart;
    MonthsApart(12 * year + month, 12 * year' + month' - 12 * year - month);
  }

  lemma DayAtMost31(d: Date)
    requires ValidDate(d)
    ensures 1 <= d.month <= 12 && 1 <= d.day <= 31
  {
    MonthFollows(MonthIndex(d));
  }

  lemma EarlyTextsReadLater(day: Day, n: int)
    requires CivilOf(day).year < 100
    ensures AddMonthsTo(ToDateOnly(day), n).Some? && AddMonthsTo(ToDateOnly(day), n).value > AddMonths(day, n)
  {
    var d := CivilOf(day);
    hide CivilOf, MakeDay, ToDateOnly, AddMonthsTo, ValidDate;
    TextReadAs(day, n);
    DayAtMost31(d);
    if d.year >= 0 {
      LaterMonth(d.year, d.month - 1 + n, d.day, 1900 + d.year, d.month - 1 + n, d.day);
    } else {
      LaterMonth(d.year, d.month - 1 + n, d.day, 1900, -d.year - 1 + n, d.month);
    }
  }

  /** Adding months to the text of a day gives the text of that many months later exactly from the year 100 on. */
  lemma AddMonthsOnText(day: Day, n: int)
    ensures AddMonthsTo(ToDateOnly(day), n) == Some(AddMonths(day, n)) <==> CivilOf(day).year >= 100
    ensures AddMonthsISO(ToDateOnly(day), n) == Some(ToDateOnly(AddMonths(day, n))) <==> CivilOf(day).year >= 100
  {
    hide CivilOf, MakeDay, ToDateOnly, AddMonthsTo, AddMonths;
    TextReadAs(day, n);
    if CivilOf(day).year < 100 {
      EarlyTextsReadLater(day, n);
      var read := AddMonthsTo(ToDateOnly(day), n).value;
      if ToDateOnly(read) == ToDateOnly(AddMonths(day, n)) {
        TextsDiffer(read, AddMonths(day, n));
      }
    }
  }

  /** Text and day are interchangeable exactly from the year 100 on. */
  lemma TextRoundTrip(day: Day)
    ensures ParseDateOnly(ToDateOnly(day)) == Some(day) <==> CivilOf(day).year >= 100
  {
    assert AddMonths(day, 0) == day;
    hide CivilOf, AddMonths, AddMonthsTo, ToDateOnly;
    AddMonthsOnText(day, 0);
  }
}
