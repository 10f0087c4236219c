/** The availability search on texts, as it runs, and the search on days it amounts to. */
module TextSearch {
  import opened Common
  import opened Tables
  import opened Bookings
  import opened Calendar
  import opened IsoDates
  import opened Availability

  datatype TextPeriod = TextPeriod(startDate: string, endDate: string)

  /** a < b on the times of two dates; false when one of them is invalid. */
  predicate Earlier(a: Option<Day>, b: Option<Day>) {
    a.Some? && b.Some? && a.value < b.value
  }

  predicate TextsOverlap(aStart: string, aEnd: string, bStart: string, bEnd: string) {
    && Earlier(ParseDateOnly(aStart), ParseDateOnly(bEnd))
    && Earlier(ParseDateOnly(bStart), ParseDateOnly(aEnd))
  }

  predicate IsTextAvailable(start: string, end: string, periods: seq<TextPeriod>) {
    !exists i :: 0 <= i < |periods| && TextsOverlap(start, end, periods[i].startDate, periods[i].endDate)
  }

  /** A stay of so many months from this day, written and read back, meets no period. */
  predicate TextFits(day: Day, stayMonths: int, periods: seq<TextPeriod>) {
    var end := AddMonthsISO(ToDateOnly(day), stayMonths);
    end.Some? ==> IsTextAvailable(ToDateOnly(day), end.value, periods)
  }

  /** r is the text of the least day of [from, to) whose stay fits, and None when there is none. */
  ghost predicate IsNextText(r: Option<string>, from: Day, to: Day, stayMonths: int, periods: seq<TextPeriod>) {
    match r
    case Some(text) =>
      exists day :: from <= day < to && text == ToDateOnly(day) && TextFits(day, stayMonths, periods)
                    && forall e :: from <= e < day ==> !TextFits(e, stayMonths, periods)
    case None => forall e :: from <= e < to ==> !TextFits(e, stayMonths, periods)
  }

  method FindNextAvailableStart(periods: seq<TextPeriod>, stayMonths: int, today: Day, searchHorizonMonths: int)
    returns (r: Option<string>)
    ensures IsNextText(r, today, AddMonths(today, searchHorizonMonths), stayMonths, periods)
  {
    hide AddMonths, ToDateOnly, AddMonthsISO, IsTextAvailable;
    var searchEnd := AddMonths(today, searchHorizonMonths);
    var cursor := today;
    while cursor < searchEnd
      invariant today <= cursor
      invariant forall e :: today <= e < cursor ==> !TextFits(e, stayMonths, periods)
    {
      var startISO := ToDateOnly(cursor);
      var endISO := AddMonthsISO(startISO, stayMonths);
      if endISO == None || IsTextAvailable(startISO, endISO.value, periods) {
        return Some(startISO);
      }
      cursor := cursor + 1;
    }
    return None;
  }

  // ---------------------------------------------------------------- the search on days

  /** The texts are read as these days. */
  ghost predicate Reads(periods: seq<TextPeriod>, days: seq<Period>) {
    && |periods| == |days|
    && forall i :: 0 <= i < |days| ==>
         && ParseDateOnly(periods[i].startDate) == Some(days[i].startDate)
         && ParseDateOnly(periods[i].endDate) == Some(days[i].endDate)
  }

  function Written(days: seq<Period>): seq<TextPeriod> {
    seq(|days|, i requires 0 <= i < |days| => TextPeriod(ToDateOnly(days[i].startDate), ToDateOnly(days[i].endDate)))
  }

  predicate From100(day: Day) {
    CivilOf(day).year >= 100
  }

  /** Periods written from the year 100 on are read as what they were. */
  lemma WrittenIsRead(days: seq<Period>)
    requires forall q :: q in days ==> From100(q.startDate) && From100(q.endDate)
    ensures Reads(Written(days), days)
  {
    hide CivilOf, ToDateOnly, ParseDateOnly;
    forall i | 0 <= i < |days|
      ensures ParseDateOnly(ToDateOnly(days[i].startDate)) == Some(days[i].startDate)
      ensures ParseDateOnly(ToDateOnly(days[i].endDate)) == Some(days[i].endDate)
    {
      assert days[i] in days;
      TextRoundTrip(days[i].startDate);
      TextRoundTrip(days[i].endDate);
    }
  }

  lemma YearsIncrease(a: Day, b: Day)
    requires a <= b
    ensures CivilOf(a).year <= CivilOf(b).year
  {
    hide CivilOf, MonthStart, MonthLength;
    var d, e := CivilOf(a), CivilOf(b);
    if e.year < d.year {
      StartsIncrease(MonthIndex(e), MonthIndex(d));
    }
  }

  lemma StayFrom100(today: Day, day: Day, n: nat)
    requires From100(today) && today <= day
    ensures From100(day) && From100(AddMonths(day, n))
  {
    hide CivilOf, AddMonths;
    StayEndsAfterStart(day, n);
    YearsIncrease(today, day);
    YearsIncrease(today, AddMonths(day, n));
  }

  lemma TextFitsAreFits(day: Day, n: nat, periods: seq<TextPeriod>, days: seq<Period>)
    requires Reads(periods, days) && From100(day) && From100(AddMonths(day, n))
    ensures TextFits(day, n, periods) <==> Fits(day, n, days)
  {
    hide CivilOf, AddMonths, ToDateOnly, ParseDateOnly, AddMonthsISO;
    AddMonthsOnText(day, n);
    TextRoundTrip(day);
    TextRoundTrip(AddMonths(day, n));
    var start, end := ToDateOnly(day), ToDateOnly(AddMonths(day, n));
    forall i | 0 <= i < |days|
      ensures TextsOverlap(start, end, periods[i].startDate, periods[i].endDate)
         <==> RangesOverlap(day, AddMonths(day, n), days[i].startDate, days[i].endDate)
    {}
  }

  function WrittenDay(r: Option<Day>): Option<string> {
    match r
    case Some(day) => Some(ToDateOnly(day))
    case None => None
  }

  /** From the year 100 on the search on texts answers with the text of what the search on days finds. */
  lemma TextSearchIsDaySearch(r: Option<string>, today: Day, to: Day, n: nat, periods: seq<TextPeriod>,
                              days: seq<Period>)
    returns (found: Option<Day>)
    requires Reads(periods, days) && From100(today) && IsNextText(r, today, to, n, periods)
    ensures IsNextFit(found, today, to, n, days) && r == WrittenDay(found)
  {
    hide From100, TextFits, Fits, Reads, ToDateOnly, AddMonths;
    forall e | today <= e ensures TextFits(e, n, periods) <==> Fits(e, n, days) {
      StayFrom100(today, e, n);
      TextFitsAreFits(e, n, periods, days);
    }
    if r == None {
      found := None;
    } else {
      var day :| today <= day < to && r.value == ToDateOnly(day) && TextFits(day, n, periods)
                 && forall e :: today <= e < day ==> !TextFits(e, n, periods);
      found := Some(day);
    }
  }

  /** So, given the booked periods of a property as texts, the answer is the text of the first start whose stay can be
      booked, when that stay ends inside the window. */
  lemma TextAnswerIsTheFirstBookable(s: State, p: Id, today: Day, n: nat, periods: seq<Period>, r: Option<string>)
    returns (found: Option<Day>)
    requires n >= 1 && From100(today)
    requires forall q :: q in periods ==> From100(q.startDate) && From100(q.endDate)
    requires ListsBooked(periods, s.flex, p, today, AddMonths(today, HORIZON_MONTHS))
    requires IsNextText(r, today, AddMonths(today, HORIZON_MONTHS), n, Written(periods))
    ensures r == WrittenDay(found)
    ensures var to := AddMonths(today, HORIZON_MONTHS);
      && (found.Some? && AddMonths(found.value, n) <= to ==>
            found.value < AddMonths(found.value, n)
            && !Conflict(s.flex, p, found.value, AddMonths(found.value, n), None))
      && forall e :: today <= e < (if found.Some? then found.value else to) ==>
           Conflict(s.flex, p, e, AddMonths(e, n), None)
  {
    hide From100, IsNextText, IsNextFit, ListsBooked, AddMonths, Written, Reads, Conflict, WrittenDay;
    WrittenIsRead(periods);
    found := TextSearchIsDaySearch(r, today, AddMonths(today, HORIZON_MONTHS), n, Written(periods), periods);
    NextAvailableIsTheFirstBookable(s, p, today, n, periods, found);
  }
}
