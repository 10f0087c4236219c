/** The search for the next free start of a flex stay, and what it promises about the conflict check of a creation. */
module Availability {
  import opened Common
  import opened Tables
  import opened Bookings
  import opened Calendar

  datatype Period = Period(startDate: Day, endDate: Day)

  predicate RangesOverlap(aStart: Day, aEnd: Day, bStart: Day, bEnd: Day) {
    aStart < bEnd && aEnd > bStart
  }

  predicate IsRangeAvailable(start: Day, end: Day, periods: seq<Period>) {
    !exists i :: 0 <= i < |periods| && RangesOverlap(start, end, periods[i].startDate, periods[i].endDate)
  }

  /** A stay of so many months from this day meets no period. */
  predicate Fits(day: Day, stayMonths: int, periods: seq<Period>) {
    IsRangeAvailable(day, AddMonths(day, stayMonths), periods)
  }

  /** r is the least day of [from, to) whose stay fits, and None when there is none. */
  ghost predicate IsNextFit(r: Option<Day>, from: Day, to: Day, stayMonths: int, periods: seq<Period>) {
    match r
    case Some(day) =>
      from <= day < to
      && Fits(day, stayMonths, periods) && forall e :: from <= e < day ==> !Fits(e, stayMonths, periods)
    case None => forall e :: from <= e < to ==> !Fits(e, stayMonths, periods)
  }

  method FindNextAvailableStart(periods: seq<Period>, stayMonths: int, today: Day, searchHorizonMonths: int)
    returns (r: Option<Day>)
    ensures IsNextFit(r, today, AddMonths(today, searchHorizonMonths), stayMonths, periods)
  {
    hide AddMonths;
    var searchEnd := AddMonths(today, searchHorizonMonths);
    var cursor := today;
    while cursor < searchEnd
      invariant today <= cursor
      invariant forall e :: today <= e < cursor ==> !Fits(e, stayMonths, periods)
    {
      var end := AddMonths(cursor, stayMonths);
      if IsRangeAvailable(cursor, end, periods) {
        return Some(cursor);
      }
      cursor := cursor + 1;
    }
    return None;
  }

  // ---------------------------------------------------------------- the bookings behind the periods

  /** checkAvailability: is there an active booking of the property that meets [start, end)? */
  function CheckAvailability(s: State, p: Id, start: Day, end: Day): Option<bool> {
    if p !in s.catalog.flexProperties || s.catalog.flexProperties[p].deleted then None
    else Some(!Conflict(s.flex, p, start, end, None))
  }

  predicate Booked(f: FlexBooking, p: Id, from: Day, to: Day) {
    f.propertyFlexId == p && Active(f) && Overlaps(f, from, to)
  }

  function PeriodOf(f: FlexBooking): Period {
    Period(f.startDate, f.endDate)
  }

  /** periods lists the active bookings of the property that meet [from, to), in any order. */
  ghost predicate ListsBooked(periods: seq<Period>, flex: map<Id, FlexBooking>, p: Id, from: Day, to: Day) {
    && (forall g :: g in flex && Booked(flex[g], p, from, to) ==> PeriodOf(flex[g]) in periods)
    && (forall q :: q in periods ==> exists g :: g in flex && Booked(flex[g], p, from, to) && q == PeriodOf(flex[g]))
  }

  method GetBookedPeriods(s: State, p: Id, from: Day, to: Day) returns (periods: Option<seq<Period>>)
    ensures periods.None? <==> p !in s.catalog.flexProperties || s.catalog.flexProperties[p].deleted
    ensures periods.Some? ==> ListsBooked(periods.value, s.flex, p, from, to)
  {
    if p !in s.catalog.flexProperties || s.catalog.flexProperties[p].deleted {
      return None;
    }
    var todo := set g | g in s.flex && Booked(s.flex[g], p, from, to);
    var found: seq<Period> := [];
    while todo != {}
      invariant forall g :: g in todo ==> g in s.flex && Booked(s.flex[g], p, from, to)
      invariant forall g :: g in s.flex && Booked(s.flex[g], p, from, to) ==> g in todo || PeriodOf(s.flex[g]) in found
      invariant forall q :: q in found ==>
        exists g :: g in s.flex && Booked(s.flex[g], p, from, to) && q == PeriodOf(s.flex[g])
      decreases todo
    {
      var g :| g in todo;
      found := found + [PeriodOf(s.flex[g])];
      todo := todo - {g};
    }
    return Some(found);
  }

  function StayMonths(requested: Option<int>, minMonths: Option<int>): int {
    if requested.Some? && requested.value > 0 then requested.value else Or(minMonths, 1)
  }

  const HORIZON_MONTHS := 18

  datatype NextAvailable = NextAvailable(availableFrom: Option<Day>, stayMonths: int)

  /** The answer says nothing of bookings that start after the horizon. */
  method GetNextAvailableFrom(s: State, p: Id, requested: Option<int>, minMonths: Option<int>, today: Day)
    returns (r: Option<NextAvailable>)
    ensures r.None? <==> p !in s.catalog.flexProperties || s.catalog.flexProperties[p].deleted
    ensures r.Some? ==>
      r.value.stayMonths == match requested
                            case Some(months) => if months > 0 then months else Or(minMonths, 1)
                            case None => Or(minMonths, 1)
    ensures r.Some? ==> exists periods ::
      && ListsBooked(periods, s.flex, p, today, AddMonths(today, 18))
      && IsNextFit(r.value.availableFrom, today, AddMonths(today, 18), r.value.stayMonths, periods)
  {
    hide AddMonths, IsNextFit, ListsBooked;
    var months := StayMonths(requested, minMonths);
    var to := AddMonths(today, HORIZON_MONTHS);
    var periods := GetBookedPeriods(s, p, today, to);
    if periods == None {
      return None;
    }
    var availableFrom := FindNextAvailableStart(periods.value, months, today, HORIZON_MONTHS);
    return Some(NextAvailable(availableFrom, months));
  }

  // ---------------------------------------------------------------- what the answer means

  /** An active booking beyond the window that the stay [start, end) runs into. */
  predicate BeyondWindow(f: FlexBooking, p: Id, to: Day, start: Day, end: Day) {
    Booked(f, p, start, end) && f.startDate >= to
  }

  /** The search looks only at bookings that meet the window: a stay it finds is free exactly when no active booking
      that starts after the window meets it. */
  lemma FreeUnlessBeyondWindow(flex: map<Id, FlexBooking>, p: Id, from: Day, to: Day,
                              periods: seq<Period>, day: Day, n: int)
    requires ListsBooked(periods, flex, p, from, to) && from <= day && Fits(day, n, periods)
    ensures !Conflict(flex, p, day, AddMonths(day, n), None)
       <==> !exists g :: g in flex && BeyondWindow(flex[g], p, to, day, AddMonths(day, n))
  {
    hide AddMonths;
    var end := AddMonths(day, n);
    forall g | g in flex && Booked(flex[g], p, from, to) ensures !Overlaps(flex[g], day, end) {
      var i :| 0 <= i < |periods| && periods[i] == PeriodOf(flex[g]);
      assert !RangesOverlap(day, end, periods[i].startDate, periods[i].endDate);
    }
    if Conflict(flex, p, day, end, None) {
      var g :| g in flex && flex[g].propertyFlexId == p && Active(flex[g]) && Overlaps(flex[g], day, end);
      assert BeyondWindow(flex[g], p, to, day, end);
    }
  }

  /** A day the search rejects is taken: creating that stay would meet a conflict. */
  lemma RejectedIsTaken(flex: map<Id, FlexBooking>, p: Id, from: Day, to: Day, periods: seq<Period>, day: Day, n: int)
    requires ListsBooked(periods, flex, p, from, to) && !Fits(day, n, periods)
    ensures Conflict(flex, p, day, AddMonths(day, n), None)
  {
    hide AddMonths;
    var end := AddMonths(day, n);
    var i :| 0 <= i < |periods| && RangesOverlap(day, end, periods[i].startDate, periods[i].endDate);
    assert periods[i] in periods;
    var g :| g in flex && Booked(flex[g], p, from, to) && periods[i] == PeriodOf(flex[g]);
    assert Overlaps(flex[g], day, end);
  }

  /** When the stay found ends inside the window, creating it passes the conflict check, and no earlier start from
      today would; when none is found, no start in the window would. */
  lemma NextAvailableIsTheFirstBookable(s: State, p: Id, today: Day, n: nat, periods: seq<Period>, r: Option<Day>)
    requires n >= 1
    requires ListsBooked(periods, s.flex, p, today, AddMonths(today, HORIZON_MONTHS))
    requires IsNextFit(r, today, AddMonths(today, HORIZON_MONTHS), n, periods)
    ensures var to := AddMonths(today, HORIZON_MONTHS);
      && (r.Some? && AddMonths(r.value, n) <= to ==>
            r.value < AddMonths(r.value, n) && !Conflict(s.flex, p, r.value, AddMonths(r.value, n), None))
      && forall e :: today <= e < (if r.Some? then r.value else to) ==> Conflict(s.flex, p, e, AddMonths(e, n), None)
  {
    var to := AddMonths(today, HORIZON_MONTHS);
    if r.Some? {
      StayEndsAfterStart(r.value, n);
      hide AddMonths;
      FreeUnlessBeyondWindow(s.flex, p, today, to, periods, r.value, n);
      forall g | g in s.flex
        ensures AddMonths(r.value, n) <= to ==> !BeyondWindow(s.flex[g], p, to, r.value, AddMonths(r.value, n))
      {}
    }
    hide AddMonths;
    forall e | today <= e < (if r.Some? then r.value else to) ensures Conflict(s.flex, p, e, AddMonths(e, n), None) {
      RejectedIsTaken(s.flex, p, today, to, periods, e, n);
    }
  }

  /** The check and the search agree: the start found is reported free when its stay ends inside the window, and every
      earlier one is reported taken. */
  lemma SearchAgreesWithCheck(s: State, p: Id, today: Day, n: nat, periods: seq<Period>, r: Option<Day>)
    requires n >= 1 && p in s.catalog.flexProperties && !s.catalog.flexProperties[p].deleted
    requires ListsBooked(periods, s.flex, p, today, AddMonths(today, HORIZON_MONTHS))
    requires IsNextFit(r, today, AddMonths(today, HORIZON_MONTHS), n, periods)
    ensures var to := AddMonths(today, HORIZON_MONTHS);
      && (r.Some? && AddMonths(r.value, n) <= to ==>
            CheckAvailability(s, p, r.value, AddMonths(r.value, n)) == Some(true))
      && forall e :: today <= e < (if r.Some? then r.value else to) ==>
           CheckAvailability(s, p, e, AddMonths(e, n)) == Some(false)
  {
    NextAvailableIsTheFirstBookable(s, p, today, n, periods, r);
    hide AddMonths, IsNextFit, ListsBooked, Conflict;
  }

  /** What the check answers for a stay is what creating it would meet, given a quote that matches to one unit, a known
      ambassador and fresh identifiers. */
  lemma CheckForetellsCreation(s: State, id: Id, bookingId: Id, dto: NewFlex, q: FlexQuote)
    requires dto.startDate < dto.endDate && KnownProfile(s, dto.profileId) && id !in s.flex && bookingId !in s.bookings
    requires Abs(dto.monthlyAmount - q.monthlyRent) <= ONE_UNIT && Abs(dto.totalAmount - q.totalAmount) <= ONE_UNIT
    ensures CreateFlex(s, id, bookingId, dto, Some(q)).outcome
         == match CheckAvailability(s, dto.propertyFlexId, dto.startDate, dto.endDate)
            case None => NotFound
            case Some(free) => if free then Done else BadRequest
  {}

  /** So a creation with those dates succeeds, given a quote that matches and fresh identifiers. */
  lemma NextAvailableCanBeCreated(s: State, p: Id, today: Day, n: nat, periods: seq<Period>, day: Day,
                                  id: Id, bookingId: Id, dto: NewFlex, q: FlexQuote)
    requires n >= 1
    requires ListsBooked(periods, s.flex, p, today, AddMonths(today, HORIZON_MONTHS))
    requires IsNextFit(Some(day), today, AddMonths(today, HORIZON_MONTHS), n, periods)
    requires AddMonths(day, n) <= AddMonths(today, HORIZON_MONTHS)
    requires dto == NewFlex(p, dto.profileId, day, AddMonths(day, n), n, q.monthlyRent, q.totalAmount)
    requires p in s.catalog.flexProperties && !s.catalog.flexProperties[p].deleted && KnownProfile(s, dto.profileId)
    requires id !in s.flex && bookingId !in s.bookings
    ensures CreateFlex(s, id, bookingId, dto, Some(q)).outcome == Done
  {
    SearchAgreesWithCheck(s, p, today, n, periods, Some(day));
    StayEndsAfterStart(day, n);
    hide AddMonths, IsNextFit, ListsBooked;
    CheckForetellsCreation(s, id, bookingId, dto, q);
  }
}
