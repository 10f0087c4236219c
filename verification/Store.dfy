/** The services as they run: one object holding the tables, changed row by row. */
module Stores {
  import opened Common
  import opened Tables
  import opened Rates
  import opened Bookings
  import opened Settlements
  import opened Payments
  import opened Notices
  import opened Reconciliation
  import opened LoopFacts
  import opened RegistryRows
  import opened SettlementRows

  class Store {
    var catalog: Catalog
    var flex: map<Id, FlexBooking>
    var bookings: map<Id, Booking>
    var registryOf: map<Id, Id>
    var history: map<Id, seq<HistoryEntry>>
    var commissions: map<Id, Commission>
    var settlements: map<Id, Settlement>
    var payments: map<Id, Payment>
    var sessions: map<Id, AmbassadorSession>

    ghost function View(): State
      reads this
    {
      State(catalog, flex, bookings, registryOf, history, commissions, settlements, payments, sessions)
    }

    constructor (c: Catalog)
      ensures View() == State(c, map[], map[], map[], map[], map[], map[], map[], map[])
    {
      catalog := c;
      flex, bookings, registryOf, history := map[], map[], map[], map[];
      commissions, settlements, payments, sessions := map[], map[], map[], map[];
    }

    // -------------------------------------------------------------- commission rates

    /** recalculateBookingCommission and recalculateTemporalBookingCommission: one booking. */
    method RecalculateBooking(id: Id)
      requires id in bookings && id in commissions
      modifies `commissions
      ensures commissions == old(commissions)[id := Refreshed(catalog, flex, bookings[id], old(commissions)[id])]
    {
      var b := bookings[id];
      var rate, base;
      if b.propertyFlexId.Some? {
        if b.flexBookingId == None || b.flexBookingId.value !in flex {
          return;
        }
        rate := ResolveFlexRate(catalog, b.propertyFlexId.value, b.profileId).rate;
        base := flex[b.flexBookingId.value].monthlyAmount;
      } else {
        if b.propertyId == None || b.source == Flex {
          return;
        }
        rate := ResolveTemporalRate(catalog, b.propertyId.value, b.profileId).rate;
        base := b.totalAmount;
      }
      if commissions[id].status.Pending? {
        commissions := commissions[id := commissions[id].(rate := rate, baseAmount := base,
                                                          amount := CommissionAmount(base, rate))];
      }
    }

    /** The recalculation loops: the bookings in scope with a PENDING commission, one after the other. */
    method RecalculateScope(scope: Scope)
      modifies `commissions
      ensures View() == Recalculate(old(View()), scope)
    {
      hide PartlyRecalculated, Refreshed, InScope;
      ghost var s := View();
      var todo := set id | id in bookings && InScope(scope, bookings[id])
                           && id in commissions && commissions[id].status.Pending?;
      ghost var rows, done := todo, {};
      NoneRecalculated(s, scope);
      while todo != {}
        invariant done + todo == rows && done !! todo
        invariant commissions == PartlyRecalculated(s, scope, done)
        decreases todo
      {
        var id :| id in todo;
        assert id in rows;
        OneMore(s, scope, done, id);
        RecalculateBooking(id);
        done, todo := done + {id}, todo - {id};
      }
      AllRecalculated(s, scope, rows);
    }

    method SetFlexPropertyRate(p: Id, rate: Option<Rate>) returns (outcome: Outcome)
      modifies this
      ensures Reply(View(), outcome) == Rates.SetFlexPropertyRate(old(View()), p, rate)
    {
      if p !in catalog.flexProperties || catalog.flexProperties[p].deleted {
        return NotFound;
      }
      if rate.Some? {
        var property := catalog.flexProperties[p].(commissionRate := rate);
        catalog := catalog.(flexProperties := catalog.flexProperties[p := property]);
        RecalculateScope(OfFlexProperty(p));
      }
      return Done;
    }

    method DeleteFlexProperty(p: Id) returns (outcome: Outcome)
      modifies `catalog
      ensures Reply(View(), outcome) == Rates.DeleteFlexProperty(old(View()), p)
    {
      if p !in catalog.flexProperties || catalog.flexProperties[p].deleted {
        return NotFound;
      }
      catalog := catalog.(flexProperties :=
        catalog.flexProperties[p := catalog.flexProperties[p].(deleted := true)]);
      return Done;
    }

    method UpsertFlexOverride(p: Id, a: Id, rate: Rate) returns (outcome: Outcome)
      modifies this
      ensures Reply(View(), outcome) == Rates.UpsertFlexOverride(old(View()), p, a, rate)
    {
      if p !in catalog.flexProperties || catalog.flexProperties[p].deleted {
        return NotFound;
      }
      if a !in catalog.profiles {
        return NotFound;
      }
      catalog := catalog.(flexOverrides := catalog.flexOverrides[(a, p) := rate]);
      RecalculateScope(OfFlexOverride(p, a));
      return Done;
    }

    method DeleteFlexOverride(p: Id, a: Id) returns (outcome: Outcome)
      modifies this
      ensures Reply(View(), outcome) == Rates.DeleteFlexOverride(old(View()), p, a)
    {
      if (a, p) !in catalog.flexOverrides {
        return NotFound;
      }
      catalog := catalog.(flexOverrides := catalog.flexOverrides - {(a, p)});
      RecalculateScope(OfFlexOverride(p, a));
      return Done;
    }

    method SetPropertyRate(p: Id, rate: Option<Rate>) returns (outcome: Outcome)
      modifies this
      ensures Reply(View(), outcome) == Rates.SetPropertyRate(old(View()), p, rate)
    {
      if p !in catalog.properties || catalog.properties[p].deleted {
        return NotFound;
      }
      if rate.Some? {
        var property := catalog.properties[p].(commissionRate := rate);
        catalog := catalog.(properties := catalog.properties[p := property]);
        RecalculateScope(OfProperty(p));
      }
      return Done;
    }

    method DeleteProperty(p: Id) returns (outcome: Outcome)
      modifies `catalog
      ensures Reply(View(), outcome) == Rates.DeleteProperty(old(View()), p)
    {
      if p !in catalog.properties || catalog.properties[p].deleted {
        return NotFound;
      }
      catalog := catalog.(properties := catalog.properties[p := catalog.properties[p].(deleted := true)]);
      return Done;
    }

    method UpsertPropertyOverride(p: Id, a: Id, rate: Rate) returns (outcome: Outcome)
      modifies this
      ensures Reply(View(), outcome) == Rates.UpsertPropertyOverride(old(View()), p, a, rate)
    {
      if p !in catalog.properties || catalog.properties[p].deleted {
        return NotFound;
      }
      if a !in catalog.profiles {
        return NotFound;
      }
      catalog := catalog.(propertyOverrides := catalog.propertyOverrides[(a, p) := rate]);
      RecalculateScope(OfPropertyOverride(p, a));
      return Done;
    }

    method DeletePropertyOverride(p: Id, a: Id) returns (outcome: Outcome)
      modifies this
      ensures Reply(View(), outcome) == Rates.DeletePropertyOverride(old(View()), p, a)
    {
      if (a, p) !in catalog.propertyOverrides {
        return NotFound;
      }
      catalog := catalog.(propertyOverrides := catalog.propertyOverrides - {(a, p)});
      RecalculateScope(OfPropertyOverride(p, a));
      return Done;
    }

    method SetDefaultRate(a: Id, rate: Option<Rate>) returns (outcome: Outcome)
      modifies this
      ensures Reply(View(), outcome) == Rates.SetDefaultRate(old(View()), a, rate)
    {
      if a !in catalog.profiles {
        return NotFound;
      }
      if rate.Some? {
        catalog := catalog.(profiles := catalog.profiles[a := rate.value]);
        RecalculateScope(OfAmbassador(a));
      }
      return Done;
    }

    method RecalculateAll()
      modifies this
      ensures View() == Recalculate(old(View()), EveryBooking)
    {
      RecalculateScope(EveryBooking);
    }

    // -------------------------------------------------------------- row operations inside a transaction

    method ChangeStatus(id: Id, to: BookingStatus, cause: Cause)
      requires id in bookings
      modifies `bookings, `history
      ensures bookings == WithStatus(old(bookings), id, to)
      ensures history == Logged(old(bookings), old(history), id, to, cause)
    {
      var entry := HistoryEntry(Some(bookings[id].status), to, cause);
      bookings := bookings[id := bookings[id].(status := to)];
      history := history[id := (if id in history then history[id] else []) + [entry]];
    }

    method Insert(id: Id, b: Booking)
      modifies `bookings, `history
      ensures bookings == old(bookings)[id := b]
      ensures history == FirstEntry(old(history), id, b)
    {
      bookings := bookings[id := b];
      history := history[id := [HistoryEntry(None, b.status, Service)]];
    }

    method ApproveIfPending(id: Id)
      modifies `commissions
      ensures commissions == ApprovePending(old(commissions), id)
    {
      if id in commissions && commissions[id].status.Pending? && commissions[id].settlementId == None {
        commissions := commissions[id := commissions[id].(status := CommissionStatus.Approved)];
      }
    }

    // -------------------------------------------------------------- flex bookings

    method CreateFlex(id: Id, bookingId: Id, dto: NewFlex, quote: Option<FlexQuote>) returns (outcome: Outcome)
      modifies this
      ensures Reply(View(), outcome) == Bookings.CreateFlex(old(View()), id, bookingId, dto, quote)
    {
      if dto.propertyFlexId !in catalog.flexProperties || catalog.flexProperties[dto.propertyFlexId].deleted {
        return NotFound;
      }
      if dto.startDate >= dto.endDate || Conflict(flex, dto.propertyFlexId, dto.startDate, dto.endDate, None)
         || quote == None {
        return BadRequest;
      }
      var q := quote.value;
      if Abs(dto.monthlyAmount - q.monthlyRent) > ONE_UNIT || Abs(dto.totalAmount - q.totalAmount) > ONE_UNIT {
        return BadRequest;
      }
      if dto.profileId.Some? && dto.profileId.value !in catalog.profiles {
        return ForeignKeyViolation;
      }
      if id in flex || bookingId in bookings {
        return UniqueViolation;
      }
      var due := if q.reservationPayment > 0 then Some(q.reservationPayment) else None;
      flex := flex[id := FlexBooking(dto.propertyFlexId, dto.profileId, dto.startDate, dto.endDate, dto.totalMonths,
                                     q.monthlyRent, q.totalAmount, due, FlexStatus.Pending, false)];
      Insert(bookingId, Booking(Flex, None, Some(dto.propertyFlexId), Some(id), None, dto.profileId,
                                dto.startDate, dto.endDate, Nights(dto.startDate, dto.endDate),
                                q.totalAmount, q.totalAmount, BookingStatus.Pending, false));
      registryOf := registryOf[id := bookingId];
      var rate := ResolveFlexRate(catalog, dto.propertyFlexId, dto.profileId).rate;
      commissions := commissions[bookingId := Commission(dto.profileId, None, rate, q.monthlyRent,
                                                         CommissionAmount(q.monthlyRent, rate),
                                                         CommissionStatus.Pending)];
      return Done;
    }

    method ConfirmFromPayment(id: Id, mpPaymentId: Id) returns (outcome: Outcome)
      modifies this
      ensures Reply(View(), outcome) == Bookings.ConfirmFromPayment(old(View()), id, mpPaymentId)
    {
      if id !in flex || flex[id].deleted {
        return NotFound;
      }
      if flex[id].status.Confirmed? {
        return Done;
      }
      if flex[id].status.Cancelled? {
        return BadRequest;
      }
      flex := flex[id := flex[id].(status := FlexStatus.Confirmed)];
      if id in registryOf && registryOf[id] in bookings && !bookings[registryOf[id]].status.Confirmed? {
        ChangeStatus(registryOf[id], BookingStatus.Confirmed, PaymentApproved(mpPaymentId));
        ApproveIfPending(registryOf[id]);
      }
      return Done;
    }

    /** flexData, field by field. */
    static method FillFlexData(f: FlexBooking, dto: FlexChange) returns (data: FlexBooking)
      ensures data == ChangedFlex(f, dto)
      ensures data.startDate == SentOr(dto.startDate, f.startDate) && data.endDate == SentOr(dto.endDate, f.endDate)
      ensures data.totalMonths == SentOr(dto.totalMonths, f.totalMonths)
      ensures data.monthlyAmount == SentOr(dto.monthlyAmount, f.monthlyAmount)
      ensures data.totalAmount == match dto.totalAmount
                                  case Some(total) => total
                                  case None =>
                                    if dto.monthlyAmount.Some? || dto.totalMonths.Some?
                                    then data.monthlyAmount * data.totalMonths else f.totalAmount
    {
      data := f;
      var monthlyAmount := if dto.monthlyAmount.Some? then dto.monthlyAmount.value else f.monthlyAmount;
      var totalMonths := if dto.totalMonths.Some? then dto.totalMonths.value else f.totalMonths;
      var totalAmount := if dto.totalAmount.Some? then dto.totalAmount.value else monthlyAmount * totalMonths;
      if dto.status.Some? && dto.status.value != FlexStatus.Cancelled { data := data.(status := dto.status.value); }
      if dto.startDate.Some? { data := data.(startDate := dto.startDate.value); }
      if dto.endDate.Some? { data := data.(endDate := dto.endDate.value); }
      if dto.totalMonths.Some? { data := data.(totalMonths := totalMonths); }
      if dto.monthlyAmount.Some? { data := data.(monthlyAmount := monthlyAmount); }
      if dto.totalAmount.Some? || dto.monthlyAmount.Some? || dto.totalMonths.Some? {
        data := data.(totalAmount := totalAmount);
      }
    }

    /** registryData, field by field; f is the flex row after the update. */
    static method FillRegistryData(b: Booking, f: FlexBooking, dto: FlexChange) returns (data: Booking)
      requires dto.startDate.Some? ==> f.startDate == dto.startDate.value
      requires dto.endDate.Some? ==> f.endDate == dto.endDate.value
      ensures data == ChangedRegistry(b, f, dto)
    {
      data := b;
      if dto.startDate.Some? { data := data.(checkIn := f.startDate); }
      if dto.endDate.Some? { data := data.(checkOut := f.endDate); }
      if dto.startDate.Some? || dto.endDate.Some? {
        data := data.(totalNights := Nights(f.startDate, f.endDate));
      }
      if dto.totalAmount.Some? || dto.monthlyAmount.Some? || dto.totalMonths.Some? {
        data := data.(baseAmount := f.totalAmount, totalAmount := f.totalAmount);
      }
    }

    method RepriceIfPending(r: Id, rate: Rate, base: Cents)
      modifies `commissions
      ensures commissions == RepricePending(old(commissions), r, Terms(rate, base))
    {
      if r in commissions && commissions[r].status.Pending? {
        commissions := commissions[r := commissions[r].(rate := rate, baseAmount := base,
                                                        amount := CommissionAmount(base, rate))];
      }
    }

    /** The registry row takes the status its flex booking was given, and logs it. */
    method FollowFlexStatus(r: Id, dto: FlexChange)
      requires r in bookings
      modifies `bookings, `history, `commissions
      ensures var from, to := old(bookings)[r].status, Followed(old(bookings)[r], dto);
        if from == to then bookings == old(bookings) && history == old(history) && commissions == old(commissions)
        else
          && bookings == WithStatus(old(bookings), r, to)
          && history == Logged(old(bookings), old(history), r, to, Service)
          && commissions == if to.Confirmed? then ApprovePending(old(commissions), r) else old(commissions)
    {
      if dto.status.Some? && dto.status.value != FlexStatus.Cancelled {
        var toStatus := ToBookingStatus(dto.status.value);
        if bookings[r].status != toStatus {
          ChangeStatus(r, toStatus, Service);
          if dto.status.value.Confirmed? {
            ApproveIfPending(r);
          }
        }
      }
    }

    /** The update transaction. */
    method UpdateFlexRows(id: Id, dto: FlexChange, r: Id)
      requires id in flex && r in bookings
      modifies this
      ensures View() == UpdateRows(old(View()), id, dto, r)
    {
      hide ResolveFlexRate, CommissionAmount;
      var f := FillFlexData(flex[id], dto);
      flex := flex[id := f];
      var b := FillRegistryData(bookings[r], f, dto);
      bookings := bookings[r := b];
      if dto.totalAmount.Some? || dto.monthlyAmount.Some? || dto.totalMonths.Some? {
        var rate := ResolveFlexRate(catalog, f.propertyFlexId, b.profileId).rate;
        RepriceIfPending(r, rate, f.monthlyAmount);
      }
      FollowFlexStatus(r, dto);
    }

    method UpdateFlex(id: Id, dto: FlexChange) returns (outcome: Outcome)
      modifies this
      ensures Reply(View(), outcome) == Bookings.UpdateFlex(old(View()), id, dto)
    {
      if id !in flex || flex[id].deleted {
        return NotFound;
      }
      var f := ChangedFlex(flex[id], dto);
      if f.startDate >= f.endDate {
        return BadRequest;
      }
      if Redated(dto) && Conflict(flex, f.propertyFlexId, f.startDate, f.endDate, Some(id)) {
        return BadRequest;
      }
      if id !in registryOf || registryOf[id] !in bookings {
        flex := flex[id := f];
        return Done;
      }
      var r := registryOf[id];
      var cancelled := bookings[r].status.Cancelled?;
      UpdateFlexRows(id, dto, r);
      if IsCancellation(dto) && !cancelled {
        outcome := CancelBooking(r);
        return;
      }
      return Done;
    }

    method DeleteFlex(id: Id) returns (outcome: Outcome)
      modifies this
      ensures Reply(View(), outcome) == Bookings.DeleteFlex(old(View()), id)
    {
      if id !in flex || flex[id].deleted {
        return NotFound;
      }
      if id in registryOf && registryOf[id] in bookings && !bookings[registryOf[id]].status.Cancelled? {
        outcome := CancelBooking(registryOf[id]);
        if outcome != Done {
          return;
        }
      }
      flex := flex[id := flex[id].(deleted := true)];
      if id in registryOf && registryOf[id] in bookings {
        var r := registryOf[id];
        bookings := bookings[r := bookings[r].(deleted := true)];
      }
      return Done;
    }

    // -------------------------------------------------------------- the registry

    method CreateBooking(id: Id, dto: NewBooking) returns (outcome: Outcome)
      modifies this
      ensures Reply(View(), outcome) == Bookings.CreateBooking(old(View()), id, dto)
    {
      var totalNights := dto.checkOut - dto.checkIn;
      if totalNights <= 0 {
        return BadRequest;
      }
      if dto.profileId.Some? && dto.profileId.value !in catalog.profiles {
        return ForeignKeyViolation;
      }
      if id in bookings {
        return UniqueViolation;
      }
      Insert(id, Booking(Direct, None, None, None, None, dto.profileId, dto.checkIn, dto.checkOut, totalNights,
                         dto.baseAmount, dto.totalAmount, BookingStatus.Pending, false));
      return Done;
    }

    method ConfirmBooking(id: Id) returns (outcome: Outcome)
      modifies this
      ensures Reply(View(), outcome) == Bookings.ConfirmBooking(old(View()), id)
    {
      if id !in bookings || bookings[id].deleted {
        return NotFound;
      }
      var b := bookings[id];
      if b.status != BookingStatus.Pending {
        return BadRequest;
      }
      ChangeStatus(id, BookingStatus.Confirmed, Service);
      if id !in commissions {
        if b.profileId.Some? && b.propertyId.Some? {
          var rate := ResolveTemporalRate(catalog, b.propertyId.value, b.profileId).rate;
          commissions := commissions[id := Commission(b.profileId, None, rate, b.totalAmount,
                                                      CommissionAmount(b.totalAmount, rate), CommissionStatus.Pending)];
          ApproveIfPending(id);
        }
      } else if commissions[id].status.Pending? {
        ApproveIfPending(id);
      }
      return Done;
    }

    method CancelBooking(id: Id) returns (outcome: Outcome)
      modifies this
      ensures Reply(View(), outcome) == Bookings.CancelBooking(old(View()), id)
    {
      if id !in bookings || bookings[id].deleted {
        return NotFound;
      }
      var b := bookings[id];
      if b.status.Cancelled? || b.status.Completed? {
        return BadRequest;
      }
      if b.flexBookingId.Some? && b.flexBookingId.value in flex {
        var f := b.flexBookingId.value;
        flex := flex[f := flex[f].(status := FlexStatus.Cancelled)];
      }
      ChangeStatus(id, BookingStatus.Cancelled, Service);
      if id in commissions {
        commissions := commissions[id := commissions[id].(status := CommissionStatus.Cancelled)];
      }
      return Done;
    }

    method CompleteBooking(id: Id) returns (outcome: Outcome)
      modifies this
      ensures Reply(View(), outcome) == Bookings.CompleteBooking(old(View()), id)
    {
      if id !in bookings || bookings[id].deleted {
        return NotFound;
      }
      if bookings[id].status != BookingStatus.Confirmed {
        return BadRequest;
      }
      ChangeStatus(id, BookingStatus.Completed, Service);
      return Done;
    }

    method UpdateBooking(id: Id, checkIn: Option<Day>, checkOut: Option<Day>) returns (outcome: Outcome)
      modifies this
      ensures Reply(View(), outcome) == Bookings.UpdateBooking(old(View()), id, checkIn, checkOut)
    {
      if id !in bookings || bookings[id].deleted {
        return NotFound;
      }
      var b := bookings[id];
      if b.source == Flex || b.flexBookingId.Some? || b.status.Cancelled? {
        return BadRequest;
      }
      if checkIn.Some? { b := b.(checkIn := checkIn.value); }
      if checkOut.Some? { b := b.(checkOut := checkOut.value); }
      if b.checkIn >= b.checkOut {
        return BadRequest;
      }
      if checkIn.Some? || checkOut.Some? {
        b := b.(totalNights := Nights(b.checkIn, b.checkOut));
      }
      bookings := bookings[id := b];
      return Done;
    }

    // -------------------------------------------------------------- Cloudbeds

    method ConfirmFromCloudbeds(id: Id, dto: CloudbedsStay) returns (outcome: Outcome)
      modifies this
      ensures Reply(View(), outcome) == Bookings.ConfirmFromCloudbeds(old(View()), id, dto)
    {
      if dto.propertyId == None {
        return BadRequest;
      }
      if dto.reservationId.Some?
         && exists b :: b in bookings && bookings[b].cloudbedsReservationId == dto.reservationId {
        return Done;
      }
      if dto.dates == None {
        return BadRequest;
      }
      if dto.profileId.Some? && dto.profileId.value !in catalog.profiles {
        return ForeignKeyViolation;
      }
      if id in bookings {
        return UniqueViolation;
      }
      var (checkIn, checkOut) := dto.dates.value;
      Insert(id, Booking(Cloudbeds, dto.propertyId, None, None, dto.reservationId, dto.profileId, checkIn, checkOut,
                         Nights(checkIn, checkOut), dto.totalAmount, dto.totalAmount, BookingStatus.Confirmed, false));
      if dto.profileId.Some? {
        var rate := ResolveTemporalRate(catalog, dto.propertyId.value, dto.profileId).rate;
        commissions := commissions[id := Commission(dto.profileId, None, rate, dto.totalAmount,
                                                    CommissionAmount(dto.totalAmount, rate), CommissionStatus.Pending)];
      }
      return Done;
    }

    method StartSession(sessionId: Id, profileId: Id) returns (outcome: Outcome)
      modifies `sessions
      ensures Reply(View(), outcome) == Bookings.StartSession(old(View()), sessionId, profileId)
    {
      if sessionId in sessions {
        sessions := sessions[sessionId := sessions[sessionId].(confirmed := false)];
        return Done;
      }
      if profileId !in catalog.profiles {
        return ForeignKeyViolation;
      }
      sessions := sessions[sessionId := AmbassadorSession(profileId, false, None)];
      return Done;
    }

    method AmbassadorReservation(id: Id, sessionId: Id, dto: TrackedStay) returns (outcome: Outcome)
      modifies this
      ensures Reply(View(), outcome) == Bookings.AmbassadorReservation(old(View()), id, sessionId, dto)
    {
      if sessionId !in sessions {
        return Done;
      }
      var session := sessions[sessionId];
      if dto.reservationId.Some? {
        if exists b :: b in bookings && bookings[b].cloudbedsReservationId == dto.reservationId {
          return Done;
        }
      } else if session.confirmed && session.bookingId.Some? {
        return Done;
      }
      var profileId := session.profileId;
      if profileId !in catalog.profiles {
        return ForeignKeyViolation;
      }
      if id in bookings {
        return UniqueViolation;
      }
      Insert(id, Booking(Cloudbeds, dto.propertyId, None, None, dto.reservationId, Some(profileId),
                         dto.checkIn, dto.checkOut, Nights(dto.checkIn, dto.checkOut),
                         dto.totalAmount, dto.totalAmount, BookingStatus.Pending, false));
      var rate;
      if dto.propertyId.Some? {
        rate := ResolveTemporalRate(catalog, dto.propertyId.value, Some(profileId)).rate;
      } else {
        rate := catalog.profiles[profileId];
      }
      commissions := commissions[id := Commission(Some(profileId), None, rate, dto.totalAmount,
                                                  CommissionAmount(dto.totalAmount, rate),
                                                  CommissionStatus.PendingValidation)];
      sessions := sessions[sessionId := session.(confirmed := true, bookingId := Some(id))];
      return Done;
    }

    // -------------------------------------------------------------- settlements

    method ApproveCommission(id: Id) returns (outcome: Outcome)
      modifies `commissions
      ensures Reply(View(), outcome) == Settlements.ApproveCommission(old(View()), id)
    {
      if id !in commissions {
        return NotFound;
      }
      var c := commissions[id];
      if c.status == CommissionStatus.Paid || c.status == CommissionStatus.Cancelled || c.settlementId.Some? {
        return BadRequest;
      }
      if c.status == CommissionStatus.Approved {
        assert commissions[id := c.(status := CommissionStatus.Approved)] == commissions;
        return Done;
      }
      commissions := commissions[id := c.(status := CommissionStatus.Approved)];
      return Done;
    }

    /** The eligible rows grouped under their ambassadors, with running totals. */
    method GroupByAmbassador(eligible: set<Id>) returns (byAmbassador: map<Id, PreviewGroup>)
      requires forall id :: id in eligible ==> id in commissions && commissions[id].profileId.Some?
      ensures byAmbassador == Groups(View(), eligible)
    {
      var todo := eligible;
      ghost var done: set<Id> := {};
      byAmbassador := map[];
      NothingGrouped(View());
      hide Groups;
      while todo != {}
        invariant done + todo == eligible && done !! todo
        invariant byAmbassador == Groups(View(), done)
        decreases todo
      {
        var id :| id in todo;
        assert id in eligible;
        GroupOneMore(View(), done, id);
        var p := commissions[id].profileId.value;
        var group := if p in byAmbassador then byAmbassador[p] else PreviewGroup({}, 0);
        byAmbassador := byAmbassador[p := PreviewGroup(group.rows + {id}, group.totalAmount + commissions[id].amount)];
        done, todo := done + {id}, todo - {id};
      }
      assert done == eligible;
    }

    method GetSettlementPreview() returns (byAmbassador: map<Id, PreviewGroup>, grandTotal: Cents)
      ensures byAmbassador == Preview(View())
      ensures grandTotal == GrandTotal(Preview(View()))
      ensures forall p, id :: p in byAmbassador && id in byAmbassador[p].rows <==>
        Due(View(), {}, id) && commissions[id].profileId == Some(p)
    {
      var eligible := set id | id in commissions && id in bookings
        && commissions[id].status.Approved? && commissions[id].settlementId == None && commissions[id].profileId.Some?
        && !bookings[id].deleted && (bookings[id].status.Confirmed? || bookings[id].status.Completed?);
      assert eligible == Eligible(View(), {});
      byAmbassador := GroupByAmbassador(eligible);
      grandTotal := Reduce(byAmbassador);
      forall p, id ensures p in byAmbassador && id in byAmbassador[p].rows <==>
        Due(View(), {}, id) && commissions[id].profileId == Some(p)
      {
        PreviewLists(View(), p, id);
      }
    }

    static method Reduce(groups: map<Id, PreviewGroup>) returns (grandTotal: Cents)
      ensures grandTotal == GrandTotal(groups)
    {
      AllTotals(groups);
      var todo := groups.Keys;
      ghost var done: set<Id> := {};
      grandTotal := 0;
      while todo != {}
        invariant done + todo == groups.Keys && done !! todo
        invariant grandTotal == Sum(TotalsIn(groups, done))
        decreases todo
      {
        var p :| p in todo;
        TotalOneMore(groups, done, p);
        grandTotal := grandTotal + groups[p].totalAmount;
        done, todo := done + {p}, todo - {p};
      }
      assert done == groups.Keys;
    }

    /** The eligible rows listed under their ambassadors. */
    method ListByProfile(filtered: set<Id>) returns (byProfile: map<Id, seq<Id>>)
      requires forall id :: id in filtered ==> id in commissions && commissions[id].profileId.Some?
      ensures Listed(View(), filtered, byProfile)
    {
      var todo := filtered;
      ghost var done: set<Id> := {};
      byProfile := map[];
      assert ProfilesOf(View(), done) == {};
      while todo != {}
        invariant done + todo == filtered && done !! todo
        invariant Listed(View(), done, byProfile)
        decreases todo
      {
        var id :| id in todo;
        assert id in filtered;
        ListOneMore(View(), done, byProfile, id);
        var p := commissions[id].profileId.value;
        var list := if p in byProfile then byProfile[p] else [];
        byProfile := byProfile[p := list + [id]];
        done, todo := done + {id}, todo - {id};
      }
      assert done == filtered;
    }

    /** The total of a list of commissions. */
    method TotalOf(list: seq<Id>) returns (total: Cents)
      requires Distinct(list) && forall id :: id in list ==> id in commissions
      ensures total == Sum(Amounts(View(), Elements(list)))
    {
      total := 0;
      SumEmpty(Amounts(View(), Elements(list[..0])));
      for i := 0 to |list|
        invariant total == Sum(Amounts(View(), Elements(list[..i])))
      {
        PrefixOneMore(View(), list, i);
        total := total + commissions[list[i]].amount;
      }
      assert list[..|list|] == list;
    }

    /** The transaction of createSettlements: a draft for each ambassador, and their commissions attached to it. */
    method DraftAll(filtered: set<Id>, byProfile: map<Id, seq<Id>>, uuid: Id -> Id)
      returns (unique: bool, newSettlements: map<Id, Settlement>, newCommissions: map<Id, Commission>)
      requires Listed(View(), filtered, byProfile)
      ensures unique ==> Drafted(View(), filtered, ProfilesOf(View(), filtered), uuid, newSettlements, newCommissions)
      ensures !unique ==> Collides(View(), ProfilesOf(View(), filtered), uuid)
    {
      hide Drafted, Collides;
      newSettlements, newCommissions := settlements, commissions;
      var todo := byProfile.Keys;
      ghost var done: set<Id> := {};
      NothingDrafted(View(), filtered, uuid);
      while todo != {}
        invariant done + todo == byProfile.Keys && done !! todo
        invariant Drafted(View(), filtered, done, uuid, newSettlements, newCommissions)
        decreases todo
      {
        var p :| p in todo;
        assert p in byProfile.Keys;
        var list := byProfile[p];
        ListedRows(View(), filtered, byProfile, p);
        var totalAmount := TotalOf(list);
        if uuid(p) in newSettlements {
          DraftClash(View(), filtered, done, uuid, p, newSettlements, newCommissions);
          return false, newSettlements, newCommissions;
        }
        DraftTurn(View(), filtered, done, uuid, p, list, newSettlements, newCommissions);
        newSettlements := newSettlements[uuid(p) := Settlement(p, totalAmount, Draft)];
        newCommissions := AttachList(newCommissions, list, uuid(p));
        done, todo := done + {p}, todo - {p};
      }
      assert done == byProfile.Keys;
      return true, newSettlements, newCommissions;
    }

    method FilterEligible(filter: set<Id>) returns (filtered: set<Id>)
      ensures filtered == Eligible(View(), filter)
      ensures forall id :: id in filtered <==> Due(View(), filter, id)
      ensures forall id :: id in filtered ==> id in commissions && commissions[id].profileId.Some?
    {
      var eligible := set id | id in commissions && id in bookings
        && commissions[id].status.Approved? && commissions[id].settlementId == None && commissions[id].profileId.Some?
        && !bookings[id].deleted && (bookings[id].status.Confirmed? || bookings[id].status.Completed?);
      filtered := if filter != {} then set id | id in eligible && commissions[id].profileId.value in filter
                  else eligible;
    }

    /** uuid gives the identifier the database would draw for the settlement of an ambassador. */
    method CreateSettlements(filter: set<Id>, uuid: Id -> Id) returns (outcome: Outcome)
      modifies this
      ensures Reply(View(), outcome) == Settlements.CreateSettlements(old(View()), filter, uuid)
    {
      hide Eligible, ProfilesOf, Settlements.CreateSettlements, Drafted, Listed, Collides;
      var filtered := FilterEligible(filter);
      NothingSettled(View(), filter, uuid);
      if filtered == {} {
        return BadRequest;
      }
      var byProfile := ListByProfile(filtered);
      var unique, newSettlements, newCommissions := DraftAll(filtered, byProfile, uuid);
      if !unique {
        return UniqueViolation;
      }
      AllDrafted(View(), filter, uuid, newSettlements, newCommissions);
      settlements, commissions := newSettlements, newCommissions;
      return Done;
    }

    method MarkPaid(sid: Id) returns (outcome: Outcome)
      modifies this
      ensures Reply(View(), outcome) == Settlements.MarkPaid(old(View()), sid)
    {
      if sid !in settlements {
        return NotFound;
      }
      if settlements[sid].status != SettlementStatus.Draft {
        return BadRequest;
      }
      var commissionIds := set id | id in commissions && commissions[id].settlementId == Some(sid);
      settlements := settlements[sid := settlements[sid].(status := SettlementStatus.Paid)];
      commissions := map id | id in commissions ::
        if id in commissionIds then commissions[id].(status := CommissionStatus.Paid) else commissions[id];
      assert commissions == PayAttached(old(commissions), sid);
      return Done;
    }

    method CancelDraft(sid: Id) returns (outcome: Outcome)
      modifies this
      ensures Reply(View(), outcome) == Settlements.CancelDraft(old(View()), sid)
    {
      if sid !in settlements {
        return NotFound;
      }
      if settlements[sid].status != SettlementStatus.Draft {
        return BadRequest;
      }
      commissions := DetachAll(commissions, sid);
      settlements := settlements[sid := settlements[sid].(status := SettlementStatus.Cancelled)];
      return Done;
    }

    // -------------------------------------------------------------- payments

    method CreateCheckout(flexId: Id, row: Id, now: int, cutoff: int, providerUp: bool) returns (outcome: Outcome)
      modifies `payments
      ensures Reply(View(), outcome) == Payments.CreateCheckout(old(View()), flexId, row, now, cutoff, providerUp)
    {
      if flexId !in flex || flex[flexId].deleted || flex[flexId].reservationPayment == None {
        return NotFound;
      }
      var f := flex[flexId];
      if f.status.Confirmed? || f.status.Cancelled? {
        return BadRequest;
      }
      if f.reservationPayment.value <= 0 {
        return BadRequest;
      }
      if exists p :: p in payments && payments[p].flexBookingId == flexId && payments[p].status.Approved? {
        return BadRequest;
      }
      if Reusable(payments, flexId, cutoff) {
        return Done;
      }
      payments := CancelPending(payments, flexId);
      if !providerUp {
        return Unavailable;
      }
      if row in payments {
        return UniqueViolation;
      }
      payments := payments[row := Payment(flexId, PaymentStatus.Pending, f.reservationPayment.value, None, Some(now))];
      return Done;
    }

    /** The transaction that records an approved payment. */
    method RecordApproved(flexId: Id, row: Id, n: Notice) returns (outcome: Outcome)
      requires flexId in flex && OnePending(payments)
      modifies `payments
      ensures Reply(View(), outcome) == Payments.RecordApproved(old(View()), flexId, row, n)
    {
      if exists p :: p in payments && PendingFor(payments, p, flexId) {
        var p :| p in payments && PendingFor(payments, p, flexId);
        TheOnlyPending(payments, flexId, p);
        if MpTaken(payments, n.paymentId, Some(p)) {
          return UniqueViolation;
        }
        payments := payments[p := payments[p].(status := PaymentStatus.Approved, mpPaymentId := Some(n.paymentId))];
        return Done;
      }
      assert !exists p :: PendingFor(payments, p, flexId);
      if MpTaken(payments, n.paymentId, None) || row in payments {
        return UniqueViolation;
      }
      var expected := if flex[flexId].reservationPayment.Some? then flex[flexId].reservationPayment.value else 0;
      payments := payments[row := Payment(flexId, PaymentStatus.Approved, if expected != 0 then expected else n.amount,
                                          Some(n.paymentId), None)];
      return Done;
    }

    method ConfirmApproved(row: Id, n: Notice) returns (outcome: Outcome)
      requires OnePending(payments)
      modifies this
      ensures Reply(View(), outcome) == Payments.ConfirmApproved(old(View()), row, n)
    {
      if n.reference == None || n.reference.value !in flex || flex[n.reference.value].deleted {
        return Done;
      }
      var flexId := n.reference.value;
      if flex[flexId].status.Confirmed? {
        payments := SetStatusOf(payments, n.paymentId, PaymentStatus.Approved);
        return Done;
      }
      var expected := if flex[flexId].reservationPayment.Some? then flex[flexId].reservationPayment.value else 0;
      if expected > 0 && Abs(n.amount - expected) > ONE_UNIT {
        return Done;
      }
      outcome := RecordApproved(flexId, row, n);
      if outcome == Done {
        outcome := ConfirmFromPayment(flexId, n.paymentId);
      }
    }

    method ProcessNotice(row: Id, n: Notice) returns (outcome: Outcome)
      requires OnePending(payments)
      modifies this
      ensures Reply(View(), outcome) == Payments.ProcessNotice(old(View()), row, n)
      ensures OnePending(payments)
    {
      hide OnePending, Payments.ConfirmApproved, SetStatusOf, Claim, MpTaken, Unclaimed, MapMpStatus;
      NoticeKeepsOnePending(View(), Arrival(row, n));
      RefundsAreMapped(n.status);
      if n.status.Approved? {
        outcome := ConfirmApproved(row, n);
        return;
      }
      if n.status.Refunded? || n.status.ChargedBack? {
        if n.reference.Some? {
          payments := SetStatusOf(payments, n.paymentId, PaymentStatus.Refunded);
        }
        return Done;
      }
      if n.reference == None {
        return Done;
      }
      var status := MapMpStatus(n.status);
      if status == None {
        return Done;
      }
      var flexId := n.reference.value;
      UnclaimedAreRows(payments, flexId);
      if !exists p :: p in payments && Unclaimed(payments, p, flexId) {
        return Done;
      }
      if MpTaken(payments, n.paymentId, None) {
        return UniqueViolation;
      }
      payments := Claim(payments, flexId, status.value, n.paymentId);
      return Done;
    }

    /** arrivals are the payments the provider finds, each with the identifier a new row for it would get. */
    method SyncBookingPayments(arrivals: seq<Arrival>) returns (outcome: Outcome)
      requires OnePending(payments)
      modifies this
      ensures Reply(View(), outcome) == Sync(old(View()), arrivals)
      ensures OnePending(payments)
    {
      var i := 0;
      while i < |arrivals|
        invariant i <= |arrivals| && OnePending(payments)
        invariant Sync(View(), arrivals[i..]) == Sync(old(View()), arrivals)
      {
        outcome := ProcessNotice(arrivals[i].row, arrivals[i].notice);
        if outcome != Done {
          return;
        }
        i := i + 1;
      }
      return Done;
    }

    /** At most limit of the bookings that await a payment; fewer only when there are no more. */
    method PickAwaiting(limit: nat) returns (ids: seq<Id>)
      ensures |ids| <= limit && Distinct(ids)
      ensures forall id :: id in ids ==> Awaiting(flex, id)
      ensures forall id :: id in ids ==>
        && id in flex && !flex[id].deleted && flex[id].status == FlexStatus.Pending
        && flex[id].reservationPayment.Some? && flex[id].reservationPayment.value > 0
      ensures |ids| < limit ==> forall id :: Awaiting(flex, id) ==> id in ids
      ensures |ids| < limit ==>
        forall id :: id in flex && id !in ids ==>
          || flex[id].deleted || flex[id].status != FlexStatus.Pending
          || flex[id].reservationPayment == None || flex[id].reservationPayment.value <= 0
    {
      var todo := set id | id in flex && Awaiting(flex, id);
      ids := [];
      while todo != {} && |ids| < limit
        invariant |ids| <= limit && Distinct(ids)
        invariant forall id :: id in ids ==> Awaiting(flex, id) && id !in todo
        invariant forall id :: id in todo ==> Awaiting(flex, id)
        invariant forall id :: Awaiting(flex, id) ==> id in ids || id in todo
        decreases todo
      {
        var id :| id in todo;
        ids, todo := ids + [id], todo - {id};
      }
    }

    /** One booking of a reconciliation, inside its try block. */
    method ReconcileOne(id: Id, arrivals: seq<Arrival>) returns (moved: bool)
      requires OnePending(payments)
      modifies this
      ensures OnePending(payments)
      ensures var r := Sync(old(View()), arrivals);
        View() == r.state && (moved <==> r.outcome == Done && StatusMoved(old(View()).flex, r.state.flex, id))
    {
      var before := if id in flex then Some(flex[id].status) else None;
      var outcome := SyncBookingPayments(arrivals);
      if outcome != Done {
        return false;
      }
      var after := if id in flex then Some(flex[id].status) else None;
      return before != after;
    }

    /** found gives what the provider answers for each booking. */
    method ReconcilePendingPayments(found: Id -> seq<Arrival>) returns (processed: nat, ghost ids: seq<Id>)
      requires OnePending(payments)
      modifies this
      ensures |ids| <= 50 && Distinct(ids) && forall id :: id in ids ==> Awaiting(old(flex), id)
      ensures |ids| < 50 ==> forall id :: Awaiting(old(flex), id) ==> id in ids
      ensures Tally(View(), processed) == Reconcile(old(View()), ids, found)
      ensures OnePending(payments)
    {
      var pendingBookings := PickAwaiting(50);
      ids := pendingBookings;
      processed := 0;
      hide Sync, OnePending, Reconcile, Remains, Awaiting, StatusMoved, Distinct;
      ghost var total := Reconcile(View(), pendingBookings, found);
      RemainsAll(View(), pendingBookings, found);
      var i := 0;
      while i < |pendingBookings|
        invariant i <= |pendingBookings| && OnePending(payments)
        invariant Remains(View(), processed, pendingBookings, i, found, total)
      {
        var id := pendingBookings[i];
        RemainsNext(View(), processed, pendingBookings, i, found, total);
        var moved := ReconcileOne(id, found(id));
        if moved {
          processed := processed + 1;
        }
        i := i + 1;
      }
      RemainsNone(View(), processed, pendingBookings, found, total);
    }
  }
}
