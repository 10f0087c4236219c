/** What the calls of the flex bookings service do to each row, column by column. */
module FlexRows {
  import opened Common
  import opened Tables
  import opened Rates
  import opened Bookings
  import opened RegistryRows

  // ---------------------------------------------------------------- free days

  /** Another booking of the property, neither deleted nor cancelled, has some of these days. */
  predicate Taken(flex: map<Id, FlexBooking>, propertyFlexId: Id, start: Day, end: Day, except: Option<Id>) {
    exists g :: g in flex && Some(g) != except && flex[g].propertyFlexId == propertyFlexId && !flex[g].deleted
             && flex[g].status != FlexStatus.Cancelled && flex[g].startDate < end && start < flex[g].endDate
  }

  lemma ConflictIsTaken(flex: map<Id, FlexBooking>, propertyFlexId: Id, start: Day, end: Day, except: Option<Id>)
    ensures Conflict(flex, propertyFlexId, start, end, except) <==> Taken(flex, propertyFlexId, start, end, except)
  {
    if Conflict(flex, propertyFlexId, start, end, except) {
      var g :| g in flex && Some(g) != except && flex[g].propertyFlexId == propertyFlexId
               && Active(flex[g]) && Overlaps(flex[g], start, end);
      assert flex[g].startDate < end && start < flex[g].endDate;
    }
    if Taken(flex, propertyFlexId, start, end, except) {
      var g :| g in flex && Some(g) != except && flex[g].propertyFlexId == propertyFlexId && !flex[g].deleted
               && flex[g].status != FlexStatus.Cancelled && flex[g].startDate < end && start < flex[g].endDate;
      assert Active(flex[g]) && Overlaps(flex[g], start, end);
    }
  }

  // ---------------------------------------------------------------- creation

  /** The amounts sent are those of the quote, to one unit. */
  predicate Quoted(dto: NewFlex, q: FlexQuote) {
    -100 <= dto.monthlyAmount - q.monthlyRent <= 100 && -100 <= dto.totalAmount - q.totalAmount <= 100
  }

  predicate LiveProperty(s: State, p: Id) {
    p in s.catalog.flexProperties && !s.catalog.flexProperties[p].deleted
  }

  /** A creation succeeds exactly for a live property, days in order that are free, a quote the amounts sent agree
      with, a known ambassador and fresh identifiers; refused, it changes nothing. */
  lemma CreationAnswers(s: State, id: Id, bookingId: Id, dto: NewFlex, quote: Option<FlexQuote>)
    ensures var r := CreateFlex(s, id, bookingId, dto, quote);
      && (r.outcome == NotFound <==> !LiveProperty(s, dto.propertyFlexId))
      && (r.outcome == Done <==>
            && LiveProperty(s, dto.propertyFlexId) && dto.startDate < dto.endDate
            && !Taken(s.flex, dto.propertyFlexId, dto.startDate, dto.endDate, None)
            && quote.Some? && Quoted(dto, quote.value)
            && (dto.profileId.Some? ==> dto.profileId.value in s.catalog.profiles)
            && id !in s.flex && bookingId !in s.bookings)
      && (r.outcome != Done ==> r.state == s)
  {
    hide Conflict, Taken, ResolveFlexRate, CommissionAmount;
    ConflictIsTaken(s.flex, dto.propertyFlexId, dto.startDate, dto.endDate, None);
  }

  /** Both rows and the commission, as created: PENDING, at the amounts of the quote, not those sent. */
  lemma CreationStarts(s: State, id: Id, bookingId: Id, dto: NewFlex, q: FlexQuote)
    requires CreateFlex(s, id, bookingId, dto, Some(q)).outcome == Done
    ensures var t := CreateFlex(s, id, bookingId, dto, Some(q)).state;
      && t == s.(flex := t.flex, bookings := t.bookings, registryOf := s.registryOf[id := bookingId],
                 history := t.history, commissions := t.commissions)
      && t.flex == s.flex[id := FlexBooking(
           dto.propertyFlexId, dto.profileId, dto.startDate, dto.endDate, dto.totalMonths, q.monthlyRent, q.totalAmount,
           if q.reservationPayment > 0 then Some(q.reservationPayment) else None, FlexStatus.Pending, false)]
      && BookingBecomes(s, t, bookingId, Booking(
           Flex, None, Some(dto.propertyFlexId), Some(id), None, dto.profileId, dto.startDate, dto.endDate,
           dto.endDate - dto.startDate, q.totalAmount, q.totalAmount, BookingStatus.Pending, false))
      && OnlyCommission(s, t, bookingId) && bookingId in t.commissions
      && StartsCommission(t.commissions[bookingId], dto.profileId,
                          ResolveFlexRate(s.catalog, dto.propertyFlexId, dto.profileId).rate, q.monthlyRent,
                          CommissionStatus.Pending)
  {
    hide Conflict, ResolveFlexRate;
  }

  // ---------------------------------------------------------------- confirmation by a payment

  /** The registry row of a flex booking. */
  predicate RegisteredAs(s: State, id: Id, r: Id) {
    id in s.registryOf && s.registryOf[id] == r && r in s.bookings
  }

  /** A payment confirms a live flex booking unless it is CANCELLED, and changes nothing of a CONFIRMED one. */
  lemma PaymentConfirms(s: State, id: Id, mpPaymentId: Id)
    ensures var r := ConfirmFromPayment(s, id, mpPaymentId);
      && (r.outcome == NotFound <==> id !in s.flex || s.flex[id].deleted)
      && (r.outcome == Done <==> id in s.flex && !s.flex[id].deleted && s.flex[id].status != FlexStatus.Cancelled)
      && (r.outcome != Done ==> r.state == s)
      && (r.outcome == Done && s.flex[id].status == FlexStatus.Confirmed ==> r.state == s)
      && (r.outcome == Done ==>
            && r.state == s.(flex := r.state.flex, bookings := r.state.bookings, history := r.state.history,
                             commissions := r.state.commissions)
            && r.state.flex == s.flex[id := s.flex[id].(status := FlexStatus.Confirmed)])
  {
    hide Logged, ApprovePending;
    if id in s.flex && s.flex[id].status.Confirmed? {
      assert s.flex == s.flex[id := s.flex[id].(status := FlexStatus.Confirmed)];
    }
  }

  /** Confirming, it takes the registry row with it, and a PENDING commission outside settlements when that row
      moves. */
  lemma PaymentReaches(s: State, id: Id, mpPaymentId: Id, r: Id)
    requires ConfirmFromPayment(s, id, mpPaymentId).outcome == Done && RegisteredAs(s, id, r)
    requires s.flex[id].status != FlexStatus.Confirmed
    ensures var t := ConfirmFromPayment(s, id, mpPaymentId).state;
      && BookingBecomes(s, t, r, s.bookings[r].(status := BookingStatus.Confirmed))
      && OnlyCommission(s, t, r) && t.commissions.Keys == s.commissions.Keys
      && (r in s.commissions ==>
            t.commissions[r] == if s.bookings[r].status != BookingStatus.Confirmed
                                   && s.commissions[r].status == CommissionStatus.Pending
                                   && s.commissions[r].settlementId == None
                                then s.commissions[r].(status := CommissionStatus.Approved) else s.commissions[r])
  {
    hide Logged;
    if s.bookings[r].status.Confirmed? {
      assert s.bookings == s.bookings[r := s.bookings[r].(status := BookingStatus.Confirmed)];
    } else {
    }
  }

  /** The entry it logs then names the payment. */
  lemma PaymentIsLogged(s: State, id: Id, mpPaymentId: Id, r: Id)
    requires ConfirmFromPayment(s, id, mpPaymentId).outcome == Done && RegisteredAs(s, id, r)
    requires s.flex[id].status != FlexStatus.Confirmed && s.bookings[r].status != BookingStatus.Confirmed
    ensures ConfirmFromPayment(s, id, mpPaymentId).state.history == s.history[r :=
      (if r in s.history then s.history[r] else [])
      + [HistoryEntry(Some(s.bookings[r].status), BookingStatus.Confirmed, PaymentApproved(mpPaymentId))]]
  {
    hide ApprovePending;
  }

  // ---------------------------------------------------------------- updates

  /** A live booking, dates in order, and free days when a date is sent. */
  predicate Accepts(s: State, id: Id, dto: FlexChange) {
    && id in s.flex && !s.flex[id].deleted
    && var f := s.flex[id]; var start, end := SentOr(dto.startDate, f.startDate), SentOr(dto.endDate, f.endDate);
       && start < end
       && (dto.startDate.Some? || dto.endDate.Some? ==> !Taken(s.flex, f.propertyFlexId, start, end, Some(id)))
  }

  predicate Cancelling(dto: FlexChange) {
    dto.status == Some(FlexStatus.Cancelled)
  }

  /** An update that is not accepted changes nothing; one that is fails only when it asks for a cancellation that is
      refused. */
  lemma UpdateAnswers(s: State, id: Id, dto: FlexChange)
    ensures var r := UpdateFlex(s, id, dto);
      && (!Accepts(s, id, dto) ==>
            r == Reply(s, if id in s.flex && !s.flex[id].deleted then BadRequest else NotFound))
      && (Accepts(s, id, dto) ==>
            r.outcome == if Cancelling(dto) && id in s.registryOf && s.registryOf[id] in s.bookings
                            && s.bookings[s.registryOf[id]].status != BookingStatus.Cancelled
                         then
                           if s.bookings[s.registryOf[id]].deleted then NotFound
                           else if s.bookings[s.registryOf[id]].status == BookingStatus.Completed then BadRequest
                           else Done
                         else Done)
  {
    hide Conflict, Taken, RepricePending, Logged, ApprovePending, ResolveFlexRate, CommissionAmount;
    if id in s.flex {
      var f := ChangedFlex(s.flex[id], dto);
      ConflictIsTaken(s.flex, f.propertyFlexId, f.startDate, f.endDate, Some(id));
    }
  }

  /** The registry row can still be cancelled. */
  predicate CanCancel(b: Booking) {
    !b.deleted && b.status != BookingStatus.Cancelled && b.status != BookingStatus.Completed
  }

  /** The tables after an accepted update: the update transaction, and then the cancellation if it is asked for. */
  lemma UpdateState(s: State, id: Id, dto: FlexChange)
    requires Accepts(s, id, dto)
    ensures var t := UpdateFlex(s, id, dto).state;
      if id in s.registryOf && s.registryOf[id] in s.bookings then
        var r := s.registryOf[id];
        t == if Cancelling(dto) && CanCancel(s.bookings[r]) then CancelBooking(UpdateRows(s, id, dto, r), r).state
             else UpdateRows(s, id, dto, r)
      else t == s.(flex := s.flex[id := ChangedFlex(s.flex[id], dto)])
  {
    hide Conflict, Taken, RepricePending, Logged, ApprovePending, CancelFlexRow, CancelCommission, ResolveFlexRate;
    var f := ChangedFlex(s.flex[id], dto);
    ConflictIsTaken(s.flex, f.propertyFlexId, f.startDate, f.endDate, Some(id));
  }

  lemma UpdateTransaction(s: State, id: Id, dto: FlexChange, r: Id)
    requires id in s.flex && r in s.bookings
    ensures var t := UpdateRows(s, id, dto, r); var f := ChangedFlex(s.flex[id], dto);
      && t == s.(flex := s.flex[id := f], bookings := t.bookings, history := t.history, commissions := t.commissions)
      && r in t.bookings
      && BookingBecomes(s, t, r, ChangedRegistry(s.bookings[r], f, dto).(status := t.bookings[r].status))
      && t.bookings[r].status == Followed(s.bookings[r], dto)
  {
    hide RepricePending, Logged, ApprovePending, ResolveFlexRate, ChangedFlex;
  }

  /** One flex row after the cancellation of a registry row. */
  lemma CancelledStay(s: State, r: Id, f: Id)
    requires f in s.flex
    ensures var c := CancelBooking(s, r);
      && c.state.flex.Keys == s.flex.Keys
      && c.state.flex[f] == if c.outcome == Done && r in s.bookings && s.bookings[r].flexBookingId == Some(f)
                            then s.flex[f].(status := FlexStatus.Cancelled) else s.flex[f]
  {
    hide Logged, CancelCommission;
  }

  /** One flex row after an accepted update. */
  lemma UpdatedStay(s: State, id: Id, dto: FlexChange, f: Id)
    requires id in s.flex && Accepts(s, id, dto) && f in s.flex
    ensures var t := UpdateFlex(s, id, dto).state; var g := if f == id then ChangedFlex(s.flex[id], dto) else s.flex[f];
      && t.flex.Keys == s.flex.Keys
      && t.flex[f] == if Cancelling(dto) && id in s.registryOf && s.registryOf[id] in s.bookings
                         && CanCancel(s.bookings[s.registryOf[id]])
                         && s.bookings[s.registryOf[id]].flexBookingId == Some(f)
                      then g.(status := FlexStatus.Cancelled) else g
  {
    hide Accepts, UpdateFlex, UpdateRows, CancelBooking, ChangedFlex, Followed;
    UpdateState(s, id, dto);
    if id in s.registryOf && s.registryOf[id] in s.bookings {
      var r := s.registryOf[id];
      UpdateTransaction(s, id, dto, r);
      if Cancelling(dto) && CanCancel(s.bookings[r]) {
        StaysCancellable(s, id, dto, r);
        CancelledStay(UpdateRows(s, id, dto, r), r, f);
      }
    }
  }

  /** The flex row after an accepted update: days, months and monthly amount as sent or else as stored; the total as
      sent, else, when an amount or months are sent, the monthly amount times the months, else as stored. */
  lemma UpdateChangesFlex(s: State, id: Id, dto: FlexChange)
    requires Accepts(s, id, dto)
    ensures var t := UpdateFlex(s, id, dto).state; var f := s.flex[id];
      && t.flex.Keys == s.flex.Keys
      && var g := t.flex[id];
         && g == f.(startDate := g.startDate, endDate := g.endDate, totalMonths := g.totalMonths,
                    monthlyAmount := g.monthlyAmount, totalAmount := g.totalAmount, status := g.status)
         && g.startDate == SentOr(dto.startDate, f.startDate) && g.endDate == SentOr(dto.endDate, f.endDate)
         && g.totalMonths == SentOr(dto.totalMonths, f.totalMonths)
         && g.monthlyAmount == SentOr(dto.monthlyAmount, f.monthlyAmount)
         && g.totalAmount == match dto.totalAmount
                             case Some(total) => total
                             case None =>
                               if dto.monthlyAmount.Some? || dto.totalMonths.Some?
                               then SentOr(dto.monthlyAmount, f.monthlyAmount) * SentOr(dto.totalMonths, f.totalMonths)
                               else f.totalAmount
  {
    UpdatedStay(s, id, dto, id);
    hide Taken, UpdateFlex;
  }

  /** The bookings table after an accepted update. */
  lemma UpdateRegistryTable(s: State, id: Id, dto: FlexChange, r: Id)
    requires id in s.flex && Accepts(s, id, dto) && RegisteredAs(s, id, r)
    ensures var t := UpdateFlex(s, id, dto).state;
      && r in t.bookings
      && BookingBecomes(s, t, r, ChangedRegistry(s.bookings[r], ChangedFlex(s.flex[id], dto), dto)
                                 .(status := t.bookings[r].status))
      && t.bookings[r].status == if Cancelling(dto) && CanCancel(s.bookings[r]) then BookingStatus.Cancelled
                                 else Followed(s.bookings[r], dto)
  {
    hide Accepts, UpdateFlex, UpdateRows, CancelBooking, ChangedFlex, Followed;
    UpdateState(s, id, dto);
    var u := UpdateRows(s, id, dto, r);
    UpdateTransaction(s, id, dto, r);
    if Cancelling(dto) && CanCancel(s.bookings[r]) {
      StaysCancellable(s, id, dto, r);
      CancellationCancels(u, r);
    }
  }

  lemma StaysCancellable(s: State, id: Id, dto: FlexChange, r: Id)
    requires id in s.flex && r in s.bookings && Cancelling(dto) && CanCancel(s.bookings[r])
    ensures CancelBooking(UpdateRows(s, id, dto, r), r).outcome == Done
  {
    hide UpdateRows, CancelBooking, ChangedFlex;
    var u := UpdateRows(s, id, dto, r);
    UpdateTransaction(s, id, dto, r);
    assert u.bookings[r].status == s.bookings[r].status && u.bookings[r].deleted == s.bookings[r].deleted;
    CancellationCancels(u, r);
  }

  /** The registry row after an accepted update: days as sent, the nights of the flex row when a day is sent, and both
      amounts at the total of the flex row when an amount or months are sent; all else as stored. No other registry
      row changes. */
  lemma UpdateChangesRegistry(s: State, id: Id, dto: FlexChange, r: Id)
    requires Accepts(s, id, dto) && RegisteredAs(s, id, r)
    ensures var t := UpdateFlex(s, id, dto).state; var b := s.bookings[r];
      && id in t.flex && r in t.bookings
      && var g, c := t.flex[id], t.bookings[r];
         && BookingBecomes(s, t, r, c)
         && c == b.(checkIn := c.checkIn, checkOut := c.checkOut, totalNights := c.totalNights,
                    baseAmount := c.baseAmount, totalAmount := c.totalAmount, status := c.status)
         && c.checkIn == SentOr(dto.startDate, b.checkIn) && c.checkOut == SentOr(dto.endDate, b.checkOut)
         && c.totalNights == (if dto.startDate.Some? || dto.endDate.Some? then g.endDate - g.startDate
                              else b.totalNights)
         && var repriced := dto.totalAmount.Some? || dto.monthlyAmount.Some? || dto.totalMonths.Some?;
            && c.baseAmount == (if repriced then g.totalAmount else b.baseAmount)
            && c.totalAmount == (if repriced then g.totalAmount else b.totalAmount)
  {
    UpdatedStay(s, id, dto, id);
    UpdateRegistryTable(s, id, dto, r);
    hide Taken, UpdateFlex, Followed;
  }

  /** The registry status that stands for a flex status. */
  predicate StandsFor(b: BookingStatus, f: FlexStatus) {
    && (f == FlexStatus.Pending <==> b == BookingStatus.Pending)
    && (f == FlexStatus.Confirmed <==> b == BookingStatus.Confirmed)
    && (f == FlexStatus.Cancelled <==> b == BookingStatus.Cancelled)
    && (f == FlexStatus.Completed <==> b == BookingStatus.Completed)
  }

  /** A status that is sent, other than CANCELLED, is taken by both rows; a cancellation cancels both, when the
      registry row can still be cancelled and is that of the flex booking, and otherwise neither; no other flex row
      changes. */
  lemma UpdateMoves(s: State, id: Id, dto: FlexChange, r: Id, f: Id)
    requires Accepts(s, id, dto) && RegisteredAs(s, id, r) && s.bookings[r].flexBookingId == Some(id) && f in s.flex
    ensures var t := UpdateFlex(s, id, dto).state;
      && f in t.flex && r in t.bookings
      && (f != id ==> t.flex[f] == s.flex[f])
      && var before, after, g := s.bookings[r].status, t.bookings[r].status, t.flex[f].status;
         if dto.status == None then after == before && g == s.flex[f].status
         else if Cancelling(dto) && CanCancel(s.bookings[r])
         then after == BookingStatus.Cancelled && (f == id ==> g == FlexStatus.Cancelled)
         else if Cancelling(dto) then after == before && g == s.flex[f].status
         else StandsFor(after, dto.status.value) && (f == id ==> g == dto.status.value)
  {
    UpdatedStay(s, id, dto, f);
    UpdateRegistryTable(s, id, dto, r);
    hide Taken, UpdateFlex, ChangedRegistry;
  }

  // ---------------------------------------------------------------- commissions of an update

  predicate SendsAmounts(dto: FlexChange) {
    dto.totalAmount.Some? || dto.monthlyAmount.Some? || dto.totalMonths.Some?
  }

  lemma UpdateTransactionPays(s: State, id: Id, dto: FlexChange, r: Id)
    requires id in s.flex && r in s.bookings
    ensures UpdateRows(s, id, dto, r).commissions ==
      var f, to := ChangedFlex(s.flex[id], dto), Followed(s.bookings[r], dto);
      var rate := ResolveFlexRate(s.catalog, s.flex[id].propertyFlexId, s.bookings[r].profileId).rate;
      var t := Terms(rate, f.monthlyAmount);
      var commissions := if SendsAmounts(dto) then RepricePending(s.commissions, r, t) else s.commissions;
      if to != s.bookings[r].status && to.Confirmed? then ApprovePending(commissions, r) else commissions
  {
    hide RepricePending, ApprovePending, ResolveFlexRate, Logged;
  }

  lemma CancelledCommission(s: State, r: Id, b: Id)
    requires b in s.commissions
    ensures var c := CancelBooking(s, r);
      && c.state.commissions.Keys == s.commissions.Keys
      && c.state.commissions[b] == if c.outcome == Done && b == r
                                   then s.commissions[b].(status := CommissionStatus.Cancelled) else s.commissions[b]
  {
    hide Logged, CancelFlexRow;
  }

  /** The commission of the booking after an accepted update: a PENDING one is repriced when an amount or months are
      sent, and approved, outside settlements, when the update confirms the registry row; a cancellation cancels it,
      whatever its status. No other commission changes. */
  lemma UpdateReprices(s: State, id: Id, dto: FlexChange, r: Id, b: Id)
    requires Accepts(s, id, dto) && RegisteredAs(s, id, r) && b in s.commissions
    ensures var t := UpdateFlex(s, id, dto).state;
      && t.commissions.Keys == s.commissions.Keys
      && var c, d := s.commissions[b], t.commissions[b];
         && (b != r ==> d == c)
         && d.profileId == c.profileId && d.settlementId == c.settlementId
         && (if b == r && SendsAmounts(dto) && c.status == CommissionStatus.Pending
             then
               && d.rate == ResolveFlexRate(s.catalog, s.flex[id].propertyFlexId, s.bookings[r].profileId).rate
               && d.baseAmount == SentOr(dto.monthlyAmount, s.flex[id].monthlyAmount)
               && -5000 <= d.baseAmount * d.rate - 10000 * d.amount <= 5000
             else d.rate == c.rate && d.baseAmount == c.baseAmount && d.amount == c.amount)
         && d.status == (if b != r then c.status
                         else if Cancelling(dto) && CanCancel(s.bookings[r]) then CommissionStatus.Cancelled
                         else if dto.status == Some(FlexStatus.Confirmed)
                                 && s.bookings[r].status != BookingStatus.Confirmed
                                 && c.status == CommissionStatus.Pending && c.settlementId == None
                         then CommissionStatus.Approved else c.status)
  {
    UpdateState(s, id, dto);
    UpdateTransactionPays(s, id, dto, r);
    if Cancelling(dto) && CanCancel(s.bookings[r]) {
      StaysCancellable(s, id, dto, r);
      CancelledCommission(UpdateRows(s, id, dto, r), r, b);
    }
    hide Taken, UpdateFlex, UpdateRows, CancelBooking, ResolveFlexRate;
  }

  // ---------------------------------------------------------------- deletion

  /** A deletion is refused when the registry row must be cancelled first and cannot be; refused, it changes
      nothing. */
  lemma DeletionAnswers(s: State, id: Id)
    ensures var r := DeleteFlex(s, id);
      && (r.outcome == Done <==>
            && id in s.flex && !s.flex[id].deleted
            && (id in s.registryOf && s.registryOf[id] in s.bookings ==>
                  || s.bookings[s.registryOf[id]].status == BookingStatus.Cancelled
                  || CanCancel(s.bookings[s.registryOf[id]])))
      && (r.outcome == BadRequest <==>
            && id in s.flex && !s.flex[id].deleted && id in s.registryOf && s.registryOf[id] in s.bookings
            && !s.bookings[s.registryOf[id]].deleted
            && s.bookings[s.registryOf[id]].status == BookingStatus.Completed)
      && (r.outcome == Done || r.outcome == BadRequest || r.outcome == NotFound)
      && (r.outcome != Done ==> r.state == s)
  {
    hide Logged, CancelFlexRow, CancelCommission;
  }

  /** Deleted, both rows are kept as deleted and CANCELLED rows, the commission is cancelled with a registry row that
      was not cancelled before, and nothing else changes. */
  lemma DeletionDeletes(s: State, id: Id, r: Id)
    requires DeleteFlex(s, id).outcome == Done && RegisteredAs(s, id, r) && s.bookings[r].flexBookingId == Some(id)
    ensures var t := DeleteFlex(s, id).state; var cancels := s.bookings[r].status != BookingStatus.Cancelled;
      && t == s.(flex := t.flex, bookings := t.bookings, history := t.history, commissions := t.commissions)
      && t.flex == s.flex[id := s.flex[id].(
           deleted := true, status := if cancels then FlexStatus.Cancelled else s.flex[id].status)]
      && BookingBecomes(s, t, r, s.bookings[r].(deleted := true, status := BookingStatus.Cancelled))
      && OnlyCommission(s, t, r) && t.commissions.Keys == s.commissions.Keys
      && (r in s.commissions ==>
            t.commissions[r] == if cancels then s.commissions[r].(status := CommissionStatus.Cancelled)
                                else s.commissions[r])
  {
    hide Logged;
  }
}
