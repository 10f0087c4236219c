/** What the calls of the bookings registry do to each row, column by column. */
module RegistryRows {
  import opened Common
  import opened Tables
  import opened Rates
  import opened Bookings

  predicate Live(s: State, id: Id) {
    id in s.bookings && !s.bookings[id].deleted
  }

  /** Only the row of booking b changes, to this one. */
  predicate BookingBecomes(s: State, t: State, b: Id, row: Booking) {
    t.bookings == s.bookings[b := row]
  }

  /** At most the row of booking b changes. */
  predicate OnlyCommission(s: State, t: State, b: Id) {
    && t.commissions.Keys <= s.commissions.Keys + {b} && s.commissions.Keys <= t.commissions.Keys
    && forall c :: c in s.commissions && c != b ==> t.commissions[c] == s.commissions[c]
  }

  // ---------------------------------------------------------------- statuses

  /** A cancellation needs a live booking that is neither CANCELLED nor COMPLETED. It cancels the registry row, the
      flex booking of that row and its commission, and no other row. */
  lemma CancellationCancels(s: State, id: Id)
    ensures var r := CancelBooking(s, id);
      && (r.outcome == NotFound <==> !Live(s, id))
      && (r.outcome == Done <==> Live(s, id) && s.bookings[id].status != BookingStatus.Cancelled
                                 && s.bookings[id].status != BookingStatus.Completed)
      && (r.outcome != Done ==> r.state == s)
      && (r.outcome == Done ==>
            && r.state == s.(flex := r.state.flex, bookings := r.state.bookings, history := r.state.history,
                             commissions := r.state.commissions)
            && BookingBecomes(s, r.state, id, s.bookings[id].(status := BookingStatus.Cancelled)))
  {
    hide Logged, CancelFlexRow, CancelCommission;
  }

  lemma CancellationReaches(s: State, id: Id)
    requires CancelBooking(s, id).outcome == Done
    ensures var t := CancelBooking(s, id).state;
      && t.flex.Keys == s.flex.Keys && OnlyCommission(s, t, id)
      && t.commissions.Keys == s.commissions.Keys
      && (forall f :: f in s.flex ==>
            t.flex[f] == if s.bookings[id].flexBookingId == Some(f) then s.flex[f].(status := FlexStatus.Cancelled)
                         else s.flex[f])
      && (id in s.commissions ==>
            t.commissions[id] == s.commissions[id].(status := CommissionStatus.Cancelled))
  {
    hide Logged;
  }

  /** A confirmation in the registry needs a live PENDING booking. */
  lemma ConfirmationConfirms(s: State, id: Id)
    ensures var r := ConfirmBooking(s, id);
      && (r.outcome == NotFound <==> !Live(s, id))
      && (r.outcome == Done <==> Live(s, id) && s.bookings[id].status == BookingStatus.Pending)
      && (r.outcome != Done ==> r.state == s)
      && (r.outcome == Done ==>
            && r.state == s.(bookings := r.state.bookings, history := r.state.history,
                             commissions := r.state.commissions)
            && BookingBecomes(s, r.state, id, s.bookings[id].(status := BookingStatus.Confirmed)))
  {
    hide Logged, ApprovePending, CommissionOnConfirm;
  }

  /** It approves a PENDING commission outside settlements; where there is none, a stay of an ambassador at a property
      gets one, APPROVED, at the resolved rate on its total; no other commission changes. */
  lemma ConfirmationApproves(s: State, id: Id)
    requires ConfirmBooking(s, id).outcome == Done
    ensures var t := ConfirmBooking(s, id).state; var b := s.bookings[id];
      && OnlyCommission(s, t, id)
      && (id in t.commissions <==> id in s.commissions || (b.profileId.Some? && b.propertyId.Some?))
      && (id in s.commissions ==>
            t.commissions[id] == if s.commissions[id].status == CommissionStatus.Pending
                                    && s.commissions[id].settlementId == None
                                 then s.commissions[id].(status := CommissionStatus.Approved) else s.commissions[id])
      && (id in t.commissions && id !in s.commissions ==>
            && b.profileId.Some? && b.propertyId.Some?
            && StartsCommission(t.commissions[id], b.profileId,
                                ResolveTemporalRate(s.catalog, b.propertyId.value, b.profileId).rate, b.totalAmount,
                                CommissionStatus.Approved))
  {
    hide Logged, ResolveTemporalRate;
  }

  /** A commission in no settlement, for the product of rate and base to half a cent. */
  predicate StartsCommission(c: Commission, profileId: Option<Id>, rate: Rate, base: Cents, status: CommissionStatus) {
    && c.profileId == profileId && c.settlementId == None && c.rate == rate && c.baseAmount == base
    && -5000 <= base * rate - 10000 * c.amount <= 5000 && c.status == status
  }

  /** A completion needs a live CONFIRMED booking and changes nothing but its status. */
  lemma CompletionCompletes(s: State, id: Id)
    ensures var r := CompleteBooking(s, id);
      && (r.outcome == NotFound <==> !Live(s, id))
      && (r.outcome == Done <==> Live(s, id) && s.bookings[id].status == BookingStatus.Confirmed)
      && (r.outcome != Done ==> r.state == s)
      && (r.outcome == Done ==>
            && r.state == s.(bookings := r.state.bookings, history := r.state.history)
            && BookingBecomes(s, r.state, id, s.bookings[id].(status := BookingStatus.Completed)))
  {
    hide Logged;
  }

  /** Sent or stored. */
  function SentOr<T>(sent: Option<T>, stored: T): T {
    match sent
    case Some(v) => v
    case None => stored
  }

  /** New dates need a live booking that is neither of a flex stay nor cancelled, and must stay in order; the nights
      are the days between them as soon as one is sent. */
  lemma RedatingRedates(s: State, id: Id, checkIn: Option<Day>, checkOut: Option<Day>)
    ensures var r := UpdateBooking(s, id, checkIn, checkOut);
      && (r.outcome == NotFound <==> !Live(s, id))
      && (r.outcome != Done ==> r.state == s)
      && (Live(s, id) ==>
            var b := s.bookings[id]; var from, to := SentOr(checkIn, b.checkIn), SentOr(checkOut, b.checkOut);
            && (r.outcome == Done <==>
                  && b.source != BookingSource.Flex && b.flexBookingId == None
                  && b.status != BookingStatus.Cancelled && from < to)
            && (r.outcome == Done ==>
                  r.state == s.(bookings := s.bookings[id := b.(
                    checkIn := from, checkOut := to,
                    totalNights := if checkIn == None && checkOut == None then b.totalNights else to - from)])))
  {}

  // ---------------------------------------------------------------- new bookings

  /** A direct booking: PENDING, of no property, for the days between its dates, without a commission. */
  lemma DirectBookingStarts(s: State, id: Id, dto: NewBooking)
    ensures var r := CreateBooking(s, id, dto);
      && (r.outcome == BadRequest <==> dto.checkOut <= dto.checkIn)
      && (r.outcome == Done <==> dto.checkIn < dto.checkOut && id !in s.bookings
                                 && (dto.profileId.Some? ==> dto.profileId.value in s.catalog.profiles))
      && (r.outcome != Done ==> r.state == s)
      && (r.outcome == Done ==>
            && r.state == s.(bookings := r.state.bookings, history := r.state.history)
            && BookingBecomes(s, r.state, id,
                 Booking(Direct, None, None, None, None, dto.profileId, dto.checkIn, dto.checkOut,
                         dto.checkOut - dto.checkIn, dto.baseAmount, dto.totalAmount, BookingStatus.Pending, false)))
  {}

  /** Another registry row carries this Cloudbeds reservation. */
  predicate Carried(s: State, reservationId: Option<Id>) {
    reservationId.Some? && exists b :: b in s.bookings && s.bookings[b].cloudbedsReservationId == reservationId
  }

  function AtLeastOne(days: int): int {
    if days >= 1 then days else 1
  }

  /** A confirmed Cloudbeds stay: refused without a property or without dates, ignored when its reservation is
      carried, else CONFIRMED for at least one night, with a PENDING commission when an ambassador brought it. */
  lemma CloudbedsStayStarts(s: State, id: Id, dto: CloudbedsStay)
    ensures var r := ConfirmFromCloudbeds(s, id, dto);
      && (r.outcome == BadRequest <==>
            dto.propertyId == None || (dto.dates == None && !Carried(s, dto.reservationId)))
      && (r.outcome == Done ==>
            if Carried(s, dto.reservationId) then r.state == s
            else
              && dto.dates.Some? && dto.propertyId.Some? && id !in s.bookings
              && r.state == s.(bookings := r.state.bookings, history := r.state.history,
                               commissions := r.state.commissions)
              && var (from, to) := dto.dates.value;
                 BookingBecomes(s, r.state, id,
                   Booking(Cloudbeds, dto.propertyId, None, None, dto.reservationId, dto.profileId, from, to,
                           AtLeastOne(to - from), dto.totalAmount, dto.totalAmount, BookingStatus.Confirmed, false)))
      && (r.outcome != Done ==> r.state == s)
  {
    hide ResolveTemporalRate, CommissionAmount;
  }

  lemma CloudbedsStayEarns(s: State, id: Id, dto: CloudbedsStay)
    requires ConfirmFromCloudbeds(s, id, dto).outcome == Done && !Carried(s, dto.reservationId)
    ensures var t := ConfirmFromCloudbeds(s, id, dto).state;
      if dto.profileId == None then t.commissions == s.commissions
      else
        && dto.propertyId.Some? && OnlyCommission(s, t, id) && id in t.commissions
        && StartsCommission(t.commissions[id], dto.profileId,
                            ResolveTemporalRate(s.catalog, dto.propertyId.value, dto.profileId).rate, dto.totalAmount,
                            CommissionStatus.Pending)
  {
    hide ResolveTemporalRate;
  }

  /** A session that is started again is no longer confirmed and keeps its ambassador and its booking. */
  lemma SessionStarts(s: State, sessionId: Id, profileId: Id)
    ensures var r := StartSession(s, sessionId, profileId);
      && (r.outcome == Done <==> sessionId in s.sessions || profileId in s.catalog.profiles)
      && (r.outcome != Done ==> r.state == s)
      && (r.outcome == Done ==>
            r.state == s.(sessions := s.sessions[sessionId :=
              if sessionId in s.sessions
              then AmbassadorSession(s.sessions[sessionId].profileId, false, s.sessions[sessionId].bookingId)
              else AmbassadorSession(profileId, false, None)]))
  {}

  /** A reported stay, when it is registered: PENDING for the ambassador of the session and at least one night, and
      the session is confirmed with it. */
  lemma ReportedStayStarts(s: State, id: Id, sessionId: Id, dto: TrackedStay)
    requires AmbassadorReservation(s, id, sessionId, dto).state != s
    ensures sessionId in s.sessions && id !in s.bookings && !Carried(s, dto.reservationId)
    ensures var t := AmbassadorReservation(s, id, sessionId, dto).state;
      var profileId := s.sessions[sessionId].profileId;
      && profileId in s.catalog.profiles
      && t == s.(bookings := t.bookings, history := t.history, commissions := t.commissions, sessions := t.sessions)
      && BookingBecomes(s, t, id,
           Booking(Cloudbeds, dto.propertyId, None, None, dto.reservationId, Some(profileId), dto.checkIn, dto.checkOut,
                   AtLeastOne(dto.checkOut - dto.checkIn), dto.totalAmount, dto.totalAmount, BookingStatus.Pending,
                   false))
      && t.sessions == s.sessions[sessionId := AmbassadorSession(profileId, true, Some(id))]
  {
    hide ResolveTemporalRate, CommissionAmount;
  }

  /** Its commission waits for validation, at the resolved rate, or at the default of the ambassador without a
      property. */
  lemma ReportedStayEarns(s: State, id: Id, sessionId: Id, dto: TrackedStay)
    requires AmbassadorReservation(s, id, sessionId, dto).state != s
    ensures sessionId in s.sessions && s.sessions[sessionId].profileId in s.catalog.profiles
    ensures var t := AmbassadorReservation(s, id, sessionId, dto).state; var a := s.sessions[sessionId].profileId;
      && OnlyCommission(s, t, id) && id in t.commissions
      && StartsCommission(t.commissions[id], Some(a),
           if dto.propertyId.Some? then ResolveTemporalRate(s.catalog, dto.propertyId.value, Some(a)).rate
           else s.catalog.profiles[a], dto.totalAmount, CommissionStatus.PendingValidation)
  {
    hide ResolveTemporalRate;
  }
}
