/** The service calls that create bookings and move them through their statuses. */
module Bookings {
  import opened Common
  import opened Tables
  import opened Rates

  // ---------------------------------------------------------------- row operations inside a transaction

  function WithStatus(bookings: map<Id, Booking>, id: Id, to: BookingStatus): map<Id, Booking>
    requires id in bookings
  {
    bookings[id := bookings[id].(status := to)]
  }

  /** The history after an entry for the change of booking id from its current status. */
  function Logged(bookings: map<Id, Booking>, history: map<Id, seq<HistoryEntry>>,
                  id: Id, to: BookingStatus, cause: Cause): map<Id, seq<HistoryEntry>>
    requires id in bookings
  {
    history[id := (if id in history then history[id] else []) + [HistoryEntry(Some(bookings[id].status), to, cause)]]
  }

  function FirstEntry(history: map<Id, seq<HistoryEntry>>, id: Id, b: Booking): map<Id, seq<HistoryEntry>> {
    history[id := [HistoryEntry(None, b.status, Service)]]
  }

  /** approveOnFlexBookingConfirmed and approveTrustedTemporalOnConfirm. */
  function ApprovePending(commissions: map<Id, Commission>, id: Id): map<Id, Commission> {
    if id in commissions && commissions[id].status.Pending? && commissions[id].settlementId == None
    then commissions[id := commissions[id].(status := CommissionStatus.Approved)]
    else commissions
  }

  function CancelCommission(commissions: map<Id, Commission>, id: Id): map<Id, Commission> {
    if id in commissions then commissions[id := commissions[id].(status := CommissionStatus.Cancelled)] else commissions
  }

  /** An updateMany on the commission of one booking, PENDING rows only. */
  function RepricePending(commissions: map<Id, Commission>, id: Id, t: Terms): map<Id, Commission> {
    if id in commissions && commissions[id].status.Pending?
    then commissions[id := WithTerms(commissions[id], t)]
    else commissions
  }

  function CancelFlexRow(flex: map<Id, FlexBooking>, id: Option<Id>): map<Id, FlexBooking> {
    if id.Some? && id.value in flex
    then flex[id.value := flex[id.value].(status := FlexStatus.Cancelled)] else flex
  }

  function NewCommission(profileId: Option<Id>, t: Terms, status: CommissionStatus): Commission {
    Commission(profileId, None, t.rate, t.base, CommissionAmount(t.base, t.rate), status)
  }

  predicate KnownProfile(s: State, profileId: Option<Id>) {
    profileId.Some? ==> profileId.value in s.catalog.profiles
  }

  // ---------------------------------------------------------------- flex bookings

  /** Neither deleted nor cancelled: the rows the availability queries look at. */
  predicate Active(f: FlexBooking) {
    !f.deleted && !f.status.Cancelled?
  }

  predicate Overlaps(f: FlexBooking, start: Day, end: Day) {
    f.startDate < end && f.endDate > start
  }

  /** The conflict query: some other active booking of the property meets [start, end). */
  predicate Conflict(flex: map<Id, FlexBooking>, propertyFlexId: Id, start: Day, end: Day, except: Option<Id>) {
    exists g :: g in flex && Some(g) != except && flex[g].propertyFlexId == propertyFlexId
             && Active(flex[g]) && Overlaps(flex[g], start, end)
  }

  function ToBookingStatus(st: FlexStatus): BookingStatus {
    match st
    case Pending => BookingStatus.Pending
    case Confirmed => BookingStatus.Confirmed
    case Cancelled => BookingStatus.Cancelled
    case Completed => BookingStatus.Completed
  }

  function Nights(start: Day, end: Day): int {
    if end - start < 1 then 1 else end - start
  }

  /** What the pricing plans answer for the requested months. */
  datatype FlexQuote = FlexQuote(monthlyRent: Cents, totalAmount: Cents, reservationPayment: Cents)

  datatype NewFlex = NewFlex(
    propertyFlexId: Id, profileId: Option<Id>, startDate: Day, endDate: Day, totalMonths: nat,
    monthlyAmount: Cents, totalAmount: Cents)

  const ONE_UNIT: Cents := 100

  /** quote is None when the pricing plans reject the request. */
  function CreateFlex(s: State, id: Id, bookingId: Id, dto: NewFlex, quote: Option<FlexQuote>): Reply {
    if dto.propertyFlexId !in s.catalog.flexProperties || s.catalog.flexProperties[dto.propertyFlexId].deleted
    then Reply(s, NotFound)
    else if dto.startDate >= dto.endDate then Reply(s, BadRequest)
    else if Conflict(s.flex, dto.propertyFlexId, dto.startDate, dto.endDate, None) then Reply(s, BadRequest)
    else if quote == None then Reply(s, BadRequest)
    else
      var q := quote.value;
      if Abs(dto.monthlyAmount - q.monthlyRent) > ONE_UNIT || Abs(dto.totalAmount - q.totalAmount) > ONE_UNIT
      then Reply(s, BadRequest)
      else if !KnownProfile(s, dto.profileId) then Reply(s, ForeignKeyViolation)
      else if id in s.flex || bookingId in s.bookings then Reply(s, UniqueViolation)
      else
        var f := FlexBooking(dto.propertyFlexId, dto.profileId, dto.startDate, dto.endDate, dto.totalMonths,
                             q.monthlyRent, q.totalAmount,
                             if q.reservationPayment > 0 then Some(q.reservationPayment) else None,
                             FlexStatus.Pending, false);
        var b := Booking(Flex, None, Some(dto.propertyFlexId), Some(id), None, dto.profileId,
                         dto.startDate, dto.endDate, Nights(dto.startDate, dto.endDate),
                         q.totalAmount, q.totalAmount, BookingStatus.Pending, false);
        var t := Terms(ResolveFlexRate(s.catalog, dto.propertyFlexId, dto.profileId).rate, q.monthlyRent);
        Reply(s.(flex := s.flex[id := f],
                 bookings := s.bookings[bookingId := b],
                 registryOf := s.registryOf[id := bookingId],
                 history := FirstEntry(s.history, bookingId, b),
                 commissions := s.commissions[bookingId :=
                   NewCommission(dto.profileId, t, CommissionStatus.Pending)]), Done)
  }

  /** confirmFromPayment: an approved payment confirms a flex booking that is not cancelled. */
  function ConfirmFromPayment(s: State, id: Id, mpPaymentId: Id): Reply {
    if id !in s.flex || s.flex[id].deleted then Reply(s, NotFound)
    else if s.flex[id].status.Confirmed? then Reply(s, Done)
    else if s.flex[id].status.Cancelled? then Reply(s, BadRequest)
    else
      var flex := s.flex[id := s.flex[id].(status := FlexStatus.Confirmed)];
      if id !in s.registryOf || s.registryOf[id] !in s.bookings
         || s.bookings[s.registryOf[id]].status.Confirmed?
      then Reply(s.(flex := flex), Done)
      else
        var r := s.registryOf[id];
        Reply(s.(flex := flex,
                 bookings := WithStatus(s.bookings, r, BookingStatus.Confirmed),
                 history := Logged(s.bookings, s.history, r, BookingStatus.Confirmed, PaymentApproved(mpPaymentId)),
                 commissions := ApprovePending(s.commissions, r)), Done)
  }

  datatype FlexChange = FlexChange(
    status: Option<FlexStatus>, startDate: Option<Day>, endDate: Option<Day>,
    totalMonths: Option<nat>, monthlyAmount: Option<Cents>, totalAmount: Option<Cents>)

  predicate Redated(dto: FlexChange) {
    dto.startDate.Some? || dto.endDate.Some?
  }

  predicate Repriced(dto: FlexChange) {
    dto.totalAmount.Some? || dto.monthlyAmount.Some? || dto.totalMonths.Some?
  }

  predicate IsCancellation(dto: FlexChange) {
    dto.status == Some(FlexStatus.Cancelled)
  }

  /** The flex row after the update transaction; a cancellation does not touch the status here. */
  function ChangedFlex(f: FlexBooking, dto: FlexChange): FlexBooking {
    var monthly := Or(dto.monthlyAmount, f.monthlyAmount);
    var months := Or(dto.totalMonths, f.totalMonths);
    f.(status := if IsCancellation(dto) then f.status else Or(dto.status, f.status),
       startDate := Or(dto.startDate, f.startDate),
       endDate := Or(dto.endDate, f.endDate),
       totalMonths := months,
       monthlyAmount := monthly,
       totalAmount := if Repriced(dto) then Or(dto.totalAmount, monthly * months) else f.totalAmount)
  }

  /** The registry row after the update transaction, before its status follows. */
  function ChangedRegistry(b: Booking, f: FlexBooking, dto: FlexChange): Booking {
    b.(checkIn := Or(dto.startDate, b.checkIn),
       checkOut := Or(dto.endDate, b.checkOut),
       totalNights := if Redated(dto) then Nights(f.startDate, f.endDate) else b.totalNights,
       baseAmount := if Repriced(dto) then f.totalAmount else b.baseAmount,
       totalAmount := if Repriced(dto) then f.totalAmount else b.totalAmount)
  }

  /** The status the registry must take, when it follows a flex status that is not a cancellation. */
  function Followed(b: Booking, dto: FlexChange): BookingStatus {
    if dto.status.Some? && !IsCancellation(dto) then ToBookingStatus(dto.status.value) else b.status
  }

  /** The update transaction, once dates and conflicts are checked; r is the registry row of the flex booking. */
  function UpdateRows(s: State, id: Id, dto: FlexChange, r: Id): State
    requires id in s.flex && r in s.bookings
  {
    var f := ChangedFlex(s.flex[id], dto);
    var b := ChangedRegistry(s.bookings[r], f, dto);
    var to := Followed(b, dto);
    var t := Terms(ResolveFlexRate(s.catalog, f.propertyFlexId, b.profileId).rate, f.monthlyAmount);
    var commissions := if Repriced(dto) then RepricePending(s.commissions, r, t) else s.commissions;
    s.(flex := s.flex[id := f],
       bookings := s.bookings[r := b.(status := to)],
       history := if to == b.status then s.history else Logged(s.bookings, s.history, r, to, Service),
       commissions := if to != b.status && to.Confirmed? then ApprovePending(commissions, r) else commissions)
  }

  function UpdateFlex(s: State, id: Id, dto: FlexChange): Reply {
    if id !in s.flex || s.flex[id].deleted then Reply(s, NotFound)
    else
      var f := ChangedFlex(s.flex[id], dto);
      if f.startDate >= f.endDate then Reply(s, BadRequest)
      else if Redated(dto) && Conflict(s.flex, f.propertyFlexId, f.startDate, f.endDate, Some(id))
      then Reply(s, BadRequest)
      else if id !in s.registryOf || s.registryOf[id] !in s.bookings then Reply(s.(flex := s.flex[id := f]), Done)
      else
        var r := s.registryOf[id];
        var s1 := UpdateRows(s, id, dto, r);
        if IsCancellation(dto) && !s.bookings[r].status.Cancelled? then CancelBooking(s1, r)
        else Reply(s1, Done)
  }

  function DeleteFlexRow(flex: map<Id, FlexBooking>, id: Id): map<Id, FlexBooking> {
    if id in flex then flex[id := flex[id].(deleted := true)] else flex
  }

  function DeleteBookingRow(bookings: map<Id, Booking>, id: Id): map<Id, Booking> {
    if id in bookings then bookings[id := bookings[id].(deleted := true)] else bookings
  }

  function DeleteFlex(s: State, id: Id): Reply {
    if id !in s.flex || s.flex[id].deleted then Reply(s, NotFound)
    else if id !in s.registryOf || s.registryOf[id] !in s.bookings
    then Reply(s.(flex := DeleteFlexRow(s.flex, id)), Done)
    else
      var r := s.registryOf[id];
      var c := if s.bookings[r].status.Cancelled? then Reply(s, Done) else CancelBooking(s, r);
      if c.outcome != Done then c
      else
        Reply(c.state.(flex := DeleteFlexRow(c.state.flex, id),
                      bookings := DeleteBookingRow(c.state.bookings, r)), Done)
  }

  // ---------------------------------------------------------------- the registry

  datatype NewBooking = NewBooking(
    profileId: Option<Id>, checkIn: Day, checkOut: Day, baseAmount: Cents, totalAmount: Cents)

  /** Direct bookings and converted leads: a unit, no property, no commission. */
  function CreateBooking(s: State, id: Id, dto: NewBooking): Reply {
    if dto.checkOut - dto.checkIn <= 0 then Reply(s, BadRequest)
    else if !KnownProfile(s, dto.profileId) then Reply(s, ForeignKeyViolation)
    else if id in s.bookings then Reply(s, UniqueViolation)
    else
      var b := Booking(Direct, None, None, None, None, dto.profileId, dto.checkIn, dto.checkOut,
                       dto.checkOut - dto.checkIn, dto.baseAmount, dto.totalAmount, BookingStatus.Pending, false);
      Reply(s.(bookings := s.bookings[id := b], history := FirstEntry(s.history, id, b)), Done)
  }

  function ConfirmBooking(s: State, id: Id): Reply {
    if id !in s.bookings || s.bookings[id].deleted then Reply(s, NotFound)
    else if !s.bookings[id].status.Pending? then Reply(s, BadRequest)
    else
      Reply(s.(bookings := WithStatus(s.bookings, id, BookingStatus.Confirmed),
               history := Logged(s.bookings, s.history, id, BookingStatus.Confirmed, Service),
               commissions := ApprovePending(CommissionOnConfirm(s, id), id)), Done)
  }

  /** Confirming a booking of a property by an ambassador creates its commission when there is none. */
  function CommissionOnConfirm(s: State, id: Id): map<Id, Commission>
    requires id in s.bookings
  {
    var b := s.bookings[id];
    if id !in s.commissions && b.profileId.Some? && b.propertyId.Some? then
      var t := Terms(ResolveTemporalRate(s.catalog, b.propertyId.value, b.profileId).rate, b.totalAmount);
      s.commissions[id := NewCommission(b.profileId, t, CommissionStatus.Pending)]
    else s.commissions
  }

  /** executeCancellation: any commission is cancelled with the booking, whatever its status. */
  function CancelBooking(s: State, id: Id): Reply {
    if id !in s.bookings || s.bookings[id].deleted then Reply(s, NotFound)
    else if s.bookings[id].status.Cancelled? || s.bookings[id].status.Completed? then Reply(s, BadRequest)
    else
      Reply(s.(flex := CancelFlexRow(s.flex, s.bookings[id].flexBookingId),
               bookings := WithStatus(s.bookings, id, BookingStatus.Cancelled),
               history := Logged(s.bookings, s.history, id, BookingStatus.Cancelled, Service),
               commissions := CancelCommission(s.commissions, id)), Done)
  }

  function CompleteBooking(s: State, id: Id): Reply {
    if id !in s.bookings || s.bookings[id].deleted then Reply(s, NotFound)
    else if !s.bookings[id].status.Confirmed? then Reply(s, BadRequest)
    else
      Reply(s.(bookings := WithStatus(s.bookings, id, BookingStatus.Completed),
               history := Logged(s.bookings, s.history, id, BookingStatus.Completed, Service)), Done)
  }

  function UpdateBooking(s: State, id: Id, checkIn: Option<Day>, checkOut: Option<Day>): Reply {
    if id !in s.bookings || s.bookings[id].deleted then Reply(s, NotFound)
    else
      var b := s.bookings[id];
      if b.source == Flex || b.flexBookingId.Some? || b.status.Cancelled? then Reply(s, BadRequest)
      else
        var i, o := Or(checkIn, b.checkIn), Or(checkOut, b.checkOut);
        if i >= o then Reply(s, BadRequest)
        else
          var nights := if checkIn.Some? || checkOut.Some? then Nights(i, o) else b.totalNights;
          Reply(s.(bookings := s.bookings[id := b.(checkIn := i, checkOut := o, totalNights := nights)]), Done)
  }

  // ---------------------------------------------------------------- Cloudbeds

  datatype CloudbedsStay = CloudbedsStay(
    propertyId: Option<Id>, reservationId: Option<Id>, profileId: Option<Id>,
    dates: Option<(Day, Day)>, totalAmount: Cents)

  predicate Registered(s: State, reservationId: Option<Id>) {
    reservationId.Some? && exists b :: b in s.bookings && s.bookings[b].cloudbedsReservationId == reservationId
  }

  /** confirmFromCloudbeds, once the intent and the confirmation page are resolved. */
  function ConfirmFromCloudbeds(s: State, id: Id, dto: CloudbedsStay): Reply {
    if dto.propertyId == None then Reply(s, BadRequest)
    else if Registered(s, dto.reservationId) then Reply(s, Done)
    else if dto.dates == None then Reply(s, BadRequest)
    else if !KnownProfile(s, dto.profileId) then Reply(s, ForeignKeyViolation)
    else if id in s.bookings then Reply(s, UniqueViolation)
    else
      var (i, o) := dto.dates.value;
      var b := Booking(Cloudbeds, dto.propertyId, None, None, dto.reservationId, dto.profileId,
                       i, o, Nights(i, o), dto.totalAmount, dto.totalAmount, BookingStatus.Confirmed, false);
      var t := Terms(ResolveTemporalRate(s.catalog, dto.propertyId.value, dto.profileId).rate, dto.totalAmount);
      Reply(s.(bookings := s.bookings[id := b],
               history := FirstEntry(s.history, id, b),
               commissions := if dto.profileId == None then s.commissions
                 else s.commissions[id := NewCommission(dto.profileId, t, CommissionStatus.Pending)]), Done)
  }

  datatype TrackedStay = TrackedStay(
    propertyId: Option<Id>, reservationId: Option<Id>, checkIn: Day, checkOut: Day, totalAmount: Cents)

  /** createSession of the ambassadors service: a session that exists is started again and stays whose it was. */
  function StartSession(s: State, sessionId: Id, profileId: Id): Reply {
    if sessionId in s.sessions
    then Reply(s.(sessions := s.sessions[sessionId := s.sessions[sessionId].(confirmed := false)]), Done)
    else if profileId !in s.catalog.profiles then Reply(s, ForeignKeyViolation)
    else Reply(s.(sessions := s.sessions[sessionId := AmbassadorSession(profileId, false, None)]), Done)
  }

  /** The report is a repetition: of its reservation, or of its session when it names no reservation. */
  predicate Reported(s: State, sessionId: Id, reservationId: Option<Id>)
    requires sessionId in s.sessions
  {
    if reservationId.Some? then Registered(s, reservationId)
    else s.sessions[sessionId].confirmed && s.sessions[sessionId].bookingId.Some?
  }

  /** handleCloudbedsReservation, once expiry and token of the session are accepted and the payload is parsed. */
  function AmbassadorReservation(s: State, id: Id, sessionId: Id, dto: TrackedStay): Reply {
    if sessionId !in s.sessions || Reported(s, sessionId, dto.reservationId) then Reply(s, Done)
    else
      var profileId := s.sessions[sessionId].profileId;
      if profileId !in s.catalog.profiles then Reply(s, ForeignKeyViolation)
      else if id in s.bookings then Reply(s, UniqueViolation)
      else
        var b := Booking(Cloudbeds, dto.propertyId, None, None, dto.reservationId, Some(profileId),
                         dto.checkIn, dto.checkOut, Nights(dto.checkIn, dto.checkOut),
                         dto.totalAmount, dto.totalAmount, BookingStatus.Pending, false);
        var rate := if dto.propertyId.Some?
                    then ResolveTemporalRate(s.catalog, dto.propertyId.value, Some(profileId)).rate
                    else s.catalog.profiles[profileId];
        var terms := Terms(rate, dto.totalAmount);
        Reply(s.(bookings := s.bookings[id := b],
                 history := FirstEntry(s.history, id, b),
                 commissions := s.commissions[id :=
                   NewCommission(Some(profileId), terms, CommissionStatus.PendingValidation)],
                 sessions := s.sessions[sessionId := AmbassadorSession(profileId, true, Some(id))]), Done)
  }
}
