/** The rows of the booking, commission, settlement and payment tables, and the tables as one value. */
module Tables {
  import opened Common

  type Id = nat       // a uuid
  type Day = int      // a DATE column, counted in days
  type Cents = int    // a NUMERIC(_, 2) amount, counted in hundredths
  type Rate = int     // a NUMERIC(5, 2) percentage, counted in hundredths of one percent

  datatype FlexStatus = Pending | Confirmed | Cancelled | Completed
  datatype BookingStatus = Pending | Confirmed | Cancelled | Completed | NoShow
  datatype BookingSource = Cloudbeds | Flex | Direct
  datatype CommissionStatus = Pending | PendingValidation | Approved | Paid | Cancelled
  datatype SettlementStatus = Draft | Paid | Cancelled
  datatype PaymentStatus = Pending | Approved | Rejected | Cancelled | Refunded

  /** A rentable property, flex or temporal, as far as commission rates read it. */
  datatype RentalProperty = RentalProperty(commissionRate: Option<Rate>, deleted: bool)

  /** Everything the commission rate cascade reads. Overrides are keyed by (ambassador, property). */
  datatype Catalog = Catalog(
    flexProperties: map<Id, RentalProperty>,
    properties: map<Id, RentalProperty>,
    profiles: map<Id, Rate>,
    flexOverrides: map<(Id, Id), Rate>,
    propertyOverrides: map<(Id, Id), Rate>)

  datatype FlexBooking = FlexBooking(
    propertyFlexId: Id,
    profileId: Option<Id>,
    startDate: Day,
    endDate: Day,
    totalMonths: nat,
    monthlyAmount: Cents,
    totalAmount: Cents,
    reservationPayment: Option<Cents>,
    status: FlexStatus,
    deleted: bool)

  /** A row of the unified registry; flex stays are registered here too. */
  datatype Booking = Booking(
    source: BookingSource,
    propertyId: Option<Id>,
    propertyFlexId: Option<Id>,
    flexBookingId: Option<Id>,
    cloudbedsReservationId: Option<Id>,
    profileId: Option<Id>,
    checkIn: Day,
    checkOut: Day,
    totalNights: int,
    baseAmount: Cents,
    totalAmount: Cents,
    status: BookingStatus,
    deleted: bool)

  /** Who caused a status change: a person or job, or an approved Mercado Pago payment. */
  datatype Cause = Service | PaymentApproved(mpPaymentId: Id)

  datatype HistoryEntry = HistoryEntry(from: Option<BookingStatus>, to: BookingStatus, cause: Cause)

  /** A booking has at most one commission, so the commission table is keyed by booking id. */
  datatype Commission = Commission(
    profileId: Option<Id>,
    settlementId: Option<Id>,
    rate: Rate,
    baseAmount: Cents,
    amount: Cents,
    status: CommissionStatus)

  datatype Settlement = Settlement(profileId: Id, totalAmount: Cents, status: SettlementStatus)

  /** checkoutAt is when the checkout link of the row was made, for rows that have one. */
  datatype Payment = Payment(
    flexBookingId: Id,
    status: PaymentStatus,
    amount: Cents,
    mpPaymentId: Option<Id>,
    checkoutAt: Option<int>)

  /** An ambassador's booking session: whose it is, whether it is CONFIRMED, and the booking last made through it. */
  datatype AmbassadorSession = AmbassadorSession(profileId: Id, confirmed: bool, bookingId: Option<Id>)

  /** registryOf is the unique index of the registry on flex_booking_id. */
  datatype State = State(
    catalog: Catalog,
    flex: map<Id, FlexBooking>,
    bookings: map<Id, Booking>,
    registryOf: map<Id, Id>,
    history: map<Id, seq<HistoryEntry>>,
    commissions: map<Id, Commission>,
    settlements: map<Id, Settlement>,
    payments: map<Id, Payment>,
    sessions: map<Id, AmbassadorSession>)

  datatype Outcome = Done | NotFound | BadRequest | UniqueViolation | ForeignKeyViolation | Unavailable

  /** What one service call answers, and the tables it leaves behind, also when it throws. */
  datatype Reply = Reply(state: State, outcome: Outcome)
}
