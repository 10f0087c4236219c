/** Runs from an empty book after which an intended property of flex bookings fails; the lemma that says exactly when it
    fails stands in the module of the property. */
module Counterexamples {
  import opened Common
  import opened Tables
  import opened Rates
  import opened Bookings
  import opened Payments
  import opened Steps
  import opened Occupancy
  import opened Mirror
  import opened Notices
  import opened Reconciliation

  import Dashboards
  import Forecast

  const RENT: Cents := 50000
  const DEPOSIT: Cents := 20000

  /** One flex property at 10 %; no ambassadors. */
  function Catalogue(): Catalog {
    Catalog(map[1 := RentalProperty(Some(1000), false)], map[], map[], map[], map[])
  }

  function Empty(): State {
    State(Catalogue(), map[], map[], map[], map[], map[], map[], map[], map[])
  }

  function Stay(start: Day, end: Day): NewFlex {
    NewFlex(1, None, start, end, 1, RENT, RENT)
  }

  function Only(status: FlexStatus): FlexChange {
    FlexChange(Some(status), None, None, None, None, None)
  }

  function Quoted(): Option<FlexQuote> {
    Some(FlexQuote(RENT, RENT, DEPOSIT))
  }

  function Row(start: Day, end: Day, status: FlexStatus): FlexBooking {
    FlexBooking(1, None, start, end, 1, RENT, RENT, Some(DEPOSIT), status, false)
  }

  /** Day 0 to day 30, as booking 1 with registry row 11. */
  function Book(): Step {
    CreateFlexStep(1, 11, Stay(0, 30), Quoted())
  }

  const MADE := HistoryEntry(None, BookingStatus.Pending, Service)

  function Moved(from: BookingStatus, to: BookingStatus): HistoryEntry {
    HistoryEntry(Some(from), to, Service)
  }

  /** Only that stay. */
  function Lone(status: FlexStatus, log: seq<HistoryEntry>,
                commission: CommissionStatus, payments: map<Id, Payment>): State
    requires log != []
  {
    Empty().(flex := map[1 := Row(0, 30, status)],
             bookings := map[11 := Booking(Flex, None, Some(1), Some(1), None, None, 0, 30, 30, RENT, RENT,
                                           log[|log| - 1].to, false)],
             registryOf := map[1 := 11],
             history := map[11 := log],
             commissions := map[11 := Commission(None, None, 1000, RENT, 5000, commission)],
             payments := payments)
  }

  function Booked(): State {
    Lone(FlexStatus.Pending, [MADE], CommissionStatus.Pending, map[])
  }

  lemma BookingMade()
    ensures CreateFlex(Empty(), 1, 11, Stay(0, 30), Quoted()).state == Booked()
  {
    assert CommissionAmount(RENT, 1000) == 5000;
  }

  lemma RunBook()
    ensures Run(Empty(), [Book()]) == Booked()
  {
    hide Run, CreateFlex, Booked;
    BookingMade();
    RunOne(Empty(), Book());
  }

  function CalledOff(): State {
    Lone(FlexStatus.Cancelled, [MADE, Moved(BookingStatus.Pending, BookingStatus.Cancelled)],
         CommissionStatus.Cancelled,
         map[])
  }

  lemma CallingOff()
    ensures UpdateFlex(Booked(), 1, Only(FlexStatus.Cancelled)) == Reply(CalledOff(), Done)
  {
    var s := Booked();
    assert UpdateRows(s, 1, Only(FlexStatus.Cancelled), 11) == s;
    var entry := Moved(BookingStatus.Pending, BookingStatus.Cancelled);
    assert [MADE] + [entry] == [MADE, entry];
  }

  lemma RunCallOff()
    ensures Run(Empty(), [Book(), UpdateFlexStep(1, Only(FlexStatus.Cancelled))]) == CalledOff()
  {
    hide Run, UpdateFlex, Booked, CalledOff, Book;
    RunBook();
    CallingOff();
    RunThen(Empty(), [Book()], UpdateFlexStep(1, Only(FlexStatus.Cancelled)));
    assert [Book()] + [UpdateFlexStep(1, Only(FlexStatus.Cancelled))]
        == [Book(), UpdateFlexStep(1, Only(FlexStatus.Cancelled))];
  }

  // ---------------------------------------------------------------- two stays on the same days

  lemma Rebooking()
    ensures CreateFlex(CalledOff(), 2, 12, Stay(10, 40), Quoted()).state.flex
         == map[1 := Row(0, 30, FlexStatus.Cancelled), 2 := Row(10, 40, FlexStatus.Pending)]
  {}

  lemma Reviving(s: State)
    requires s.flex == map[1 := Row(0, 30, FlexStatus.Cancelled), 2 := Row(10, 40, FlexStatus.Pending)]
    ensures UpdateFlex(s, 1, Only(FlexStatus.Pending)).state.flex
         == map[1 := Row(0, 30, FlexStatus.Pending), 2 := Row(10, 40, FlexStatus.Pending)]
  {
    hide ResolveFlexRate, RepricePending, ApprovePending, Logged;
  }

  /** A cancelled and a pending stay on the same days do not overlap; two pending ones do. */
  lemma TwoStays(status: FlexStatus)
    ensures NoOverlap(map[1 := Row(0, 30, status), 2 := Row(10, 40, FlexStatus.Pending)]) <==> status.Cancelled?
  {
    var flex := map[1 := Row(0, 30, status), 2 := Row(10, 40, FlexStatus.Pending)];
    assert Apart(flex[1], flex[2]) <==> status.Cancelled?;
  }

  /** Book, cancel, let somebody else book the days, and set the cancelled booking back to pending without a date. */
  lemma RevivedStayOverlaps()
    ensures Initial(Empty())
    ensures var s := Run(Empty(), [Book(), UpdateFlexStep(1, Only(FlexStatus.Cancelled))]
                                  + [CreateFlexStep(2, 12, Stay(10, 40), Quoted())]);
      NoOverlap(s.flex) && !NoOverlap(Next(s, UpdateFlexStep(1, Only(FlexStatus.Pending))).flex)
  {
    hide Run, CreateFlex, UpdateFlex, NoOverlap, CalledOff, Book;
    RunCallOff();
    Rebooking();
    TwoStays(FlexStatus.Cancelled);
    TwoStays(FlexStatus.Pending);
    var first := [Book(), UpdateFlexStep(1, Only(FlexStatus.Cancelled))];
    RunThen(Empty(), first, CreateFlexStep(2, 12, Stay(10, 40), Quoted()));
    Reviving(Run(Empty(), first + [CreateFlexStep(2, 12, Stay(10, 40), Quoted())]));
  }

  // ---------------------------------------------------------------- registry and flex booking apart

  function Confirmed(): State {
    Lone(FlexStatus.Pending, [MADE, Moved(BookingStatus.Pending, BookingStatus.Confirmed)],
         CommissionStatus.Approved, map[])
  }

  lemma Confirming()
    ensures ConfirmBooking(Booked(), 11) == Reply(Confirmed(), Done)
  {
    var entry := Moved(BookingStatus.Pending, BookingStatus.Confirmed);
    assert [MADE] + [entry] == [MADE, entry];
  }

  lemma LoneMirrors(status: FlexStatus, log: seq<HistoryEntry>, commission: CommissionStatus,
                    payments: map<Id, Payment>)
    requires log != []
    ensures Mirrored(Lone(status, log, commission, payments)) <==> log[|log| - 1].to == ToBookingStatus(status)
  {
    var s := Lone(status, log, commission, payments);
    assert Mirrors(s.flex[1], s.bookings[s.registryOf[1]]) <==> log[|log| - 1].to == ToBookingStatus(status);
  }

  /** A direct confirmation of the registry row of a flex booking leaves the flex booking pending. */
  lemma DirectConfirmationLeaks()
    ensures Initial(Empty())
    ensures var s := Run(Empty(), [Book()]);
      && Mirrored(s) && Apply(s, ConfirmBookingStep(11)).outcome == Done
      && !Mirrored(Next(s, ConfirmBookingStep(11)))
  {
    hide Run, ConfirmBooking, Mirrored, Lone, Book;
    RunBook();
    Confirming();
    LoneMirrors(FlexStatus.Pending, [MADE], CommissionStatus.Pending, map[]);
    LoneMirrors(FlexStatus.Pending, [MADE, Moved(BookingStatus.Pending, BookingStatus.Confirmed)],
                CommissionStatus.Approved, map[]);
  }

  // ---------------------------------------------------------------- a late payment

  function Completed(): State {
    Lone(FlexStatus.Completed, [MADE, Moved(BookingStatus.Pending, BookingStatus.Completed)],
         CommissionStatus.Pending, map[])
  }

  lemma Completing()
    ensures UpdateFlex(Booked(), 1, Only(FlexStatus.Completed)) == Reply(Completed(), Done)
  {
    var entry := Moved(BookingStatus.Pending, BookingStatus.Completed);
    assert [MADE] + [entry] == [MADE, entry];
  }

  /** Mercado Pago reports the deposit of booking 1 as paid. */
  function DepositPaid(): Step {
    NoticeStep(21, Notice(99, MpStatus.Approved, Some(1), DEPOSIT))
  }

  lemma Recording(s: State)
    requires s.payments == map[] && 1 in s.flex && s.flex[1].reservationPayment == Some(DEPOSIT)
    ensures RecordApproved(s, 1, 21, DepositPaid().notice)
         == Reply(s.(payments := map[21 := Payment(1, PaymentStatus.Approved, DEPOSIT, Some(99), None)]), Done)
  {
    assert PendingRow(s.payments, 1) == None;
  }

  lemma Reopening()
    ensures ConfirmApproved(Completed(), 21, DepositPaid().notice).state.flex
         == map[1 := Row(0, 30, FlexStatus.Confirmed)]
  {
    Recording(Completed());
    hide RecordApproved, Logged, ApprovePending;
  }

  /** A deposit that arrives after the stay was completed takes the booking back to confirmed. */
  lemma LatePaymentReopens()
    ensures Initial(Empty())
    ensures var s := Run(Empty(), [Book()] + [UpdateFlexStep(1, Only(FlexStatus.Completed))]);
      var t := Next(s, DepositPaid());
      1 in s.flex && s.flex[1].status.Completed? && 1 in t.flex && t.flex[1].status.Confirmed?
  {
    hide Run, UpdateFlex, Booked, ConfirmApproved, Book;
    RunBook();
    Completing();
    Reopening();
    RunThen(Empty(), [Book()], UpdateFlexStep(1, Only(FlexStatus.Completed)));
  }

  // ---------------------------------------------------------------- calls that fail halfway

  /** A deposit for a cancelled booking is rejected, and recorded as approved all the same. */
  lemma PaymentOfCancelledIsRecorded()
    ensures Initial(Empty())
    ensures var s := Run(Empty(), [Book(), UpdateFlexStep(1, Only(FlexStatus.Cancelled))]);
      var r := Apply(s, DepositPaid());
      && r.outcome == BadRequest && s.payments == map[]
      && r.state.payments == map[21 := Payment(1, PaymentStatus.Approved, DEPOSIT, Some(99), None)]
  {
    RunCallOff();
    hide Run, RecordApproved, Book;
    Recording(CalledOff());
  }

  function LinkSent(): State {
    Lone(FlexStatus.Pending, [MADE], CommissionStatus.Pending,
         map[21 := Payment(1, PaymentStatus.Pending, DEPOSIT, None, Some(0))])
  }

  lemma Linking()
    ensures CreateCheckout(Booked(), 1, 21, 0, -1, true) == Reply(LinkSent(), Done)
  {}

  lemma LosingLink()
    ensures var r := CreateCheckout(LinkSent(), 1, 22, 100, 50, false);
      && r.outcome == Unavailable && r.state.payments.Keys == {21}
      && r.state.payments[21] == Payment(1, PaymentStatus.Cancelled, DEPOSIT, None, Some(0))
  {
    var s := LinkSent();
    assert PendingFor(s.payments, 21, 1) && !Reusable(s.payments, 1, 50);
  }

  /** A payment link that has grown old is withdrawn although the provider cannot make the new one. */
  lemma CheckoutLosesLink()
    ensures Initial(Empty())
    ensures var s := Run(Empty(), [Book()] + [CreateCheckoutStep(1, 21, 0, -1, true)]);
      var r := Apply(s, CreateCheckoutStep(1, 22, 100, 50, false));
      && r.outcome == Unavailable
      && 21 in s.payments && s.payments[21].status.Pending?
      && 21 in r.state.payments && r.state.payments[21].status.Cancelled?
  {
    hide Run, CreateCheckout, Booked, Book;
    RunBook();
    Linking();
    LosingLink();
    RunThen(Empty(), [Book()], CreateCheckoutStep(1, 21, 0, -1, true));
  }

  // ---------------------------------------------------------------- a payment that bounces

  /** The payment link of Linking was used for payment 99, which is still on its way. */
  function OnItsWay(): State {
    Lone(FlexStatus.Pending, [MADE], CommissionStatus.Pending,
         map[21 := Payment(1, PaymentStatus.Pending, DEPOSIT, Some(99), Some(0))])
  }

  lemma Claiming()
    ensures ProcessNotice(LinkSent(), 30, Notice(99, MpStatus.Pending, Some(1), DEPOSIT)) == Reply(OnItsWay(), Done)
  {
    assert Unclaimed(LinkSent().payments, 21, 1);
  }

  /** The guest asked for another link meanwhile. */
  function Relinked(): State {
    Lone(FlexStatus.Pending, [MADE], CommissionStatus.Pending,
         map[21 := Payment(1, PaymentStatus.Cancelled, DEPOSIT, Some(99), Some(0)),
             22 := Payment(1, PaymentStatus.Pending, DEPOSIT, None, Some(100))])
  }

  lemma Relinking()
    ensures CreateCheckout(OnItsWay(), 1, 22, 100, 50, true) == Reply(Relinked(), Done)
  {
    assert PendingFor(OnItsWay().payments, 21, 1) && !Reusable(OnItsWay().payments, 1, 50);
  }

  function TwoLinks(): seq<Step> {
    [Book(), CreateCheckoutStep(1, 21, 0, -1, true), NoticeStep(30, Notice(99, MpStatus.Pending, Some(1), DEPOSIT))]
    + [CreateCheckoutStep(1, 22, 100, 50, true)]
  }

  lemma RunTwoLinks()
    ensures Run(Empty(), TwoLinks()) == Relinked()
  {
    hide Run, CreateFlex, CreateCheckout, ProcessNotice, Booked, LinkSent, OnItsWay, Relinked;
    BookingMade();
    Linking();
    Claiming();
    Relinking();
    RunThree(Empty(), Book(), CreateCheckoutStep(1, 21, 0, -1, true),
             NoticeStep(30, Notice(99, MpStatus.Pending, Some(1), DEPOSIT)));
    RunThen(Empty(), [Book(), CreateCheckoutStep(1, 21, 0, -1, true),
                      NoticeStep(30, Notice(99, MpStatus.Pending, Some(1), DEPOSIT))],
            CreateCheckoutStep(1, 22, 100, 50, true));
  }

  lemma Taken(payments: map<Id, Payment>)
    requires 21 in payments && payments[21].mpPaymentId == Some(99)
    ensures forall p: Option<Id> :: p != Some(21) ==> MpTaken(payments, 99, p)
  {}

  /** The payment goes through: it names a live pending booking and is for the amount due, yet it cannot be recorded,
      because the row of the withdrawn link keeps it and the new link waits for another. */
  lemma Bouncing()
    ensures ConfirmApproved(Relinked(), 21, DepositPaid().notice) == Reply(Relinked(), UniqueViolation)
  {
    var s := Relinked();
    assert PendingFor(s.payments, 22, 1);
    assert !PendingFor(s.payments, 21, 1);
    assert PendingRow(s.payments, 1) == Some(22);
    Taken(s.payments);
  }

  lemma ApprovedPaymentBounces()
    ensures Initial(Empty())
    ensures var s := Run(Empty(), TwoLinks());
      && 1 in s.flex && s.flex[1].status.Pending? && AmountMatches(s.flex[1], DepositPaid().notice)
      && Apply(s, DepositPaid()) == Reply(s, UniqueViolation)
  {
    RunTwoLinks();
    Bouncing();
    hide Run, ConfirmApproved, TwoLinks;
  }

  function Refused(): Notice {
    Notice(98, MpStatus.Rejected, Some(1), DEPOSIT)
  }

  lemma Refusing()
    ensures var r := ProcessNotice(Relinked(), 31, Refused());
      && r.outcome == Done && r.state == Relinked().(payments := r.state.payments)
      && r.state.payments == map[21 := Payment(1, PaymentStatus.Cancelled, DEPOSIT, Some(99), Some(0)),
                                 22 := Payment(1, PaymentStatus.Rejected, DEPOSIT, Some(98), Some(100))]
  {
    assert Unclaimed(Relinked().payments, 22, 1);
  }

  lemma BouncingAgain(s: State)
    requires s == Relinked().(payments := s.payments)
    requires s.payments == map[21 := Payment(1, PaymentStatus.Cancelled, DEPOSIT, Some(99), Some(0)),
                               22 := Payment(1, PaymentStatus.Rejected, DEPOSIT, Some(98), Some(100))]
    ensures ProcessNotice(s, 21, DepositPaid().notice) == Reply(s, UniqueViolation)
  {
    assert PendingRow(s.payments, 1) == None;
    Taken(s.payments);
  }

  /** A sync that finds a refused payment and that one fails, with the refusal already stored. */
  lemma SyncFailsHalfway()
    ensures Initial(Empty())
    ensures var s := Run(Empty(), TwoLinks());
      var r := Sync(s, [Arrival(31, Refused()), Arrival(21, DepositPaid().notice)]);
      && r.outcome == UniqueViolation
      && 22 in s.payments && s.payments[22].status.Pending?
      && 22 in r.state.payments && r.state.payments[22].status.Rejected?
  {
    hide Run, TwoLinks, ProcessNotice;
    RunTwoLinks();
    Refusing();
    BouncingAgain(ProcessNotice(Relinked(), 31, Refused()).state);
    var arrivals := [Arrival(31, Refused()), Arrival(21, DepositPaid().notice)];
    assert arrivals[1..] == [Arrival(21, DepositPaid().notice)];
  }

  // ---------------------------------------------------------------- a refused cancellation

  function Over(): State {
    Lone(FlexStatus.Pending, [MADE, Moved(BookingStatus.Pending, BookingStatus.Confirmed),
                              Moved(BookingStatus.Confirmed, BookingStatus.Completed)],
         CommissionStatus.Approved, map[])
  }

  lemma Ending()
    ensures CompleteBooking(Confirmed(), 11) == Reply(Over(), Done)
  {
    var log := Confirmed().history[11];
    assert log + [Moved(BookingStatus.Confirmed, BookingStatus.Completed)] == Over().history[11];
  }

  /** The booking for two months, and cancelled. */
  function LongerAndCancelled(): FlexChange {
    FlexChange(Some(FlexStatus.Cancelled), None, None, Some(2), None, None)
  }

  lemma UpdatingOver()
    ensures var r := UpdateFlex(Over(), 1, LongerAndCancelled());
      r.outcome == BadRequest
      && r.state.flex == map[1 := Row(0, 30, FlexStatus.Pending).(totalMonths := 2, totalAmount := 2 * RENT)]
  {
    hide ResolveFlexRate, RepricePending;
  }

  lemma RunOver()
    ensures Run(Empty(), [Book(), ConfirmBookingStep(11), CompleteBookingStep(11)]) == Over()
  {
    hide Run, CreateFlex, ConfirmBooking, CompleteBooking, Booked, Confirmed, Over;
    BookingMade();
    Confirming();
    Ending();
    RunThree(Empty(), Book(), ConfirmBookingStep(11), CompleteBookingStep(11));
  }

  /** An update that also cancels is stored although the cancellation is refused, because the registry row has been
      completed meanwhile. */
  lemma RefusedCancellationIsStored()
    ensures Initial(Empty())
    ensures var s := Run(Empty(), [Book(), ConfirmBookingStep(11), CompleteBookingStep(11)]);
      var r := Apply(s, UpdateFlexStep(1, LongerAndCancelled()));
      && r.outcome == BadRequest && 1 in s.flex && s.flex[1].totalAmount == RENT
      && 1 in r.state.flex && r.state.flex[1].totalAmount == 2 * RENT
  {
    hide Run, UpdateFlex, Book;
    RunOver();
    UpdatingOver();
  }

  // ---------------------------------------------------------------- a stay counted twice

  function ConfirmedStay(): State {
    Lone(FlexStatus.Confirmed, [MADE, Moved(BookingStatus.Pending, BookingStatus.Confirmed)], CommissionStatus.Approved,
         map[])
  }

  lemma ConfirmingStay()
    ensures UpdateFlex(Booked(), 1, Only(FlexStatus.Confirmed)) == Reply(ConfirmedStay(), Done)
  {
    var entry := Moved(BookingStatus.Pending, BookingStatus.Confirmed);
    assert [MADE] + [entry] == [MADE, entry];
  }

  lemma OnePendingCountsTwice()
    ensures Dashboards.AwaitingConfirmation(Booked(), None, Forecast.All) == 2
  {
    var s := Booked();
    assert Dashboards.PendingOn(s, None, Forecast.All) == {11};
    assert Dashboards.PendingFlex(s) == {1};
  }

  /** With one pending flex booking in the book, two bookings await confirmation. */
  lemma OneStayAwaitsTwice()
    ensures Initial(Empty())
    ensures var s := Run(Empty(), [Book()]);
      s.flex.Keys == {1} && Dashboards.AwaitingConfirmation(s, None, Forecast.All) == 2
  {
    RunBook();
    OnePendingCountsTwice();
    hide Run, Book, Dashboards.AwaitingConfirmation;
  }

  lemma OneStayCountsTwice()
    ensures Dashboards.FigureOn(ConfirmedStay(), None, Forecast.All, Dashboards.Staying, 10) == 2
  {
    var s := ConfirmedStay();
    assert Dashboards.StaysOn(s, None, Forecast.All, Dashboards.Staying, 10) == {11};
    assert Dashboards.FlexOn(s, Dashboards.Staying, 10) == {1};
  }

  /** With one confirmed flex booking in the book, the dashboard of a day of the stay shows two units occupied. */
  lemma OneStayOccupiesTwo()
    ensures Initial(Empty())
    ensures var s := Run(Empty(), [Book()] + [UpdateFlexStep(1, Only(FlexStatus.Confirmed))]);
      s.flex.Keys == {1} && Dashboards.FigureOn(s, None, Forecast.All, Dashboards.Staying, 10) == 2
  {
    hide Run, UpdateFlex, Booked, Book, Dashboards.FigureOn;
    RunBook();
    ConfirmingStay();
    OneStayCountsTwice();
    RunThen(Empty(), [Book()], UpdateFlexStep(1, Only(FlexStatus.Confirmed)));
  }
}
