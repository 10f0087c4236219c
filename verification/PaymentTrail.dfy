/** Every status change that a payment caused can be traced to a payment row. */
module PaymentTrail {
  import opened Common
  import opened Tables
  import opened Bookings
  import opened Payments
  import opened Steps
  import opened Effects
  import opened Registry
  import opened Lifecycle
  import opened History
  import opened Notices

  /** A row of flex booking f that holds the payment, paid or paid back. */
  predicate Receipt(payments: map<Id, Payment>, p: Id, f: Id, mp: Id) {
    && p in payments && payments[p].flexBookingId == f && payments[p].mpPaymentId == Some(mp)
    && (payments[p].status.Approved? || payments[p].status.Refunded?)
  }

  ghost predicate HasReceipt(payments: map<Id, Payment>, f: Option<Id>, mp: Id) {
    f.Some? && exists p :: Receipt(payments, p, f.value, mp)
  }

  /** The entries of a booking that name a payment have one. */
  ghost predicate Receipted(payments: map<Id, Payment>, f: Option<Id>, h: seq<HistoryEntry>) {
    forall i :: 0 <= i < |h| && h[i].cause.PaymentApproved? ==> HasReceipt(payments, f, h[i].cause.mpPaymentId)
  }

  ghost predicate Trailed(s: State) {
    forall b :: b in s.bookings && b in s.history ==>
      Receipted(s.payments, s.bookings[b].flexBookingId, s.history[b])
  }

  // ---------------------------------------------------------------- receipts are never lost

  ghost predicate KeepsReceipts(payments: map<Id, Payment>, payments': map<Id, Payment>) {
    forall p, f, mp :: Receipt(payments, p, f, mp) ==> Receipt(payments', p, f, mp)
  }

  lemma ReceiptsRefl(payments: map<Id, Payment>)
    ensures KeepsReceipts(payments, payments)
  {}

  lemma CheckoutKeepsReceipts(s: State, id: Id, row: Id, now: int, cutoff: int, up: bool)
    ensures KeepsReceipts(s.payments, CreateCheckout(s, id, row, now, cutoff, up).state.payments)
  {}

  lemma StatusKeepsReceipts(payments: map<Id, Payment>, mp: Id, status: PaymentStatus)
    requires status.Approved? || status.Refunded?
    ensures KeepsReceipts(payments, SetStatusOf(payments, mp, status))
  {}

  lemma ClaimKeepsReceipts(payments: map<Id, Payment>, flexId: Id, status: PaymentStatus, mp: Id)
    ensures KeepsReceipts(payments, Claim(payments, flexId, status, mp))
  {}

  lemma RecordKeepsReceipts(s: State, f: Id, row: Id, n: Notice)
    requires f in s.flex
    ensures var r := RecordApproved(s, f, row, n);
      && KeepsReceipts(s.payments, r.state.payments)
      && (r.outcome == Done ==> exists p :: Receipt(r.state.payments, p, f, n.paymentId))
  {
    var r := RecordApproved(s, f, row, n);
    if r.outcome == Done {
      var p := if PendingRow(s.payments, f).Some? then PendingRow(s.payments, f).value else row;
      assert Receipt(r.state.payments, p, f, n.paymentId);
    }
  }

  lemma NoticeKeepsReceipts(s: State, row: Id, n: Notice)
    ensures KeepsReceipts(s.payments, ProcessNotice(s, row, n).state.payments)
  {
    hide KeepsReceipts, SetStatusOf, Claim;
    ReceiptsRefl(s.payments);
    StatusKeepsReceipts(s.payments, n.paymentId, PaymentStatus.Approved);
    StatusKeepsReceipts(s.payments, n.paymentId, PaymentStatus.Refunded);
    if n.reference.Some? && !n.status.Approved? && MapMpStatus(n.status).Some? {
      ClaimKeepsReceipts(s.payments, n.reference.value, MapMpStatus(n.status).value, n.paymentId);
    }
    if n.status.Approved? && n.reference.Some? && n.reference.value in s.flex {
      var f := n.reference.value;
      RecordKeepsReceipts(s, f, row, n);
      ConfirmKeepsPayments(RecordApproved(s, f, row, n).state, f, n.paymentId);
      hide RecordApproved;
    }
  }

  lemma StepKeepsReceipts(s: State, step: Step)
    ensures KeepsReceipts(s.payments, Next(s, step).payments)
  {
    hide KeepsReceipts, CreateCheckout, ProcessNotice;
    if step.CreateCheckoutStep? {
      CheckoutKeepsReceipts(s, step.id, step.row, step.now, step.cutoff, step.providerUp);
    } else if step.NoticeStep? {
      NoticeKeepsReceipts(s, step.row, step.notice);
    } else {
      hide Next;
      OthersKeepPayments(s, step);
      ReceiptsRefl(s.payments);
    }
  }

  lemma ReceiptedLater(payments: map<Id, Payment>, payments': map<Id, Payment>, f: Option<Id>, h: seq<HistoryEntry>)
    requires Receipted(payments, f, h) && KeepsReceipts(payments, payments')
    ensures Receipted(payments', f, h)
  {
    forall i | 0 <= i < |h| && h[i].cause.PaymentApproved? ensures HasReceipt(payments', f, h[i].cause.mpPaymentId) {
      assert HasReceipt(payments, f, h[i].cause.mpPaymentId);
      var p :| Receipt(payments, p, f.value, h[i].cause.mpPaymentId);
      assert Receipt(payments', p, f.value, h[i].cause.mpPaymentId);
    }
  }

  // ---------------------------------------------------------------- only payments log payments

  /** Entries that name a payment were there before, in the same place. */
  ghost predicate NoPaymentLogged(h: map<Id, seq<HistoryEntry>>, h': map<Id, seq<HistoryEntry>>) {
    forall b, i :: b in h' && 0 <= i < |h'[b]| && h'[b][i].cause.PaymentApproved? ==>
      b in h && i < |h[b]| && h[b][i] == h'[b][i]
  }

  lemma LoggingRefl(h: map<Id, seq<HistoryEntry>>)
    ensures NoPaymentLogged(h, h)
  {}

  lemma LoggedByService(bookings: map<Id, Booking>, h: map<Id, seq<HistoryEntry>>, id: Id, to: BookingStatus)
    requires id in bookings
    ensures NoPaymentLogged(h, Logged(bookings, h, id, to, Service))
  {}

  lemma FirstByService(h: map<Id, seq<HistoryEntry>>, id: Id, b: Booking)
    ensures NoPaymentLogged(h, FirstEntry(h, id, b))
  {}

  lemma CancelLogsService(s: State, id: Id)
    ensures NoPaymentLogged(s.history, CancelBooking(s, id).state.history)
  {
    hide NoPaymentLogged, Logged;
    LoggingRefl(s.history);
    if id in s.bookings {
      LoggedByService(s.bookings, s.history, id, BookingStatus.Cancelled);
    }
  }

  lemma UpdateRowsLogService(s: State, id: Id, dto: FlexChange, r: Id)
    requires id in s.flex && r in s.bookings
    ensures NoPaymentLogged(s.history, UpdateRows(s, id, dto, r).history)
    ensures IsCancellation(dto) ==> UpdateRows(s, id, dto, r).history == s.history
  {
    hide NoPaymentLogged, Logged, ChangedFlex;
    LoggingRefl(s.history);
    LoggedByService(s.bookings, s.history, r, Followed(s.bookings[r], dto));
  }

  lemma UpdateFlexLogsService(s: State, id: Id, dto: FlexChange)
    ensures NoPaymentLogged(s.history, UpdateFlex(s, id, dto).state.history)
  {
    hide NoPaymentLogged, UpdateRows, CancelBooking, ChangedFlex, Conflict;
    LoggingRefl(s.history);
    if id in s.flex && id in s.registryOf && s.registryOf[id] in s.bookings {
      var r := s.registryOf[id];
      UpdateRowsLogService(s, id, dto, r);
      CancelLogsService(UpdateRows(s, id, dto, r), r);
    }
  }

  lemma DeleteFlexLogsService(s: State, id: Id)
    ensures NoPaymentLogged(s.history, DeleteFlex(s, id).state.history)
  {
    hide NoPaymentLogged, CancelBooking;
    LoggingRefl(s.history);
    if id in s.registryOf {
      CancelLogsService(s, s.registryOf[id]);
    }
  }

  lemma RegistryLogsService(s: State, id: Id, checkIn: Option<Day>, checkOut: Option<Day>)
    ensures NoPaymentLogged(s.history, ConfirmBooking(s, id).state.history)
    ensures NoPaymentLogged(s.history, CompleteBooking(s, id).state.history)
    ensures NoPaymentLogged(s.history, UpdateBooking(s, id, checkIn, checkOut).state.history)
  {
    hide NoPaymentLogged, Logged, ApprovePending, CommissionOnConfirm;
    LoggingRefl(s.history);
    if id in s.bookings {
      LoggedByService(s.bookings, s.history, id, BookingStatus.Confirmed);
      LoggedByService(s.bookings, s.history, id, BookingStatus.Completed);
    }
  }

  lemma CreationLogsService(s: State, step: Step)
    requires IsCreation(step) && Faithful(s)
    ensures NoPaymentLogged(s.history, Next(s, step).history)
  {
    hide Next, Chained, LogOf;
    StepLogs(s, step);
    forall b | b in s.bookings ensures b in Next(s, step).bookings && Next(s, step).bookings[b] == s.bookings[b] {
      CreationMovesNothing(s, step, b);
    }
  }

  lemma QuietLogsService(s: State, step: Step)
    requires IsRateStep(step) || IsSettlementStep(step) || step.StartSessionStep? || step.CreateCheckoutStep?
    ensures NoPaymentLogged(s.history, Next(s, step).history)
  {
    hide Next, NoPaymentLogged;
    LoggingRefl(s.history);
    if IsRateStep(step) {
      RateStepEffect(s, step);
    } else if IsSettlementStep(step) {
      SettlementStepEffect(s, step);
    } else if step.StartSessionStep? {
      SessionStepEffect(s, step);
    } else {
      CheckoutEffect(s, step);
    }
  }

  lemma FlexLogsService(s: State, step: Step)
    requires step.UpdateFlexStep? || step.DeleteFlexStep? || step.CancelBookingStep?
    ensures NoPaymentLogged(s.history, Next(s, step).history)
  {
    hide NoPaymentLogged, UpdateFlex, DeleteFlex, CancelBooking;
    match step
    case UpdateFlexStep(id, dto) => UpdateFlexLogsService(s, id, dto);
    case DeleteFlexStep(id) => DeleteFlexLogsService(s, id);
    case CancelBookingStep(id) => CancelLogsService(s, id);
  }

  lemma BookingLogsService(s: State, step: Step)
    requires step.ConfirmBookingStep? || step.CompleteBookingStep? || step.UpdateBookingStep?
    ensures NoPaymentLogged(s.history, Next(s, step).history)
  {
    hide NoPaymentLogged, ConfirmBooking, CompleteBooking, UpdateBooking;
    match step
    case ConfirmBookingStep(id) => RegistryLogsService(s, id, None, None);
    case CompleteBookingStep(id) => RegistryLogsService(s, id, None, None);
    case UpdateBookingStep(id, checkIn, checkOut) => RegistryLogsService(s, id, checkIn, checkOut);
  }

  /** No call but a notice logs a payment. */
  lemma OthersLogNoPayment(s: State, step: Step)
    requires Faithful(s) && !step.NoticeStep?
    ensures NoPaymentLogged(s.history, Next(s, step).history)
  {
    hide Faithful, NoPaymentLogged, Next;
    if IsCreation(step) {
      CreationLogsService(s, step);
    } else if IsRateStep(step) || IsSettlementStep(step) || step.StartSessionStep? || step.CreateCheckoutStep? {
      QuietLogsService(s, step);
    } else if step.UpdateFlexStep? || step.DeleteFlexStep? || step.CancelBookingStep? {
      FlexLogsService(s, step);
    } else {
      BookingLogsService(s, step);
    }
  }

  // ---------------------------------------------------------------- every step, every run

  lemma SameFlexBooking(s: State, step: Step, b: Id)
    requires Linked(s) && b in s.bookings
    ensures b in Next(s, step).bookings && Next(s, step).bookings[b].flexBookingId == s.bookings[b].flexBookingId
  {
    hide Linked, Next;
    if IsCreation(step) {
      CreationMovesNothing(s, step, b);
    } else if step.StartSessionStep? {
      SessionStepEffect(s, step);
    } else {
      StepLinks(s, step);
      assert SameOwner(s.bookings[b], Next(s, step).bookings[b]);
    }
  }

  lemma OthersKeepTrail(s: State, step: Step, b: Id)
    requires Linked(s) && Faithful(s) && Trailed(s) && !step.NoticeStep?
    requires b in Next(s, step).bookings && b in Next(s, step).history
    ensures Receipted(Next(s, step).payments, Next(s, step).bookings[b].flexBookingId, Next(s, step).history[b])
  {
    hide Linked, Next, Faithful, Receipted, KeepsReceipts;
    var t := Next(s, step);
    OthersLogNoPayment(s, step);
    StepKeepsReceipts(s, step);
    FaithfulKeys(s);
    if b in s.bookings {
      SameFlexBooking(s, step, b);
      ReceiptedLater(s.payments, t.payments, s.bookings[b].flexBookingId, s.history[b]);
      EarlierReceipts(t.payments, s.bookings[b].flexBookingId, s.history[b], t.history[b]);
    } else {
      EarlierReceipts(t.payments, t.bookings[b].flexBookingId, [], t.history[b]);
    }
  }

  lemma FaithfulKeys(s: State)
    requires Faithful(s)
    ensures s.history.Keys == s.bookings.Keys
  {}

  /** Entries that name a payment and were there before still have their receipts. */
  lemma EarlierReceipts(payments: map<Id, Payment>, f: Option<Id>, h: seq<HistoryEntry>, h': seq<HistoryEntry>)
    requires h == [] || Receipted(payments, f, h)
    requires forall i :: 0 <= i < |h'| && h'[i].cause.PaymentApproved? ==> i < |h| && h[i] == h'[i]
    ensures Receipted(payments, f, h')
  {
    hide HasReceipt;
  }

  lemma ConfirmationReceipted(s: State, row: Id, n: Notice)
    requires Confirms(s, row, n)
    ensures HasReceipt(ProcessNotice(s, row, n).state.payments, n.reference, n.paymentId)
  {
    var f := n.reference.value;
    RecordEffect(s, f, row, n);
    RecordKeepsReceipts(s, f, row, n);
    ConfirmKeepsPayments(RecordApproved(s, f, row, n).state, f, n.paymentId);
    hide RecordApproved, ConfirmFromPayment, Receipt, Recordable, KeepsReceipts;
  }

  lemma ConfirmLogsOne(s: State, f: Id, mp: Id)
    requires f in s.flex && f in s.registryOf && s.registryOf[f] in s.bookings && s.registryOf[f] in s.history
    ensures var r := s.registryOf[f]; var t := ConfirmFromPayment(s, f, mp).state;
      && r in t.history && r in t.bookings && t.bookings[r].flexBookingId == s.bookings[r].flexBookingId
      && (t.history[r] == s.history[r]
          || (|t.history[r]| == |s.history[r]| + 1 && t.history[r][..|s.history[r]|] == s.history[r]
              && t.history[r][|s.history[r]|].cause == PaymentApproved(mp)))
  {}

  lemma OneMoreReceipt(payments: map<Id, Payment>, f: Option<Id>, h: seq<HistoryEntry>, h': seq<HistoryEntry>, mp: Id)
    requires Receipted(payments, f, h) && HasReceipt(payments, f, mp)
    requires h' == h || (|h'| == |h| + 1 && h'[..|h|] == h && h'[|h|].cause == PaymentApproved(mp))
    ensures Receipted(payments, f, h')
  {
    hide HasReceipt;
    assert forall i :: 0 <= i < |h| && |h| <= |h'| ==> h'[..|h|][i] == h'[i];
  }

  /** A notice that confirms nothing keeps bookings and histories. */
  lemma QuietNoticeTrail(s: State, row: Id, n: Notice, b: Id)
    requires Trailed(s) && !Confirms(s, row, n) && b in s.bookings && b in s.history
    ensures var t := ProcessNotice(s, row, n).state;
      b in t.bookings && b in t.history && Receipted(t.payments, t.bookings[b].flexBookingId, t.history[b])
  {
    hide ProcessNotice, Confirms, Receipted, KeepsReceipts;
    NoticeEffect(s, row, n);
    NoticeKeepsReceipts(s, row, n);
    ReceiptedLater(s.payments, ProcessNotice(s, row, n).state.payments, s.bookings[b].flexBookingId, s.history[b]);
  }

  /** What a confirmation by payment does to the rows of booking b: one more entry when b is the registry row. */
  lemma ConfirmationRows(s: State, f: Id, mp: Id, b: Id)
    requires f in s.flex && f in s.registryOf && s.registryOf[f] in s.bookings && s.registryOf[f] in s.history
    requires b in s.bookings && b in s.history
    ensures var t := ConfirmFromPayment(s, f, mp).state;
      && b in t.bookings && b in t.history && t.bookings[b].flexBookingId == s.bookings[b].flexBookingId
      && (b != s.registryOf[f] ==> t.history[b] == s.history[b])
  {
    hide ApprovePending;
  }

  /** A confirmation by payment adds one entry for the booking it names, and its payment has just been recorded. */
  lemma ConfirmedNoticeTrail(s: State, row: Id, n: Notice, b: Id)
    requires Linked(s) && Faithful(s) && Trailed(s) && Confirms(s, row, n) && b in s.bookings
    ensures var t := ProcessNotice(s, row, n).state;
      b in t.bookings && b in t.history && Receipted(t.payments, t.bookings[b].flexBookingId, t.history[b])
  {
    var f := n.reference.value;
    var r := s.registryOf[f];
    assert Registers(s.bookings[r], f, s.flex[f]);
    FaithfulKeys(s);
    hide ProcessNotice, ConfirmFromPayment, Linked, Faithful, Receipted, KeepsReceipts, HasReceipt, Recordable;
    var t := ProcessNotice(s, row, n).state;
    NoticeEffect(s, row, n);
    NoticeKeepsReceipts(s, row, n);
    ReceiptedLater(s.payments, t.payments, s.bookings[b].flexBookingId, s.history[b]);
    ConfirmationRows(s, f, n.paymentId, b);
    if b == r {
      ConfirmationReceipted(s, row, n);
      ConfirmLogsOne(s, f, n.paymentId);
      OneMoreReceipt(t.payments, Some(f), s.history[b], t.history[b], n.paymentId);
    }
  }

  lemma NoticeKeepsBookings(s: State, row: Id, n: Notice)
    requires Linked(s)
    ensures ProcessNotice(s, row, n).state.bookings.Keys == s.bookings.Keys
  {
    NoticeLinks(s, row, n);
    hide ProcessNotice;
  }

  lemma NoticeKeepsTrail(s: State, row: Id, n: Notice, b: Id)
    requires Linked(s) && Faithful(s) && Trailed(s)
    ensures var t := ProcessNotice(s, row, n).state;
      b in t.bookings && b in t.history ==> Receipted(t.payments, t.bookings[b].flexBookingId, t.history[b])
  {
    hide ProcessNotice, Linked, Faithful, Trailed, Receipted, Confirms;
    NoticeKeepsBookings(s, row, n);
    FaithfulKeys(s);
    if b in s.bookings {
      if Confirms(s, row, n) {
        ConfirmedNoticeTrail(s, row, n, b);
      } else {
        QuietNoticeTrail(s, row, n, b);
      }
    }
  }

  lemma StepKeepsTrail(s: State, step: Step)
    requires Linked(s) && Faithful(s) && Trailed(s)
    ensures Trailed(Next(s, step))
  {
    hide Linked, Faithful, Receipted, ProcessNotice;
    forall b | b in Next(s, step).bookings && b in Next(s, step).history
      ensures Receipted(Next(s, step).payments, Next(s, step).bookings[b].flexBookingId, Next(s, step).history[b])
    {
      if step.NoticeStep? {
        NoticeKeepsTrail(s, step.row, step.notice, b);
      } else {
        OthersKeepTrail(s, step, b);
      }
    }
  }

  /** Over any run, whenever the history of a booking names a payment, a payment row of its flex booking holds that
      payment, and says that it was paid or paid back. */
  lemma {:induction false} PaymentsAreOnRecord(s: State, steps: seq<Step>)
    requires Linked(s) && Faithful(s) && Trailed(s)
    ensures Trailed(Run(s, steps))
    decreases |steps|
  {
    hide Linked, Faithful, Trailed, Next;
    if steps != [] {
      LinkedStep(s, steps[0]);
      StepLogs(s, steps[0]);
      StepKeepsTrail(s, steps[0]);
      PaymentsAreOnRecord(Next(s, steps[0]), steps[1..]);
    }
  }
}
