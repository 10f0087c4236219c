/** What bookings may go through, and which calls fail after changing something. */
module Lifecycle {
  import opened Common
  import opened Tables
  import opened Rates
  import opened Bookings
  import opened Settlements
  import opened Payments
  import opened Steps
  import opened Effects
  import opened Registry
  import opened Notices

  // ---------------------------------------------------------------- bookings that are not flex stays

  /** The moves of a direct or Cloudbeds booking. */
  predicate MayMove(from: BookingStatus, to: BookingStatus) {
    || from == to
    || (from.Pending? && to.Confirmed?)
    || (from.Confirmed? && to.Completed?)
    || (!from.Cancelled? && !from.Completed? && to.Cancelled?)
  }

  lemma CancelMoves(s: State, id: Id, b: Id)
    requires b in s.bookings
    ensures var t := CancelBooking(s, id).state;
      b in t.bookings && MayMove(s.bookings[b].status, t.bookings[b].status)
      && (b != id ==> t.bookings[b] == s.bookings[b])
  {}

  /** A flex update or deletion leaves the registry rows of other bookings alone. */
  lemma FlexLeavesOthers(s: State, id: Id, dto: FlexChange, b: Id)
    requires Paired(s.flex, s.bookings, s.registryOf) && b in s.bookings && s.bookings[b].flexBookingId == None
    ensures b in UpdateFlex(s, id, dto).state.bookings && UpdateFlex(s, id, dto).state.bookings[b] == s.bookings[b]
    ensures b in DeleteFlex(s, id).state.bookings && DeleteFlex(s, id).state.bookings[b] == s.bookings[b]
  {
    hide CancelBooking, ChangedFlex, Conflict, Logged, ResolveFlexRate, RepricePending, ApprovePending;
    if id in s.flex {
      var r := s.registryOf[id];
      assert Registers(s.bookings[r], id, s.flex[id]);
      CancelMoves(UpdateRows(s, id, dto, r), r, b);
      CancelMoves(s, r, b);
    }
  }

  lemma NoticeLeavesOthers(s: State, row: Id, n: Notice, b: Id)
    requires Paired(s.flex, s.bookings, s.registryOf) && b in s.bookings && s.bookings[b].flexBookingId == None
    ensures var t := ProcessNotice(s, row, n).state; b in t.bookings && t.bookings[b] == s.bookings[b]
  {
    NoticeEffect(s, row, n);
    if n.reference.Some? && n.reference.value in s.flex {
      assert Registers(s.bookings[s.registryOf[n.reference.value]], n.reference.value, s.flex[n.reference.value]);
    }
  }

  /** Whatever service is called, a booking that is not a flex stay moves along its life cycle or not at all. */
  lemma StepMoves(s: State, step: Step, b: Id)
    requires Linked(s) && b in s.bookings && s.bookings[b].flexBookingId == None
    ensures var t := Next(s, step);
      && b in t.bookings && t.bookings[b].flexBookingId == None
      && MayMove(s.bookings[b].status, t.bookings[b].status)
  {
    if step.StartSessionStep? {
      SessionStepEffect(s, step);
    } else if IsSettlementStep(step) {
      SettlementStepEffect(s, step);
    } else if IsRateStep(step) {
      RateStepEffect(s, step);
    } else if step.CreateCheckoutStep? {
      CheckoutEffect(s, step);
    } else if step.NoticeStep? {
      NoticeLeavesOthers(s, step.row, step.notice, b);
    } else if step.UpdateFlexStep? {
      FlexLeavesOthers(s, step.id, step.change, b);
    } else if step.DeleteFlexStep? {
      FlexLeavesOthers(s, step.id, FlexChange(None, None, None, None, None, None), b);
    } else {
      RegistryMoves(s, step, b);
    }
  }

  lemma RegistryMoves(s: State, step: Step, b: Id)
    requires !IsSettlementStep(step) && !IsRateStep(step) && !IsPaymentStep(step)
    requires !step.UpdateFlexStep? && !step.DeleteFlexStep? && !step.StartSessionStep?
    requires b in s.bookings && s.bookings[b].flexBookingId == None
    ensures var t := Next(s, step);
      && b in t.bookings && t.bookings[b].flexBookingId == None
      && MayMove(s.bookings[b].status, t.bookings[b].status)
  {
    match step
    case CancelBookingStep(id) => CancelMoves(s, id, b);
    case ConfirmBookingStep(id) => DirectMoves(s, id, b);
    case CompleteBookingStep(id) => DirectMoves(s, id, b);
    case UpdateBookingStep(id, checkIn, checkOut) => RedatingMovesNothing(s, id, checkIn, checkOut, b);
    case _ => CreationMovesNothing(s, step, b);
  }

  lemma DirectMoves(s: State, id: Id, b: Id)
    requires b in s.bookings
    ensures var t := ConfirmBooking(s, id).state; b in t.bookings && MayMove(s.bookings[b].status, t.bookings[b].status)
    ensures var t := ConfirmBooking(s, id).state; t.bookings[b].flexBookingId == s.bookings[b].flexBookingId
    ensures var t := CompleteBooking(s, id).state;
      b in t.bookings && MayMove(s.bookings[b].status, t.bookings[b].status)
    ensures var t := CompleteBooking(s, id).state; t.bookings[b].flexBookingId == s.bookings[b].flexBookingId
  {
    hide Logged, CommissionAmount;
  }

  lemma RedatingMovesNothing(s: State, id: Id, checkIn: Option<Day>, checkOut: Option<Day>, b: Id)
    requires b in s.bookings
    ensures var t := UpdateBooking(s, id, checkIn, checkOut).state;
      && b in t.bookings && t.bookings[b].status == s.bookings[b].status
      && t.bookings[b].flexBookingId == s.bookings[b].flexBookingId
  {}

  lemma CreationMovesNothing(s: State, step: Step, b: Id)
    requires IsCreation(step) && b in s.bookings
    ensures b in Next(s, step).bookings && Next(s, step).bookings[b] == s.bookings[b]
  {}

  /** So a cancelled or completed booking that is not a flex stay keeps that status for good. */
  lemma {:induction false} FinalStatusStays(s: State, steps: seq<Step>, b: Id)
    requires Linked(s) && b in s.bookings && s.bookings[b].flexBookingId == None
    requires s.bookings[b].status.Cancelled? || s.bookings[b].status.Completed?
    ensures b in Run(s, steps).bookings && Run(s, steps).bookings[b].status == s.bookings[b].status
    decreases |steps|
  {
    if steps != [] {
      StepMoves(s, steps[0], b);
      LinkedStep(s, steps[0]);
      FinalStatusStays(Next(s, steps[0]), steps[1..], b);
    }
  }

  // ---------------------------------------------------------------- calls that fail halfway

  /** The booking carries a payment link and still owes the amount: createPublicCheckout gets past its checks. */
  predicate Payable(s: State, id: Id) {
    && id in s.flex && !s.flex[id].deleted && !s.flex[id].status.Confirmed? && !s.flex[id].status.Cancelled?
    && s.flex[id].reservationPayment.Some? && s.flex[id].reservationPayment.value > 0
    && !exists p :: p in s.payments && s.payments[p].flexBookingId == id && s.payments[p].status.Approved?
  }

  /** The pending payments of a payable booking, none recent enough to reuse, are cancelled before the provider fails
      or the new row clashes. */
  predicate CheckoutFailsHalfway(s: State, id: Id, row: Id, cutoff: int, providerUp: bool) {
    && Payable(s, id) && !Reusable(s.payments, id, cutoff)
    && (!providerUp || row in s.payments)
    && exists p :: p in s.payments && PendingFor(s.payments, p, id)
  }

  /** An approved payment of the amount due is recorded before its booking turns out to be cancelled. */
  ghost predicate NoticeFailsHalfway(s: State, row: Id, n: Notice) {
    && n.status.Approved? && n.reference.Some? && n.reference.value in s.flex
    && var f := s.flex[n.reference.value];
       && !f.deleted && f.status.Cancelled? && AmountMatches(f, n)
       && Recordable(s.payments, n.reference.value, row, n.paymentId)
  }

  /** The update gets past its date and conflict checks. */
  predicate UpdateAccepted(s: State, id: Id, dto: FlexChange) {
    && id in s.flex && !s.flex[id].deleted
    && var f := ChangedFlex(s.flex[id], dto);
       && f.startDate < f.endDate
       && (Redated(dto) ==> !Conflict(s.flex, f.propertyFlexId, f.startDate, f.endDate, Some(id)))
  }

  /** The update sends something new for one of the rows it writes. */
  predicate UpdateWrites(s: State, id: Id, dto: FlexChange, r: Id)
    requires id in s.flex && r in s.bookings
  {
    var f := ChangedFlex(s.flex[id], dto);
    var t := Terms(ResolveFlexRate(s.catalog, f.propertyFlexId, s.bookings[r].profileId).rate, f.monthlyAmount);
    || f != s.flex[id]
    || ChangedRegistry(s.bookings[r], f, dto) != s.bookings[r]
    || (Repriced(dto) && r in s.commissions && s.commissions[r].status.Pending?
        && WithTerms(s.commissions[r], t) != s.commissions[r])
  }

  /** An update that writes something is stored before the cancellation it asks for is refused, because the registry
      row is completed or deleted. */
  predicate UpdateFailsHalfway(s: State, id: Id, dto: FlexChange) {
    && UpdateAccepted(s, id, dto) && IsCancellation(dto)
    && id in s.registryOf && s.registryOf[id] in s.bookings
    && var b := s.bookings[s.registryOf[id]];
       && !b.status.Cancelled? && (b.status.Completed? || b.deleted)
       && UpdateWrites(s, id, dto, s.registryOf[id])
  }

  ghost predicate FailsHalfway(s: State, step: Step) {
    match step
    case CreateCheckoutStep(id, row, _, cutoff, up) => CheckoutFailsHalfway(s, id, row, cutoff, up)
    case NoticeStep(row, n) => NoticeFailsHalfway(s, row, n)
    case UpdateFlexStep(id, dto) => UpdateFailsHalfway(s, id, dto)
    case _ => false
  }

  lemma NoticeFailure(s: State, row: Id, n: Notice)
    ensures var r := ProcessNotice(s, row, n);
      r.outcome != Done && r.state != s <==> NoticeFailsHalfway(s, row, n)
  {
    if n.status.Approved? && n.reference.Some? && n.reference.value in s.flex {
      var f := n.reference.value;
      RecordEffect(s, f, row, n);
      ConfirmKeepsPayments(RecordApproved(s, f, row, n).state, f, n.paymentId);
      if Recordable(s.payments, f, row, n.paymentId) {
        RecordingChangesRows(s, f, row, n);
      }
    }
  }

  lemma RecordingChangesRows(s: State, f: Id, row: Id, n: Notice)
    requires f in s.flex && Recordable(s.payments, f, row, n.paymentId)
    ensures RecordApproved(s, f, row, n).state.payments != s.payments
  {
    var p := if PendingRow(s.payments, f).Some? then PendingRow(s.payments, f).value else row;
    assert p in RecordApproved(s, f, row, n).state.payments;
  }

  lemma CheckoutFailure(s: State, id: Id, row: Id, now: int, cutoff: int, up: bool)
    ensures var r := CreateCheckout(s, id, row, now, cutoff, up);
      r.outcome != Done && r.state != s <==> CheckoutFailsHalfway(s, id, row, cutoff, up)
  {
    if p :| p in s.payments && PendingFor(s.payments, p, id) {
      assert CancelPending(s.payments, id)[p] != s.payments[p];
    } else {
      assert CancelPending(s.payments, id) == s.payments;
    }
  }

  lemma UpdateFailure(s: State, id: Id, dto: FlexChange)
    ensures var r := UpdateFlex(s, id, dto);
      r.outcome != Done && r.state != s <==> UpdateFailsHalfway(s, id, dto)
  {
    if id in s.flex && id in s.registryOf && s.registryOf[id] in s.bookings && IsCancellation(dto) {
      UpdateWritten(s, id, dto, s.registryOf[id]);
    }
  }

  lemma UpdateWritten(s: State, id: Id, dto: FlexChange, r: Id)
    requires id in s.flex && r in s.bookings && IsCancellation(dto)
    ensures UpdateRows(s, id, dto, r) != s <==> UpdateWrites(s, id, dto, r)
    ensures UpdateRows(s, id, dto, r).bookings[r].status == s.bookings[r].status
    ensures UpdateRows(s, id, dto, r).bookings[r].deleted == s.bookings[r].deleted
  {
    var t := UpdateRows(s, id, dto, r);
    assert t.flex[id] == ChangedFlex(s.flex[id], dto);
    assert t.bookings[r] == ChangedRegistry(s.bookings[r], ChangedFlex(s.flex[id], dto), dto);
  }

  lemma DeleteFailure(s: State, id: Id)
    ensures DeleteFlex(s, id).outcome != Done ==> DeleteFlex(s, id).state == s
  {}

  lemma RateFailure(s: State, step: Step)
    requires IsRateStep(step)
    ensures Apply(s, step).outcome != Done ==> Next(s, step) == s
  {
    hide Recalculate;
  }

  lemma SettlementFailure(s: State, step: Step)
    requires IsSettlementStep(step)
    ensures Apply(s, step).outcome != Done ==> Next(s, step) == s
  {
    hide Eligible, Collides, Groups, NewDrafts, Attach, PayAttached, DetachAll;
  }

  lemma RegistryFailure(s: State, step: Step)
    requires !IsRateStep(step) && !IsSettlementStep(step) && !IsPaymentStep(step)
    requires !step.UpdateFlexStep? && !step.DeleteFlexStep?
    ensures Apply(s, step).outcome != Done ==> Next(s, step) == s
  {
    hide Conflict, Registered, ResolveFlexRate, ResolveTemporalRate, CommissionAmount, Logged, ApprovePending;
  }

  lemma HalfwayFailure(s: State, step: Step)
    requires IsPaymentStep(step) || step.UpdateFlexStep? || step.DeleteFlexStep?
    ensures Apply(s, step).outcome != Done && Apply(s, step).state != s <==> FailsHalfway(s, step)
  {
    hide NoticeFailsHalfway, CheckoutFailsHalfway, UpdateFailsHalfway, ProcessNotice,
      CreateCheckout, UpdateFlex, DeleteFlex;
    match step
    case NoticeStep(row, n) => NoticeFailure(s, row, n);
    case CreateCheckoutStep(id, row, now, cutoff, up) => CheckoutFailure(s, id, row, now, cutoff, up);
    case UpdateFlexStep(id, dto) => UpdateFailure(s, id, dto);
    case DeleteFlexStep(id) => DeleteFailure(s, id);
  }

  /** Of the calls that are one step the ones that report a failure after changing something are exactly these three: a
      checkout, an approved payment for a cancelled booking, and a cancelling update of a completed booking, each under
      its condition. Every other one that fails has changed nothing. */
  lemma FailedCallsChangeNothing(s: State, step: Step)
    ensures Apply(s, step).outcome != Done && Next(s, step) != s <==> FailsHalfway(s, step)
  {
    hide Apply, NoticeFailsHalfway, CheckoutFailsHalfway, UpdateFailsHalfway;
    if IsPaymentStep(step) || step.UpdateFlexStep? || step.DeleteFlexStep? {
      HalfwayFailure(s, step);
    } else if IsRateStep(step) {
      RateFailure(s, step);
    } else if IsSettlementStep(step) {
      SettlementFailure(s, step);
    } else {
      RegistryFailure(s, step);
    }
  }
}
