/** At which terms an approval releases a commission. */
module ApprovalTerms {
  import opened Common
  import opened Tables
  import opened Rates
  import opened Bookings
  import opened Settlements
  import opened Payments
  import opened Steps
  import opened Effects
  import opened Registry
  import opened Payouts
  import opened PayoutTheorems
  import opened Freshness
  import opened Lifecycle

  /** The commission of the booking carries what a recalculation would give it now. */
  predicate UpToDate(s: State, b: Id) {
    && b in s.bookings && b in s.commissions && Owed(s.catalog, s.flex, s.bookings[b]).Some?
    && Carries(s.commissions[b], Owed(s.catalog, s.flex, s.bookings[b]).value)
  }

  /** An approval changes no terms, so it releases fresh terms exactly when they were fresh; those of a PENDING
      commission on a fresh side always are. */
  lemma ApprovalReleasesTheSame(s: State, b: Id, side: Side)
    requires Fresh(s, side) && b in s.bookings && OnSide(side, s.bookings[b])
    requires Owed(s.catalog, s.flex, s.bookings[b]).Some? && ApproveCommission(s, b).outcome == Done
    ensures UpToDate(ApproveCommission(s, b).state, b) <==> UpToDate(s, b)
    ensures s.commissions[b].status.Pending? ==> UpToDate(s, b)
  {
    if s.commissions[b].status.Pending? {
      assert FreshRow(s.catalog, s.flex, s.bookings[b], s.commissions[b]);
    }
  }

  // ---------------------------------------------------------------- commissions that wait for validation

  lemma ReportCreates(s: State, id: Id, sessionId: Id, dto: TrackedStay, p: Id)
    requires AmbassadorReservation(s, id, sessionId, dto).state != s && dto.propertyId == Some(p)
    ensures sessionId in s.sessions
    ensures var t := AmbassadorReservation(s, id, sessionId, dto).state; var a := Some(s.sessions[sessionId].profileId);
      && id in t.bookings && id in t.commissions && t.catalog == s.catalog
      && SoldBy(t.bookings[id], p, a, dto.totalAmount)
      && t.commissions[id] == NewCommission(a, Terms(ResolveTemporalRate(s.catalog, p, a).rate, dto.totalAmount),
                                            CommissionStatus.PendingValidation)
  {
    hide Registered, ResolveTemporalRate, CommissionAmount;
  }

  /** A temporal stay at this property, for this ambassador and total. */
  predicate SoldBy(b: Booking, p: Id, a: Option<Id>, total: Cents) {
    && b.source.Cloudbeds? && b.propertyFlexId == None && b.flexBookingId == None && b.propertyId == Some(p)
    && b.profileId == a && b.totalAmount == total
  }

  lemma CancelKeepsTotal(s: State, id: Id, b: Id)
    requires b in s.bookings
    ensures b in CancelBooking(s, id).state.bookings
    ensures CancelBooking(s, id).state.bookings[b].totalAmount == s.bookings[b].totalAmount
  {
    hide Logged;
  }

  lemma ConfirmKeepsTotal(s: State, id: Id, b: Id)
    requires b in s.bookings
    ensures b in ConfirmBooking(s, id).state.bookings
    ensures ConfirmBooking(s, id).state.bookings[b].totalAmount == s.bookings[b].totalAmount
  {
    hide Logged, ApprovePending, CommissionOnConfirm;
  }

  lemma CompleteKeepsTotal(s: State, id: Id, b: Id)
    requires b in s.bookings
    ensures b in CompleteBooking(s, id).state.bookings
    ensures CompleteBooking(s, id).state.bookings[b].totalAmount == s.bookings[b].totalAmount
  {
    hide Logged;
  }

  lemma UpdateKeepsTotal(s: State, id: Id, checkIn: Option<Day>, checkOut: Option<Day>, b: Id)
    requires b in s.bookings
    ensures b in UpdateBooking(s, id, checkIn, checkOut).state.bookings
    ensures UpdateBooking(s, id, checkIn, checkOut).state.bookings[b].totalAmount == s.bookings[b].totalAmount
  {}

  lemma BookingStepKeepsTotal(s: State, step: Step, b: Id)
    requires step.CancelBookingStep? || step.ConfirmBookingStep? || step.CompleteBookingStep? || step.UpdateBookingStep?
    requires b in s.bookings
    ensures b in Next(s, step).bookings && Next(s, step).bookings[b].totalAmount == s.bookings[b].totalAmount
  {
    hide CancelBooking, ConfirmBooking, CompleteBooking, UpdateBooking;
    match step
    case CancelBookingStep(id) => CancelKeepsTotal(s, id, b);
    case ConfirmBookingStep(id) => ConfirmKeepsTotal(s, id, b);
    case CompleteBookingStep(id) => CompleteKeepsTotal(s, id, b);
    case UpdateBookingStep(id, checkIn, checkOut) => UpdateKeepsTotal(s, id, checkIn, checkOut, b);
  }

  lemma FlexStepLeavesOthers(s: State, step: Step, b: Id)
    requires Linked(s) && b in s.bookings && s.bookings[b].flexBookingId == None
    requires step.UpdateFlexStep? || step.DeleteFlexStep? || step.NoticeStep?
    ensures b in Next(s, step).bookings && Next(s, step).bookings[b] == s.bookings[b]
  {
    hide UpdateFlex, DeleteFlex, ProcessNotice;
    match step
    case UpdateFlexStep(id, dto) => FlexLeavesOthers(s, id, dto, b);
    case DeleteFlexStep(id) => FlexLeavesOthers(s, id, FlexChange(None, None, None, None, None, None), b);
    case NoticeStep(row, n) => NoticeLeavesOthers(s, row, n, b);
  }

  lemma QuietKeepsBookings(s: State, step: Step)
    requires IsRateStep(step) || IsSettlementStep(step) || step.StartSessionStep? || step.CreateCheckoutStep?
    ensures Next(s, step).bookings == s.bookings
  {
    hide Next;
    if IsRateStep(step) {
      RateStepEffect(s, step);
    } else if IsSettlementStep(step) {
      SettlementStepEffect(s, step);
    } else if step.StartSessionStep? {
      SessionStepEffect(s, step);
    } else {
      CheckoutEffect(s, step);
    }
  }

  /** The total of a booking that is not a flex stay never changes. */
  lemma TotalStays(s: State, step: Step, b: Id)
    requires Linked(s) && b in s.bookings && s.bookings[b].flexBookingId == None
    ensures b in Next(s, step).bookings && Next(s, step).bookings[b].totalAmount == s.bookings[b].totalAmount
  {
    hide Linked, Next;
    if IsCreation(step) {
      CreationMovesNothing(s, step, b);
    } else if step.UpdateFlexStep? || step.DeleteFlexStep? || step.NoticeStep? {
      FlexStepLeavesOthers(s, step, b);
    } else if IsRateStep(step) || IsSettlementStep(step) || step.StartSessionStep? || step.CreateCheckoutStep? {
      QuietKeepsBookings(s, step);
    } else {
      BookingStepKeepsTotal(s, step, b);
    }
  }

  lemma StaysSold(s: State, step: Step, b: Id, p: Id, a: Option<Id>, total: Cents)
    requires Linked(s) && b in s.bookings && SoldBy(s.bookings[b], p, a, total)
    ensures b in Next(s, step).bookings && SoldBy(Next(s, step).bookings[b], p, a, total)
  {
    hide Linked, Next;
    TotalStays(s, step, b);
    if IsCreation(step) {
      CreationMovesNothing(s, step, b);
    } else if step.StartSessionStep? {
      SessionStepEffect(s, step);
    } else {
      StepLinks(s, step);
      assert SameOwner(s.bookings[b], Next(s, step).bookings[b]);
    }
  }

  lemma {:induction false} RunStaysSold(s: State, steps: seq<Step>, b: Id, p: Id, a: Option<Id>, total: Cents)
    requires Linked(s) && b in s.bookings && SoldBy(s.bookings[b], p, a, total)
    ensures b in Run(s, steps).bookings && SoldBy(Run(s, steps).bookings[b], p, a, total)
    decreases |steps|
  {
    hide Linked, Next, SoldBy;
    if steps != [] {
      LinkedStep(s, steps[0]);
      StaysSold(s, steps[0], b, p, a, total);
      RunStaysSold(Next(s, steps[0]), steps[1..], b, p, a, total);
    }
  }

  lemma ApprovedAtItsTerms(t: State, id: Id, c: Commission, p: Id, a: Option<Id>, total: Cents, rate: Rate)
    requires id in t.bookings && SoldBy(t.bookings[id], p, a, total)
    requires c == NewCommission(a, Terms(rate, total), CommissionStatus.PendingValidation)
    requires id in t.commissions && Waits(c, t.commissions[id])
    ensures var r := ApproveCommission(t, id);
      r.outcome == Done ==>
        && id in r.state.commissions && r.state.commissions[id].baseAmount == total
        && r.state.commissions[id].rate == rate
        && (UpToDate(r.state, id) <==> ResolveTemporalRate(t.catalog, p, a).rate == rate)
  {
    hide ResolveTemporalRate, CommissionAmount;
  }

  lemma ReportIsStep(s: State, id: Id, sessionId: Id, dto: TrackedStay)
    ensures Next(s, AmbassadorReservationStep(id, sessionId, dto)) == AmbassadorReservation(s, id, sessionId, dto).state
  {
    hide AmbassadorReservation;
  }

  /** A stay reported from an ambassador's session and approved after any run keeps the rate of the day it was reported:
      the approval releases what is owed exactly when the cascade gives the same rate as then. */
  lemma ApprovalReleasesReportedTerms(s: State, id: Id, sessionId: Id, dto: TrackedStay, p: Id, steps: seq<Step>)
    requires Linked(s) && dto.propertyId == Some(p) && AmbassadorReservation(s, id, sessionId, dto).state != s
    requires forall i :: 0 <= i < |steps| ==> ApprovedBy(steps[i]) != Some(id)
    ensures sessionId in s.sessions
    ensures var a := Some(s.sessions[sessionId].profileId);
      var t := Run(s, [AmbassadorReservationStep(id, sessionId, dto)] + steps); var r := ApproveCommission(t, id);
      r.outcome == Done ==>
        && id in r.state.commissions && r.state.commissions[id].baseAmount == dto.totalAmount
        && r.state.commissions[id].rate == ResolveTemporalRate(s.catalog, p, a).rate
        && (UpToDate(r.state, id) <==>
              ResolveTemporalRate(t.catalog, p, a).rate == ResolveTemporalRate(s.catalog, p, a).rate)
  {
    hide Linked, Next, AmbassadorReservation, ResolveTemporalRate, ApproveCommission, SoldBy, Waits, UpToDate,
      ApprovedBy;
    var first := AmbassadorReservationStep(id, sessionId, dto);
    var created := Next(s, first);
    ReportIsStep(s, id, sessionId, dto);
    ReportCreates(s, id, sessionId, dto, p);
    var a := Some(s.sessions[sessionId].profileId);
    LinkedStep(s, first);
    assert ([first] + steps)[1..] == steps;
    OnlyApprovalReleases(created, steps, id);
    RunStaysSold(created, steps, id, p, a, dto.totalAmount);
    ApprovedAtItsTerms(Run(created, steps), id, created.commissions[id], p, a, dto.totalAmount,
                       ResolveTemporalRate(s.catalog, p, a).rate);
  }
}
