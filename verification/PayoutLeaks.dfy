/** The two ways in which cancellations and payouts can disagree, and that there are no others. */
module PayoutLeaks {
  import opened Common
  import opened Tables
  import opened Rates
  import opened Bookings
  import opened Settlements
  import opened Payments
  import opened Steps
  import opened Effects
  import opened Registry
  import opened Payouts
  import opened Lifecycle
  import opened PayoutTheorems

  // ---------------------------------------------------------------- which calls cancel a booking

  /** A live booking that is neither cancelled nor completed. */
  predicate Cancellable(s: State, b: Id) {
    b in s.bookings && !s.bookings[b].deleted && !s.bookings[b].status.Cancelled? && !s.bookings[b].status.Completed?
  }

  /** The booking a call asks to cancel, when it gets so far. */
  function AsksToCancel(s: State, step: Step): Option<Id> {
    match step
    case CancelBookingStep(id) => Some(id)
    case UpdateFlexStep(id, dto) =>
      if UpdateAccepted(s, id, dto) && IsCancellation(dto) && id in s.registryOf then Some(s.registryOf[id]) else None
    case DeleteFlexStep(id) =>
      if id in s.flex && !s.flex[id].deleted && id in s.registryOf then Some(s.registryOf[id]) else None
    case _ => None
  }

  predicate Cancels(s: State, step: Step, b: Id) {
    AsksToCancel(s, step) == Some(b) && Cancellable(s, b)
  }

  // ---------------------------------------------------------------- what a call does to settled commissions

  /** A PAID commission of booking b after a call: cancelled when the booking is, untouched otherwise. */
  predicate PaidRowKept(c: Commission, d: Commission, cancelled: bool) {
    d == if cancelled then c.(status := CommissionStatus.Cancelled) else c
  }

  lemma CancelKeepsPaidRows(s: State, id: Id, b: Id)
    requires b in s.commissions && s.commissions[b].status.Paid?
    ensures var t := CancelBooking(s, id).state;
      b in t.commissions && PaidRowKept(s.commissions[b], t.commissions[b], b == id && Cancellable(s, b))
  {}

  lemma UpdateRowsKeepPaidRows(s: State, id: Id, dto: FlexChange, r: Id, b: Id)
    requires id in s.flex && r in s.bookings && b in s.commissions && s.commissions[b].status.Paid?
    ensures var t := UpdateRows(s, id, dto, r); b in t.commissions && t.commissions[b] == s.commissions[b]
    ensures IsCancellation(dto) ==> (Cancellable(UpdateRows(s, id, dto, r), b) <==> Cancellable(s, b))
  {}

  lemma UpdateFlexKeepsPaidRows(s: State, id: Id, dto: FlexChange, b: Id)
    requires b in s.commissions && s.commissions[b].status.Paid?
    ensures var t := UpdateFlex(s, id, dto).state;
      b in t.commissions && PaidRowKept(s.commissions[b], t.commissions[b], Cancels(s, UpdateFlexStep(id, dto), b))
  {
    if id in s.flex && id in s.registryOf && s.registryOf[id] in s.bookings {
      var r := s.registryOf[id];
      UpdateRowsKeepPaidRows(s, id, dto, r, b);
      CancelKeepsPaidRows(UpdateRows(s, id, dto, r), r, b);
      hide CancelBooking, UpdateRows;
    }
  }

  lemma DeleteFlexKeepsPaidRows(s: State, id: Id, b: Id)
    requires b in s.commissions && s.commissions[b].status.Paid?
    ensures var t := DeleteFlex(s, id).state;
      b in t.commissions && PaidRowKept(s.commissions[b], t.commissions[b], Cancels(s, DeleteFlexStep(id), b))
  {
    if id in s.registryOf {
      CancelKeepsPaidRows(s, s.registryOf[id], b);
    }
  }

  lemma CreationKeepsRows(s: State, step: Step, b: Id)
    requires IsCreation(step) && s.commissions.Keys <= s.bookings.Keys && b in s.commissions
    ensures var t := Next(s, step); b in t.commissions && t.commissions[b] == s.commissions[b]
  {}

  lemma DirectKeepsPaidRows(s: State, id: Id, b: Id)
    requires b in s.commissions && s.commissions[b].status.Paid?
    ensures var t := ConfirmBooking(s, id).state; b in t.commissions && t.commissions[b] == s.commissions[b]
  {}

  lemma NoticeKeepsPaidRows(s: State, row: Id, n: Notice, b: Id)
    requires b in s.commissions && s.commissions[b].status.Paid?
    ensures var t := ProcessNotice(s, row, n).state; b in t.commissions && t.commissions[b] == s.commissions[b]
  {
    NoticeEffect(s, row, n);
  }

  lemma RateKeepsPaidRows(s: State, step: Step, b: Id)
    requires IsRateStep(step) && b in s.commissions && s.commissions[b].status.Paid?
    ensures var t := Next(s, step); b in t.commissions && t.commissions[b] == s.commissions[b]
  {
    RateStepEffect(s, step);
    assert OnlyTerms(s.commissions[b], Next(s, step).commissions[b]);
  }

  lemma ApprovalKeepsPaidRows(s: State, id: Id, b: Id)
    requires b in s.commissions && s.commissions[b].status.Paid?
    ensures var t := ApproveCommission(s, id).state; b in t.commissions && t.commissions[b] == s.commissions[b]
  {}

  lemma RestKeepsRows(s: State, step: Step, b: Id)
    requires step.CompleteBookingStep? || step.UpdateBookingStep? || step.CreateCheckoutStep? || step.StartSessionStep?
    requires b in s.commissions
    ensures var t := Next(s, step); b in t.commissions && t.commissions[b] == s.commissions[b]
  {
    if step.CreateCheckoutStep? {
      CheckoutEffect(s, step);
    }
  }

  /** Outside the settlement calls a PAID commission changes in one way only: it is cancelled with its booking. */
  lemma PaidRowsStay(s: State, step: Step, b: Id)
    requires !Settles(step) && s.commissions.Keys <= s.bookings.Keys
    requires b in s.commissions && s.commissions[b].status.Paid?
    ensures var t := Next(s, step);
      b in t.commissions && PaidRowKept(s.commissions[b], t.commissions[b], Cancels(s, step, b))
  {
    if IsRateStep(step) {
      RateKeepsPaidRows(s, step, b);
    } else if IsCreation(step) {
      CreationKeepsRows(s, step, b);
    } else {
      match step
      case CancelBookingStep(id) => CancelKeepsPaidRows(s, id, b);
      case UpdateFlexStep(id, dto) => UpdateFlexKeepsPaidRows(s, id, dto, b);
      case DeleteFlexStep(id) => DeleteFlexKeepsPaidRows(s, id, b);
      case ConfirmBookingStep(id) => DirectKeepsPaidRows(s, id, b);
      case NoticeStep(row, n) => NoticeKeepsPaidRows(s, row, n, b);
      case ApproveCommissionStep(id) => ApprovalKeepsPaidRows(s, id, b);
      case _ => RestKeepsRows(s, step, b);
    }
  }

  // ---------------------------------------------------------------- paid in full

  /** The call cancels a booking whose commission has been paid out. */
  predicate CancelsPaid(s: State, step: Step) {
    exists b :: b in s.commissions && PaidIn(s, b) && Cancels(s, step, b)
  }

  /** The tables after a creation that succeeds. */
  ghost function Attached(s: State, rows: set<Id>, uuid: Id -> Id): State {
    s.(settlements := s.settlements + NewDrafts(Groups(s, rows), uuid),
       commissions := Attach(s.commissions, rows, uuid))
  }

  lemma CreationAttaches(s: State, filter: set<Id>, uuid: Id -> Id)
    ensures var t := CreateSettlements(s, filter, uuid).state; t == s || t == Attached(s, Eligible(s, filter), uuid)
  {
    hide Eligible, Collides, Groups, NewDrafts, Attach;
  }

  lemma AttachingKeepsRows(s: State, rows: set<Id>, uuid: Id -> Id)
    ensures Attached(s, rows, uuid).commissions.Keys == s.commissions.Keys
  {
    hide NewDrafts, Groups;
  }

  lemma AttachedRow(s: State, rows: set<Id>, uuid: Id -> Id, b: Id)
    requires b in s.commissions
    ensures var c, d := s.commissions[b], Attach(s.commissions, rows, uuid)[b];
      d == if b in rows && c.profileId.Some? then c.(settlementId := Some(uuid(c.profileId.value))) else c
  {}

  lemma AttachingPaysNothing(s: State, rows: set<Id>, uuid: Id -> Id, b: Id)
    requires b in s.commissions
    ensures b in Attached(s, rows, uuid).commissions
    ensures var t := Attached(s, rows, uuid);
      t.commissions[b].status == s.commissions[b].status && (PaidIn(t, b) ==> PaidIn(s, b))
  {
    AttachingKeepsRows(s, rows, uuid);
    hide Groups, NewDrafts, Attach;
    DraftsAreUnpaid(Groups(s, rows), uuid);
    AttachedRow(s, rows, uuid, b);
    if b in rows && s.commissions[b].profileId.Some? {
      DraftExists(s, rows, uuid, b);
    }
  }

  lemma DraftsAreUnpaid(groups: map<Id, PreviewGroup>, uuid: Id -> Id)
    ensures forall sid :: sid in NewDrafts(groups, uuid) ==> NewDrafts(groups, uuid)[sid].status.Draft?
  {}

  lemma DraftExists(s: State, rows: set<Id>, uuid: Id -> Id, b: Id)
    requires b in s.commissions && b in rows && s.commissions[b].profileId.Some?
    ensures uuid(s.commissions[b].profileId.value) in NewDrafts(Groups(s, rows), uuid)
  {
    var p := s.commissions[b].profileId.value;
    assert p in Groups(s, rows).Keys;
    assert uuid(p) in Image(Groups(s, rows).Keys, uuid);
  }

  /** Creation leaves the status of every commission, and puts none into a settlement that is paid. */
  lemma CreationPaysNothing(s: State, filter: set<Id>, uuid: Id -> Id)
    ensures var t := CreateSettlements(s, filter, uuid).state;
      && t.commissions.Keys == s.commissions.Keys
      && (forall b :: b in s.commissions ==> t.commissions[b].status == s.commissions[b].status)
      && (forall b :: b in s.commissions && PaidIn(t, b) ==> PaidIn(s, b))
  {
    CreationAttaches(s, filter, uuid);
    AttachingKeepsRows(s, Eligible(s, filter), uuid);
    hide CreateSettlements, Attached, Eligible, PaidIn;
    forall b | b in s.commissions
      ensures var t := CreateSettlements(s, filter, uuid).state;
        t.commissions[b].status == s.commissions[b].status && (PaidIn(t, b) ==> PaidIn(s, b))
    {
      AttachingPaysNothing(s, Eligible(s, filter), uuid, b);
    }
  }

  lemma MarkingPaysAll(s: State, sid: Id)
    requires PaidInFull(s)
    ensures PaidInFull(MarkPaid(s, sid).state)
  {
    var t := MarkPaid(s, sid).state;
    forall b | b in t.commissions && PaidIn(t, b) ensures t.commissions[b].status.Paid? {
      assert b in s.commissions && (PaidIn(s, b) || s.commissions[b].settlementId == Some(sid));
    }
  }

  lemma DetachingPaysNothing(s: State, sid: Id)
    ensures var t := CancelDraft(s, sid).state;
      && t.commissions.Keys == s.commissions.Keys
      && (forall b :: b in s.commissions ==> t.commissions[b].status == s.commissions[b].status)
      && (forall b :: b in s.commissions && PaidIn(t, b) ==> PaidIn(s, b))
  {}

  lemma SettlingKeepsPaidInFull(s: State, step: Step)
    requires PaidInFull(s) && Settles(step)
    ensures PaidInFull(Next(s, step))
  {
    hide PaidIn;
    match step
    case CreateSettlementsStep(filter, uuid) => CreationPaysNothing(s, filter, uuid);
    case MarkPaidStep(sid) => MarkingPaysAll(s, sid);
    case CancelDraftStep(sid) => DetachingPaysNothing(s, sid);
  }

  /** Of all 27 calls exactly the cancellation of a booking whose commission has been paid out, directly, through its
      flex booking's update or through its deletion, leaves a commission of a paid settlement unpaid. */
  lemma StepKeepsPaidInFull(s: State, step: Step)
    requires PaidInFull(s) && s.commissions.Keys <= s.bookings.Keys
    ensures PaidInFull(Next(s, step)) <==> !CancelsPaid(s, step)
  {
    hide Next;
    var t := Next(s, step);
    if Settles(step) {
      SettlingKeepsPaidInFull(s, step);
    } else {
      StepEvolves(s, step);
      forall b | b in t.commissions ensures PaidIn(t, b) <==> b in s.commissions && PaidIn(s, b) {
        if b in s.commissions {
          assert Evolves(s.commissions[b], t.commissions[b], ApprovedBy(step) == Some(b));
        } else {
          assert Newborn(t.commissions[b]);
        }
      }
      forall b | b in s.commissions && PaidIn(s, b)
        ensures b in t.commissions && (t.commissions[b].status.Paid? <==> !Cancels(s, step, b))
      {
        PaidRowsStay(s, step, b);
      }
    }
  }

  // ---------------------------------------------------------------- nothing paid for a cancelled booking

  /** The call pays a draft that holds the commission of a cancelled booking. */
  predicate PaysCancelled(s: State, step: Step) {
    && step.MarkPaidStep? && step.id in s.settlements && s.settlements[step.id].status.Draft?
    && HoldsCancelled(s, step.id)
  }

  lemma CancelOnly(s: State, id: Id, b: Id)
    requires b in s.bookings
    ensures var t := CancelBooking(s, id).state;
      b in t.bookings
      && (t.bookings[b].status.Cancelled? ==> s.bookings[b].status.Cancelled? || (b == id && Cancellable(s, b)))
  {}

  lemma UpdateRowsCancelNothing(s: State, id: Id, dto: FlexChange, r: Id, b: Id)
    requires id in s.flex && r in s.bookings && b in s.bookings
    ensures var t := UpdateRows(s, id, dto, r);
      b in t.bookings && (t.bookings[b].status.Cancelled? ==> s.bookings[b].status.Cancelled?)
    ensures IsCancellation(dto) ==> (Cancellable(UpdateRows(s, id, dto, r), b) <==> Cancellable(s, b))
  {}

  lemma UpdateFlexCancelsOnly(s: State, id: Id, dto: FlexChange, b: Id)
    requires b in s.bookings
    ensures var t := UpdateFlex(s, id, dto).state;
      b in t.bookings
      && (t.bookings[b].status.Cancelled? ==> s.bookings[b].status.Cancelled? || Cancels(s, UpdateFlexStep(id, dto), b))
  {
    if id in s.flex && id in s.registryOf && s.registryOf[id] in s.bookings {
      var r := s.registryOf[id];
      UpdateRowsCancelNothing(s, id, dto, r, b);
      CancelOnly(UpdateRows(s, id, dto, r), r, b);
      hide CancelBooking, UpdateRows;
    }
  }

  lemma DeleteFlexCancelsOnly(s: State, id: Id, b: Id)
    requires b in s.bookings
    ensures var t := DeleteFlex(s, id).state;
      b in t.bookings
      && (t.bookings[b].status.Cancelled? ==> s.bookings[b].status.Cancelled? || Cancels(s, DeleteFlexStep(id), b))
  {
    if id in s.registryOf {
      CancelOnly(s, s.registryOf[id], b);
    }
  }

  lemma NoticeCancelsNothing(s: State, row: Id, n: Notice, b: Id)
    requires b in s.bookings
    ensures var t := ProcessNotice(s, row, n).state;
      b in t.bookings && (t.bookings[b].status.Cancelled? ==> s.bookings[b].status.Cancelled?)
  {
    NoticeEffect(s, row, n);
  }

  lemma ConfirmCancelsNothing(s: State, id: Id, b: Id)
    requires b in s.bookings
    ensures var t := ConfirmBooking(s, id).state;
      b in t.bookings && (t.bookings[b].status.Cancelled? ==> s.bookings[b].status.Cancelled?)
  {
    hide Logged, ApprovePending, CommissionOnConfirm;
    if ConfirmBooking(s, id).outcome != Done {
    } else {
    }
  }

  lemma CompleteCancelsNothing(s: State, id: Id, b: Id)
    requires b in s.bookings
    ensures var t := CompleteBooking(s, id).state;
      b in t.bookings && (t.bookings[b].status.Cancelled? ==> s.bookings[b].status.Cancelled?)
  {
    hide Logged;
    if CompleteBooking(s, id).outcome != Done {
    } else {
    }
  }

  /** A booking becomes CANCELLED in no other way than through a call that asks to cancel it. */
  lemma OnlyCancellationsCancel(s: State, step: Step, b: Id)
    requires b in s.bookings
    ensures var t := Next(s, step);
      b in t.bookings && (t.bookings[b].status.Cancelled? ==> s.bookings[b].status.Cancelled? || Cancels(s, step, b))
  {
    if IsRateStep(step) {
      RateStepEffect(s, step);
    } else if IsSettlementStep(step) {
      SettlementStepEffect(s, step);
    } else if IsCreation(step) {
      CreationMovesNothing(s, step, b);
    } else {
      match step
      case CancelBookingStep(id) => CancelOnly(s, id, b);
      case UpdateFlexStep(id, dto) => UpdateFlexCancelsOnly(s, id, dto, b);
      case DeleteFlexStep(id) => DeleteFlexCancelsOnly(s, id, b);
      case ConfirmBookingStep(id) => ConfirmCancelsNothing(s, id, b);
      case CompleteBookingStep(id) => CompleteCancelsNothing(s, id, b);
      case NoticeStep(row, n) => NoticeCancelsNothing(s, row, n, b);
      case UpdateBookingStep(id, checkIn, checkOut) => RedatingMovesNothing(s, id, checkIn, checkOut, b);
      case CreateCheckoutStep(_, _, _, _, _) => CheckoutEffect(s, step);
      case StartSessionStep(_, _) => SessionStepEffect(s, step);
    }
  }

  lemma EvolvingPaysNothing(s: State, step: Step, b: Id)
    requires !Settles(step) && s.commissions.Keys <= s.bookings.Keys
    requires b in Next(s, step).commissions && Next(s, step).commissions[b].status.Paid?
    ensures b in s.commissions && s.commissions[b].status.Paid? && !Cancels(s, step, b)
  {
    var t := Next(s, step);
    StepEvolves(s, step);
    assert b in s.commissions by {
      assert b !in s.commissions ==> Newborn(t.commissions[b]);
    }
    assert Evolves(s.commissions[b], t.commissions[b], ApprovedBy(step) == Some(b));
    PaidRowsStay(s, step, b);
  }

  lemma SettlingPaysCancelled(s: State, step: Step)
    requires NothingPaidForCancelled(s) && Settles(step)
    ensures NothingPaidForCancelled(Next(s, step)) <==> !PaysCancelled(s, step)
  {
    match step
    case CreateSettlementsStep(filter, uuid) => CreationPaysNothing(s, filter, uuid); SettlementStepEffect(s, step);
    case MarkPaidStep(sid) =>
      if MarkPaid(s, sid).outcome == Done {
        PaymentAfterCancellation(s, sid);
      }
    case CancelDraftStep(sid) => DetachingPaysNothing(s, sid); SettlementStepEffect(s, step);
  }

  /** Of all 27 calls exactly the payment of a draft that holds the commission of a cancelled booking leaves a PAID
      commission on a cancelled booking. */
  lemma StepPaysNothingForCancelled(s: State, step: Step)
    requires NothingPaidForCancelled(s) && s.commissions.Keys <= s.bookings.Keys
    ensures NothingPaidForCancelled(Next(s, step)) <==> !PaysCancelled(s, step)
  {
    if Settles(step) {
      SettlingPaysCancelled(s, step);
    } else {
      var t := Next(s, step);
      forall b | b in t.commissions && b in t.bookings && t.commissions[b].status.Paid?
        ensures !t.bookings[b].status.Cancelled?
      {
        EvolvingPaysNothing(s, step, b);
        OnlyCancellationsCancel(s, step, b);
      }
    }
  }

  // ---------------------------------------------------------------- every run

  /** No cancellation reaches a commission that has been paid out, and no payment a cancelled booking. */
  ghost predicate OrderlyRun(s: State, steps: seq<Step>)
    decreases |steps|
  {
    steps != [] ==>
      !CancelsPaid(s, steps[0]) && !PaysCancelled(s, steps[0]) && OrderlyRun(Next(s, steps[0]), steps[1..])
  }

  /** Over any such run every commission in a PAID settlement is PAID and no PAID commission belongs to a cancelled
      booking; the first call that is not orderly breaks one of the two. */
  lemma {:induction false} PayoutsMatchCancellations(s: State, steps: seq<Step>)
    requires Linked(s) && PaidInFull(s) && NothingPaidForCancelled(s) && OrderlyRun(s, steps)
    ensures PaidInFull(Run(s, steps)) && NothingPaidForCancelled(Run(s, steps))
    decreases |steps|
  {
    hide PaidInFull, NothingPaidForCancelled, CancelsPaid, PaysCancelled, Next;
    if steps != [] {
      LinkedStep(s, steps[0]);
      StepKeepsPaidInFull(s, steps[0]);
      StepPaysNothingForCancelled(s, steps[0]);
      PayoutsMatchCancellations(Next(s, steps[0]), steps[1..]);
    }
  }
}
