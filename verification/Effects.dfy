/** Which tables each kind of step can touch. */
module Effects {
  import opened Tables
  import opened Rates
  import opened Bookings
  import opened Settlements
  import opened Payments
  import opened Steps

  predicate IsRateStep(step: Step) {
    || step.SetFlexPropertyRateStep? || step.DeleteFlexPropertyStep? || step.UpsertFlexOverrideStep?
    || step.DeleteFlexOverrideStep? || step.SetPropertyRateStep? || step.DeletePropertyStep?
    || step.UpsertPropertyOverrideStep? || step.DeletePropertyOverrideStep? || step.SetDefaultRateStep?
    || step.RecalculateAllStep?
  }

  predicate IsSettlementStep(step: Step) {
    step.ApproveCommissionStep? || step.CreateSettlementsStep? || step.MarkPaidStep? || step.CancelDraftStep?
  }

  predicate IsPaymentStep(step: Step) {
    step.CreateCheckoutStep? || step.NoticeStep?
  }

  predicate IsCreation(step: Step) {
    step.CreateFlexStep? || step.CreateBookingStep? || step.ConfirmFromCloudbedsStep? || step.AmbassadorReservationStep?
  }

  lemma StartTouches(s: State, sessionId: Id, profileId: Id)
    ensures var t := StartSession(s, sessionId, profileId).state; t == s.(sessions := t.sessions)
  {
    if sessionId in s.sessions {
    } else if profileId !in s.catalog.profiles {
    } else {
    }
  }

  lemma SessionStepEffect(s: State, step: Step)
    requires step.StartSessionStep?
    ensures var t := Next(s, step); t == s.(sessions := t.sessions)
  {
    hide StartSession;
    StartTouches(s, step.sessionId, step.profileId);
  }

  lemma RateStepEffect(s: State, step: Step)
    requires IsRateStep(step)
    ensures OnlyRates(s, Next(s, step))
  {}

  lemma ApproveTouches(s: State, id: Id)
    ensures var t := ApproveCommission(s, id).state; t == s.(commissions := t.commissions)
  {
    if id !in s.commissions {
    } else if ApproveCommission(s, id).outcome != Done {
    } else {
    }
  }

  lemma CreateTouches(s: State, filter: set<Id>, uuid: Id -> Id)
    ensures var t := CreateSettlements(s, filter, uuid).state;
      t == s.(settlements := t.settlements, commissions := t.commissions)
  {
    hide Eligible, Collides, Groups, NewDrafts, Attach;
    if CreateSettlements(s, filter, uuid).outcome != Done {
    } else {
    }
  }

  lemma PayoutTouches(s: State, sid: Id)
    ensures var t := MarkPaid(s, sid).state; t == s.(settlements := t.settlements, commissions := t.commissions)
    ensures var t := CancelDraft(s, sid).state; t == s.(settlements := t.settlements, commissions := t.commissions)
  {
    hide PayAttached, DetachAll;
    if sid !in s.settlements {
    } else if !s.settlements[sid].status.Draft? {
    } else {
    }
  }

  lemma SettlementStepEffect(s: State, step: Step)
    requires IsSettlementStep(step)
    ensures var t := Next(s, step); t == s.(settlements := t.settlements, commissions := t.commissions)
  {
    hide ApproveCommission, CreateSettlements, MarkPaid, CancelDraft;
    match step
    case ApproveCommissionStep(id) => ApproveTouches(s, id);
    case CreateSettlementsStep(filter, uuid) => CreateTouches(s, filter, uuid);
    case MarkPaidStep(id) => PayoutTouches(s, id);
    case CancelDraftStep(id) => PayoutTouches(s, id);
  }

  lemma CheckoutTouches(s: State, id: Id, row: Id, now: int, cutoff: int, up: bool)
    ensures var t := CreateCheckout(s, id, row, now, cutoff, up).state; t == s.(payments := t.payments)
  {
    hide CancelPending, Reusable;
  }

  lemma CheckoutEffect(s: State, step: Step)
    requires step.CreateCheckoutStep?
    ensures var t := Next(s, step); t == s.(payments := t.payments)
  {
    hide CreateCheckout;
    CheckoutTouches(s, step.id, step.row, step.now, step.cutoff, step.providerUp);
  }

  /** The notice is an approved payment of a live booking that is neither confirmed nor cancelled, for the amount
      due, and it can be recorded. */
  ghost predicate Confirms(s: State, row: Id, n: Notice) {
    && n.status.Approved? && n.reference.Some? && n.reference.value in s.flex
    && var f := s.flex[n.reference.value];
       && !f.deleted && !f.status.Confirmed? && !f.status.Cancelled? && AmountMatches(f, n)
       && Recordable(s.payments, n.reference.value, row, n.paymentId)
  }

  lemma RecordEffect(s: State, flexId: Id, row: Id, n: Notice)
    requires flexId in s.flex
    ensures var t := RecordApproved(s, flexId, row, n).state; t == s.(payments := t.payments)
    ensures RecordApproved(s, flexId, row, n).outcome == Done <==> Recordable(s.payments, flexId, row, n.paymentId)
    ensures RecordApproved(s, flexId, row, n).outcome != Done ==> RecordApproved(s, flexId, row, n).state == s
  {
    hide PendingRow, MpTaken;
    if MpTaken(s.payments, n.paymentId, PendingRow(s.payments, flexId)) {
    } else if PendingRow(s.payments, flexId).Some? {
    } else if row in s.payments {
    } else {
    }
  }

  /** Confirming does not read the payment rows. */
  lemma ConfirmIgnoresPayments(s: State, payments: map<Id, Payment>, flexId: Id, mpPaymentId: Id)
    ensures ConfirmFromPayment(s.(payments := payments), flexId, mpPaymentId)
         == var r := ConfirmFromPayment(s, flexId, mpPaymentId); r.(state := r.state.(payments := payments))
  {
    if flexId !in s.flex || s.flex[flexId].deleted {
    } else if s.flex[flexId].status.Confirmed? || s.flex[flexId].status.Cancelled? {
    } else if flexId !in s.registryOf || s.registryOf[flexId] !in s.bookings
              || s.bookings[s.registryOf[flexId]].status.Confirmed? {
    } else {
    }
  }

  /** A notice rewrites payment rows, and beyond that confirms its booking or does nothing. */
  lemma NoticeEffect(s: State, row: Id, n: Notice)
    ensures var t := ProcessNotice(s, row, n).state;
      t == (if Confirms(s, row, n) then ConfirmFromPayment(s, n.reference.value, n.paymentId).state else s)
           .(payments := t.payments)
  {
    if n.status.Approved? && n.reference.Some? && n.reference.value in s.flex {
      var flexId := n.reference.value;
      RecordEffect(s, flexId, row, n);
      ConfirmIgnoresPayments(s, RecordApproved(s, flexId, row, n).state.payments, flexId, n.paymentId);
    }
  }
}
