/** What checkouts and payment notices do to each payment row, column by column. */
module PaymentRows {
  import opened Common
  import opened Tables
  import opened Bookings
  import opened Payments
  import opened Effects
  import opened Notices
  import opened Lifecycle

  /** A row of the booking that waits for its payment. */
  predicate Waits(p: Payment, flexId: Id) {
    p.flexBookingId == flexId && p.status == PaymentStatus.Pending
  }

  // ---------------------------------------------------------------- checkouts

  /** A row of the booking that waits, with a link made after the cutoff. */
  predicate RecentLink(p: Payment, flexId: Id, cutoff: int) {
    Waits(p, flexId) && p.checkoutAt.Some? && p.checkoutAt.value > cutoff
  }

  /** A payable booking without a recent link: the checkout withdraws its links and makes a new one. */
  predicate Renews(s: State, flexId: Id, cutoff: int) {
    Payable(s, flexId) && forall p :: p in s.payments ==> !RecentLink(s.payments[p], flexId, cutoff)
  }

  /** What a checkout answers: only a payable booking gets past the checks, and a renewal needs the provider and a
      fresh identifier. */
  lemma CheckoutAnswers(s: State, flexId: Id, row: Id, now: int, cutoff: int, up: bool)
    ensures var outcome := CreateCheckout(s, flexId, row, now, cutoff, up).outcome;
      && (outcome == NotFound <==>
            flexId !in s.flex || s.flex[flexId].deleted || s.flex[flexId].reservationPayment == None)
      && (outcome == NotFound || outcome == BadRequest <==> !Payable(s, flexId))
      && (outcome == Unavailable <==> Renews(s, flexId, cutoff) && !up)
      && (outcome == UniqueViolation <==> Renews(s, flexId, cutoff) && up && row in s.payments)
  {
    assert CancelPending(s.payments, flexId).Keys == s.payments.Keys;
    hide CancelPending;
    if Reusable(s.payments, flexId, cutoff) {
      var p :| p in s.payments && PendingFor(s.payments, p, flexId)
               && s.payments[p].checkoutAt.Some? && s.payments[p].checkoutAt.value > cutoff;
      assert RecentLink(s.payments[p], flexId, cutoff);
    } else {
      forall p | p in s.payments ensures !RecentLink(s.payments[p], flexId, cutoff) {
        assert PendingFor(s.payments, p, flexId) <==> Waits(s.payments[p], flexId);
      }
    }
  }

  /** A renewal cancels the rows of the booking that wait, and touches no other row. */
  lemma CheckoutRows(s: State, flexId: Id, row: Id, now: int, cutoff: int, up: bool, p: Id)
    requires p in s.payments
    ensures var t := CreateCheckout(s, flexId, row, now, cutoff, up).state;
      && p in t.payments
      && t.payments[p] == if Renews(s, flexId, cutoff) && Waits(s.payments[p], flexId)
                          then s.payments[p].(status := PaymentStatus.Cancelled) else s.payments[p]
  {
    CheckoutAnswers(s, flexId, row, now, cutoff, up);
    assert RecentLink(s.payments[p], flexId, cutoff) ==> Reusable(s.payments, flexId, cutoff);
  }

  /** A checkout that is done leaves the tables as they are exactly when the booking has a recent link; otherwise it
      adds one row for the amount due, the only one of the booking that waits. */
  lemma CheckoutIsDone(s: State, flexId: Id, row: Id, now: int, cutoff: int, up: bool)
    requires CreateCheckout(s, flexId, row, now, cutoff, up).outcome == Done
    ensures var t := CreateCheckout(s, flexId, row, now, cutoff, up).state;
      && flexId in s.flex && s.flex[flexId].reservationPayment.Some?
      && t == s.(payments := t.payments)
      && (t == s <==> exists p :: p in s.payments && RecentLink(s.payments[p], flexId, cutoff))
      && (t != s ==>
            && row !in s.payments && t.payments.Keys == s.payments.Keys + {row}
            && t.payments[row] == Payment(flexId, PaymentStatus.Pending, s.flex[flexId].reservationPayment.value,
                                          None, Some(now))
            && forall p :: p in t.payments && Waits(t.payments[p], flexId) ==> p == row)
  {
    CheckoutAnswers(s, flexId, row, now, cutoff, up);
    var t := CreateCheckout(s, flexId, row, now, cutoff, up).state;
    forall p | p in s.payments
      ensures t.payments[p] == if Renews(s, flexId, cutoff) && Waits(s.payments[p], flexId)
                               then s.payments[p].(status := PaymentStatus.Cancelled) else s.payments[p]
    {
      CheckoutRows(s, flexId, row, now, cutoff, up, p);
    }
    CheckoutAdds(s, flexId, row, now, cutoff, up);
    hide CreateCheckout;
  }

  lemma CheckoutAdds(s: State, flexId: Id, row: Id, now: int, cutoff: int, up: bool)
    requires CreateCheckout(s, flexId, row, now, cutoff, up).outcome == Done
    ensures flexId in s.flex && s.flex[flexId].reservationPayment.Some?
    ensures var t := CreateCheckout(s, flexId, row, now, cutoff, up).state;
      && t == s.(payments := t.payments)
      && if Renews(s, flexId, cutoff)
         then
           && row !in s.payments && t.payments.Keys == s.payments.Keys + {row}
           && t.payments[row] == Payment(flexId, PaymentStatus.Pending, s.flex[flexId].reservationPayment.value, None,
                                         Some(now))
         else t == s
  {
    CheckoutAnswers(s, flexId, row, now, cutoff, up);
    assert CancelPending(s.payments, flexId).Keys == s.payments.Keys;
    CheckoutTouches(s, flexId, row, now, cutoff, up);
    if exists p :: p in s.payments && RecentLink(s.payments[p], flexId, cutoff) {
      var p :| p in s.payments && RecentLink(s.payments[p], flexId, cutoff);
      assert Reusable(s.payments, flexId, cutoff);
    }
    hide CancelPending;
  }

  // ---------------------------------------------------------------- notices

  /** The row holds the Mercado Pago payment the notice is about. */
  predicate Holds(p: Payment, n: Notice) {
    p.mpPaymentId == Some(n.paymentId)
  }

  /** A refunded or charged back payment of some booking makes exactly the rows that hold it REFUNDED. */
  lemma RefundRows(s: State, row: Id, n: Notice, p: Id)
    requires (n.status.Refunded? || n.status.ChargedBack?) && p in s.payments
    ensures var r := ProcessNotice(s, row, n);
      && r.outcome == Done && r.state == s.(payments := r.state.payments)
      && r.state.payments.Keys == s.payments.Keys
      && r.state.payments[p] == if n.reference.Some? && Holds(s.payments[p], n)
                                then s.payments[p].(status := PaymentStatus.Refunded) else s.payments[p]
  {
    hide ConfirmApproved, Claim, MpTaken;
  }

  /** A row that a report of the payment other than an approval or a refund is for. */
  predicate Unpaid(p: Payment, n: Notice) {
    n.reference.Some? && Waits(p, n.reference.value) && p.mpPaymentId == None
  }

  /** Neither approved nor refunded, and known. */
  predicate IsReport(n: Notice) {
    n.status.Rejected? || n.status.Cancelled? || n.status.Pending? || n.status.InProcess?
  }

  lemma UnpaidAreUnclaimed(payments: map<Id, Payment>, n: Notice, p: Id)
    requires n.reference.Some?
    ensures p in payments && Unpaid(payments[p], n) <==> Unclaimed(payments, p, n.reference.value)
  {}

  lemma NothingUnpaid(payments: map<Id, Payment>, n: Notice)
    requires n.reference == None
    ensures forall p :: p in payments ==> !Unpaid(payments[p], n)
  {}

  /** A report fails, changing nothing, exactly when some row is to take the payment and some row holds it already. */
  lemma ReportAnswers(s: State, row: Id, n: Notice)
    requires IsReport(n)
    ensures var r := ProcessNotice(s, row, n);
      && (r.outcome != Done <==>
            && (exists q :: q in s.payments && Unpaid(s.payments[q], n))
            && (exists q :: q in s.payments && Holds(s.payments[q], n)))
      && (r.outcome != Done ==> r == Reply(s, UniqueViolation))
  {
    hide ConfirmApproved, SetStatusOf, Claim, Unpaid, Unclaimed;
    if n.reference.Some? {
      forall q ensures q in s.payments && Unpaid(s.payments[q], n) <==> Unclaimed(s.payments, q, n.reference.value) {
        UnpaidAreUnclaimed(s.payments, n, q);
      }
      assert MpTaken(s.payments, n.paymentId, None) <==> exists q :: q in s.payments && Holds(s.payments[q], n);
    } else {
      NothingUnpaid(s.payments, n);
    }
  }

  lemma NothingClaimed(payments: map<Id, Payment>, flexId: Id, status: PaymentStatus, mpPaymentId: Id)
    requires !exists q :: Unclaimed(payments, q, flexId)
    ensures Claim(payments, flexId, status, mpPaymentId) == payments
  {}

  lemma ReportClaims(s: State, row: Id, n: Notice)
    requires IsReport(n) && n.reference.Some? && ProcessNotice(s, row, n).outcome == Done
    ensures ProcessNotice(s, row, n).state.payments == Claim(s.payments, n.reference.value,
      if n.status.Rejected? then PaymentStatus.Rejected
      else if n.status.Cancelled? then PaymentStatus.Cancelled else PaymentStatus.Pending, n.paymentId)
  {
    hide ConfirmApproved, SetStatusOf, MpTaken, Claim, Unclaimed;
    if !exists q :: Unclaimed(s.payments, q, n.reference.value) {
      NothingClaimed(s.payments, n.reference.value, MapMpStatus(n.status).value, n.paymentId);
    }
  }

  /** A rejected, cancelled, pending or running payment: the row of its booking that waits without a payment takes it,
      as REJECTED, CANCELLED or PENDING, and no other row changes. */
  lemma ReportRows(s: State, row: Id, n: Notice, p: Id)
    requires IsReport(n) && ProcessNotice(s, row, n).outcome == Done && p in s.payments
    ensures var t := ProcessNotice(s, row, n).state;
      && t == s.(payments := t.payments) && t.payments.Keys == s.payments.Keys
      && t.payments[p] == if !Unpaid(s.payments[p], n) then s.payments[p]
                          else s.payments[p].(
                            mpPaymentId := Some(n.paymentId),
                            status := if n.status.Rejected? then PaymentStatus.Rejected
                                      else if n.status.Cancelled? then PaymentStatus.Cancelled
                                      else PaymentStatus.Pending)
  {
    NoticeEffect(s, row, n);
    if n.reference.Some? {
      ReportClaims(s, row, n);
      UnpaidAreUnclaimed(s.payments, n, p);
      hide ProcessNotice;
    }
  }

  /** The booking an approved payment names, when it is live. */
  predicate Names(s: State, n: Notice, flexId: Id) {
    n.reference == Some(flexId) && flexId in s.flex && !s.flex[flexId].deleted
  }

  /** The payment is for the amount due, to one unit; any payment is when nothing is due. */
  predicate PaysDue(f: FlexBooking, n: Notice) {
    f.reservationPayment.Some? && f.reservationPayment.value > 0 ==>
      -100 <= n.amount - f.reservationPayment.value <= 100
  }

  /** An approved payment that gets recorded: it is for the amount due by a live booking that is not confirmed, no row
      but the one that waits for it holds it, and there is such a row or a fresh identifier. */
  predicate Records(s: State, row: Id, n: Notice, flexId: Id) {
    && Names(s, n, flexId) && !s.flex[flexId].status.Confirmed? && PaysDue(s.flex[flexId], n)
    && (forall p :: p in s.payments && Holds(s.payments[p], n) ==> Waits(s.payments[p], flexId))
    && (row in s.payments ==> exists p :: p in s.payments && Waits(s.payments[p], flexId))
  }

  lemma RecordsIsRecordable(s: State, row: Id, n: Notice, flexId: Id)
    requires OnePending(s.payments) && flexId in s.flex
    requires Names(s, n, flexId) && !s.flex[flexId].status.Confirmed? && PaysDue(s.flex[flexId], n)
    ensures Records(s, row, n, flexId) <==> Recordable(s.payments, flexId, row, n.paymentId)
  {
    var pending := PendingRow(s.payments, flexId);
    if p :| p in s.payments && Waits(s.payments[p], flexId) {
      TheOnlyPending(s.payments, flexId, p);
    }
    hide OnePending;
  }

  /** The table after an approved payment, by the three things that can happen. */
  lemma ApprovedTable(s: State, row: Id, n: Notice, flexId: Id)
    requires n.status.Approved? && n.reference == Some(flexId) && OnePending(s.payments)
    ensures ProcessNotice(s, row, n).state.payments ==
      if Records(s, row, n, flexId) then RecordApproved(s, flexId, row, n).state.payments
      else if Names(s, n, flexId) && s.flex[flexId].status.Confirmed?
      then SetStatusOf(s.payments, n.paymentId, PaymentStatus.Approved)
      else s.payments
  {
    if Names(s, n, flexId) && !s.flex[flexId].status.Confirmed? {
      RecordEffect(s, flexId, row, n);
      ConfirmKeepsPayments(RecordApproved(s, flexId, row, n).state, flexId, n.paymentId);
      if PaysDue(s.flex[flexId], n) {
        RecordsIsRecordable(s, row, n, flexId);
      }
    }
    hide RecordApproved, ConfirmFromPayment, OnePending, Recordable, SetStatusOf;
  }

  lemma RecordedRow(s: State, row: Id, n: Notice, flexId: Id)
    requires flexId in s.flex && OnePending(s.payments) && Recordable(s.payments, flexId, row, n.paymentId)
    ensures var payments := RecordApproved(s, flexId, row, n).state.payments;
      var due := s.flex[flexId].reservationPayment;
      match PendingRow(s.payments, flexId)
      case Some(q) =>
        && q in s.payments && Waits(s.payments[q], flexId)
        && payments == s.payments[q := s.payments[q].(status := PaymentStatus.Approved,
                                                      mpPaymentId := Some(n.paymentId))]
      case None =>
        && row !in s.payments && (forall p :: p in s.payments ==> !Waits(s.payments[p], flexId))
        && payments == s.payments[row := Payment(flexId, PaymentStatus.Approved,
                                                 if due.Some? && due.value != 0 then due.value else n.amount,
                                                 Some(n.paymentId), None)]
  {
    hide OnePending, MpTaken;
    forall p | p in s.payments ensures PendingFor(s.payments, p, flexId) <==> Waits(s.payments[p], flexId) {}
  }

  lemma RecordingAnswers(s: State, flexId: Id, row: Id, n: Notice)
    requires flexId in s.flex
    ensures var outcome := RecordApproved(s, flexId, row, n).outcome; outcome == Done || outcome == UniqueViolation
  {}

  /** What an approved payment answers. */
  lemma ApprovedAnswers(s: State, row: Id, n: Notice, flexId: Id)
    requires n.status.Approved? && n.reference == Some(flexId) && OnePending(s.payments)
    ensures var outcome := ProcessNotice(s, row, n).outcome;
      && (outcome == UniqueViolation <==>
            && Names(s, n, flexId) && !s.flex[flexId].status.Confirmed? && PaysDue(s.flex[flexId], n)
            && !Records(s, row, n, flexId))
      && (outcome == BadRequest <==> Records(s, row, n, flexId) && s.flex[flexId].status.Cancelled?)
      && (outcome == Done || outcome == UniqueViolation || outcome == BadRequest)
  {
    hide RecordApproved, OnePending, Recordable, SetStatusOf;
    if Names(s, n, flexId) && !s.flex[flexId].status.Confirmed? {
      RecordEffect(s, flexId, row, n);
      RecordingAnswers(s, flexId, row, n);
      if PaysDue(s.flex[flexId], n) {
        RecordsIsRecordable(s, row, n, flexId);
      }
    }
  }

  /** Recorded, it confirms its booking unless that is cancelled; beyond that only payment rows change. */
  lemma ApprovedConfirms(s: State, row: Id, n: Notice, flexId: Id)
    requires n.status.Approved? && n.reference == Some(flexId) && OnePending(s.payments)
    ensures var t := ProcessNotice(s, row, n).state;
      t == (if Records(s, row, n, flexId) && !s.flex[flexId].status.Cancelled?
            then ConfirmFromPayment(s, flexId, n.paymentId).state else s).(payments := t.payments)
  {
    hide OnePending, Recordable, ProcessNotice, ConfirmFromPayment;
    NoticeEffect(s, row, n);
    if Names(s, n, flexId) && !s.flex[flexId].status.Confirmed? && PaysDue(s.flex[flexId], n) {
      RecordsIsRecordable(s, row, n, flexId);
    }
    assert Confirms(s, row, n) <==> Records(s, row, n, flexId) && !s.flex[flexId].status.Cancelled?;
  }

  /** Every other notice changes nothing: one that names no booking, an approved payment of a booking that is gone,
      and a status Mercado Pago is not known for. */
  lemma OtherNotices(s: State, row: Id, n: Notice)
    requires n.reference == None || n.status.Other?
             || (n.status.Approved? && (n.reference.value !in s.flex || s.flex[n.reference.value].deleted))
    ensures ProcessNotice(s, row, n) == Reply(s, Done)
  {}

  /** What an approved payment does to a row there was: recorded, it goes to the row of its booking that waits; of a
      confirmed booking, the rows that hold it become APPROVED; no other row changes. */
  lemma ApprovedRows(s: State, row: Id, n: Notice, flexId: Id, p: Id)
    requires n.status.Approved? && n.reference == Some(flexId) && OnePending(s.payments) && p in s.payments
    ensures var t := ProcessNotice(s, row, n).state;
      && p in t.payments
      && t.payments[p] == (
           if Records(s, row, n, flexId) && Waits(s.payments[p], flexId)
           then s.payments[p].(status := PaymentStatus.Approved, mpPaymentId := Some(n.paymentId))
           else if Names(s, n, flexId) && s.flex[flexId].status.Confirmed? && Holds(s.payments[p], n)
           then s.payments[p].(status := PaymentStatus.Approved)
           else s.payments[p])
  {
    ApprovedTable(s, row, n, flexId);
    if Records(s, row, n, flexId) {
      RecordsIsRecordable(s, row, n, flexId);
      RecordedRow(s, row, n, flexId);
      if Waits(s.payments[p], flexId) {
        TheOnlyPending(s.payments, flexId, p);
      }
    }
    hide ProcessNotice, RecordApproved, OnePending, Records, PendingRow, Recordable;
  }

  /** A recorded payment without a waiting row gets a new one, for the amount due or else for what was paid; nothing
      else adds a row. */
  lemma ApprovedRowIsNew(s: State, row: Id, n: Notice, flexId: Id)
    requires n.status.Approved? && n.reference == Some(flexId) && OnePending(s.payments)
    ensures var t := ProcessNotice(s, row, n).state;
      if Records(s, row, n, flexId) && (forall p :: p in s.payments ==> !Waits(s.payments[p], flexId)) then
        var due := s.flex[flexId].reservationPayment;
        && row !in s.payments && t.payments.Keys == s.payments.Keys + {row}
        && t.payments[row] == Payment(flexId, PaymentStatus.Approved,
                                      if due.Some? && due.value != 0 then due.value else n.amount,
                                      Some(n.paymentId), None)
      else t.payments.Keys == s.payments.Keys
  {
    ApprovedTable(s, row, n, flexId);
    if Records(s, row, n, flexId) {
      RecordsIsRecordable(s, row, n, flexId);
      RecordedRow(s, row, n, flexId);
    }
    hide ProcessNotice, RecordApproved, OnePending, PendingRow, Recordable;
  }
}
