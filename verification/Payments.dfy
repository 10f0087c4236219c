/** Mercado Pago checkouts and payment notices for flex bookings. */
module Payments {
  import opened Common
  import opened Tables
  import opened Bookings

  datatype MpStatus = Approved | Rejected | Cancelled | Refunded | ChargedBack | Pending | InProcess | Other

  /** A payment as Mercado Pago reports it. */
  datatype Notice = Notice(paymentId: Id, status: MpStatus, reference: Option<Id>, amount: Cents)

  predicate PendingFor(payments: map<Id, Payment>, row: Id, flexId: Id) {
    row in payments && payments[row].flexBookingId == flexId && payments[row].status.Pending?
  }

  /** The pending row of a booking; there is at most one in every reachable state. */
  ghost function PendingRow(payments: map<Id, Payment>, flexId: Id): Option<Id> {
    if exists row :: PendingFor(payments, row, flexId)
    then var row :| PendingFor(payments, row, flexId); Some(row) else None
  }

  predicate MpTaken(payments: map<Id, Payment>, mpPaymentId: Id, except: Option<Id>) {
    exists row :: row in payments && Some(row) != except && payments[row].mpPaymentId == Some(mpPaymentId)
  }

  function SetStatusOf(payments: map<Id, Payment>, mpPaymentId: Id, status: PaymentStatus): map<Id, Payment> {
    map row | row in payments ::
      if payments[row].mpPaymentId == Some(mpPaymentId) then payments[row].(status := status) else payments[row]
  }

  function CancelPending(payments: map<Id, Payment>, flexId: Id): map<Id, Payment> {
    map row | row in payments ::
      if PendingFor(payments, row, flexId) then payments[row].(status := PaymentStatus.Cancelled) else payments[row]
  }

  predicate Reusable(payments: map<Id, Payment>, flexId: Id, cutoff: int) {
    exists row :: row in payments && PendingFor(payments, row, flexId)
               && payments[row].checkoutAt.Some? && payments[row].checkoutAt.value > cutoff
  }

  /** createPublicCheckout for the booking that carries the payment token; only payable bookings carry one. */
  function CreateCheckout(s: State, flexId: Id, row: Id, now: int, cutoff: int, providerUp: bool): Reply {
    if flexId !in s.flex || s.flex[flexId].deleted || s.flex[flexId].reservationPayment == None then Reply(s, NotFound)
    else
      var f := s.flex[flexId];
      if f.status.Confirmed? || f.status.Cancelled? || f.reservationPayment.value <= 0 then Reply(s, BadRequest)
      else if exists p :: p in s.payments && s.payments[p].flexBookingId == flexId && s.payments[p].status.Approved?
      then Reply(s, BadRequest)
      else if Reusable(s.payments, flexId, cutoff) then Reply(s, Done)
      else
        var s1 := s.(payments := CancelPending(s.payments, flexId));
        if !providerUp then Reply(s1, Unavailable)
        else if row in s1.payments then Reply(s1, UniqueViolation)
        else Reply(s1.(payments := s1.payments[row :=
          Payment(flexId, PaymentStatus.Pending, f.reservationPayment.value, None, Some(now))]), Done)
  }

  function MapMpStatus(st: MpStatus): Option<PaymentStatus> {
    match st
    case Rejected => Some(PaymentStatus.Rejected)
    case Cancelled => Some(PaymentStatus.Cancelled)
    case Refunded | ChargedBack => Some(PaymentStatus.Refunded)
    case Pending | InProcess => Some(PaymentStatus.Pending)
    case Approved | Other => None
  }

  /** The amount a payment must match; 0 when nothing is due. */
  function Expected(f: FlexBooking): Cents {
    if f.reservationPayment.Some? then f.reservationPayment.value else 0
  }

  predicate AmountMatches(f: FlexBooking, n: Notice) {
    Expected(f) > 0 ==> Abs(n.amount - Expected(f)) <= ONE_UNIT
  }

  /** The first transaction of confirmApprovedPayment records the payment; row is the identifier of a new row. */
  ghost function RecordApproved(s: State, flexId: Id, row: Id, n: Notice): Reply
    requires flexId in s.flex
  {
    var pending := PendingRow(s.payments, flexId);
    if MpTaken(s.payments, n.paymentId, pending) then Reply(s, UniqueViolation)
    else if pending.Some? then
      Reply(s.(payments := s.payments[pending.value :=
        s.payments[pending.value].(status := PaymentStatus.Approved, mpPaymentId := Some(n.paymentId))]), Done)
    else if row in s.payments then Reply(s, UniqueViolation)
    else
      var due := Expected(s.flex[flexId]);
      Reply(s.(payments := s.payments[row := Payment(flexId, PaymentStatus.Approved,
        if due != 0 then due else n.amount, Some(n.paymentId), None)]), Done)
  }

  /** No other row holds the payment, and there is a pending row to take it or a free identifier for a new one. */
  ghost predicate Recordable(payments: map<Id, Payment>, flexId: Id, row: Id, mpPaymentId: Id) {
    var pending := PendingRow(payments, flexId);
    !MpTaken(payments, mpPaymentId, pending) && (pending.Some? || row !in payments)
  }

  ghost function ConfirmApproved(s: State, row: Id, n: Notice): Reply {
    if n.reference == None || n.reference.value !in s.flex || s.flex[n.reference.value].deleted then Reply(s, Done)
    else
      var flexId := n.reference.value;
      var f := s.flex[flexId];
      if f.status.Confirmed?
      then Reply(s.(payments := SetStatusOf(s.payments, n.paymentId, PaymentStatus.Approved)), Done)
      else if !AmountMatches(f, n) then Reply(s, Done)
      else
        var r := RecordApproved(s, flexId, row, n);
        if r.outcome != Done then r else ConfirmFromPayment(r.state, flexId, n.paymentId)
  }

  /** The rows an update by booking, no payment id yet and PENDING would touch. */
  predicate Unclaimed(payments: map<Id, Payment>, row: Id, flexId: Id) {
    PendingFor(payments, row, flexId) && payments[row].mpPaymentId == None
  }

  function Claim(payments: map<Id, Payment>, flexId: Id, status: PaymentStatus, mpPaymentId: Id): map<Id, Payment> {
    map row | row in payments ::
      if Unclaimed(payments, row, flexId)
      then payments[row].(status := status, mpPaymentId := Some(mpPaymentId)) else payments[row]
  }

  /** processPaymentNotification. */
  ghost function ProcessNotice(s: State, row: Id, n: Notice): Reply {
    if n.status.Approved? then ConfirmApproved(s, row, n)
    else if n.reference == None || MapMpStatus(n.status) == None then Reply(s, Done)
    else if n.status.Refunded? || n.status.ChargedBack?
    then Reply(s.(payments := SetStatusOf(s.payments, n.paymentId, PaymentStatus.Refunded)), Done)
    else
      var flexId := n.reference.value;
      if !exists p :: Unclaimed(s.payments, p, flexId) then Reply(s, Done)
      else if MpTaken(s.payments, n.paymentId, None) then Reply(s, UniqueViolation)
      else
        Reply(s.(payments := Claim(s.payments, flexId, MapMpStatus(n.status).value, n.paymentId)), Done)
  }
}
