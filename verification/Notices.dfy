/** Payment notices arrive at least once, in any order; they act once. */
module Notices {
  import opened Common
  import opened Tables
  import opened Bookings
  import opened Payments
  import opened Steps
  import opened Effects
  import opened Registry
  import opened Mirror

  // ---------------------------------------------------------------- payment rows

  predicate Rivals(p: Payment, q: Payment) {
    || (p.flexBookingId == q.flexBookingId && p.status.Pending? && q.status.Pending?)
    || (p.mpPaymentId.Some? && p.mpPaymentId == q.mpPaymentId)
  }

  /** No booking has two pending rows, and no Mercado Pago payment has two rows. */
  ghost predicate OnePending(payments: map<Id, Payment>) {
    forall p, q :: p in payments && q in payments && p != q ==> !Rivals(payments[p], payments[q])
  }

  lemma TheOnlyPending(payments: map<Id, Payment>, flexId: Id, row: Id)
    requires OnePending(payments) && PendingFor(payments, row, flexId)
    ensures PendingRow(payments, flexId) == Some(row)
  {
    var found := PendingRow(payments, flexId).value;
    if found != row {
      assert Rivals(payments[found], payments[row]);
    }
  }

  /** A row that is no more pending than before and keeps its payment id. */
  predicate Calms(p: Payment, q: Payment) {
    q.flexBookingId == p.flexBookingId && q.mpPaymentId == p.mpPaymentId && (q.status.Pending? ==> p.status.Pending?)
  }

  lemma CalmKeepsOnePending(payments: map<Id, Payment>, payments': map<Id, Payment>)
    requires OnePending(payments) && payments'.Keys == payments.Keys
    requires forall p :: p in payments ==> Calms(payments[p], payments'[p])
    ensures OnePending(payments')
  {
    forall p, q | p in payments' && q in payments' && p != q ensures !Rivals(payments'[p], payments'[q]) {
      assert Calms(payments[p], payments'[p]) && Calms(payments[q], payments'[q]);
      assert !Rivals(payments[p], payments[q]);
    }
  }

  /** A new or rewritten row without a rival. */
  lemma SetKeepsOnePending(payments: map<Id, Payment>, id: Id, row: Payment)
    requires OnePending(payments)
    requires forall p :: p in payments && p != id ==> !Rivals(payments[p], row)
    ensures OnePending(payments[id := row])
  {
    var payments' := payments[id := row];
    forall p, q | p in payments' && q in payments' && p != q ensures !Rivals(payments'[p], payments'[q]) {
      if p != id && q != id {
        assert !Rivals(payments[p], payments[q]);
      }
    }
  }

  lemma CheckoutKeepsOnePending(s: State, id: Id, row: Id, now: int, cutoff: int, up: bool)
    requires OnePending(s.payments)
    ensures OnePending(CreateCheckout(s, id, row, now, cutoff, up).state.payments)
  {
    hide OnePending;
    var t := CreateCheckout(s, id, row, now, cutoff, up).state;
    if t.payments != s.payments {
      var calm := CancelPending(s.payments, id);
      CalmKeepsOnePending(s.payments, calm);
      if t.payments != calm {
        SetKeepsOnePending(calm, row, t.payments[row]);
      }
    }
  }

  lemma RecordKeepsOnePending(s: State, flexId: Id, row: Id, n: Notice)
    requires OnePending(s.payments) && flexId in s.flex
    ensures OnePending(RecordApproved(s, flexId, row, n).state.payments)
  {
    var t := RecordApproved(s, flexId, row, n).state;
    if t.payments != s.payments {
      var id := if PendingRow(s.payments, flexId).Some? then PendingRow(s.payments, flexId).value else row;
      forall p | p in s.payments && p != id ensures !Rivals(s.payments[p], t.payments[id]) {}
      SetKeepsOnePending(s.payments, id, t.payments[id]);
    }
  }

  lemma StatusKeepsOnePending(payments: map<Id, Payment>, mpPaymentId: Id, status: PaymentStatus)
    requires OnePending(payments) && !status.Pending?
    ensures OnePending(SetStatusOf(payments, mpPaymentId, status))
  {
    CalmKeepsOnePending(payments, SetStatusOf(payments, mpPaymentId, status));
  }

  /** The one unclaimed row of the booking takes the payment id. */
  lemma ClaimOneKeepsOnePending(payments: map<Id, Payment>, flexId: Id, status: PaymentStatus, mpPaymentId: Id)
    requires OnePending(payments) && !MpTaken(payments, mpPaymentId, None)
    ensures OnePending(Claim(payments, flexId, status, mpPaymentId))
  {
    var payments' := Claim(payments, flexId, status, mpPaymentId);
    if id :| Unclaimed(payments, id, flexId) {
      forall p | p in payments && p != id
        ensures !Unclaimed(payments, p, flexId) && !Rivals(payments[p], payments'[id]) {
        assert !Rivals(payments[p], payments[id]);
      }
      assert payments' == payments[id := payments'[id]];
      SetKeepsOnePending(payments, id, payments'[id]);
    } else {
      assert payments' == payments;
    }
  }

  lemma RefundsAreMapped(st: MpStatus)
    ensures st.Refunded? || st.ChargedBack? ==> MapMpStatus(st) == Some(PaymentStatus.Refunded)
  {}

  lemma UnclaimedAreRows(payments: map<Id, Payment>, flexId: Id)
    ensures (exists p :: p in payments && Unclaimed(payments, p, flexId))
       <==> exists p :: Unclaimed(payments, p, flexId)
  {}

  lemma ClaimKeepsOnePending(s: State, row: Id, n: Notice)
    requires OnePending(s.payments) && !n.status.Approved?
    ensures OnePending(ProcessNotice(s, row, n).state.payments)
  {
    hide OnePending, Claim, SetStatusOf;
    var t := ProcessNotice(s, row, n).state;
    if t.payments == s.payments {
    } else if n.status.Refunded? || n.status.ChargedBack? {
      StatusKeepsOnePending(s.payments, n.paymentId, PaymentStatus.Refunded);
    } else {
      ClaimOneKeepsOnePending(s.payments, n.reference.value, MapMpStatus(n.status).value, n.paymentId);
    }
  }

  lemma ApprovedKeepsOnePending(s: State, row: Id, n: Notice)
    requires OnePending(s.payments) && n.status.Approved?
    ensures OnePending(ProcessNotice(s, row, n).state.payments)
  {
    if n.reference.Some? && n.reference.value in s.flex {
      var f := n.reference.value;
      RecordKeepsOnePending(s, f, row, n);
      RecordEffect(s, f, row, n);
      ConfirmIgnoresPayments(s, RecordApproved(s, f, row, n).state.payments, f, n.paymentId);
      StatusKeepsOnePending(s.payments, n.paymentId, PaymentStatus.Approved);
      ConfirmKeepsPayments(RecordApproved(s, f, row, n).state, f, n.paymentId);
    }
  }

  lemma ConfirmKeepsPayments(s: State, f: Id, mpPaymentId: Id)
    ensures ConfirmFromPayment(s, f, mpPaymentId).state.payments == s.payments
  {}

  lemma FlexKeepsPayments(s: State, id: Id, dto: FlexChange)
    ensures UpdateFlex(s, id, dto).state.payments == s.payments
    ensures DeleteFlex(s, id).state.payments == s.payments
  {
    hide ChangedFlex, ChangedRegistry, Conflict, Logged, RepricePending, ApprovePending;
  }

  lemma OthersKeepPayments(s: State, step: Step)
    requires !IsPaymentStep(step)
    ensures Next(s, step).payments == s.payments
  {
    if step.StartSessionStep? {
      SessionStepEffect(s, step);
    } else if IsRateStep(step) {
      RateStepEffect(s, step);
    } else if IsSettlementStep(step) {
      SettlementStepEffect(s, step);
    } else if step.UpdateFlexStep? {
      FlexKeepsPayments(s, step.id, step.change);
    } else if step.DeleteFlexStep? {
      FlexKeepsPayments(s, step.id, FlexChange(None, None, None, None, None, None));
    }
  }

  lemma StepKeepsOnePending(s: State, step: Step)
    requires OnePending(s.payments)
    ensures OnePending(Next(s, step).payments)
  {
    if step.CreateCheckoutStep? {
      CheckoutKeepsOnePending(s, step.id, step.row, step.now, step.cutoff, step.providerUp);
    } else if step.NoticeStep? {
      if step.notice.status.Approved? {
        ApprovedKeepsOnePending(s, step.row, step.notice);
      } else {
        ClaimKeepsOnePending(s, step.row, step.notice);
      }
    } else {
      OthersKeepPayments(s, step);
    }
  }

  /** In every reachable state a flex booking has at most one pending payment row. */
  lemma {:induction false} AtMostOnePending(s: State, steps: seq<Step>)
    requires OnePending(s.payments)
    ensures OnePending(Run(s, steps).payments)
    decreases |steps|
  {
    if steps != [] {
      StepKeepsOnePending(s, steps[0]);
      AtMostOnePending(Next(s, steps[0]), steps[1..]);
    }
  }

  // ---------------------------------------------------------------- notices act once

  /** A notice, with the identifier a payment row created for it would get. */
  datatype Arrival = Arrival(row: Id, notice: Notice)

  /** The webhook, a sync or a reconciliation feed notices in, one after the other. */
  ghost function Receive(s: State, arrivals: seq<Arrival>): State
    decreases |arrivals|
  {
    if arrivals == [] then s
    else Receive(ProcessNotice(s, arrivals[0].row, arrivals[0].notice).state, arrivals[1..])
  }

  ghost predicate ConfirmsFor(s: State, a: Arrival, f: Id) {
    Confirms(s, a.row, a.notice) && a.notice.reference == Some(f)
  }

  /** The notice that confirms booking f in this sequence, if any does. */
  ghost function FirstConfirming(s: State, f: Id, arrivals: seq<Arrival>): Option<Arrival>
    decreases |arrivals|
  {
    if arrivals == [] then None
    else if ConfirmsFor(s, arrivals[0], f) then Some(arrivals[0])
    else FirstConfirming(ProcessNotice(s, arrivals[0].row, arrivals[0].notice).state, f, arrivals[1..])
  }

  /** Everything a confirmation of booking f may touch. */
  datatype Dossier = Dossier(
    flex: FlexBooking, booking: Booking, history: seq<HistoryEntry>, commission: Option<Commission>)

  ghost predicate Filed(s: State, f: Id) {
    f in s.flex && f in s.registryOf && s.registryOf[f] in s.bookings && s.registryOf[f] in s.history
  }

  ghost function DossierOf(s: State, f: Id): Dossier
    requires Filed(s, f)
  {
    var r := s.registryOf[f];
    Dossier(s.flex[f], s.bookings[r], s.history[r], if r in s.commissions then Some(s.commissions[r]) else None)
  }

  /** What a payment makes of a dossier. */
  function Confirmed(d: Dossier, mpPaymentId: Id): Dossier {
    if d.flex.deleted || d.flex.status.Confirmed? || d.flex.status.Cancelled? then d
    else
      var flex := d.flex.(status := FlexStatus.Confirmed);
      if d.booking.status.Confirmed? then d.(flex := flex)
      else
        Dossier(flex,
                d.booking.(status := BookingStatus.Confirmed),
                d.history +
                  [HistoryEntry(Some(d.booking.status), BookingStatus.Confirmed, PaymentApproved(mpPaymentId))],
                if d.commission.Some? && d.commission.value.status.Pending? && d.commission.value.settlementId == None
                then Some(d.commission.value.(status := CommissionStatus.Approved)) else d.commission)
  }

  lemma ConfirmDossier(s: State, f: Id, mpPaymentId: Id)
    requires Filed(s, f)
    ensures var t := ConfirmFromPayment(s, f, mpPaymentId).state;
      Filed(t, f) && DossierOf(t, f) == Confirmed(DossierOf(s, f), mpPaymentId)
  {}

  /** Registry rows of different flex bookings are different. */
  lemma DistinctRows(s: State, f: Id, g: Id)
    requires Paired(s.flex, s.bookings, s.registryOf) && f in s.flex && g in s.flex && f != g
    ensures s.registryOf[f] != s.registryOf[g]
  {
    assert Registers(s.bookings[s.registryOf[f]], f, s.flex[f]) && Registers(s.bookings[s.registryOf[g]], g, s.flex[g]);
  }

  lemma ConfirmOther(s: State, f: Id, g: Id, mpPaymentId: Id)
    requires Filed(s, f) && f != g
    requires g in s.registryOf ==> s.registryOf[g] != s.registryOf[f]
    ensures var t := ConfirmFromPayment(s, g, mpPaymentId).state; Filed(t, f) && DossierOf(t, f) == DossierOf(s, f)
  {}

  /** One notice: the dossier of f changes only when it confirms f, and then as the payment alone changes it. */
  lemma NoticeDossier(s: State, a: Arrival, f: Id)
    requires Paired(s.flex, s.bookings, s.registryOf) && Filed(s, f)
    ensures var t := ProcessNotice(s, a.row, a.notice).state;
      && Filed(t, f)
      && DossierOf(t, f)
         == (if ConfirmsFor(s, a, f) then Confirmed(DossierOf(s, f), a.notice.paymentId) else DossierOf(s, f))
  {
    hide Paired, Registers;
    NoticeEffect(s, a.row, a.notice);
    if Confirms(s, a.row, a.notice) {
      var g := a.notice.reference.value;
      if g == f {
        ConfirmDossier(s, f, a.notice.paymentId);
      } else {
        DistinctRows(s, f, g);
        ConfirmOther(s, f, g, a.notice.paymentId);
      }
    }
  }

  lemma {:induction false} ReceiveDossier(s: State, f: Id, arrivals: seq<Arrival>)
    requires Linked(s) && Filed(s, f)
    ensures var t := Receive(s, arrivals);
      && Filed(t, f)
      && DossierOf(t, f) == match FirstConfirming(s, f, arrivals)
                            case None => DossierOf(s, f)
                            case Some(a) => Confirmed(DossierOf(s, f), a.notice.paymentId)
    decreases |arrivals|
  {
    hide Paired, Owned;
    if arrivals != [] {
      var a := arrivals[0];
      var t := ProcessNotice(s, a.row, a.notice).state;
      NoticeDossier(s, a, f);
      NoticeLinks(s, a.row, a.notice);
      SameLinksKeepLinked(s, t);
      ReceiveDossier(t, f, arrivals[1..]);
      if ConfirmsFor(s, a, f) {
        NothingMoreConfirms(t, f, arrivals[1..]);
      }
    }
  }

  lemma {:induction false} NothingMoreConfirms(s: State, f: Id, arrivals: seq<Arrival>)
    requires Linked(s) && Filed(s, f) && s.flex[f].status.Confirmed?
    ensures FirstConfirming(s, f, arrivals) == None
    decreases |arrivals|
  {
    if arrivals != [] {
      var a := arrivals[0];
      NoticeDossier(s, a, f);
      NoticeLinks(s, a.row, a.notice);
      SameLinksKeepLinked(s, ProcessNotice(s, a.row, a.notice).state);
      NothingMoreConfirms(ProcessNotice(s, a.row, a.notice).state, f, arrivals[1..]);
    }
  }

  /** Any sequence of notices leaves flex booking, registry row, history and commission as the confirmation by its first
      confirming payment alone does, or untouched when none confirms. */
  lemma NoticesActOnce(s: State, f: Id, arrivals: seq<Arrival>)
    requires Linked(s) && Filed(s, f)
    ensures var t := Receive(s, arrivals);
      && Filed(t, f)
      && match FirstConfirming(s, f, arrivals)
         case None => DossierOf(t, f) == DossierOf(s, f)
         case Some(a) =>
           var u := ConfirmFromPayment(s, f, a.notice.paymentId).state;
           Filed(u, f) && DossierOf(t, f) == DossierOf(u, f)
  {
    ReceiveDossier(s, f, arrivals);
    if FirstConfirming(s, f, arrivals).Some? {
      ConfirmDossier(s, f, FirstConfirming(s, f, arrivals).value.notice.paymentId);
    }
  }

  // ---------------------------------------------------------------- the first confirming notice alone

  /** What notices do to payment rows: none disappears or becomes pending, and one that is not pending keeps its
      payment. */
  ghost predicate Aged(payments: map<Id, Payment>, payments': map<Id, Payment>) {
    && (forall p :: p in payments ==> p in payments' && payments'[p].flexBookingId == payments[p].flexBookingId)
    && (forall p :: p in payments && !payments[p].status.Pending? ==>
          !payments'[p].status.Pending? && payments'[p].mpPaymentId == payments[p].mpPaymentId)
    && (forall p :: p in payments' && p !in payments ==> !payments'[p].status.Pending?)
  }

  lemma AgedRefl(payments: map<Id, Payment>)
    ensures Aged(payments, payments)
  {}

  lemma SetStatusAges(payments: map<Id, Payment>, mpPaymentId: Id, status: PaymentStatus)
    requires !status.Pending?
    ensures Aged(payments, SetStatusOf(payments, mpPaymentId, status))
  {}

  lemma ClaimAges(payments: map<Id, Payment>, flexId: Id, status: PaymentStatus, mpPaymentId: Id)
    ensures Aged(payments, Claim(payments, flexId, status, mpPaymentId))
  {}

  lemma PutAges(payments: map<Id, Payment>, id: Id, row: Payment)
    requires !row.status.Pending?
    requires id in payments ==> payments[id].status.Pending? && row.flexBookingId == payments[id].flexBookingId
    ensures Aged(payments, payments[id := row])
  {}

  lemma RecordAges(s: State, flexId: Id, row: Id, n: Notice)
    requires flexId in s.flex
    ensures Aged(s.payments, RecordApproved(s, flexId, row, n).state.payments)
  {
    hide Aged;
    var t := RecordApproved(s, flexId, row, n).state;
    AgedRefl(s.payments);
    if t != s {
      var id := if PendingRow(s.payments, flexId).Some? then PendingRow(s.payments, flexId).value else row;
      PutAges(s.payments, id, t.payments[id]);
    }
  }

  lemma NoticeAges(s: State, row: Id, n: Notice)
    ensures Aged(s.payments, ProcessNotice(s, row, n).state.payments)
  {
    hide Aged, SetStatusOf, Claim;
    AgedRefl(s.payments);
    SetStatusAges(s.payments, n.paymentId, PaymentStatus.Approved);
    SetStatusAges(s.payments, n.paymentId, PaymentStatus.Refunded);
    if n.reference.Some? && !n.status.Approved? && MapMpStatus(n.status).Some? {
      ClaimAges(s.payments, n.reference.value, MapMpStatus(n.status).value, n.paymentId);
    }
    if n.status.Approved? && n.reference.Some? && n.reference.value in s.flex {
      var f := n.reference.value;
      RecordAges(s, f, row, n);
      ConfirmKeepsPayments(RecordApproved(s, f, row, n).state, f, n.paymentId);
      hide RecordApproved;
    }
  }

  /** A payment has one external reference: a row that holds the payment of a notice belongs to the booking it names. */
  ghost predicate Consistent(payments: map<Id, Payment>, a: Arrival) {
    forall p :: p in payments && payments[p].mpPaymentId == Some(a.notice.paymentId) ==>
      a.notice.reference == Some(payments[p].flexBookingId)
  }

  /** What can be recorded later could have been recorded before. */
  lemma RecordableBefore(payments: map<Id, Payment>, payments': map<Id, Payment>, f: Id, a: Arrival)
    requires OnePending(payments) && Aged(payments, payments')
    requires Consistent(payments, a) && a.notice.reference == Some(f)
    requires Recordable(payments', f, a.row, a.notice.paymentId)
    ensures Recordable(payments, f, a.row, a.notice.paymentId)
  {
    var pending, pending' := PendingRow(payments, f), PendingRow(payments', f);
    if pending'.Some? {
      assert PendingFor(payments, pending'.value, f);
      TheOnlyPending(payments, f, pending'.value);
    }
    forall p | p in payments && payments[p].mpPaymentId == Some(a.notice.paymentId) ensures Some(p) == pending {
      assert payments'[p].mpPaymentId == Some(a.notice.paymentId) ==> Some(p) == pending';
      assert payments[p].status.Pending?;
      TheOnlyPending(payments, f, p);
    }
  }

  lemma AgesTransitively(first: map<Id, Payment>, second: map<Id, Payment>, third: map<Id, Payment>)
    requires Aged(first, second) && Aged(second, third)
    ensures Aged(first, third)
  {}

  /** A notice that leaves booking f alone keeps what the induction below needs. */
  lemma OtherNotice(t: State, f: Id, a: Arrival)
    requires Linked(t) && Filed(t, f) && !ConfirmsFor(t, a, f)
    ensures var u := ProcessNotice(t, a.row, a.notice).state;
      Linked(u) && Filed(u, f) && u.flex[f] == t.flex[f] && Aged(t.payments, u.payments)
  {
    NoticeDossier(t, a, f);
    NoticeAges(t, a.row, a.notice);
    NoticeLinks(t, a.row, a.notice);
    SameLinksKeepLinked(t, ProcessNotice(t, a.row, a.notice).state);
    hide ProcessNotice, Linked, SameLinks, Aged, ConfirmsFor;
  }

  /** A notice that confirms booking f now would have confirmed it earlier, when f was the same. */
  lemma ConfirmsBefore(s: State, t: State, f: Id, a: Arrival)
    requires OnePending(s.payments) && Aged(s.payments, t.payments) && Consistent(s.payments, a)
    requires f in s.flex && f in t.flex && t.flex[f] == s.flex[f]
    requires ConfirmsFor(t, a, f)
    ensures ConfirmsFor(s, a, f)
  {
    RecordableBefore(s.payments, t.payments, f, a);
    hide Aged, Consistent, OnePending, Recordable;
  }

  lemma FirstConfirmingNext(s: State, f: Id, arrivals: seq<Arrival>)
    requires FirstConfirming(s, f, arrivals).Some?
    ensures arrivals != []
    ensures var a := arrivals[0];
      FirstConfirming(s, f, arrivals)
      == if ConfirmsFor(s, a, f) then Some(a)
         else FirstConfirming(ProcessNotice(s, a.row, a.notice).state, f, arrivals[1..])
  {}

  /** The first notice that confirms booking f after some others would have confirmed it before them. */
  lemma {:induction false} FirstConfirmsBefore(s: State, t: State, f: Id, arrivals: seq<Arrival>)
    requires OnePending(s.payments) && Aged(s.payments, t.payments)
    requires Linked(t) && Filed(t, f) && f in s.flex && t.flex[f] == s.flex[f]
    requires forall i :: 0 <= i < |arrivals| ==> Consistent(s.payments, arrivals[i])
    requires FirstConfirming(t, f, arrivals).Some?
    ensures ConfirmsFor(s, FirstConfirming(t, f, arrivals).value, f)
    decreases |arrivals|
  {
    hide Linked, Aged, OnePending, Consistent, ConfirmsFor, FirstConfirming, ProcessNotice;
    FirstConfirmingNext(t, f, arrivals);
    var a := arrivals[0];
    if ConfirmsFor(t, a, f) {
      ConfirmsBefore(s, t, f, a);
    } else {
      var u := ProcessNotice(t, a.row, a.notice).state;
      OtherNotice(t, f, a);
      AgesTransitively(s.payments, t.payments, u.payments);
      FirstConfirmsBefore(s, u, f, arrivals[1..]);
    }
  }

  /** Any sequence of notices leaves flex booking, registry row, history and commission as its first confirming notice
      alone leaves them, processed in the beginning and without the others. */
  lemma FirstConfirmingActsAlone(s: State, f: Id, arrivals: seq<Arrival>)
    requires Linked(s) && Filed(s, f) && OnePending(s.payments)
    requires forall i :: 0 <= i < |arrivals| ==> Consistent(s.payments, arrivals[i])
    requires FirstConfirming(s, f, arrivals).Some?
    ensures var a := FirstConfirming(s, f, arrivals).value;
      var t, u := Receive(s, arrivals), ProcessNotice(s, a.row, a.notice).state;
      Filed(t, f) && Filed(u, f) && DossierOf(t, f) == DossierOf(u, f)
  {
    AgedRefl(s.payments);
    NoticeDossier(s, FirstConfirming(s, f, arrivals).value, f);
    hide Linked, Aged, OnePending, Consistent, ConfirmsFor, FirstConfirming, ProcessNotice;
    FirstConfirmsBefore(s, s, f, arrivals);
    ReceiveDossier(s, f, arrivals);
  }

  /** A pending booking whose registry mirrors it: one confirming payment among the notices means one history entry,
      naming that payment, and an approved commission; no confirming payment means no change at all. */
  lemma PendingIsConfirmedOnce(s: State, f: Id, arrivals: seq<Arrival>)
    requires Linked(s) && Mirrored(s) && Filed(s, f) && s.flex[f].status.Pending? && !s.flex[f].deleted
    ensures var t := Receive(s, arrivals); var r := s.registryOf[f];
      && Filed(t, f) && t.registryOf[f] == r
      && match FirstConfirming(s, f, arrivals)
         case None => t.flex[f] == s.flex[f] && t.bookings[r] == s.bookings[r] && t.history[r] == s.history[r]
         case Some(a) =>
           && t.flex[f].status.Confirmed? && t.bookings[r].status.Confirmed?
           && t.history[r] == s.history[r]
                + [HistoryEntry(Some(BookingStatus.Pending), BookingStatus.Confirmed,
                               PaymentApproved(a.notice.paymentId))]
           && (r in s.commissions && s.commissions[r].status.Pending? && s.commissions[r].settlementId == None ==>
                 r in t.commissions && t.commissions[r] == s.commissions[r].(status := CommissionStatus.Approved))
  {
    assert Mirrors(s.flex[f], s.bookings[s.registryOf[f]]);
    ReceiveDossier(s, f, arrivals);
    ReceiveKeepsIndex(s, arrivals);
  }

  lemma {:induction false} ReceiveKeepsIndex(s: State, arrivals: seq<Arrival>)
    requires PaymentsOwned(s.flex, s.payments)
    ensures Receive(s, arrivals).registryOf == s.registryOf
    decreases |arrivals|
  {
    if arrivals != [] {
      var t := ProcessNotice(s, arrivals[0].row, arrivals[0].notice).state;
      NoticeLinks(s, arrivals[0].row, arrivals[0].notice);
      SameLinksOwnPayments(s, t);
      ReceiveKeepsIndex(t, arrivals[1..]);
    }
  }

  lemma SameLinksOwnPayments(s: State, t: State)
    requires SameLinks(s, t)
    ensures PaymentsOwned(t.flex, t.payments)
  {}

  /** The payment path changes the status of a booking exactly on an approved payment that names it, matches the amount
      due within one unit and can be recorded, while the booking is live and neither confirmed nor cancelled; it then
      confirms the booking and records the payment as approved. */
  lemma ConfirmationNeedsPayment(s: State, a: Arrival, f: Id)
    requires Paired(s.flex, s.bookings, s.registryOf) && Filed(s, f)
    ensures var t := ProcessNotice(s, a.row, a.notice).state;
      && f in t.flex
      && (t.flex[f].status != s.flex[f].status <==> ConfirmsFor(s, a, f))
      && (t.flex[f].status != s.flex[f].status ==>
            && t.flex[f].status.Confirmed? && a.notice.status.Approved? && a.notice.reference == Some(f)
            && (Expected(s.flex[f]) > 0 ==> Abs(a.notice.amount - Expected(s.flex[f])) <= ONE_UNIT)
            && exists p :: p in t.payments && t.payments[p].flexBookingId == f
                 && t.payments[p].status.Approved? && t.payments[p].mpPaymentId == Some(a.notice.paymentId))
  {
    NoticeDossier(s, a, f);
    if ConfirmsFor(s, a, f) {
      var rec := RecordApproved(s, f, a.row, a.notice).state;
      RecordEffect(s, f, a.row, a.notice);
      ConfirmKeepsPayments(rec, f, a.notice.paymentId);
      var p := if PendingRow(s.payments, f).Some? then PendingRow(s.payments, f).value else a.row;
      assert p in rec.payments && rec.payments[p].status.Approved?;
    }
  }

  /** An approved payment for the amount due by a live, unconfirmed booking that cannot be recorded, or names a
      cancelled booking; or another report that a row of its booking waits for while some row holds the payment. */
  ghost predicate Throws(s: State, row: Id, n: Notice) {
    && n.reference.Some?
    && var f := n.reference.value;
       if n.status.Approved? then
         && f in s.flex && !s.flex[f].deleted && !s.flex[f].status.Confirmed? && AmountMatches(s.flex[f], n)
         && (s.flex[f].status.Cancelled? || !Recordable(s.payments, f, row, n.paymentId))
       else
         && (n.status.Rejected? || n.status.Cancelled? || n.status.Pending? || n.status.InProcess?)
         && (exists p :: Unclaimed(s.payments, p, f)) && MpTaken(s.payments, n.paymentId, None)
  }

  /** Exactly these notices throw. */
  lemma NoticeThrows(s: State, row: Id, n: Notice)
    ensures ProcessNotice(s, row, n).outcome != Done <==> Throws(s, row, n)
  {
    hide SetStatusOf, Claim, MpTaken, Logged, ApprovePending;
    if n.status.Approved? && n.reference.Some? && n.reference.value in s.flex {
      RecordEffect(s, n.reference.value, row, n);
      hide RecordApproved, Recordable;
    }
  }

  /** A late payment takes a completed booking back to confirmed: exactly the confirming notices do. */
  lemma CompletedStays(s: State, a: Arrival, f: Id)
    requires Paired(s.flex, s.bookings, s.registryOf) && Filed(s, f) && s.flex[f].status.Completed?
    ensures var t := ProcessNotice(s, a.row, a.notice).state;
      f in t.flex && (t.flex[f].status.Completed? <==> !ConfirmsFor(s, a, f))
  {
    NoticeDossier(s, a, f);
  }
}
