/** How the tables refer to each other, over every run. */
module Registry {
  import opened Common
  import opened Tables
  import opened Rates
  import opened Bookings
  import opened Settlements
  import opened Payments
  import opened Steps
  import opened Effects

  predicate Registers(b: Booking, flexId: Id, f: FlexBooking) {
    && b.source == Flex && b.flexBookingId == Some(flexId) && b.propertyId == None
    && b.propertyFlexId == Some(f.propertyFlexId) && b.profileId == f.profileId
  }

  predicate LinksBack(registryOf: map<Id, Id>, id: Id, b: Booking) {
    match b.flexBookingId
    case Some(f) => f in registryOf && registryOf[f] == id
    case None => b.propertyFlexId == None && b.source != Flex
  }

  /** A flex stay, and a stay of an ambassador at a property, earns a commission. */
  predicate Earns(b: Booking) {
    b.flexBookingId.Some? || (b.propertyId.Some? && b.profileId.Some?)
  }

  /** Every flex booking has its own registry row, and only flex bookings have one. */
  ghost predicate Paired(flex: map<Id, FlexBooking>, bookings: map<Id, Booking>, registryOf: map<Id, Id>) {
    && registryOf.Keys == flex.Keys
    && (forall f :: f in flex ==> registryOf[f] in bookings && Registers(bookings[registryOf[f]], f, flex[f]))
    && (forall b :: b in bookings ==> LinksBack(registryOf, b, bookings[b]))
  }

  /** Commissions belong to the ambassador of their booking and exist wherever one is due. */
  ghost predicate Owned(bookings: map<Id, Booking>, commissions: map<Id, Commission>) {
    && (forall b :: b in commissions ==> b in bookings && commissions[b].profileId == bookings[b].profileId)
    && (forall b :: b in bookings && Earns(bookings[b]) ==> b in commissions)
  }

  ghost predicate PaymentsOwned(flex: map<Id, FlexBooking>, payments: map<Id, Payment>) {
    forall p :: p in payments ==> payments[p].flexBookingId in flex
  }

  ghost predicate Linked(s: State) {
    && Paired(s.flex, s.bookings, s.registryOf)
    && Owned(s.bookings, s.commissions)
    && PaymentsOwned(s.flex, s.payments)
  }

  predicate SameStay(f: FlexBooking, g: FlexBooking) {
    g.propertyFlexId == f.propertyFlexId && g.profileId == f.profileId
  }

  predicate SameOwner(b: Booking, c: Booking) {
    && c.source == b.source && c.flexBookingId == b.flexBookingId && c.propertyFlexId == b.propertyFlexId
    && c.propertyId == b.propertyId && c.profileId == b.profileId
    && c.cloudbedsReservationId == b.cloudbedsReservationId
  }

  ghost predicate SameStays(flex: map<Id, FlexBooking>, flex': map<Id, FlexBooking>) {
    flex'.Keys == flex.Keys && forall f :: f in flex ==> SameStay(flex[f], flex'[f])
  }

  ghost predicate SameOwners(bookings: map<Id, Booking>, bookings': map<Id, Booking>) {
    bookings'.Keys == bookings.Keys && forall b :: b in bookings ==> SameOwner(bookings[b], bookings'[b])
  }

  ghost predicate SameCollectors(commissions: map<Id, Commission>, commissions': map<Id, Commission>) {
    && commissions'.Keys == commissions.Keys
    && forall b :: b in commissions ==> commissions'[b].profileId == commissions[b].profileId
  }

  /** What no step except a creation changes: which rows exist and whom they point to. */
  ghost predicate SameLinks(s: State, t: State) {
    && t.registryOf == s.registryOf && t.sessions == s.sessions
    && SameStays(s.flex, t.flex)
    && SameOwners(s.bookings, t.bookings)
    && SameCollectors(s.commissions, t.commissions)
    && PaymentsOwned(s.flex, t.payments)
  }

  lemma SameLinksKeepPaired(s: State, t: State)
    requires Paired(s.flex, s.bookings, s.registryOf)
    requires t.registryOf == s.registryOf && SameStays(s.flex, t.flex) && SameOwners(s.bookings, t.bookings)
    ensures Paired(t.flex, t.bookings, t.registryOf)
  {
    forall f | f in t.flex
      ensures t.registryOf[f] in t.bookings && Registers(t.bookings[t.registryOf[f]], f, t.flex[f])
    {
      assert SameStay(s.flex[f], t.flex[f]);
      assert SameOwner(s.bookings[s.registryOf[f]], t.bookings[s.registryOf[f]]);
    }
    forall b | b in t.bookings ensures LinksBack(t.registryOf, b, t.bookings[b]) {
      assert SameOwner(s.bookings[b], t.bookings[b]);
    }
  }

  lemma SameLinksKeepOwned(s: State, t: State)
    requires Owned(s.bookings, s.commissions)
    requires SameOwners(s.bookings, t.bookings) && SameCollectors(s.commissions, t.commissions)
    ensures Owned(t.bookings, t.commissions)
  {
    forall b | b in t.bookings
      ensures b in t.commissions ==> t.commissions[b].profileId == t.bookings[b].profileId
      ensures Earns(t.bookings[b]) ==> b in t.commissions
    {
      assert SameOwner(s.bookings[b], t.bookings[b]);
    }
  }

  lemma SameLinksKeepLinked(s: State, t: State)
    requires Linked(s) && SameLinks(s, t)
    ensures Linked(t)
  {
    SameLinksKeepPaired(s, t);
    SameLinksKeepOwned(s, t);
  }

  lemma SetStays(flex: map<Id, FlexBooking>, id: Id, f: FlexBooking)
    requires id in flex && SameStay(flex[id], f)
    ensures SameStays(flex, flex[id := f])
  {}

  lemma SetOwners(bookings: map<Id, Booking>, id: Id, b: Booking)
    requires id in bookings && SameOwner(bookings[id], b)
    ensures SameOwners(bookings, bookings[id := b])
  {}

  lemma CancelledRows(flex: map<Id, FlexBooking>, f: Option<Id>, bookings: map<Id, Booking>,
                      commissions: map<Id, Commission>, id: Id)
    requires id in bookings
    ensures SameStays(flex, CancelFlexRow(flex, f))
    ensures SameOwners(bookings, WithStatus(bookings, id, BookingStatus.Cancelled))
    ensures SameCollectors(commissions, CancelCommission(commissions, id))
  {}

  lemma CancelLinks(s: State, id: Id)
    requires PaymentsOwned(s.flex, s.payments)
    ensures SameLinks(s, CancelBooking(s, id).state)
  {
    SameLinksRefl(s);
    hide SameStays, SameOwners, SameCollectors, PaymentsOwned, CancelFlexRow, WithStatus, CancelCommission, Logged;
    if id in s.bookings {
      CancelledRows(s.flex, s.bookings[id].flexBookingId, s.bookings, s.commissions, id);
    }
  }

  lemma RepricedRows(commissions: map<Id, Commission>, r: Id, t: Terms)
    ensures SameCollectors(commissions, commissions)
    ensures SameCollectors(commissions, RepricePending(commissions, r, t))
    ensures SameCollectors(commissions, ApprovePending(commissions, r))
    ensures SameCollectors(commissions, ApprovePending(RepricePending(commissions, r, t), r))
  {}

  lemma UpdateRowsLinks(s: State, id: Id, dto: FlexChange, r: Id)
    requires PaymentsOwned(s.flex, s.payments) && id in s.flex && r in s.bookings
    ensures SameLinks(s, UpdateRows(s, id, dto, r))
  {
    var t := UpdateRows(s, id, dto, r);
    SetStays(s.flex, id, t.flex[id]);
    SetOwners(s.bookings, r, t.bookings[r]);
    var f := ChangedFlex(s.flex[id], dto);
    RepricedRows(s.commissions, r, Terms(ResolveFlexRate(s.catalog, f.propertyFlexId, s.bookings[r].profileId).rate,
                                         f.monthlyAmount));
    hide SameStays, SameOwners, SameCollectors, PaymentsOwned, RepricePending, ApprovePending, Logged, ResolveFlexRate;
  }

  lemma SameLinksTrans(s: State, t: State, u: State)
    requires SameLinks(s, t) && SameLinks(t, u)
    ensures SameLinks(s, u)
  {
    forall b | b in s.bookings ensures SameOwner(s.bookings[b], u.bookings[b]) {
      assert SameOwner(s.bookings[b], t.bookings[b]) && SameOwner(t.bookings[b], u.bookings[b]);
    }
    forall f | f in s.flex ensures SameStay(s.flex[f], u.flex[f]) {
      assert SameStay(s.flex[f], t.flex[f]) && SameStay(t.flex[f], u.flex[f]);
    }
  }

  lemma SameLinksRefl(s: State)
    requires PaymentsOwned(s.flex, s.payments)
    ensures SameLinks(s, s)
  {}

  lemma UpdateFlexLinks(s: State, id: Id, dto: FlexChange)
    requires PaymentsOwned(s.flex, s.payments) && s.registryOf.Keys == s.flex.Keys
    requires id in s.flex ==> s.registryOf[id] in s.bookings
    ensures SameLinks(s, UpdateFlex(s, id, dto).state)
  {
    var t := UpdateFlex(s, id, dto).state;
    SameLinksRefl(s);
    if t != s {
      var s1 := UpdateRows(s, id, dto, s.registryOf[id]);
      UpdateRowsLinks(s, id, dto, s.registryOf[id]);
      if t != s1 {
        CancelLinks(s1, s.registryOf[id]);
        SameLinksTrans(s, s1, t);
      }
    }
  }

  lemma DeleteRowsLinks(s: State, id: Id, r: Id)
    requires PaymentsOwned(s.flex, s.payments)
    ensures SameLinks(s, s.(flex := DeleteFlexRow(s.flex, id), bookings := DeleteBookingRow(s.bookings, r)))
  {}

  lemma DeleteFlexLinks(s: State, id: Id)
    requires PaymentsOwned(s.flex, s.payments)
    ensures SameLinks(s, DeleteFlex(s, id).state)
  {
    var t := DeleteFlex(s, id).state;
    SameLinksRefl(s);
    if id !in s.flex || s.flex[id].deleted {
    } else if id !in s.registryOf || s.registryOf[id] !in s.bookings {
      SetStays(s.flex, id, t.flex[id]);
    } else {
      var r := s.registryOf[id];
      var c := if s.bookings[r].status.Cancelled? then Reply(s, Done) else CancelBooking(s, r);
      CancelLinks(s, r);
      if c.outcome == Done {
        DeleteRowsLinks(c.state, id, r);
        SameLinksTrans(s, c.state, t);
      }
    }
  }

  lemma ConfirmFromPaymentLinks(s: State, id: Id, mpPaymentId: Id)
    requires PaymentsOwned(s.flex, s.payments)
    ensures SameLinks(s, ConfirmFromPayment(s, id, mpPaymentId).state)
  {
    hide SameStays, SameOwners, Logged, PaymentsOwned;
    var t := ConfirmFromPayment(s, id, mpPaymentId).state;
    SameLinksRefl(s);
    if t != s {
      SetStays(s.flex, id, t.flex[id]);
      if t.bookings != s.bookings {
        SetOwners(s.bookings, s.registryOf[id], t.bookings[s.registryOf[id]]);
      }
    }
  }

  lemma RecordedOwned(s: State, flexId: Id, row: Id, n: Notice)
    requires PaymentsOwned(s.flex, s.payments) && flexId in s.flex
    ensures PaymentsOwned(s.flex, RecordApproved(s, flexId, row, n).state.payments)
  {}

  lemma RewrittenOwned(flex: map<Id, FlexBooking>, payments: map<Id, Payment>, flexId: Id, mp: Id, st: PaymentStatus)
    requires PaymentsOwned(flex, payments)
    ensures PaymentsOwned(flex, SetStatusOf(payments, mp, st))
    ensures PaymentsOwned(flex, Claim(payments, flexId, st, mp))
  {}

  lemma NoticeOwned(s: State, row: Id, n: Notice)
    requires PaymentsOwned(s.flex, s.payments)
    ensures PaymentsOwned(s.flex, ProcessNotice(s, row, n).state.payments)
  {
    hide PaymentsOwned, SetStatusOf, Claim, RecordApproved, MapMpStatus, MpTaken, Unclaimed, AmountMatches;
    RewrittenOwned(s.flex, s.payments, 0, n.paymentId, PaymentStatus.Approved);
    RewrittenOwned(s.flex, s.payments, 0, n.paymentId, PaymentStatus.Refunded);
    if !n.status.Approved? && n.reference.Some? && MapMpStatus(n.status).Some? {
      RewrittenOwned(s.flex, s.payments, n.reference.value, n.paymentId, MapMpStatus(n.status).value);
    }
    if n.status.Approved? && n.reference.Some? && n.reference.value in s.flex {
      RecordedOwned(s, n.reference.value, row, n);
      ConfirmIgnoresPayments(s, RecordApproved(s, n.reference.value, row, n).state.payments,
                           n.reference.value, n.paymentId);
      RecordEffect(s, n.reference.value, row, n);
    }
  }

  lemma NoticeLinks(s: State, row: Id, n: Notice)
    requires PaymentsOwned(s.flex, s.payments)
    ensures SameLinks(s, ProcessNotice(s, row, n).state)
  {
    NoticeOwned(s, row, n);
    NoticeEffect(s, row, n);
    SameLinksRefl(s);
    if Confirms(s, row, n) {
      ConfirmFromPaymentLinks(s, n.reference.value, n.paymentId);
    }
  }

  lemma CreateFlexLinks(s: State, step: Step)
    requires Linked(s) && step.CreateFlexStep? && Next(s, step) != s
    ensures Linked(Next(s, step))
  {
    var t := Next(s, step);
    var id, r := step.id, step.bookingId;
    AddPair(s.flex, s.bookings, s.registryOf, id, r, t.flex[id], t.bookings[r]);
    AddOwned(s.bookings, s.commissions, r, t.bookings[r], t.commissions[r]);
  }

  lemma AddPair(flex: map<Id, FlexBooking>, bookings: map<Id, Booking>, registryOf: map<Id, Id>,
                id: Id, r: Id, f: FlexBooking, b: Booking)
    requires Paired(flex, bookings, registryOf)
    requires id !in flex && r !in bookings && Registers(b, id, f)
    ensures Paired(flex[id := f], bookings[r := b], registryOf[id := r])
  {}

  lemma AddUnpaired(flex: map<Id, FlexBooking>, bookings: map<Id, Booking>, registryOf: map<Id, Id>, r: Id, b: Booking)
    requires Paired(flex, bookings, registryOf)
    requires r !in bookings && b.flexBookingId == None && b.propertyFlexId == None && b.source != Flex
    ensures Paired(flex, bookings[r := b], registryOf)
  {}

  lemma AddOwned(bookings: map<Id, Booking>, commissions: map<Id, Commission>, r: Id, b: Booking, c: Commission)
    requires Owned(bookings, commissions) && r !in bookings && c.profileId == b.profileId
    ensures Owned(bookings[r := b], commissions[r := c])
    ensures !Earns(b) ==> Owned(bookings[r := b], commissions)
  {}

  lemma CreationLinks(s: State, step: Step)
    requires Linked(s) && Next(s, step) != s
    requires step.CreateBookingStep? || step.ConfirmFromCloudbedsStep? || step.AmbassadorReservationStep?
    ensures Linked(Next(s, step))
  {
    var t := Next(s, step);
    AddUnpaired(s.flex, s.bookings, s.registryOf, step.id, t.bookings[step.id]);
    var c := if step.id in t.commissions then t.commissions[step.id]
             else Commission(t.bookings[step.id].profileId, None, 0, 0, 0, CommissionStatus.Pending);
    AddOwned(s.bookings, s.commissions, step.id, t.bookings[step.id], c);
  }

  lemma ConfirmLinks(s: State, id: Id)
    requires PaymentsOwned(s.flex, s.payments) && Owned(s.bookings, s.commissions)
    ensures SameLinks(s, ConfirmBooking(s, id).state)
  {
    var t := ConfirmBooking(s, id).state;
    SameLinksRefl(s);
    if t != s {
      SetOwners(s.bookings, id, t.bookings[id]);
    }
  }

  lemma CompleteLinks(s: State, id: Id)
    requires PaymentsOwned(s.flex, s.payments)
    ensures SameLinks(s, CompleteBooking(s, id).state)
  {
    var t := CompleteBooking(s, id).state;
    SameLinksRefl(s);
    if t != s {
      SetOwners(s.bookings, id, t.bookings[id]);
    }
  }

  lemma UpdateBookingLinks(s: State, id: Id, checkIn: Option<Day>, checkOut: Option<Day>)
    requires PaymentsOwned(s.flex, s.payments)
    ensures SameLinks(s, UpdateBooking(s, id, checkIn, checkOut).state)
  {
    var t := UpdateBooking(s, id, checkIn, checkOut).state;
    SameLinksRefl(s);
    if t != s {
      SetOwners(s.bookings, id, t.bookings[id]);
    }
  }

  lemma TermsCollectors(commissions: map<Id, Commission>, commissions': map<Id, Commission>)
    requires OnlyPendingTerms(commissions, commissions')
    ensures SameCollectors(commissions, commissions')
  {
    forall b | b in commissions ensures commissions'[b].profileId == commissions[b].profileId {
      assert OnlyTerms(commissions[b], commissions'[b]);
    }
  }

  lemma RateLinks(s: State, step: Step)
    requires PaymentsOwned(s.flex, s.payments) && IsRateStep(step)
    ensures SameLinks(s, Next(s, step))
  {
    RateStepEffect(s, step);
    TermsCollectors(s.commissions, Next(s, step).commissions);
    SameLinksRefl(s);
  }

  lemma AttachCollectors(commissions: map<Id, Commission>, rows: set<Id>, uuid: Id -> Id, sid: Id)
    ensures SameCollectors(commissions, Attach(commissions, rows, uuid))
    ensures SameCollectors(commissions, PayAttached(commissions, sid))
    ensures SameCollectors(commissions, DetachAll(commissions, sid))
  {}

  lemma CommissionLinks(s: State, settlements: map<Id, Settlement>, commissions: map<Id, Commission>)
    requires PaymentsOwned(s.flex, s.payments) && SameCollectors(s.commissions, commissions)
    ensures SameLinks(s, s.(settlements := settlements, commissions := commissions))
  {
    SameLinksRefl(s);
  }

  lemma ApprovedCollectors(s: State, id: Id)
    ensures SameCollectors(s.commissions, ApproveCommission(s, id).state.commissions)
  {}

  lemma ApproveCommissionLinks(s: State, id: Id)
    requires PaymentsOwned(s.flex, s.payments)
    ensures SameLinks(s, ApproveCommission(s, id).state)
  {
    hide SameLinks, SameCollectors, ApproveCommission;
    ApproveTouches(s, id);
    ApprovedCollectors(s, id);
    CommissionLinks(s, s.settlements, ApproveCommission(s, id).state.commissions);
  }

  lemma CreateSettlementsLinks(s: State, filter: set<Id>, uuid: Id -> Id)
    requires PaymentsOwned(s.flex, s.payments)
    ensures SameLinks(s, CreateSettlements(s, filter, uuid).state)
  {
    var t := CreateSettlements(s, filter, uuid).state;
    SameLinksRefl(s);
    hide SameLinks, SameCollectors, NewDrafts, Groups, Eligible, Collides, Attach;
    AttachCollectors(s.commissions, Eligible(s, filter), uuid, 0);
    CommissionLinks(s, t.settlements, Attach(s.commissions, Eligible(s, filter), uuid));
  }

  lemma PayoutLinks(s: State, sid: Id)
    requires PaymentsOwned(s.flex, s.payments)
    ensures SameLinks(s, MarkPaid(s, sid).state)
    ensures SameLinks(s, CancelDraft(s, sid).state)
  {
    SameLinksRefl(s);
    hide SameLinks, SameCollectors, PayAttached, DetachAll;
    AttachCollectors(s.commissions, {}, p => p, sid);
    CommissionLinks(s, MarkPaid(s, sid).state.settlements, PayAttached(s.commissions, sid));
    CommissionLinks(s, CancelDraft(s, sid).state.settlements, DetachAll(s.commissions, sid));
  }

  lemma CheckoutOwned(s: State, id: Id, row: Id, now: int, cutoff: int, up: bool)
    requires PaymentsOwned(s.flex, s.payments)
    ensures PaymentsOwned(s.flex, CreateCheckout(s, id, row, now, cutoff, up).state.payments)
  {}

  lemma CheckoutLinks(s: State, id: Id, row: Id, now: int, cutoff: int, up: bool)
    requires PaymentsOwned(s.flex, s.payments)
    ensures SameLinks(s, CreateCheckout(s, id, row, now, cutoff, up).state)
  {
    SameLinksRefl(s);
    hide SameStays, SameOwners, SameCollectors, PaymentsOwned, CreateCheckout;
    CheckoutTouches(s, id, row, now, cutoff, up);
    CheckoutOwned(s, id, row, now, cutoff, up);
  }

  lemma StepLinks(s: State, step: Step)
    requires Linked(s) && !IsCreation(step) && !step.StartSessionStep?
    ensures SameLinks(s, Next(s, step))
  {
    hide SameLinks;
    match step
    case UpdateFlexStep(id, dto) => UpdateFlexLinks(s, id, dto);
    case DeleteFlexStep(id) => DeleteFlexLinks(s, id);
    case CancelBookingStep(id) => CancelLinks(s, id);
    case NoticeStep(row, n) => NoticeLinks(s, row, n);
    case ConfirmBookingStep(id) => ConfirmLinks(s, id);
    case CompleteBookingStep(id) => CompleteLinks(s, id);
    case UpdateBookingStep(id, checkIn, checkOut) => UpdateBookingLinks(s, id, checkIn, checkOut);
    case CreateCheckoutStep(id, row, now, cutoff, up) => CheckoutLinks(s, id, row, now, cutoff, up);
    case ApproveCommissionStep(id) => ApproveCommissionLinks(s, id);
    case CreateSettlementsStep(filter, uuid) => CreateSettlementsLinks(s, filter, uuid);
    case MarkPaidStep(id) => PayoutLinks(s, id);
    case CancelDraftStep(id) => PayoutLinks(s, id);
    case _ => RateLinks(s, step);
  }

  /** Linked is kept by every step of every service. */
  lemma LinkedStep(s: State, step: Step)
    requires Linked(s)
    ensures Linked(Next(s, step))
  {
    if step.StartSessionStep? {
      SessionStepEffect(s, step);
    } else if !IsCreation(step) {
      StepLinks(s, step);
      SameLinksKeepLinked(s, Next(s, step));
    } else if Next(s, step) != s {
      if step.CreateFlexStep? { CreateFlexLinks(s, step); } else { CreationLinks(s, step); }
    }
  }
}
