/** A PENDING commission is a cached value; over every run it agrees with the rate cascade. */
module Freshness {
  import opened Common
  import opened Tables
  import opened Rates
  import opened Bookings
  import opened Settlements
  import opened Steps
  import opened Effects
  import opened Registry

  datatype Side = FlexSide | TemporalSide

  predicate OnSide(side: Side, b: Booking) {
    side.FlexSide? <==> b.propertyFlexId.Some?
  }

  predicate Carries(m: Commission, t: Terms) {
    m.rate == t.rate && m.baseAmount == t.base && m.amount == CommissionAmount(t.base, t.rate)
  }

  /** What the row says is what a recalculation would write. */
  predicate FreshRow(c: Catalog, flex: map<Id, FlexBooking>, b: Booking, m: Commission) {
    m.status.Pending? && Owed(c, flex, b).Some? ==> Carries(m, Owed(c, flex, b).value)
  }

  ghost predicate Fresh(s: State, side: Side) {
    forall b :: b in s.commissions && b in s.bookings && OnSide(side, s.bookings[b]) ==>
      FreshRow(s.catalog, s.flex, s.bookings[b], s.commissions[b])
  }

  // ---------------------------------------------------------------- steps that change no terms

  predicate KeptTerms(c: Commission, d: Commission) {
    d.status.Pending? ==> c.status.Pending? && d.rate == c.rate && d.baseAmount == c.baseAmount && d.amount == c.amount
  }

  ghost predicate AllKeepTerms(commissions: map<Id, Commission>, commissions': map<Id, Commission>) {
    forall b :: b in commissions' ==>
      if b in commissions then KeptTerms(commissions[b], commissions'[b]) else !commissions'[b].status.Pending?
  }

  ghost predicate SameMonthly(flex: map<Id, FlexBooking>, flex': map<Id, FlexBooking>) {
    flex'.Keys == flex.Keys && forall f :: f in flex ==> flex'[f].monthlyAmount == flex[f].monthlyAmount
  }

  ghost predicate SameTotals(bookings: map<Id, Booking>, bookings': map<Id, Booking>) {
    bookings'.Keys == bookings.Keys && forall b :: b in bookings ==> SameTotal(bookings[b], bookings'[b])
  }

  /** Only flex stays are ever repriced. */
  predicate SameTotal(b: Booking, c: Booking) {
    b.source != Flex ==> c.totalAmount == b.totalAmount
  }

  lemma SameOwed(c: Catalog, flex: map<Id, FlexBooking>, flex': map<Id, FlexBooking>, b: Booking, b': Booking)
    requires SameMonthly(flex, flex') && SameOwner(b, b') && SameTotal(b, b')
    ensures Owed(c, flex', b') == Owed(c, flex, b)
  {}

  lemma CarryFresh(s: State, t: State, side: Side)
    requires Fresh(s, side) && t.catalog == s.catalog
    requires SameMonthly(s.flex, t.flex) && SameOwners(s.bookings, t.bookings) && SameTotals(s.bookings, t.bookings)
    requires AllKeepTerms(s.commissions, t.commissions)
    ensures Fresh(t, side)
  {
    forall b | b in t.commissions && b in t.bookings && OnSide(side, t.bookings[b])
      ensures FreshRow(t.catalog, t.flex, t.bookings[b], t.commissions[b])
    {
      assert SameOwner(s.bookings[b], t.bookings[b]) && SameTotal(s.bookings[b], t.bookings[b]);
      SameOwed(s.catalog, s.flex, t.flex, s.bookings[b], t.bookings[b]);
      if b in s.commissions {
        assert KeptTerms(s.commissions[b], t.commissions[b]);
      }
    }
  }

  lemma ApproveKeepsTerms(commissions: map<Id, Commission>, id: Id)
    ensures AllKeepTerms(commissions, ApprovePending(commissions, id))
    ensures AllKeepTerms(commissions, CancelCommission(commissions, id))
    ensures AllKeepTerms(commissions, commissions)
  {}

  lemma SettleKeepsTerms(commissions: map<Id, Commission>, rows: set<Id>, uuid: Id -> Id, sid: Id)
    ensures AllKeepTerms(commissions, Attach(commissions, rows, uuid))
    ensures AllKeepTerms(commissions, PayAttached(commissions, sid))
    ensures AllKeepTerms(commissions, DetachAll(commissions, sid))
  {}

  lemma RowSwap(bookings: map<Id, Booking>, id: Id, b: Booking)
    requires id in bookings && SameOwner(bookings[id], b) && SameTotal(bookings[id], b)
    ensures SameOwners(bookings, bookings[id := b]) && SameTotals(bookings, bookings[id := b])
  {}

  lemma Untouched(s: State)
    ensures SameMonthly(s.flex, s.flex) && SameOwners(s.bookings, s.bookings) && SameTotals(s.bookings, s.bookings)
    ensures AllKeepTerms(s.commissions, s.commissions)
  {}

  lemma CancelFresh(s: State, id: Id, side: Side)
    requires Fresh(s, side)
    ensures Fresh(CancelBooking(s, id).state, side)
  {
    var t := CancelBooking(s, id).state;
    if t != s {
      RowSwap(s.bookings, id, t.bookings[id]);
      ApproveKeepsTerms(s.commissions, id);
      CarryFresh(s, t, side);
    }
  }

  lemma StatusKeepsMonthly(flex: map<Id, FlexBooking>, id: Id, st: FlexStatus)
    requires id in flex
    ensures SameMonthly(flex, flex[id := flex[id].(status := st)]) && SameMonthly(flex, flex)
  {}

  /** A confirmation by payment writes its three rows or fewer. */
  lemma PaidRows(s: State, id: Id, mpPaymentId: Id)
    ensures var t := ConfirmFromPayment(s, id, mpPaymentId).state;
      && t.catalog == s.catalog
      && (t.flex == s.flex
          || (id in s.flex && t.flex == s.flex[id := s.flex[id].(status := FlexStatus.Confirmed)]))
      && (t.bookings == s.bookings
          || (id in s.registryOf && s.registryOf[id] in s.bookings
              && t.bookings == WithStatus(s.bookings, s.registryOf[id], BookingStatus.Confirmed)))
      && (t.commissions == s.commissions
          || (id in s.registryOf && t.commissions == ApprovePending(s.commissions, s.registryOf[id])))
  {
    hide ApprovePending, Logged, WithStatus;
    if id !in s.flex || s.flex[id].deleted || s.flex[id].status.Confirmed? || s.flex[id].status.Cancelled? {
    } else if id !in s.registryOf || s.registryOf[id] !in s.bookings
              || s.bookings[s.registryOf[id]].status.Confirmed? {
    } else {
    }
  }

  lemma ConfirmFromPaymentFresh(s: State, id: Id, mpPaymentId: Id, side: Side)
    requires Fresh(s, side)
    ensures Fresh(ConfirmFromPayment(s, id, mpPaymentId).state, side)
  {
    hide Fresh, ConfirmFromPayment, AllKeepTerms, SameMonthly, SameOwners, SameTotals, ApprovePending;
    var t := ConfirmFromPayment(s, id, mpPaymentId).state;
    PaidRows(s, id, mpPaymentId);
    Untouched(s);
    if id in s.flex {
      StatusKeepsMonthly(s.flex, id, FlexStatus.Confirmed);
    }
    if t.bookings != s.bookings {
      RowSwap(s.bookings, s.registryOf[id], t.bookings[s.registryOf[id]]);
    }
    if t.commissions != s.commissions {
      ApproveKeepsTerms(s.commissions, s.registryOf[id]);
    }
    CarryFresh(s, t, side);
  }

  lemma DeleteFlexFresh(s: State, id: Id, side: Side)
    requires Fresh(s, side)
    ensures Fresh(DeleteFlex(s, id).state, side)
  {
    var t := DeleteFlex(s, id).state;
    if t != s {
      Untouched(s);
      if id !in s.registryOf || s.registryOf[id] !in s.bookings {
        CarryFresh(s, t, side);
      } else {
        var r := s.registryOf[id];
        var c := if s.bookings[r].status.Cancelled? then Reply(s, Done) else CancelBooking(s, r);
        CancelFresh(s, r, side);
        if t != c.state {
          DeleteRowsFresh(c.state, id, r, side);
        }
      }
    }
  }

  lemma DeleteRowsFresh(s: State, id: Id, r: Id, side: Side)
    requires Fresh(s, side)
    ensures Fresh(s.(flex := DeleteFlexRow(s.flex, id), bookings := DeleteBookingRow(s.bookings, r)), side)
  {
    Untouched(s);
    if r in s.bookings {
      RowSwap(s.bookings, r, s.bookings[r].(deleted := true));
    }
    CarryFresh(s, s.(flex := DeleteFlexRow(s.flex, id), bookings := DeleteBookingRow(s.bookings, r)), side);
  }

  lemma ConfirmKeepsTerms(s: State, id: Id)
    ensures AllKeepTerms(s.commissions, ConfirmBooking(s, id).state.commissions)
  {}

  lemma ConfirmFresh(s: State, id: Id, side: Side)
    requires Fresh(s, side) && s.commissions.Keys <= s.bookings.Keys
    ensures Fresh(ConfirmBooking(s, id).state, side)
  {
    hide Fresh, AllKeepTerms, ApprovePending, CommissionOnConfirm;
    var t := ConfirmBooking(s, id).state;
    if t != s {
      Untouched(s);
      RowSwap(s.bookings, id, t.bookings[id]);
      ConfirmKeepsTerms(s, id);
      CarryFresh(s, t, side);
    }
  }

  lemma CompleteFresh(s: State, id: Id, side: Side)
    requires Fresh(s, side)
    ensures Fresh(CompleteBooking(s, id).state, side)
  {
    hide Fresh, AllKeepTerms;
    var t := CompleteBooking(s, id).state;
    if t != s {
      Untouched(s);
      RowSwap(s.bookings, id, t.bookings[id]);
      CarryFresh(s, t, side);
    }
  }

  lemma UpdateBookingFresh(s: State, id: Id, checkIn: Option<Day>, checkOut: Option<Day>, side: Side)
    requires Fresh(s, side)
    ensures Fresh(UpdateBooking(s, id, checkIn, checkOut).state, side)
  {
    hide Fresh, AllKeepTerms;
    var t := UpdateBooking(s, id, checkIn, checkOut).state;
    if t != s {
      Untouched(s);
      RowSwap(s.bookings, id, t.bookings[id]);
      CarryFresh(s, t, side);
    }
  }

  /** Only settlements and commissions change, and no terms. */
  lemma CommissionsFresh(s: State, settlements: map<Id, Settlement>, commissions: map<Id, Commission>, side: Side)
    requires Fresh(s, side) && AllKeepTerms(s.commissions, commissions)
    ensures Fresh(s.(settlements := settlements, commissions := commissions), side)
  {
    hide Fresh, AllKeepTerms;
    Untouched(s);
    CarryFresh(s, s.(settlements := settlements, commissions := commissions), side);
  }

  lemma ApprovalKeepsTerms(s: State, id: Id)
    ensures AllKeepTerms(s.commissions, ApproveCommission(s, id).state.commissions)
  {
    ApproveKeepsTerms(s.commissions, id);
    if ApproveCommission(s, id).outcome != Done {
    } else {
      var c := s.commissions[id];
      SetKeepsTerms(s.commissions, id, c.(status := CommissionStatus.Approved));
      hide AllKeepTerms;
    }
  }

  lemma SetKeepsTerms(commissions: map<Id, Commission>, id: Id, c: Commission)
    requires id in commissions && KeptTerms(commissions[id], c)
    ensures AllKeepTerms(commissions, commissions[id := c])
  {}

  lemma ApproveCommissionFresh(s: State, id: Id, side: Side)
    requires Fresh(s, side)
    ensures Fresh(ApproveCommission(s, id).state, side)
  {
    hide Fresh, AllKeepTerms, ApproveCommission;
    ApprovalKeepsTerms(s, id);
    ApproveTouches(s, id);
    CommissionsFresh(s, s.settlements, ApproveCommission(s, id).state.commissions, side);
  }

  lemma CreateSettlementsFresh(s: State, filter: set<Id>, uuid: Id -> Id, side: Side)
    requires Fresh(s, side)
    ensures Fresh(CreateSettlements(s, filter, uuid).state, side)
  {
    hide Fresh, AllKeepTerms, NewDrafts, Groups, Eligible, Collides, Attach;
    SettleKeepsTerms(s.commissions, Eligible(s, filter), uuid, 0);
    CommissionsFresh(s, CreateSettlements(s, filter, uuid).state.settlements,
                     Attach(s.commissions, Eligible(s, filter), uuid), side);
  }

  lemma PayoutFresh(s: State, sid: Id, side: Side)
    requires Fresh(s, side)
    ensures Fresh(MarkPaid(s, sid).state, side)
    ensures Fresh(CancelDraft(s, sid).state, side)
  {
    hide Fresh, AllKeepTerms, PayAttached, DetachAll;
    SettleKeepsTerms(s.commissions, {}, p => p, sid);
    CommissionsFresh(s, MarkPaid(s, sid).state.settlements, PayAttached(s.commissions, sid), side);
    CommissionsFresh(s, CancelDraft(s, sid).state.settlements, DetachAll(s.commissions, sid), side);
  }

  lemma PaymentFresh(s: State, step: Step, side: Side)
    requires Fresh(s, side) && IsPaymentStep(step)
    ensures Fresh(Next(s, step), side)
  {
    if step.NoticeStep? {
      NoticeEffect(s, step.row, step.notice);
      if Confirms(s, step.row, step.notice) {
        ConfirmFromPaymentFresh(s, step.notice.reference.value, step.notice.paymentId, side);
      }
    } else {
      CheckoutEffect(s, step);
    }
  }

  // ---------------------------------------------------------------- repricing and creation

  lemma UpdateRowsFresh(s: State, id: Id, dto: FlexChange, side: Side)
    requires Linked(s) && Fresh(s, side) && id in s.flex
    ensures Fresh(UpdateRows(s, id, dto, s.registryOf[id]), side)
  {
    hide Owned, DefaultRate;
    var r := s.registryOf[id];
    var t := UpdateRows(s, id, dto, r);
    assert Registers(s.bookings[r], id, s.flex[id]);
    forall b | b in t.commissions && b in t.bookings && OnSide(side, t.bookings[b])
      ensures FreshRow(t.catalog, t.flex, t.bookings[b], t.commissions[b])
    {
      assert LinksBack(s.registryOf, b, s.bookings[b]);
      if b == r {
        RepricedRowFresh(s, id, dto, side);
      } else {
        assert t.commissions[b] == s.commissions[b] && t.bookings[b] == s.bookings[b];
        assert Owed(s.catalog, t.flex, s.bookings[b]) == Owed(s.catalog, s.flex, s.bookings[b]);
      }
    }
  }

  /** A change of price reaches the pending commission; without one the monthly amount stands. */
  lemma RepricedRowFresh(s: State, id: Id, dto: FlexChange, side: Side)
    requires Fresh(s, side) && id in s.flex && id in s.registryOf && s.registryOf[id] in s.bookings
    requires Registers(s.bookings[s.registryOf[id]], id, s.flex[id])
    requires s.registryOf[id] in s.commissions && OnSide(side, s.bookings[s.registryOf[id]])
    ensures var t := UpdateRows(s, id, dto, s.registryOf[id]);
      FreshRow(t.catalog, t.flex, t.bookings[s.registryOf[id]], t.commissions[s.registryOf[id]])
  {
    var r := s.registryOf[id];
    assert FreshRow(s.catalog, s.flex, s.bookings[r], s.commissions[r]);
  }

  lemma UpdateFlexFresh(s: State, id: Id, dto: FlexChange, side: Side)
    requires Linked(s) && Fresh(s, side)
    ensures Fresh(UpdateFlex(s, id, dto).state, side)
  {
    var t := UpdateFlex(s, id, dto).state;
    if t != s {
      UpdateRowsFresh(s, id, dto, side);
      CancelFresh(UpdateRows(s, id, dto, s.registryOf[id]), s.registryOf[id], side);
    }
  }

  /** Booking r is added, with or without a commission and a flex row; nothing else changes. */
  ghost predicate Inserts(s: State, t: State, r: Id) {
    && t.catalog == s.catalog
    && r !in s.bookings && r in t.bookings && t.bookings == s.bookings[r := t.bookings[r]]
    && s.flex.Keys <= t.flex.Keys && (forall f :: f in s.flex ==> t.flex[f] == s.flex[f])
    && (forall b :: b in t.commissions && b != r ==> b in s.commissions && t.commissions[b] == s.commissions[b])
  }

  /** Adding a booking, and with it a flex row nobody refers to yet. */
  lemma InsertFresh(s: State, t: State, r: Id, side: Side)
    requires Linked(s) && Fresh(s, side) && Inserts(s, t, r)
    requires r in t.commissions ==> FreshRow(t.catalog, t.flex, t.bookings[r], t.commissions[r])
    ensures Fresh(t, side)
  {
    forall b | b in t.commissions && b in t.bookings && OnSide(side, t.bookings[b])
      ensures FreshRow(t.catalog, t.flex, t.bookings[b], t.commissions[b])
    {
      if b != r {
        assert LinksBack(s.registryOf, b, s.bookings[b]);
        assert FreshRow(s.catalog, s.flex, s.bookings[b], s.commissions[b]);
      }
    }
  }

  /** The new booking's commission starts with the rate and base it owes. */
  ghost predicate StartsFresh(s: State, t: State, r: Id) {
    Inserts(s, t, r) && (r in t.commissions ==> FreshRow(t.catalog, t.flex, t.bookings[r], t.commissions[r]))
  }

  lemma CreateFlexStarts(s: State, id: Id, bookingId: Id, dto: NewFlex, quote: Option<FlexQuote>)
    requires CreateFlex(s, id, bookingId, dto, quote).state != s
    ensures StartsFresh(s, CreateFlex(s, id, bookingId, dto, quote).state, bookingId)
  {
    hide CommissionAmount, ResolveFlexRate, Conflict;
  }

  lemma CreateBookingStarts(s: State, id: Id, dto: NewBooking)
    requires CreateBooking(s, id, dto).state != s && s.commissions.Keys <= s.bookings.Keys
    ensures StartsFresh(s, CreateBooking(s, id, dto).state, id)
  {}

  lemma CloudbedsStarts(s: State, id: Id, dto: CloudbedsStay)
    requires ConfirmFromCloudbeds(s, id, dto).state != s && s.commissions.Keys <= s.bookings.Keys
    ensures StartsFresh(s, ConfirmFromCloudbeds(s, id, dto).state, id)
  {
    hide CommissionAmount, ResolveTemporalRate, Registered;
  }

  lemma AmbassadorStarts(s: State, id: Id, sessionId: Id, dto: TrackedStay)
    requires AmbassadorReservation(s, id, sessionId, dto).state != s
    ensures StartsFresh(s, AmbassadorReservation(s, id, sessionId, dto).state, id)
  {
    hide CommissionAmount, ResolveTemporalRate, Registered;
  }

  lemma CreationFresh(s: State, step: Step, side: Side)
    requires Linked(s) && Fresh(s, side) && IsCreation(step) && Next(s, step) != s
    ensures Fresh(Next(s, step), side)
  {
    hide Fresh, FreshRow, Inserts, CreateFlex, CreateBooking, ConfirmFromCloudbeds, AmbassadorReservation;
    match step
    case CreateFlexStep(id, bookingId, dto, quote) =>
      CreateFlexStarts(s, id, bookingId, dto, quote);
      InsertFresh(s, Next(s, step), bookingId, side);
    case CreateBookingStep(id, dto) =>
      CreateBookingStarts(s, id, dto);
      InsertFresh(s, Next(s, step), id, side);
    case ConfirmFromCloudbedsStep(id, dto) =>
      CloudbedsStarts(s, id, dto);
      InsertFresh(s, Next(s, step), id, side);
    case AmbassadorReservationStep(id, sessionId, dto) =>
      AmbassadorStarts(s, id, sessionId, dto);
      InsertFresh(s, Next(s, step), id, side);
  }

  // ---------------------------------------------------------------- targeted recalculation

  /** A rate edit and a recalculation in a scope that covers every booking the edit can move. */
  lemma RecalculationIsEnough(s: State, c: Catalog, scope: Scope, side: Side)
    requires Fresh(s, side)
    requires forall b :: b in s.bookings && OnSide(side, s.bookings[b]) && !InScope(scope, s.bookings[b]) ==>
               Owed(c, s.flex, s.bookings[b]) == Owed(s.catalog, s.flex, s.bookings[b])
    ensures Fresh(Recalculate(s.(catalog := c), scope), side)
  {
    var t := Recalculate(s.(catalog := c), scope);
    forall b | b in t.commissions && b in t.bookings && OnSide(side, t.bookings[b])
      ensures FreshRow(t.catalog, t.flex, t.bookings[b], t.commissions[b])
    {
      assert FreshRow(s.catalog, s.flex, s.bookings[b], s.commissions[b]);
    }
  }

  lemma FlexPropertyOutOfScope(s: State, p: Id, r: RentalProperty)
    ensures forall b :: b in s.bookings && !InScope(OfFlexProperty(p), s.bookings[b]) ==>
      Owed(s.catalog.(flexProperties := s.catalog.flexProperties[p := r]), s.flex, s.bookings[b])
      == Owed(s.catalog, s.flex, s.bookings[b])
  {}

  lemma PropertyOutOfScope(s: State, p: Id, r: RentalProperty)
    ensures forall b :: b in s.bookings && !InScope(OfProperty(p), s.bookings[b]) ==>
      Owed(s.catalog.(properties := s.catalog.properties[p := r]), s.flex, s.bookings[b])
      == Owed(s.catalog, s.flex, s.bookings[b])
  {}

  lemma FlexOverrideOutOfScope(s: State, p: Id, a: Id, rate: Rate)
    ensures forall b :: b in s.bookings && !InScope(OfFlexOverride(p, a), s.bookings[b]) ==>
      && Owed(s.catalog.(flexOverrides := s.catalog.flexOverrides[(a, p) := rate]), s.flex, s.bookings[b])
         == Owed(s.catalog, s.flex, s.bookings[b])
      && Owed(s.catalog.(flexOverrides := s.catalog.flexOverrides - {(a, p)}), s.flex, s.bookings[b])
         == Owed(s.catalog, s.flex, s.bookings[b])
  {}

  lemma PropertyOverrideOutOfScope(s: State, p: Id, a: Id, rate: Rate)
    ensures forall b :: b in s.bookings && !InScope(OfPropertyOverride(p, a), s.bookings[b]) ==>
      && Owed(s.catalog.(propertyOverrides := s.catalog.propertyOverrides[(a, p) := rate]), s.flex, s.bookings[b])
         == Owed(s.catalog, s.flex, s.bookings[b])
      && Owed(s.catalog.(propertyOverrides := s.catalog.propertyOverrides - {(a, p)}), s.flex, s.bookings[b])
         == Owed(s.catalog, s.flex, s.bookings[b])
  {}

  lemma ProfileOutOfScope(s: State, a: Id, rate: Rate)
    ensures forall b :: b in s.bookings && !InScope(OfAmbassador(a), s.bookings[b]) ==>
      Owed(s.catalog.(profiles := s.catalog.profiles[a := rate]), s.flex, s.bookings[b])
      == Owed(s.catalog, s.flex, s.bookings[b])
  {}

  /** A flex property keeps lending its rate after its deletion. */
  lemma DeletedFlexPropertyLends(s: State, p: Id, side: Side)
    requires Fresh(s, side)
    ensures Fresh(DeleteFlexProperty(s, p).state, side)
  {
    var t := DeleteFlexProperty(s, p).state;
    forall b | b in s.bookings
      ensures Owed(t.catalog, t.flex, s.bookings[b]) == Owed(s.catalog, s.flex, s.bookings[b]) {}
    forall b | b in t.commissions && b in t.bookings && OnSide(side, t.bookings[b])
      ensures FreshRow(t.catalog, t.flex, t.bookings[b], t.commissions[b])
    {
      assert FreshRow(s.catalog, s.flex, s.bookings[b], s.commissions[b]);
    }
  }

  /** Deleting a temporal property does not concern flex commissions. */
  lemma DeletePropertyFlexFresh(s: State, p: Id)
    requires Fresh(s, FlexSide)
    ensures Fresh(DeleteProperty(s, p).state, FlexSide)
  {
    var t := DeleteProperty(s, p).state;
    forall b | b in t.commissions && b in t.bookings && OnSide(FlexSide, t.bookings[b])
      ensures FreshRow(t.catalog, t.flex, t.bookings[b], t.commissions[b])
    {
      assert FreshRow(s.catalog, s.flex, s.bookings[b], s.commissions[b]);
    }
  }

  lemma RateFresh(s: State, step: Step, side: Side)
    requires Fresh(s, side) && IsRateStep(step)
    requires step.DeletePropertyStep? ==> side.FlexSide?
    ensures Fresh(Next(s, step), side)
  {
    var t := Next(s, step);
    if t != s {
      match step
      case SetFlexPropertyRateStep(p, rate) =>
        FlexPropertyOutOfScope(s, p, t.catalog.flexProperties[p]);
        RecalculationIsEnough(s, t.catalog, OfFlexProperty(p), side);
      case DeleteFlexPropertyStep(p) => DeletedFlexPropertyLends(s, p, side);
      case UpsertFlexOverrideStep(p, a, rate) =>
        FlexOverrideOutOfScope(s, p, a, rate);
        RecalculationIsEnough(s, t.catalog, OfFlexOverride(p, a), side);
      case DeleteFlexOverrideStep(p, a) =>
        FlexOverrideOutOfScope(s, p, a, 0);
        RecalculationIsEnough(s, t.catalog, OfFlexOverride(p, a), side);
      case SetPropertyRateStep(p, rate) =>
        PropertyOutOfScope(s, p, t.catalog.properties[p]);
        RecalculationIsEnough(s, t.catalog, OfProperty(p), side);
      case DeletePropertyStep(p) => DeletePropertyFlexFresh(s, p);
      case UpsertPropertyOverrideStep(p, a, rate) =>
        PropertyOverrideOutOfScope(s, p, a, rate);
        RecalculationIsEnough(s, t.catalog, OfPropertyOverride(p, a), side);
      case DeletePropertyOverrideStep(p, a) =>
        PropertyOverrideOutOfScope(s, p, a, 0);
        RecalculationIsEnough(s, t.catalog, OfPropertyOverride(p, a), side);
      case SetDefaultRateStep(a, rate) =>
        ProfileOutOfScope(s, a, rate.value);
        RecalculationIsEnough(s, t.catalog, OfAmbassador(a), side);
      case RecalculateAllStep => RecalculationIsEnough(s, s.catalog, EveryBooking, side);
    }
  }

  lemma SessionFresh(s: State, t: State, side: Side)
    requires Fresh(s, side) && t == s.(sessions := t.sessions)
    ensures Fresh(t, side)
  {}

  // ---------------------------------------------------------------- every step, every run

  lemma BookingFresh(s: State, step: Step, side: Side)
    requires Linked(s) && Fresh(s, side)
    requires step.UpdateFlexStep? || step.DeleteFlexStep? || step.CancelBookingStep? || step.ConfirmBookingStep?
          || step.CompleteBookingStep? || step.UpdateBookingStep?
    ensures Fresh(Next(s, step), side)
  {
    hide Fresh, UpdateFlex, DeleteFlex, CancelBooking, ConfirmBooking, CompleteBooking, UpdateBooking;
    match step
    case UpdateFlexStep(id, dto) => UpdateFlexFresh(s, id, dto, side);
    case DeleteFlexStep(id) => DeleteFlexFresh(s, id, side);
    case CancelBookingStep(id) => CancelFresh(s, id, side);
    case ConfirmBookingStep(id) => ConfirmFresh(s, id, side);
    case CompleteBookingStep(id) => CompleteFresh(s, id, side);
    case UpdateBookingStep(id, checkIn, checkOut) => UpdateBookingFresh(s, id, checkIn, checkOut, side);
  }

  lemma SettlementFresh(s: State, step: Step, side: Side)
    requires Fresh(s, side) && IsSettlementStep(step)
    ensures Fresh(Next(s, step), side)
  {
    hide Fresh, ApproveCommission, CreateSettlements, MarkPaid, CancelDraft;
    match step
    case ApproveCommissionStep(id) => ApproveCommissionFresh(s, id, side);
    case CreateSettlementsStep(filter, uuid) => CreateSettlementsFresh(s, filter, uuid, side);
    case MarkPaidStep(id) => PayoutFresh(s, id, side);
    case CancelDraftStep(id) => PayoutFresh(s, id, side);
  }

  lemma StepKeepsFresh(s: State, step: Step, side: Side)
    requires Linked(s) && Fresh(s, side)
    requires step.DeletePropertyStep? ==> side.FlexSide?
    ensures Fresh(Next(s, step), side)
  {
    hide Fresh, Next, Linked;
    if IsCreation(step) {
      if Next(s, step) != s {
        CreationFresh(s, step, side);
      }
    } else if IsRateStep(step) {
      RateFresh(s, step, side);
    } else if IsPaymentStep(step) {
      PaymentFresh(s, step, side);
    } else if IsSettlementStep(step) {
      SettlementFresh(s, step, side);
    } else if step.StartSessionStep? {
      SessionStepEffect(s, step);
      SessionFresh(s, Next(s, step), side);
    } else {
      BookingFresh(s, step, side);
    }
  }

  lemma {:induction false} RunKeepsFresh(s: State, steps: seq<Step>)
    requires Linked(s) && Fresh(s, FlexSide)
    ensures Linked(Run(s, steps)) && Fresh(Run(s, steps), FlexSide)
    decreases |steps|
  {
    if steps != [] {
      LinkedStep(s, steps[0]);
      StepKeepsFresh(s, steps[0], FlexSide);
      RunKeepsFresh(Next(s, steps[0]), steps[1..]);
    }
  }

  /** After any run from an empty book, the PENDING commission of a flex booking has the rate the cascade gives its
      property and ambassador now, the booking's monthly amount as its base, and the rounded product as its amount. */
  lemma FlexCommissionsAreFresh(s: State, steps: seq<Step>, f: Id)
    requires Initial(s) && f in Run(s, steps).flex
    ensures var t := Run(s, steps);
      && f in t.registryOf && t.registryOf[f] in t.commissions
      && var m := t.commissions[t.registryOf[f]];
         m.status.Pending? ==>
           && m.rate == ResolveFlexRate(t.catalog, t.flex[f].propertyFlexId, t.flex[f].profileId).rate
           && m.baseAmount == t.flex[f].monthlyAmount
           && m.amount == CommissionAmount(m.baseAmount, m.rate)
  {
    RunKeepsFresh(s, steps);
    var t := Run(s, steps);
    var r := t.registryOf[f];
    assert Registers(t.bookings[r], f, t.flex[f]) && Earns(t.bookings[r]);
    assert FreshRow(t.catalog, t.flex, t.bookings[r], t.commissions[r]);
  }

  // ---------------------------------------------------------------- temporal bookings

  predicate LivesOn(s: State, p: Id, b: Id) {
    && b in s.commissions && b in s.bookings && s.commissions[b].status.Pending?
    && s.bookings[b].propertyFlexId == None && s.bookings[b].source != Flex && s.bookings[b].propertyId == Some(p)
    && OverrideRate(s.catalog.propertyOverrides, s.bookings[b].profileId, p) == None
  }

  /** Every pending commission that takes its rate from the property would get the same rate without it. */
  predicate DeletionHarmless(s: State, p: Id) {
    p in s.catalog.properties && s.catalog.properties[p].commissionRate.Some? ==>
      forall b :: b in s.commissions && LivesOn(s, p, b) ==>
        DefaultRate(s.catalog, s.bookings[b].profileId).rate == s.catalog.properties[p].commissionRate.value
  }

  /** Soft-deleting a temporal property recalculates nothing, so pending temporal commissions stay fresh exactly when
      no pending commission owes its rate to that property alone. */
  lemma DeletePropertyFreshness(s: State, p: Id)
    requires Fresh(s, TemporalSide) && DeleteProperty(s, p).outcome == Done
    ensures Fresh(DeleteProperty(s, p).state, TemporalSide) <==> DeletionHarmless(s, p)
  {
    var t := DeleteProperty(s, p).state;
    forall b | b in s.commissions && b in s.bookings && OnSide(TemporalSide, s.bookings[b])
      ensures FreshRow(t.catalog, t.flex, t.bookings[b], t.commissions[b]) <==>
        (LivesOn(s, p, b) && s.catalog.properties[p].commissionRate.Some? ==>
           DefaultRate(s.catalog, s.bookings[b].profileId).rate == s.catalog.properties[p].commissionRate.value)
    {
      assert FreshRow(s.catalog, s.flex, s.bookings[b], s.commissions[b]);
    }
    if Fresh(t, TemporalSide) && s.catalog.properties[p].commissionRate.Some? {
      forall b | b in s.commissions && LivesOn(s, p, b)
        ensures DefaultRate(s.catalog, s.bookings[b].profileId).rate == s.catalog.properties[p].commissionRate.value
      {
        assert OnSide(TemporalSide, s.bookings[b]);
        assert FreshRow(t.catalog, t.flex, t.bookings[b], t.commissions[b]);
      }
    }
  }

  /** The step deletes a live temporal property whose rate some pending commission would no longer get. */
  predicate DeletesHarmfully(s: State, step: Step) {
    && step.DeletePropertyStep? && step.p in s.catalog.properties && !s.catalog.properties[step.p].deleted
    && !DeletionHarmless(s, step.p)
  }

  /** Of all calls only such a deletion makes pending temporal commissions stale. */
  lemma StepKeepsTemporalFresh(s: State, step: Step)
    requires Linked(s) && Fresh(s, TemporalSide)
    ensures Fresh(Next(s, step), TemporalSide) <==> !DeletesHarmfully(s, step)
  {
    if step.DeletePropertyStep? {
      if DeleteProperty(s, step.p).outcome == Done {
        DeletePropertyFreshness(s, step.p);
      }
    } else {
      StepKeepsFresh(s, step, TemporalSide);
    }
  }

  /** No step of the run deletes a temporal property that some pending commission still lives on. */
  ghost predicate DeletesHarmlessly(s: State, steps: seq<Step>)
    decreases |steps|
  {
    steps != [] ==>
      && !DeletesHarmfully(s, steps[0])
      && DeletesHarmlessly(Next(s, steps[0]), steps[1..])
  }

  lemma {:induction false} TemporalCommissionsAreFresh(s: State, steps: seq<Step>)
    requires Linked(s) && Fresh(s, TemporalSide) && DeletesHarmlessly(s, steps)
    ensures Fresh(Run(s, steps), TemporalSide)
    decreases |steps|
  {
    if steps != [] {
      LinkedStep(s, steps[0]);
      StepKeepsTemporalFresh(s, steps[0]);
      TemporalCommissionsAreFresh(Next(s, steps[0]), steps[1..]);
    }
  }
}
