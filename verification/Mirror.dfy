/** The registry row of a flex booking mirrors it. */
module Mirror {
  import opened Common
  import opened Tables
  import opened Rates
  import opened Bookings
  import opened Steps
  import opened Effects
  import opened Registry

  /** Status, days, nights, amounts and deletion agree. */
  predicate Mirrors(f: FlexBooking, b: Booking) {
    && b.status == ToBookingStatus(f.status)
    && b.checkIn == f.startDate && b.checkOut == f.endDate && b.totalNights == f.endDate - f.startDate
    && b.baseAmount == f.totalAmount && b.totalAmount == f.totalAmount
    && b.deleted == f.deleted
  }

  ghost predicate Mirrored(s: State) {
    forall f :: f in s.flex && f in s.registryOf && s.registryOf[f] in s.bookings ==>
      Mirrors(s.flex[f], s.bookings[s.registryOf[f]])
  }

  /** Only the pair (id, r) changes, and it still mirrors. */
  lemma PairKeepsMirror(s: State, t: State, id: Id, r: Id)
    requires Paired(s.flex, s.bookings, s.registryOf) && Mirrored(s) && t.registryOf == s.registryOf
    requires id in s.flex && r == s.registryOf[id]
    requires id in t.flex && r in t.bookings
    requires t.flex == s.flex[id := t.flex[id]] && t.bookings == s.bookings[r := t.bookings[r]]
    requires Mirrors(t.flex[id], t.bookings[r])
    ensures Mirrored(t)
  {
    forall f | f in t.flex && f in t.registryOf && t.registryOf[f] in t.bookings
      ensures Mirrors(t.flex[f], t.bookings[t.registryOf[f]])
    {
      assert Registers(s.bookings[s.registryOf[f]], f, s.flex[f]);
      if f != id {
        assert Registers(s.bookings[r], id, s.flex[id]);
        assert Mirrors(s.flex[f], s.bookings[s.registryOf[f]]);
      }
    }
  }

  /** A registry row that belongs to no flex booking changes. */
  lemma UnpairedKeepsMirror(s: State, t: State, b: Id)
    requires Paired(s.flex, s.bookings, s.registryOf) && Mirrored(s) && t.registryOf == s.registryOf && t.flex == s.flex
    requires b in s.bookings && s.bookings[b].flexBookingId == None
    requires b in t.bookings && t.bookings == s.bookings[b := t.bookings[b]]
    ensures Mirrored(t)
  {
    forall f | f in t.flex && f in t.registryOf && t.registryOf[f] in t.bookings
      ensures Mirrors(t.flex[f], t.bookings[t.registryOf[f]])
    {
      assert Registers(s.bookings[s.registryOf[f]], f, s.flex[f]);
      assert Mirrors(s.flex[f], s.bookings[s.registryOf[f]]);
    }
  }

  lemma CancelMirror(s: State, id: Id)
    requires Paired(s.flex, s.bookings, s.registryOf) && Mirrored(s)
    ensures Mirrored(CancelBooking(s, id).state)
  {
    var t := CancelBooking(s, id).state;
    if t != s {
      assert LinksBack(s.registryOf, id, s.bookings[id]);
      if s.bookings[id].flexBookingId.Some? {
        var f := s.bookings[id].flexBookingId.value;
        assert Mirrors(s.flex[f], s.bookings[id]);
        PairKeepsMirror(s, t, f, id);
      } else {
        UnpairedKeepsMirror(s, t, id);
      }
    }
  }

  lemma UpdateRowsMirror(s: State, id: Id, dto: FlexChange)
    requires Paired(s.flex, s.bookings, s.registryOf) && Mirrored(s) && id in s.flex
    requires ChangedFlex(s.flex[id], dto).startDate < ChangedFlex(s.flex[id], dto).endDate
    ensures Mirrored(UpdateRows(s, id, dto, s.registryOf[id]))
  {
    var r := s.registryOf[id];
    assert Mirrors(s.flex[id], s.bookings[r]);
    PairKeepsMirror(s, UpdateRows(s, id, dto, r), id, r);
  }

  lemma UpdateFlexMirror(s: State, id: Id, dto: FlexChange)
    requires Linked(s) && Mirrored(s)
    ensures Mirrored(UpdateFlex(s, id, dto).state)
  {
    var t := UpdateFlex(s, id, dto).state;
    if t != s {
      var r := s.registryOf[id];
      var s1 := UpdateRows(s, id, dto, r);
      UpdateRowsMirror(s, id, dto);
      if t != s1 {
        UpdateRowsLinks(s, id, dto, r);
        SameLinksKeepLinked(s, s1);
        CancelMirror(s1, r);
      }
    }
  }

  lemma DeleteFlexMirror(s: State, id: Id)
    requires Linked(s) && Mirrored(s)
    ensures Mirrored(DeleteFlex(s, id).state)
  {
    hide SameLinks;
    if id in s.flex && !s.flex[id].deleted {
      var r := s.registryOf[id];
      var c := if s.bookings[r].status.Cancelled? then Reply(s, Done) else CancelBooking(s, r);
      CancelMirror(s, r);
      CancelLinks(s, r);
      SameLinksKeepLinked(s, c.state);
      if c.outcome == Done {
        assert Mirrors(c.state.flex[id], c.state.bookings[r]);
        PairKeepsMirror(c.state, DeleteFlex(s, id).state, id, r);
      }
    }
  }

  lemma PaymentMirror(s: State, id: Id, mpPaymentId: Id)
    requires Paired(s.flex, s.bookings, s.registryOf) && Mirrored(s)
    ensures Mirrored(ConfirmFromPayment(s, id, mpPaymentId).state)
  {
    var t := ConfirmFromPayment(s, id, mpPaymentId).state;
    if t != s {
      assert Mirrors(s.flex[id], s.bookings[s.registryOf[id]]);
      PairKeepsMirror(s, t, id, s.registryOf[id]);
    }
  }

  lemma CreateFlexMirror(s: State, step: Step)
    requires Linked(s) && Mirrored(s) && step.CreateFlexStep?
    ensures Mirrored(Next(s, step))
  {
    var t := Next(s, step);
    if t != s {
      forall f | f in t.flex && f in t.registryOf && t.registryOf[f] in t.bookings
        ensures Mirrors(t.flex[f], t.bookings[t.registryOf[f]])
      {
        if f != step.id {
          assert Registers(s.bookings[s.registryOf[f]], f, s.flex[f]);
          assert Mirrors(s.flex[f], s.bookings[s.registryOf[f]]);
        }
      }
    }
  }

  lemma InsertMirror(s: State, t: State, b: Id)
    requires Linked(s) && Mirrored(s) && t.flex == s.flex && t.registryOf == s.registryOf
    requires b !in s.bookings && b in t.bookings && t.bookings == s.bookings[b := t.bookings[b]]
    ensures Mirrored(t)
  {
    forall f | f in t.flex && f in t.registryOf && t.registryOf[f] in t.bookings
      ensures Mirrors(t.flex[f], t.bookings[t.registryOf[f]])
    {
      assert Registers(s.bookings[s.registryOf[f]], f, s.flex[f]);
      assert Mirrors(s.flex[f], s.bookings[s.registryOf[f]]);
    }
  }

  lemma CreateBookingMirror(s: State, id: Id, dto: NewBooking)
    requires Linked(s) && Mirrored(s)
    ensures Mirrored(CreateBooking(s, id, dto).state)
  {
    hide Linked, Mirrored;
    if CreateBooking(s, id, dto).state != s {
      InsertMirror(s, CreateBooking(s, id, dto).state, id);
    }
  }

  lemma CloudbedsMirror(s: State, id: Id, dto: CloudbedsStay)
    requires Linked(s) && Mirrored(s)
    ensures Mirrored(ConfirmFromCloudbeds(s, id, dto).state)
  {
    hide Linked, Mirrored, CommissionAmount, ResolveTemporalRate;
    if ConfirmFromCloudbeds(s, id, dto).state != s {
      InsertMirror(s, ConfirmFromCloudbeds(s, id, dto).state, id);
    }
  }

  lemma AmbassadorMirror(s: State, id: Id, sessionId: Id, dto: TrackedStay)
    requires Linked(s) && Mirrored(s)
    ensures Mirrored(AmbassadorReservation(s, id, sessionId, dto).state)
  {
    hide Linked, Mirrored, CommissionAmount, ResolveTemporalRate;
    if AmbassadorReservation(s, id, sessionId, dto).state != s {
      InsertMirror(s, AmbassadorReservation(s, id, sessionId, dto).state, id);
    }
  }

  // ---------------------------------------------------------------- the two leaks

  /** The step confirms a live PENDING, or completes a live CONFIRMED, registry row of a flex booking directly. */
  predicate MovesFlexRow(s: State, step: Step) {
    match step
    case ConfirmBookingStep(id) => IsFlexRow(s, id) && s.bookings[id].status.Pending?
    case CompleteBookingStep(id) => IsFlexRow(s, id) && s.bookings[id].status.Confirmed?
    case _ => false
  }

  predicate IsFlexRow(s: State, id: Id) {
    id in s.bookings && !s.bookings[id].deleted && s.bookings[id].flexBookingId.Some?
  }

  /** Only the status of a live registry row moves, away from what it was. */
  lemma StatusMoveMirror(s: State, t: State, id: Id)
    requires Linked(s) && Mirrored(s) && id in s.bookings && id in t.bookings
    requires t.flex == s.flex && t.registryOf == s.registryOf
    requires t.bookings == s.bookings[id := s.bookings[id].(status := t.bookings[id].status)]
    requires t.bookings[id].status != s.bookings[id].status
    ensures Mirrored(t) <==> s.bookings[id].flexBookingId == None
  {
    assert LinksBack(s.registryOf, id, s.bookings[id]);
    if s.bookings[id].flexBookingId.Some? {
      var f := s.bookings[id].flexBookingId.value;
      assert Mirrors(s.flex[f], s.bookings[id]);
      assert !Mirrors(t.flex[f], t.bookings[t.registryOf[f]]);
    } else {
      UnpairedKeepsMirror(s, t, id);
    }
  }

  lemma ConfirmMirror(s: State, id: Id)
    requires Linked(s) && Mirrored(s)
    ensures Mirrored(ConfirmBooking(s, id).state) <==> !MovesFlexRow(s, ConfirmBookingStep(id))
  {
    hide Linked, Mirrored, ApprovePending, CommissionOnConfirm, Logged;
    if ConfirmBooking(s, id).outcome == Done {
      StatusMoveMirror(s, ConfirmBooking(s, id).state, id);
    }
  }

  lemma CompleteMirror(s: State, id: Id)
    requires Linked(s) && Mirrored(s)
    ensures Mirrored(CompleteBooking(s, id).state) <==> !MovesFlexRow(s, CompleteBookingStep(id))
  {
    hide Linked, Mirrored, Logged;
    if CompleteBooking(s, id).outcome == Done {
      StatusMoveMirror(s, CompleteBooking(s, id).state, id);
    }
  }

  /** A confirmation or completion in the registry breaks the mirror exactly when it moves a flex row. */
  lemma DirectChangeMirror(s: State, step: Step)
    requires Linked(s) && Mirrored(s) && (step.ConfirmBookingStep? || step.CompleteBookingStep?)
    ensures Mirrored(Next(s, step)) <==> !MovesFlexRow(s, step)
  {
    hide Linked, Mirrored, MovesFlexRow, ConfirmBooking, CompleteBooking;
    match step
    case ConfirmBookingStep(id) => ConfirmMirror(s, id);
    case CompleteBookingStep(id) => CompleteMirror(s, id);
  }

  lemma UpdateBookingMirror(s: State, step: Step)
    requires Linked(s) && Mirrored(s) && step.UpdateBookingStep?
    ensures Mirrored(Next(s, step))
  {
    if Next(s, step) != s {
      UnpairedKeepsMirror(s, Next(s, step), step.id);
    }
  }

  // ---------------------------------------------------------------- every step, every run

  lemma QuietMirror(s: State, step: Step)
    requires Linked(s) && Mirrored(s)
    requires IsRateStep(step) || IsSettlementStep(step) || IsPaymentStep(step) || step.StartSessionStep?
    ensures Mirrored(Next(s, step))
  {
    if step.StartSessionStep? {
      SessionStepEffect(s, step);
    } else if IsRateStep(step) {
      RateStepEffect(s, step);
    } else if IsSettlementStep(step) {
      SettlementStepEffect(s, step);
    } else if step.CreateCheckoutStep? {
      CheckoutEffect(s, step);
    } else {
      NoticeEffect(s, step.row, step.notice);
      if Confirms(s, step.row, step.notice) {
        PaymentMirror(s, step.notice.reference.value, step.notice.paymentId);
      }
    }
  }

  lemma BookingMirror(s: State, step: Step)
    requires Linked(s) && Mirrored(s)
    requires step.UpdateFlexStep? || step.DeleteFlexStep? || step.CancelBookingStep?
    ensures Mirrored(Next(s, step))
  {
    hide Mirrored, UpdateFlex, DeleteFlex, CancelBooking;
    match step
    case UpdateFlexStep(id, dto) => UpdateFlexMirror(s, id, dto);
    case DeleteFlexStep(id) => DeleteFlexMirror(s, id);
    case CancelBookingStep(id) => CancelMirror(s, id);
  }

  lemma CreationMirror(s: State, step: Step)
    requires Linked(s) && Mirrored(s) && IsCreation(step)
    ensures Mirrored(Next(s, step))
  {
    hide Mirrored, Linked, CreateFlex, CreateBooking, ConfirmFromCloudbeds, AmbassadorReservation;
    match step
    case CreateFlexStep(_, _, _, _) => CreateFlexMirror(s, step);
    case CreateBookingStep(id, dto) => CreateBookingMirror(s, id, dto);
    case ConfirmFromCloudbedsStep(id, dto) => CloudbedsMirror(s, id, dto);
    case AmbassadorReservationStep(id, sessionId, dto) => AmbassadorMirror(s, id, sessionId, dto);
  }

  /** Of all calls only those break the mirror. */
  lemma StepKeepsMirror(s: State, step: Step)
    requires Linked(s) && Mirrored(s)
    ensures Mirrored(Next(s, step)) <==> !MovesFlexRow(s, step)
  {
    hide Mirrored, Next, Linked;
    if IsCreation(step) {
      CreationMirror(s, step);
    } else if step.UpdateFlexStep? || step.DeleteFlexStep? || step.CancelBookingStep? {
      BookingMirror(s, step);
    } else if step.ConfirmBookingStep? || step.CompleteBookingStep? {
      DirectChangeMirror(s, step);
    } else if step.UpdateBookingStep? {
      UpdateBookingMirror(s, step);
    } else {
      QuietMirror(s, step);
    }
  }

  ghost predicate FlexRun(s: State, steps: seq<Step>)
    decreases |steps|
  {
    steps != [] ==> !MovesFlexRow(s, steps[0]) && FlexRun(Next(s, steps[0]), steps[1..])
  }

  /** Over any run without such a confirmation or completion the registry mirrors every flex booking. */
  lemma {:induction false} RegistryMirrors(s: State, steps: seq<Step>)
    requires Linked(s) && Mirrored(s) && FlexRun(s, steps)
    ensures Linked(Run(s, steps)) && Mirrored(Run(s, steps))
    decreases |steps|
  {
    if steps != [] {
      LinkedStep(s, steps[0]);
      StepKeepsMirror(s, steps[0]);
      RegistryMirrors(Next(s, steps[0]), steps[1..]);
    }
  }
}
