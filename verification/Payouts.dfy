/** What a settlement is worth and which commissions it pays, over every run. */
module Payouts {
  import opened Common
  import opened Tables
  import opened Rates
  import opened Bookings
  import opened Settlements
  import opened Payments
  import opened Steps
  import opened Effects

  // ---------------------------------------------------------------- the life of one commission

  /** One commission over a step that is not a settlement step; approved says the step was its approval. */
  predicate Evolves(c: Commission, d: Commission, approved: bool) {
    || d == c
    || d == c.(status := CommissionStatus.Cancelled)
    || (c.status.Pending?
        && (d.status.Pending? || d.status.Cancelled? || (d.status.Approved? && c.settlementId == None))
        && d == c.(rate := d.rate, baseAmount := d.baseAmount, amount := d.amount, status := d.status))
    || (approved && (c.status.Pending? || c.status.PendingValidation?) && c.settlementId == None
        && d == c.(status := CommissionStatus.Approved))
  }

  predicate Newborn(c: Commission) {
    c.settlementId == None && !c.status.Paid?
  }

  /** Every row evolves, new rows are unattached and unpaid, none disappears; approved is the row being approved. */
  ghost predicate AllEvolve(commissions: map<Id, Commission>, commissions': map<Id, Commission>, approved: Option<Id>) {
    && commissions.Keys <= commissions'.Keys
    && (forall b :: b in commissions ==> Evolves(commissions[b], commissions'[b], approved == Some(b)))
    && (forall b :: b in commissions' && b !in commissions ==> Newborn(commissions'[b]))
  }

  lemma SetEvolves(commissions: map<Id, Commission>, id: Id, c: Commission)
    requires id in commissions ==> Evolves(commissions[id], c, false)
    requires id !in commissions ==> Newborn(c)
    ensures AllEvolve(commissions, commissions[id := c], None)
  {}

  lemma EvolveRefl(commissions: map<Id, Commission>, approved: Option<Id>)
    ensures AllEvolve(commissions, commissions, approved)
  {}

  lemma EvolveTrans(c: map<Id, Commission>, d: map<Id, Commission>, e: map<Id, Commission>)
    requires AllEvolve(c, d, None) && AllEvolve(d, e, None)
    ensures AllEvolve(c, e, None)
  {
    forall b | b in c ensures Evolves(c[b], e[b], false) {
      assert Evolves(c[b], d[b], false) && Evolves(d[b], e[b], false);
    }
    forall b | b in e && b !in c ensures Newborn(e[b]) {
      if b in d {
        assert Newborn(d[b]) && Evolves(d[b], e[b], false);
      }
    }
  }

  lemma TermsEvolve(c: map<Id, Commission>, d: map<Id, Commission>)
    requires OnlyPendingTerms(c, d)
    ensures AllEvolve(c, d, None)
  {
    forall b | b in c ensures Evolves(c[b], d[b], false) {
      assert OnlyTerms(c[b], d[b]);
    }
  }

  lemma ApproveEvolves(commissions: map<Id, Commission>, id: Id)
    ensures AllEvolve(commissions, ApprovePending(commissions, id), None)
    ensures AllEvolve(commissions, CancelCommission(commissions, id), None)
  {}

  lemma RepriceEvolves(commissions: map<Id, Commission>, id: Id, t: Terms)
    ensures AllEvolve(commissions, RepricePending(commissions, id, t), None)
  {}

  lemma UpdateRowsEvolves(s: State, id: Id, dto: FlexChange, r: Id)
    requires id in s.flex && r in s.bookings
    ensures AllEvolve(s.commissions, UpdateRows(s, id, dto, r).commissions, None)
  {
    var f := ChangedFlex(s.flex[id], dto);
    var b := ChangedRegistry(s.bookings[r], f, dto);
    var t := Terms(ResolveFlexRate(s.catalog, f.propertyFlexId, b.profileId).rate, f.monthlyAmount);
    var c := if Repriced(dto) then RepricePending(s.commissions, r, t) else s.commissions;
    RepriceEvolves(s.commissions, r, t);
    EvolveRefl(s.commissions, None);
    ApproveEvolves(c, r);
    EvolveTrans(s.commissions, c, ApprovePending(c, r));
  }

  lemma CancelEvolves(s: State, id: Id)
    ensures var t := CancelBooking(s, id).state;
      t.settlements == s.settlements && AllEvolve(s.commissions, t.commissions, None)
  {
    ApproveEvolves(s.commissions, id);
    EvolveRefl(s.commissions, None);
  }

  lemma UpdateFlexEvolves(s: State, id: Id, dto: FlexChange)
    ensures var t := UpdateFlex(s, id, dto).state;
      t.settlements == s.settlements && AllEvolve(s.commissions, t.commissions, None)
  {
    hide AllEvolve, CancelBooking, ChangedFlex, Conflict, RepricePending, ApprovePending, Logged;
    EvolveRefl(s.commissions, None);
    var t := UpdateFlex(s, id, dto).state;
    if t != s && id in s.registryOf && s.registryOf[id] in s.bookings {
      var r := s.registryOf[id];
      var s1 := UpdateRows(s, id, dto, r);
      UpdateRowsEvolves(s, id, dto, r);
      if t != s1 {
        CancelEvolves(s1, r);
        EvolveTrans(s.commissions, s1.commissions, t.commissions);
      }
    }
  }

  lemma DeleteFlexEvolves(s: State, id: Id)
    ensures var t := DeleteFlex(s, id).state;
      t.settlements == s.settlements && AllEvolve(s.commissions, t.commissions, None)
  {
    EvolveRefl(s.commissions, None);
    var t := DeleteFlex(s, id).state;
    if t.commissions != s.commissions {
      CancelEvolves(s, s.registryOf[id]);
    }
  }

  lemma ConfirmEvolves(s: State, id: Id)
    ensures var t := ConfirmBooking(s, id).state;
      t.settlements == s.settlements && AllEvolve(s.commissions, t.commissions, None)
  {
    EvolveRefl(s.commissions, None);
    if ConfirmBooking(s, id).outcome == Done {
      var c := CommissionOnConfirm(s, id);
      assert AllEvolve(s.commissions, c, None);
      ApproveEvolves(c, id);
      EvolveTrans(s.commissions, c, ApprovePending(c, id));
    }
  }

  lemma PaymentEvolves(s: State, step: Step)
    requires IsPaymentStep(step)
    ensures var t := Next(s, step); t.settlements == s.settlements && AllEvolve(s.commissions, t.commissions, None)
  {
    hide AllEvolve, ApprovePending, Logged, CreateCheckout, ProcessNotice, AmountMatches, Recordable;
    EvolveRefl(s.commissions, None);
    if step.NoticeStep? {
      NoticeEffect(s, step.row, step.notice);
      if Confirms(s, step.row, step.notice) && step.notice.reference.value in s.registryOf {
        ApproveEvolves(s.commissions, s.registryOf[step.notice.reference.value]);
      }
    } else {
      CheckoutEffect(s, step);
    }
  }

  lemma RateEvolves(s: State, step: Step)
    requires IsRateStep(step)
    ensures var t := Next(s, step); t.settlements == s.settlements && AllEvolve(s.commissions, t.commissions, None)
  {
    RateStepEffect(s, step);
    TermsEvolve(s.commissions, Next(s, step).commissions);
  }

  lemma CreateFlexEvolves(s: State, step: Step)
    requires step.CreateFlexStep? && s.commissions.Keys <= s.bookings.Keys
    ensures var t := Next(s, step); t.settlements == s.settlements && AllEvolve(s.commissions, t.commissions, None)
  {
    EvolveRefl(s.commissions, None);
    var t := Next(s, step);
    if t != s {
      SetEvolves(s.commissions, step.bookingId, t.commissions[step.bookingId]);
    }
  }

  lemma CloudbedsEvolves(s: State, id: Id, dto: CloudbedsStay)
    requires s.commissions.Keys <= s.bookings.Keys
    ensures var t := ConfirmFromCloudbeds(s, id, dto).state;
      t.settlements == s.settlements && AllEvolve(s.commissions, t.commissions, None)
  {
    hide ResolveTemporalRate, CommissionAmount, Registered, AllEvolve;
    EvolveRefl(s.commissions, None);
    var t := ConfirmFromCloudbeds(s, id, dto).state;
    if t.commissions != s.commissions {
      SetEvolves(s.commissions, id, t.commissions[id]);
    }
  }

  lemma AmbassadorEvolves(s: State, id: Id, sessionId: Id, dto: TrackedStay)
    requires s.commissions.Keys <= s.bookings.Keys
    ensures var t := AmbassadorReservation(s, id, sessionId, dto).state;
      t.settlements == s.settlements && AllEvolve(s.commissions, t.commissions, None)
  {
    hide ResolveTemporalRate, CommissionAmount, Registered, AllEvolve;
    EvolveRefl(s.commissions, None);
    var t := AmbassadorReservation(s, id, sessionId, dto).state;
    if t.commissions != s.commissions {
      SetEvolves(s.commissions, id, t.commissions[id]);
    }
  }

  lemma CreateBookingEvolves(s: State, id: Id, dto: NewBooking)
    ensures var t := CreateBooking(s, id, dto).state;
      t.settlements == s.settlements && AllEvolve(s.commissions, t.commissions, None)
  {
    EvolveRefl(s.commissions, None);
    hide AllEvolve;
  }

  /** Completing and redating a booking. */
  lemma ClosingEvolves(s: State, id: Id, checkIn: Option<Day>, checkOut: Option<Day>)
    ensures var t := CompleteBooking(s, id).state;
      t.settlements == s.settlements && AllEvolve(s.commissions, t.commissions, None)
    ensures var t := UpdateBooking(s, id, checkIn, checkOut).state;
      t.settlements == s.settlements && AllEvolve(s.commissions, t.commissions, None)
  {
    EvolveRefl(s.commissions, None);
    hide AllEvolve;
  }

  predicate Settles(step: Step) {
    step.CreateSettlementsStep? || step.MarkPaidStep? || step.CancelDraftStep?
  }

  function ApprovedBy(step: Step): Option<Id> {
    if step.ApproveCommissionStep? then Some(step.id) else None
  }

  lemma ApproveCommissionEvolves(s: State, id: Id)
    ensures AllEvolve(s.commissions, ApproveCommission(s, id).state.commissions, Some(id))
  {
    EvolveRefl(s.commissions, Some(id));
  }

  lemma CreationEvolves(s: State, step: Step)
    requires IsCreation(step) && s.commissions.Keys <= s.bookings.Keys
    ensures var t := Next(s, step); t.settlements == s.settlements && AllEvolve(s.commissions, t.commissions, None)
  {
    hide AllEvolve, CreateFlex, CreateBooking, ConfirmFromCloudbeds, AmbassadorReservation;
    match step
    case CreateFlexStep(_, _, _, _) => CreateFlexEvolves(s, step);
    case CreateBookingStep(id, dto) => CreateBookingEvolves(s, id, dto);
    case ConfirmFromCloudbedsStep(id, dto) => CloudbedsEvolves(s, id, dto);
    case AmbassadorReservationStep(id, sessionId, dto) => AmbassadorEvolves(s, id, sessionId, dto);
  }

  lemma BookingEvolves(s: State, step: Step)
    requires step.UpdateFlexStep? || step.DeleteFlexStep? || step.CancelBookingStep? || step.ConfirmBookingStep?
          || step.CompleteBookingStep? || step.UpdateBookingStep?
    ensures var t := Next(s, step); t.settlements == s.settlements && AllEvolve(s.commissions, t.commissions, None)
  {
    hide AllEvolve, UpdateFlex, DeleteFlex, CancelBooking, ConfirmBooking, CompleteBooking, UpdateBooking;
    match step
    case UpdateFlexStep(id, dto) => UpdateFlexEvolves(s, id, dto);
    case DeleteFlexStep(id) => DeleteFlexEvolves(s, id);
    case CancelBookingStep(id) => CancelEvolves(s, id);
    case ConfirmBookingStep(id) => ConfirmEvolves(s, id);
    case CompleteBookingStep(id) => ClosingEvolves(s, id, None, None);
    case UpdateBookingStep(id, checkIn, checkOut) => ClosingEvolves(s, id, checkIn, checkOut);
  }

  lemma ApprovalEvolves(s: State, step: Step)
    requires step.ApproveCommissionStep?
    ensures var t := Next(s, step);
      t.settlements == s.settlements && AllEvolve(s.commissions, t.commissions, Some(step.id))
  {
    hide AllEvolve, ApproveCommission;
    ApproveTouches(s, step.id);
    ApproveCommissionEvolves(s, step.id);
  }

  /** Outside the settlement steps commissions only evolve and settlements stand still. */
  lemma StepEvolves(s: State, step: Step)
    requires s.commissions.Keys <= s.bookings.Keys && !Settles(step)
    ensures Next(s, step).settlements == s.settlements
    ensures AllEvolve(s.commissions, Next(s, step).commissions, ApprovedBy(step))
  {
    hide AllEvolve, Next;
    if IsRateStep(step) {
      RateEvolves(s, step);
    } else if IsPaymentStep(step) {
      PaymentEvolves(s, step);
    } else if IsCreation(step) {
      CreationEvolves(s, step);
    } else if step.StartSessionStep? {
      SessionStepEffect(s, step);
      EvolveRefl(s.commissions, None);
    } else if step.ApproveCommissionStep? {
      ApprovalEvolves(s, step);
    } else {
      BookingEvolves(s, step);
    }
  }

  // ---------------------------------------------------------------- settlements balance

  /** Where a commission may stand: paid only inside a paid settlement, attached only once approved, only to a
      settlement of its own ambassador, and never to a cancelled one. */
  predicate Placed(c: Commission, settlements: map<Id, Settlement>) {
    match c.settlementId
    case None => !c.status.Paid?
    case Some(sid) =>
      && sid in settlements
      && c.profileId == Some(settlements[sid].profileId)
      && !settlements[sid].status.Cancelled?
      && (c.status.Approved? || c.status.Paid? || c.status.Cancelled?)
      && (c.status.Paid? ==> settlements[sid].status.Paid?)
  }

  function AttachedAmounts(commissions: map<Id, Commission>, sid: Id): map<Id, Cents> {
    map b | b in commissions && commissions[b].settlementId == Some(sid) :: commissions[b].amount
  }

  ghost predicate Balanced(commissions: map<Id, Commission>, sid: Id, st: Settlement) {
    !st.status.Cancelled? ==> st.totalAmount == Sum(AttachedAmounts(commissions, sid))
  }

  ghost predicate Settled(commissions: map<Id, Commission>, settlements: map<Id, Settlement>) {
    && (forall b :: b in commissions ==> Placed(commissions[b], settlements))
    && (forall sid :: sid in settlements ==> Balanced(commissions, sid, settlements[sid]))
  }

  lemma EvolvedIsPlaced(c: Commission, d: Commission, approved: bool, settlements: map<Id, Settlement>)
    requires Placed(c, settlements) && Evolves(c, d, approved)
    ensures Placed(d, settlements) && d.settlementId == c.settlementId
    ensures c.settlementId.Some? ==> d.amount == c.amount
  {}

  lemma EvolveKeepsSettled(commissions: map<Id, Commission>, commissions': map<Id, Commission>,
                           settlements: map<Id, Settlement>, approved: Option<Id>)
    requires Settled(commissions, settlements) && AllEvolve(commissions, commissions', approved)
    ensures Settled(commissions', settlements)
  {
    hide Evolves;
    forall b | b in commissions'
      ensures Placed(commissions'[b], settlements)
      ensures b in commissions ==>
                && commissions'[b].settlementId == commissions[b].settlementId
                && (commissions[b].settlementId.Some? ==> commissions'[b].amount == commissions[b].amount)
      ensures b !in commissions ==> commissions'[b].settlementId == None
    {
      if b in commissions {
        EvolvedIsPlaced(commissions[b], commissions'[b], approved == Some(b), settlements);
      } else {
        assert Newborn(commissions'[b]);
      }
    }
    forall sid | sid in settlements ensures Balanced(commissions', sid, settlements[sid]) {
      assert AttachedAmounts(commissions', sid) == AttachedAmounts(commissions, sid);
      assert Balanced(commissions, sid, settlements[sid]);
    }
  }

  /** The rows a new settlement attaches are exactly the preview group of its ambassador. */
  lemma DraftAmounts(s: State, rows: set<Id>, uuid: Id -> Id, p: Id)
    requires Settled(s.commissions, s.settlements)
    requires forall id :: id in rows ==> EligibleRow(s, id)
    requires p in ProfilesOf(s, rows) && !Collides(s, ProfilesOf(s, rows), uuid)
    ensures AttachedAmounts(Attach(s.commissions, rows, uuid), uuid(p)) == Amounts(s, OwnedBy(s, rows, p))
  {
    var c' := Attach(s.commissions, rows, uuid);
    forall b | b in s.commissions
      ensures c'[b].settlementId == Some(uuid(p)) <==> b in OwnedBy(s, rows, p)
    {
      assert Placed(s.commissions[b], s.settlements);
      if b in rows {
        assert s.commissions[b].profileId.value in ProfilesOf(s, rows);
      }
    }
  }

  lemma OldAmounts(s: State, rows: set<Id>, uuid: Id -> Id, sid: Id)
    requires sid in s.settlements
    requires forall id :: id in rows ==> EligibleRow(s, id)
    requires !Collides(s, ProfilesOf(s, rows), uuid)
    ensures AttachedAmounts(Attach(s.commissions, rows, uuid), sid) == AttachedAmounts(s.commissions, sid)
  {
    var c' := Attach(s.commissions, rows, uuid);
    forall b | b in s.commissions
      ensures c'[b].settlementId == Some(sid) <==> s.commissions[b].settlementId == Some(sid)
    {
      if b in rows {
        assert EligibleRow(s, b);
        assert s.commissions[b].profileId.value in ProfilesOf(s, rows);
      }
    }
  }

  lemma AttachedArePlaced(s: State, rows: set<Id>, uuid: Id -> Id, b: Id)
    requires Settled(s.commissions, s.settlements)
    requires forall id :: id in rows ==> EligibleRow(s, id)
    requires !Collides(s, ProfilesOf(s, rows), uuid) && b in s.commissions
    ensures Placed(Attach(s.commissions, rows, uuid)[b], s.settlements + NewDrafts(Groups(s, rows), uuid))
  {
    assert Placed(s.commissions[b], s.settlements);
    if b in rows {
      assert EligibleRow(s, b);
      assert s.commissions[b].profileId.value in ProfilesOf(s, rows);
    } else if s.commissions[b].settlementId.Some? {
      var sid := s.commissions[b].settlementId.value;
      assert sid !in NewDrafts(Groups(s, rows), uuid);
    }
  }

  lemma CreateKeepsSettled(s: State, filter: set<Id>, uuid: Id -> Id)
    requires Settled(s.commissions, s.settlements)
    ensures var t := CreateSettlements(s, filter, uuid).state; Settled(t.commissions, t.settlements)
  {
    var rows := Eligible(s, filter);
    var t := CreateSettlements(s, filter, uuid).state;
    if t != s {
      forall b | b in t.commissions ensures Placed(t.commissions[b], t.settlements) {
        AttachedArePlaced(s, rows, uuid, b);
      }
      forall sid | sid in t.settlements ensures Balanced(t.commissions, sid, t.settlements[sid]) {
        if sid in s.settlements {
          assert sid !in NewDrafts(Groups(s, rows), uuid);
          OldAmounts(s, rows, uuid, sid);
          assert Balanced(s.commissions, sid, s.settlements[sid]);
        } else {
          var p :| p in ProfilesOf(s, rows) && uuid(p) == sid;
          DraftAmounts(s, rows, uuid, p);
        }
      }
    }
  }

  lemma MarkPaidKeepsSettled(s: State, sid: Id)
    requires Settled(s.commissions, s.settlements)
    ensures var t := MarkPaid(s, sid).state; Settled(t.commissions, t.settlements)
  {
    var t := MarkPaid(s, sid).state;
    if t != s {
      forall b | b in t.commissions ensures Placed(t.commissions[b], t.settlements) {
        assert Placed(s.commissions[b], s.settlements);
      }
      forall x | x in t.settlements ensures Balanced(t.commissions, x, t.settlements[x]) {
        assert Balanced(s.commissions, x, s.settlements[x]);
        assert AttachedAmounts(t.commissions, x) == AttachedAmounts(s.commissions, x);
      }
    }
  }

  lemma CancelDraftKeepsSettled(s: State, sid: Id)
    requires Settled(s.commissions, s.settlements)
    ensures var t := CancelDraft(s, sid).state; Settled(t.commissions, t.settlements)
  {
    hide Sum;
    var t := CancelDraft(s, sid).state;
    if t != s {
      forall b | b in t.commissions ensures Placed(t.commissions[b], t.settlements) {
        assert Placed(s.commissions[b], s.settlements);
      }
      forall x | x in t.settlements ensures Balanced(t.commissions, x, t.settlements[x]) {
        assert Balanced(s.commissions, x, s.settlements[x]);
        if x != sid {
          assert AttachedAmounts(t.commissions, x) == AttachedAmounts(s.commissions, x);
        }
      }
    }
  }

  lemma SettlingKeepsSettled(s: State, step: Step)
    requires Settles(step) && Settled(s.commissions, s.settlements)
    ensures Settled(Next(s, step).commissions, Next(s, step).settlements)
  {
    hide Settled, CreateSettlements, MarkPaid, CancelDraft;
    match step
    case CreateSettlementsStep(filter, uuid) => CreateKeepsSettled(s, filter, uuid);
    case MarkPaidStep(sid) => MarkPaidKeepsSettled(s, sid);
    case CancelDraftStep(sid) => CancelDraftKeepsSettled(s, sid);
  }

  lemma StepKeepsSettled(s: State, step: Step)
    requires s.commissions.Keys <= s.bookings.Keys && Settled(s.commissions, s.settlements)
    ensures Settled(Next(s, step).commissions, Next(s, step).settlements)
  {
    hide Settled, AllEvolve, Next;
    if Settles(step) {
      SettlingKeepsSettled(s, step);
    } else {
      StepEvolves(s, step);
      EvolveKeepsSettled(s.commissions, Next(s, step).commissions, s.settlements, ApprovedBy(step));
    }
  }
}
