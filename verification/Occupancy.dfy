/** Active flex bookings of one property never overlap. */
module Occupancy {
  import opened Common
  import opened Tables
  import opened Bookings
  import opened Payments
  import opened Steps
  import opened Effects

  predicate Apart(f: FlexBooking, g: FlexBooking) {
    Active(f) && Active(g) && f.propertyFlexId == g.propertyFlexId ==> !Overlaps(f, g.startDate, g.endDate)
  }

  ghost predicate NoOverlap(flex: map<Id, FlexBooking>) {
    forall f, g :: f in flex && g in flex && f != g ==> Apart(flex[f], flex[g])
  }

  ghost predicate Dated(flex: map<Id, FlexBooking>) {
    forall f :: f in flex ==> flex[f].startDate < flex[f].endDate
  }

  /** Same stay on the same days, active only if it was. */
  predicate Shrinks(f: FlexBooking, g: FlexBooking) {
    && g.propertyFlexId == f.propertyFlexId && g.startDate == f.startDate && g.endDate == f.endDate
    && (Active(g) ==> Active(f))
  }

  ghost predicate AllShrink(flex: map<Id, FlexBooking>, flex': map<Id, FlexBooking>) {
    flex'.Keys == flex.Keys && forall f :: f in flex ==> Shrinks(flex[f], flex'[f])
  }

  lemma ShrinkKeepsApart(flex: map<Id, FlexBooking>, flex': map<Id, FlexBooking>)
    requires AllShrink(flex, flex')
    ensures NoOverlap(flex) ==> NoOverlap(flex')
    ensures Dated(flex) ==> Dated(flex')
  {
    if NoOverlap(flex) {
      forall f, g | f in flex' && g in flex' && f != g ensures Apart(flex'[f], flex'[g]) {
        assert Apart(flex[f], flex[g]) && Shrinks(flex[f], flex'[f]) && Shrinks(flex[g], flex'[g]);
      }
    }
    if Dated(flex) {
      forall f | f in flex' ensures flex'[f].startDate < flex'[f].endDate {
        assert Shrinks(flex[f], flex'[f]);
      }
    }
  }

  lemma RowShrinks(flex: map<Id, FlexBooking>, id: Id, f: FlexBooking)
    requires id in flex ==> Shrinks(flex[id], f)
    ensures id in flex ==> AllShrink(flex, flex[id := f])
  {}

  lemma ShrinkRefl(flex: map<Id, FlexBooking>)
    ensures AllShrink(flex, flex)
  {}

  /** A row on free days joins the others. */
  lemma PlaceFree(flex: map<Id, FlexBooking>, id: Id, f: FlexBooking)
    requires NoOverlap(flex)
    requires Active(f) ==> !Conflict(flex, f.propertyFlexId, f.startDate, f.endDate, Some(id))
    ensures NoOverlap(flex[id := f])
  {
    var flex' := flex[id := f];
    forall x, y | x in flex' && y in flex' && x != y ensures Apart(flex'[x], flex'[y]) {
      if x != id && y != id {
        assert Apart(flex[x], flex[y]);
      }
    }
  }

  /** And only then. */
  lemma PlaceTaken(flex: map<Id, FlexBooking>, id: Id, f: FlexBooking)
    requires Active(f) && Conflict(flex, f.propertyFlexId, f.startDate, f.endDate, Some(id))
    ensures !NoOverlap(flex[id := f])
  {
    var g :| g in flex && Some(g) != Some(id) && flex[g].propertyFlexId == f.propertyFlexId
             && Active(flex[g]) && Overlaps(flex[g], f.startDate, f.endDate);
    assert !Apart(flex[id := f][g], flex[id := f][id]);
  }

  lemma CancelShrinks(s: State, id: Id)
    ensures AllShrink(s.flex, CancelBooking(s, id).state.flex)
  {
    var fid := if id in s.bookings then s.bookings[id].flexBookingId else None;
    if fid.Some? && fid.value in s.flex {
      RowShrinks(s.flex, fid.value, s.flex[fid.value].(status := FlexStatus.Cancelled));
    }
    ShrinkRefl(s.flex);
  }

  lemma PaymentShrinks(s: State, id: Id, mpPaymentId: Id)
    ensures AllShrink(s.flex, ConfirmFromPayment(s, id, mpPaymentId).state.flex)
  {
    if id in s.flex {
      if !s.flex[id].status.Cancelled? {
        RowShrinks(s.flex, id, s.flex[id].(status := FlexStatus.Confirmed));
      }
    }
  }

  lemma DeleteShrinks(s: State, id: Id)
    ensures AllShrink(s.flex, DeleteFlex(s, id).state.flex)
  {
    if id in s.flex && !s.flex[id].deleted {
      if id !in s.registryOf || s.registryOf[id] !in s.bookings {
        RowShrinks(s.flex, id, s.flex[id].(deleted := true));
      } else {
        var r := s.registryOf[id];
        var c := if s.bookings[r].status.Cancelled? then Reply(s, Done) else CancelBooking(s, r);
        CancelShrinks(s, r);
        if c.outcome == Done {
          RowShrinks(c.state.flex, id, c.state.flex[id].(deleted := true));
        }
      }
    }
  }

  // ---------------------------------------------------------------- the one leak

  /** An update that sends a cancelled booking back to life without sending a date. */
  predicate Reactivates(s: State, id: Id, dto: FlexChange) {
    && id in s.flex && !s.flex[id].deleted && s.flex[id].status.Cancelled?
    && dto.status.Some? && !IsCancellation(dto) && !Redated(dto)
  }

  /** What a conflict query on the stored days would find. */
  predicate DaysTaken(s: State, id: Id)
    requires id in s.flex
  {
    var f := s.flex[id];
    Conflict(s.flex, f.propertyFlexId, f.startDate, f.endDate, Some(id))
  }

  /** The flex table after the update transaction, and a possible cancellation after it. */
  lemma UpdateFlexTable(s: State, id: Id, dto: FlexChange)
    requires id in s.flex
    ensures var t := UpdateFlex(s, id, dto).state;
      || t.flex == s.flex
      || AllShrink(s.flex[id := ChangedFlex(s.flex[id], dto)], t.flex)
    ensures !IsCancellation(dto) ==> var t := UpdateFlex(s, id, dto).state;
      t.flex == s.flex || t.flex == s.flex[id := ChangedFlex(s.flex[id], dto)]
  {
    var t := UpdateFlex(s, id, dto).state;
    var flex := s.flex[id := ChangedFlex(s.flex[id], dto)];
    ShrinkRefl(flex);
    if t.flex != s.flex && id in s.registryOf && s.registryOf[id] in s.bookings {
      CancelShrinks(UpdateRows(s, id, dto, s.registryOf[id]), s.registryOf[id]);
    }
  }

  /** Unless the row comes back to life on its old days, either it was active there or a query cleared its new days. */
  lemma UpdateFlexPlace(s: State, id: Id, dto: FlexChange)
    requires NoOverlap(s.flex) && id in s.flex && UpdateFlex(s, id, dto).state.flex != s.flex
    requires !(Reactivates(s, id, dto) && DaysTaken(s, id))
    ensures NoOverlap(s.flex[id := ChangedFlex(s.flex[id], dto)])
  {
    var f := ChangedFlex(s.flex[id], dto);
    PlaceFree(s.flex, id, f);
  }

  /** An update keeps active stays apart exactly when it does not revive a cancelled booking on days that are taken. */
  lemma UpdateFlexOverlap(s: State, id: Id, dto: FlexChange)
    requires NoOverlap(s.flex) && Dated(s.flex)
    ensures NoOverlap(UpdateFlex(s, id, dto).state.flex) <==> !(Reactivates(s, id, dto) && DaysTaken(s, id))
    ensures Dated(UpdateFlex(s, id, dto).state.flex)
  {
    var t := UpdateFlex(s, id, dto).state;
    if id in s.flex {
      var f := ChangedFlex(s.flex[id], dto);
      var flex := s.flex[id := f];
      UpdateFlexTable(s, id, dto);
      if t.flex != s.flex {
        ShrinkKeepsApart(flex, t.flex);
        assert Dated(flex);
        if Reactivates(s, id, dto) && DaysTaken(s, id) {
          PlaceTaken(s.flex, id, f);
        } else {
          UpdateFlexPlace(s, id, dto);
        }
      } else if Reactivates(s, id, dto) {
        RevivedRowChanges(s, id, dto);
      }
    }
  }

  lemma RevivedRowChanges(s: State, id: Id, dto: FlexChange)
    requires Dated(s.flex) && Reactivates(s, id, dto)
    ensures UpdateFlex(s, id, dto).state.flex != s.flex
  {
    assert ChangedFlex(s.flex[id], dto).status != s.flex[id].status;
    UpdateFlexTable(s, id, dto);
    assert UpdateFlex(s, id, dto).state.flex[id].status != s.flex[id].status;
  }

  // ---------------------------------------------------------------- every step, every run

  predicate Careful(s: State, step: Step) {
    step.UpdateFlexStep? ==> !(Reactivates(s, step.id, step.change) && DaysTaken(s, step.id))
  }

  lemma NoticeShrinks(s: State, row: Id, n: Notice)
    ensures AllShrink(s.flex, ProcessNotice(s, row, n).state.flex)
  {
    NoticeEffect(s, row, n);
    if Confirms(s, row, n) {
      PaymentShrinks(s, n.reference.value, n.paymentId);
    }
  }

  lemma CreateFlexApart(s: State, step: Step)
    requires step.CreateFlexStep? && NoOverlap(s.flex) && Dated(s.flex)
    ensures NoOverlap(Next(s, step).flex) && Dated(Next(s, step).flex)
  {
    var t := Next(s, step);
    if t != s {
      PlaceFree(s.flex, step.id, t.flex[step.id]);
    }
  }

  lemma OthersKeepFlex(s: State, step: Step)
    requires !step.CreateFlexStep? && !step.UpdateFlexStep? && !step.DeleteFlexStep? && !step.CancelBookingStep?
             && !step.NoticeStep?
    ensures Next(s, step).flex == s.flex
  {
    if step.StartSessionStep? {
      SessionStepEffect(s, step);
    } else if IsRateStep(step) {
      RateStepEffect(s, step);
    } else if IsSettlementStep(step) {
      SettlementStepEffect(s, step);
    }
  }

  lemma StepShrinks(s: State, step: Step)
    requires step.DeleteFlexStep? || step.CancelBookingStep? || step.NoticeStep?
    ensures AllShrink(s.flex, Next(s, step).flex)
  {
    match step
    case DeleteFlexStep(id) => DeleteShrinks(s, id);
    case CancelBookingStep(id) => CancelShrinks(s, id);
    case NoticeStep(row, n) => NoticeShrinks(s, row, n);
  }

  /** Of all calls only an update that revives a stay on days that are taken makes active stays overlap. */
  lemma StepKeepsApart(s: State, step: Step)
    requires NoOverlap(s.flex) && Dated(s.flex)
    ensures NoOverlap(Next(s, step).flex) <==> Careful(s, step)
    ensures Dated(Next(s, step).flex)
  {
    if step.CreateFlexStep? {
      CreateFlexApart(s, step);
    } else if step.UpdateFlexStep? {
      UpdateFlexOverlap(s, step.id, step.change);
    } else if step.DeleteFlexStep? || step.CancelBookingStep? || step.NoticeStep? {
      StepShrinks(s, step);
      ShrinkKeepsApart(s.flex, Next(s, step).flex);
    } else {
      OthersKeepFlex(s, step);
    }
  }

  ghost predicate CarefulRun(s: State, steps: seq<Step>)
    decreases |steps|
  {
    steps != [] ==> Careful(s, steps[0]) && CarefulRun(Next(s, steps[0]), steps[1..])
  }

  /** No property is ever let twice at a time, over any run without such a revival. */
  lemma {:induction false} NeverDoubleBooked(s: State, steps: seq<Step>)
    requires NoOverlap(s.flex) && Dated(s.flex) && CarefulRun(s, steps)
    ensures NoOverlap(Run(s, steps).flex) && Dated(Run(s, steps).flex)
    decreases |steps|
  {
    if steps != [] {
      StepKeepsApart(s, steps[0]);
      NeverDoubleBooked(Next(s, steps[0]), steps[1..]);
    }
  }
}
