/** The status history is a faithful log of every booking, over every run of every service. */
module History {
  import opened Common
  import opened Tables
  import opened Bookings
  import opened Steps
  import opened Effects

  /** Starts from nothing, each entry leaves the status the previous one reached, and none stands still. */
  ghost predicate Chained(h: seq<HistoryEntry>) {
    && |h| > 0 && h[0].from == None
    && forall i :: 0 < i < |h| ==> h[i].from == Some(h[i - 1].to) && h[i].to != h[i - 1].to
  }

  ghost predicate LogOf(h: seq<HistoryEntry>, st: BookingStatus) {
    Chained(h) && h[|h| - 1].to == st
  }

  ghost predicate Faithful(s: State) {
    && s.history.Keys == s.bookings.Keys
    && forall b :: b in s.bookings ==> LogOf(s.history[b], s.bookings[b].status)
  }

  /** The log changes with the status and not otherwise, by one entry that names both. */
  ghost predicate RowLogs(h: seq<HistoryEntry>, from: BookingStatus, h': seq<HistoryEntry>, to: BookingStatus) {
    if from == to then h' == h
    else |h'| == |h| + 1 && h' == h + [HistoryEntry(Some(from), to, h'[|h|].cause)]
  }

  ghost predicate FirstLog(h: seq<HistoryEntry>, st: BookingStatus) {
    h == [HistoryEntry(None, st, Service)]
  }

  ghost predicate Logs(s: State, t: State) {
    && t.history.Keys == t.bookings.Keys
    && s.bookings.Keys <= t.bookings.Keys
    && (forall b :: b in s.bookings && b in s.history ==>
          RowLogs(s.history[b], s.bookings[b].status, t.history[b], t.bookings[b].status))
    && (forall b :: b in t.bookings && b !in s.bookings ==> FirstLog(t.history[b], t.bookings[b].status))
  }

  lemma RowKeepsLog(h: seq<HistoryEntry>, from: BookingStatus, h': seq<HistoryEntry>, to: BookingStatus)
    requires LogOf(h, from) && RowLogs(h, from, h', to)
    ensures LogOf(h', to)
  {}

  lemma LogsKeepFaithful(s: State, t: State)
    requires Faithful(s) && Logs(s, t)
    ensures Faithful(t)
  {
    forall b | b in t.bookings ensures LogOf(t.history[b], t.bookings[b].status) {
      if b in s.bookings {
        RowKeepsLog(s.history[b], s.bookings[b].status, t.history[b], t.bookings[b].status);
      }
    }
  }

  lemma StatusRowLogs(h: seq<HistoryEntry>, from: BookingStatus, to: BookingStatus, cause: Cause)
    ensures RowLogs(h, from, h, from)
    ensures from != to ==> RowLogs(h, from, h + [HistoryEntry(Some(from), to, cause)], to)
  {}

  /** A row changes without its status. */
  lemma ReplaceLogs(s: State, t: State)
    requires Faithful(s) && t.history == s.history && t.bookings.Keys == s.bookings.Keys
    requires forall b :: b in s.bookings ==> t.bookings[b].status == s.bookings[b].status
    ensures Logs(s, t)
  {}

  /** One row takes a new status and logs it. */
  lemma StatusLogs(s: State, t: State, id: Id, b: Booking, cause: Cause)
    requires Faithful(s) && id in s.bookings && b.status != s.bookings[id].status
    requires t.bookings == s.bookings[id := b]
    requires t.history == Logged(s.bookings, s.history, id, b.status, cause)
    ensures Logs(s, t)
  {
    StatusRowLogs(s.history[id], s.bookings[id].status, b.status, cause);
  }

  lemma InsertLogs(s: State, t: State, id: Id, b: Booking)
    requires Faithful(s) && id !in s.bookings
    requires t.bookings == s.bookings[id := b] && t.history == FirstEntry(s.history, id, b)
    ensures Logs(s, t)
  {}

  lemma CancelLogs(s: State, id: Id)
    requires Faithful(s)
    ensures Logs(s, CancelBooking(s, id).state)
  {
    var r := CancelBooking(s, id);
    if r.outcome == Done {
      StatusLogs(s, r.state, id, r.state.bookings[id], Service);
    } else {
      ReplaceLogs(s, r.state);
    }
  }

  lemma UpdateRowsLogs(s: State, id: Id, dto: FlexChange, r: Id)
    requires Faithful(s) && id in s.flex && r in s.bookings
    ensures Logs(s, UpdateRows(s, id, dto, r))
    ensures IsCancellation(dto) ==> UpdateRows(s, id, dto, r).history == s.history
    ensures IsCancellation(dto) ==> UpdateRows(s, id, dto, r).bookings[r].status == s.bookings[r].status
  {
    var t := UpdateRows(s, id, dto, r);
    var to := t.bookings[r].status;
    if to == s.bookings[r].status {
      assert t.history == s.history;
      ReplaceLogs(s, t);
    } else {
      assert t.history == Logged(s.bookings, s.history, r, to, Service);
      StatusLogs(s, t, r, t.bookings[r], Service);
    }
  }

  lemma UpdateFlexLogs(s: State, id: Id, dto: FlexChange)
    requires Faithful(s)
    ensures Logs(s, UpdateFlex(s, id, dto).state)
  {
    var t := UpdateFlex(s, id, dto).state;
    if t.bookings == s.bookings && t.history == s.history {
      ReplaceLogs(s, t);
    } else {
      var r := s.registryOf[id];
      var s1 := UpdateRows(s, id, dto, r);
      UpdateRowsLogs(s, id, dto, r);
      if t != s1 {
        CancellationLogs(s, s1, r);
      }
    }
  }

  /** A cancellation after an update that moved no status. */
  lemma CancellationLogs(s: State, s1: State, r: Id)
    requires Faithful(s) && Logs(s, s1) && s1.history == s.history && s1.bookings.Keys == s.bookings.Keys
    ensures Logs(s, CancelBooking(s1, r).state)
  {
    LogsKeepFaithful(s, s1);
    CancelLogs(s1, r);
    var t := CancelBooking(s1, r).state;
    forall b | b in s.bookings
      ensures RowLogs(s.history[b], s.bookings[b].status, t.history[b], t.bookings[b].status)
    {
      assert RowLogs(s.history[b], s.bookings[b].status, s1.history[b], s1.bookings[b].status);
    }
  }

  /** A deletion moves no status, or cancels the registry row and logs that. */
  ghost predicate OnlyCancelled(s: State, t: State, r: Id) {
    && r in s.bookings && !s.bookings[r].status.Cancelled?
    && t.history == Logged(s.bookings, s.history, r, BookingStatus.Cancelled, Service)
    && t.bookings == s.bookings[r := s.bookings[r].(status := BookingStatus.Cancelled, deleted := true)]
  }

  ghost predicate NothingMoved(s: State, t: State) {
    && t.history == s.history && t.bookings.Keys == s.bookings.Keys
    && forall b :: b in s.bookings ==> t.bookings[b].status == s.bookings[b].status
  }

  lemma DeletedRows(s: State, id: Id)
    ensures var t := DeleteFlex(s, id).state;
      NothingMoved(s, t) || (id in s.registryOf && OnlyCancelled(s, t, s.registryOf[id]))
  {
    hide Logged, DeleteFlexRow, CancelFlexRow, CancelCommission;
    if id !in s.flex || s.flex[id].deleted {
    } else if id !in s.registryOf || s.registryOf[id] !in s.bookings {
    } else if s.bookings[s.registryOf[id]].status.Cancelled? {
    } else if CancelBooking(s, s.registryOf[id]).outcome != Done {
    } else {
      assert OnlyCancelled(s, DeleteFlex(s, id).state, s.registryOf[id]);
    }
  }

  lemma DeleteFlexLogs(s: State, id: Id)
    requires Faithful(s)
    ensures Logs(s, DeleteFlex(s, id).state)
  {
    hide Faithful, DeleteFlex, Logged, Logs;
    var t := DeleteFlex(s, id).state;
    DeletedRows(s, id);
    if NothingMoved(s, t) {
      ReplaceLogs(s, t);
    } else {
      var r := s.registryOf[id];
      StatusLogs(s, t, r, s.bookings[r].(status := BookingStatus.Cancelled, deleted := true), Service);
    }
  }

  lemma ConfirmFromPaymentLogs(s: State, id: Id, mpPaymentId: Id)
    requires Faithful(s)
    ensures Logs(s, ConfirmFromPayment(s, id, mpPaymentId).state)
  {
    var t := ConfirmFromPayment(s, id, mpPaymentId).state;
    if t.bookings == s.bookings && t.history == s.history {
      ReplaceLogs(s, t);
    } else {
      var r := s.registryOf[id];
      StatusLogs(s, t, r, t.bookings[r], PaymentApproved(mpPaymentId));
    }
  }

  lemma ConfirmLogs(s: State, id: Id)
    requires Faithful(s)
    ensures Logs(s, ConfirmBooking(s, id).state)
  {
    hide Faithful;
    var r := ConfirmBooking(s, id);
    if r.outcome == Done {
      StatusLogs(s, r.state, id, r.state.bookings[id], Service);
    } else {
      ReplaceLogs(s, r.state);
    }
  }

  lemma CompleteLogs(s: State, id: Id)
    requires Faithful(s)
    ensures Logs(s, CompleteBooking(s, id).state)
  {
    hide Faithful;
    var r := CompleteBooking(s, id);
    if r.outcome == Done {
      StatusLogs(s, r.state, id, r.state.bookings[id], Service);
    } else {
      ReplaceLogs(s, r.state);
    }
  }

  lemma RedatedRows(s: State, id: Id, checkIn: Option<Day>, checkOut: Option<Day>)
    ensures NothingMoved(s, UpdateBooking(s, id, checkIn, checkOut).state)
  {
    if UpdateBooking(s, id, checkIn, checkOut).outcome != Done {
    } else {
    }
  }

  lemma UpdateBookingLogs(s: State, id: Id, checkIn: Option<Day>, checkOut: Option<Day>)
    requires Faithful(s)
    ensures Logs(s, UpdateBooking(s, id, checkIn, checkOut).state)
  {
    hide Faithful, Logs, UpdateBooking;
    RedatedRows(s, id, checkIn, checkOut);
    ReplaceLogs(s, UpdateBooking(s, id, checkIn, checkOut).state);
  }

  lemma CreateFlexLogs(s: State, step: Step)
    requires Faithful(s) && step.CreateFlexStep?
    ensures Logs(s, Next(s, step))
  {
    var t := Next(s, step);
    if t == s {
      ReplaceLogs(s, t);
    } else {
      InsertLogs(s, t, step.bookingId, t.bookings[step.bookingId]);
    }
  }

  /** Nothing is inserted, or one booking with its first entry. */
  ghost predicate OnlyInserts(s: State, t: State, id: Id) {
    || NothingMoved(s, t)
    || (id !in s.bookings && id in t.bookings && t.bookings == s.bookings[id := t.bookings[id]]
        && t.history == FirstEntry(s.history, id, t.bookings[id]))
  }

  lemma CreateBookingInserts(s: State, id: Id, dto: NewBooking)
    ensures OnlyInserts(s, CreateBooking(s, id, dto).state, id)
  {
    hide FirstEntry;
    if CreateBooking(s, id, dto).outcome != Done {
    } else {
    }
  }

  lemma CloudbedsInserts(s: State, id: Id, dto: CloudbedsStay)
    ensures OnlyInserts(s, ConfirmFromCloudbeds(s, id, dto).state, id)
  {
    hide FirstEntry, Registered;
    if ConfirmFromCloudbeds(s, id, dto).outcome != Done || Registered(s, dto.reservationId) {
    } else {
    }
  }

  lemma AmbassadorInserts(s: State, id: Id, sessionId: Id, dto: TrackedStay)
    ensures OnlyInserts(s, AmbassadorReservation(s, id, sessionId, dto).state, id)
  {
    hide FirstEntry, Registered;
    if sessionId !in s.sessions || Reported(s, sessionId, dto.reservationId) {
    } else {
    }
  }

  lemma InsertedLogs(s: State, t: State, id: Id)
    requires Faithful(s) && OnlyInserts(s, t, id)
    ensures Logs(s, t)
  {
    hide Faithful, Logs, FirstEntry;
    if NothingMoved(s, t) {
      ReplaceLogs(s, t);
    } else {
      InsertLogs(s, t, id, t.bookings[id]);
    }
  }

  lemma CreationLogs(s: State, step: Step)
    requires Faithful(s)
    requires step.CreateBookingStep? || step.ConfirmFromCloudbedsStep? || step.AmbassadorReservationStep?
    ensures Logs(s, Next(s, step))
  {
    hide Faithful, Logs, OnlyInserts, CreateBooking, ConfirmFromCloudbeds, AmbassadorReservation;
    match step {
      case CreateBookingStep(id, dto) => CreateBookingInserts(s, id, dto);
      case ConfirmFromCloudbedsStep(id, dto) => CloudbedsInserts(s, id, dto);
      case AmbassadorReservationStep(id, sessionId, dto) => AmbassadorInserts(s, id, sessionId, dto);
    }
    InsertedLogs(s, Next(s, step), step.id);
  }

  lemma QuietLogs(s: State, step: Step)
    requires Faithful(s)
    requires IsRateStep(step) || IsSettlementStep(step) || IsPaymentStep(step) || step.StartSessionStep?
    ensures Logs(s, Next(s, step))
  {
    var t := Next(s, step);
    if step.StartSessionStep? {
      SessionStepEffect(s, step);
      ReplaceLogs(s, t);
    } else if IsRateStep(step) {
      RateStepEffect(s, step);
      ReplaceLogs(s, t);
    } else if IsSettlementStep(step) {
      SettlementStepEffect(s, step);
      ReplaceLogs(s, t);
    } else if step.CreateCheckoutStep? {
      CheckoutEffect(s, step);
      ReplaceLogs(s, t);
    } else {
      NoticeEffect(s, step.row, step.notice);
      if Confirms(s, step.row, step.notice) {
        ConfirmFromPaymentLogs(s, step.notice.reference.value, step.notice.paymentId);
      } else {
        ReplaceLogs(s, t);
      }
    }
  }

  /** Every step, of whatever service, logs exactly the status changes it makes. */
  lemma StepLogs(s: State, step: Step)
    requires Faithful(s)
    ensures Logs(s, Next(s, step))
    ensures Faithful(Next(s, step))
  {
    hide Faithful, Logs;
    assert Logs(s, Next(s, step)) by {
      match step {
        case UpdateFlexStep(id, dto) => UpdateFlexLogs(s, id, dto);
        case DeleteFlexStep(id) => DeleteFlexLogs(s, id);
        case CancelBookingStep(id) => CancelLogs(s, id);
        case ConfirmBookingStep(id) => ConfirmLogs(s, id);
        case CompleteBookingStep(id) => CompleteLogs(s, id);
        case UpdateBookingStep(id, checkIn, checkOut) => UpdateBookingLogs(s, id, checkIn, checkOut);
        case CreateFlexStep(_, _, _, _) => CreateFlexLogs(s, step);
        case CreateBookingStep(_, _) => CreationLogs(s, step);
        case ConfirmFromCloudbedsStep(_, _) => CreationLogs(s, step);
        case AmbassadorReservationStep(_, _, _) => CreationLogs(s, step);
        case _ => QuietLogs(s, step);
      }
    }
    LogsKeepFaithful(s, Next(s, step));
  }

  /** In every reachable state the entries of every booking chain up to its current status. */
  lemma {:induction false} HistoryIsFaithful(s: State, steps: seq<Step>)
    requires Faithful(s)
    ensures Faithful(Run(s, steps))
    decreases |steps|
  {
    if steps != [] {
      StepLogs(s, steps[0]);
      HistoryIsFaithful(Next(s, steps[0]), steps[1..]);
    }
  }

  /** Along a run the log of a booking only grows. */
  lemma {:induction false} HistoryOnlyGrows(s: State, steps: seq<Step>, b: Id)
    requires Faithful(s) && b in s.bookings
    ensures b in Run(s, steps).history
    ensures |s.history[b]| <= |Run(s, steps).history[b]|
    ensures Run(s, steps).history[b][..|s.history[b]|] == s.history[b]
    decreases |steps|
  {
    hide Next;
    if steps != [] {
      var t := Next(s, steps[0]);
      StepLogs(s, steps[0]);
      assert RowLogs(s.history[b], s.bookings[b].status, t.history[b], t.bookings[b].status);
      HistoryOnlyGrows(t, steps[1..], b);
      assert Run(s, steps).history[b][..|s.history[b]|] == Run(s, steps).history[b][..|t.history[b]|][..|s.history[b]|];
    }
  }
}
