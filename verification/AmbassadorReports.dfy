/** The same Cloudbeds reservation may be reported more than once from an ambassador's session. */
module AmbassadorReports {
  import opened Common
  import opened Tables
  import opened Rates
  import opened Bookings
  import opened Steps
  import opened Effects
  import opened Registry
  import opened Lifecycle

  /** A report of this reservation from this session would be taken for a repetition. */
  predicate Known(s: State, sessionId: Id, reservationId: Option<Id>) {
    sessionId in s.sessions && Reported(s, sessionId, reservationId)
  }

  /** A report for a session of a known ambassador, with a fresh identifier, changes nothing exactly when it is a
      repetition; then it answers like the first. */
  lemma OnlyRepetitionsAreIgnored(s: State, id: Id, sessionId: Id, dto: TrackedStay)
    requires sessionId in s.sessions && s.sessions[sessionId].profileId in s.catalog.profiles && id !in s.bookings
    ensures var r := AmbassadorReservation(s, id, sessionId, dto);
      r.outcome == Done && (r.state == s <==> Known(s, sessionId, dto.reservationId))
  {
    var t := AmbassadorReservation(s, id, sessionId, dto).state;
    assert !Known(s, sessionId, dto.reservationId) ==> id in t.bookings;
  }

  lemma ReportIsKnown(s: State, id: Id, sessionId: Id, dto: TrackedStay)
    requires sessionId in s.sessions && AmbassadorReservation(s, id, sessionId, dto).outcome == Done
    ensures Known(AmbassadorReservation(s, id, sessionId, dto).state, sessionId, dto.reservationId)
  {
    var t := AmbassadorReservation(s, id, sessionId, dto).state;
    if t != s {
      assert t.bookings[id].cloudbedsReservationId == dto.reservationId;
    }
  }

  lemma StaysRegistered(s: State, step: Step, reservationId: Option<Id>)
    requires Linked(s) && Registered(s, reservationId)
    ensures Registered(Next(s, step), reservationId)
  {
    var b :| b in s.bookings && s.bookings[b].cloudbedsReservationId == reservationId;
    var t := Next(s, step);
    assert b in t.bookings && t.bookings[b].cloudbedsReservationId == reservationId by {
      hide Next, Linked;
      if step.StartSessionStep? {
        SessionStepEffect(s, step);
      } else if IsCreation(step) {
        CreationMovesNothing(s, step, b);
      } else {
        StepLinks(s, step);
        assert SameOwner(s.bookings[b], t.bookings[b]);
      }
    }
  }

  // ---------------------------------------------------------------- sessions

  /** The session is confirmed with a booking. */
  predicate Used(s: State, sessionId: Id) {
    sessionId in s.sessions && s.sessions[sessionId].confirmed && s.sessions[sessionId].bookingId.Some?
  }

  /** The step starts the session again. */
  predicate Restarts(step: Step, sessionId: Id) {
    step.StartSessionStep? && step.sessionId == sessionId
  }

  lemma ReportKeepsSessions(s: State, id: Id, reporting: Id, dto: TrackedStay, sessionId: Id)
    ensures var t := AmbassadorReservation(s, id, reporting, dto).state;
      (sessionId in s.sessions ==> sessionId in t.sessions) && (Used(s, sessionId) ==> Used(t, sessionId))
  {
    hide Registered, ResolveTemporalRate;
  }

  lemma StartKeepsSessions(s: State, starting: Id, profileId: Id, sessionId: Id)
    ensures var t := StartSession(s, starting, profileId).state;
      && (sessionId in s.sessions ==> sessionId in t.sessions)
      && (Used(s, sessionId) ==> (Used(t, sessionId) <==> starting != sessionId))
  {}

  lemma CreateFlexKeepsSessions(s: State, id: Id, bookingId: Id, dto: NewFlex, quote: Option<FlexQuote>)
    ensures CreateFlex(s, id, bookingId, dto, quote).state.sessions == s.sessions
  {
    hide Conflict, ResolveFlexRate;
  }

  lemma RegistryKeepsSessions(s: State, id: Id, dto: NewBooking, stay: CloudbedsStay)
    ensures CreateBooking(s, id, dto).state.sessions == s.sessions
    ensures ConfirmFromCloudbeds(s, id, stay).state.sessions == s.sessions
  {
    hide Registered, ResolveTemporalRate;
  }

  lemma SessionsStand(s: State, step: Step)
    requires Linked(s) && !step.StartSessionStep? && !step.AmbassadorReservationStep?
    ensures Next(s, step).sessions == s.sessions
  {
    if IsCreation(step) {
      hide CreateFlex, CreateBooking, ConfirmFromCloudbeds;
      match step
      case CreateFlexStep(id, bookingId, dto, quote) => CreateFlexKeepsSessions(s, id, bookingId, dto, quote);
      case CreateBookingStep(id, dto) => RegistryKeepsSessions(s, id, dto, CloudbedsStay(None, None, None, None, 0));
      case ConfirmFromCloudbedsStep(id, dto) => RegistryKeepsSessions(s, id, NewBooking(None, 0, 0, 0, 0), dto);
    } else {
      hide Next;
      StepLinks(s, step);
    }
  }

  /** A start or a report. */
  lemma SessionStepKeepsUsed(s: State, step: Step, sessionId: Id)
    requires (step.StartSessionStep? || step.AmbassadorReservationStep?) && sessionId in s.sessions
    ensures sessionId in Next(s, step).sessions
    ensures Used(s, sessionId) ==> (Used(Next(s, step), sessionId) <==> !Restarts(step, sessionId))
  {
    hide AmbassadorReservation, StartSession, Used;
    if step.StartSessionStep? {
      StartKeepsSessions(s, step.sessionId, step.profileId, sessionId);
    } else {
      ReportKeepsSessions(s, step.id, step.sessionId, step.tracked, sessionId);
    }
  }

  /** Of all calls only a restart takes the booking of a session out of mind. */
  lemma SessionStaysUsed(s: State, step: Step, sessionId: Id)
    requires Linked(s) && sessionId in s.sessions
    ensures sessionId in Next(s, step).sessions
    ensures Used(s, sessionId) ==> (Used(Next(s, step), sessionId) <==> !Restarts(step, sessionId))
  {
    hide Linked, Used, Next;
    if step.StartSessionStep? || step.AmbassadorReservationStep? {
      SessionStepKeepsUsed(s, step, sessionId);
    } else {
      SessionsStand(s, step);
      UsedBySessions(s, Next(s, step), sessionId);
    }
  }

  lemma UsedBySessions(s: State, t: State, sessionId: Id)
    requires t.sessions == s.sessions
    ensures Used(t, sessionId) <==> Used(s, sessionId)
  {}

  // ---------------------------------------------------------------- every run

  /** Of all calls only a restart of the session makes a report forgotten, and only one that names no reservation. */
  lemma StaysKnown(s: State, step: Step, sessionId: Id, reservationId: Option<Id>)
    requires Linked(s) && Known(s, sessionId, reservationId)
    ensures Known(Next(s, step), sessionId, reservationId) <==> reservationId.Some? || !Restarts(step, sessionId)
  {
    hide Linked, Registered, Next;
    SessionStaysUsed(s, step, sessionId);
    if reservationId.Some? {
      StaysRegistered(s, step, reservationId);
    }
  }

  lemma {:induction false} RunKeepsKnown(s: State, steps: seq<Step>, sessionId: Id, reservationId: Option<Id>)
    requires Linked(s) && Known(s, sessionId, reservationId)
    requires reservationId.Some? || forall i :: 0 <= i < |steps| ==> !Restarts(steps[i], sessionId)
    ensures Known(Run(s, steps), sessionId, reservationId)
    decreases |steps|
  {
    hide Known, Next, Linked;
    if steps != [] {
      LinkedStep(s, steps[0]);
      StaysKnown(s, steps[0], sessionId, reservationId);
      RunKeepsKnown(Next(s, steps[0]), steps[1..], sessionId, reservationId);
    }
  }

  /** A report is acted on once: whatever happens in between, and whatever else it says, repeating it changes nothing,
      as long as its session is not started again or it names its reservation. */
  lemma ReportActsOnce(s: State, id: Id, sessionId: Id, dto: TrackedStay, steps: seq<Step>, id': Id, dto': TrackedStay)
    requires Linked(s) && sessionId in s.sessions && AmbassadorReservation(s, id, sessionId, dto).outcome == Done
    requires dto'.reservationId == dto.reservationId
    requires dto.reservationId.Some? || forall i :: 0 <= i < |steps| ==> !Restarts(steps[i], sessionId)
    ensures var t := Run(s, [AmbassadorReservationStep(id, sessionId, dto)] + steps);
      AmbassadorReservation(t, id', sessionId, dto') == Reply(t, Done)
  {
    var first := AmbassadorReservationStep(id, sessionId, dto);
    var t := Next(s, first);
    ReportIsKnown(s, id, sessionId, dto);
    LinkedStep(s, first);
    hide Known, Linked, AmbassadorReservation;
    RunKeepsKnown(t, steps, sessionId, dto.reservationId);
    assert ([first] + steps)[1..] == steps;
    KnownIsIgnored(Run(t, steps), id', sessionId, dto');
  }

  lemma KnownIsIgnored(s: State, id: Id, sessionId: Id, dto: TrackedStay)
    requires Known(s, sessionId, dto.reservationId)
    ensures AmbassadorReservation(s, id, sessionId, dto) == Reply(s, Done)
  {}
}
