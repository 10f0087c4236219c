/** Every service call as one atomic step, and runs of steps. */
module Steps {
  import opened Common
  import opened Tables
  import opened Rates
  import opened Bookings
  import opened Settlements
  import opened Payments

  datatype Step =
    | SetFlexPropertyRateStep(p: Id, rate: Option<Rate>)
    | DeleteFlexPropertyStep(p: Id)
    | UpsertFlexOverrideStep(p: Id, a: Id, newRate: Rate)
    | DeleteFlexOverrideStep(p: Id, a: Id)
    | SetPropertyRateStep(p: Id, rate: Option<Rate>)
    | DeletePropertyStep(p: Id)
    | UpsertPropertyOverrideStep(p: Id, a: Id, newRate: Rate)
    | DeletePropertyOverrideStep(p: Id, a: Id)
    | SetDefaultRateStep(a: Id, rate: Option<Rate>)
    | RecalculateAllStep
    | CreateFlexStep(id: Id, bookingId: Id, newFlex: NewFlex, quote: Option<FlexQuote>)
    | UpdateFlexStep(id: Id, change: FlexChange)
    | DeleteFlexStep(id: Id)
    | CreateBookingStep(id: Id, newBooking: NewBooking)
    | ConfirmBookingStep(id: Id)
    | CancelBookingStep(id: Id)
    | CompleteBookingStep(id: Id)
    | UpdateBookingStep(id: Id, checkIn: Option<Day>, checkOut: Option<Day>)
    | ConfirmFromCloudbedsStep(id: Id, stay: CloudbedsStay)
    | StartSessionStep(sessionId: Id, profileId: Id)
    | AmbassadorReservationStep(id: Id, sessionId: Id, tracked: TrackedStay)
    | ApproveCommissionStep(id: Id)
    | CreateSettlementsStep(filter: set<Id>, uuid: Id -> Id)
    | MarkPaidStep(id: Id)
    | CancelDraftStep(id: Id)
    | CreateCheckoutStep(id: Id, row: Id, now: int, cutoff: int, providerUp: bool)
    | NoticeStep(row: Id, notice: Notice)

  ghost function Apply(s: State, step: Step): Reply {
    match step
    case SetFlexPropertyRateStep(p, rate) => SetFlexPropertyRate(s, p, rate)
    case DeleteFlexPropertyStep(p) => DeleteFlexProperty(s, p)
    case UpsertFlexOverrideStep(p, a, rate) => UpsertFlexOverride(s, p, a, rate)
    case DeleteFlexOverrideStep(p, a) => DeleteFlexOverride(s, p, a)
    case SetPropertyRateStep(p, rate) => SetPropertyRate(s, p, rate)
    case DeletePropertyStep(p) => DeleteProperty(s, p)
    case UpsertPropertyOverrideStep(p, a, rate) => UpsertPropertyOverride(s, p, a, rate)
    case DeletePropertyOverrideStep(p, a) => DeletePropertyOverride(s, p, a)
    case SetDefaultRateStep(a, rate) => SetDefaultRate(s, a, rate)
    case RecalculateAllStep => Reply(Recalculate(s, EveryBooking), Done)
    case CreateFlexStep(id, bookingId, dto, quote) => CreateFlex(s, id, bookingId, dto, quote)
    case UpdateFlexStep(id, dto) => UpdateFlex(s, id, dto)
    case DeleteFlexStep(id) => DeleteFlex(s, id)
    case CreateBookingStep(id, dto) => CreateBooking(s, id, dto)
    case ConfirmBookingStep(id) => ConfirmBooking(s, id)
    case CancelBookingStep(id) => CancelBooking(s, id)
    case CompleteBookingStep(id) => CompleteBooking(s, id)
    case UpdateBookingStep(id, checkIn, checkOut) => UpdateBooking(s, id, checkIn, checkOut)
    case ConfirmFromCloudbedsStep(id, dto) => ConfirmFromCloudbeds(s, id, dto)
    case StartSessionStep(sessionId, a) => StartSession(s, sessionId, a)
    case AmbassadorReservationStep(id, sessionId, dto) => AmbassadorReservation(s, id, sessionId, dto)
    case ApproveCommissionStep(id) => ApproveCommission(s, id)
    case CreateSettlementsStep(filter, uuid) => CreateSettlements(s, filter, uuid)
    case MarkPaidStep(id) => MarkPaid(s, id)
    case CancelDraftStep(id) => CancelDraft(s, id)
    case CreateCheckoutStep(id, row, now, cutoff, up) => CreateCheckout(s, id, row, now, cutoff, up)
    case NoticeStep(row, n) => ProcessNotice(s, row, n)
  }

  ghost function Next(s: State, step: Step): State {
    Apply(s, step).state
  }

  /** The state after a run; a call that throws still leaves whatever it had committed. */
  ghost function Run(s: State, steps: seq<Step>): State
    decreases |steps|
  {
    if steps == [] then s else Run(Next(s, steps[0]), steps[1..])
  }

  lemma RunOne(s: State, step: Step)
    ensures Run(s, [step]) == Next(s, step)
  {
    hide Next;
    assert [step][1..] == [];
  }

  lemma {:induction false} RunThen(s: State, steps: seq<Step>, last: Step)
    ensures Run(s, steps + [last]) == Next(Run(s, steps), last)
    decreases |steps|
  {
    hide Next;
    if steps == [] {
      RunOne(s, last);
      assert steps + [last] == [last];
    } else {
      assert (steps + [last])[1..] == steps[1..] + [last];
      RunThen(Next(s, steps[0]), steps[1..], last);
    }
  }

  lemma RunThree(s: State, a: Step, b: Step, c: Step)
    ensures Run(s, [a, b, c]) == Next(Next(Next(s, a), b), c)
  {
    hide Next, Run;
    RunOne(s, a);
    RunThen(s, [a], b);
    RunThen(s, [a, b], c);
    assert [a] + [b] == [a, b] && [a, b] + [c] == [a, b, c];
  }

  /** No bookings yet; any catalogue of properties, ambassadors and rates. */
  ghost predicate Initial(s: State) {
    && s.flex == map[] && s.bookings == map[] && s.registryOf == map[] && s.history == map[]
    && s.commissions == map[] && s.settlements == map[] && s.payments == map[] && s.sessions == map[]
  }
}
