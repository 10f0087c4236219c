/** Runs from an empty book after which a payout and a cancellation disagree, or a pending commission is stale. */
module PayoutCounterexamples {
  import opened Common
  import opened Tables
  import opened Rates
  import opened Bookings
  import opened Settlements
  import opened Steps
  import opened Freshness
  import opened PayoutTheorems
  import opened ApprovalTerms

  /** One temporal property at 10 %, and ambassador 5 with a default of 5 %. */
  function Shop(): State {
    State(Catalog(map[], map[1 := RentalProperty(Some(1000), false)], map[5 := 500], map[], map[]),
          map[], map[], map[], map[], map[], map[], map[], map[])
  }

  const PRICE: Cents := 10000
  const COMMISSION: Cents := 1000

  /** Ambassador 5 sells three nights through Cloudbeds. */
  function Sell(): Step {
    ConfirmFromCloudbedsStep(1, CloudbedsStay(Some(1), None, Some(5), Some((0, 3)), PRICE))
  }

  /** Drafts for everybody; the only one made gets the identifier 7. */
  function Settle(): Step {
    CreateSettlementsStep({}, p => 7)
  }

  const SOLD := HistoryEntry(None, BookingStatus.Confirmed, Service)
  const CALLED_OFF := HistoryEntry(Some(BookingStatus.Confirmed), BookingStatus.Cancelled, Service)

  /** The shop with that stay, its commission and perhaps a settlement. */
  function WithStay(log: seq<HistoryEntry>, sid: Option<Id>, status: CommissionStatus,
                    settlements: map<Id, Settlement>): State
    requires log != []
  {
    Shop().(bookings := map[1 := Booking(Cloudbeds, Some(1), None, None, None, Some(5), 0, 3, 3, PRICE, PRICE,
                                         log[|log| - 1].to, false)],
            history := map[1 := log],
            commissions := map[1 := Commission(Some(5), sid, 1000, PRICE, COMMISSION, status)],
            settlements := settlements)
  }

  function Draft(status: SettlementStatus): map<Id, Settlement> {
    map[7 := Settlement(5, COMMISSION, status)]
  }

  function Pending(): State { WithStay([SOLD], None, CommissionStatus.Pending, map[]) }

  function Approved(): State { WithStay([SOLD], None, CommissionStatus.Approved, map[]) }

  function Drafted(): State { WithStay([SOLD], Some(7), CommissionStatus.Approved, Draft(SettlementStatus.Draft)) }

  function CalledOff(status: CommissionStatus, settlement: SettlementStatus): State {
    WithStay([SOLD, CALLED_OFF], Some(7), status, Draft(settlement))
  }

  lemma Selling()
    ensures ConfirmFromCloudbeds(Shop(), 1, CloudbedsStay(Some(1), None, Some(5), Some((0, 3)), PRICE)).state
         == Pending()
  {
    assert CommissionAmount(PRICE, 1000) == COMMISSION;
  }

  lemma Approving()
    ensures ApproveCommission(Pending(), 1).state == Approved()
  {}

  lemma OneGroup()
    ensures Eligible(Approved(), {}) == {1}
    ensures Groups(Approved(), {1}) == map[5 := PreviewGroup({1}, COMMISSION)]
  {
    var s := Approved();
    assert OwnedBy(s, {1}, 5) == {1} && ProfilesOf(s, {1}) == {5} by {
      assert s.commissions[1].profileId == Some(5);
    }
    var amounts := Amounts(s, {1});
    SumRemove(amounts, 1);
    SumEmpty(amounts - {1});
  }

  lemma OneDraft(groups: map<Id, PreviewGroup>)
    requires groups == map[5 := PreviewGroup({1}, COMMISSION)]
    ensures NewDrafts(groups, p => 7) == Draft(SettlementStatus.Draft)
  {
    var uuid: Id -> Id := p => 7;
    assert uuid(5) in Image(groups.Keys, uuid);
    assert forall sid :: sid in NewDrafts(groups, uuid) ==> sid == 7;
  }

  lemma OneAttached()
    ensures ProfilesOf(Approved(), {1}) == {5}
    ensures Attach(Approved().commissions, {1}, p => 7) == Drafted().commissions
  {
    assert Approved().commissions[1].profileId == Some(5);
  }

  lemma Settling()
    ensures CreateSettlements(Approved(), {}, p => 7) == Reply(Drafted(), Done)
  {
    OneGroup();
    OneDraft(Groups(Approved(), {1}));
    OneAttached();
    hide Groups, NewDrafts, Eligible, ProfilesOf, Attach;
  }

  lemma Paying(log: seq<HistoryEntry>, status: CommissionStatus)
    requires log != []
    ensures MarkPaid(WithStay(log, Some(7), status, Draft(SettlementStatus.Draft)), 7)
         == Reply(WithStay(log, Some(7), CommissionStatus.Paid, Draft(SettlementStatus.Paid)), Done)
  {}

  lemma CallingOff(status: CommissionStatus, settlement: SettlementStatus)
    ensures CancelBooking(WithStay([SOLD], Some(7), status, Draft(settlement)), 1)
         == Reply(CalledOff(CommissionStatus.Cancelled, settlement), Done)
  {
    assert [SOLD] + [CALLED_OFF] == [SOLD, CALLED_OFF];
    var s := WithStay([SOLD], Some(7), status, Draft(settlement));
    assert Logged(s.bookings, s.history, 1, BookingStatus.Cancelled, Service) == map[1 := [SOLD, CALLED_OFF]];
  }

  lemma SettledRun()
    ensures Run(Shop(), [Sell(), ApproveCommissionStep(1), Settle()]) == Drafted()
  {
    Selling();
    Approving();
    Settling();
    hide Run, Drafted, Approved, Pending, ConfirmFromCloudbeds, ApproveCommission, CreateSettlements, Shop;
    RunThree(Shop(), Sell(), ApproveCommissionStep(1), Settle());
  }

  lemma PaidInFullStay(log: seq<HistoryEntry>, status: CommissionStatus)
    requires log != []
    ensures PaidInFull(WithStay(log, Some(7), status, Draft(SettlementStatus.Paid))) <==> status.Paid?
  {
    assert PaidIn(WithStay(log, Some(7), status, Draft(SettlementStatus.Paid)), 1);
  }

  lemma NothingPaidStay(log: seq<HistoryEntry>, status: CommissionStatus, settlement: SettlementStatus)
    requires log != []
    ensures NothingPaidForCancelled(WithStay(log, Some(7), status, Draft(settlement)))
       <==> !(status.Paid? && log[|log| - 1].to.Cancelled?)
  {
    var s := WithStay(log, Some(7), status, Draft(settlement));
    assert 1 in s.commissions && s.commissions[1].status == status;
  }

  /** A cancellation after the payout leaves a cancelled commission in a paid settlement. */
  lemma CancelledAfterPayment()
    ensures Initial(Shop())
    ensures var s := Run(Shop(), [Sell(), ApproveCommissionStep(1), Settle()] + [MarkPaidStep(7)]);
      PaidInFull(s) && Apply(s, CancelBookingStep(1)).outcome == Done && !PaidInFull(Next(s, CancelBookingStep(1)))
  {
    hide Run, MarkPaid, CancelBooking, PaidInFull, WithStay, Sell, Settle;
    SettledRun();
    RunThen(Shop(), [Sell(), ApproveCommissionStep(1), Settle()], MarkPaidStep(7));
    Paying([SOLD], CommissionStatus.Approved);
    CallingOff(CommissionStatus.Paid, SettlementStatus.Paid);
    PaidInFullStay([SOLD], CommissionStatus.Paid);
    PaidInFullStay([SOLD, CALLED_OFF], CommissionStatus.Cancelled);
  }

  /** A draft that is paid after one of its bookings was cancelled pays the commission of that booking. */
  lemma PaidAfterCancellation()
    ensures Initial(Shop())
    ensures var s := Run(Shop(), [Sell(), ApproveCommissionStep(1), Settle()] + [CancelBookingStep(1)]);
      && NothingPaidForCancelled(s) && Apply(s, MarkPaidStep(7)).outcome == Done
      && !NothingPaidForCancelled(Next(s, MarkPaidStep(7)))
  {
    hide Run, MarkPaid, CancelBooking, NothingPaidForCancelled, WithStay, Sell, Settle;
    SettledRun();
    RunThen(Shop(), [Sell(), ApproveCommissionStep(1), Settle()], CancelBookingStep(1));
    CallingOff(CommissionStatus.Approved, SettlementStatus.Draft);
    Paying([SOLD, CALLED_OFF], CommissionStatus.Cancelled);
    NothingPaidStay([SOLD, CALLED_OFF], CommissionStatus.Cancelled, SettlementStatus.Draft);
    NothingPaidStay([SOLD, CALLED_OFF], CommissionStatus.Paid, SettlementStatus.Paid);
  }

  lemma PendingIsFresh()
    ensures Fresh(Pending(), TemporalSide)
  {
    var s := Pending();
    assert CommissionAmount(PRICE, 1000) == COMMISSION;
    assert FreshRow(s.catalog, s.flex, s.bookings[1], s.commissions[1]);
  }

  lemma DeletionGoesStale()
    ensures var r := DeleteProperty(Pending(), 1); r.outcome == Done && !Fresh(r.state, TemporalSide)
  {
    var t := DeleteProperty(Pending(), 1).state;
    assert 1 in t.commissions && !FreshRow(t.catalog, t.flex, t.bookings[1], t.commissions[1]);
  }

  /** Deleting a temporal property changes the rate its pending commissions owe, and recalculates none of them: the
      commission of the stay would now be 5 %, the ambassador's default. */
  lemma DeletedPropertyGoesStale()
    ensures Initial(Shop())
    ensures var s := Run(Shop(), [Sell()]);
      && Fresh(s, TemporalSide) && Apply(s, DeletePropertyStep(1)).outcome == Done
      && !Fresh(Next(s, DeletePropertyStep(1)), TemporalSide)
  {
    Selling();
    hide Run, Fresh, ConfirmFromCloudbeds, DeleteProperty, Pending;
    RunOne(Shop(), Sell());
    PendingIsFresh();
    DeletionGoesStale();
  }

  // ---------------------------------------------------------------- reports from an ambassador's session

  /** Three nights, reported without a reservation number. */
  function Report(id: Id): Step {
    AmbassadorReservationStep(id, 3, TrackedStay(Some(1), None, 0, 3, PRICE))
  }

  const REPORTED := HistoryEntry(None, BookingStatus.Pending, Service)

  function ReportedStay(): Booking {
    Booking(Cloudbeds, Some(1), None, None, None, Some(5), 0, 3, 3, PRICE, PRICE, BookingStatus.Pending, false)
  }

  function Waiting(): Commission {
    Commission(Some(5), None, 1000, PRICE, COMMISSION, CommissionStatus.PendingValidation)
  }

  function Once(): State {
    Shop().(bookings := map[1 := ReportedStay()], history := map[1 := [REPORTED]], commissions := map[1 := Waiting()],
            sessions := map[3 := AmbassadorSession(5, true, Some(1))])
  }

  lemma Reporting()
    ensures StartSession(Shop(), 3, 5).state == Shop().(sessions := map[3 := AmbassadorSession(5, false, None)])
    ensures AmbassadorReservation(Shop().(sessions := map[3 := AmbassadorSession(5, false, None)]), 1, 3,
                                  Report(1).tracked).state == Once()
  {
    assert CommissionAmount(PRICE, 1000) == COMMISSION;
  }

  lemma RunReport()
    ensures Run(Shop(), [StartSessionStep(3, 5)] + [Report(1)]) == Once()
  {
    hide Run, StartSession, AmbassadorReservation, Once, Shop;
    Reporting();
    RunOne(Shop(), StartSessionStep(3, 5));
    RunThen(Shop(), [StartSessionStep(3, 5)], Report(1));
  }

  lemma Restarting()
    ensures StartSession(Once(), 3, 5).state == Once().(sessions := map[3 := AmbassadorSession(5, false, Some(1))])
    ensures AmbassadorReservation(Once().(sessions := map[3 := AmbassadorSession(5, false, Some(1))]), 2, 3,
                                  Report(2).tracked).state.bookings == map[1 := ReportedStay(), 2 := ReportedStay()]
  {
    hide CommissionAmount;
  }

  /** A report without a reservation number is repeated after its session was started again: the stay is booked
      twice. */
  lemma RestartedSessionReportsTwice()
    ensures Initial(Shop())
    ensures var s := Run(Shop(), ([StartSessionStep(3, 5)] + [Report(1)]) + [StartSessionStep(3, 5)]);
      && s.bookings == map[1 := ReportedStay()]
      && Next(s, Report(2)).bookings == map[1 := ReportedStay(), 2 := ReportedStay()]
  {
    hide Run, StartSession, AmbassadorReservation, ReportedStay;
    RunReport();
    RunThen(Shop(), [StartSessionStep(3, 5)] + [Report(1)], StartSessionStep(3, 5));
    Restarting();
  }

  /** The property goes to 20 % after the report. */
  function Raised(): State {
    Once().(catalog := Once().catalog.(properties := map[1 := RentalProperty(Some(2000), false)]))
  }

  lemma Raising()
    ensures SetPropertyRate(Once(), 1, Some(2000)).state == Raised()
  {
    var s := SetPropertyRate(Once(), 1, Some(2000)).state;
    assert s.commissions == Once().commissions;
    assert s.catalog.properties == map[1 := RentalProperty(Some(2000), false)];
  }

  lemma Releasing()
    ensures var r := ApproveCommission(Raised(), 1);
      && r.outcome == Done && 1 in r.state.commissions && r.state.commissions[1].status.Approved?
      && r.state.commissions[1].rate == 1000
      && ResolveTemporalRate(r.state.catalog, 1, Some(5)).rate == 2000 && !UpToDate(r.state, 1)
  {}

  /** The approval releases the reported stay at the old 10 %. */
  lemma ApprovalReleasesStaleTerms()
    ensures Initial(Shop())
    ensures var s := Run(Shop(), ([StartSessionStep(3, 5)] + [Report(1)]) + [SetPropertyRateStep(1, Some(2000))]);
      var r := Apply(s, ApproveCommissionStep(1));
      && r.outcome == Done && 1 in r.state.commissions && r.state.commissions[1].status.Approved?
      && r.state.commissions[1].rate == 1000
      && ResolveTemporalRate(r.state.catalog, 1, Some(5)).rate == 2000 && !UpToDate(r.state, 1)
  {
    hide Run, SetPropertyRate, ApproveCommission, Once, Raised, UpToDate;
    RunReport();
    RunThen(Shop(), [StartSessionStep(3, 5)] + [Report(1)], SetPropertyRateStep(1, Some(2000)));
    Raising();
    Releasing();
  }
}
