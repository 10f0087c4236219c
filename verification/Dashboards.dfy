/** The dashboard over the booking tables: which rows it loads, and what its figures count. */
module Dashboards {
  import opened Common
  import opened Tables
  import opened Registry
  import opened Mirror
  import opened LoopFacts
  import opened Forecast
  import opened AvailabilityMatrix
  import opened MatrixTotals

  const FORECAST_DAYS := 14

  /** The rows of bookingWhere; a property filter leaves out every flex registry row. */
  predicate Matches(b: Booking, propertyId: Option<Id>, modality: Modality) {
    && !b.deleted
    && (propertyId.Some? ==> b.propertyId == propertyId)
    && match modality
       case Temporal => b.source.Cloudbeds? || b.source.Direct?
       case Flex => b.source.Flex?
       case All => true
  }

  /** The rows of loadFlexBookings; it has no property filter. */
  predicate ListedFlex(f: FlexBooking) {
    !f.deleted && (f.status.Confirmed? || f.status.Completed? || f.status.Pending?)
  }

  function RowOf(b: Booking, unitId: Option<Id>): BookingRow {
    BookingRow(Stay(b.checkIn, b.checkOut, b.totalNights, b.totalAmount, unitId), b.status)
  }

  function ContractOf(f: FlexBooking): Contract {
    Contract(f.startDate, f.endDate, f.totalAmount, f.status)
  }

  // ---------------------------------------------------------------- loading

  function InView(s: State, propertyId: Option<Id>, modality: Modality): set<Id> {
    set id | id in s.bookings && Matches(s.bookings[id], propertyId, modality)
  }

  function InFlexView(s: State): set<Id> {
    set id | id in s.flex && ListedFlex(s.flex[id])
  }

  /** rows are the registry rows of the view with their units, each once; ids names them. */
  ghost predicate LoadedRows(rows: seq<BookingRow>, ids: seq<Id>, s: State, propertyId: Option<Id>, modality: Modality,
                             unitOf: Id -> Option<Id>) {
    && |rows| == |ids| && Distinct(ids)
    && Elements(ids) == InView(s, propertyId, modality)
    && forall i :: 0 <= i < |ids| ==> ids[i] in s.bookings && rows[i] == RowOf(s.bookings[ids[i]], unitOf(ids[i]))
  }

  ghost predicate LoadedContracts(contracts: seq<Contract>, ids: seq<Id>, s: State) {
    && |contracts| == |ids| && Distinct(ids)
    && Elements(ids) == InFlexView(s)
    && forall i :: 0 <= i < |ids| ==> ids[i] in s.flex && contracts[i] == ContractOf(s.flex[ids[i]])
  }

  /** unitOf gives the unit of a registry row. */
  method LoadBookings(s: State, propertyId: Option<Id>, modality: Modality, unitOf: Id -> Option<Id>)
    returns (rows: seq<BookingRow>, ghost ids: seq<Id>)
    ensures LoadedRows(rows, ids, s, propertyId, modality, unitOf)
    ensures |rows| == |InView(s, propertyId, modality)|
    ensures forall i :: 0 <= i < |rows| ==>
      var b := s.bookings[ids[i]];
      rows[i] == BookingRow(Stay(b.checkIn, b.checkOut, b.totalNights, b.totalAmount, unitOf(ids[i])), b.status)
  {
    var matching := InView(s, propertyId, modality);
    var todo := matching;
    rows, ids := [], [];
    while todo != {}
      invariant todo <= matching && |rows| == |ids| && Distinct(ids) && |rows| + |todo| == |matching|
      invariant forall id :: id in matching <==> id in todo || id in ids
      invariant forall id :: id in ids ==> id !in todo
      invariant forall i :: 0 <= i < |ids| ==>
        ids[i] in s.bookings && rows[i] == RowOf(s.bookings[ids[i]], unitOf(ids[i]))
      decreases todo
    {
      var id :| id in todo;
      rows := rows + [RowOf(s.bookings[id], unitOf(id))];
      ids := ids + [id];
      todo := todo - {id};
    }
  }

  method LoadFlexBookings(s: State) returns (contracts: seq<Contract>, ghost ids: seq<Id>)
    ensures LoadedContracts(contracts, ids, s)
    ensures |contracts| == |InFlexView(s)|
    ensures forall i :: 0 <= i < |contracts| ==>
      var f := s.flex[ids[i]]; contracts[i] == Contract(f.startDate, f.endDate, f.totalAmount, f.status)
  {
    var listed := InFlexView(s);
    var todo := listed;
    contracts, ids := [], [];
    while todo != {}
      invariant todo <= listed && |contracts| == |ids| && Distinct(ids) && |contracts| + |todo| == |listed|
      invariant forall id :: id in listed <==> id in todo || id in ids
      invariant forall id :: id in ids ==> id !in todo
      invariant forall i :: 0 <= i < |ids| ==> ids[i] in s.flex && contracts[i] == ContractOf(s.flex[ids[i]])
      decreases todo
    {
      var id :| id in todo;
      contracts := contracts + [ContractOf(s.flex[id])];
      ids := ids + [id];
      todo := todo - {id};
    }
  }

  // ---------------------------------------------------------------- counting rows instead of list entries

  function Count(ids: seq<Id>, good: Id -> bool): nat {
    if ids == [] then 0 else Count(ids[..|ids| - 1], good) + if good(ids[|ids| - 1]) then 1 else 0
  }

  lemma CountSplit(ids: seq<Id>, good: Id -> bool)
    requires ids != []
    ensures var k := |ids| - 1; Count(ids, good) == Count(ids[..k], good) + if good(ids[k]) then 1 else 0
  {}

  function Chosen(ids: seq<Id>, good: Id -> bool): set<Id> {
    set id | id in Elements(ids) && good(id)
  }

  lemma OneMoreChosen(ids: seq<Id>, good: Id -> bool)
    requires Distinct(ids) && ids != []
    ensures var k := |ids| - 1; ids[k] !in Chosen(ids[..k], good)
    ensures var k := |ids| - 1; Chosen(ids, good) == Chosen(ids[..k], good) + if good(ids[k]) then {ids[k]} else {}
  {
    var k := |ids| - 1;
    assert ids == ids[..k] + [ids[k]];
    assert ids[k] !in ids[..k];
  }

  lemma {:induction false} CountIsSize(ids: seq<Id>, good: Id -> bool)
    requires Distinct(ids)
    ensures Count(ids, good) == |Chosen(ids, good)|
    decreases |ids|
  {
    if ids == [] {
      assert Chosen(ids, good) == {};
    } else {
      hide Chosen, Elements;
      var k := |ids| - 1;
      CountIsSize(ids[..k], good);
      OneMoreChosen(ids, good);
    }
  }

  /** What the dashboard counts stays for. */
  datatype Figure = Arriving | Staying | Departing

  predicate Shows(figure: Figure, start: Day, end: Day, day: Day) {
    match figure
    case Arriving => start == day
    case Staying => OverlapsNight(start, end, day)
    case Departing => end == day
  }

  function Figures(cs: seq<Charge>, figure: Figure, day: Day): nat {
    match figure
    case Arriving => Starting(cs, day)
    case Staying => Covering(cs, day)
    case Departing => Ending(cs, day)
  }

  predicate Covered(b: Booking, figure: Figure, day: Day) {
    ActiveStatus(b.status) && Shows(figure, b.checkIn, b.checkOut, day)
  }

  /** The registry rows the dashboard counts on a day. */
  function StaysOn(s: State, propertyId: Option<Id>, modality: Modality, figure: Figure, day: Day): set<Id> {
    set id | id in s.bookings && Matches(s.bookings[id], propertyId, modality) && Covered(s.bookings[id], figure, day)
  }

  /** Those of them on a listed unit. */
  function StaysOnUnits(s: State, propertyId: Option<Id>, modality: Modality, unitOf: Id -> Option<Id>,
                        units: seq<Unit>, day: Day): set<Id> {
    set id | id in StaysOn(s, propertyId, modality, Staying, day) && unitOf(id).Some?
             && IsListed(units, unitOf(id).value)
  }

  function PendingOn(s: State, propertyId: Option<Id>, modality: Modality): set<Id> {
    set id | id in s.bookings && Matches(s.bookings[id], propertyId, modality) && s.bookings[id].status.Pending?
  }

  predicate RunningOn(f: FlexBooking, figure: Figure, day: Day) {
    !f.deleted && (f.status.Confirmed? || f.status.Completed?) && Shows(figure, f.startDate, f.endDate, day)
  }

  /** The running flex bookings of a day. */
  function FlexOn(s: State, figure: Figure, day: Day): set<Id> {
    set id | id in s.flex && RunningOn(s.flex[id], figure, day)
  }

  function PendingFlex(s: State): set<Id> {
    set id | id in s.flex && !s.flex[id].deleted && s.flex[id].status.Pending?
  }

  /** What the dashboard counts, on the columns: live CONFIRMED or COMPLETED registry rows of the property asked for,
      of the sources the view shows, that arrive, stay the night or depart on the day; and those that are PENDING. */
  lemma CountedRows(s: State, propertyId: Option<Id>, modality: Modality, day: Day, id: Id)
    requires id in s.bookings
    ensures var b := s.bookings[id]; var st := b.status;
      var shown :=
        && !b.deleted && (propertyId == None || b.propertyId == propertyId)
        && (modality == Temporal ==> b.source != BookingSource.Flex)
        && (modality == Modality.Flex ==> b.source == BookingSource.Flex);
      var runs := st == BookingStatus.Confirmed || st == BookingStatus.Completed;
      && (id in StaysOn(s, propertyId, modality, Arriving, day) <==> shown && runs && b.checkIn == day)
      && (id in StaysOn(s, propertyId, modality, Staying, day) <==> shown && runs && b.checkIn <= day < b.checkOut)
      && (id in StaysOn(s, propertyId, modality, Departing, day) <==> shown && runs && b.checkOut == day)
      && (id in PendingOn(s, propertyId, modality) <==> shown && st == BookingStatus.Pending)
  {}

  /** And live flex bookings, whatever the property. */
  lemma CountedContracts(s: State, day: Day, id: Id)
    requires id in s.flex
    ensures var f := s.flex[id]; var runs := f.status == FlexStatus.Confirmed || f.status == FlexStatus.Completed;
      && (id in FlexOn(s, Arriving, day) <==> !f.deleted && runs && f.startDate == day)
      && (id in FlexOn(s, Staying, day) <==> !f.deleted && runs && f.startDate <= day < f.endDate)
      && (id in FlexOn(s, Departing, day) <==> !f.deleted && runs && f.endDate == day)
      && (id in PendingFlex(s) <==> !f.deleted && f.status == FlexStatus.Pending)
  {}

  lemma ActiveStaysSplit(rows: seq<BookingRow>)
    requires rows != []
    ensures var k := |rows| - 1;
      ActiveStays(rows) == ActiveStays(rows[..k]) + if ActiveStatus(rows[k].status) then [rows[k].stay] else []
  {}

  lemma OneMoreRow(rows: seq<BookingRow>, figure: Figure, day: Day)
    requires rows != []
    ensures var k := |rows| - 1; var b := rows[k].stay;
      && Figures(StayCharges(ActiveStays(rows)), figure, day)
         == Figures(StayCharges(ActiveStays(rows[..k])), figure, day)
           + (if ActiveStatus(rows[k].status) && Shows(figure, b.checkIn, b.checkOut, day) then 1 else 0)
  {
    hide ActiveStays, StayCharges, Covering, Starting, Ending, OverlapsNight;
    var k := |rows| - 1;
    var before, after := ActiveStays(rows[..k]), ActiveStays(rows);
    ActiveStaysSplit(rows);
    if ActiveStatus(rows[k].status) {
      OneMoreStay(after, |before|, day);
      assert after[..|before|] == before && after[..|before| + 1] == after;
    } else {
      assert after == before;
    }
  }

  lemma OneMoreRowOnUnits(rows: seq<BookingRow>, units: seq<Unit>, day: Day)
    requires rows != []
    ensures var k := |rows| - 1; var b := rows[k].stay;
      && OnListedUnits(ActiveStays(rows), units, day) == OnListedUnits(ActiveStays(rows[..k]), units, day)
           + (if ActiveStatus(rows[k].status) && OverlapsNight(b.checkIn, b.checkOut, day)
                 && b.unitId.Some? && IsListed(units, b.unitId.value) then 1 else 0)
  {
    hide ActiveStays, IsListed;
    var k := |rows| - 1;
    var before, after := ActiveStays(rows[..k]), ActiveStays(rows);
    ActiveStaysSplit(rows);
    if ActiveStatus(rows[k].status) {
      assert after[..|after| - 1] == before;
    } else {
      assert after == before;
    }
  }

  lemma OneMorePending(rows: seq<BookingRow>)
    requires rows != []
    ensures var k := |rows| - 1; PendingRows(rows) == PendingRows(rows[..k]) + if rows[k].status.Pending? then 1 else 0
  {}

  function CoveredIn(s: State, figure: Figure, day: Day): Id -> bool {
    id => id in s.bookings && Covered(s.bookings[id], figure, day)
  }

  function OnUnitIn(s: State, unitOf: Id -> Option<Id>, units: seq<Unit>, day: Day): Id -> bool {
    id => id in s.bookings && Covered(s.bookings[id], Staying, day) && unitOf(id).Some?
          && IsListed(units, unitOf(id).value)
  }

  function PendingIn(s: State): Id -> bool {
    id => id in s.bookings && s.bookings[id].status.Pending?
  }

  ghost predicate RowsOf(rows: seq<BookingRow>, ids: seq<Id>, s: State, unitOf: Id -> Option<Id>) {
    && |rows| == |ids|
    && forall i :: 0 <= i < |ids| ==> ids[i] in s.bookings && rows[i] == RowOf(s.bookings[ids[i]], unitOf(ids[i]))
  }

  /** The last row loaded is counted as the row of the table it comes from. */
  lemma LastRow(rows: seq<BookingRow>, ids: seq<Id>, s: State, unitOf: Id -> Option<Id>, units: seq<Unit>,
                figure: Figure, day: Day)
    requires RowsOf(rows, ids, s, unitOf) && ids != []
    ensures var k := |ids| - 1; var b := rows[k].stay;
      && RowsOf(rows[..k], ids[..k], s, unitOf)
      && (CoveredIn(s, figure, day)(ids[k]) <==>
            ActiveStatus(rows[k].status) && Shows(figure, b.checkIn, b.checkOut, day))
      && (OnUnitIn(s, unitOf, units, day)(ids[k]) <==>
            ActiveStatus(rows[k].status) && OverlapsNight(b.checkIn, b.checkOut, day)
            && b.unitId.Some? && IsListed(units, b.unitId.value))
      && (PendingIn(s)(ids[k]) <==> rows[k].status.Pending?)
  {
    hide IsListed, OverlapsNight;
  }

  lemma NoRowsCounted(s: State, unitOf: Id -> Option<Id>, units: seq<Unit>, figure: Figure, day: Day)
    ensures Figures(StayCharges(ActiveStays([])), figure, day) == Count([], CoveredIn(s, figure, day)) == 0
    ensures OnListedUnits(ActiveStays([]), units, day) == Count([], OnUnitIn(s, unitOf, units, day)) == 0
    ensures PendingRows([]) == Count([], PendingIn(s)) == 0
  {}

  lemma {:induction false} RowsCounted(rows: seq<BookingRow>, ids: seq<Id>, s: State, unitOf: Id -> Option<Id>,
                                       units: seq<Unit>, figure: Figure, day: Day)
    requires RowsOf(rows, ids, s, unitOf)
    ensures Figures(StayCharges(ActiveStays(rows)), figure, day) == Count(ids, CoveredIn(s, figure, day))
    ensures OnListedUnits(ActiveStays(rows), units, day) == Count(ids, OnUnitIn(s, unitOf, units, day))
    ensures PendingRows(rows) == Count(ids, PendingIn(s))
    decreases |ids|
  {
    assert |rows| == |ids|;
    hide Figures, StayCharges, ActiveStays, OnListedUnits, IsListed, Count, PendingRows, OverlapsNight;
    hide RowsOf, CoveredIn, OnUnitIn, PendingIn, ActiveStatus, Shows;
    if ids == [] {
      NoRowsCounted(s, unitOf, units, figure, day);
    } else {
      LastRow(rows, ids, s, unitOf, units, figure, day);
      var k := |ids| - 1;
      RowsCounted(rows[..k], ids[..k], s, unitOf, units, figure, day);
      OneMoreRow(rows, figure, day);
      OneMoreRowOnUnits(rows, units, day);
      OneMorePending(rows);
      CountSplit(ids, CoveredIn(s, figure, day));
      CountSplit(ids, OnUnitIn(s, unitOf, units, day));
      CountSplit(ids, PendingIn(s));
    }
  }

  function RunningIn(s: State, figure: Figure, day: Day): Id -> bool {
    id => id in s.flex && RunningOn(s.flex[id], figure, day)
  }

  function PendingFlexIn(s: State): Id -> bool {
    id => id in s.flex && s.flex[id].status.Pending?
  }

  ghost predicate ContractsOf(contracts: seq<Contract>, ids: seq<Id>, s: State) {
    && |contracts| == |ids|
    && forall i :: 0 <= i < |ids| ==>
         ids[i] in s.flex && ListedFlex(s.flex[ids[i]]) && contracts[i] == ContractOf(s.flex[ids[i]])
  }

  lemma LastContract(contracts: seq<Contract>, ids: seq<Id>, s: State, figure: Figure, day: Day)
    requires ContractsOf(contracts, ids, s) && ids != []
    ensures var k := |ids| - 1; var c := contracts[k];
      && ContractsOf(contracts[..k], ids[..k], s)
      && (RunningIn(s, figure, day)(ids[k]) <==> Running(c) && Shows(figure, c.startDate, c.endDate, day))
      && (PendingFlexIn(s)(ids[k]) <==> c.status.Pending?)
  {
    hide OverlapsNight;
  }

  lemma NoContractsCounted(s: State, figure: Figure, day: Day)
    ensures Figures(ContractCharges([]), figure, day) == Count([], RunningIn(s, figure, day)) == 0
    ensures PendingContracts([]) == Count([], PendingFlexIn(s)) == 0
  {}

  lemma {:induction false} ContractsCounted(contracts: seq<Contract>, ids: seq<Id>, s: State, figure: Figure, day: Day)
    requires ContractsOf(contracts, ids, s)
    ensures Figures(ContractCharges(contracts), figure, day) == Count(ids, RunningIn(s, figure, day))
    ensures PendingContracts(contracts) == Count(ids, PendingFlexIn(s))
    decreases |ids|
  {
    assert |contracts| == |ids|;
    hide ContractCharges, Figures, Count, PendingContracts, OverlapsNight, ContractsOf, RunningIn, PendingFlexIn;
    hide Running, Shows;
    if ids == [] {
      NoContractsCounted(s, figure, day);
    } else {
      LastContract(contracts, ids, s, figure, day);
      var k := |ids| - 1;
      ContractsCounted(contracts[..k], ids[..k], s, figure, day);
      OneMoreContractShows(contracts, figure, day);
      OneMorePendingContract(contracts);
      CountSplit(ids, RunningIn(s, figure, day));
      CountSplit(ids, PendingFlexIn(s));
    }
  }

  lemma OneMorePendingContract(contracts: seq<Contract>)
    requires contracts != []
    ensures var k := |contracts| - 1;
      PendingContracts(contracts) == PendingContracts(contracts[..k]) + if contracts[k].status.Pending? then 1 else 0
  {}

  lemma OneMoreContractShows(contracts: seq<Contract>, figure: Figure, day: Day)
    requires contracts != []
    ensures var k := |contracts| - 1; var c := contracts[k];
      Figures(ContractCharges(contracts), figure, day) == Figures(ContractCharges(contracts[..k]), figure, day)
        + (if Running(c) && Shows(figure, c.startDate, c.endDate, day) then 1 else 0)
  {
    hide OverlapsNight;
    var k := |contracts| - 1;
    OneMoreContract([], contracts, k, day);
    assert contracts[..k + 1] == contracts;
    assert ChargesUpTo([], contracts, k) == ContractCharges(contracts[..k]);
    assert ChargesUpTo([], contracts, k + 1) == ContractCharges(contracts);
  }

  /** Distinct ids of a table counted by a property are the rows that have it. */
  lemma CountIsSetSize(ids: seq<Id>, good: Id -> bool, rows: set<Id>)
    requires Distinct(ids) && forall id :: id in rows <==> id in Elements(ids) && good(id)
    ensures Count(ids, good) == |rows|
  {
    CountIsSize(ids, good);
    assert rows == Chosen(ids, good);
  }

  lemma LoadedRowsCounted(rows: seq<BookingRow>, ids: seq<Id>, s: State, propertyId: Option<Id>, modality: Modality,
                          unitOf: Id -> Option<Id>, units: seq<Unit>, figure: Figure, day: Day)
    requires LoadedRows(rows, ids, s, propertyId, modality, unitOf)
    ensures Figures(StayCharges(ActiveStays(rows)), figure, day) == |StaysOn(s, propertyId, modality, figure, day)|
    ensures OnListedUnits(ActiveStays(rows), units, day) == |StaysOnUnits(s, propertyId, modality, unitOf, units, day)|
    ensures PendingRows(rows) == |PendingOn(s, propertyId, modality)|
  {
    hide Count, Figures, StayCharges, ActiveStays, OnListedUnits, PendingRows, Distinct, IsListed, Covered;
    RowsCounted(rows, ids, s, unitOf, units, figure, day);
    CountIsSetSize(ids, CoveredIn(s, figure, day), StaysOn(s, propertyId, modality, figure, day));
    CountIsSetSize(ids, OnUnitIn(s, unitOf, units, day), StaysOnUnits(s, propertyId, modality, unitOf, units, day));
    CountIsSetSize(ids, PendingIn(s), PendingOn(s, propertyId, modality));
  }

  lemma LoadedContractsCounted(contracts: seq<Contract>, ids: seq<Id>, s: State, figure: Figure, day: Day)
    requires LoadedContracts(contracts, ids, s)
    ensures Figures(ContractCharges(contracts), figure, day) == |FlexOn(s, figure, day)|
    ensures PendingContracts(contracts) == |PendingFlex(s)|
  {
    forall i | 0 <= i < |ids| ensures ListedFlex(s.flex[ids[i]]) {
      assert ids[i] in Elements(ids);
    }
    ContractsCounted(contracts, ids, s, figure, day);
    hide Count, Figures, ContractCharges, PendingContracts, Distinct, Shows;
    CountIsSetSize(ids, RunningIn(s, figure, day), FlexOn(s, figure, day));
    CountIsSetSize(ids, PendingFlexIn(s), PendingFlex(s));
  }

  lemma LastCharge(cs: seq<Charge>, figure: Figure, day: Day)
    requires cs != []
    ensures var k := |cs| - 1;
      Figures(cs, figure, day) == Figures(cs[..k], figure, day)
        + if Shows(figure, cs[k].start, cs[k].end, day) then 1 else 0
  {}

  lemma {:induction false} FiguresAppend(a: seq<Charge>, b: seq<Charge>, figure: Figure, day: Day)
    ensures Figures(a + b, figure, day) == Figures(a, figure, day) + Figures(b, figure, day)
    decreases |b|
  {
    if b == [] {
      assert a + b == a;
      assert Figures(b, figure, day) == 0;
    } else {
      hide Figures, Shows;
      assert (a + b)[..|a + b| - 1] == a + b[..|b| - 1];
      LastCharge(a + b, figure, day);
      LastCharge(b, figure, day);
      FiguresAppend(a, b[..|b| - 1], figure, day);
    }
  }

  /** What the dashboard shows for a day, in rows of the tables. */
  function FigureOn(s: State, propertyId: Option<Id>, modality: Modality, figure: Figure, day: Day): nat {
    |StaysOn(s, propertyId, modality, figure, day)| + if modality.Temporal? then 0 else |FlexOn(s, figure, day)|
  }

  /** What it calls awaiting confirmation. */
  function AwaitingConfirmation(s: State, propertyId: Option<Id>, modality: Modality): nat {
    |PendingOn(s, propertyId, modality)| + if modality.Temporal? then 0 else |PendingFlex(s)|
  }

  /** Everything loaded for a view. */
  ghost predicate Loaded(rows: seq<BookingRow>, ids: seq<Id>, contracts: seq<Contract>, flexIds: seq<Id>, s: State,
                         propertyId: Option<Id>, modality: Modality, unitOf: Id -> Option<Id>) {
    && LoadedRows(rows, ids, s, propertyId, modality, unitOf)
    && if modality.Temporal? then contracts == [] else LoadedContracts(contracts, flexIds, s)
  }

  lemma LoadedAreCounted(rows: seq<BookingRow>, ids: seq<Id>, contracts: seq<Contract>, flexIds: seq<Id>, s: State,
                         propertyId: Option<Id>, modality: Modality, unitOf: Id -> Option<Id>, units: seq<Unit>,
                         figure: Figure, day: Day)
    requires Loaded(rows, ids, contracts, flexIds, s, propertyId, modality, unitOf)
    ensures Figures(Charges(ActiveStays(rows), contracts, modality), figure, day)
         == FigureOn(s, propertyId, modality, figure, day)
    ensures OnListedUnits(ActiveStays(rows), units, day) == |StaysOnUnits(s, propertyId, modality, unitOf, units, day)|
    ensures PendingRows(rows) + (if modality.Temporal? then 0 else PendingContracts(contracts))
         == AwaitingConfirmation(s, propertyId, modality)
  {
    hide LoadedRows, LoadedContracts, ActiveStays, PendingRows, PendingContracts, StaysOn, PendingOn,
      FlexOn, PendingFlex, Figures;
    LoadedRowsCounted(rows, ids, s, propertyId, modality, unitOf, units, figure, day);
    if modality.Temporal? {
      assert Charges(ActiveStays(rows), contracts, modality) == StayCharges(ActiveStays(rows));
    } else {
      LoadedContractsCounted(contracts, flexIds, s, figure, day);
      FiguresAppend(StayCharges(ActiveStays(rows)), ContractCharges(contracts), figure, day);
    }
  }

  // ---------------------------------------------------------------- the dashboard

  datatype Dashboard = Dashboard(
    today: TodayKpis, forecast: Outlook, rows: seq<Row>, available: seq<nat>, overbookings: seq<Overbooking>)

  /** The figures in rows of the tables: today's and tomorrow's movements, guests in house today, which are the
      occupied units of the first forecast day, and the units occupied on every day of the forecast. */
  ghost predicate CountsTables(d: Dashboard, s: State, refDate: Day, propertyId: Option<Id>, modality: Modality) {
    && d.today.arrivals == FigureOn(s, propertyId, modality, Arriving, refDate)
    && d.today.inHouse == FigureOn(s, propertyId, modality, Staying, refDate)
    && d.today.departures == FigureOn(s, propertyId, modality, Departing, refDate)
    && d.today.tomorrowArrivals == FigureOn(s, propertyId, modality, Arriving, refDate + 1)
    && d.today.tomorrowDepartures == FigureOn(s, propertyId, modality, Departing, refDate + 1)
    && d.today.pendingConfirmation == AwaitingConfirmation(s, propertyId, modality)
    && |d.forecast.days| == FORECAST_DAYS
    && forall i :: 0 <= i < FORECAST_DAYS ==>
         && d.forecast.days[i].date == refDate + i
         && d.forecast.days[i].occupiedUnits == FigureOn(s, propertyId, modality, Staying, refDate + i)
  }

  /** The totals over the window, for the charges of what was loaded. */
  ghost predicate TotalsWindow(d: Dashboard, cs: seq<Charge>, blocks: seq<Block>, units: nat, refDate: Day) {
    && Forecasts(d.forecast.days, cs, blocks, units, refDate)
    && OccupiedTotal(d.forecast.days) == NightsTotal(cs, refDate, FORECAST_DAYS)
    && (var u := if units > 0 then units else 1;
        Abs(10000 * NightsTotal(cs, refDate, FORECAST_DAYS) - u * FORECAST_DAYS * d.forecast.occupancyPercent14d)
        <= u * FORECAST_DAYS)
    && var error := d.forecast.revenue14d as real - ShareTotal(cs, refDate, FORECAST_DAYS);
       -0.5 * FORECAST_DAYS as real <= error <= 0.5 * FORECAST_DAYS as real
  }

  /** The availability of a day in rows of the tables. */
  ghost predicate AvailableByTables(d: Dashboard, stays: seq<Stay>, s: State, refDate: Day, propertyId: Option<Id>,
                                    modality: Modality, units: seq<Unit>, blocks: seq<Block>,
                                    unitOf: Id -> Option<Id>) {
    |d.available| == FORECAST_DAYS
    && forall i :: 0 <= i < FORECAST_DAYS ==>
      d.available[i] == |units| - |StaysOnUnits(s, propertyId, modality, unitOf, units, refDate + i)|
                        - (if HasGeneralUnit(units) then Unassigned(stays, refDate + i) else 0)
                        - BlocksOnListedUnits(blocks, units, refDate + i)
                        + DeficitOn(d.overbookings, refDate + i)
  }

  lemma ForecastCountsTables(days: seq<ForecastDay>, rows: seq<BookingRow>, ids: seq<Id>, contracts: seq<Contract>,
                             flexIds: seq<Id>, s: State, propertyId: Option<Id>, modality: Modality,
                             unitOf: Id -> Option<Id>, blocks: seq<Block>, units: nat, from: Day)
    requires Loaded(rows, ids, contracts, flexIds, s, propertyId, modality, unitOf)
    requires Forecasts(days, Charges(ActiveStays(rows), contracts, modality), blocks, units, from)
    ensures forall i :: 0 <= i < |days| ==>
      days[i].date == from + i && days[i].occupiedUnits == FigureOn(s, propertyId, modality, Staying, from + i)
  {
    hide Loaded, Charges, ActiveStays, Covering, FigureOn;
    forall i | 0 <= i < |days|
      ensures days[i].date == from + i && days[i].occupiedUnits == FigureOn(s, propertyId, modality, Staying, from + i)
    {
      LoadedAreCounted(rows, ids, contracts, flexIds, s, propertyId, modality, unitOf, [], Staying, from + i);
    }
  }

  lemma MatrixCountsTables(rows: seq<BookingRow>, ids: seq<Id>, contracts: seq<Contract>, flexIds: seq<Id>, s: State,
                           propertyId: Option<Id>, modality: Modality, unitOf: Id -> Option<Id>, units: seq<Unit>,
                           blocks: seq<Block>, d: Dashboard, from: Day)
    requires Loaded(rows, ids, contracts, flexIds, s, propertyId, modality, unitOf)
    requires units != [] && DistinctUnits(units) && |d.rows| == |GroupsOf(units)| && |d.available| == FORECAST_DAYS
    requires forall r :: r in d.rows ==> |r.days| == FORECAST_DAYS
    requires forall g :: 0 <= g < |d.rows| ==>
      IsRow(d.rows[g], ActiveStays(rows), blocks, GroupsOf(units)[g], from, FORECAST_DAYS)
    requires forall i :: 0 <= i < FORECAST_DAYS ==> d.available[i] == AvailableOn(d.rows, i)
    requires d.overbookings == Overbookings(ActiveStays(rows), blocks, GroupsOf(units), from, FORECAST_DAYS)
    ensures AvailableByTables(d, ActiveStays(rows), s, from, propertyId, modality, units, blocks, unitOf)
  {
    hide Loaded, ActiveStays, IsRow, GroupsOf, DistinctUnits, AvailableOn, OnListedUnits, Unassigned, StaysOnUnits,
      BlocksOnListedUnits, HasGeneralUnit, Overbookings, DeficitOn;
    forall i | 0 <= i < FORECAST_DAYS
      ensures d.available[i] == |units| - |StaysOnUnits(s, propertyId, modality, unitOf, units, from + i)|
                                - (if HasGeneralUnit(units) then Unassigned(ActiveStays(rows), from + i) else 0)
                                - BlocksOnListedUnits(blocks, units, from + i) + DeficitOn(d.overbookings, from + i)
    {
      AvailabilityOfDay(ActiveStays(rows), units, blocks, d.rows, d.available, from, FORECAST_DAYS, i);
      LoadedAreCounted(rows, ids, contracts, flexIds, s, propertyId, modality, unitOf, units, Staying, from + i);
    }
  }

  lemma TodayCountsTables(rows: seq<BookingRow>, ids: seq<Id>, contracts: seq<Contract>,
                          flexIds: seq<Id>, s: State, propertyId: Option<Id>, modality: Modality,
                          unitOf: Id -> Option<Id>, day: Day)
    requires Loaded(rows, ids, contracts, flexIds, s, propertyId, modality, unitOf)
    ensures var cs := Charges(ActiveStays(rows), contracts, modality);
      && Starting(cs, day) == FigureOn(s, propertyId, modality, Arriving, day)
      && Covering(cs, day) == FigureOn(s, propertyId, modality, Staying, day)
      && Ending(cs, day) == FigureOn(s, propertyId, modality, Departing, day)
      && Starting(cs, day + 1) == FigureOn(s, propertyId, modality, Arriving, day + 1)
      && Ending(cs, day + 1) == FigureOn(s, propertyId, modality, Departing, day + 1)
    ensures PendingRows(rows) + (if modality.Temporal? then 0 else PendingContracts(contracts))
         == AwaitingConfirmation(s, propertyId, modality)
  {
    hide Loaded, Charges, ActiveStays, Covering, Starting, Ending, FigureOn, AwaitingConfirmation;
    LoadedAreCounted(rows, ids, contracts, flexIds, s, propertyId, modality, unitOf, [], Arriving, day);
    LoadedAreCounted(rows, ids, contracts, flexIds, s, propertyId, modality, unitOf, [], Staying, day);
    LoadedAreCounted(rows, ids, contracts, flexIds, s, propertyId, modality, unitOf, [], Departing, day);
    LoadedAreCounted(rows, ids, contracts, flexIds, s, propertyId, modality, unitOf, [], Arriving, day + 1);
    LoadedAreCounted(rows, ids, contracts, flexIds, s, propertyId, modality, unitOf, [], Departing, day + 1);
  }

  method GetDashboard(s: State, refDate: Day, propertyId: Option<Id>, modality: Modality, units: seq<Unit>,
                      blocks: seq<Block>, flexInventory: nat, unitOf: Id -> Option<Id>)
    returns (d: Dashboard, ghost rows: seq<BookingRow>, ghost ids: seq<Id>, ghost contracts: seq<Contract>,
             ghost flexIds: seq<Id>)
    ensures Loaded(rows, ids, contracts, flexIds, s, propertyId, modality, unitOf)
    ensures CountsTables(d, s, refDate, propertyId, modality)
    ensures TotalsWindow(d, Charges(ActiveStays(rows), contracts, modality), blocks, |units|, refDate)
    ensures ShowsShare(d.today) && forall day :: day in d.forecast.days ==> ShowsDay(day, |units|)
    ensures |d.forecast.days| == 14 && forall i :: 0 <= i < 14 ==> d.forecast.days[i].date == refDate + i
    ensures units != [] && DistinctUnits(units) ==>
      AvailableByTables(d, ActiveStays(rows), s, refDate, propertyId, modality, units, blocks, unitOf)
  {
    hide Loaded, LoadedRows, LoadedContracts, Covering, Revenue, Charges, FigureOn, AwaitingConfirmation, NightsTotal,
      ShareTotal, OccupiedTotal, RevenueTotal, StaysOnUnits, GroupsOf, IsRow, DistinctUnits, AvailableOn, Overbookings,
      AvailableByTables, Forecasts, ActiveStays, PendingRows, PendingContracts, Starting, Ending, ShowsShare, ShowsDay;
    var bookings, bookingIds := LoadBookings(s, propertyId, modality, unitOf);
    var flexBookings: seq<Contract> := [];
    ghost var flexBookingIds: seq<Id> := [];
    if modality != Temporal {
      flexBookings, flexBookingIds := LoadFlexBookings(s);
    }
    rows, ids, contracts, flexIds := bookings, bookingIds, flexBookings, flexBookingIds;
    ViewLoaded(rows, ids, contracts, flexIds, s, propertyId, modality, unitOf);
    var activeBookings := ActiveStays(bookings);
    var today := ComputeTodayKpis(activeBookings, bookings, flexBookings, |units|, flexInventory, refDate, modality);
    var forecast := BuildForecast(activeBookings, flexBookings, blocks, |units|, refDate, FORECAST_DAYS, modality);
    var groups, matrix, summary, overbookings :=
      BuildAvailabilityMatrix(activeBookings, units, blocks, refDate, FORECAST_DAYS);
    d := Dashboard(today, forecast, matrix, summary, overbookings);
    TodayCountsTables(rows, ids, contracts, flexIds, s, propertyId, modality, unitOf, refDate);
    ForecastCountsTables(forecast.days, rows, ids, contracts, flexIds, s, propertyId, modality,
                         unitOf, blocks, |units|, refDate);
    ForecastCountsNights(forecast.days, Charges(activeBookings, contracts, modality), blocks, |units|, refDate);
    AverageIsShareOfNights(forecast, Charges(activeBookings, contracts, modality), blocks, |units|, refDate);
    if units != [] && DistinctUnits(units) {
      MatrixCountsTables(rows, ids, contracts, flexIds, s, propertyId, modality, unitOf, units, blocks, d, refDate);
    }
  }

  lemma ViewLoaded(rows: seq<BookingRow>, ids: seq<Id>, contracts: seq<Contract>, flexIds: seq<Id>, s: State,
                   propertyId: Option<Id>, modality: Modality, unitOf: Id -> Option<Id>)
    requires LoadedRows(rows, ids, s, propertyId, modality, unitOf)
    requires if modality.Temporal? then contracts == [] else LoadedContracts(contracts, flexIds, s)
    ensures Loaded(rows, ids, contracts, flexIds, s, propertyId, modality, unitOf)
  {}

  // ---------------------------------------------------------------- flex stays are counted twice

  function RegistryOfFlex(s: State): Id -> Id {
    f => if f in s.registryOf then s.registryOf[f] else 0
  }

  /** The registry rows of the running flex bookings of a day are the active flex registry rows of that day. */
  lemma FlexRowsOn(s: State, figure: Figure, day: Day)
    requires Paired(s.flex, s.bookings, s.registryOf) && Mirrored(s)
    ensures Image(FlexOn(s, figure, day), RegistryOfFlex(s)) == StaysOn(s, None, Modality.Flex, figure, day)
    ensures OneToOne(FlexOn(s, figure, day), RegistryOfFlex(s))
  {
    hide Shows;
    forall f | f in s.flex
      ensures Registers(s.bookings[s.registryOf[f]], f, s.flex[f])
      ensures f in FlexOn(s, figure, day) <==> s.registryOf[f] in StaysOn(s, None, Modality.Flex, figure, day)
    {
      assert Mirrors(s.flex[f], s.bookings[s.registryOf[f]]);
    }
    forall b | b in StaysOn(s, None, Modality.Flex, figure, day)
      ensures b in Image(FlexOn(s, figure, day), RegistryOfFlex(s))
    {
      assert LinksBack(s.registryOf, b, s.bookings[b]);
      var f := s.bookings[b].flexBookingId.value;
      assert RegistryOfFlex(s)(f) == b;
    }
  }

  /** And those of the pending flex bookings are the pending ones. */
  lemma PendingFlexRows(s: State)
    requires Paired(s.flex, s.bookings, s.registryOf) && Mirrored(s)
    ensures Image(PendingFlex(s), RegistryOfFlex(s)) == PendingOn(s, None, Modality.Flex)
    ensures OneToOne(PendingFlex(s), RegistryOfFlex(s))
  {
    forall f | f in s.flex
      ensures Registers(s.bookings[s.registryOf[f]], f, s.flex[f])
      ensures f in PendingFlex(s) <==> s.registryOf[f] in PendingOn(s, None, Modality.Flex)
    {
      assert Mirrors(s.flex[f], s.bookings[s.registryOf[f]]);
    }
    forall b | b in PendingOn(s, None, Modality.Flex) ensures b in Image(PendingFlex(s), RegistryOfFlex(s)) {
      assert LinksBack(s.registryOf, b, s.bookings[b]);
      var f := s.bookings[b].flexBookingId.value;
      assert RegistryOfFlex(s)(f) == b;
    }
  }

  lemma FlexRowsHaveNoProperty(s: State)
    requires Paired(s.flex, s.bookings, s.registryOf)
    ensures forall b :: b in s.bookings && s.bookings[b].source.Flex? ==> s.bookings[b].propertyId == None
  {
    forall b | b in s.bookings && s.bookings[b].source.Flex? ensures s.bookings[b].propertyId == None {
      assert LinksBack(s.registryOf, b, s.bookings[b]);
      var f := s.bookings[b].flexBookingId.value;
      assert Registers(s.bookings[s.registryOf[f]], f, s.flex[f]);
    }
  }

  /** The rows a view lists: the flex ones pass no property filter. */
  lemma ListedSplit(s: State, propertyId: Option<Id>, figure: Figure, day: Day)
    requires forall b :: b in s.bookings && s.bookings[b].source.Flex? ==> s.bookings[b].propertyId == None
    ensures StaysOn(s, propertyId, Modality.Flex, figure, day)
         == if propertyId.Some? then {} else StaysOn(s, None, Modality.Flex, figure, day)
    ensures StaysOn(s, propertyId, All, figure, day)
         == StaysOn(s, propertyId, Temporal, figure, day) + StaysOn(s, propertyId, Modality.Flex, figure, day)
    ensures StaysOn(s, propertyId, Temporal, figure, day) !! StaysOn(s, propertyId, Modality.Flex, figure, day)
  {
    hide Shows;
  }

  lemma PendingSplit(s: State, propertyId: Option<Id>)
    requires forall b :: b in s.bookings && s.bookings[b].source.Flex? ==> s.bookings[b].propertyId == None
    ensures PendingOn(s, propertyId, Modality.Flex)
         == if propertyId.Some? then {} else PendingOn(s, None, Modality.Flex)
    ensures PendingOn(s, propertyId, All)
         == PendingOn(s, propertyId, Temporal) + PendingOn(s, propertyId, Modality.Flex)
    ensures PendingOn(s, propertyId, Temporal) !! PendingOn(s, propertyId, Modality.Flex)
  {}

  /** How often a view counts a flex stay. */
  function TimesCounted(propertyId: Option<Id>, modality: Modality): nat {
    if modality.Temporal? then 0 else if propertyId.Some? then 1 else 2
  }

  /** While the registry mirrors the flex bookings, a dashboard that shows flex counts every running flex booking
      twice, once through its registry row and once directly, arriving, staying and departing; only a property filter,
      which no flex registry row passes, or the temporal view avoids it. */
  lemma FlexStaysCountTwice(s: State, propertyId: Option<Id>, modality: Modality, figure: Figure, day: Day)
    requires Paired(s.flex, s.bookings, s.registryOf) && Mirrored(s)
    ensures FigureOn(s, propertyId, modality, figure, day)
         == (if modality.Flex? then 0 else |StaysOn(s, propertyId, Temporal, figure, day)|)
          + TimesCounted(propertyId, modality) * |FlexOn(s, figure, day)|
  {
    FlexRowsHaveNoProperty(s);
    FlexRowsOn(s, figure, day);
    ImageSize(FlexOn(s, figure, day), RegistryOfFlex(s));
    hide Mirrored, Paired, StaysOn, FlexOn, RegistryOfFlex, Image;
    ListedSplit(s, propertyId, figure, day);
  }

  /** The pending ones too. */
  lemma PendingFlexCountsTwice(s: State, propertyId: Option<Id>, modality: Modality)
    requires Paired(s.flex, s.bookings, s.registryOf) && Mirrored(s)
    ensures AwaitingConfirmation(s, propertyId, modality)
         == (if modality.Flex? then 0 else |PendingOn(s, propertyId, Temporal)|)
          + TimesCounted(propertyId, modality) * |PendingFlex(s)|
  {
    FlexRowsHaveNoProperty(s);
    PendingFlexRows(s);
    ImageSize(PendingFlex(s), RegistryOfFlex(s));
    hide Mirrored, Paired, PendingOn, PendingFlex, RegistryOfFlex, Image;
    PendingSplit(s, propertyId);
  }
}
