/** Today's counts and the day-by-day forecast of the admin dashboard, and what their totals count. */
module Forecast {
  import opened Common
  import opened Tables

  datatype Modality = Temporal | Flex | All

  /** A registry row that is confirmed or completed. */
  datatype Stay = Stay(checkIn: Day, checkOut: Day, totalNights: int, totalAmount: Cents, unitId: Option<Id>)

  /** A flex booking as loadFlexBookings gives it: any status but cancelled. */
  datatype Contract = Contract(startDate: Day, endDate: Day, totalAmount: Cents, status: FlexStatus)

  /** A unit taken out of service. */
  datatype Block = Block(startDate: Day, endDate: Day, unitId: Id)

  predicate OverlapsNight(checkIn: Day, checkOut: Day, day: Day) {
    checkIn <= day && checkOut > day
  }

  /** confirmed or completed */
  predicate Running(c: Contract) {
    c.status.Confirmed? || c.status.Completed?
  }

  // ---------------------------------------------------------------- charges: what both kinds of stay have in common

  /** An amount spread evenly over a number of nights, from start until the morning of end. */
  datatype Charge = Charge(start: Day, end: Day, total: Cents, nights: nat)

  function ChargeOfStay(b: Stay): Charge {
    Charge(b.checkIn, b.checkOut, b.totalAmount, if b.totalNights > 1 then b.totalNights else 1)
  }

  function ChargeOfContract(c: Contract): Charge {
    Charge(c.startDate, c.endDate, c.totalAmount, if c.endDate - c.startDate > 1 then c.endDate - c.startDate else 1)
  }

  function StayCharges(stays: seq<Stay>): (cs: seq<Charge>)
    ensures |cs| == |stays|
  {
    if stays == [] then [] else StayCharges(stays[..|stays| - 1]) + [ChargeOfStay(stays[|stays| - 1])]
  }

  function ContractCharges(contracts: seq<Contract>): seq<Charge> {
    if contracts == [] then []
    else
      var last := contracts[|contracts| - 1];
      ContractCharges(contracts[..|contracts| - 1]) + if Running(last) then [ChargeOfContract(last)] else []
  }

  /** Everything the dashboard counts as occupancy: stays, then, unless it is temporal, running contracts. */
  function Charges(stays: seq<Stay>, contracts: seq<Contract>, modality: Modality): seq<Charge> {
    StayCharges(stays) + if modality.Temporal? then [] else ContractCharges(contracts)
  }

  predicate Covers(c: Charge, day: Day) {
    OverlapsNight(c.start, c.end, day)
  }

  function CoverCount(c: Charge, day: Day): nat {
    if Covers(c, day) then 1 else 0
  }

  function Rate(c: Charge): real {
    if c.nights == 0 then 0.0 else c.total as real / c.nights as real
  }

  function Covering(cs: seq<Charge>, day: Day): nat {
    if cs == [] then 0 else Covering(cs[..|cs| - 1], day) + CoverCount(cs[|cs| - 1], day)
  }

  /** The revenue of a day, in hundredths and before rounding. */
  function Revenue(cs: seq<Charge>, day: Day): real {
    if cs == [] then 0.0
    else
      Revenue(cs[..|cs| - 1], day) + if Covers(cs[|cs| - 1], day) then Rate(cs[|cs| - 1]) else 0.0
  }

  function Starting(cs: seq<Charge>, day: Day): nat {
    if cs == [] then 0 else Starting(cs[..|cs| - 1], day) + if cs[|cs| - 1].start == day then 1 else 0
  }

  function Ending(cs: seq<Charge>, day: Day): nat {
    if cs == [] then 0 else Ending(cs[..|cs| - 1], day) + if cs[|cs| - 1].end == day then 1 else 0
  }

  function Blocking(blocks: seq<Block>, day: Day): nat {
    if blocks == [] then 0
    else
      var last := blocks[|blocks| - 1];
      Blocking(blocks[..|blocks| - 1], day) + if OverlapsNight(last.startDate, last.endDate, day) then 1 else 0
  }

  // ---------------------------------------------------------------- the loops

  /** A row of loadBookings, of any status. */
  datatype BookingRow = BookingRow(stay: Stay, status: BookingStatus)

  predicate ActiveStatus(st: BookingStatus) {
    st.Confirmed? || st.Completed?
  }

  function ActiveStays(rows: seq<BookingRow>): seq<Stay> {
    if rows == [] then []
    else
      var last := rows[|rows| - 1];
      ActiveStays(rows[..|rows| - 1]) + if ActiveStatus(last.status) then [last.stay] else []
  }

  function PendingRows(rows: seq<BookingRow>): nat {
    if rows == [] then 0
    else PendingRows(rows[..|rows| - 1]) + if rows[|rows| - 1].status.Pending? then 1 else 0
  }

  function PendingContracts(contracts: seq<Contract>): nat {
    if contracts == [] then 0
    else PendingContracts(contracts[..|contracts| - 1]) + if contracts[|contracts| - 1].status.Pending? then 1 else 0
  }

  /** A share in hundredths of one percent. */
  function Percent(part: nat, whole: nat): int
    requires whole > 0
  {
    MathRound(10000 * part, whole)
  }

  function Inventory(units: nat, flexInventory: nat, modality: Modality): nat {
    match modality
    case Flex => flexInventory
    case All => units + flexInventory
    case Temporal => units
  }

  datatype TodayKpis = TodayKpis(
    arrivals: nat, departures: nat, inHouse: nat, pendingConfirmation: nat, occupancyPercent: Option<int>,
    totalInventory: nat, tomorrowArrivals: nat, tomorrowDepartures: nat)

  /** The share of the inventory in house, in hundredths of one percent and to the nearest of them; none without an
      inventory. */
  predicate ShowsShare(k: TodayKpis) {
    match k.occupancyPercent
    case Some(percent) =>
      k.totalInventory > 0 && 2 * Abs(10000 * k.inHouse - k.totalInventory * percent) <= k.totalInventory
    case None => k.totalInventory == 0
  }

  lemma AddOne(cs: seq<Charge>, c: Charge, day: Day)
    ensures Covering(cs + [c], day) == Covering(cs, day) + CoverCount(c, day)
    ensures Revenue(cs + [c], day) == Revenue(cs, day) + if Covers(c, day) then Rate(c) else 0.0
    ensures Starting(cs + [c], day) == Starting(cs, day) + if c.start == day then 1 else 0
    ensures Ending(cs + [c], day) == Ending(cs, day) + if c.end == day then 1 else 0
  {
    assert (cs + [c])[..|cs|] == cs;
  }

  /** The charges handled when the contract loop has reached index i. */
  function ChargesUpTo(stays: seq<Stay>, contracts: seq<Contract>, i: nat): seq<Charge>
    requires i <= |contracts|
  {
    StayCharges(stays) + ContractCharges(contracts[..i])
  }

  lemma NoStays(stays: seq<Stay>, day: Day)
    ensures var cs := StayCharges(stays[..0]);
      Covering(cs, day) == 0 && Revenue(cs, day) == 0.0 && Starting(cs, day) == 0 && Ending(cs, day) == 0
    ensures stays[..|stays|] == stays
  {}

  lemma OneMoreStay(stays: seq<Stay>, i: nat, day: Day)
    requires i < |stays|
    ensures var cs, cs', c := StayCharges(stays[..i]), StayCharges(stays[..i + 1]), ChargeOfStay(stays[i]);
      && Covering(cs', day) == Covering(cs, day) + CoverCount(c, day)
      && Revenue(cs', day) == Revenue(cs, day) + (if Covers(c, day) then Rate(c) else 0.0)
      && Starting(cs', day) == Starting(cs, day) + (if c.start == day then 1 else 0)
      && Ending(cs', day) == Ending(cs, day) + (if c.end == day then 1 else 0)
  {
    assert stays[..i + 1][..i] == stays[..i];
    AddOne(StayCharges(stays[..i]), ChargeOfStay(stays[i]), day);
  }

  lemma NoContracts(stays: seq<Stay>, contracts: seq<Contract>)
    ensures ChargesUpTo(stays, contracts, 0) == StayCharges(stays) == Charges(stays, contracts, Temporal)
    ensures forall m: Modality :: m != Temporal ==>
      ChargesUpTo(stays, contracts, |contracts|) == Charges(stays, contracts, m)
  {
    assert contracts[..|contracts|] == contracts;
  }

  lemma OneMoreContract(stays: seq<Stay>, contracts: seq<Contract>, i: nat, day: Day)
    requires i < |contracts|
    ensures var cs, cs' := ChargesUpTo(stays, contracts, i), ChargesUpTo(stays, contracts, i + 1);
      if Running(contracts[i]) then
        var c := ChargeOfContract(contracts[i]);
        && Covering(cs', day) == Covering(cs, day) + CoverCount(c, day)
        && Revenue(cs', day) == Revenue(cs, day) + (if Covers(c, day) then Rate(c) else 0.0)
        && Starting(cs', day) == Starting(cs, day) + (if c.start == day then 1 else 0)
        && Ending(cs', day) == Ending(cs, day) + (if c.end == day then 1 else 0)
      else cs' == cs
  {
    assert contracts[..i + 1][..i] == contracts[..i];
    if Running(contracts[i]) {
      AddOne(ChargesUpTo(stays, contracts, i), ChargeOfContract(contracts[i]), day);
      assert ChargesUpTo(stays, contracts, i + 1)
          == ChargesUpTo(stays, contracts, i) + [ChargeOfContract(contracts[i])];
    }
  }

  method ComputeTodayKpis(stays: seq<Stay>, rows: seq<BookingRow>, contracts: seq<Contract>,
                          units: nat, flexInventory: nat, refDate: Day, modality: Modality)
    returns (kpis: TodayKpis)
    ensures var cs, inventory := Charges(stays, contracts, modality), Inventory(units, flexInventory, modality);
      && kpis.arrivals == Starting(cs, refDate) && kpis.departures == Ending(cs, refDate)
      && kpis.inHouse == Covering(cs, refDate)
      && kpis.pendingConfirmation == PendingRows(rows) + (if modality.Temporal? then 0 else PendingContracts(contracts))
      && kpis.totalInventory == inventory
      && kpis.occupancyPercent == (if inventory > 0 then Some(Percent(kpis.inHouse, inventory)) else None)
      && kpis.tomorrowArrivals == Starting(cs, refDate + 1) && kpis.tomorrowDepartures == Ending(cs, refDate + 1)
    ensures ShowsShare(kpis)
    ensures kpis.totalInventory == (match modality
      case Temporal => units
      case Flex => flexInventory
      case All => units + flexInventory)
  {
    hide StayCharges, Charges, ChargesUpTo, Covering, Revenue, Starting, Ending;
    var arrivals, departures, inHouse := 0, 0, 0;
    NoStays(stays, refDate);
    for i := 0 to |stays|
      invariant var cs := StayCharges(stays[..i]);
        arrivals == Starting(cs, refDate) && departures == Ending(cs, refDate) && inHouse == Covering(cs, refDate)
    {
      var b := stays[i];
      OneMoreStay(stays, i, refDate);
      if b.checkIn == refDate { arrivals := arrivals + 1; }
      if b.checkOut == refDate { departures := departures + 1; }
      if OverlapsNight(b.checkIn, b.checkOut, refDate) { inHouse := inHouse + 1; }
    }
    NoContracts(stays, contracts);
    if modality != Temporal {
      for i := 0 to |contracts|
        invariant var cs := ChargesUpTo(stays, contracts, i);
          arrivals == Starting(cs, refDate) && departures == Ending(cs, refDate) && inHouse == Covering(cs, refDate)
      {
        var c := contracts[i];
        OneMoreContract(stays, contracts, i, refDate);
        if Running(c) {
          if c.startDate == refDate { arrivals := arrivals + 1; }
          if c.endDate == refDate { departures := departures + 1; }
          if OverlapsNight(c.startDate, c.endDate, refDate) { inHouse := inHouse + 1; }
        }
      }
    }
    var pending := PendingRows(rows) + if modality != Temporal then PendingContracts(contracts) else 0;
    var inventory := Inventory(units, flexInventory, modality);
    var percent := if inventory > 0 then Some(Percent(inHouse, inventory)) else None;
    var cs := Charges(stays, contracts, modality);
    kpis := TodayKpis(arrivals, departures, inHouse, pending, percent, inventory,
                      Starting(cs, refDate + 1), Ending(cs, refDate + 1));
  }

  datatype ForecastDay = ForecastDay(
    date: Day, occupiedUnits: nat, blockedUnits: nat, totalUnits: nat, occupancyPercent: int, revenue: Cents,
    highOccupancy: bool)

  const HIGH_OCCUPANCY_THRESHOLD := 8500

  /** The forecast of a day from what is charged on it: the percentage in hundredths, the revenue to the cent. */
  function DayForecast(cs: seq<Charge>, blocks: seq<Block>, units: nat, day: Day): ForecastDay {
    var totalUnits := if units == 0 then 1 else units;
    var percent := Percent(Covering(cs, day), totalUnits);
    ForecastDay(day, Covering(cs, day), Blocking(blocks, day), totalUnits, percent, RoundReal(Revenue(cs, day)),
                percent >= HIGH_OCCUPANCY_THRESHOLD)
  }

  /** The share of the units occupied, in hundredths of one percent and to the nearest of them, and whether it reaches
      85 %; without units there is one. */
  predicate ShowsDay(d: ForecastDay, units: nat) {
    && d.totalUnits == (if units > 0 then units else 1)
    && 2 * Abs(10000 * d.occupiedUnits - d.totalUnits * d.occupancyPercent) <= d.totalUnits
    && (d.highOccupancy <==> d.occupancyPercent >= 8500)
  }

  lemma DayIsShown(cs: seq<Charge>, blocks: seq<Block>, units: nat, day: Day)
    ensures ShowsDay(DayForecast(cs, blocks, units, day), units)
  {
    hide Covering, Revenue, Blocking;
  }

  method BuildForecastDay(stays: seq<Stay>, contracts: seq<Contract>, blocks: seq<Block>, units: nat,
                          day: Day, modality: Modality)
    returns (r: ForecastDay)
    ensures r == DayForecast(Charges(stays, contracts, modality), blocks, units, day)
    ensures ShowsDay(r, units) && r.date == day && r.blockedUnits == Blocking(blocks, day)
    ensures var revenue := Revenue(Charges(stays, contracts, modality), day);
      r.revenue as real - 0.5 <= revenue < r.revenue as real + 0.5
  {
    hide StayCharges, Charges, ChargesUpTo, Covering, Revenue, Starting, Ending;
    var occupied, blocked, revenue := 0, 0, 0.0;
    NoStays(stays, day);
    for i := 0 to |stays|
      invariant var cs := StayCharges(stays[..i]); occupied == Covering(cs, day) && revenue == Revenue(cs, day)
    {
      var b := stays[i];
      OneMoreStay(stays, i, day);
      if OverlapsNight(b.checkIn, b.checkOut, day) {
        occupied := occupied + 1;
        var nights := if b.totalNights > 1 then b.totalNights else 1;
        revenue := revenue + b.totalAmount as real / nights as real;
      }
    }
    NoContracts(stays, contracts);
    if modality != Temporal {
      for i := 0 to |contracts|
        invariant var cs := ChargesUpTo(stays, contracts, i);
          occupied == Covering(cs, day) && revenue == Revenue(cs, day)
      {
        var c := contracts[i];
        OneMoreContract(stays, contracts, i, day);
        if Running(c) && OverlapsNight(c.startDate, c.endDate, day) {
          occupied := occupied + 1;
          var contractDays := if c.endDate - c.startDate > 1 then c.endDate - c.startDate else 1;
          revenue := revenue + c.totalAmount as real / contractDays as real;
        }
      }
    }
    for i := 0 to |blocks|
      invariant blocked == Blocking(blocks[..i], day)
    {
      assert blocks[..i + 1][..i] == blocks[..i];
      if OverlapsNight(blocks[i].startDate, blocks[i].endDate, day) { blocked := blocked + 1; }
    }
    assert blocks[..|blocks|] == blocks;
    var totalUnits := if units == 0 then 1 else units;
    var percent := Percent(occupied, totalUnits);
    r := ForecastDay(day, occupied, blocked, totalUnits, percent,
                     RoundReal(revenue), percent >= HIGH_OCCUPANCY_THRESHOLD);
    DayIsShown(Charges(stays, contracts, modality), blocks, units, day);
  }

  datatype Outlook = Outlook(occupancyPercent14d: int, revenue14d: Cents, days: seq<ForecastDay>)

  function PercentTotal(days: seq<ForecastDay>): int {
    if days == [] then 0 else PercentTotal(days[..|days| - 1]) + days[|days| - 1].occupancyPercent
  }

  function RevenueTotal(days: seq<ForecastDay>): Cents {
    if days == [] then 0 else RevenueTotal(days[..|days| - 1]) + days[|days| - 1].revenue
  }

  /** days are the forecasts of the days from the given one on. */
  ghost predicate Forecasts(days: seq<ForecastDay>, cs: seq<Charge>, blocks: seq<Block>, units: nat, from: Day) {
    forall i :: 0 <= i < |days| ==> days[i] == DayForecast(cs, blocks, units, from + i)
  }

  method BuildForecast(stays: seq<Stay>, contracts: seq<Contract>, blocks: seq<Block>, units: nat,
                       from: Day, count: nat, modality: Modality)
    returns (outlook: Outlook)
    ensures |outlook.days| == count
    ensures Forecasts(outlook.days, Charges(stays, contracts, modality), blocks, units, from)
    ensures forall d :: d in outlook.days ==> ShowsDay(d, units)
    ensures outlook.occupancyPercent14d == if count > 0 then MathRound(PercentTotal(outlook.days), count) else 0
    ensures outlook.revenue14d == RevenueTotal(outlook.days)
  {
    hide Charges, DayForecast, ShowsDay;
    var days: seq<ForecastDay> := [];
    for i := 0 to count
      invariant |days| == i && Forecasts(days, Charges(stays, contracts, modality), blocks, units, from)
      invariant forall d :: d in days ==> ShowsDay(d, units)
    {
      var day := BuildForecastDay(stays, contracts, blocks, units, from + i, modality);
      days := days + [day];
    }
    var percent := if count > 0 then MathRound(PercentTotal(days), count) else 0;
    outlook := Outlook(percent, RevenueTotal(days), days);
  }

  // ---------------------------------------------------------------- what one more stay adds

  lemma {:induction false} RevenueAppend(a: seq<Charge>, b: seq<Charge>, day: Day)
    ensures Revenue(a + b, day) == Revenue(a, day) + Revenue(b, day)
    ensures Covering(a + b, day) == Covering(a, day) + Covering(b, day)
    decreases |b|
  {
    if b == [] {
      assert a + b == a;
    } else {
      var k := |b| - 1;
      assert a + b == (a + b[..k]) + [b[k]];
      RevenueAppend(a, b[..k], day);
      AddOne(a + b[..k], b[k], day);
      AddOne(b[..k], b[k], day);
      assert b == b[..k] + [b[k]];
      hide Revenue, Covering;
    }
  }

  /** Nothing is occupied and nothing earned without stays. */
  lemma NothingStays(modality: Modality, day: Day)
    ensures var cs := Charges([], [], modality); Covering(cs, day) == 0 && Revenue(cs, day) == 0.0
  {}

  /** A block takes its unit from its first day until the day before its last. */
  lemma BlockAdds(blocks: seq<Block>, b: Block, day: Day)
    ensures Blocking([], day) == 0
    ensures Blocking(blocks + [b], day) == Blocking(blocks, day) + if b.startDate <= day < b.endDate then 1 else 0
  {
    assert (blocks + [b])[..|blocks|] == blocks;
  }

  /** A stay occupies one unit on each day from its check-in until the day before its check-out, and earns on each its
      total over its nights, of which there is at least one. */
  lemma StayAdds(stays: seq<Stay>, b: Stay, contracts: seq<Contract>, modality: Modality, day: Day)
    ensures var before, after := Charges(stays, contracts, modality), Charges(stays + [b], contracts, modality);
      var nights := if b.totalNights < 1 then 1 else b.totalNights;
      if b.checkIn <= day < b.checkOut
      then
        && Covering(after, day) == Covering(before, day) + 1
        && Revenue(after, day) == Revenue(before, day) + b.totalAmount as real / nights as real
      else Covering(after, day) == Covering(before, day) && Revenue(after, day) == Revenue(before, day)
  {
    var more := if modality.Temporal? then [] else ContractCharges(contracts);
    assert (stays + [b])[..|stays|] == stays;
    AddOne(StayCharges(stays), ChargeOfStay(b), day);
    RevenueAppend(StayCharges(stays), more, day);
    RevenueAppend(StayCharges(stays + [b]), more, day);
    hide Covering, Revenue, ContractCharges;
  }

  lemma OneMoreRunning(contracts: seq<Contract>, c: Contract)
    ensures ContractCharges(contracts + [c])
         == ContractCharges(contracts) + if Running(c) then [ChargeOfContract(c)] else []
  {
    assert (contracts + [c])[..|contracts|] == contracts;
  }

  /** A flex booking that is CONFIRMED or COMPLETED does so too, over the days of its contract, outside the temporal
      view; any other adds nothing. */
  lemma ContractAdds(stays: seq<Stay>, contracts: seq<Contract>, c: Contract, modality: Modality, day: Day)
    ensures var before, after := Charges(stays, contracts, modality), Charges(stays, contracts + [c], modality);
      var days := if c.endDate - c.startDate < 1 then 1 else c.endDate - c.startDate;
      if modality != Temporal && (c.status == FlexStatus.Confirmed || c.status == FlexStatus.Completed)
         && c.startDate <= day < c.endDate
      then
        && Covering(after, day) == Covering(before, day) + 1
        && Revenue(after, day) == Revenue(before, day) + c.totalAmount as real / days as real
      else Covering(after, day) == Covering(before, day) && Revenue(after, day) == Revenue(before, day)
  {
    hide Covering, Revenue, StayCharges, ContractCharges;
    OneMoreRunning(contracts, c);
    var before := Charges(stays, contracts, modality);
    if modality != Temporal && Running(c) {
      AddOne(before, ChargeOfContract(c), day);
      assert Charges(stays, contracts + [c], modality) == before + [ChargeOfContract(c)];
    } else {
      assert Charges(stays, contracts + [c], modality) == before;
    }
  }

  // ---------------------------------------------------------------- counting the same nights twice over

  /** The nights of a charge in [from, from + count). */
  function NightsInside(c: Charge, from: Day, count: nat): nat {
    Max(Min(c.end, from + count) - Max(c.start, from), 0)
  }

  function NightsTotal(cs: seq<Charge>, from: Day, count: nat): nat {
    if cs == [] then 0 else NightsTotal(cs[..|cs| - 1], from, count) + NightsInside(cs[|cs| - 1], from, count)
  }

  function Share(c: Charge, nights: nat): real {
    nights as real * Rate(c)
  }

  function ShareTotal(cs: seq<Charge>, from: Day, count: nat): real {
    if cs == [] then 0.0
    else ShareTotal(cs[..|cs| - 1], from, count) + Share(cs[|cs| - 1], NightsInside(cs[|cs| - 1], from, count))
  }

  function OccupiedTotal(days: seq<ForecastDay>): nat {
    if days == [] then 0 else OccupiedTotal(days[..|days| - 1]) + days[|days| - 1].occupiedUnits
  }

  /** The revenue of the first count days before any rounding. */
  function ExactRevenue(cs: seq<Charge>, from: Day, count: nat): real {
    if count == 0 then 0.0 else ExactRevenue(cs, from, count - 1) + Revenue(cs, from + count - 1)
  }

  /** One more day counts each charge that covers it once. */
  lemma {:induction false} OneMoreDay(cs: seq<Charge>, from: Day, count: nat)
    ensures NightsTotal(cs, from, count + 1) == NightsTotal(cs, from, count) + Covering(cs, from + count)
    ensures ShareTotal(cs, from, count + 1) == ShareTotal(cs, from, count) + Revenue(cs, from + count)
    decreases |cs|
  {
    if cs != [] {
      var c := cs[|cs| - 1];
      OneMoreDay(cs[..|cs| - 1], from, count);
      assert NightsInside(c, from, count + 1) == NightsInside(c, from, count) + CoverCount(c, from + count);
      OneMoreNight(c, NightsInside(c, from, count));
    }
  }

  lemma OneMoreNight(c: Charge, nights: nat)
    ensures Share(c, nights + 1) == Share(c, nights) + Rate(c)
  {}

  lemma {:induction false} NoDays(cs: seq<Charge>, from: Day)
    ensures NightsTotal(cs, from, 0) == 0 && ShareTotal(cs, from, 0) == 0.0
    decreases |cs|
  {
    if cs != [] {
      NoDays(cs[..|cs| - 1], from);
      assert NightsInside(cs[|cs| - 1], from, 0) == 0;
    }
  }

  /** Adding up the days of a forecast counts every night of every stay inside it once, charges every stay its rate
      for each of those nights, and strays from that revenue by half a cent a day at most. */
  lemma {:induction false} ForecastCountsNights(days: seq<ForecastDay>, cs: seq<Charge>, blocks: seq<Block>, units: nat,
                                                from: Day)
    requires Forecasts(days, cs, blocks, units, from)
    ensures OccupiedTotal(days) == NightsTotal(cs, from, |days|)
    ensures ExactRevenue(cs, from, |days|) == ShareTotal(cs, from, |days|)
    ensures var error := RevenueTotal(days) as real - ShareTotal(cs, from, |days|);
      -0.5 * |days| as real <= error <= 0.5 * |days| as real
    decreases |days|
  {
    if days == [] {
      NoDays(cs, from);
    } else {
      ForecastCountsNights(days[..|days| - 1], cs, blocks, units, from);
      OneMoreDay(cs, from, |days| - 1);
      hide NightsTotal, ShareTotal, Covering, Revenue;
    }
  }

  lemma ErrorsAddUp(u: int, k: int, occupied: int, percents: int, more: int, percent: int)
    requires 2 * Abs(10000 * occupied - u * percents) <= u * k
    requires 2 * Abs(10000 * more - u * percent) <= u
    ensures 2 * Abs(10000 * (occupied + more) - u * (percents + percent)) <= u * (k + 1)
  {
    assert u * (percents + percent) == u * percents + u * percent;
    assert u * (k + 1) == u * k + u;
  }

  /** The percentages of the days add up to the share of the units over the window, to half a hundredth a day. */
  lemma {:induction false} PercentsAddUp(days: seq<ForecastDay>, units: nat)
    requires forall d :: d in days ==> ShowsDay(d, units)
    ensures var u := if units > 0 then units else 1;
      2 * Abs(10000 * OccupiedTotal(days) - u * PercentTotal(days)) <= u * |days|
    decreases |days|
  {
    if days != [] {
      var k := |days| - 1;
      PercentsAddUp(days[..k], units);
      assert ShowsDay(days[k], units);
      ErrorsAddUp(if units > 0 then units else 1, k, OccupiedTotal(days[..k]), PercentTotal(days[..k]),
                  days[k].occupiedUnits, days[k].occupancyPercent);
    }
  }

  lemma Scale(u: nat, a: int, b: int)
    requires a <= b
    ensures u * a <= u * b
  {}

  lemma ErrorOfAverage(u: nat, n: nat, occupied: int, total: int, average: int)
    requires 2 * Abs(10000 * occupied - u * total) <= u * n
    requires -(n as int) <= 2 * (total - n * average) <= n
    ensures Abs(10000 * occupied - u * n * average) <= u * n
  {
    var d := total - n * average;
    Scale(u, -(n as int), 2 * d);
    Scale(u, 2 * d, n);
    assert u * d == u * total - u * n * average;
    assert u * (2 * d) == 2 * (u * d) && u * -(n as int) == -(u * n);
  }

  /** So the average shown is the share of all nights of the window that are occupied, to one hundredth of one
      percent. */
  lemma AverageIsShareOfNights(outlook: Outlook, cs: seq<Charge>, blocks: seq<Block>, units: nat, from: Day)
    requires outlook.days != [] && Forecasts(outlook.days, cs, blocks, units, from)
    requires outlook.occupancyPercent14d == MathRound(PercentTotal(outlook.days), |outlook.days|)
    requires forall d :: d in outlook.days ==> ShowsDay(d, units)
    ensures var u := if units > 0 then units else 1;
      Abs(10000 * NightsTotal(cs, from, |outlook.days|) - u * |outlook.days| * outlook.occupancyPercent14d)
      <= u * |outlook.days|
  {
    ForecastCountsNights(outlook.days, cs, blocks, units, from);
    PercentsAddUp(outlook.days, units);
    hide PercentTotal, OccupiedTotal, NightsTotal, ShareTotal, Forecasts, MathRound, Abs;
    ErrorOfAverage(if units > 0 then units else 1, |outlook.days|, OccupiedTotal(outlook.days),
                   PercentTotal(outlook.days), outlook.occupancyPercent14d);
  }

  /** A stay wholly inside the forecast contributes exactly its total when its stored night count is right; a stay
      that costs something contributes another amount when it is not. */
  lemma WholeStayPaysItsTotal(c: Charge, from: Day, count: nat)
    requires from <= c.start < c.end <= from + count && c.nights > 0
    ensures Share(c, NightsInside(c, from, count)) == c.total as real <==> c.nights == c.end - c.start || c.total == 0
  {
    var inside := NightsInside(c, from, count);
    assert inside == c.end - c.start;
    var n, t, q := c.nights as real, c.total as real, Rate(c);
    assert n * q == t;
    assert inside as real * q - t == (inside - c.nights) as real * q;
    if inside != c.nights && c.total != 0 {
      assert q != 0.0;
      assert (inside - c.nights) as real * q != 0.0;
    }
  }

  /** From one day to the next the house gains the arrivals of that day and loses its departures. */
  lemma {:induction false} HouseFlow(cs: seq<Charge>, day: Day)
    requires forall i :: 0 <= i < |cs| ==> cs[i].start <= cs[i].end
    ensures Covering(cs, day + 1) + Ending(cs, day + 1) == Covering(cs, day) + Starting(cs, day + 1)
    decreases |cs|
  {
    if cs != [] {
      HouseFlow(cs[..|cs| - 1], day);
    }
  }
}
