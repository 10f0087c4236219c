/** What the availability matrix adds up to: units, reservations, blocks and overbookings of each day. */
module MatrixTotals {
  import opened Common
  import opened Tables
  import opened Forecast
  import opened AvailabilityMatrix

  function ReservedTotal(stays: seq<Stay>, groups: seq<Group>, day: Day): nat {
    if groups == [] then 0
    else ReservedTotal(stays, groups[..|groups| - 1], day) + Reserved(stays, groups[|groups| - 1], day)
  }

  function BlockedTotal(blocks: seq<Block>, groups: seq<Group>, day: Day): nat {
    if groups == [] then 0
    else BlockedTotal(blocks, groups[..|groups| - 1], day) + Blocked(blocks, groups[|groups| - 1], day)
  }

  /** What the overbookings list reports for a day. */
  function DeficitOn(overbookings: seq<Overbooking>, day: Day): int {
    if overbookings == [] then 0
    else
      var last := overbookings[|overbookings| - 1];
      DeficitOn(overbookings[..|overbookings| - 1], day) + if last.date == day then last.deficit else 0
  }

  // ---------------------------------------------------------------- conservation

  lemma {:induction false} DeficitOnAppend(a: seq<Overbooking>, b: seq<Overbooking>, day: Day)
    ensures DeficitOn(a + b, day) == DeficitOn(a, day) + DeficitOn(b, day)
    decreases |b|
  {
    if b == [] {
      assert a + b == a;
    } else {
      assert (a + b)[..|a + b| - 1] == a + b[..|b| - 1];
      DeficitOnAppend(a, b[..|b| - 1], day);
    }
  }

  lemma OneDeficit(o: Overbooking, day: Day)
    ensures DeficitOn([o], day) == if o.date == day then o.deficit else 0
  {
    assert [o][..0] == [];
  }

  /** What the last day of a group adds to the deficit reported for a day. */
  lemma LastDeficit(stays: seq<Stay>, blocks: seq<Block>, g: Group, from: Day, n: nat, day: Day)
    requires n > 0
    ensures DeficitOn(OverbookingsIn(stays, blocks, g, from, n), day)
         == DeficitOn(OverbookingsIn(stays, blocks, g, from, n - 1), day)
            + if day == from + n - 1 then Max(DeficitOf(stays, blocks, g, day), 0) else 0
  {
    hide DeficitOn, DeficitOf;
    var deficit := DeficitOf(stays, blocks, g, from + n - 1);
    var before := OverbookingsIn(stays, blocks, g, from, n - 1);
    if deficit > 0 {
      var o := Overbooking(from + n - 1, g.name, deficit);
      assert OverbookingsIn(stays, blocks, g, from, n) == before + [o];
      DeficitOnAppend(before, [o], day);
      OneDeficit(o, day);
    } else {
      assert OverbookingsIn(stays, blocks, g, from, n) == before + [] == before;
    }
  }

  lemma NoDeficit(stays: seq<Stay>, blocks: seq<Block>, g: Group, from: Day, day: Day)
    ensures DeficitOn(OverbookingsIn(stays, blocks, g, from, 0), day) == 0
  {}

  lemma {:induction false} DeficitOfGroup(stays: seq<Stay>, blocks: seq<Block>, g: Group, from: Day, n: nat, i: nat)
    ensures DeficitOn(OverbookingsIn(stays, blocks, g, from, n), from + i)
         == if i < n then Max(DeficitOf(stays, blocks, g, from + i), 0) else 0
    decreases n
  {
    hide DeficitOn, OverbookingsIn, DeficitOf;
    if n == 0 {
      NoDeficit(stays, blocks, g, from, from + i);
    } else {
      DeficitOfGroup(stays, blocks, g, from, n - 1, i);
      LastDeficit(stays, blocks, g, from, n, from + i);
    }
  }

  /** One cell: what is available in a group, and the overbookings it reports for the day. */
  lemma RowBalances(row: Row, stays: seq<Stay>, blocks: seq<Block>, g: Group, from: Day, n: nat, i: nat)
    requires g.unitIds != [] && IsRow(row, stays, blocks, g, from, n) && i < n
    ensures |row.days| == n
    ensures row.days[i].available == |g.unitIds| - Reserved(stays, g, from + i) - Blocked(blocks, g, from + i)
                                     + DeficitOn(OverbookingsIn(stays, blocks, g, from, n), from + i)
  {
    DeficitOfGroup(stays, blocks, g, from, n, i);
    assert row.days[i] == CellOf(stays, blocks, g, from + i);
  }

  /** One row for each group, none of them empty. */
  ghost predicate AreRows(rows: seq<Row>, stays: seq<Stay>, blocks: seq<Block>, groups: seq<Group>, from: Day, n: nat) {
    && |rows| == |groups|
    && (forall r :: r in rows ==> |r.days| == n)
    && forall g :: 0 <= g < |groups| ==> groups[g].unitIds != [] && IsRow(rows[g], stays, blocks, groups[g], from, n)
  }

  lemma AreRowsSplit(rows: seq<Row>, stays: seq<Stay>, blocks: seq<Block>, groups: seq<Group>, from: Day, n: nat)
    requires AreRows(rows, stays, blocks, groups, from, n) && groups != []
    ensures var k := |groups| - 1;
      && AreRows(rows[..k], stays, blocks, groups[..k], from, n)
      && groups[k].unitIds != [] && IsRow(rows[k], stays, blocks, groups[k], from, n)
  {}

  lemma DeficitsSplit(stays: seq<Stay>, blocks: seq<Block>, groups: seq<Group>, from: Day, n: nat, day: Day)
    requires groups != []
    ensures var k := |groups| - 1;
      DeficitOn(Overbookings(stays, blocks, groups, from, n), day)
      == DeficitOn(Overbookings(stays, blocks, groups[..k], from, n), day)
         + DeficitOn(OverbookingsIn(stays, blocks, groups[k], from, n), day)
  {
    var k := |groups| - 1;
    DeficitOnAppend(Overbookings(stays, blocks, groups[..k], from, n),
                    OverbookingsIn(stays, blocks, groups[k], from, n), day);
  }

  /** On every day, the units available are the units, less the reserved and the blocked ones, plus the overbooking
      deficits reported for that day: overbooked units are never taken from another group. */
  lemma {:induction false} UnitsAreConserved(stays: seq<Stay>, blocks: seq<Block>, groups: seq<Group>, rows: seq<Row>,
                                             from: Day, n: nat, i: nat)
    requires AreRows(rows, stays, blocks, groups, from, n) && i < n
    ensures AvailableOn(rows, i)
         == Size(groups) - ReservedTotal(stays, groups, from + i) - BlockedTotal(blocks, groups, from + i)
            + DeficitOn(Overbookings(stays, blocks, groups, from, n), from + i)
    decreases |groups|
  {
    if groups != [] {
      var k := |groups| - 1;
      AreRowsSplit(rows, stays, blocks, groups, from, n);
      UnitsAreConserved(stays, blocks, groups[..k], rows[..k], from, n, i);
      RowBalances(rows[k], stays, blocks, groups[k], from, n, i);
      DeficitsSplit(stays, blocks, groups, from, n, from + i);
      hide IsRow, Reserved, Blocked, OverbookingsIn, Overbookings, DeficitOn;
    }
  }

  /** The same for a matrix of listed units, in terms of the units themselves. */
  lemma MatrixConservesUnits(stays: seq<Stay>, units: seq<Unit>, blocks: seq<Block>, rows: seq<Row>, summary: seq<nat>,
                             from: Day, n: nat, i: nat)
    requires units != [] && DistinctUnits(units) && i < n
    requires |rows| == |GroupsOf(units)| && forall r :: r in rows ==> |r.days| == n
    requires forall g :: 0 <= g < |rows| ==> IsRow(rows[g], stays, blocks, GroupsOf(units)[g], from, n)
    requires |summary| == n && summary[i] == AvailableOn(rows, i)
    ensures var groups := GroupsOf(units);
      summary[i] == |units| - ReservedTotal(stays, groups, from + i) - BlockedTotal(blocks, groups, from + i)
                    + DeficitOn(Overbookings(stays, blocks, groups, from, n), from + i)
  {
    GroupsPartitionUnits(units);
    assert AreRows(rows, stays, blocks, GroupsOf(units), from, n);
    UnitsAreConserved(stays, blocks, GroupsOf(units), rows, from, n, i);
  }

  /** Without units the matrix still shows one: a 'general' row that stays without a unit fill up. */
  lemma NoUnitsShowOne(stays: seq<Stay>, blocks: seq<Block>, day: Day)
    ensures var g := Group(GENERAL, "General", []);
      && TotalUnits(g) == 1 && Blocked(blocks, g, day) == 0 && Reserved(stays, g, day) == Unassigned(stays, day)
      && CellOf(stays, blocks, g, day).available == (if Unassigned(stays, day) == 0 then 1 else 0)
  {
    var g := Group(GENERAL, "General", []);
    NothingBlocked(blocks, g, day);
    OnlyUnassigned(stays, g, day);
  }

  lemma {:induction false} NothingBlocked(blocks: seq<Block>, g: Group, day: Day)
    requires g.unitIds == []
    ensures Blocked(blocks, g, day) == 0
    decreases |blocks|
  {
    if blocks != [] {
      NothingBlocked(blocks[..|blocks| - 1], g, day);
    }
  }

  lemma {:induction false} OnlyUnassigned(stays: seq<Stay>, g: Group, day: Day)
    requires g.unitIds == [] && g.key == GENERAL
    ensures Reserved(stays, g, day) == Unassigned(stays, day)
    decreases |stays|
  {
    if stays != [] {
      OnlyUnassigned(stays[..|stays| - 1], g, day);
    }
  }

  // ---------------------------------------------------------------- reservations are counted once

  /** The stays on a day that have a unit among the given groups. */
  function Assigned(stays: seq<Stay>, groups: seq<Group>, day: Day): nat {
    if stays == [] then 0
    else
      var b := stays[|stays| - 1];
      Assigned(stays[..|stays| - 1], groups, day)
      + if OverlapsNight(b.checkIn, b.checkOut, day) && b.unitId.Some? && Grouped(groups, b.unitId.value) then 1 else 0
  }

  function Unassigned(stays: seq<Stay>, day: Day): nat {
    if stays == [] then 0
    else
      var b := stays[|stays| - 1];
      Unassigned(stays[..|stays| - 1], day)
      + if OverlapsNight(b.checkIn, b.checkOut, day) && b.unitId == None then 1 else 0
  }

  predicate HasKey(groups: seq<Group>, key: string) {
    exists j :: 0 <= j < |groups| && groups[j].key == key
  }

  /** In how many groups a stay counts. */
  function Hits(groups: seq<Group>, b: Stay): nat {
    if groups == [] then 0 else Hits(groups[..|groups| - 1], b) + if CountsIn(b, groups[|groups| - 1]) then 1 else 0
  }

  /** A stay counts once if its unit is listed, or if it has none and there is a 'general' group; never twice. */
  lemma {:induction false} HitsOnce(groups: seq<Group>, b: Stay)
    requires DistinctKeys(groups) && Apart(groups)
    ensures Hits(groups, b)
         == if b.unitId.Some? then (if Grouped(groups, b.unitId.value) then 1 else 0)
            else if HasKey(groups, GENERAL) then 1 else 0
    decreases |groups|
  {
    if groups != [] {
      var k := |groups| - 1;
      var rest := groups[..k];
      assert forall i, j, id :: 0 <= i < j < |rest| && id in rest[i].unitIds ==>
        id in groups[i].unitIds && id !in groups[j].unitIds;
      HitsOnce(rest, b);
      assert forall j :: 0 <= j < k ==> rest[j] == groups[j];
      if b.unitId.Some? {
        var id := b.unitId.value;
        if id in groups[k].unitIds {
          assert forall j :: 0 <= j < k ==> id !in groups[j].unitIds;
          assert !Grouped(rest, id);
        } else {
          assert Grouped(groups, id) <==> Grouped(rest, id);
        }
      } else {
        if groups[k].key == GENERAL {
          assert !HasKey(rest, GENERAL);
        } else {
          assert HasKey(groups, GENERAL) <==> HasKey(rest, GENERAL);
        }
      }
    }
  }

  /** One more stay is reserved in each group it counts in. */
  lemma {:induction false} ReservedOneMore(stays: seq<Stay>, b: Stay, groups: seq<Group>, day: Day)
    ensures ReservedTotal(stays + [b], groups, day)
         == ReservedTotal(stays, groups, day) + if OverlapsNight(b.checkIn, b.checkOut, day) then Hits(groups, b) else 0
    decreases |groups|
  {
    if groups != [] {
      ReservedOneMore(stays, b, groups[..|groups| - 1], day);
      assert (stays + [b])[..|stays|] == stays;
    }
  }

  lemma {:induction false} NothingReserved(groups: seq<Group>, day: Day)
    ensures ReservedTotal([], groups, day) == 0
    decreases |groups|
  {
    if groups != [] {
      NothingReserved(groups[..|groups| - 1], day);
    }
  }

  /** The reservations of a day over all groups are the stays on a listed unit, each once, and the stays without a unit
      exactly when some group is keyed 'general'. */
  lemma {:induction false} ReservedOnce(stays: seq<Stay>, groups: seq<Group>, day: Day)
    requires DistinctKeys(groups) && Apart(groups)
    ensures ReservedTotal(stays, groups, day)
         == Assigned(stays, groups, day) + if HasKey(groups, GENERAL) then Unassigned(stays, day) else 0
    decreases |stays|
  {
    if stays == [] {
      NothingReserved(groups, day);
    } else {
      var k := |stays| - 1;
      hide Apart, DistinctKeys, Grouped, HasKey, Hits, ReservedTotal;
      ReservedOnce(stays[..k], groups, day);
      ReservedOneMore(stays[..k], stays[k], groups, day);
      HitsOnce(groups, stays[k]);
      assert stays[..k] + [stays[k]] == stays;
    }
  }

  // ---------------------------------------------------------------- in terms of the units and the stays

  predicate IsListed(units: seq<Unit>, id: Id) {
    exists i :: 0 <= i < |units| && units[i].id == id
  }

  /** The stays on a day that have a listed unit. */
  function OnListedUnits(stays: seq<Stay>, units: seq<Unit>, day: Day): nat {
    if stays == [] then 0
    else
      var b := stays[|stays| - 1];
      OnListedUnits(stays[..|stays| - 1], units, day)
      + if OverlapsNight(b.checkIn, b.checkOut, day) && b.unitId.Some? && IsListed(units, b.unitId.value) then 1 else 0
  }

  function BlocksOnListedUnits(blocks: seq<Block>, units: seq<Unit>, day: Day): nat {
    if blocks == [] then 0
    else
      var b := blocks[|blocks| - 1];
      BlocksOnListedUnits(blocks[..|blocks| - 1], units, day)
      + if OverlapsNight(b.startDate, b.endDate, day) && IsListed(units, b.unitId) then 1 else 0
  }

  /** Some unit has the key of the general group. */
  predicate HasGeneralUnit(units: seq<Unit>) {
    exists i :: 0 <= i < |units| && KeyOf(units[i]) == GENERAL
  }

  lemma {:induction false} AssignedAreOnListed(stays: seq<Stay>, groups: seq<Group>, units: seq<Unit>, day: Day)
    requires forall id :: Grouped(groups, id) <==> IsListed(units, id)
    ensures Assigned(stays, groups, day) == OnListedUnits(stays, units, day)
    decreases |stays|
  {
    if stays != [] {
      AssignedAreOnListed(stays[..|stays| - 1], groups, units, day);
    }
  }

  /** A block as a stay on its unit. */
  function BlockStay(b: Block): Stay {
    Stay(b.startDate, b.endDate, 0, 0, Some(b.unitId))
  }

  lemma {:induction false} BlockedOneMore(blocks: seq<Block>, b: Block, groups: seq<Group>, day: Day)
    ensures BlockedTotal(blocks + [b], groups, day)
         == BlockedTotal(blocks, groups, day)
            + if OverlapsNight(b.startDate, b.endDate, day) then Hits(groups, BlockStay(b)) else 0
    decreases |groups|
  {
    if groups != [] {
      BlockedOneMore(blocks, b, groups[..|groups| - 1], day);
      assert (blocks + [b])[..|blocks|] == blocks;
    }
  }

  lemma {:induction false} NothingBlockedInAll(groups: seq<Group>, day: Day)
    ensures BlockedTotal([], groups, day) == 0
    decreases |groups|
  {
    if groups != [] {
      NothingBlockedInAll(groups[..|groups| - 1], day);
    }
  }

  /** The blocks of a day over all groups are those on a listed unit, each once. */
  lemma {:induction false} BlockedOnce(blocks: seq<Block>, groups: seq<Group>, units: seq<Unit>, day: Day)
    requires DistinctKeys(groups) && Apart(groups) && forall id :: Grouped(groups, id) <==> IsListed(units, id)
    ensures BlockedTotal(blocks, groups, day) == BlocksOnListedUnits(blocks, units, day)
    decreases |blocks|
  {
    if blocks == [] {
      NothingBlockedInAll(groups, day);
    } else {
      var k := |blocks| - 1;
      hide Apart, DistinctKeys, HasKey, Hits, BlockedTotal;
      BlockedOnce(blocks[..k], groups, units, day);
      BlockedOneMore(blocks[..k], blocks[k], groups, day);
      HitsOnce(groups, BlockStay(blocks[k]));
      assert Grouped(groups, blocks[k].unitId) <==> IsListed(units, blocks[k].unitId);
      assert blocks[..k] + [blocks[k]] == blocks;
      hide Grouped, IsListed;
    }
  }

  lemma GeneralGroup(units: seq<Unit>)
    ensures HasKey(GroupsOf(units), GENERAL) <==> HasGeneralUnit(units)
  {
    var groups := GroupsOf(units);
    GroupsPartition(units);
    if HasKey(groups, GENERAL) {
      var j :| 0 <= j < |groups| && groups[j].key == GENERAL;
      assert groups[j].unitIds[0] in groups[j].unitIds;
      assert IsUnit(units, groups[j].unitIds[0], GENERAL);
    }
    if i :| 0 <= i < |units| && KeyOf(units[i]) == GENERAL {
      assert HasUnit(groups, units[i]);
    }
  }

  lemma ListedAreGrouped(units: seq<Unit>)
    requires DistinctUnits(units)
    ensures forall id :: Grouped(GroupsOf(units), id) <==> IsListed(units, id)
  {
    GroupsPartitionUnits(units);
  }

  lemma GroupsAreApart(units: seq<Unit>)
    requires DistinctUnits(units)
    ensures DistinctKeys(GroupsOf(units)) && Apart(GroupsOf(units))
  {
    GroupsPartitionUnits(units);
  }

  lemma ReservedByUnits(stays: seq<Stay>, units: seq<Unit>, day: Day)
    requires DistinctUnits(units)
    ensures ReservedTotal(stays, GroupsOf(units), day)
         == OnListedUnits(stays, units, day) + if HasGeneralUnit(units) then Unassigned(stays, day) else 0
  {
    hide GroupsOf, DistinctUnits, DistinctKeys, Apart, Grouped, IsListed, HasKey, HasGeneralUnit;
    GroupsAreApart(units);
    ListedAreGrouped(units);
    GeneralGroup(units);
    ReservedOnce(stays, GroupsOf(units), day);
    AssignedAreOnListed(stays, GroupsOf(units), units, day);
  }

  lemma BlockedByUnits(blocks: seq<Block>, units: seq<Unit>, day: Day)
    requires DistinctUnits(units)
    ensures BlockedTotal(blocks, GroupsOf(units), day) == BlocksOnListedUnits(blocks, units, day)
  {
    hide GroupsOf, DistinctUnits, DistinctKeys, Apart, Grouped, IsListed;
    GroupsAreApart(units);
    ListedAreGrouped(units);
    BlockedOnce(blocks, GroupsOf(units), units, day);
  }

  /** What is available on a day: the listed units, less the stays and the blocks on them, each once, less the stays
      without a unit when some unit is filed under 'general', plus the deficits reported. */
  lemma AvailabilityOfDay(stays: seq<Stay>, units: seq<Unit>, blocks: seq<Block>, rows: seq<Row>, summary: seq<nat>,
                          from: Day, n: nat, i: nat)
    requires units != [] && DistinctUnits(units) && i < n
    requires |rows| == |GroupsOf(units)| && forall r :: r in rows ==> |r.days| == n
    requires forall g :: 0 <= g < |rows| ==> IsRow(rows[g], stays, blocks, GroupsOf(units)[g], from, n)
    requires |summary| == n && summary[i] == AvailableOn(rows, i)
    ensures summary[i] == |units| - OnListedUnits(stays, units, from + i)
                          - (if HasGeneralUnit(units) then Unassigned(stays, from + i) else 0)
                          - BlocksOnListedUnits(blocks, units, from + i)
                          + DeficitOn(Overbookings(stays, blocks, GroupsOf(units), from, n), from + i)
  {
    hide GroupsOf, DistinctUnits, HasGeneralUnit, IsRow, AvailableOn, OnListedUnits, BlocksOnListedUnits;
    MatrixConservesUnits(stays, units, blocks, rows, summary, from, n, i);
    ReservedByUnits(stays, units, from + i);
    BlockedByUnits(blocks, units, from + i);
  }
}
