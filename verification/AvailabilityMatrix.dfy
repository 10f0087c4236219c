/** The availability matrix of the admin dashboard: units grouped by room type, one cell for each group and day. */
module AvailabilityMatrix {
  import opened Common
  import opened Tables
  import opened Forecast

  datatype Unit = Unit(id: Id, name: string, roomTypeId: Option<string>)

  datatype Group = Group(key: string, name: string, unitIds: seq<Id>)

  const GENERAL := "general"

  function KeyOf(u: Unit): string {
    if u.roomTypeId.Some? then u.roomTypeId.value else u.name
  }

  // ---------------------------------------------------------------- groups, in the order of their first unit

  function Find(groups: seq<Group>, key: string): (r: Option<nat>)
    ensures r.Some? ==> r.value < |groups| && groups[r.value].key == key
    ensures r == None ==> forall j :: 0 <= j < |groups| ==> groups[j].key != key
  {
    if groups == [] then None
    else if groups[|groups| - 1].key == key then Some(|groups| - 1)
    else Find(groups[..|groups| - 1], key)
  }

  function AddUnit(groups: seq<Group>, u: Unit): seq<Group> {
    match Find(groups, KeyOf(u))
    case Some(j) => groups[j := groups[j].(unitIds := groups[j].unitIds + [u.id])]
    case None => groups + [Group(KeyOf(u), u.name, [u.id])]
  }

  function GroupsOf(units: seq<Unit>): seq<Group> {
    if units == [] then [] else AddUnit(GroupsOf(units[..|units| - 1]), units[|units| - 1])
  }

  /** The body of the grouping loop: a new group when the key is not there yet, then the unit into its group. */
  method PutUnit(before: seq<Group>, u: Unit) returns (groups: seq<Group>)
    ensures groups == AddUnit(before, u)
  {
    groups := before;
    var key := KeyOf(u);
    if Find(groups, key) == None {
      groups := groups + [Group(key, u.name, [])];
      assert Find(groups, key) == Some(|before|);
    }
    var j := Find(groups, key).value;
    groups := groups[j := groups[j].(unitIds := groups[j].unitIds + [u.id])];
    assert [] + [u.id] == [u.id];
  }

  method GroupUnits(units: seq<Unit>) returns (groups: seq<Group>)
    ensures groups == if units == [] then [Group(GENERAL, "General", [])] else GroupsOf(units)
  {
    groups := [];
    for i := 0 to |units|
      invariant groups == GroupsOf(units[..i])
    {
      assert units[..i + 1][..i] == units[..i];
      groups := PutUnit(groups, units[i]);
    }
    assert units[..|units|] == units;
    if |groups| == 0 {
      EveryUnitGrouped(units);
      groups := [Group(GENERAL, "General", [])];
    } else {
      EveryUnitGrouped(units);
    }
  }

  function Size(groups: seq<Group>): nat {
    if groups == [] then 0 else Size(groups[..|groups| - 1]) + |groups[|groups| - 1].unitIds|
  }

  ghost predicate DistinctKeys(groups: seq<Group>) {
    forall i, j :: 0 <= i < j < |groups| ==> groups[i].key != groups[j].key
  }

  ghost predicate DistinctUnits(units: seq<Unit>) {
    forall i, j :: 0 <= i < j < |units| ==> units[i].id != units[j].id
  }

  /** The unit ids of different groups differ. */
  ghost predicate Apart(groups: seq<Group>) {
    forall i, j, id :: 0 <= i < j < |groups| && id in groups[i].unitIds ==> id !in groups[j].unitIds
  }

  predicate IsUnit(units: seq<Unit>, id: Id, key: string) {
    exists i :: 0 <= i < |units| && units[i].id == id && KeyOf(units[i]) == key
  }

  predicate Grouped(groups: seq<Group>, id: Id) {
    exists j :: 0 <= j < |groups| && id in groups[j].unitIds
  }

  lemma {:induction false} SizeOfUpdate(groups: seq<Group>, j: nat, g: Group)
    requires j < |groups|
    ensures Size(groups[j := g]) == Size(groups) - |groups[j].unitIds| + |g.unitIds|
    decreases |groups|
  {
    var n := |groups| - 1;
    if j == n {
      assert groups[j := g][..n] == groups[..n];
    } else {
      assert groups[j := g][..n] == groups[..n][j := g];
      SizeOfUpdate(groups[..n], j, g);
    }
  }

  lemma SizeOfAdd(groups: seq<Group>, u: Unit)
    ensures Size(AddUnit(groups, u)) == Size(groups) + 1
  {
    match Find(groups, KeyOf(u))
    case Some(j) => SizeOfUpdate(groups, j, AddUnit(groups, u)[j]);
    case None => assert (groups + [Group(KeyOf(u), u.name, [u.id])])[..|groups|] == groups;
  }

  /** Every id in a group is that of a unit with its key. */
  ghost predicate OnlyUnits(groups: seq<Group>, units: seq<Unit>) {
    forall j, id :: 0 <= j < |groups| && id in groups[j].unitIds ==> IsUnit(units, id, groups[j].key)
  }

  predicate HasUnit(groups: seq<Group>, u: Unit) {
    exists j :: 0 <= j < |groups| && groups[j].key == KeyOf(u) && u.id in groups[j].unitIds
  }

  ghost predicate NoneEmpty(groups: seq<Group>) {
    forall j :: 0 <= j < |groups| ==> groups[j].unitIds != []
  }

  /** What grouping keeps, unit by unit: the ids in a group are exactly those of the units with its key. */
  ghost predicate Partition(groups: seq<Group>, units: seq<Unit>) {
    && DistinctKeys(groups) && NoneEmpty(groups) && OnlyUnits(groups, units)
    && forall i :: 0 <= i < |units| ==> HasUnit(groups, units[i])
  }

  /** What adding a unit makes of the groups: one group gains the unit, or is new and holds it alone. */
  ghost predicate Adds(groups: seq<Group>, u: Unit, groups': seq<Group>, at: nat) {
    && at < |groups'| && groups'[at].key == KeyOf(u)
    && if at < |groups|
       then |groups'| == |groups| && groups'[at].unitIds == groups[at].unitIds + [u.id] && groups[at].key == KeyOf(u)
            && forall j :: 0 <= j < |groups| && j != at ==> groups'[j] == groups[j]
       else at == |groups| && |groups'| == |groups| + 1 && groups'[at].unitIds == [u.id]
            && forall j :: 0 <= j < |groups| ==> groups'[j] == groups[j] && groups[j].key != KeyOf(u)
  }

  lemma AddUnitAdds(groups: seq<Group>, u: Unit) returns (at: nat)
    ensures Adds(groups, u, AddUnit(groups, u), at)
  {
    at := if Find(groups, KeyOf(u)).Some? then Find(groups, KeyOf(u)).value else |groups|;
  }

  lemma AddsKeepsKeys(groups: seq<Group>, u: Unit, groups': seq<Group>, at: nat)
    requires Adds(groups, u, groups', at) && DistinctKeys(groups) && NoneEmpty(groups)
    ensures DistinctKeys(groups') && NoneEmpty(groups')
  {}

  lemma UnitsGrow(units: seq<Unit>, u: Unit, id: Id, key: string)
    ensures IsUnit(units, id, key) ==> IsUnit(units + [u], id, key)
    ensures IsUnit(units + [u], u.id, KeyOf(u))
  {
    var units' := units + [u];
    assert units'[|units|] == u;
    if i :| 0 <= i < |units| && units[i].id == id && KeyOf(units[i]) == key {
      assert units'[i] == units[i];
    }
  }

  lemma AddsOnlyUnits(groups: seq<Group>, units: seq<Unit>, u: Unit, groups': seq<Group>, at: nat)
    requires Adds(groups, u, groups', at) && OnlyUnits(groups, units)
    ensures OnlyUnits(groups', units + [u])
  {
    hide IsUnit;
    forall j, id | 0 <= j < |groups'| && id in groups'[j].unitIds ensures IsUnit(units + [u], id, groups'[j].key) {
      UnitsGrow(units, u, id, groups'[j].key);
    }
  }

  lemma AddsHasUnits(groups: seq<Group>, u: Unit, groups': seq<Group>, at: nat, v: Unit)
    requires Adds(groups, u, groups', at)
    ensures HasUnit(groups, v) ==> HasUnit(groups', v)
    ensures HasUnit(groups', u)
  {
    assert u.id in groups'[at].unitIds;
    if j :| 0 <= j < |groups| && groups[j].key == KeyOf(v) && v.id in groups[j].unitIds {
      assert groups'[j].key == KeyOf(v) && v.id in groups'[j].unitIds;
    }
  }

  lemma PartitionExtends(groups: seq<Group>, units: seq<Unit>, u: Unit)
    requires Partition(groups, units)
    ensures Partition(AddUnit(groups, u), units + [u])
  {
    hide AddUnit, Adds, OnlyUnits, HasUnit, DistinctKeys, NoneEmpty;
    var at := AddUnitAdds(groups, u);
    AddsKeepsKeys(groups, u, AddUnit(groups, u), at);
    AddsOnlyUnits(groups, units, u, AddUnit(groups, u), at);
    forall i | 0 <= i < |units + [u]| ensures HasUnit(AddUnit(groups, u), (units + [u])[i]) {
      AddsHasUnits(groups, u, AddUnit(groups, u), at, (units + [u])[i]);
    }
  }

  lemma NothingPartitioned()
    ensures Partition([], [])
  {}

  lemma {:induction false} GroupsPartition(units: seq<Unit>)
    ensures Partition(GroupsOf(units), units)
    decreases |units|
  {
    hide Partition, AddUnit;
    if units == [] {
      NothingPartitioned();
    } else {
      var n := |units| - 1;
      GroupsPartition(units[..n]);
      PartitionExtends(GroupsOf(units[..n]), units[..n], units[n]);
      assert units[..n] + [units[n]] == units;
    }
  }

  lemma {:induction false} EveryUnitGrouped(units: seq<Unit>)
    ensures Size(GroupsOf(units)) == |units|
    decreases |units|
  {
    if units != [] {
      EveryUnitGrouped(units[..|units| - 1]);
      SizeOfAdd(GroupsOf(units[..|units| - 1]), units[|units| - 1]);
    }
  }

  /** Units with distinct ids: every unit is in exactly one group, and the sizes of the groups add up to the units. */
  lemma GroupsPartitionUnits(units: seq<Unit>)
    requires DistinctUnits(units)
    ensures var groups := GroupsOf(units);
      && DistinctKeys(groups) && Apart(groups) && Size(groups) == |units|
      && (forall j :: 0 <= j < |groups| ==> groups[j].unitIds != [])
      && (forall id :: Grouped(groups, id) <==> exists i :: 0 <= i < |units| && units[i].id == id)
  {
    GroupsPartition(units);
    EveryUnitGrouped(units);
    PartitionApart(GroupsOf(units), units);
    PartitionGroups(GroupsOf(units), units);
  }

  lemma PartitionApart(groups: seq<Group>, units: seq<Unit>)
    requires Partition(groups, units) && DistinctUnits(units)
    ensures Apart(groups)
  {
    forall i, j, id | 0 <= i < j < |groups| && id in groups[i].unitIds ensures id !in groups[j].unitIds {
      assert IsUnit(units, id, groups[i].key);
      assert groups[i].key != groups[j].key;
      assert !IsUnit(units, id, groups[j].key);
    }
  }

  lemma PartitionGroups(groups: seq<Group>, units: seq<Unit>)
    requires Partition(groups, units)
    ensures forall id :: Grouped(groups, id) <==> exists i :: 0 <= i < |units| && units[i].id == id
  {
    forall id | Grouped(groups, id) ensures exists i :: 0 <= i < |units| && units[i].id == id {
      var j :| 0 <= j < |groups| && id in groups[j].unitIds;
      assert IsUnit(units, id, groups[j].key);
    }
    forall i | 0 <= i < |units| ensures Grouped(groups, units[i].id) {
      assert HasUnit(groups, units[i]);
    }
  }

  // ---------------------------------------------------------------- cells

  /** A stay counts in the group of its unit; one without a unit counts in the group keyed 'general'. */
  predicate CountsIn(b: Stay, g: Group) {
    if b.unitId.Some? then b.unitId.value in g.unitIds else g.key == GENERAL
  }

  function Reserved(stays: seq<Stay>, g: Group, day: Day): nat {
    if stays == [] then 0
    else
      var b := stays[|stays| - 1];
      Reserved(stays[..|stays| - 1], g, day)
      + if OverlapsNight(b.checkIn, b.checkOut, day) && CountsIn(b, g) then 1 else 0
  }

  function Blocked(blocks: seq<Block>, g: Group, day: Day): nat {
    if blocks == [] then 0
    else
      var b := blocks[|blocks| - 1];
      Blocked(blocks[..|blocks| - 1], g, day)
      + if OverlapsNight(b.startDate, b.endDate, day) && b.unitId in g.unitIds then 1 else 0
  }

  function TotalUnits(g: Group): nat {
    Max(|g.unitIds|, 1)
  }

  datatype Cell = Cell(date: Day, available: nat, reserved: nat, blocked: nat, isSoldOut: bool)

  function CellOf(stays: seq<Stay>, blocks: seq<Block>, g: Group, day: Day): Cell {
    var reserved, blocked := Reserved(stays, g, day), Blocked(blocks, g, day);
    var available := Max(TotalUnits(g) - reserved - blocked, 0);
    Cell(day, available, reserved, blocked, available == 0)
  }

  function DeficitOf(stays: seq<Stay>, blocks: seq<Block>, g: Group, day: Day): int {
    Reserved(stays, g, day) + Blocked(blocks, g, day) - TotalUnits(g)
  }

  datatype Overbooking = Overbooking(date: Day, unitTypeName: string, deficit: int)

  datatype Row = Row(unitTypeName: string, unitTypeKey: string, totalUnits: nat, days: seq<Cell>)

  /** The overbookings of one group over the first n days. */
  function OverbookingsIn(stays: seq<Stay>, blocks: seq<Block>, g: Group, from: Day, n: nat): seq<Overbooking> {
    if n == 0 then []
    else
      var day := from + n - 1;
      var deficit := DeficitOf(stays, blocks, g, day);
      OverbookingsIn(stays, blocks, g, from, n - 1) + if deficit > 0 then [Overbooking(day, g.name, deficit)] else []
  }

  function Overbookings(stays: seq<Stay>, blocks: seq<Block>, groups: seq<Group>, from: Day, n: nat): seq<Overbooking> {
    if groups == [] then []
    else
      Overbookings(stays, blocks, groups[..|groups| - 1], from, n)
      + OverbookingsIn(stays, blocks, groups[|groups| - 1], from, n)
  }

  ghost predicate IsRow(row: Row, stays: seq<Stay>, blocks: seq<Block>, g: Group, from: Day, n: nat) {
    && row.unitTypeName == g.name && row.unitTypeKey == g.key && row.totalUnits == TotalUnits(g)
    && |row.days| == n
    && forall i :: 0 <= i < n ==> row.days[i] == CellOf(stays, blocks, g, from + i)
  }

  method BuildCell(stays: seq<Stay>, blocks: seq<Block>, group: Group, day: Day) returns (cell: Cell, deficit: int)
    ensures cell == CellOf(stays, blocks, group, day)
    ensures deficit == DeficitOf(stays, blocks, group, day)
  {
    var totalUnits := Max(|group.unitIds|, 1);
    var reserved, blocked := 0, 0;
    for i := 0 to |stays|
      invariant reserved == Reserved(stays[..i], group, day)
    {
      assert stays[..i + 1][..i] == stays[..i];
      var b := stays[i];
      if OverlapsNight(b.checkIn, b.checkOut, day) {
        if b.unitId.Some? && b.unitId.value in group.unitIds {
          reserved := reserved + 1;
        } else if b.unitId == None && group.key == GENERAL {
          reserved := reserved + 1;
        }
      }
    }
    assert stays[..|stays|] == stays;
    for i := 0 to |blocks|
      invariant blocked == Blocked(blocks[..i], group, day)
    {
      assert blocks[..i + 1][..i] == blocks[..i];
      var b := blocks[i];
      if OverlapsNight(b.startDate, b.endDate, day) && b.unitId in group.unitIds {
        blocked := blocked + 1;
      }
    }
    assert blocks[..|blocks|] == blocks;
    var available := Max(totalUnits - reserved - blocked, 0);
    deficit := reserved + blocked - totalUnits;
    cell := Cell(day, available, reserved, blocked, available == 0);
  }

  method BuildRow(stays: seq<Stay>, blocks: seq<Block>, group: Group, from: Day, n: nat)
    returns (row: Row, overbookings: seq<Overbooking>)
    ensures IsRow(row, stays, blocks, group, from, n)
    ensures overbookings == OverbookingsIn(stays, blocks, group, from, n)
  {
    var days: seq<Cell> := [];
    overbookings := [];
    for i := 0 to n
      invariant |days| == i && forall j :: 0 <= j < i ==> days[j] == CellOf(stays, blocks, group, from + j)
      invariant overbookings == OverbookingsIn(stays, blocks, group, from, i)
    {
      var cell, deficit := BuildCell(stays, blocks, group, from + i);
      if deficit > 0 {
        overbookings := overbookings + [Overbooking(from + i, group.name, deficit)];
      }
      days := days + [cell];
    }
    row := Row(group.name, group.key, Max(|group.unitIds|, 1), days);
  }

  function AvailableOn(rows: seq<Row>, i: nat): nat
    requires forall r :: r in rows ==> i < |r.days|
  {
    if rows == [] then 0 else AvailableOn(rows[..|rows| - 1], i) + rows[|rows| - 1].days[i].available
  }

  method Summarise(rows: seq<Row>, n: nat) returns (summary: seq<nat>)
    requires forall r :: r in rows ==> |r.days| == n
    ensures |summary| == n && forall i :: 0 <= i < n ==> summary[i] == AvailableOn(rows, i)
  {
    summary := [];
    for i := 0 to n
      invariant |summary| == i && forall j :: 0 <= j < i ==> summary[j] == AvailableOn(rows, j)
    {
      var totalAvailable := 0;
      for r := 0 to |rows|
        invariant totalAvailable == AvailableOn(rows[..r], i)
      {
        assert rows[..r + 1][..r] == rows[..r];
        totalAvailable := totalAvailable + rows[r].days[i].available;
      }
      assert rows[..|rows|] == rows;
      summary := summary + [totalAvailable];
    }
  }

  /** A row for each group, the overbookings, and the units available on each day. */
  method BuildAvailabilityMatrix(stays: seq<Stay>, units: seq<Unit>, blocks: seq<Block>, from: Day, n: nat)
    returns (groups: seq<Group>, rows: seq<Row>, summary: seq<nat>, overbookings: seq<Overbooking>)
    ensures groups == if units == [] then [Group(GENERAL, "General", [])] else GroupsOf(units)
    ensures |rows| == |groups| && forall g :: 0 <= g < |groups| ==> IsRow(rows[g], stays, blocks, groups[g], from, n)
    ensures overbookings == Overbookings(stays, blocks, groups, from, n)
    ensures |summary| == n && forall r :: r in rows ==> |r.days| == n
    ensures forall i :: 0 <= i < n ==> summary[i] == AvailableOn(rows, i)
  {
    hide GroupsOf, OverbookingsIn, CellOf, AvailableOn;
    groups := GroupUnits(units);
    rows, overbookings := [], [];
    for g := 0 to |groups|
      invariant |rows| == g && forall h :: 0 <= h < g ==> IsRow(rows[h], stays, blocks, groups[h], from, n)
      invariant overbookings == Overbookings(stays, blocks, groups[..g], from, n)
    {
      assert groups[..g + 1][..g] == groups[..g];
      var row, more := BuildRow(stays, blocks, groups[g], from, n);
      overbookings := overbookings + more;
      rows := rows + [row];
    }
    assert groups[..|groups|] == groups;
    summary := Summarise(rows, n);
  }
}
