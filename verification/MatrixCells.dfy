/** What a cell, a row and a group of the availability matrix show. */
module MatrixCells {
  import opened Common
  import opened Tables
  import opened Forecast
  import opened AvailabilityMatrix

  // ---------------------------------------------------------------- cells

  lemma NothingTaken(g: Group, day: Day)
    ensures Reserved([], g, day) == 0 && Blocked([], g, day) == 0
  {}

  /** A stay takes a unit of a group on the days from its check-in until the day before its check-out: of the group
      its unit is in, or, without a unit, of the one keyed general. */
  lemma StayReserves(stays: seq<Stay>, b: Stay, g: Group, day: Day)
    ensures Reserved(stays + [b], g, day) == Reserved(stays, g, day) +
      if b.checkIn <= day < b.checkOut
         && (b.unitId == None ==> g.key == "general") && (b.unitId.Some? ==> b.unitId.value in g.unitIds)
      then 1 else 0
  {
    assert (stays + [b])[..|stays|] == stays;
  }

  /** A block takes its unit from its first day until the day before its last. */
  lemma BlockBlocks(blocks: seq<Block>, b: Block, g: Group, day: Day)
    ensures Blocked(blocks + [b], g, day) == Blocked(blocks, g, day) +
      if b.startDate <= day < b.endDate && b.unitId in g.unitIds then 1 else 0
  {
    assert (blocks + [b])[..|blocks|] == blocks;
  }

  /** The units of a group; an empty one counts as one. */
  predicate HasUnits(g: Group, units: nat) {
    units == if g.unitIds == [] then 1 else |g.unitIds|
  }

  /** A cell shows the day, what is reserved and blocked on it, and the units left over, none when there are not
      enough; it is sold out when none is left. */
  lemma CellShows(stays: seq<Stay>, blocks: seq<Block>, g: Group, day: Day, units: nat)
    requires HasUnits(g, units)
    ensures var c := CellOf(stays, blocks, g, day);
      && c.date == day && c.reserved == Reserved(stays, g, day) && c.blocked == Blocked(blocks, g, day)
      && (units >= c.reserved + c.blocked ==> c.available == units - c.reserved - c.blocked)
      && (units < c.reserved + c.blocked ==> c.available == 0)
      && (c.isSoldOut <==> c.reserved + c.blocked >= units)
  {
    hide Reserved, Blocked;
  }

  // ---------------------------------------------------------------- overbookings

  /** Over the days of a row exactly the days on which more is taken than there is are reported, once each, with what
      is missing. */
  lemma {:induction false} OverbookedDaysAreReported(stays: seq<Stay>, blocks: seq<Block>, g: Group, from: Day, n: nat,
                                                     units: nat, o: Overbooking)
    requires HasUnits(g, units)
    ensures var list := OverbookingsIn(stays, blocks, g, from, n);
      && (o in list <==>
            && from <= o.date < from + n && o.unitTypeName == g.name && o.deficit > 0
            && o.deficit == Reserved(stays, g, o.date) + Blocked(blocks, g, o.date) - units)
      && multiset(list)[o] <= 1
    decreases n
  {
    hide Reserved, Blocked;
    if n > 0 {
      OverbookedDaysAreReported(stays, blocks, g, from, n - 1, units, o);
    }
  }

  // ---------------------------------------------------------------- groups

  /** The unit is the k-th of the group: the group has its room type as its key, or its name when it has none, and the
      name of its first unit. */
  predicate IsInGroup(u: Unit, g: Group, k: nat) {
    && k < |g.unitIds| && g.unitIds[k] == u.id
    && (u.roomTypeId.Some? ==> u.roomTypeId.value == g.key) && (u.roomTypeId == None ==> u.name == g.key)
    && (k == 0 ==> u.name == g.name)
  }

  /** Every place in every group is that of a unit. */
  lemma {:induction false} GroupIsOfUnits(units: seq<Unit>, j: nat, k: nat) returns (u: Unit)
    requires j < |GroupsOf(units)| && k < |GroupsOf(units)[j].unitIds|
    ensures u in units && IsInGroup(u, GroupsOf(units)[j], k)
    decreases |units|
  {
    var n := |units| - 1;
    var before := GroupsOf(units[..n]);
    if j < |before| && k < |before[j].unitIds| {
      u := GroupIsOfUnits(units[..n], j, k);
    } else {
      u := units[n];
      NoneAreEmpty(units[..n]);
    }
  }

  lemma NoneAreEmpty(units: seq<Unit>)
    ensures NoneEmpty(GroupsOf(units))
  {
    GroupsPartition(units);
  }
}
