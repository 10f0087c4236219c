/** The commission rate cascades and the targeted recalculation of pending commissions. */
module Rates {
  import opened Common
  import opened Tables

  datatype RateSource = Override | PropertyRate | AmbassadorDefault | Zero
  datatype ResolvedRate = ResolvedRate(rate: Rate, source: RateSource)

  function OverrideRate(overrides: map<(Id, Id), Rate>, profileId: Option<Id>, propertyId: Id): Option<Rate> {
    if profileId.Some? && (profileId.value, propertyId) in overrides
    then Some(overrides[(profileId.value, propertyId)]) else None
  }

  /** The last two levels, shared by both cascades: a non-zero ambassador default, else nothing. */
  function DefaultRate(c: Catalog, profileId: Option<Id>): ResolvedRate {
    if profileId.Some? && profileId.value in c.profiles && c.profiles[profileId.value] != 0
    then ResolvedRate(c.profiles[profileId.value], AmbassadorDefault)
    else ResolvedRate(0, Zero)
  }

  /** A deleted flex property still lends its rate. */
  function ResolveFlexRate(c: Catalog, propertyFlexId: Id, profileId: Option<Id>): ResolvedRate {
    var special := OverrideRate(c.flexOverrides, profileId, propertyFlexId);
    if special.Some? then ResolvedRate(special.value, Override)
    else if propertyFlexId in c.flexProperties && c.flexProperties[propertyFlexId].commissionRate.Some?
    then ResolvedRate(c.flexProperties[propertyFlexId].commissionRate.value, PropertyRate)
    else DefaultRate(c, profileId)
  }

  /** A deleted temporal property does not. */
  function ResolveTemporalRate(c: Catalog, propertyId: Id, profileId: Option<Id>): ResolvedRate {
    var special := OverrideRate(c.propertyOverrides, profileId, propertyId);
    if special.Some? then ResolvedRate(special.value, Override)
    else if propertyId in c.properties && !c.properties[propertyId].deleted
         && c.properties[propertyId].commissionRate.Some?
    then ResolvedRate(c.properties[propertyId].commissionRate.value, PropertyRate)
    else DefaultRate(c, profileId)
  }

  /** base × rate / 100 as the commission_amount column keeps it: within half a cent of the exact product. */
  function CommissionAmount(base: Cents, rate: Rate): (amount: Cents)
    ensures 2 * Abs(base * rate - 10000 * amount) <= 10000
  {
    RoundHalfAway(base * rate, 10000)
  }

  datatype Terms = Terms(rate: Rate, base: Cents)

  /** The rate and base a recalculation would give the commission of this booking; None when it skips the row. */
  function Owed(c: Catalog, flex: map<Id, FlexBooking>, b: Booking): Option<Terms> {
    if b.propertyFlexId.Some? then
      if b.flexBookingId.Some? && b.flexBookingId.value in flex
      then Some(Terms(ResolveFlexRate(c, b.propertyFlexId.value, b.profileId).rate,
                      flex[b.flexBookingId.value].monthlyAmount))
      else None
    else if b.propertyId.Some? && b.source != Flex
    then Some(Terms(ResolveTemporalRate(c, b.propertyId.value, b.profileId).rate, b.totalAmount))
    else None
  }

  function WithTerms(c: Commission, t: Terms): Commission {
    c.(rate := t.rate, baseAmount := t.base, amount := CommissionAmount(t.base, t.rate))
  }

  /** The booking filters of the recalculation queries. */
  datatype Scope =
    | EveryBooking
    | OfFlexProperty(propertyFlexId: Id)
    | OfFlexOverride(propertyFlexId: Id, profileId: Id)
    | OfProperty(propertyId: Id)
    | OfPropertyOverride(propertyId: Id, profileId: Id)
    | OfAmbassador(profileId: Id)

  predicate InScope(scope: Scope, b: Booking) {
    match scope
    case EveryBooking => true
    case OfFlexProperty(p) => b.propertyFlexId == Some(p)
    case OfFlexOverride(p, a) => b.propertyFlexId == Some(p) && b.profileId == Some(a)
    case OfProperty(p) => b.propertyFlexId == None && b.propertyId == Some(p)
    case OfPropertyOverride(p, a) => b.propertyFlexId == None && b.propertyId == Some(p) && b.profileId == Some(a)
    case OfAmbassador(a) => b.profileId == Some(a)
  }

  /** What recalculating one booking makes of its commission: only a PENDING row is rewritten. */
  function Refreshed(c: Catalog, flex: map<Id, FlexBooking>, b: Booking, m: Commission): Commission {
    match Owed(c, flex, b)
    case Some(t) => if m.status.Pending? then WithTerms(m, t) else m
    case None => m
  }

  /** One commission row after a recalculation of the bookings in scope. */
  function Recalculated(s: State, scope: Scope, id: Id): Commission
    requires id in s.commissions
  {
    if id in s.bookings && InScope(scope, s.bookings[id])
    then Refreshed(s.catalog, s.flex, s.bookings[id], s.commissions[id])
    else s.commissions[id]
  }

  predicate OnlyTerms(c: Commission, d: Commission) {
    if c.status.Pending? then d == c.(rate := d.rate, baseAmount := d.baseAmount, amount := d.amount) else d == c
  }

  predicate OnlyPendingTerms(commissions: map<Id, Commission>, commissions': map<Id, Commission>) {
    commissions'.Keys == commissions.Keys
    && forall id :: id in commissions ==> OnlyTerms(commissions[id], commissions'[id])
  }

  function Recalculate(s: State, scope: Scope): (t: State)
    ensures t == s.(commissions := t.commissions) && OnlyPendingTerms(s.commissions, t.commissions)
  {
    s.(commissions := map id | id in s.commissions :: Recalculated(s, scope, id))
  }

  // ---------------------------------------------------------------- rate edits

  lemma TermsRefl(commissions: map<Id, Commission>)
    ensures OnlyPendingTerms(commissions, commissions)
  {}

  /** A rate edit touches the catalogue and the terms of PENDING commissions, nothing else. */
  predicate OnlyRates(s: State, t: State) {
    && t.flex == s.flex && t.bookings == s.bookings && t.registryOf == s.registryOf && t.history == s.history
    && t.settlements == s.settlements && t.payments == s.payments && t.sessions == s.sessions
    && OnlyPendingTerms(s.commissions, t.commissions)
  }

  /** setPropertyFlexRate, and the flex property update, which recalculates only when a rate is sent. */
  function SetFlexPropertyRate(s: State, p: Id, rate: Option<Rate>): (r: Reply)
    ensures OnlyRates(s, r.state)
  {
    hide Recalculate, OnlyPendingTerms;
    TermsRefl(s.commissions);
    if p !in s.catalog.flexProperties || s.catalog.flexProperties[p].deleted then Reply(s, NotFound)
    else if rate == None then Reply(s, Done)
    else
      var props := s.catalog.flexProperties[p := s.catalog.flexProperties[p].(commissionRate := rate)];
      Reply(Recalculate(s.(catalog := s.catalog.(flexProperties := props)), OfFlexProperty(p)), Done)
  }

  function DeleteFlexProperty(s: State, p: Id): (r: Reply)
    ensures OnlyRates(s, r.state)
  {
    hide Recalculate, OnlyPendingTerms;
    TermsRefl(s.commissions);
    if p !in s.catalog.flexProperties || s.catalog.flexProperties[p].deleted then Reply(s, NotFound)
    else
      var props := s.catalog.flexProperties[p := s.catalog.flexProperties[p].(deleted := true)];
      Reply(s.(catalog := s.catalog.(flexProperties := props)), Done)
  }

  function UpsertFlexOverride(s: State, p: Id, a: Id, rate: Rate): (r: Reply)
    ensures OnlyRates(s, r.state)
  {
    hide Recalculate, OnlyPendingTerms;
    TermsRefl(s.commissions);
    if p !in s.catalog.flexProperties || s.catalog.flexProperties[p].deleted || a !in s.catalog.profiles
    then Reply(s, NotFound)
    else
      var c := s.catalog.(flexOverrides := s.catalog.flexOverrides[(a, p) := rate]);
      Reply(Recalculate(s.(catalog := c), OfFlexOverride(p, a)), Done)
  }

  function DeleteFlexOverride(s: State, p: Id, a: Id): (r: Reply)
    ensures OnlyRates(s, r.state)
  {
    hide Recalculate, OnlyPendingTerms;
    TermsRefl(s.commissions);
    if (a, p) !in s.catalog.flexOverrides then Reply(s, NotFound)
    else
      var c := s.catalog.(flexOverrides := s.catalog.flexOverrides - {(a, p)});
      Reply(Recalculate(s.(catalog := c), OfFlexOverride(p, a)), Done)
  }

  function SetPropertyRate(s: State, p: Id, rate: Option<Rate>): (r: Reply)
    ensures OnlyRates(s, r.state)
  {
    hide Recalculate, OnlyPendingTerms;
    TermsRefl(s.commissions);
    if p !in s.catalog.properties || s.catalog.properties[p].deleted then Reply(s, NotFound)
    else if rate == None then Reply(s, Done)
    else
      var props := s.catalog.properties[p := s.catalog.properties[p].(commissionRate := rate)];
      Reply(Recalculate(s.(catalog := s.catalog.(properties := props)), OfProperty(p)), Done)
  }

  /** Soft-deleting a temporal property recalculates nothing. */
  function DeleteProperty(s: State, p: Id): (r: Reply)
    ensures OnlyRates(s, r.state)
  {
    hide Recalculate, OnlyPendingTerms;
    TermsRefl(s.commissions);
    if p !in s.catalog.properties || s.catalog.properties[p].deleted then Reply(s, NotFound)
    else
      var props := s.catalog.properties[p := s.catalog.properties[p].(deleted := true)];
      Reply(s.(catalog := s.catalog.(properties := props)), Done)
  }

  function UpsertPropertyOverride(s: State, p: Id, a: Id, rate: Rate): (r: Reply)
    ensures OnlyRates(s, r.state)
  {
    hide Recalculate, OnlyPendingTerms;
    TermsRefl(s.commissions);
    if p !in s.catalog.properties || s.catalog.properties[p].deleted || a !in s.catalog.profiles
    then Reply(s, NotFound)
    else
      var c := s.catalog.(propertyOverrides := s.catalog.propertyOverrides[(a, p) := rate]);
      Reply(Recalculate(s.(catalog := c), OfPropertyOverride(p, a)), Done)
  }

  function DeletePropertyOverride(s: State, p: Id, a: Id): (r: Reply)
    ensures OnlyRates(s, r.state)
  {
    hide Recalculate, OnlyPendingTerms;
    TermsRefl(s.commissions);
    if (a, p) !in s.catalog.propertyOverrides then Reply(s, NotFound)
    else
      var c := s.catalog.(propertyOverrides := s.catalog.propertyOverrides - {(a, p)});
      Reply(Recalculate(s.(catalog := c), OfPropertyOverride(p, a)), Done)
  }

  /** adminUpdate of a professional profile; it recalculates only when a default rate is sent. */
  function SetDefaultRate(s: State, a: Id, rate: Option<Rate>): (r: Reply)
    ensures OnlyRates(s, r.state)
  {
    hide Recalculate, OnlyPendingTerms;
    TermsRefl(s.commissions);
    if a !in s.catalog.profiles then Reply(s, NotFound)
    else if rate == None then Reply(s, Done)
    else
      var c := s.catalog.(profiles := s.catalog.profiles[a := rate.value]);
      Reply(Recalculate(s.(catalog := c), OfAmbassador(a)), Done)
  }
}
