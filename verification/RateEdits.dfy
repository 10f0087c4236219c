/** What each edit of the commission rates means: who gets which rate afterwards, and what pending commissions say. */
module RateEdits {
  import opened Common
  import opened Tables
  import opened Rates
  import opened Steps
  import opened Effects
  import opened Freshness

  // ---------------------------------------------------------------- pending commissions

  /** A pending commission in scope carries what it owes now; any other row is as before. */
  predicate RepricedRow(s: State, t: State, scope: Scope, id: Id)
    requires id in s.commissions && id in t.commissions
  {
    if id in s.bookings && InScope(scope, s.bookings[id]) && s.commissions[id].status.Pending?
       && Owed(t.catalog, s.flex, s.bookings[id]).Some?
    then
      && OnlyTerms(s.commissions[id], t.commissions[id])
      && Carries(t.commissions[id], Owed(t.catalog, s.flex, s.bookings[id]).value)
    else t.commissions[id] == s.commissions[id]
  }

  /** An edit of the catalogue that reprices the pending commissions in scope and does nothing else. */
  ghost predicate Reprices(s: State, t: State, scope: Scope) {
    && t == s.(catalog := t.catalog, commissions := t.commissions)
    && t.commissions.Keys == s.commissions.Keys
    && forall id :: id in s.commissions ==> RepricedRow(s, t, scope, id)
  }

  lemma RecalculateReprices(s: State, c: Catalog, scope: Scope)
    ensures Reprices(s, Recalculate(s.(catalog := c), scope), scope)
  {}

  /** The commission of a flex booking in scope takes the resolved rate, one month's rent as its base, and their
      product to half a cent. */
  lemma FlexRowRecalculated(s: State, scope: Scope, id: Id)
    requires id in s.commissions && id in s.bookings && InScope(scope, s.bookings[id])
      && s.commissions[id].status.Pending?
    requires s.bookings[id].propertyFlexId.Some? && s.bookings[id].flexBookingId.Some?
    requires s.bookings[id].flexBookingId.value in s.flex
    ensures var b, t := s.bookings[id], Recalculate(s, scope);
      && id in t.commissions
      && var m := t.commissions[id];
         && m.rate == ResolveFlexRate(s.catalog, b.propertyFlexId.value, b.profileId).rate
         && m.baseAmount == s.flex[b.flexBookingId.value].monthlyAmount
         && 2 * Abs(m.baseAmount * m.rate - 10000 * m.amount) <= 10000
         && m == s.commissions[id].(rate := m.rate, baseAmount := m.baseAmount, amount := m.amount)
  {
    hide RoundHalfAway, ResolveFlexRate;
  }

  /** The commission of a temporal booking in scope is on the whole stay. */
  lemma TemporalRowRecalculated(s: State, scope: Scope, id: Id)
    requires id in s.commissions && id in s.bookings && InScope(scope, s.bookings[id])
      && s.commissions[id].status.Pending?
    requires s.bookings[id].propertyFlexId == None && s.bookings[id].propertyId.Some? && !s.bookings[id].source.Flex?
    ensures var b, t := s.bookings[id], Recalculate(s, scope);
      && id in t.commissions
      && var m := t.commissions[id];
         && m.rate == ResolveTemporalRate(s.catalog, b.propertyId.value, b.profileId).rate
         && m.baseAmount == b.totalAmount
         && 2 * Abs(m.baseAmount * m.rate - 10000 * m.amount) <= 10000
         && m == s.commissions[id].(rate := m.rate, baseAmount := m.baseAmount, amount := m.amount)
  {
    hide RoundHalfAway, ResolveTemporalRate;
  }

  // ---------------------------------------------------------------- the cascades

  /** Rates of temporal bookings are as before. */
  ghost predicate SameTemporalRates(c: Catalog, d: Catalog) {
    forall q, b :: ResolveTemporalRate(d, q, b) == ResolveTemporalRate(c, q, b)
  }

  ghost predicate SameFlexRates(c: Catalog, d: Catalog) {
    forall q, b :: ResolveFlexRate(d, q, b) == ResolveFlexRate(c, q, b)
  }

  /** Everybody gets the rate of the flex property except ambassadors with an override, and nobody else's rate
      moves. */
  lemma FlexPropertyRateIsSet(s: State, p: Id, rate: Option<Rate>)
    ensures var r := SetFlexPropertyRate(s, p, rate);
      && (r.outcome == Done <==> p in s.catalog.flexProperties && !s.catalog.flexProperties[p].deleted)
      && (r.outcome != Done || rate == None ==> r.state == s)
      && (r.outcome == Done && rate.Some? ==>
            && Reprices(s, r.state, OfFlexProperty(p)) && SameTemporalRates(s.catalog, r.state.catalog)
            && forall q, b :: ResolveFlexRate(r.state.catalog, q, b)
                 == if q == p && OverrideRate(s.catalog.flexOverrides, b, p) == None
                    then ResolvedRate(rate.value, PropertyRate) else ResolveFlexRate(s.catalog, q, b))
  {
    RecalculateReprices(s, SetFlexPropertyRate(s, p, rate).state.catalog, OfFlexProperty(p));
    hide Reprices, Recalculated;
  }

  /** A deleted flex property lends its rate as before, and no commission changes. */
  lemma FlexPropertyIsDeleted(s: State, p: Id)
    ensures var r := DeleteFlexProperty(s, p);
      && (r.outcome == Done <==> p in s.catalog.flexProperties && !s.catalog.flexProperties[p].deleted)
      && r.state == s.(catalog := r.state.catalog)
      && SameFlexRates(s.catalog, r.state.catalog) && SameTemporalRates(s.catalog, r.state.catalog)
      && (p in s.catalog.flexProperties ==>
            p in r.state.catalog.flexProperties && r.state.catalog.flexProperties[p].deleted)
  {}

  /** The override is the rate of that ambassador for that flex property, and nobody else's rate moves. */
  lemma FlexOverrideIsSet(s: State, p: Id, a: Id, rate: Rate)
    ensures var r := UpsertFlexOverride(s, p, a, rate);
      && (r.outcome == Done <==>
            p in s.catalog.flexProperties && !s.catalog.flexProperties[p].deleted && a in s.catalog.profiles)
      && (r.outcome != Done ==> r.state == s)
      && (r.outcome == Done ==>
            && Reprices(s, r.state, OfFlexOverride(p, a)) && SameTemporalRates(s.catalog, r.state.catalog)
            && forall q, b :: ResolveFlexRate(r.state.catalog, q, b)
                 == if q == p && b == Some(a) then ResolvedRate(rate, Override) else ResolveFlexRate(s.catalog, q, b))
  {
    RecalculateReprices(s, UpsertFlexOverride(s, p, a, rate).state.catalog, OfFlexOverride(p, a));
    hide Reprices, Recalculated;
  }

  /** Without the override that ambassador gets the property's rate, or his own default when it has none. */
  lemma FlexOverrideIsGone(s: State, p: Id, a: Id)
    ensures var r := DeleteFlexOverride(s, p, a); var props := s.catalog.flexProperties;
      && (r.outcome == Done <==> (a, p) in s.catalog.flexOverrides)
      && (r.outcome != Done ==> r.state == s)
      && (r.outcome == Done ==>
            && Reprices(s, r.state, OfFlexOverride(p, a)) && SameTemporalRates(s.catalog, r.state.catalog)
            && forall q, b :: ResolveFlexRate(r.state.catalog, q, b)
                 == if q != p || b != Some(a) then ResolveFlexRate(s.catalog, q, b)
                    else if p in props && props[p].commissionRate.Some?
                    then ResolvedRate(props[p].commissionRate.value, PropertyRate)
                    else DefaultRate(s.catalog, Some(a)))
  {
    RecalculateReprices(s, DeleteFlexOverride(s, p, a).state.catalog, OfFlexOverride(p, a));
    hide Reprices, Recalculated;
  }

  lemma PropertyRateIsSet(s: State, p: Id, rate: Option<Rate>)
    ensures var r := SetPropertyRate(s, p, rate);
      && (r.outcome == Done <==> p in s.catalog.properties && !s.catalog.properties[p].deleted)
      && (r.outcome != Done || rate == None ==> r.state == s)
      && (r.outcome == Done && rate.Some? ==>
            && Reprices(s, r.state, OfProperty(p)) && SameFlexRates(s.catalog, r.state.catalog)
            && forall q, b :: ResolveTemporalRate(r.state.catalog, q, b)
                 == if q == p && OverrideRate(s.catalog.propertyOverrides, b, p) == None
                    then ResolvedRate(rate.value, PropertyRate) else ResolveTemporalRate(s.catalog, q, b))
  {
    RecalculateReprices(s, SetPropertyRate(s, p, rate).state.catalog, OfProperty(p));
    hide Reprices, Recalculated;
  }

  /** A deleted temporal property lends its rate no more: ambassadors without an override fall back to their default.
      No commission changes. */
  lemma PropertyIsDeleted(s: State, p: Id)
    ensures var r := DeleteProperty(s, p);
      && (r.outcome == Done <==> p in s.catalog.properties && !s.catalog.properties[p].deleted)
      && r.state == s.(catalog := r.state.catalog) && SameFlexRates(s.catalog, r.state.catalog)
      && (r.outcome != Done ==> r.state == s)
      && (r.outcome == Done ==>
            forall q, b :: ResolveTemporalRate(r.state.catalog, q, b)
              == if q == p && OverrideRate(s.catalog.propertyOverrides, b, p) == None
                 then DefaultRate(s.catalog, b) else ResolveTemporalRate(s.catalog, q, b))
  {}

  lemma PropertyOverrideIsSet(s: State, p: Id, a: Id, rate: Rate)
    ensures var r := UpsertPropertyOverride(s, p, a, rate);
      && (r.outcome == Done <==>
            p in s.catalog.properties && !s.catalog.properties[p].deleted && a in s.catalog.profiles)
      && (r.outcome != Done ==> r.state == s)
      && (r.outcome == Done ==>
            && Reprices(s, r.state, OfPropertyOverride(p, a)) && SameFlexRates(s.catalog, r.state.catalog)
            && forall q, b :: ResolveTemporalRate(r.state.catalog, q, b)
                 == if q == p && b == Some(a) then ResolvedRate(rate, Override)
                    else ResolveTemporalRate(s.catalog, q, b))
  {
    RecalculateReprices(s, UpsertPropertyOverride(s, p, a, rate).state.catalog, OfPropertyOverride(p, a));
    hide Reprices, Recalculated;
  }

  lemma PropertyOverrideIsGone(s: State, p: Id, a: Id)
    ensures var r := DeletePropertyOverride(s, p, a); var props := s.catalog.properties;
      && (r.outcome == Done <==> (a, p) in s.catalog.propertyOverrides)
      && (r.outcome != Done ==> r.state == s)
      && (r.outcome == Done ==>
            && Reprices(s, r.state, OfPropertyOverride(p, a)) && SameFlexRates(s.catalog, r.state.catalog)
            && forall q, b :: ResolveTemporalRate(r.state.catalog, q, b)
                 == if q != p || b != Some(a) then ResolveTemporalRate(s.catalog, q, b)
                    else if p in props && !props[p].deleted && props[p].commissionRate.Some?
                    then ResolvedRate(props[p].commissionRate.value, PropertyRate)
                    else DefaultRate(s.catalog, Some(a)))
  {
    RecalculateReprices(s, DeletePropertyOverride(s, p, a).state.catalog, OfPropertyOverride(p, a));
    hide Reprices, Recalculated;
  }

  /** A rate that came from the default, or from nothing. */
  predicate FallsBack(r: ResolvedRate) {
    r.source.AmbassadorDefault? || r.source.Zero?
  }

  function NewDefault(rate: Rate): ResolvedRate {
    if rate != 0 then ResolvedRate(rate, AmbassadorDefault) else ResolvedRate(0, Zero)
  }

  /** A default rate moves the rates of its ambassador where neither an override nor a property has one; sending 0
      means having none. */
  lemma DefaultRateIsSet(s: State, a: Id, rate: Option<Rate>)
    ensures var r := SetDefaultRate(s, a, rate);
      && (r.outcome == Done <==> a in s.catalog.profiles)
      && (r.outcome != Done || rate == None ==> r.state == s)
      && (r.outcome == Done && rate.Some? ==>
            && Reprices(s, r.state, OfAmbassador(a))
            && (forall q, b :: ResolveFlexRate(r.state.catalog, q, b)
                  == if b == Some(a) && FallsBack(ResolveFlexRate(s.catalog, q, b)) then NewDefault(rate.value)
                     else ResolveFlexRate(s.catalog, q, b))
            && forall q, b :: ResolveTemporalRate(r.state.catalog, q, b)
                 == if b == Some(a) && FallsBack(ResolveTemporalRate(s.catalog, q, b)) then NewDefault(rate.value)
                    else ResolveTemporalRate(s.catalog, q, b))
  {
    RecalculateReprices(s, SetDefaultRate(s, a, rate).state.catalog, OfAmbassador(a));
    hide Reprices, Recalculated;
  }

  // ---------------------------------------------------------------- whose commissions an edit touches

  /** The bookings an edit of the rates is about. */
  predicate Concerns(step: Step, b: Booking) {
    match step
    case SetFlexPropertyRateStep(p, _) => b.propertyFlexId == Some(p)
    case UpsertFlexOverrideStep(p, a, _) => b.propertyFlexId == Some(p) && b.profileId == Some(a)
    case DeleteFlexOverrideStep(p, a) => b.propertyFlexId == Some(p) && b.profileId == Some(a)
    case SetPropertyRateStep(p, _) => b.propertyFlexId == None && b.propertyId == Some(p)
    case UpsertPropertyOverrideStep(p, a, _) =>
      b.propertyFlexId == None && b.propertyId == Some(p) && b.profileId == Some(a)
    case DeletePropertyOverrideStep(p, a) =>
      b.propertyFlexId == None && b.propertyId == Some(p) && b.profileId == Some(a)
    case SetDefaultRateStep(a, _) => b.profileId == Some(a)
    case RecalculateAllStep => true
    case _ => false
  }

  predicate DeletesProperty(step: Step) {
    step.DeleteFlexPropertyStep? || step.DeletePropertyStep?
  }

  function ScopeOf(step: Step): Scope {
    match step
    case SetFlexPropertyRateStep(p, _) => OfFlexProperty(p)
    case UpsertFlexOverrideStep(p, a, _) => OfFlexOverride(p, a)
    case DeleteFlexOverrideStep(p, a) => OfFlexOverride(p, a)
    case SetPropertyRateStep(p, _) => OfProperty(p)
    case UpsertPropertyOverrideStep(p, a, _) => OfPropertyOverride(p, a)
    case DeletePropertyOverrideStep(p, a) => OfPropertyOverride(p, a)
    case SetDefaultRateStep(a, _) => OfAmbassador(a)
    case _ => EveryBooking
  }

  lemma EditRecalculates(s: State, step: Step)
    requires IsRateStep(step) && !DeletesProperty(step)
    ensures var t := Next(s, step);
      t.commissions == s.commissions
      || t.commissions == Recalculate(s.(catalog := t.catalog), ScopeOf(step)).commissions
  {
    hide Recalculate;
    if step.RecalculateAllStep? {
      assert s.(catalog := s.catalog) == s;
    }
  }

  lemma DeletionRepricesNothing(s: State, step: Step)
    requires DeletesProperty(step)
    ensures Next(s, step).commissions == s.commissions
  {}

  lemma RepricedIsInScope(s: State, c: Catalog, scope: Scope, id: Id)
    requires id in s.commissions
    ensures var t := Recalculate(s.(catalog := c), scope);
      && id in t.commissions
      && (t.commissions[id] != s.commissions[id] ==>
            s.commissions[id].status == CommissionStatus.Pending && id in s.bookings && InScope(scope, s.bookings[id]))
  {
    hide ResolveFlexRate, ResolveTemporalRate, CommissionAmount;
  }

  lemma ScopeIsConcerned(step: Step, b: Booking)
    requires IsRateStep(step) && !DeletesProperty(step) && InScope(ScopeOf(step), b)
    ensures Concerns(step, b)
  {}

  /** An edit changes no commission but PENDING ones of the bookings it is about; deleting a property changes none. */
  lemma OnlyConcernedAreRepriced(s: State, step: Step, id: Id)
    requires IsRateStep(step) && id in s.commissions
    ensures var t := Next(s, step);
      && id in t.commissions
      && (t.commissions[id] != s.commissions[id] ==>
            s.commissions[id].status == CommissionStatus.Pending && id in s.bookings && Concerns(step, s.bookings[id]))
  {
    hide Next, Recalculate, InScope, ScopeOf, Concerns, IsRateStep, DeletesProperty;
    if DeletesProperty(step) {
      DeletionRepricesNothing(s, step);
    } else {
      EditRecalculates(s, step);
      RepricedIsInScope(s, Next(s, step).catalog, ScopeOf(step), id);
      if id in s.bookings && InScope(ScopeOf(step), s.bookings[id]) {
        ScopeIsConcerned(step, s.bookings[id]);
      }
    }
  }

  // ---------------------------------------------------------------- taking an edit back

  /** Repricing under another catalogue and back again restores every commission that was fresh. */
  lemma RepricingReverts(s: State, c: Catalog, scope: Scope)
    requires forall id :: id in s.commissions && id in s.bookings && InScope(scope, s.bookings[id]) ==>
      FreshRow(s.catalog, s.flex, s.bookings[id], s.commissions[id])
    ensures var t := Recalculate(s.(catalog := c), scope); Recalculate(t.(catalog := s.catalog), scope) == s
  {
    var t := Recalculate(s.(catalog := c), scope);
    var u := Recalculate(t.(catalog := s.catalog), scope);
    forall id | id in s.commissions ensures u.commissions[id] == s.commissions[id] {
      RowReverts(s.catalog, c, s, scope, id);
    }
    assert u.commissions == s.commissions;
  }

  lemma RowReverts(c: Catalog, d: Catalog, s: State, scope: Scope, id: Id)
    requires c == s.catalog && id in s.commissions
    requires id in s.bookings && InScope(scope, s.bookings[id]) ==>
      FreshRow(s.catalog, s.flex, s.bookings[id], s.commissions[id])
    ensures var t := Recalculate(s.(catalog := d), scope); id in t.commissions
    ensures var t := Recalculate(s.(catalog := d), scope);
      Recalculated(t.(catalog := c), scope, id) == s.commissions[id]
  {
    hide ResolveFlexRate, ResolveTemporalRate, CommissionAmount;
  }

  /** An override that is set where there was none and then removed leaves everything as it was, and so does one that
      is changed and changed back, given fresh commissions. */
  lemma FlexOverrideRoundTrip(s: State, p: Id, a: Id, rate: Rate)
    requires Fresh(s, FlexSide) && UpsertFlexOverride(s, p, a, rate).outcome == Done
    ensures var t := UpsertFlexOverride(s, p, a, rate).state;
      if (a, p) in s.catalog.flexOverrides
      then UpsertFlexOverride(t, p, a, s.catalog.flexOverrides[(a, p)]) == Reply(s, Done)
      else DeleteFlexOverride(t, p, a) == Reply(s, Done)
  {
    var c := s.catalog.(flexOverrides := s.catalog.flexOverrides[(a, p) := rate]);
    RepricingReverts(s, c, OfFlexOverride(p, a));
    hide Recalculate, Fresh;
    if (a, p) in s.catalog.flexOverrides {
      assert c.flexOverrides[(a, p) := s.catalog.flexOverrides[(a, p)]] == s.catalog.flexOverrides;
    } else {
      assert c.flexOverrides - {(a, p)} == s.catalog.flexOverrides;
    }
  }

  lemma PropertyOverrideRoundTrip(s: State, p: Id, a: Id, rate: Rate)
    requires Fresh(s, TemporalSide) && UpsertPropertyOverride(s, p, a, rate).outcome == Done
    ensures var t := UpsertPropertyOverride(s, p, a, rate).state;
      if (a, p) in s.catalog.propertyOverrides
      then UpsertPropertyOverride(t, p, a, s.catalog.propertyOverrides[(a, p)]) == Reply(s, Done)
      else DeletePropertyOverride(t, p, a) == Reply(s, Done)
  {
    var c := s.catalog.(propertyOverrides := s.catalog.propertyOverrides[(a, p) := rate]);
    RepricingReverts(s, c, OfPropertyOverride(p, a));
    hide Recalculate, Fresh;
    if (a, p) in s.catalog.propertyOverrides {
      assert c.propertyOverrides[(a, p) := s.catalog.propertyOverrides[(a, p)]] == s.catalog.propertyOverrides;
    } else {
      assert c.propertyOverrides - {(a, p)} == s.catalog.propertyOverrides;
    }
  }
}
