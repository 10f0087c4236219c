/** What the edits of pricing plans store, column by column. */
module PlanRows {
  import opened Common
  import opened Tables
  import opened Pricing

  /** The value sent, or the stored one when none is. */
  predicate Takes<T(==)>(after: T, sent: Option<T>, before: T) {
    match sent
    case Some(v) => after == v
    case None => after == before
  }

  /** The maximum, when there is one, is not below the minimum. */
  predicate InOrder(minMonths: int, maxMonths: Option<int>) {
    maxMonths == None || minMonths <= maxMonths.value
  }

  /** No other plan has this code. */
  predicate FreeCode(o: Offer, id: Id, code: nat) {
    forall k :: k in o.plans && k != id ==> o.plans[k].code != code
  }

  /** A plan edit leaves the property as it is when it is deleted or no plan is active, and otherwise changes only the
      rent and the minimum it shows; it fails with a deleted property, whatever it stored. */
  predicate ShownFollows(o: Offer, r: PlanReply) {
    && (r.outcome == Done <==> !o.property.deleted)
    && (o.property.deleted ==> r.outcome == NotFound)
    && r.offer.property == o.property.(monthlyRate := r.offer.property.monthlyRate,
                                       minMonths := r.offer.property.minMonths)
    && (o.property.deleted || (forall k :: k in r.offer.plans ==> !r.offer.plans[k].isActive) ==>
          r.offer.property == o.property)
  }

  lemma SyncFollows(o: Offer, plans: map<Id, Plan>)
    ensures ShownFollows(o, SyncPrice(o.(plans := plans))) && SyncPrice(o.(plans := plans)).offer.plans == plans
  {}

  /** A plan is stored exactly when the property is live, its range is in order, and its identifier and code are
      free. */
  lemma CreationStores(o: Offer, plan: Plan)
    ensures var r := PlanCreated(o, plan);
      var stores := !o.property.deleted && InOrder(plan.minMonths, plan.maxMonths) && plan.id !in o.plans
                    && FreeCode(o, plan.id, plan.code);
      && (r.outcome == Done <==> stores)
      && if stores then r.offer.plans == o.plans[plan.id := plan] && ShownFollows(o, r) else r.offer == o
  {
    SyncFollows(o, o.plans[plan.id := plan]);
    hide SyncPrice;
    if !FreeCode(o, plan.id, plan.code) && plan.id !in o.plans {
      var k :| k in o.plans && k != plan.id && o.plans[k].code == plan.code;
      assert CodeTaken(o.plans, plan.code, None);
    }
  }

  /** An update is stored exactly for a plan there is whose range stays in order, as far as a bound is sent, clearing
      the maximum being checked against the stored one, and whose code, when one is sent, is free. */
  predicate Storable(o: Offer, id: Id, dto: PlanChange) {
    && id in o.plans
    && (dto.code.Some? ==> FreeCode(o, id, dto.code.value))
    && (dto.minMonths.Some? || dto.maxMonths != Keep ==>
          InOrder(match dto.minMonths case Some(m) => m case None => o.plans[id].minMonths,
                  match dto.maxMonths case Set(m) => Some(m) case _ => o.plans[id].maxMonths))
  }

  lemma UpdateAnswers(o: Offer, id: Id, dto: PlanChange)
    ensures var r := PlanUpdated(o, id, dto);
      if Storable(o, id, dto) then ShownFollows(o, r) && r.offer.plans.Keys == o.plans.Keys
      else r.outcome != Done && r.offer == o
  {
    if id in o.plans {
      SyncFollows(o, o.plans[id := Changed(o.plans[id], dto)]);
      hide SyncPrice, Changed;
      if dto.code.Some? && !FreeCode(o, id, dto.code.value) {
        var k :| k in o.plans && k != id && o.plans[k].code == dto.code.value;
        assert CodeTaken(o.plans, dto.code.value, Some(id));
      }
    }
  }

  /** Stored, every column of the plan is the one sent, or as before when none is; a maximum can also be cleared, and
      a custom deposit taken away. No other plan changes. */
  lemma UpdateStores(o: Offer, id: Id, dto: PlanChange, k: Id)
    requires Storable(o, id, dto) && k in o.plans
    ensures var plans := PlanUpdated(o, id, dto).offer.plans;
      && k in plans && (k != id ==> plans[k] == o.plans[k])
      && (k == id ==>
            var p, q := o.plans[id], plans[id];
            && q.id == p.id
            && Takes(q.code, dto.code, p.code) && Takes(q.minMonths, dto.minMonths, p.minMonths)
            && q.maxMonths == (match dto.maxMonths case Keep => p.maxMonths case Clear => None case Set(m) => Some(m))
            && Takes(q.monthlyRent, dto.monthlyRent, p.monthlyRent)
            && Takes(q.depositRule, dto.depositRule, p.depositRule)
            && Takes(q.customDeposit, dto.customDeposit, p.customDeposit)
            && Takes(q.entryRule, dto.entryRule, p.entryRule) && Takes(q.sortOrder, dto.sortOrder, p.sortOrder)
            && Takes(q.isActive, dto.isActive, p.isActive))
  {
    UpdateAnswers(o, id, dto);
    SyncFollows(o, o.plans[id := Changed(o.plans[id], dto)]);
    hide SyncPrice;
    assert dto.code.Some? ==> !CodeTaken(o.plans, dto.code.value, Some(id));
  }

  /** A deletion needs a plan there is, and takes it and no other. */
  lemma DeletionStores(o: Offer, id: Id)
    ensures var r := PlanDeleted(o, id);
      if id in o.plans then r.offer.plans == o.plans - {id} && ShownFollows(o, r) else r == PlanReply(o, NotFound)
  {
    SyncFollows(o, o.plans - {id});
    hide SyncPrice;
  }

  /** An edit of a live property stores the rent sent, or 0 for one below, and the minimum sent, and nothing else. */
  lemma PropertyEditStores(o: Offer, rate: Option<Cents>, minMonths: Option<int>)
    ensures var r := UpdateProperty(o, rate, minMonths); var p, q := o.property, r.offer.property;
      && r.outcome == (if p.deleted then NotFound else Done)
      && r.offer == o.(property := p.(monthlyRate := q.monthlyRate, minMonths := q.minMonths))
      && (p.deleted ==> q == p)
      && (!p.deleted ==>
            && Takes(q.minMonths, minMonths, p.minMonths)
            && (rate == None ==> q.monthlyRate == p.monthlyRate)
            && (rate.Some? ==> q.monthlyRate == if rate.value < 0 then 0 else rate.value))
  {}
}
