/** What the "from" price of a property promises about its quotes, and which plan a quote uses. */
module FromPrice {
  import opened Common
  import opened Tables
  import opened Pricing

  // ---------------------------------------------------------------- the plan of a quote

  predicate Eligible(plans: seq<Plan>, j: int, months: int) {
    0 <= j < |plans| && plans[j].isActive && Pricing.Fits(months, plans[j])
  }

  /** Among the active plans that fit, one with the greatest minimum months, the first of those in list order. */
  ghost predicate IsBest(plans: seq<Plan>, months: int, i: nat) {
    && Eligible(plans, i, months)
    && forall j :: Eligible(plans, j, months) ==>
         plans[j].minMonths <= plans[i].minMonths && (j < i ==> plans[j].minMonths < plans[i].minMonths)
  }

  lemma {:induction false} BestOfMatching(plans: seq<Plan>, months: int) returns (i: nat)
    ensures var matches := SortBy(Matching(plans, months), LongestFirst());
      if matches == [] then forall j :: !Eligible(plans, j, months)
      else IsBest(plans, months, i) && plans[i] == matches[0]
    decreases |plans|
  {
    i := 0;
    if plans != [] {
      var rest := plans[1..];
      var k := BestOfMatching(rest, months);
      forall j | Eligible(plans, j, months) && j > 0 ensures Eligible(rest, j - 1, months) && rest[j - 1] == plans[j] {}
      var tail := Matching(rest, months);
      if plans[0].isActive && Pricing.Fits(months, plans[0]) {
        assert Matching(plans, months)[1..] == tail && Matching(plans, months)[0] == plans[0];
        if tail != [] && plans[0].minMonths < rest[k].minMonths {
          i := k + 1;
        }
      } else {
        assert Matching(plans, months) == tail;
        if tail != [] {
          i := k + 1;
        }
      }
    }
  }

  /** Without a plan id, the plan of a quote is the best fitting one, and there is none only when no active plan
      fits. */
  lemma ResolvePlanIsBest(plans: seq<Plan>, months: int)
    ensures match ResolvePlan(plans, months, None)
      case Some(p) => exists i: nat :: IsBest(plans, months, i) && plans[i] == p
      case None => forall j :: !Eligible(plans, j, months)
  {
    var i := BestOfMatching(plans, months);
  }

  // ---------------------------------------------------------------- runs of edits

  datatype PlanStep =
    | CreatePlanStep(plan: Plan)
    | UpdatePlanStep(id: Id, change: PlanChange)
    | DeletePlanStep(id: Id)
    | UpdatePropertyStep(monthlyRate: Option<Cents>, minMonths: Option<int>)
    | DeletePropertyStep

  ghost function PlanApply(o: Offer, step: PlanStep): PlanReply {
    match step
    case CreatePlanStep(plan) => PlanCreated(o, plan)
    case UpdatePlanStep(id, dto) => PlanUpdated(o, id, dto)
    case DeletePlanStep(id) => PlanDeleted(o, id)
    case UpdatePropertyStep(rate, minMonths) => UpdateProperty(o, rate, minMonths)
    case DeletePropertyStep => DeleteProperty(o)
  }

  ghost function PlanNext(o: Offer, step: PlanStep): Offer {
    PlanApply(o, step).offer
  }

  ghost function PlanRun(o: Offer, steps: seq<PlanStep>): Offer
    decreases |steps|
  {
    if steps == [] then o else PlanRun(PlanNext(o, steps[0]), steps[1..])
  }

  predicate SoundPlan(id: Id, p: Plan) {
    p.id == id && !BadRange(p.minMonths, p.maxMonths)
  }

  predicate SoundPlans(plans: map<Id, Plan>) {
    forall id :: id in plans ==> SoundPlan(id, plans[id])
  }

  /** A live property with an active plan. */
  predicate Priced(o: Offer) {
    !o.property.deleted && ActivePlans(o.plans) != {}
  }

  /** The property shows no more than the least rent and the least minimum of its active plans. */
  ghost predicate ShowsBounds(o: Offer) {
    && SoundPlans(o.plans)
    && (Priced(o) ==>
        o.property.monthlyRate <= Least(o.plans, Rent()) && o.property.minMonths <= Least(o.plans, Minimum()))
  }

  /** The property shows exactly those. */
  ghost predicate ShowsFromPrice(o: Offer) {
    && SoundPlans(o.plans)
    && (Priced(o) ==>
        o.property.monthlyRate == Least(o.plans, Rent()) && o.property.minMonths == Least(o.plans, Minimum()))
  }

  lemma StepKeepsPlansSound(o: Offer, step: PlanStep)
    requires SoundPlans(o.plans)
    ensures SoundPlans(PlanNext(o, step).plans)
  {
    if step.UpdatePlanStep? && step.id in o.plans {
      assert SoundPlan(step.id, o.plans[step.id]);
      assert RejectedRange(o.plans[step.id], step.change) || SoundPlan(step.id, Changed(o.plans[step.id], step.change));
    }
  }

  predicate IsPlanEdit(step: PlanStep) {
    step.CreatePlanStep? || step.UpdatePlanStep? || step.DeletePlanStep?
  }

  /** Whatever the property showed, a plan edit that succeeds makes it show the least rent and minimum again. */
  lemma PlanEditRestores(o: Offer, step: PlanStep)
    requires SoundPlans(o.plans) && IsPlanEdit(step) && PlanApply(o, step).outcome == Done
    ensures ShowsFromPrice(PlanNext(o, step))
  {
    StepKeepsPlansSound(o, step);
  }

  /** The step sends a rent or a minimum for the property itself. */
  predicate EditsShown(step: PlanStep) {
    step.UpdatePropertyStep? && (step.monthlyRate.Some? || step.minMonths.Some?)
  }

  lemma StepShowsFromPrice(o: Offer, step: PlanStep)
    requires ShowsFromPrice(o) && !EditsShown(step)
    ensures ShowsFromPrice(PlanNext(o, step))
  {
    StepKeepsPlansSound(o, step);
    if IsPlanEdit(step) && PlanApply(o, step).outcome == Done {
      PlanEditRestores(o, step);
    }
  }

  /** Over any run of plan edits, starting with a property without plans, say. */
  lemma {:induction false} PlanEditsKeepFromPrice(o: Offer, steps: seq<PlanStep>)
    requires ShowsFromPrice(o) && forall i :: 0 <= i < |steps| ==> !EditsShown(steps[i])
    ensures ShowsFromPrice(PlanRun(o, steps))
    decreases |steps|
  {
    if steps != [] {
      StepShowsFromPrice(o, steps[0]);
      PlanEditsKeepFromPrice(PlanNext(o, steps[0]), steps[1..]);
    }
  }

  /** A rent and a minimum that, as stored, exceed no active plan's. */
  ghost predicate WithinPlans(o: Offer, rate: Option<Cents>, minMonths: Option<int>) {
    Priced(o) ==>
      && (rate == None || (rate.value <= Least(o.plans, Rent()) && 0 <= Least(o.plans, Rent())))
      && (minMonths == None || minMonths.value <= Least(o.plans, Minimum()))
  }

  /** Of all edits only one of the property itself breaks the bounds, and exactly when it sends a rent or a minimum
      above that of some active plan. */
  lemma StepShowsBounds(o: Offer, step: PlanStep)
    requires ShowsBounds(o)
    ensures ShowsBounds(PlanNext(o, step))
       <==> (step.UpdatePropertyStep? ==> WithinPlans(o, step.monthlyRate, step.minMonths))
  {
    StepKeepsPlansSound(o, step);
    if IsPlanEdit(step) && PlanApply(o, step).outcome == Done {
      PlanEditRestores(o, step);
    }
  }

  ghost predicate ModestRun(o: Offer, steps: seq<PlanStep>)
    decreases |steps|
  {
    steps != [] ==>
      && (steps[0].UpdatePropertyStep? ==> WithinPlans(o, steps[0].monthlyRate, steps[0].minMonths))
      && ModestRun(PlanNext(o, steps[0]), steps[1..])
  }

  /** Over any run of plan and property edits without such an excess both bounds hold. */
  lemma {:induction false} ModestEditsKeepBounds(o: Offer, steps: seq<PlanStep>)
    requires ShowsBounds(o) && ModestRun(o, steps)
    ensures ShowsBounds(PlanRun(o, steps))
    decreases |steps|
  {
    if steps != [] {
      StepShowsBounds(o, steps[0]);
      ModestEditsKeepBounds(PlanNext(o, steps[0]), steps[1..]);
    }
  }

  // ---------------------------------------------------------------- what the bounds mean for quotes

  lemma LeastIsLeast(plans: map<Id, Plan>, key: Plan -> int, id: Id)
    requires id in ActivePlans(plans)
    ensures Least(plans, key) <= key(plans[id])
  {
    var x := Least(plans, key);
    var least :| IsLeast(plans, ActivePlans(plans), key, least) && key(plans[least]) == x;
  }

  lemma LeastPlan(plans: map<Id, Plan>, key: Plan -> int) returns (id: Id)
    requires ActivePlans(plans) != {}
    ensures id in ActivePlans(plans) && key(plans[id]) == Least(plans, key)
  {
    var x := Least(plans, key);
    id :| IsLeast(plans, ActivePlans(plans), key, id) && key(plans[id]) == x;
  }

  /** No quote from a plan is below the least rent or for fewer months than the least minimum. */
  lemma QuotesAreNoLess(o: Offer, list: seq<Plan>, months: int, id: Option<Id>)
    requires ListsActive(list, o.plans) && list != [] && QuoteFor(o.property, list, months, id).Quoted?
    ensures ActivePlans(o.plans) != {}
    ensures var q := QuoteFor(o.property, list, months, id).quote;
      Least(o.plans, Rent()) <= q.monthlyRent && Least(o.plans, Minimum()) <= months && q.totalMonths == months
  {
    ResolvedFits(list, months, id);
    var p := ResolvePlan(list, months, id).value;
    LeastIsLeast(o.plans, Rent(), p.id);
    LeastIsLeast(o.plans, Minimum(), p.id);
  }

  /** No quote from a plan is below the rent shown or for fewer months than shown. */
  lemma FromPriceIsALowerBound(o: Offer, list: seq<Plan>, months: int, id: Option<Id>)
    requires ShowsBounds(o) && ListsActive(list, o.plans) && list != []
    requires QuoteFor(o.property, list, months, id).Quoted?
    ensures var q := QuoteFor(o.property, list, months, id).quote;
      o.property.monthlyRate <= q.monthlyRent && o.property.minMonths <= months
      && q.totalAmount == q.monthlyRent * months
  {
    QuotesAreNoLess(o, list, months, id);
  }

  lemma QuotableById(p: Property, list: seq<Plan>, i: nat)
    requires !p.deleted && i < |list| && list[i].isActive && !BadRange(list[i].minMonths, list[i].maxMonths)
    requires forall j :: 0 <= j < i ==> list[j].id != list[i].id
    ensures var r := QuoteFor(p, list, list[i].minMonths, Some(list[i].id));
      r.Quoted? && r.quote.monthlyRent == list[i].monthlyRent
  {
    FindByIdFinds(list, i);
    hide FindById;
  }

  /** Asking for an active plan by its id and its minimum months is always answered, at its rent. */
  lemma PlanIsQuotable(o: Offer, list: seq<Plan>, id: Id)
    requires SoundPlans(o.plans) && ListsActive(list, o.plans) && id in ActivePlans(o.plans) && !o.property.deleted
    ensures var r := QuoteFor(o.property, list, o.plans[id].minMonths, Some(id));
      r.Quoted? && r.quote.monthlyRent == o.plans[id].monthlyRent
  {
    assert SoundPlan(id, o.plans[id]);
    var i :| 0 <= i < |list| && list[i] == o.plans[id];
    assert forall j :: 0 <= j < i ==> list[j].id != list[i].id;
    QuotableById(o.property, list, i);
  }

  /** Some quote is at the least rent, and some quote is for the least minimum. */
  lemma LeastIsQuoted(o: Offer, list: seq<Plan>)
    requires SoundPlans(o.plans) && ListsActive(list, o.plans) && list != [] && !o.property.deleted
    ensures ActivePlans(o.plans) != {}
    ensures exists months, id :: var r := QuoteFor(o.property, list, months, Some(id));
      r.Quoted? && r.quote.monthlyRent == Least(o.plans, Rent())
    ensures QuoteFor(o.property, list, Least(o.plans, Minimum()), None).Quoted?
  {
    assert list[0].id in ActivePlans(o.plans);
    var cheapest := LeastPlan(o.plans, Rent());
    PlanIsQuotable(o, list, cheapest);
    var shortest := LeastPlan(o.plans, Minimum());
    assert SoundPlan(shortest, o.plans[shortest]);
    var i :| 0 <= i < |list| && list[i] == o.plans[shortest];
    assert Eligible(list, i, Least(o.plans, Minimum()));
    ResolvePlanIsBest(list, Least(o.plans, Minimum()));
  }

  /** While a property shows its from price both bounds are reached: some quote is at the rent shown, and some for the
      months shown. */
  lemma FromPriceIsReached(o: Offer, list: seq<Plan>)
    requires ShowsFromPrice(o) && ListsActive(list, o.plans) && list != [] && !o.property.deleted
    ensures exists months, id :: var r := QuoteFor(o.property, list, months, Some(id));
      r.Quoted? && r.quote.monthlyRent == o.property.monthlyRate
    ensures QuoteFor(o.property, list, o.property.minMonths, None).Quoted?
  {
    LeastIsQuoted(o, list);
  }

  ghost predicate BoundsRents(p: Property, list: seq<Plan>) {
    forall months, id :: var r := QuoteFor(p, list, months, id); r.Quoted? ==> p.monthlyRate <= r.quote.monthlyRent
  }

  ghost predicate BoundsMonths(p: Property, list: seq<Plan>) {
    forall months, id :: QuoteFor(p, list, months, id).Quoted? ==> p.minMonths <= months
  }

  /** An edit of the property itself can raise the rent shown above what plans charge: the bound survives exactly when
      no rate is sent or the one sent, at least 0 as stored, is not above the rent shown before. */
  lemma PropertyEditKeepsBound(o: Offer, list: seq<Plan>, rate: Option<Cents>, minMonths: Option<int>)
    requires ShowsFromPrice(o) && ListsActive(list, o.plans) && list != [] && !o.property.deleted
    ensures BoundsRents(UpdateProperty(o, rate, minMonths).offer.property, list)
       <==> rate == None || (rate.value <= o.property.monthlyRate && 0 <= o.property.monthlyRate)
  {
    var next := UpdateProperty(o, rate, minMonths).offer;
    LeastIsQuoted(next, list);
    forall months, id ensures QuoteFor(next.property, list, months, id).Quoted? ==>
      o.property.monthlyRate <= QuoteFor(next.property, list, months, id).quote.monthlyRent
    {
      if QuoteFor(next.property, list, months, id).Quoted? {
        QuotesAreNoLess(next, list, months, id);
      }
    }
  }

  /** And it can raise the months shown above what can be booked: that bound survives exactly when no minimum is sent or
      the one sent is not above the months shown before. */
  lemma PropertyEditKeepsMonths(o: Offer, list: seq<Plan>, rate: Option<Cents>, minMonths: Option<int>)
    requires ShowsFromPrice(o) && ListsActive(list, o.plans) && list != [] && !o.property.deleted
    ensures BoundsMonths(UpdateProperty(o, rate, minMonths).offer.property, list)
       <==> minMonths == None || minMonths.value <= o.property.minMonths
  {
    var next := UpdateProperty(o, rate, minMonths).offer;
    LeastIsQuoted(next, list);
    forall months, id ensures QuoteFor(next.property, list, months, id).Quoted? ==> o.property.minMonths <= months {
      if QuoteFor(next.property, list, months, id).Quoted? {
        QuotesAreNoLess(next, list, months, id);
      }
    }
  }

  function TwoMonths(): Plan {
    Plan(1, 1, 2, None, 40000, ThirdOfMonth, None, NoEntry, 0, true)
  }

  function Unpriced(): Offer {
    Offer(Property(0, 0, None, None, false), map[])
  }

  lemma TwoMonthsShown()
    ensures ShowsFromPrice(PlanCreated(Unpriced(), TwoMonths()).offer)
    ensures var o := PlanCreated(Unpriced(), TwoMonths()).offer;
      && o.plans == map[1 := TwoMonths()] && !o.property.deleted
      && o.property.monthlyRate == 40000 && o.property.minMonths == 2
  {
    var o := PlanCreated(Unpriced(), TwoMonths()).offer;
    PlanEditRestores(Unpriced(), CreatePlanStep(TwoMonths()));
    assert 1 in ActivePlans(o.plans);
    var cheapest := LeastPlan(o.plans, Rent());
    var shortest := LeastPlan(o.plans, Minimum());
  }

  /** One plan at 400 for two months or more, and an edit of the property to 401 from three months on: then some quote
      is below the rent shown, and some for fewer months. */
  lemma RaisedEditShowsTooMuch()
    ensures var o := PlanRun(Unpriced(), [CreatePlanStep(TwoMonths())]);
      var next := PlanNext(o, UpdatePropertyStep(Some(40100), Some(3)));
      && ShowsFromPrice(o) && ListsActive([TwoMonths()], next.plans)
      && !BoundsRents(next.property, [TwoMonths()]) && !BoundsMonths(next.property, [TwoMonths()])
  {
    var created := PlanNext(Unpriced(), CreatePlanStep(TwoMonths()));
    assert PlanRun(Unpriced(), [CreatePlanStep(TwoMonths())]) == created by {
      assert [CreatePlanStep(TwoMonths())][1..] == [];
    }
    TwoMonthsShown();
    hide ShowsFromPrice, BoundsRents, BoundsMonths, PlanRun, PlanCreated;
    PropertyEditKeepsBound(created, [TwoMonths()], Some(40100), Some(3));
    PropertyEditKeepsMonths(created, [TwoMonths()], Some(40100), Some(3));
  }

  // ---------------------------------------------------------------- edits that fail halfway

  /** The edit of a plan of a deleted property is stored before the property turns out to be gone. */
  predicate EditFailsHalfway(o: Offer, step: PlanStep) {
    && o.property.deleted
    && match step
       case DeletePlanStep(id) => id in o.plans
       case UpdatePlanStep(id, dto) =>
         && id in o.plans && !RejectedRange(o.plans[id], dto)
         && (dto.code.Some? ==> !CodeTaken(o.plans, dto.code.value, Some(id)))
         && Changed(o.plans[id], dto) != o.plans[id]
       case _ => false
  }

  /** Of all edits exactly these report a failure after changing something. */
  lemma FailedEditsChangeNothing(o: Offer, step: PlanStep)
    ensures PlanApply(o, step).outcome != Done && PlanNext(o, step) != o <==> EditFailsHalfway(o, step)
  {
    match step
    case UpdatePlanStep(id, dto) =>
      if id in o.plans {
        var plans := o.plans[id := Changed(o.plans[id], dto)];
        assert plans[id] == Changed(o.plans[id], dto);
        assert Changed(o.plans[id], dto) == o.plans[id] ==> plans == o.plans;
      }
    case DeletePlanStep(id) =>
      if id in o.plans {
        assert id !in o.plans - {id};
      }
    case _ =>
  }

  /** The only plan of a property that has been deleted can still be deleted, and the call fails. */
  lemma DeletionFailsHalfway()
    ensures var o := PlanRun(Unpriced(), [CreatePlanStep(TwoMonths()), DeletePropertyStep]);
      && PlanApply(o, DeletePlanStep(1)).outcome == NotFound
      && 1 in o.plans && 1 !in PlanNext(o, DeletePlanStep(1)).plans
  {
    var created := PlanNext(Unpriced(), CreatePlanStep(TwoMonths()));
    var steps := [CreatePlanStep(TwoMonths()), DeletePropertyStep];
    assert steps[1..] == [DeletePropertyStep] && [DeletePropertyStep][1..] == [];
    assert PlanRun(created, [DeletePropertyStep]) == PlanNext(created, DeletePropertyStep);
    TwoMonthsShown();
    hide PlanCreated, ShowsFromPrice;
  }

  // ---------------------------------------------------------------- rounding

  /** Deposits and entry commissions: the shares of a month's rent are exact to half a cent. */
  lemma SharesAreExactToHalfACent(rent: Cents, custom: Option<Cents>)
    ensures 2 * Abs(rent - 3 * DepositAmount(rent, ThirdOfMonth, custom)) <= 3
    ensures custom == None ==> DepositAmount(rent, Custom, custom) == DepositAmount(rent, ThirdOfMonth, custom)
    ensures 2 * Abs(rent - 3 * EntryCommission(rent, ThirdFirstMonth)) <= 3
    ensures 2 * Abs(rent - 2 * EntryCommission(rent, HalfFirstMonth)) <= 2
    ensures 2 * Abs(7 * rent - 10 * EntryCommission(rent, SeventyFirstMonth)) <= 10
  {
    var third, half, seventy := MathRound(rent, 3), MathRound(rent, 2), MathRound(7 * rent, 10);
  }
}
