/** Pricing plans of a flex property, the plan a quote uses, and the "from" price shown for the property. */
module Pricing {
  import opened Common
  import opened Tables

  datatype DepositRule = ThirdOfMonth | OneMonthRent | Custom

  datatype EntryRule = NoEntry | ThirdFirstMonth | HalfFirstMonth | SeventyFirstMonth | FullFirstMonth

  datatype Plan = Plan(
    id: Id, code: nat, minMonths: int, maxMonths: Option<int>, monthlyRent: Cents,
    depositRule: DepositRule, customDeposit: Option<Cents>, entryRule: EntryRule, sortOrder: int, isActive: bool)

  datatype Property = Property(
    monthlyRate: Cents, minMonths: int, depositAmount: Option<Cents>, reservationPayment: Option<Cents>, deleted: bool)

  /** One property with its plans. */
  datatype Offer = Offer(property: Property, plans: map<Id, Plan>)

  // ---------------------------------------------------------------- amounts

  function DepositAmount(rent: Cents, rule: DepositRule, custom: Option<Cents>): Cents {
    if rule.Custom? && custom.Some? then custom.value
    else if rule.OneMonthRent? then rent
    else MathRound(rent, 3)
  }

  function EntryCommission(rent: Cents, rule: EntryRule): Cents {
    match rule
    case ThirdFirstMonth => MathRound(rent, 3)
    case HalfFirstMonth => MathRound(rent, 2)
    case SeventyFirstMonth => MathRound(7 * rent, 10)
    case FullFirstMonth => rent
    case NoEntry => 0
  }

  function ReservationPayment(p: Property): Cents {
    if p.reservationPayment.Some? && p.reservationPayment.value > 0 then p.reservationPayment.value else 0
  }

  // ---------------------------------------------------------------- choosing a plan

  predicate Fits(months: int, p: Plan) {
    months >= p.minMonths && (p.maxMonths.Some? ==> months <= p.maxMonths.value)
  }

  function Insert<T>(x: T, sorted: seq<T>, key: T -> int): seq<T> {
    if sorted == [] || key(x) <= key(sorted[0]) then [x] + sorted else [sorted[0]] + Insert(x, sorted[1..], key)
  }

  /** A stable sort by increasing key. */
  function SortBy<T>(s: seq<T>, key: T -> int): (r: seq<T>)
    ensures s != [] ==> r != []
  {
    if s == [] then [] else Insert(s[0], SortBy(s[1..], key), key)
  }

  function Matching(plans: seq<Plan>, months: int): seq<Plan> {
    if plans == [] then []
    else (if plans[0].isActive && Fits(months, plans[0]) then [plans[0]] else []) + Matching(plans[1..], months)
  }

  function FindById(plans: seq<Plan>, id: Id): Option<Plan> {
    if plans == [] then None
    else if plans[0].id == id && plans[0].isActive then Some(plans[0])
    else FindById(plans[1..], id)
  }

  function LongestFirst(): Plan -> int {
    (p: Plan) => -p.minMonths
  }

  function ResolvePlan(plans: seq<Plan>, months: int, id: Option<Id>): Option<Plan> {
    if id.Some? then
      match FindById(plans, id.value)
      case Some(p) => if Fits(months, p) then Some(p) else None
      case None => None
    else
      var matches := SortBy(Matching(plans, months), LongestFirst());
      if matches == [] then None else Some(matches[0])
  }

  // ---------------------------------------------------------------- quotes

  datatype Quote = Quote(
    planId: Option<Id>, totalMonths: int, monthlyRent: Cents, totalAmount: Cents,
    depositAmount: Cents, entryCommission: Cents, reservationPayment: Cents)

  datatype QuoteReply = Quoted(quote: Quote) | NoPlan | NoProperty

  function PropertyQuote(p: Property, months: int): Quote {
    var deposit := if p.depositAmount.Some? then p.depositAmount.value
                   else DepositAmount(p.monthlyRate, ThirdOfMonth, None);
    Quote(None, months, p.monthlyRate, p.monthlyRate * months, deposit, 0, ReservationPayment(p))
  }

  function PlanQuote(p: Property, plan: Plan, months: int): Quote {
    Quote(Some(plan.id), months, plan.monthlyRent, plan.monthlyRent * months,
          DepositAmount(plan.monthlyRent, plan.depositRule, plan.customDeposit),
          EntryCommission(plan.monthlyRent, plan.entryRule), ReservationPayment(p))
  }

  /** list is what listPlans answers for active plans. */
  function QuoteFor(p: Property, list: seq<Plan>, months: int, id: Option<Id>): QuoteReply {
    if p.deleted then NoProperty
    else if list == [] then Quoted(PropertyQuote(p, months))
    else
      match ResolvePlan(list, months, id)
      case None => NoPlan
      case Some(plan) => Quoted(PlanQuote(p, plan, months))
  }

  predicate Before(p: Plan, q: Plan) {
    p.sortOrder < q.sortOrder || (p.sortOrder == q.sortOrder && p.minMonths <= q.minMonths)
  }

  /** list holds the active plans, each once, by sort order and then minimum months; the database breaks ties. */
  ghost predicate ListsActive(list: seq<Plan>, plans: map<Id, Plan>) {
    && (forall i :: 0 <= i < |list| ==> list[i].id in plans && plans[list[i].id] == list[i] && list[i].isActive)
    && (forall id :: id in plans && plans[id].isActive ==> plans[id] in list)
    && (forall i, j :: 0 <= i < j < |list| ==> list[i].id != list[j].id && Before(list[i], list[j]))
  }

  // ---------------------------------------------------------------- plan edits

  function ActivePlans(plans: map<Id, Plan>): set<Id> {
    set id | id in plans && plans[id].isActive
  }

  /** No plan among ids has a smaller key than plan id. */
  ghost predicate IsLeast(plans: map<Id, Plan>, ids: set<Id>, key: Plan -> int, id: Id) {
    && id in ids && id in plans
    && forall j :: j in ids && j in plans ==> key(plans[id]) <= key(plans[j])
  }

  lemma {:induction false} LeastExists(plans: map<Id, Plan>, ids: set<Id>, key: Plan -> int)
    requires ids != {} && ids <= plans.Keys
    ensures exists id :: IsLeast(plans, ids, key, id)
    decreases |ids|
  {
    var v :| v in ids;
    var rest := ids - {v};
    if rest == {} {
      assert ids == {v};
      assert IsLeast(plans, ids, key, v);
    } else {
      LeastExists(plans, rest, key);
      var x :| IsLeast(plans, rest, key, x);
      var y := if key(plans[v]) <= key(plans[x]) then v else x;
      assert IsLeast(plans, ids, key, y);
    }
  }

  /** The least key among the active plans. */
  ghost function Least(plans: map<Id, Plan>, key: Plan -> int): (x: int)
    requires ActivePlans(plans) != {}
    ensures exists id :: IsLeast(plans, ActivePlans(plans), key, id) && key(plans[id]) == x
  {
    LeastExists(plans, ActivePlans(plans), key);
    var id :| IsLeast(plans, ActivePlans(plans), key, id);
    key(plans[id])
  }

  function Rent(): Plan -> int {
    (p: Plan) => p.monthlyRent
  }

  function Minimum(): Plan -> int {
    (p: Plan) => p.minMonths
  }

  datatype PlanReply = PlanReply(offer: Offer, outcome: Outcome)

  /** syncPropertyPriceFromPlans; it throws for a deleted property, after the plan edit is stored. */
  ghost function SyncPrice(o: Offer): PlanReply {
    if o.property.deleted then PlanReply(o, NotFound)
    else if ActivePlans(o.plans) == {} then PlanReply(o, Done)
    else
      var synced := o.property.(monthlyRate := Least(o.plans, Rent()), minMonths := Least(o.plans, Minimum()));
      PlanReply(o.(property := synced), Done)
  }

  predicate BadRange(minMonths: int, maxMonths: Option<int>) {
    maxMonths.Some? && maxMonths.value < minMonths
  }

  predicate CodeTaken(plans: map<Id, Plan>, code: nat, except: Option<Id>) {
    exists id :: id in plans && Some(id) != except && plans[id].code == code
  }

  ghost function PlanCreated(o: Offer, plan: Plan): PlanReply {
    if o.property.deleted then PlanReply(o, NotFound)
    else if BadRange(plan.minMonths, plan.maxMonths) then PlanReply(o, BadRequest)
    else if plan.id in o.plans || CodeTaken(o.plans, plan.code, None) then PlanReply(o, UniqueViolation)
    else SyncPrice(o.(plans := o.plans[plan.id := plan]))
  }

  datatype MaxChange = Keep | Clear | Set(months: int)

  /** A custom deposit that is sent may be an amount or nothing. */
  datatype PlanChange = PlanChange(
    code: Option<nat>, minMonths: Option<int>, maxMonths: MaxChange, monthlyRent: Option<Cents>,
    depositRule: Option<DepositRule>, customDeposit: Option<Option<Cents>>, entryRule: Option<EntryRule>,
    sortOrder: Option<int>, isActive: Option<bool>)

  function Changed(p: Plan, dto: PlanChange): Plan {
    p.(code := Or(dto.code, p.code),
       minMonths := Or(dto.minMonths, p.minMonths),
       maxMonths := (match dto.maxMonths case Keep => p.maxMonths case Clear => None case Set(m) => Some(m)),
       monthlyRent := Or(dto.monthlyRent, p.monthlyRent),
       depositRule := Or(dto.depositRule, p.depositRule),
       customDeposit := Or(dto.customDeposit, p.customDeposit),
       entryRule := Or(dto.entryRule, p.entryRule),
       sortOrder := Or(dto.sortOrder, p.sortOrder),
       isActive := Or(dto.isActive, p.isActive))
  }

  /** The range check of an update: clearing the maximum is checked against the stored one. */
  predicate RejectedRange(p: Plan, dto: PlanChange) {
    && (dto.minMonths.Some? || dto.maxMonths != Keep)
    && BadRange(Or(dto.minMonths, p.minMonths), if dto.maxMonths.Set? then Some(dto.maxMonths.months) else p.maxMonths)
  }

  ghost function PlanUpdated(o: Offer, id: Id, dto: PlanChange): PlanReply {
    if id !in o.plans then PlanReply(o, NotFound)
    else if RejectedRange(o.plans[id], dto) then PlanReply(o, BadRequest)
    else if dto.code.Some? && CodeTaken(o.plans, dto.code.value, Some(id)) then PlanReply(o, UniqueViolation)
    else SyncPrice(o.(plans := o.plans[id := Changed(o.plans[id], dto)]))
  }

  ghost function PlanDeleted(o: Offer, id: Id): PlanReply {
    if id !in o.plans then PlanReply(o, NotFound) else SyncPrice(o.(plans := o.plans - {id}))
  }

  /** PropertyFlexService.update, as far as prices go, and softDelete. */
  function UpdateProperty(o: Offer, monthlyRate: Option<Cents>, minMonths: Option<int>): PlanReply {
    if o.property.deleted then PlanReply(o, NotFound)
    else
      var rate := if monthlyRate == None then o.property.monthlyRate
                  else if monthlyRate.value > 0 then monthlyRate.value else 0;
      PlanReply(o.(property := o.property.(monthlyRate := rate,
                                         minMonths := Or(minMonths, o.property.minMonths))), Done)
  }

  function DeleteProperty(o: Offer): PlanReply {
    if o.property.deleted then PlanReply(o, NotFound) else PlanReply(o.(property := o.property.(deleted := true)), Done)
  }

  /** Math.min over the minimum months of a list. */
  function MinMonths(list: seq<Plan>): int
    requires list != []
  {
    if |list| == 1 then list[0].minMonths
    else
      var rest := MinMonths(list[1..]);
      if list[0].minMonths <= rest then list[0].minMonths else rest
  }

  ghost predicate Keyed(plans: map<Id, Plan>) {
    forall id :: id in plans ==> plans[id].id == id
  }

  // ---------------------------------------------------------------- what sorting puts first

  /** The first element of a list with the least key. */
  ghost predicate IsFirstLeast<T>(s: seq<T>, key: T -> int, i: nat) {
    && i < |s|
    && (forall j :: 0 <= j < |s| ==> key(s[i]) <= key(s[j]))
    && (forall j :: 0 <= j < i ==> key(s[i]) < key(s[j]))
  }

  lemma {:induction false} SortPutsFirstLeastFirst<T>(s: seq<T>, key: T -> int) returns (i: nat)
    requires s != []
    ensures IsFirstLeast(s, key, i) && SortBy(s, key)[0] == s[i]
    decreases |s|
  {
    i := 0;
    if |s| > 1 {
      var k := SortPutsFirstLeastFirst(s[1..], key);
      if key(s[0]) > key(s[k + 1]) {
        i := k + 1;
      }
    }
  }

  lemma {:induction false} MinMonthsIsLeast(list: seq<Plan>) returns (i: nat)
    requires list != []
    ensures i < |list| && list[i].minMonths == MinMonths(list)
    ensures forall j :: 0 <= j < |list| ==> MinMonths(list) <= list[j].minMonths
    decreases |list|
  {
    i := 0;
    if |list| > 1 {
      var k := MinMonthsIsLeast(list[1..]);
      if list[0].minMonths > MinMonths(list[1..]) {
        i := k + 1;
      }
    }
  }

  lemma LeastOfList(list: seq<Plan>, plans: map<Id, Plan>, key: Plan -> int, i: nat)
    requires ListsActive(list, plans) && Keyed(plans) && i < |list|
    requires forall j :: 0 <= j < |list| ==> key(list[i]) <= key(list[j])
    ensures ActivePlans(plans) != {} && Least(plans, key) == key(list[i])
  {
    assert list[i].id in ActivePlans(plans);
    forall id | IsLeast(plans, ActivePlans(plans), key, id) ensures key(plans[id]) == key(list[i]) {
      assert plans[id] in list;
    }
  }

  // ---------------------------------------------------------------- what a quote says

  lemma {:induction false} FindByIdFinds(plans: seq<Plan>, i: nat)
    requires i < |plans| && plans[i].isActive && forall j :: 0 <= j < i ==> plans[j].id != plans[i].id
    ensures FindById(plans, plans[i].id) == Some(plans[i])
    decreases |plans|
  {
    if i > 0 {
      assert plans[1..][i - 1] == plans[i];
      FindByIdFinds(plans[1..], i - 1);
    }
  }

  lemma {:induction false} FoundIsListed(plans: seq<Plan>, id: Id)
    ensures var p := FindById(plans, id); p.Some? ==> p.value in plans && p.value.isActive && p.value.id == id
    decreases |plans|
  {
    if plans != [] {
      FoundIsListed(plans[1..], id);
    }
  }

  lemma {:induction false} MatchingFits(plans: seq<Plan>, months: int)
    ensures forall p :: p in Matching(plans, months) <==> p in plans && p.isActive && Fits(months, p)
    decreases |plans|
  {
    if plans != [] {
      MatchingFits(plans[1..], months);
      assert forall p :: p in plans <==> p == plans[0] || p in plans[1..];
    }
  }

  /** However it is chosen, the plan is one of the active plans, the months fit it, and it is the one asked for. */
  lemma ResolvedFits(plans: seq<Plan>, months: int, id: Option<Id>)
    ensures var p := ResolvePlan(plans, months, id);
      p.Some? ==> p.value in plans && p.value.isActive && Fits(months, p.value) && (id.Some? ==> p.value.id == id.value)
  {
    if id.Some? {
      FoundIsListed(plans, id.value);
    } else {
      MatchingFits(plans, months);
      if Matching(plans, months) != [] {
        var i := SortPutsFirstLeastFirst(Matching(plans, months), LongestFirst());
      }
    }
  }

  /** There is no plan only when no active plan that may be chosen fits. */
  lemma UnresolvedFitsNone(plans: seq<Plan>, months: int, id: Option<Id>, i: nat)
    requires i < |plans| && plans[i].isActive && Fits(months, plans[i]) && (id == None || id.value == plans[i].id)
    requires forall j :: 0 <= j < i ==> plans[j].id != plans[i].id
    ensures ResolvePlan(plans, months, id).Some?
  {
    if id.Some? {
      FindByIdFinds(plans, i);
    } else {
      MatchingFits(plans, months);
      assert plans[i] in Matching(plans, months);
    }
  }

  /** The amount, in whole cents, is nearest to so many parts of a sum, halves going up. */
  predicate IsShare(amount: Cents, sum: int, parts: nat) {
    0 - parts <= 2 * (sum - parts * amount) < parts
  }

  predicate IsDeposit(plan: Plan, amount: Cents) {
    match plan.depositRule
    case ThirdOfMonth => IsShare(amount, plan.monthlyRent, 3)
    case OneMonthRent => amount == plan.monthlyRent
    case Custom =>
      if plan.customDeposit == None then IsShare(amount, plan.monthlyRent, 3) else amount == plan.customDeposit.value
  }

  predicate IsEntryCommission(plan: Plan, amount: Cents) {
    match plan.entryRule
    case NoEntry => amount == 0
    case ThirdFirstMonth => IsShare(amount, plan.monthlyRent, 3)
    case HalfFirstMonth => IsShare(amount, plan.monthlyRent, 2)
    case SeventyFirstMonth => IsShare(amount, 7 * plan.monthlyRent, 10)
    case FullFirstMonth => amount == plan.monthlyRent
  }

  /** The quote of a plan: its rent, and the deposit and the entry commission its rules say. */
  predicate QuotesPlan(plan: Plan, q: Quote) {
    && q.planId == Some(plan.id) && q.monthlyRent == plan.monthlyRent
    && IsDeposit(plan, q.depositAmount) && IsEntryCommission(plan, q.entryCommission)
  }

  /** The quote of a property without an active plan: its rate, its deposit or else a third of the rate, and no entry
      commission. */
  predicate QuotesProperty(p: Property, q: Quote) {
    && q.planId == None && q.monthlyRent == p.monthlyRate && q.entryCommission == 0
    && if p.depositAmount == None then IsShare(q.depositAmount, p.monthlyRate, 3)
       else q.depositAmount == p.depositAmount.value
  }

  /** For the months asked for, at so many rents, and the reservation payment of the property, when it has one. */
  predicate QuotesStay(p: Property, months: int, q: Quote) {
    && q.totalMonths == months && q.totalAmount == months * q.monthlyRent
    && q.reservationPayment >= 0
    && match p.reservationPayment
       case Some(due) => if due >= 0 then q.reservationPayment == due else q.reservationPayment == 0
       case None => q.reservationPayment == 0
  }

  /** An active plan that may be chosen for the months, which its bounds admit. */
  predicate Offers(plans: map<Id, Plan>, months: int, id: Option<Id>, k: Id) {
    && k in plans && plans[k].isActive && (id == None || id == Some(k))
    && plans[k].minMonths <= months && (plans[k].maxMonths == None || months <= plans[k].maxMonths.value)
  }

  /** What a quote answers, and what it says: of a plan that was offered when there is an active one, and otherwise of
      the property. */
  ghost predicate Answers(p: Property, plans: map<Id, Plan>, months: int, id: Option<Id>, r: QuoteReply) {
    var priced := exists k :: k in plans && plans[k].isActive;
    && (r.NoProperty? <==> p.deleted)
    && (r.NoPlan? <==> !p.deleted && priced && forall k :: !Offers(plans, months, id, k))
    && (r.Quoted? ==>
          && QuotesStay(p, months, r.quote)
          && if priced
             then r.quote.planId.Some? && Offers(plans, months, id, r.quote.planId.value)
                  && QuotesPlan(plans[r.quote.planId.value], r.quote)
             else QuotesProperty(p, r.quote))
  }

  lemma PlanIsSpelledOut(p: Property, plan: Plan, months: int)
    ensures var q := PlanQuote(p, plan, months); QuotesPlan(plan, q) && QuotesStay(p, months, q)
  {}

  lemma PropertyIsSpelledOut(p: Property, months: int)
    ensures var q := PropertyQuote(p, months); QuotesProperty(p, q) && QuotesStay(p, months, q)
  {}

  lemma ListedIsOffered(plans: map<Id, Plan>, list: seq<Plan>, months: int, id: Option<Id>, k: Id)
    requires ListsActive(list, plans) && Keyed(plans) && Offers(plans, months, id, k)
    ensures list != [] && ResolvePlan(list, months, id).Some?
  {
    hide ResolvePlan;
    var i :| 0 <= i < |list| && list[i] == plans[k];
    UnresolvedFitsNone(list, months, id, i);
  }

  lemma QuoteAnswers(p: Property, plans: map<Id, Plan>, list: seq<Plan>, months: int, id: Option<Id>)
    requires ListsActive(list, plans) && Keyed(plans)
    ensures Answers(p, plans, months, id, QuoteFor(p, list, months, id))
  {
    hide ResolvePlan, QuotesPlan, QuotesProperty, QuotesStay, PlanQuote, PropertyQuote;
    PropertyIsSpelledOut(p, months);
    if k :| Offers(plans, months, id, k) {
      ListedIsOffered(plans, list, months, id, k);
    }
    var resolved := ResolvePlan(list, months, id);
    if resolved.Some? {
      ResolvedFits(list, months, id);
      PlanIsSpelledOut(p, resolved.value, months);
      assert Offers(plans, months, id, resolved.value.id);
    }
    if list == [] {
      assert !exists k :: k in plans && plans[k].isActive;
    } else {
      assert list[0].id in plans && plans[list[0].id].isActive;
    }
  }

  // ---------------------------------------------------------------- the services

  class FlexPricing {
    var property: Property
    var plans: map<Id, Plan>

    ghost function View(): Offer
      reads this
    {
      Offer(property, plans)
    }

    constructor (p: Property)
      ensures View() == Offer(p, map[])
    {
      property, plans := p, map[];
    }

    /** A plan goes into the list after every plan that comes before it. */
    static method Place(list: seq<Plan>, p: Plan) returns (r: seq<Plan>)
      requires forall i, j :: 0 <= i < j < |list| ==> list[i].id != list[j].id && Before(list[i], list[j])
      requires forall i :: 0 <= i < |list| ==> list[i].id != p.id
      ensures forall i, j :: 0 <= i < j < |r| ==> r[i].id != r[j].id && Before(r[i], r[j])
      ensures forall q :: q in r <==> q in list || q == p
    {
      var k := 0;
      while k < |list| && Before(list[k], p)
        invariant k <= |list| && forall i :: 0 <= i < k ==> Before(list[i], p)
      {
        k := k + 1;
      }
      r := list[..k] + [p] + list[k..];
      assert forall q :: q in r <==> q in list[..k] || q == p || q in list[k..];
      assert list == list[..k] + list[k..];
      forall i | k <= i < |list| ensures Before(p, list[i]) {
        if i > k {
          assert Before(list[k], list[i]);
        }
      }
    }

    method ListActivePlans() returns (list: seq<Plan>)
      requires Keyed(plans)
      ensures ListsActive(list, plans)
      ensures forall id :: id in plans && plans[id].isActive <==> exists i :: 0 <= i < |list| && list[i].id == id
      ensures forall i, j :: 0 <= i < j < |list| ==>
        && list[i].id != list[j].id && list[i].sortOrder <= list[j].sortOrder
        && (list[i].sortOrder == list[j].sortOrder ==> list[i].minMonths <= list[j].minMonths)
    {
      var todo := ActivePlans(plans);
      list := [];
      while todo != {}
        invariant forall id :: id in todo ==> id in plans && plans[id].isActive
        invariant forall i :: 0 <= i < |list| ==>
          list[i].id in plans && plans[list[i].id] == list[i] && list[i].isActive && list[i].id !in todo
        invariant forall id :: id in plans && plans[id].isActive ==> id in todo || plans[id] in list
        invariant forall i, j :: 0 <= i < j < |list| ==> list[i].id != list[j].id && Before(list[i], list[j])
        decreases todo
      {
        var id :| id in todo;
        ghost var before := list;
        list := Place(list, plans[id]);
        todo := todo - {id};
        forall i | 0 <= i < |list|
          ensures list[i].id in plans && plans[list[i].id] == list[i] && list[i].isActive && list[i].id !in todo
        {
          assert list[i] in before || list[i] == plans[id];
        }
      }
    }

    /** syncPropertyPriceFromPlans */
    method SyncPropertyPrice() returns (outcome: Outcome)
      requires Keyed(plans)
      modifies `property
      ensures PlanReply(View(), outcome) == SyncPrice(old(View()))
    {
      if property.deleted {
        return NotFound;
      }
      var list := ListActivePlans();
      if |list| == 0 {
        assert ActivePlans(plans) == {};
        return Done;
      }
      var minRentPlan := SortBy(list, Rent())[0];
      var minMonths := MinMonths(list);
      ghost var i := SortPutsFirstLeastFirst(list, Rent());
      LeastOfList(list, plans, Rent(), i);
      ghost var j := MinMonthsIsLeast(list);
      LeastOfList(list, plans, Minimum(), j);
      property := property.(monthlyRate := minRentPlan.monthlyRent, minMonths := minMonths);
      return Done;
    }

    method CreatePlan(plan: Plan) returns (outcome: Outcome)
      requires Keyed(plans)
      modifies this
      ensures PlanReply(View(), outcome) == PlanCreated(old(View()), plan)
      ensures Keyed(plans)
    {
      if property.deleted {
        return NotFound;
      }
      if plan.maxMonths.Some? && plan.maxMonths.value < plan.minMonths {
        return BadRequest;
      }
      if plan.id in plans || CodeTaken(plans, plan.code, None) {
        return UniqueViolation;
      }
      plans := plans[plan.id := plan];
      outcome := SyncPropertyPrice();
    }

    method UpdatePlan(id: Id, dto: PlanChange) returns (outcome: Outcome)
      requires Keyed(plans)
      modifies this
      ensures PlanReply(View(), outcome) == PlanUpdated(old(View()), id, dto)
      ensures Keyed(plans)
    {
      if id !in plans {
        return NotFound;
      }
      if RejectedRange(plans[id], dto) {
        return BadRequest;
      }
      if dto.code.Some? && CodeTaken(plans, dto.code.value, Some(id)) {
        return UniqueViolation;
      }
      plans := plans[id := Changed(plans[id], dto)];
      outcome := SyncPropertyPrice();
    }

    method DeletePlan(id: Id) returns (outcome: Outcome)
      requires Keyed(plans)
      modifies this
      ensures PlanReply(View(), outcome) == PlanDeleted(old(View()), id)
      ensures Keyed(plans)
    {
      if id !in plans {
        return NotFound;
      }
      plans := plans - {id};
      outcome := SyncPropertyPrice();
    }

    method GetQuote(months: int, planId: Option<Id>) returns (reply: QuoteReply)
      requires Keyed(plans)
      ensures exists list :: ListsActive(list, plans) && reply == QuoteFor(property, list, months, planId)
      ensures Answers(property, plans, months, planId, reply)
    {
      var list := ListActivePlans();
      QuoteAnswers(property, plans, list, months, planId);
      reply := QuoteFor(property, list, months, planId);
    }
  }
}
