/** What one more turn of the service loops adds. */
module LoopFacts {
  import opened Common
  import opened Tables
  import opened Rates
  import opened Settlements

  // ---------------------------------------------------------------- recalculation

  /** The commissions when the rows in done have been recalculated and the others not yet. */
  ghost function PartlyRecalculated(s: State, scope: Scope, done: set<Id>): map<Id, Commission> {
    map id | id in s.commissions :: if id in done then Recalculated(s, scope, id) else s.commissions[id]
  }

  lemma NoneRecalculated(s: State, scope: Scope)
    ensures PartlyRecalculated(s, scope, {}) == s.commissions
  {}

  lemma OneMore(s: State, scope: Scope, done: set<Id>, id: Id)
    requires id in s.bookings && InScope(scope, s.bookings[id]) && id in s.commissions && id !in done
    ensures id in PartlyRecalculated(s, scope, done)
    ensures PartlyRecalculated(s, scope, done)[id] == s.commissions[id]
    ensures PartlyRecalculated(s, scope, done + {id})
         == PartlyRecalculated(s, scope, done)[id := Refreshed(s.catalog, s.flex, s.bookings[id], s.commissions[id])]
  {}

  lemma AllRecalculated(s: State, scope: Scope, rows: set<Id>)
    requires rows == set id | id in s.bookings && InScope(scope, s.bookings[id])
                              && id in s.commissions && s.commissions[id].status.Pending?
    ensures PartlyRecalculated(s, scope, rows) == Recalculate(s, scope).commissions
  {}

  // ---------------------------------------------------------------- preview

  lemma NothingGrouped(s: State)
    ensures Groups(s, {}) == map[]
  {
    assert ProfilesOf(s, {}) == {};
  }

  /** The group of an ambassador among rows; an empty one when they own none of them. */
  ghost function GroupOf(s: State, rows: set<Id>, p: Id): PreviewGroup {
    PreviewGroup(OwnedBy(s, rows, p), Sum(Amounts(s, OwnedBy(s, rows, p))))
  }

  lemma GroupsHold(s: State, rows: set<Id>, p: Id)
    ensures p in Groups(s, rows) <==> p in ProfilesOf(s, rows)
    ensures GroupOf(s, rows, p) == if p in Groups(s, rows) then Groups(s, rows)[p] else PreviewGroup({}, 0)
  {
    if p !in ProfilesOf(s, rows) {
      NobodyOwns(s, rows, p);
      SumEmpty(Amounts(s, {}));
    }
  }

  lemma GroupGrows(s: State, done: set<Id>, id: Id, q: Id)
    requires id in s.commissions && id !in done
    ensures var g := GroupOf(s, done, q);
      GroupOf(s, done + {id}, q) ==
        if s.commissions[id].profileId == Some(q)
        then PreviewGroup(g.rows + {id}, g.totalAmount + s.commissions[id].amount) else g
  {
    if s.commissions[id].profileId == Some(q) {
      assert OwnedBy(s, done + {id}, q) == OwnedBy(s, done, q) + {id};
      AmountsOneMore(s, OwnedBy(s, done, q), id);
    } else {
      assert OwnedBy(s, done + {id}, q) == OwnedBy(s, done, q);
    }
  }

  lemma ProfilesOneMore(s: State, done: set<Id>, id: Id)
    requires id in s.commissions && s.commissions[id].profileId.Some?
    ensures ProfilesOf(s, done + {id}) == ProfilesOf(s, done) + {s.commissions[id].profileId.value}
  {}

  /** Grouping one more row adds it and its amount to the group of its ambassador. */
  lemma GroupOneMore(s: State, done: set<Id>, id: Id)
    requires id in s.commissions && s.commissions[id].profileId.Some? && id !in done
    ensures var p := s.commissions[id].profileId.value;
      var group := if p in Groups(s, done) then Groups(s, done)[p] else PreviewGroup({}, 0);
      Groups(s, done + {id})
      == Groups(s, done)[p := PreviewGroup(group.rows + {id}, group.totalAmount + s.commissions[id].amount)]
  {
    hide Sum, OwnedBy, Amounts, Groups, GroupOf, ProfilesOf;
    var p := s.commissions[id].profileId.value;
    ProfilesOneMore(s, done, id);
    GroupsHold(s, done, p);
    var g := GroupOf(s, done, p);
    var before, after := Groups(s, done), Groups(s, done + {id});
    var expected := before[p := PreviewGroup(g.rows + {id}, g.totalAmount + s.commissions[id].amount)];
    forall q: Id ensures (q in after <==> q in expected) && (q in after ==> after[q] == expected[q]) {
      GroupsHold(s, done, q);
      GroupsHold(s, done + {id}, q);
      GroupGrows(s, done, id, q);
    }
    assert after == expected;
  }

  lemma NobodyOwns(s: State, done: set<Id>, p: Id)
    requires p !in ProfilesOf(s, done)
    ensures OwnedBy(s, done, p) == {}
  {
    forall x | x in done && x in s.commissions ensures s.commissions[x].profileId != Some(p) {
      if s.commissions[x].profileId.Some? {
        assert s.commissions[x].profileId.value in ProfilesOf(s, done);
      }
    }
  }

  lemma OwnersOneMore(s: State, done: set<Id>, id: Id)
    requires id in s.commissions && s.commissions[id].profileId.Some? && id !in done
    ensures forall q: Id ::
      (OwnedBy(s, done + {id}, q)
       == if s.commissions[id].profileId == Some(q) then OwnedBy(s, done, q) + {id} else OwnedBy(s, done, q))
  {}

  lemma AmountsOneMore(s: State, rows: set<Id>, id: Id)
    requires id in s.commissions && id !in rows
    ensures Sum(Amounts(s, rows + {id})) == Sum(Amounts(s, rows)) + s.commissions[id].amount
  {
    assert Amounts(s, rows + {id}) == Amounts(s, rows)[id := s.commissions[id].amount];
    SumInsert(Amounts(s, rows), id, s.commissions[id].amount);
  }

  function TotalsIn(groups: map<Id, PreviewGroup>, done: set<Id>): map<Id, Cents> {
    map p | p in groups && p in done :: groups[p].totalAmount
  }

  lemma TotalOneMore(groups: map<Id, PreviewGroup>, done: set<Id>, p: Id)
    requires p in groups && p !in done
    ensures Sum(TotalsIn(groups, done + {p})) == Sum(TotalsIn(groups, done)) + groups[p].totalAmount
  {
    assert TotalsIn(groups, done + {p}) == TotalsIn(groups, done)[p := groups[p].totalAmount];
    SumInsert(TotalsIn(groups, done), p, groups[p].totalAmount);
  }

  lemma AllTotals(groups: map<Id, PreviewGroup>)
    ensures TotalsIn(groups, groups.Keys) == Totals(groups)
    ensures TotalsIn(groups, {}).Keys == {}
  {}

  // ---------------------------------------------------------------- creation

  function Elements(list: seq<Id>): set<Id> {
    set id | id in list
  }

  /** byProfile lists, without repetition, the rows of done under their ambassadors. */
  ghost predicate Listed(s: State, done: set<Id>, byProfile: map<Id, seq<Id>>) {
    && byProfile.Keys == ProfilesOf(s, done)
    && forall p :: p in byProfile ==> Distinct(byProfile[p]) && Elements(byProfile[p]) == OwnedBy(s, done, p)
  }

  lemma ListedRows(s: State, done: set<Id>, byProfile: map<Id, seq<Id>>, p: Id)
    requires Listed(s, done, byProfile) && p in byProfile
    ensures p in ProfilesOf(s, done) && Distinct(byProfile[p]) && Elements(byProfile[p]) == OwnedBy(s, done, p)
    ensures forall id :: id in byProfile[p] ==> id in s.commissions
  {
    forall id | id in byProfile[p] ensures id in s.commissions {
      assert id in Elements(byProfile[p]);
    }
  }

  lemma ListOneMore(s: State, done: set<Id>, byProfile: map<Id, seq<Id>>, id: Id)
    requires Listed(s, done, byProfile)
    requires id in s.commissions && s.commissions[id].profileId.Some? && id !in done
    ensures var p := s.commissions[id].profileId.value;
      Listed(s, done + {id}, byProfile[p := (if p in byProfile then byProfile[p] else []) + [id]])
  {
    var p := s.commissions[id].profileId.value;
    var list := if p in byProfile then byProfile[p] else [];
    OwnersOneMore(s, done, id);
    ProfilesOneMore(s, done, id);
    assert Elements(list) == OwnedBy(s, done, p) by {
      if p !in byProfile {
        NobodyOwns(s, done, p);
      }
    }
    assert Elements(list + [id]) == Elements(list) + {id};
    assert id !in Elements(list);
  }

  lemma PrefixOneMore(s: State, list: seq<Id>, i: nat)
    requires Distinct(list) && i < |list| && list[i] in s.commissions
    ensures Sum(Amounts(s, Elements(list[..i + 1])))
         == Sum(Amounts(s, Elements(list[..i]))) + s.commissions[list[i]].amount
  {
    assert list[..i + 1] == list[..i] + [list[i]];
    assert Elements(list[..i + 1]) == Elements(list[..i]) + {list[i]};
    AmountsOneMore(s, Elements(list[..i]), list[i]);
  }

  ghost predicate FreshFor(s: State, done: set<Id>, uuid: Id -> Id) {
    && (forall p :: p in done ==> uuid(p) !in s.settlements)
    && (forall p, q :: p in done && q in done && uuid(p) == uuid(q) ==> p == q)
  }

  /** The updateMany that attaches a list of commissions to a settlement. */
  function AttachList(commissions: map<Id, Commission>, list: seq<Id>, sid: Id): map<Id, Commission> {
    map id | id in commissions ::
      if id in list then commissions[id].(settlementId := Some(sid)) else commissions[id]
  }

  ghost function DraftFor(s: State, rows: set<Id>, p: Id): Settlement {
    Settlement(p, Sum(Amounts(s, OwnedBy(s, rows, p))), Draft)
  }

  /** A commission once the ambassadors in done have been handled. */
  function AttachedRow(s: State, rows: set<Id>, done: set<Id>, uuid: Id -> Id, id: Id): Commission
    requires id in s.commissions
  {
    var c := s.commissions[id];
    if id in rows && c.profileId.Some? && c.profileId.value in done
    then c.(settlementId := Some(uuid(c.profileId.value))) else c
  }

  /** The tables of an open transaction that has drafted the settlements of the ambassadors in done. */
  ghost predicate Drafted(s: State, rows: set<Id>, done: set<Id>, uuid: Id -> Id,
                          settlements: map<Id, Settlement>, commissions: map<Id, Commission>) {
    done <= ProfilesOf(s, rows) && DraftsMade(s, rows, done, uuid, settlements)
    && RowsAttached(s, rows, done, uuid, commissions)
  }

  ghost predicate DraftsMade(s: State, rows: set<Id>, done: set<Id>, uuid: Id -> Id, settlements: map<Id, Settlement>) {
    && FreshFor(s, done, uuid)
    && settlements.Keys == s.settlements.Keys + Image(done, uuid)
    && (forall sid :: sid in s.settlements ==> settlements[sid] == s.settlements[sid])
    && (forall p :: p in done ==> uuid(p) in settlements && settlements[uuid(p)] == DraftFor(s, rows, p))
  }

  ghost predicate RowsAttached(s: State, rows: set<Id>, done: set<Id>, uuid: Id -> Id,
                              commissions: map<Id, Commission>) {
    && commissions.Keys == s.commissions.Keys
    && (forall id :: id in s.commissions ==> commissions[id] == AttachedRow(s, rows, done, uuid, id))
  }

  lemma NothingDrafted(s: State, rows: set<Id>, uuid: Id -> Id)
    ensures Drafted(s, rows, {}, uuid, s.settlements, s.commissions)
  {
    var none: set<Id> := {};
    assert Image(none, uuid) == none;
  }

  lemma MakeDraft(s: State, rows: set<Id>, done: set<Id>, uuid: Id -> Id, p: Id, settlements: map<Id, Settlement>)
    requires DraftsMade(s, rows, done, uuid, settlements) && p !in done && uuid(p) !in settlements
    ensures DraftsMade(s, rows, done + {p}, uuid, settlements[uuid(p) := DraftFor(s, rows, p)])
  {
    hide DraftFor;
    assert Image(done + {p}, uuid) == Image(done, uuid) + {uuid(p)};
    forall q | q in done ensures uuid(q) != uuid(p) {
      assert uuid(q) in settlements;
    }
  }

  lemma AttachRows(s: State, rows: set<Id>, done: set<Id>, uuid: Id -> Id, p: Id,
                   list: seq<Id>, commissions: map<Id, Commission>)
    requires RowsAttached(s, rows, done, uuid, commissions) && p !in done && Elements(list) == OwnedBy(s, rows, p)
    ensures RowsAttached(s, rows, done + {p}, uuid, AttachList(commissions, list, uuid(p)))
  {
    forall id | id in s.commissions
      ensures AttachList(commissions, list, uuid(p))[id] == AttachedRow(s, rows, done + {p}, uuid, id)
    {
      assert id in list <==> id in Elements(list);
    }
  }

  /** One more ambassador: a new draft, and the rows of that ambassador attached to it. */
  lemma DraftTurn(s: State, rows: set<Id>, done: set<Id>, uuid: Id -> Id, p: Id, list: seq<Id>,
                  settlements: map<Id, Settlement>, commissions: map<Id, Commission>)
    requires Drafted(s, rows, done, uuid, settlements, commissions)
    requires p in ProfilesOf(s, rows) && p !in done && Elements(list) == OwnedBy(s, rows, p)
    requires uuid(p) !in settlements
    ensures Drafted(s, rows, done + {p}, uuid,
                    settlements[uuid(p) := Settlement(p, Sum(Amounts(s, Elements(list))), Draft)],
                    AttachList(commissions, list, uuid(p)))
  {
    hide DraftsMade, RowsAttached, AttachList, ProfilesOf;
    MakeDraft(s, rows, done, uuid, p, settlements);
    AttachRows(s, rows, done, uuid, p, list, commissions);
  }

  /** A settlement id that is taken when its turn comes clashes with a stored or an earlier drafted one. */
  lemma DraftClash(s: State, rows: set<Id>, done: set<Id>, uuid: Id -> Id, p: Id,
                   settlements: map<Id, Settlement>, commissions: map<Id, Commission>)
    requires Drafted(s, rows, done, uuid, settlements, commissions)
    requires p in ProfilesOf(s, rows) && p !in done && uuid(p) in settlements
    ensures Collides(s, ProfilesOf(s, rows), uuid)
  {
    if uuid(p) !in s.settlements {
      var q := Origin(done, uuid, uuid(p));
      assert q in done && uuid(q) == uuid(p);
    }
  }

  lemma GroupsHoldDrafts(s: State, rows: set<Id>)
    ensures Groups(s, rows).Keys == ProfilesOf(s, rows)
    ensures forall p :: p in Groups(s, rows) ==>
      DraftFor(s, rows, p) == Settlement(p, Groups(s, rows)[p].totalAmount, Draft)
  {}

  lemma AllSettlements(s: State, rows: set<Id>, uuid: Id -> Id, settlements: map<Id, Settlement>)
    requires DraftsMade(s, rows, ProfilesOf(s, rows), uuid, settlements)
    ensures settlements == s.settlements + NewDrafts(Groups(s, rows), uuid)
  {
    hide Image;
    GroupsHoldDrafts(s, rows);
    hide Groups, ProfilesOf, DraftFor;
    var groups := Groups(s, rows);
    forall sid | sid in Image(groups.Keys, uuid)
      ensures sid !in s.settlements && settlements[sid] == NewDrafts(groups, uuid)[sid]
    {
      var p := Origin(groups.Keys, uuid, sid);
      assert uuid(p) == sid && settlements[uuid(p)] == DraftFor(s, rows, p);
    }
  }

  lemma AllAttached(s: State, rows: set<Id>, uuid: Id -> Id, commissions: map<Id, Commission>)
    requires RowsAttached(s, rows, ProfilesOf(s, rows), uuid, commissions)
    ensures commissions == Attach(s.commissions, rows, uuid)
  {
    forall id | id in s.commissions ensures commissions[id] == Attach(s.commissions, rows, uuid)[id] {
      if id in rows && s.commissions[id].profileId.Some? {
        assert s.commissions[id].profileId.value in ProfilesOf(s, rows);
      }
    }
  }

  lemma NothingSettled(s: State, filter: set<Id>, uuid: Id -> Id)
    ensures Eligible(s, filter) == {} ==> CreateSettlements(s, filter, uuid) == Reply(s, BadRequest)
    ensures Eligible(s, filter) != {} && Collides(s, ProfilesOf(s, Eligible(s, filter)), uuid) ==>
      CreateSettlements(s, filter, uuid) == Reply(s, UniqueViolation)
  {}

  /** When every ambassador has been handled, the transaction holds what createSettlements promises. */
  lemma AllDrafted(s: State, filter: set<Id>, uuid: Id -> Id,
                   settlements: map<Id, Settlement>, commissions: map<Id, Commission>)
    requires Eligible(s, filter) != {}
    requires Drafted(s, Eligible(s, filter), ProfilesOf(s, Eligible(s, filter)), uuid, settlements, commissions)
    ensures Reply(s.(settlements := settlements, commissions := commissions), Done)
         == CreateSettlements(s, filter, uuid)
  {
    AllSettlements(s, Eligible(s, filter), uuid, settlements);
    AllAttached(s, Eligible(s, filter), uuid, commissions);
    hide NewDrafts, Groups, Attach, ProfilesOf, Eligible;
  }
}
