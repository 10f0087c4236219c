/** From the settlement preview to drafts and back. */
module PreviewRoundTrip {
  import opened Common
  import opened Tables
  import opened Settlements
  import opened Payouts

  // ---------------------------------------------------------------- the preview counts every commission once

  ghost function GroupTotals(s: State, rows: set<Id>, profiles: set<Id>): map<Id, Cents> {
    map p | p in profiles :: Sum(Amounts(s, OwnedBy(s, rows, p)))
  }

  function OwnedByAny(s: State, rows: set<Id>, profiles: set<Id>): set<Id> {
    set id | id in rows && id in s.commissions && s.commissions[id].profileId.Some?
             && s.commissions[id].profileId.value in profiles
  }

  lemma SplitOwners(s: State, rows: set<Id>, profiles: set<Id>, q: Id)
    requires q in profiles
    ensures Amounts(s, OwnedByAny(s, rows, profiles))
         == Amounts(s, OwnedByAny(s, rows, profiles - {q})) + Amounts(s, OwnedBy(s, rows, q))
    ensures Amounts(s, OwnedByAny(s, rows, profiles - {q})).Keys !! Amounts(s, OwnedBy(s, rows, q)).Keys
    ensures GroupTotals(s, rows, profiles) - {q} == GroupTotals(s, rows, profiles - {q})
  {}

  lemma {:induction false} GroupsPartition(s: State, rows: set<Id>, profiles: set<Id>)
    ensures Sum(GroupTotals(s, rows, profiles)) == Sum(Amounts(s, OwnedByAny(s, rows, profiles)))
    decreases |profiles|
  {
    hide Sum;
    if profiles == {} {
      SumEmpty(GroupTotals(s, rows, profiles));
      SumEmpty(Amounts(s, OwnedByAny(s, rows, profiles)));
    } else {
      var q :| q in profiles;
      GroupsPartition(s, rows, profiles - {q});
      SumRemove(GroupTotals(s, rows, profiles), q);
      SplitOwners(s, rows, profiles, q);
      SumMerge(Amounts(s, OwnedByAny(s, rows, profiles - {q})), Amounts(s, OwnedBy(s, rows, q)));
    }
  }

  lemma EligibleAreOwned(s: State)
    ensures OwnedByAny(s, Eligible(s, {}), ProfilesOf(s, Eligible(s, {}))) == Eligible(s, {})
  {
    var rows := Eligible(s, {});
    forall id | id in rows ensures s.commissions[id].profileId.value in ProfilesOf(s, rows) {}
  }

  /** The preview's grand total is the sum of the amounts of all eligible commissions: none is lost or counted twice. */
  lemma PreviewIsExhaustive(s: State)
    ensures GrandTotal(Preview(s)) == Sum(Amounts(s, Eligible(s, {})))
  {
    var rows := Eligible(s, {});
    GroupsPartition(s, rows, ProfilesOf(s, rows));
    EligibleAreOwned(s);
    assert Totals(Preview(s)) == GroupTotals(s, rows, ProfilesOf(s, rows));
  }

  // ---------------------------------------------------------------- creation

  function DraftTotals(s: State, t: State): map<Id, Cents> {
    map sid | sid in t.settlements && sid !in s.settlements :: t.settlements[sid].totalAmount
  }

  lemma NewDraftTotals(s: State, uuid: Id -> Id)
    requires CreateSettlements(s, {}, uuid).outcome == Done
    ensures OneToOne(Totals(Preview(s)).Keys, uuid)
    ensures DraftTotals(s, CreateSettlements(s, {}, uuid).state) == Renamed(Totals(Preview(s)), uuid)
  {
    var t := CreateSettlements(s, {}, uuid).state;
    assert Preview(s).Keys == ProfilesOf(s, Eligible(s, {}));
    var drafts := NewDrafts(Preview(s), uuid);
    TotalsOfMerge(s.settlements, drafts);
    assert t.settlements == s.settlements + drafts;
    assert DraftTotals(s, t) == TotalsOf(drafts);
    RenamedTotals(Preview(s), uuid);
  }

  function TotalsOf(settlements: map<Id, Settlement>): map<Id, Cents> {
    map sid | sid in settlements :: settlements[sid].totalAmount
  }

  lemma TotalsOfMerge(existing: map<Id, Settlement>, drafts: map<Id, Settlement>)
    requires existing.Keys !! drafts.Keys
    ensures (map sid | sid in existing + drafts && sid !in existing :: (existing + drafts)[sid].totalAmount)
         == TotalsOf(drafts)
  {}

  lemma RenamedTotals(groups: map<Id, PreviewGroup>, uuid: Id -> Id)
    requires OneToOne(groups.Keys, uuid)
    ensures OneToOne(Totals(groups).Keys, uuid)
    ensures TotalsOf(NewDrafts(groups, uuid)) == Renamed(Totals(groups), uuid)
  {}

  /** One draft per preview group, for the ambassador and total of the group. */
  lemma DraftPerGroup(s: State, uuid: Id -> Id, p: Id)
    requires CreateSettlements(s, {}, uuid).outcome == Done && p in Preview(s)
    ensures var t := CreateSettlements(s, {}, uuid).state;
      && uuid(p) !in s.settlements && uuid(p) in t.settlements
      && t.settlements[uuid(p)] == Settlement(p, Preview(s)[p].totalAmount, Draft)
  {
    assert Preview(s).Keys == ProfilesOf(s, Eligible(s, {}));
    var drafts := NewDrafts(Preview(s), uuid);
    assert uuid(p) in drafts && drafts[uuid(p)] == Settlement(p, Preview(s)[p].totalAmount, Draft);
  }

  lemma NothingLeft(s: State, uuid: Id -> Id)
    requires CreateSettlements(s, {}, uuid).outcome == Done
    ensures Preview(CreateSettlements(s, {}, uuid).state).Keys == {}
  {
    var t := CreateSettlements(s, {}, uuid).state;
    forall b | b in t.commissions ensures !EligibleRow(t, b) {
      assert t.commissions[b].settlementId == None ==> b !in Eligible(s, {});
    }
    assert Eligible(t, {}) == {};
    assert ProfilesOf(t, {}) == {};
  }

  /** Unfiltered creation turns each preview group into a draft of the same total, the drafts add up to the preview's
      grand total, and nothing is left to preview. */
  lemma CreationMatchesPreview(s: State, uuid: Id -> Id)
    requires CreateSettlements(s, {}, uuid).outcome == Done
    ensures var t := CreateSettlements(s, {}, uuid).state;
      && (forall p :: p in Preview(s) ==>
            (uuid(p) in t.settlements && t.settlements[uuid(p)] == Settlement(p, Preview(s)[p].totalAmount, Draft)))
      && DraftTotals(s, t).Keys == (set p | p in Preview(s) :: uuid(p))
      && Sum(DraftTotals(s, t)) == GrandTotal(Preview(s))
      && Preview(t).Keys == {}
  {
    forall p | p in Preview(s)
      ensures var t := CreateSettlements(s, {}, uuid).state;
              uuid(p) in t.settlements && t.settlements[uuid(p)] == Settlement(p, Preview(s)[p].totalAmount, Draft)
    {
      DraftPerGroup(s, uuid, p);
    }
    NewDraftTotals(s, uuid);
    SumRename(Totals(Preview(s)), uuid);
    NothingLeft(s, uuid);
  }

  // ---------------------------------------------------------------- and back

  /** Cancelling the drafts of these ambassadors, one call after the other. */
  function CancelDrafts(t: State, profiles: seq<Id>, uuid: Id -> Id): State
    decreases |profiles|
  {
    if profiles == [] then t else CancelDrafts(CancelDraft(t, uuid(profiles[0])).state, profiles[1..], uuid)
  }

  /** The rows still attached after the drafts of the profiles in done are cancelled. */
  function StillAttached(s: State, done: set<Id>): set<Id> {
    set id | id in Eligible(s, {}) && id in s.commissions && s.commissions[id].profileId.Some?
             && s.commissions[id].profileId.value !in done
  }

  ghost predicate DraftsOpen(s: State, t: State, uuid: Id -> Id, done: set<Id>) {
    forall p :: p in ProfilesOf(s, Eligible(s, {})) ==>
      uuid(p) in t.settlements && (t.settlements[uuid(p)].status.Draft? <==> p !in done)
  }

  ghost predicate PartlyCancelled(s: State, t: State, uuid: Id -> Id, done: set<Id>) {
    && t.bookings == s.bookings
    && t.commissions == Attach(s.commissions, StillAttached(s, done), uuid)
    && DraftsOpen(s, t, uuid, done)
  }

  function SetOf(profiles: seq<Id>): set<Id> {
    set p | p in profiles
  }

  lemma DetachOne(s: State, uuid: Id -> Id, done: set<Id>, p: Id)
    requires Settled(s.commissions, s.settlements)
    requires !Collides(s, ProfilesOf(s, Eligible(s, {})), uuid) && p in ProfilesOf(s, Eligible(s, {}))
    ensures DetachAll(Attach(s.commissions, StillAttached(s, done), uuid), uuid(p))
         == Attach(s.commissions, StillAttached(s, done + {p}), uuid)
  {
    var before := Attach(s.commissions, StillAttached(s, done), uuid);
    var after := Attach(s.commissions, StillAttached(s, done + {p}), uuid);
    forall b | b in s.commissions ensures DetachAll(before, uuid(p))[b] == after[b] {
      assert Placed(s.commissions[b], s.settlements);
      if b in Eligible(s, {}) {
        assert s.commissions[b].profileId.value in ProfilesOf(s, Eligible(s, {}));
      }
    }
  }

  lemma CancelOne(s: State, t: State, uuid: Id -> Id, done: set<Id>, p: Id)
    requires Settled(s.commissions, s.settlements)
    requires !Collides(s, ProfilesOf(s, Eligible(s, {})), uuid) && p in ProfilesOf(s, Eligible(s, {}))
    requires PartlyCancelled(s, t, uuid, done)
    ensures PartlyCancelled(s, CancelDraft(t, uuid(p)).state, uuid, done + {p})
  {
    if p in done {
      assert done + {p} == done;
    } else {
      DetachOne(s, uuid, done, p);
    }
  }

  lemma {:induction false} CancelMany(s: State, t: State, uuid: Id -> Id, done: set<Id>, profiles: seq<Id>)
    requires Settled(s.commissions, s.settlements)
    requires !Collides(s, ProfilesOf(s, Eligible(s, {})), uuid) && PartlyCancelled(s, t, uuid, done)
    requires SetOf(profiles) <= ProfilesOf(s, Eligible(s, {}))
    ensures PartlyCancelled(s, CancelDrafts(t, profiles, uuid), uuid, done + SetOf(profiles))
    decreases |profiles|
  {
    if profiles == [] {
      assert done + SetOf(profiles) == done;
    } else {
      var p, rest := profiles[0], profiles[1..];
      CancelOne(s, t, uuid, done, p);
      CancelMany(s, CancelDraft(t, uuid(p)).state, uuid, done + {p}, rest);
      assert done + {p} + SetOf(rest) == done + SetOf(profiles);
    }
  }

  lemma JustCreated(s: State, uuid: Id -> Id)
    requires CreateSettlements(s, {}, uuid).outcome == Done
    ensures PartlyCancelled(s, CreateSettlements(s, {}, uuid).state, uuid, {})
    ensures !Collides(s, ProfilesOf(s, Eligible(s, {})), uuid)
  {
    var rows := Eligible(s, {});
    assert StillAttached(s, {}) == rows;
    forall p | p in ProfilesOf(s, rows)
      ensures var t := CreateSettlements(s, {}, uuid).state;
        uuid(p) in t.settlements && t.settlements[uuid(p)].status.Draft?
    {
      DraftPerGroup(s, uuid, p);
    }
  }

  lemma AllDetached(s: State, uuid: Id -> Id)
    ensures Attach(s.commissions, StillAttached(s, ProfilesOf(s, Eligible(s, {}))), uuid) == s.commissions
  {
    assert StillAttached(s, ProfilesOf(s, Eligible(s, {}))) == {} by {
      forall id | id in Eligible(s, {}) ensures s.commissions[id].profileId.value in ProfilesOf(s, Eligible(s, {})) {}
    }
  }

  lemma PreviewReads(s: State, t: State)
    requires t.commissions == s.commissions && t.bookings == s.bookings
    ensures Preview(t) == Preview(s)
  {
    var rows := Eligible(s, {});
    assert Eligible(t, {}) == rows;
    forall p ensures OwnedBy(t, rows, p) == OwnedBy(s, rows, p)
             ensures Amounts(t, OwnedBy(t, rows, p)) == Amounts(s, OwnedBy(s, rows, p))
    {}
    assert ProfilesOf(t, rows) == ProfilesOf(s, rows);
  }

  lemma PreviewKeys(s: State)
    ensures Preview(s).Keys == ProfilesOf(s, Eligible(s, {}))
  {}

  lemma FullyCancelled(s: State, t: State, uuid: Id -> Id)
    requires PartlyCancelled(s, t, uuid, ProfilesOf(s, Eligible(s, {})))
    ensures t.commissions == s.commissions && Preview(t) == Preview(s)
  {
    AllDetached(s, uuid);
    PreviewReads(s, t);
  }

  /** Cancelling the new drafts, in any order, brings back the commissions and the preview of before. */
  lemma CancellingRestoresPreview(s: State, uuid: Id -> Id, profiles: seq<Id>)
    requires Settled(s.commissions, s.settlements)
    requires CreateSettlements(s, {}, uuid).outcome == Done
    requires SetOf(profiles) == Preview(s).Keys
    ensures var t := CancelDrafts(CreateSettlements(s, {}, uuid).state, profiles, uuid);
      t.commissions == s.commissions && Preview(t) == Preview(s)
  {
    hide *;
    PreviewKeys(s);
    JustCreated(s, uuid);
    var created := CreateSettlements(s, {}, uuid).state;
    CancelMany(s, created, uuid, {}, profiles);
    assert {} + SetOf(profiles) == SetOf(profiles);
    FullyCancelled(s, CancelDrafts(created, profiles, uuid), uuid);
  }
}
