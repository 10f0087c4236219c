/** What the settlement calls do to each row of the tables, column by column. */
module SettlementRows {
  import opened Common
  import opened Tables
  import opened Settlements

  // ---------------------------------------------------------------- who can be paid

  /** An APPROVED, unattached commission of an ambassador asked for, whose booking is live and CONFIRMED or COMPLETED;
      an empty filter asks for everybody. */
  predicate Due(s: State, filter: set<Id>, b: Id) {
    && b in s.commissions && b in s.bookings
    && s.commissions[b].status.Approved? && s.commissions[b].settlementId == None
    && s.commissions[b].profileId.Some? && (filter == {} || s.commissions[b].profileId.value in filter)
    && !s.bookings[b].deleted
    && (s.bookings[b].status == BookingStatus.Confirmed || s.bookings[b].status == BookingStatus.Completed)
  }

  /** Creation attaches exactly the commissions that are due, each to the settlement of its ambassador, and changes
      nothing else of any commission. */
  lemma CreationAttaches(s: State, filter: set<Id>, uuid: Id -> Id, b: Id)
    requires CreateSettlements(s, filter, uuid).outcome == Done && b in s.commissions
    ensures var t := CreateSettlements(s, filter, uuid).state; var c := s.commissions[b];
      && t.commissions.Keys == s.commissions.Keys
      && (t.commissions[b].settlementId != c.settlementId <==> Due(s, filter, b))
      && t.commissions[b] == if Due(s, filter, b) then c.(settlementId := Some(uuid(c.profileId.value))) else c
  {
    hide Collides, Groups, NewDrafts, ProfilesOf;
  }

  lemma EligibleAreDue(s: State, filter: set<Id>, b: Id)
    ensures b in Eligible(s, filter) <==> Due(s, filter, b)
  {}

  /** Two due commissions of different ambassadors, or one and a settlement there is, with the same identifier
      drawn. */
  predicate Clashes(s: State, filter: set<Id>, uuid: Id -> Id, b: Id, c: Id) {
    && Due(s, filter, b) && Due(s, filter, c)
    && var p, q := s.commissions[b].profileId.value, s.commissions[c].profileId.value;
       uuid(p) in s.settlements || (p != q && uuid(p) == uuid(q))
  }

  /** Creation is refused exactly when nothing is due or identifiers clash, and then changes nothing. */
  lemma CreationIsRefused(s: State, filter: set<Id>, uuid: Id -> Id)
    ensures var r := CreateSettlements(s, filter, uuid);
      && (r.outcome == BadRequest <==> forall b :: !Due(s, filter, b))
      && (r.outcome == UniqueViolation <==> exists b, c :: Clashes(s, filter, uuid, b, c))
      && (r.outcome == Done || r.outcome == BadRequest || r.outcome == UniqueViolation)
      && (r.outcome != Done ==> r.state == s)
  {
    var rows := Eligible(s, filter);
    forall b ensures b in rows <==> Due(s, filter, b) {
      EligibleAreDue(s, filter, b);
    }
    hide Eligible, Due, Groups, NewDrafts, Attach;
    ClashesCollide(s, filter, uuid, rows);
  }

  lemma ClashesCollide(s: State, filter: set<Id>, uuid: Id -> Id, rows: set<Id>)
    requires forall b :: b in rows <==> Due(s, filter, b)
    ensures Collides(s, ProfilesOf(s, rows), uuid) <==> exists b, c :: Clashes(s, filter, uuid, b, c)
  {
    if b, c :| Clashes(s, filter, uuid, b, c) {
      assert s.commissions[b].profileId.value in ProfilesOf(s, rows);
      assert s.commissions[c].profileId.value in ProfilesOf(s, rows);
    }
    if p, q :| p in ProfilesOf(s, rows) && q in ProfilesOf(s, rows)
               && (uuid(p) in s.settlements || (p != q && uuid(p) == uuid(q))) {
      var b :| b in rows && b in s.commissions && s.commissions[b].profileId == Some(p);
      var c :| c in rows && c in s.commissions && s.commissions[c].profileId == Some(q);
      assert Clashes(s, filter, uuid, b, c);
    }
  }

  /** The amounts that went from no settlement to this one. */
  function Gained(s: State, t: State, sid: Id): map<Id, Cents> {
    map b | b in s.commissions && b in t.commissions
            && s.commissions[b].settlementId == None && t.commissions[b].settlementId == Some(sid)
      :: s.commissions[b].amount
  }

  lemma GainedAreOwned(s: State, rows: set<Id>, uuid: Id -> Id, p: Id)
    requires forall b :: b in rows ==> b in s.commissions && s.commissions[b].profileId.Some?
                                       && s.commissions[b].settlementId == None
    requires p in ProfilesOf(s, rows) && OneToOne(ProfilesOf(s, rows), uuid)
    ensures Gained(s, s.(commissions := Attach(s.commissions, rows, uuid)), uuid(p)) == Amounts(s, OwnedBy(s, rows, p))
  {
    var t := s.(commissions := Attach(s.commissions, rows, uuid));
    forall b | b in s.commissions ensures b in Gained(s, t, uuid(p)) <==> b in OwnedBy(s, rows, p) {
      if b in rows {
        assert s.commissions[b].profileId.value in ProfilesOf(s, rows);
      }
    }
  }

  lemma DraftOfProfile(s: State, rows: set<Id>, uuid: Id -> Id, sid: Id)
    requires sid in NewDrafts(Groups(s, rows), uuid)
    ensures var d := NewDrafts(Groups(s, rows), uuid)[sid]; var p := d.profileId;
      && p in ProfilesOf(s, rows) && uuid(p) == sid && d.status.Draft?
      && OwnedBy(s, rows, p) != {} && d.totalAmount == Sum(Amounts(s, OwnedBy(s, rows, p)))
  {
    hide Amounts, Sum;
    var p := NewDrafts(Groups(s, rows), uuid)[sid].profileId;
    var b :| b in rows && b in s.commissions && s.commissions[b].profileId == Some(p);
    assert b in OwnedBy(s, rows, p);
  }

  /** Every new settlement is a DRAFT for the ambassador whose identifier was drawn, worth what it gained, which is
      something; settlements of before stay as they are. */
  lemma CreationDrafts(s: State, filter: set<Id>, uuid: Id -> Id, sid: Id)
    requires CreateSettlements(s, filter, uuid).outcome == Done
    ensures var t := CreateSettlements(s, filter, uuid).state;
      && (sid in s.settlements ==> sid in t.settlements && t.settlements[sid] == s.settlements[sid])
      && (sid in t.settlements && sid !in s.settlements ==>
            && t.settlements[sid].status.Draft? && uuid(t.settlements[sid].profileId) == sid
            && Gained(s, t, sid) != map[] && t.settlements[sid].totalAmount == Sum(Gained(s, t, sid)))
  {
    var rows := Eligible(s, filter);
    var t := CreateSettlements(s, filter, uuid).state;
    if sid in t.settlements && sid !in s.settlements {
      DraftOfProfile(s, rows, uuid, sid);
      var p := t.settlements[sid].profileId;
      GainedAreOwned(s, rows, uuid, p);
      var b :| b in OwnedBy(s, rows, p);
      assert b in Amounts(s, OwnedBy(s, rows, p));
      assert Gained(s, t, sid) == Gained(s, s.(commissions := Attach(s.commissions, rows, uuid)), sid);
    }
    hide Sum, Attach, Eligible, Groups;
  }

  lemma DraftExists(s: State, rows: set<Id>, uuid: Id -> Id, b: Id)
    requires b in rows && b in s.commissions && s.commissions[b].profileId.Some?
    ensures uuid(s.commissions[b].profileId.value) in NewDrafts(Groups(s, rows), uuid)
  {
    assert s.commissions[b].profileId.value in Groups(s, rows);
  }

  /** A commission that changes goes to one of them. */
  lemma AttachedToDraft(s: State, filter: set<Id>, uuid: Id -> Id, b: Id)
    requires CreateSettlements(s, filter, uuid).outcome == Done && b in s.commissions
    ensures var t := CreateSettlements(s, filter, uuid).state;
      b in t.commissions && t.commissions[b] != s.commissions[b] ==>
        && s.commissions[b].profileId.Some? && uuid(s.commissions[b].profileId.value) !in s.settlements
        && uuid(s.commissions[b].profileId.value) in t.settlements
  {
    var rows := Eligible(s, filter);
    if b in rows {
      DraftExists(s, rows, uuid, b);
      assert s.commissions[b].profileId.value in ProfilesOf(s, rows);
    }
    hide NewDrafts, Groups;
  }

  /** The preview lists exactly the commissions that are due, under their ambassadors, each group with its total. */
  lemma PreviewLists(s: State, p: Id, b: Id)
    ensures p in Preview(s) && b in Preview(s)[p].rows <==>
      Due(s, {}, b) && s.commissions[b].profileId == Some(p)
    ensures p in Preview(s) ==>
      && Preview(s)[p].rows != {} && Preview(s)[p].rows <= s.commissions.Keys
      && Preview(s)[p].totalAmount == Sum(Amounts(s, Preview(s)[p].rows))
  {
    hide Sum;
    if p in Preview(s) {
      var c :| c in Eligible(s, {}) && c in s.commissions && s.commissions[c].profileId == Some(p);
      assert c in Preview(s)[p].rows;
    }
  }

  // ---------------------------------------------------------------- approving, paying, cancelling

  /** An approval makes one commission APPROVED, when it is in no settlement and neither PAID nor CANCELLED. */
  lemma ApprovalApproves(s: State, id: Id, b: Id)
    requires b in s.commissions
    ensures var r := ApproveCommission(s, id);
      && (r.outcome == Done <==>
            && id in s.commissions && s.commissions[id].settlementId == None
            && !s.commissions[id].status.Paid? && !s.commissions[id].status.Cancelled?)
      && (r.outcome == NotFound <==> id !in s.commissions)
      && r.state.commissions.Keys == s.commissions.Keys
      && r.state.commissions[b] == if b == id && r.outcome == Done
                                   then s.commissions[b].(status := CommissionStatus.Approved) else s.commissions[b]
  {}

  /** A DRAFT becomes PAID with every commission attached to it and no other; a settlement that is no DRAFT is
      refused. */
  lemma PaymentPays(s: State, sid: Id, b: Id)
    requires b in s.commissions
    ensures var r := MarkPaid(s, sid); var c := s.commissions[b];
      && (r.outcome == Done <==> sid in s.settlements && s.settlements[sid].status.Draft?)
      && (r.outcome == NotFound <==> sid !in s.settlements)
      && (r.outcome != Done ==> r.state == s)
      && r.state.commissions.Keys == s.commissions.Keys
      && r.state.commissions[b] == (if r.outcome == Done && c.settlementId == Some(sid)
                                    then c.(status := CommissionStatus.Paid) else c)
      && (r.outcome == Done ==>
            r.state.settlements == s.settlements[sid := s.settlements[sid].(status := SettlementStatus.Paid)])
  {}

  /** A DRAFT becomes CANCELLED and gives its commissions back as they were attached. */
  lemma CancellationDetaches(s: State, sid: Id, b: Id)
    requires b in s.commissions
    ensures var r := CancelDraft(s, sid); var c := s.commissions[b];
      && (r.outcome == Done <==> sid in s.settlements && s.settlements[sid].status.Draft?)
      && (r.outcome == NotFound <==> sid !in s.settlements)
      && (r.outcome != Done ==> r.state == s)
      && r.state.commissions.Keys == s.commissions.Keys
      && r.state.commissions[b] == (if r.outcome == Done && c.settlementId == Some(sid)
                                    then c.(settlementId := None) else c)
      && (r.outcome == Done ==>
            r.state.settlements == s.settlements[sid := s.settlements[sid].(status := SettlementStatus.Cancelled)])
  {}
}
