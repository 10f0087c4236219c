/** Approving commissions and paying them out to ambassadors through settlements. */
module Settlements {
  import opened Common
  import opened Tables

  function ApproveCommission(s: State, id: Id): Reply {
    if id !in s.commissions then Reply(s, NotFound)
    else
      var c := s.commissions[id];
      if c.status.Paid? || c.status.Cancelled? || c.settlementId.Some? then Reply(s, BadRequest)
      else Reply(s.(commissions := s.commissions[id := c.(status := CommissionStatus.Approved)]), Done)
  }

  // ---------------------------------------------------------------- eligibility and preview

  /** Approved, unattached, with an ambassador, on a live booking that is confirmed or completed. */
  predicate EligibleRow(s: State, id: Id) {
    && id in s.commissions && id in s.bookings
    && s.commissions[id].status.Approved?
    && s.commissions[id].settlementId == None
    && s.commissions[id].profileId.Some?
    && !s.bookings[id].deleted
    && (s.bookings[id].status.Confirmed? || s.bookings[id].status.Completed?)
  }

  /** The eligible rows; an empty filter means every ambassador. */
  function Eligible(s: State, filter: set<Id>): set<Id> {
    set id | id in s.commissions && EligibleRow(s, id)
             && (filter == {} || s.commissions[id].profileId.value in filter)
  }

  function ProfilesOf(s: State, rows: set<Id>): set<Id> {
    set id | id in rows && id in s.commissions && s.commissions[id].profileId.Some?
      :: s.commissions[id].profileId.value
  }

  function OwnedBy(s: State, rows: set<Id>, profileId: Id): set<Id> {
    set id | id in rows && id in s.commissions && s.commissions[id].profileId == Some(profileId)
  }

  function Amounts(s: State, rows: set<Id>): map<Id, Cents> {
    map id | id in rows && id in s.commissions :: s.commissions[id].amount
  }

  datatype PreviewGroup = PreviewGroup(rows: set<Id>, totalAmount: Cents)

  ghost function Groups(s: State, rows: set<Id>): map<Id, PreviewGroup> {
    map p | p in ProfilesOf(s, rows) :: PreviewGroup(OwnedBy(s, rows, p), Sum(Amounts(s, OwnedBy(s, rows, p))))
  }

  /** getSettlementPreview: one group per ambassador with something to collect. */
  ghost function Preview(s: State): map<Id, PreviewGroup> {
    Groups(s, Eligible(s, {}))
  }

  function Totals(groups: map<Id, PreviewGroup>): map<Id, Cents> {
    map p | p in groups :: groups[p].totalAmount
  }

  ghost function GrandTotal(groups: map<Id, PreviewGroup>): Cents {
    Sum(Totals(groups))
  }

  // ---------------------------------------------------------------- settlements

  /** The identifiers the database draws for the new settlements clash with each other or with existing rows. */
  predicate Collides(s: State, profiles: set<Id>, uuid: Id -> Id) {
    || (exists p :: p in profiles && uuid(p) in s.settlements)
    || (exists p, q :: p in profiles && q in profiles && p != q && uuid(p) == uuid(q))
  }

  ghost function NewDrafts(groups: map<Id, PreviewGroup>, uuid: Id -> Id): map<Id, Settlement>
  {
    map sid | sid in Image(groups.Keys, uuid) ::
      var p := Origin(groups.Keys, uuid, sid); Settlement(p, groups[p].totalAmount, Draft)
  }

  function Attach(commissions: map<Id, Commission>, rows: set<Id>, uuid: Id -> Id): map<Id, Commission> {
    map id | id in commissions ::
      if id in rows && commissions[id].profileId.Some?
      then commissions[id].(settlementId := Some(uuid(commissions[id].profileId.value)))
      else commissions[id]
  }

  /** createSettlements: a draft per ambassador among the filtered eligible rows. */
  ghost function CreateSettlements(s: State, filter: set<Id>, uuid: Id -> Id): Reply {
    var rows := Eligible(s, filter);
    if rows == {} then Reply(s, BadRequest)
    else if Collides(s, ProfilesOf(s, rows), uuid) then Reply(s, UniqueViolation)
    else
      Reply(s.(settlements := s.settlements + NewDrafts(Groups(s, rows), uuid),
               commissions := Attach(s.commissions, rows, uuid)), Done)
  }

  function PayAttached(commissions: map<Id, Commission>, sid: Id): map<Id, Commission> {
    map id | id in commissions ::
      if commissions[id].settlementId == Some(sid)
      then commissions[id].(status := CommissionStatus.Paid) else commissions[id]
  }

  function DetachAll(commissions: map<Id, Commission>, sid: Id): map<Id, Commission> {
    map id | id in commissions ::
      if commissions[id].settlementId == Some(sid) then commissions[id].(settlementId := None) else commissions[id]
  }

  /** markPaid: every commission of the draft becomes PAID, whatever its status. */
  function MarkPaid(s: State, sid: Id): Reply {
    if sid !in s.settlements then Reply(s, NotFound)
    else if !s.settlements[sid].status.Draft? then Reply(s, BadRequest)
    else
      Reply(s.(settlements := s.settlements[sid := s.settlements[sid].(status := SettlementStatus.Paid)],
               commissions := PayAttached(s.commissions, sid)), Done)
  }

  function CancelDraft(s: State, sid: Id): Reply {
    if sid !in s.settlements then Reply(s, NotFound)
    else if !s.settlements[sid].status.Draft? then Reply(s, BadRequest)
    else
      Reply(s.(settlements := s.settlements[sid := s.settlements[sid].(status := SettlementStatus.Cancelled)],
               commissions := DetachAll(s.commissions, sid)), Done)
  }
}
