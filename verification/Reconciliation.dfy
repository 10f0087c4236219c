/** Feeding in the payments the provider finds for a booking, and the periodic reconciliation. */
module Reconciliation {
  import opened Common
  import opened Tables
  import opened Bookings
  import opened Payments
  import opened Effects
  import opened Notices

  /** syncBookingPayments, once the payments are found: the first notice that throws ends it. */
  ghost function Sync(s: State, arrivals: seq<Arrival>): Reply
    decreases |arrivals|
  {
    if arrivals == [] then Reply(s, Done)
    else
      var r := ProcessNotice(s, arrivals[0].row, arrivals[0].notice);
      if r.outcome != Done then r else Sync(r.state, arrivals[1..])
  }

  /** The notices a sync handles, the one that throws included. */
  ghost function Handled(s: State, arrivals: seq<Arrival>): seq<Arrival>
    decreases |arrivals|
  {
    if arrivals == [] then []
    else
      var r := ProcessNotice(s, arrivals[0].row, arrivals[0].notice);
      [arrivals[0]] + if r.outcome != Done then [] else Handled(r.state, arrivals[1..])
  }

  /** The bookings reconcilePendingPayments looks at: live, pending and with an amount due. */
  predicate Awaiting(flex: map<Id, FlexBooking>, id: Id) {
    && id in flex && !flex[id].deleted && flex[id].status.Pending?
    && flex[id].reservationPayment.Some? && flex[id].reservationPayment.value > 0
  }

  predicate StatusMoved(flex: map<Id, FlexBooking>, flex': map<Id, FlexBooking>, id: Id) {
    (if id in flex then Some(flex[id].status) else None) != (if id in flex' then Some(flex'[id].status) else None)
  }

  datatype Tally = Tally(state: State, processed: nat)

  /** reconcilePendingPayments over the ids it picked; a sync that throws is skipped and not counted. */
  ghost function Reconcile(s: State, ids: seq<Id>, found: Id -> seq<Arrival>): Tally
    decreases |ids|
  {
    if ids == [] then Tally(s, 0)
    else
      var r := Sync(s, found(ids[0]));
      var rest := Reconcile(r.state, ids[1..], found);
      rest.(processed := rest.processed
        + if r.outcome == Done && StatusMoved(s.flex, r.state.flex, ids[0]) then 1 else 0)
  }

  /** A booking counts when its sync went through and left it with another status; a sync that throws is passed over. */
  lemma EachIsCountedOnce(s: State, id: Id, rest: seq<Id>, found: Id -> seq<Arrival>)
    requires id in s.flex
    ensures var r := Sync(s, found(id));
      var all, others := Reconcile(s, [id] + rest, found), Reconcile(r.state, rest, found);
      && all.state == others.state
      && (r.outcome != Done ==> all.processed == others.processed)
      && (r.outcome == Done && id in r.state.flex ==>
            all.processed == others.processed + if r.state.flex[id].status == s.flex[id].status then 0 else 1)
  {
    assert ([id] + rest)[1..] == rest;
  }

  /** Every notice a reconciliation handles, in order. */
  ghost function Trace(s: State, ids: seq<Id>, found: Id -> seq<Arrival>): seq<Arrival>
    decreases |ids|
  {
    if ids == [] then []
    else Handled(s, found(ids[0])) + Trace(Sync(s, found(ids[0])).state, ids[1..], found)
  }

  /** The whole reconciliation, when the bookings from the i-th on are still to come. */
  ghost predicate Remains(s: State, processed: nat, ids: seq<Id>, i: nat, found: Id -> seq<Arrival>, total: Tally)
    requires i <= |ids|
  {
    var rest := Reconcile(s, ids[i..], found);
    total == Tally(rest.state, processed + rest.processed)
  }

  lemma RemainsAll(s: State, ids: seq<Id>, found: Id -> seq<Arrival>)
    ensures Remains(s, 0, ids, 0, found, Reconcile(s, ids, found))
  {
    assert ids[0..] == ids;
  }

  lemma RemainsNext(s: State, processed: nat, ids: seq<Id>, i: nat, found: Id -> seq<Arrival>, total: Tally)
    requires i < |ids| && Remains(s, processed, ids, i, found, total)
    ensures var r := Sync(s, found(ids[i]));
      var moved := r.outcome == Done && StatusMoved(s.flex, r.state.flex, ids[i]);
      Remains(r.state, if moved then processed + 1 else processed, ids, i + 1, found, total)
  {
    assert ids[i..][1..] == ids[i + 1..];
  }

  lemma RemainsNone(s: State, processed: nat, ids: seq<Id>, found: Id -> seq<Arrival>, total: Tally)
    requires Remains(s, processed, ids, |ids|, found, total)
    ensures total == Tally(s, processed)
  {}

  // ---------------------------------------------------------------- a reconciliation is a sequence of notices

  lemma {:induction false} ReceiveAppend(s: State, first: seq<Arrival>, then_: seq<Arrival>)
    ensures Receive(s, first + then_) == Receive(Receive(s, first), then_)
    decreases |first|
  {
    if first == [] {
      assert first + then_ == then_;
    } else {
      assert (first + then_)[1..] == first[1..] + then_;
      ReceiveAppend(ProcessNotice(s, first[0].row, first[0].notice).state, first[1..], then_);
    }
  }

  lemma {:induction false} SyncReceives(s: State, arrivals: seq<Arrival>)
    ensures Sync(s, arrivals).state == Receive(s, Handled(s, arrivals))
    decreases |arrivals|
  {
    if arrivals != [] {
      var r := ProcessNotice(s, arrivals[0].row, arrivals[0].notice);
      if r.outcome != Done {
        assert Handled(s, arrivals) == [arrivals[0]];
        assert Receive(r.state, []) == r.state;
      } else {
        SyncReceives(r.state, arrivals[1..]);
        assert Handled(s, arrivals)[1..] == Handled(r.state, arrivals[1..]);
      }
    }
  }

  /** So what holds after any sequence of notices holds after a reconciliation, thrown syncs included. */
  lemma {:induction false} ReconcileReceives(s: State, ids: seq<Id>, found: Id -> seq<Arrival>)
    ensures Reconcile(s, ids, found).state == Receive(s, Trace(s, ids, found))
    decreases |ids|
  {
    if ids != [] {
      var r := Sync(s, found(ids[0]));
      SyncReceives(s, found(ids[0]));
      ReconcileReceives(r.state, ids[1..], found);
      ReceiveAppend(s, Handled(s, found(ids[0])), Trace(r.state, ids[1..], found));
    }
  }

  // ---------------------------------------------------------------- what a reconciliation counts

  predicate AllName(arrivals: seq<Arrival>, f: Id) {
    forall i :: 0 <= i < |arrivals| ==> arrivals[i].notice.reference == Some(f)
  }

  /** Flex rows other than f are as before, and f either kept its row or was confirmed and holds no pending payment. */
  ghost predicate OnlyConfirms(s: State, t: State, f: Id) {
    && t.flex.Keys == s.flex.Keys
    && (forall g :: g in s.flex && g != f ==> t.flex[g] == s.flex[g])
    && (f in s.flex && t.flex[f].status != s.flex[f].status ==>
          t.flex[f].status.Confirmed? && !t.flex[f].deleted && NothingPending(t.payments, f))
  }

  ghost predicate NothingPending(payments: map<Id, Payment>, f: Id) {
    forall p :: !PendingFor(payments, p, f)
  }

  lemma RecordSettles(s: State, f: Id, row: Id, n: Notice)
    requires OnePending(s.payments) && f in s.flex && RecordApproved(s, f, row, n).outcome == Done
    ensures NothingPending(RecordApproved(s, f, row, n).state.payments, f)
  {
    var t := RecordApproved(s, f, row, n).state;
    if PendingRow(s.payments, f) == None {
      assert !exists p :: PendingFor(s.payments, p, f);
      forall p ensures !PendingFor(t.payments, p, f) {
        assert !PendingFor(s.payments, p, f);
      }
    } else {
      var id := PendingRow(s.payments, f).value;
      forall p ensures !PendingFor(t.payments, p, f) {
        if p != id && p in s.payments {
          assert !Rivals(s.payments[p], s.payments[id]);
        }
      }
    }
  }

  lemma ConfirmingIsDone(s: State, a: Arrival)
    ensures Confirms(s, a.row, a.notice) ==> ProcessNotice(s, a.row, a.notice).outcome == Done
  {
    hide OnePending;
    if Confirms(s, a.row, a.notice) {
      var f := a.notice.reference.value;
      RecordEffect(s, f, a.row, a.notice);
      hide RecordApproved;
    }
  }

  /** What a notice does to the flex rows. */
  lemma NoticeFlex(s: State, a: Arrival)
    ensures var t := ProcessNotice(s, a.row, a.notice).state;
      t.flex == if Confirms(s, a.row, a.notice)
                then s.flex[a.notice.reference.value :=
                  s.flex[a.notice.reference.value].(status := FlexStatus.Confirmed)]
                else s.flex
  {
    NoticeEffect(s, a.row, a.notice);
    hide ProcessNotice, AmountMatches, Recordable, Logged, ApprovePending;
  }

  lemma ConfirmingSettles(s: State, a: Arrival)
    requires OnePending(s.payments) && Confirms(s, a.row, a.notice)
    ensures NothingPending(ProcessNotice(s, a.row, a.notice).state.payments, a.notice.reference.value)
  {
    var f := a.notice.reference.value;
    RecordEffect(s, f, a.row, a.notice);
    ConfirmKeepsPayments(RecordApproved(s, f, a.row, a.notice).state, f, a.notice.paymentId);
    hide OnePending, NothingPending, Recordable, RecordApproved;
    RecordSettles(s, f, a.row, a.notice);
  }

  lemma NoticeOnlyConfirms(s: State, a: Arrival, f: Id)
    requires OnePending(s.payments) && a.notice.reference == Some(f)
    ensures var r := ProcessNotice(s, a.row, a.notice);
      && OnlyConfirms(s, r.state, f)
      && (f in s.flex && r.state.flex[f].status != s.flex[f].status ==> r.outcome == Done)
  {
    hide ProcessNotice, OnePending, NothingPending, Recordable, AmountMatches;
    NoticeFlex(s, a);
    ConfirmingIsDone(s, a);
    if Confirms(s, a.row, a.notice) {
      ConfirmingSettles(s, a);
    }
  }

  lemma StatusKeepsSettled(payments: map<Id, Payment>, f: Id, mp: Id, st: PaymentStatus)
    requires NothingPending(payments, f) && !st.Pending?
    ensures NothingPending(SetStatusOf(payments, mp, st), f)
  {
    forall p ensures !PendingFor(SetStatusOf(payments, mp, st), p, f) {
      assert !PendingFor(payments, p, f);
    }
  }

  lemma NothingToClaim(payments: map<Id, Payment>, f: Id)
    requires NothingPending(payments, f)
    ensures forall p :: !Unclaimed(payments, p, f)
  {
    forall p ensures !Unclaimed(payments, p, f) {
      assert !PendingFor(payments, p, f);
    }
  }

  /** A confirmed booking without a pending row takes any notice that names it without a throw. */
  lemma SettledTakesNotice(s: State, a: Arrival, f: Id)
    requires a.notice.reference == Some(f) && f in s.flex && s.flex[f].status.Confirmed?
      && NothingPending(s.payments, f)
    ensures var r := ProcessNotice(s, a.row, a.notice);
      r.outcome == Done && r.state.flex == s.flex && NothingPending(r.state.payments, f)
  {
    NothingToClaim(s.payments, f);
    StatusKeepsSettled(s.payments, f, a.notice.paymentId, PaymentStatus.Approved);
    StatusKeepsSettled(s.payments, f, a.notice.paymentId, PaymentStatus.Refunded);
    hide NothingPending, SetStatusOf, Claim, MpTaken, Unclaimed, AmountMatches, RecordApproved;
  }

  lemma {:induction false} SettledTakesAll(s: State, f: Id, arrivals: seq<Arrival>)
    requires AllName(arrivals, f) && f in s.flex && s.flex[f].status.Confirmed? && NothingPending(s.payments, f)
    ensures var r := Sync(s, arrivals);
      r.outcome == Done && r.state.flex == s.flex && NothingPending(r.state.payments, f)
    decreases |arrivals|
  {
    if arrivals != [] {
      SettledTakesNotice(s, arrivals[0], f);
      SettledTakesAll(ProcessNotice(s, arrivals[0].row, arrivals[0].notice).state, f, arrivals[1..]);
    }
  }

  lemma NoticeKeepsOnePending(s: State, a: Arrival)
    requires OnePending(s.payments)
    ensures OnePending(ProcessNotice(s, a.row, a.notice).state.payments)
  {
    if a.notice.status.Approved? {
      ApprovedKeepsOnePending(s, a.row, a.notice);
    } else {
      ClaimKeepsOnePending(s, a.row, a.notice);
    }
  }

  /** A sync that confirms its booking never throws, so a reconciliation always counts it. */
  lemma {:induction false} SyncOnlyConfirms(s: State, f: Id, arrivals: seq<Arrival>)
    requires OnePending(s.payments) && AllName(arrivals, f)
    ensures var r := Sync(s, arrivals);
      && OnePending(r.state.payments)
      && OnlyConfirms(s, r.state, f)
      && (f in s.flex && r.state.flex[f].status != s.flex[f].status ==> r.outcome == Done)
    decreases |arrivals|
  {
    hide ProcessNotice, OnePending, NothingPending;
    if arrivals != [] {
      var r := ProcessNotice(s, arrivals[0].row, arrivals[0].notice);
      NoticeKeepsOnePending(s, arrivals[0]);
      NoticeOnlyConfirms(s, arrivals[0], f);
      if r.outcome == Done {
        SyncOnlyConfirms(r.state, f, arrivals[1..]);
        if f in s.flex && r.state.flex[f].status != s.flex[f].status {
          SettledTakesAll(r.state, f, arrivals[1..]);
        }
      }
    }
  }

  lemma NoticeLeavesOrConfirms(s: State, a: Arrival, f: Id)
    requires a.notice.reference == Some(f)
    ensures var t := ProcessNotice(s, a.row, a.notice).state;
      t == s.(payments := t.payments)
      || (f in s.flex && f in t.flex && t.flex[f].status.Confirmed? && !s.flex[f].status.Confirmed?)
  {
    NoticeEffect(s, a.row, a.notice);
    hide ProcessNotice, AmountMatches, Recordable, Logged, ApprovePending;
  }

  /** A sync whose payments all name its booking and that throws leaves nothing behind but payment rows: the booking,
      its registry row, its history and its commission are as before. */
  lemma {:induction false} ThrownSyncLeavesPayments(s: State, f: Id, arrivals: seq<Arrival>)
    requires OnePending(s.payments) && AllName(arrivals, f) && Sync(s, arrivals).outcome != Done
    ensures var t := Sync(s, arrivals).state; t == s.(payments := t.payments)
    decreases |arrivals|
  {
    hide ProcessNotice, OnePending, NothingPending;
    SyncOnlyConfirms(s, f, arrivals);
    var r := ProcessNotice(s, arrivals[0].row, arrivals[0].notice);
    NoticeKeepsOnePending(s, arrivals[0]);
    NoticeLeavesOrConfirms(s, arrivals[0], f);
    NoticeOnlyConfirms(s, arrivals[0], f);
    if r.outcome == Done {
      if r.state != s.(payments := r.state.payments) {
        SettledTakesAll(r.state, f, arrivals[1..]);
      }
      ThrownSyncLeavesPayments(r.state, f, arrivals[1..]);
    }
  }

  function Moved(flex: map<Id, FlexBooking>, flex': map<Id, FlexBooking>): set<Id> {
    set f | f in flex && (f !in flex' || flex'[f].status != flex[f].status)
  }

  lemma MovedSplit(s: State, t: State, u: State, f: Id)
    requires OnlyConfirms(s, t, f) && u.flex.Keys == s.flex.Keys
    requires f in u.flex ==> u.flex[f] == t.flex[f]
    ensures |Moved(s.flex, u.flex)| == |Moved(t.flex, u.flex)| + (if StatusMoved(s.flex, t.flex, f) then 1 else 0)
    ensures forall g :: g in Moved(s.flex, u.flex) ==>
      (g == f && u.flex[g].status.Confirmed?) || g in Moved(t.flex, u.flex)
  {
    assert Moved(s.flex, u.flex) == Moved(t.flex, u.flex) + (if StatusMoved(s.flex, t.flex, f) then {f} else {});
    assert f !in Moved(t.flex, u.flex);
  }

  /** With distinct bookings, each answered with payments that name it: processed is the number of flex bookings whose
      status changed, all of them picked, and every one of those is now confirmed. */
  lemma {:induction false} ReconcileCounts(s: State, ids: seq<Id>, found: Id -> seq<Arrival>)
    requires OnePending(s.payments)
    requires forall i, j :: 0 <= i < j < |ids| ==> ids[i] != ids[j]
    requires forall id :: id in ids ==> AllName(found(id), id)
    ensures var t := Reconcile(s, ids, found);
      && OnePending(t.state.payments)
      && t.state.flex.Keys == s.flex.Keys
      && (forall g :: g in s.flex && g !in ids ==> t.state.flex[g] == s.flex[g])
      && t.processed == |Moved(s.flex, t.state.flex)|
      && (forall g :: g in Moved(s.flex, t.state.flex) ==> g in ids && t.state.flex[g].status.Confirmed?)
    decreases |ids|
  {
    if ids == [] {
      assert Moved(s.flex, s.flex) == {};
    } else {
      hide Sync, OnePending, NothingPending, Moved, AllName;
      var f := ids[0];
      var r := Sync(s, found(f));
      SyncOnlyConfirms(s, f, found(f));
      ReconcileCounts(r.state, ids[1..], found);
      MovedSplit(s, r.state, Reconcile(s, ids, found).state, f);
    }
  }
}
