/** Theorems about settlements over whole runs, and the two ways in which payouts and cancellations can disagree. */
module PayoutTheorems {
  import opened Common
  import opened Tables
  import opened Bookings
  import opened Settlements
  import opened Steps
  import opened Registry
  import opened Payouts

  // ---------------------------------------------------------------- over every run

  /** In every reachable state settlements are worth what is attached to them, and a commission is PAID only inside
      a PAID settlement of its own ambassador. */
  lemma {:induction false} SettlementsBalance(s: State, steps: seq<Step>)
    requires Linked(s) && Settled(s.commissions, s.settlements)
    ensures Linked(Run(s, steps))
    ensures Settled(Run(s, steps).commissions, Run(s, steps).settlements)
    decreases |steps|
  {
    if steps != [] {
      LinkedStep(s, steps[0]);
      StepKeepsSettled(s, steps[0]);
      SettlementsBalance(Next(s, steps[0]), steps[1..]);
    }
  }

  /** Not attached, and waiting for validation or given up. */
  predicate Untrusted(c: Commission) {
    c.settlementId == None && (c.status.PendingValidation? || c.status.Cancelled?)
  }

  /** Nothing happened to it, except perhaps that it was given up. */
  predicate Waits(c: Commission, d: Commission) {
    d == c || d == c.(status := CommissionStatus.Cancelled)
  }

  lemma SettlingKeepsUntrusted(s: State, step: Step, b: Id)
    requires Settles(step) && b in s.commissions && Untrusted(s.commissions[b])
    ensures b in Next(s, step).commissions && Next(s, step).commissions[b] == s.commissions[b]
  {
    hide CreateSettlements, MarkPaid, CancelDraft;
    match step
    case CreateSettlementsStep(filter, uuid) => AttachingKeepsUntrusted(s, filter, uuid, b);
    case MarkPaidStep(sid) => PayoutKeepsUntrusted(s, sid, b);
    case CancelDraftStep(sid) => PayoutKeepsUntrusted(s, sid, b);
  }

  lemma AttachingKeepsUntrusted(s: State, filter: set<Id>, uuid: Id -> Id, b: Id)
    requires b in s.commissions && Untrusted(s.commissions[b])
    ensures var t := CreateSettlements(s, filter, uuid).state;
      b in t.commissions && t.commissions[b] == s.commissions[b]
  {
    hide Collides, Groups, NewDrafts;
    assert b !in Eligible(s, filter);
  }

  lemma PayoutKeepsUntrusted(s: State, sid: Id, b: Id)
    requires b in s.commissions && Untrusted(s.commissions[b])
    ensures var t := MarkPaid(s, sid).state; b in t.commissions && t.commissions[b] == s.commissions[b]
    ensures var t := CancelDraft(s, sid).state; b in t.commissions && t.commissions[b] == s.commissions[b]
  {
    if sid !in s.settlements || !s.settlements[sid].status.Draft? {
    } else {
      assert PayAttached(s.commissions, sid)[b] == DetachAll(s.commissions, sid)[b] == s.commissions[b];
      hide PayAttached, DetachAll;
    }
  }

  lemma StepKeepsUntrusted(s: State, step: Step, b: Id)
    requires s.commissions.Keys <= s.bookings.Keys
    requires b in s.commissions && Untrusted(s.commissions[b]) && ApprovedBy(step) != Some(b)
    ensures b in Next(s, step).commissions && Waits(s.commissions[b], Next(s, step).commissions[b])
  {
    hide Next;
    if Settles(step) {
      SettlingKeepsUntrusted(s, step, b);
    } else {
      StepEvolves(s, step);
      assert Evolves(s.commissions[b], Next(s, step).commissions[b], false);
    }
  }

  /** A commission reported by an ambassador's browser is attached, paid or repriced in no run without its own approval:
      it waits with the terms it was created with. */
  lemma {:induction false} OnlyApprovalReleases(s: State, steps: seq<Step>, b: Id)
    requires Linked(s) && b in s.commissions && Untrusted(s.commissions[b])
    requires forall i :: 0 <= i < |steps| ==> ApprovedBy(steps[i]) != Some(b)
    ensures b in Run(s, steps).commissions && Waits(s.commissions[b], Run(s, steps).commissions[b])
    decreases |steps|
  {
    hide Next;
    if steps != [] {
      LinkedStep(s, steps[0]);
      StepKeepsUntrusted(s, steps[0], b);
      OnlyApprovalReleases(Next(s, steps[0]), steps[1..], b);
    }
  }

  // ---------------------------------------------------------------- two leaks

  predicate PaidIn(s: State, b: Id) {
    && b in s.commissions && s.commissions[b].settlementId.Some?
    && s.commissions[b].settlementId.value in s.settlements
    && s.settlements[s.commissions[b].settlementId.value].status.Paid?
  }

  /** Whatever is attached to a paid settlement has been paid. */
  ghost predicate PaidInFull(s: State) {
    forall b :: b in s.commissions && PaidIn(s, b) ==> s.commissions[b].status.Paid?
  }

  /** Cancelling a booking breaks that exactly when its commission sits in a paid settlement. */
  lemma CancellationAfterPayment(s: State, id: Id)
    requires PaidInFull(s) && CancelBooking(s, id).outcome == Done
    ensures PaidInFull(CancelBooking(s, id).state) <==> !PaidIn(s, id)
  {
    var t := CancelBooking(s, id).state;
    forall b | b in s.commissions
      ensures b in t.commissions && (PaidIn(t, b) <==> PaidIn(s, b))
      ensures t.commissions[b].status == if b == id then CommissionStatus.Cancelled else s.commissions[b].status
    {}
  }

  /** No commission is PAID for a cancelled booking. */
  ghost predicate NothingPaidForCancelled(s: State) {
    forall b :: b in s.commissions && b in s.bookings ==>
      !(s.commissions[b].status.Paid? && s.bookings[b].status.Cancelled?)
  }

  predicate HoldsCancelled(s: State, sid: Id) {
    exists b :: b in s.commissions && b in s.bookings
                && s.commissions[b].settlementId == Some(sid) && s.bookings[b].status.Cancelled?
  }

  /** Paying a draft breaks that exactly when one of its bookings was cancelled after the draft was made. */
  lemma PaymentAfterCancellation(s: State, sid: Id)
    requires NothingPaidForCancelled(s) && MarkPaid(s, sid).outcome == Done
    ensures NothingPaidForCancelled(MarkPaid(s, sid).state) <==> !HoldsCancelled(s, sid)
  {
    var t := MarkPaid(s, sid).state;
    forall b | b in s.commissions
      ensures b in t.commissions
      ensures t.commissions[b].status.Paid?
         <==> s.commissions[b].settlementId == Some(sid) || s.commissions[b].status.Paid?
    {}
    if HoldsCancelled(s, sid) {
      var b :| b in s.commissions && b in s.bookings
               && s.commissions[b].settlementId == Some(sid) && s.bookings[b].status.Cancelled?;
      assert t.commissions[b].status.Paid?;
    }
  }
}
