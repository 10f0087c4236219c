/** The invariants of the booking engine, together, over every run from an empty book. */
module Reachability {
  import opened Tables
  import opened Steps
  import opened Registry
  import opened History
  import opened Freshness
  import opened Payouts
  import opened PayoutTheorems
  import opened PayoutLeaks
  import opened Occupancy
  import opened Mirror
  import opened Notices
  import opened PaymentTrail

  /** What every run keeps, whatever is called. */
  ghost predicate Sound(s: State) {
    && Linked(s) && Faithful(s)
    && Fresh(s, FlexSide)
    && Settled(s.commissions, s.settlements)
    && OnePending(s.payments)
    && Trailed(s)
  }

  lemma InitialIsSound(s: State)
    requires Initial(s)
    ensures Sound(s) && Fresh(s, TemporalSide) && NoOverlap(s.flex) && Dated(s.flex) && Mirrored(s)
    ensures PaidInFull(s) && NothingPaidForCancelled(s)
  {}

  lemma RunStaysSound(s: State, steps: seq<Step>)
    requires Sound(s)
    ensures Sound(Run(s, steps))
  {
    hide Linked, Faithful, Fresh, Settled, OnePending, Trailed, Run;
    SettlementsBalance(s, steps);
    HistoryIsFaithful(s, steps);
    RunKeepsFresh(s, steps);
    AtMostOnePending(s, steps);
    PaymentsAreOnRecord(s, steps);
  }

  /** In every state reachable from an empty book: every flex booking has its registry row and commission, histories
      are faithful logs, pending flex commissions are fresh, settlements balance, no booking has two pending
      payments, and every confirmation by a payment has its payment row. Along runs without a dateless revival no
      property is let twice at a time; along runs without a direct confirmation or completion of a flex row the registry
      mirrors the flex bookings; along runs that delete temporal properties harmlessly pending temporal commissions are
      fresh too; along runs that cancel no paid stay and pay no cancelled one, paid settlements hold paid commissions
      only, and none of a cancelled booking. */
  lemma ReachableStatesAreSound(s: State, steps: seq<Step>)
    requires Initial(s)
    ensures Sound(Run(s, steps))
    ensures CarefulRun(s, steps) ==> NoOverlap(Run(s, steps).flex)
    ensures FlexRun(s, steps) ==> Mirrored(Run(s, steps))
    ensures DeletesHarmlessly(s, steps) ==> Fresh(Run(s, steps), TemporalSide)
    ensures OrderlyRun(s, steps) ==> PaidInFull(Run(s, steps)) && NothingPaidForCancelled(Run(s, steps))
  {
    InitialIsSound(s);
    hide Initial, NoOverlap, Dated, Mirrored, CarefulRun, FlexRun, DeletesHarmlessly, OrderlyRun, Fresh, Run;
    hide PaidInFull, NothingPaidForCancelled;
    RunStaysSound(s, steps);
    if CarefulRun(s, steps) {
      NeverDoubleBooked(s, steps);
    }
    if FlexRun(s, steps) {
      RegistryMirrors(s, steps);
    }
    if DeletesHarmlessly(s, steps) {
      TemporalCommissionsAreFresh(s, steps);
    }
    if OrderlyRun(s, steps) {
      PayoutsMatchCancellations(s, steps);
    }
  }
}
