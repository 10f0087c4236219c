/** The request slots of the Cloudbeds client: a counter, a queue of waiters, and first come, first served. */
module RequestSlots {
  import opened Common

  type Request = nat

  /** active and waiters are what the client stores. The rest is who holds a slot, who has asked for one so far, and
      who has been given one, both in order. */
  datatype Slots = Slots(active: int, waiters: seq<Request>,
                         holders: set<Request>, arrived: seq<Request>, admitted: seq<Request>)

  function NoRequests(): Slots {
    Slots(0, [], {}, [], [])
  }

  /** acquireRequestSlot: request r takes a slot or queues. */
  function Acquire(limit: int, s: Slots, r: Request): Slots {
    if s.active < limit
    then Slots(s.active + 1, s.waiters, s.holders + {r}, s.arrived + [r], s.admitted + [r])
    else Slots(s.active, s.waiters + [r], s.holders, s.arrived + [r], s.admitted)
  }

  /** releaseRequestSlot by holder r; the first waiter, if any, takes the slot. */
  function Release(s: Slots, r: Request): Slots {
    var active := if s.active - 1 > 0 then s.active - 1 else 0;
    var holders := s.holders - {r};
    if s.waiters == [] then Slots(active, [], holders, s.arrived, s.admitted)
    else
      var next := s.waiters[0];
      Slots(active + 1, s.waiters[1..], holders + {next}, s.arrived, s.admitted + [next])
  }

  datatype Event = Ask(request: Request) | Done(request: Request)

  /** runWithConcurrencyLimit asks once for each request, and gives back only a slot it holds. */
  predicate Possible(s: Slots, e: Event) {
    match e
    case Ask(r) => r !in s.arrived
    case Done(r) => r in s.holders
  }

  function After(limit: int, s: Slots, e: Event): Slots {
    match e
    case Ask(r) => Acquire(limit, s, r)
    case Done(r) => Release(s, r)
  }

  ghost predicate PossibleRun(limit: int, s: Slots, events: seq<Event>)
    decreases |events|
  {
    events == [] || (Possible(s, events[0]) && PossibleRun(limit, After(limit, s, events[0]), events[1..]))
  }

  function Run(limit: int, s: Slots, events: seq<Event>): Slots
    decreases |events|
  {
    if events == [] then s else Run(limit, After(limit, s, events[0]), events[1..])
  }

  /** The counter counts the holders and stays within the limit, requests wait only while it is reached, and the
      requests admitted are the first to arrive: whoever waits came after all of them. */
  ghost predicate Fair(limit: int, s: Slots) {
    && s.active == |s.holders|
    && (s.active > 0 ==> s.active <= limit)
    && (s.waiters != [] ==> s.active >= limit)
    && s.arrived == s.admitted + s.waiters
    && Distinct(s.arrived)
    && forall r :: r in s.holders ==> r in s.admitted
  }

  class Client {
    const maxConcurrent: int
    var activeRequests: int
    var requestWaiters: seq<Request>
    ghost var holders: set<Request>
    ghost var arrived: seq<Request>
    ghost var admitted: seq<Request>

    ghost function View(): Slots
      reads this
    {
      Slots(activeRequests, requestWaiters, holders, arrived, admitted)
    }

    constructor (limit: int)
      ensures maxConcurrent == limit && View() == NoRequests()
    {
      maxConcurrent := limit;
      activeRequests, requestWaiters, holders, arrived, admitted := 0, [], {}, [], [];
    }

    /** now is false when the request has to wait. */
    method AcquireRequestSlot(r: Request) returns (now: bool)
      modifies this
      ensures View() == Acquire(maxConcurrent, old(View()), r)
      ensures now <==> requestWaiters == old(requestWaiters)
    {
      arrived := arrived + [r];
      if activeRequests < maxConcurrent {
        activeRequests := activeRequests + 1;
        holders, admitted := holders + {r}, admitted + [r];
        return true;
      }
      requestWaiters := requestWaiters + [r];
      return false;
    }

    /** next is the waiter that takes over the slot. */
    method ReleaseRequestSlot(r: Request) returns (next: Option<Request>)
      modifies this
      ensures View() == Release(old(View()), r)
      ensures next == if old(requestWaiters) == [] then None else Some(old(requestWaiters)[0])
    {
      activeRequests := if activeRequests - 1 > 0 then activeRequests - 1 else 0;
      holders := holders - {r};
      if requestWaiters == [] {
        return None;
      }
      var first := requestWaiters[0];
      requestWaiters := requestWaiters[1..];
      activeRequests := activeRequests + 1;
      holders, admitted := holders + {first}, admitted + [first];
      return Some(first);
    }
  }

  // ---------------------------------------------------------------- every run

  lemma AskKeepsFair(limit: int, s: Slots, r: Request)
    requires Fair(limit, s) && r !in s.arrived
    ensures Fair(limit, Acquire(limit, s, r))
  {
    forall x | x in s.admitted ensures x in s.arrived {}
    if s.active < limit {
      assert s.waiters == [] && r !in s.holders;
      assert s.arrived + [r] == s.admitted + [r] + [];
    } else {
      assert s.arrived + [r] == s.admitted + (s.waiters + [r]);
    }
  }

  lemma DoneKeepsFair(limit: int, s: Slots, r: Request)
    requires Fair(limit, s) && r in s.holders
    ensures Fair(limit, Release(s, r))
  {
    assert |s.holders - {r}| == |s.holders| - 1;
    if s.waiters != [] {
      var next := s.waiters[0];
      WaitersAreNotAdmitted(limit, s, 0);
      assert next !in s.holders;
      assert |s.holders - {r} + {next}| == |s.holders|;
      assert s.admitted + s.waiters == (s.admitted + [next]) + s.waiters[1..];
      forall x | x in s.holders ensures x in s.admitted + [next] {}
    }
  }

  lemma EventKeepsFair(limit: int, s: Slots, e: Event)
    requires Fair(limit, s) && Possible(s, e)
    ensures Fair(limit, After(limit, s, e))
  {
    match e
    case Ask(r) => AskKeepsFair(limit, s, r);
    case Done(r) => DoneKeepsFair(limit, s, r);
  }

  /** No run breaks the limit, loses count or lets a request overtake another. */
  lemma {:induction false} RunsAreFair(limit: int, s: Slots, events: seq<Event>)
    requires Fair(limit, s) && PossibleRun(limit, s, events)
    ensures Fair(limit, Run(limit, s, events))
    decreases |events|
  {
    if events != [] {
      EventKeepsFair(limit, s, events[0]);
      RunsAreFair(limit, After(limit, s, events[0]), events[1..]);
    }
  }

  function Releases(events: seq<Event>): nat {
    if events == [] then 0 else (if events[0].Done? then 1 else 0) + Releases(events[1..])
  }

  /** A waiter with k requests before it moves up with every release, and is admitted by exactly the k + 1st; until then
      it keeps waiting, whoever else arrives. */
  lemma {:induction false} WaiterIsAdmittedInTurn(limit: int, s: Slots, events: seq<Event>, k: nat)
    requires Fair(limit, s) && PossibleRun(limit, s, events) && k < |s.waiters|
    ensures var t := Run(limit, s, events); var n := Releases(events);
      if n <= k then k - n < |t.waiters| && t.waiters[k - n] == s.waiters[k] && s.waiters[k] !in t.admitted
      else s.waiters[k] in t.admitted && s.waiters[k] !in t.waiters
    decreases |events|
  {
    if events == [] {
      WaitersAreNotAdmitted(limit, s, k);
    } else {
      var t := After(limit, s, events[0]);
      EventKeepsFair(limit, s, events[0]);
      if events[0].Done? && k == 0 {
        assert s.waiters[0] in t.admitted;
        AdmittedStays(limit, t, events[1..], s.waiters[0]);
      } else {
        var moved := if events[0].Done? then k - 1 else k;
        assert t.waiters[moved] == s.waiters[k];
        WaiterIsAdmittedInTurn(limit, t, events[1..], moved);
      }
    }
  }

  lemma WaitersAreNotAdmitted(limit: int, s: Slots, k: nat)
    requires Fair(limit, s) && k < |s.waiters|
    ensures s.waiters[k] !in s.admitted
  {
    forall i | 0 <= i < |s.admitted| ensures s.admitted[i] != s.waiters[k] {
      assert s.arrived[i] == s.admitted[i] && s.arrived[|s.admitted| + k] == s.waiters[k];
    }
  }

  lemma {:induction false} AdmittedStays(limit: int, s: Slots, events: seq<Event>, r: Request)
    requires Fair(limit, s) && PossibleRun(limit, s, events) && r in s.admitted
    ensures var t := Run(limit, s, events); r in t.admitted && r !in t.waiters
    decreases |events|
  {
    if events == [] {
      forall k | 0 <= k < |s.waiters| ensures s.waiters[k] != r {
        WaitersAreNotAdmitted(limit, s, k);
      }
    } else {
      EventKeepsFair(limit, s, events[0]);
      AdmittedStays(limit, After(limit, s, events[0]), events[1..], r);
    }
  }

  /** Whoever waits can rely on a release to come exactly when the limit is at least one: with no slot at all, the queue
      only grows. */
  lemma SomebodyHoldsASlot(limit: int, s: Slots)
    requires Fair(limit, s) && s.waiters != []
    ensures s.holders != {} <==> limit >= 1
  {
    if s.holders != {} {
      var r :| r in s.holders;
      assert |s.holders - {r}| == |s.holders| - 1;
    }
  }
}
