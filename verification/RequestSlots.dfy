/** The two counters that bound the participant service: requests being served, and provider calls not yet
    answered. A request that times out gives back its own slot, not that of the call it started. */
module RequestSlots {
  import opened Prelude

  type Request = nat
  type CallId = nat

  datatype Event =
    | Arrive(request: Request, call: CallId)
    | Start(call: CallId)
    | Settle(call: CallId)
    | Finish(request: Request)

  class Gate {
    const limit: nat
    var active: int
    var authenticating: int
    /** The admitted requests that have not finished, and the provider calls that have not been answered. */
    ghost var open: set<Request>
    ghost var pending: set<CallId>

    constructor (limit: nat)
      requires limit > 0
      ensures Valid() && this.limit == limit && open == {} && pending == {}
    {
      this.limit, active, authenticating, open, pending := limit, 0, 0, {}, {};
    }

    ghost predicate Valid()
      reads this
    {
      && active == |open| && authenticating == |pending|
      && 0 <= active <= limit && 0 <= authenticating <= limit
    }

    /** A request is admitted only when both counters have room, and starts its authentication at once. */
    method Arrive(ghost request: Request, ghost call: CallId) returns (admitted: bool)
      requires Valid() && request !in open && call !in pending
      modifies this
      ensures Valid()
      ensures admitted <==> |old(open)| < limit && |old(pending)| < limit
      ensures open == (if admitted then old(open) + {request} else old(open))
      ensures pending == (if admitted then old(pending) + {call} else old(pending))
    {
      if active >= limit || authenticating >= limit { return false; }
      active := active + 1;
      authenticating := authenticating + 1;
      open, pending := open + {request}, pending + {call};
      return true;
    }

    /** A later provider call of an admitted request: registration, discovery or drafting. */
    method Start(ghost call: CallId) returns (started: bool)
      requires Valid() && call !in pending
      modifies this`authenticating, this`pending
      ensures Valid()
      ensures started <==> |old(pending)| < limit
      ensures pending == (if started then old(pending) + {call} else old(pending))
    {
      if authenticating >= limit { return false; }
      authenticating := authenticating + 1;
      pending := pending + {call};
      return true;
    }

    /** The provider answers, however late. */
    method Settle(ghost call: CallId)
      requires Valid() && call in pending
      modifies this`authenticating, this`pending
      ensures Valid() && pending == old(pending) - {call}
    {
      authenticating := authenticating - 1;
      pending := pending - {call};
    }

    /** A request ends: answered, failed, aborted or timed out. */
    method Finish(ghost request: Request)
      requires Valid() && request in open
      modifies this`active, this`open
      ensures Valid() && open == old(open) - {request}
    {
      active := active - 1;
      open := open - {request};
    }
  }

  // ----- every interleaving, as a function of what arrived, ended and was answered

  datatype Slots = Slots(limit: nat, open: set<Request>, pending: set<CallId>)

  predicate Admits(s: Slots) { |s.open| < s.limit && |s.pending| < s.limit }

  function Step(s: Slots, e: Event): Slots {
    match e
    case Arrive(request, call) =>
      if request in s.open || call in s.pending || !Admits(s) then s
      else s.(open := s.open + {request}, pending := s.pending + {call})
    case Start(call) => if call in s.pending || |s.pending| >= s.limit then s else s.(pending := s.pending + {call})
    case Settle(call) => s.(pending := s.pending - {call})
    case Finish(request) => s.(open := s.open - {request})
  }

  function Run(s: Slots, events: seq<Event>): Slots
    decreases |events|
  {
    if events == [] then s else Run(Step(s, events[0]), events[1..])
  }

  /** The counters follow every interleaving of arrivals, answers and endings. */
  method Serve(gate: Gate, events: seq<Event>)
    requires gate.Valid() && gate.open == {} && gate.pending == {}
    modifies gate
    ensures gate.Valid()
    ensures Slots(gate.limit, gate.open, gate.pending) == Run(Slots(gate.limit, {}, {}), events)
    ensures gate.active == |Run(Slots(gate.limit, {}, {}), events).open|
    ensures gate.authenticating == |Run(Slots(gate.limit, {}, {}), events).pending|
  {
    var admitted: set<Request>, started: set<CallId> := {}, {};
    for k := 0 to |events|
      invariant gate.Valid() && admitted == gate.open && started == gate.pending
      invariant Run(Slots(gate.limit, gate.open, gate.pending), events[k..]) == Run(Slots(gate.limit, {}, {}), events)
    {
      assert events[k..][0] == events[k] && events[k..][1..] == events[k + 1..];
      match events[k] {
        case Arrive(request, call) =>
          if request !in admitted && call !in started {
            var ok := gate.Arrive(request, call);
            if ok { admitted, started := admitted + {request}, started + {call}; }
          }
        case Start(call) =>
          if call !in started {
            var ok := gate.Start(call);
            if ok { started := started + {call}; }
          }
        case Settle(call) =>
          if call in started {
            gate.Settle(call);
            started := started - {call};
          } else {
            assert gate.pending - {call} == gate.pending;
          }
        case Finish(request) =>
          if request in admitted {
            gate.Finish(request);
            admitted := admitted - {request};
          } else {
            assert gate.open - {request} == gate.open;
          }
      }
    }
    assert events[|events|..] == [];
  }

  /** Until a call is answered it keeps its slot, whatever happens to the request that started it. */
  lemma {:induction false} UnansweredKeepsItsSlot(s: Slots, events: seq<Event>, call: CallId)
    requires call in s.pending && forall k :: 0 <= k < |events| ==> events[k] != Settle(call)
    ensures call in Run(s, events).pending
    decreases |events|
  {
    if events != [] {
      assert events[0] != Settle(call);
      assert forall k :: 0 <= k < |events[1..]| ==> events[1..][k] == events[k + 1];
      UnansweredKeepsItsSlot(Step(s, events[0]), events[1..], call);
    }
  }

  /** While as many calls as the limit stay unanswered, nothing is admitted, even when every request has ended. */
  lemma {:induction false} UnansweredCallsShutTheDoor(s: Slots, events: seq<Event>, calls: set<CallId>)
    requires calls <= s.pending && |calls| == s.limit
    requires forall k, c :: 0 <= k < |events| && c in calls ==> events[k] != Settle(c)
    ensures !Admits(Run(s, events)) && Run(s, events).open <= s.open
    decreases |events|
  {
    if events == [] {
      SubsetSize(calls, s.pending);
    } else {
      SubsetSize(calls, s.pending);
      var next := Step(s, events[0]);
      assert calls <= next.pending && next.open <= s.open by {
        forall c | c in calls ensures c in next.pending { assert events[0] != Settle(c); }
      }
      assert forall k :: 0 <= k < |events[1..]| ==> events[1..][k] == events[k + 1];
      UnansweredCallsShutTheDoor(next, events[1..], calls);
    }
  }
}
