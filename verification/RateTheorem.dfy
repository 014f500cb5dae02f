/** The rate bound carried over to the broker: every received packet is one limiter call. */
module RateTheorem {
  import opened Types
  import opened Limiter
  import opened StateMachine
  import opened Steps

  /** The limiter calls of a run. */
  ghost function CallsOf(b: Broker, events: seq<Event>): seq<Call> {
    if events == [] then []
    else
      var front, last := events[..|events| - 1], events[|events| - 1];
      var before := Run(b, front);
      if Receives(before, last)
      then CallsOf(b, front) + [Call(before.hub.conns[last.conn].clientId, last.env.now)]
      else CallsOf(b, front)
  }

  /** The event is a packet of client c, received at a time in [from, to] and admitted. */
  ghost predicate AdmitsIn(b: Broker, e: Event, c: ClientId, from: int, to: int) {
    && Receives(b, e) && IsAdmitted(b, e.conn, e.env)
    && b.hub.conns[e.conn].clientId == c && from <= e.env.now <= to
  }

  ghost function AdmittedPackets(b: Broker, events: seq<Event>, c: ClientId, from: int, to: int): nat {
    if events == [] then 0
    else
      var front, last := events[..|events| - 1], events[|events| - 1];
      AdmittedPackets(b, front, c, from, to) + if AdmitsIn(Run(b, front), last, c, from, to) then 1 else 0
  }

  lemma AdmittedSnoc(limits: Limits, calls: seq<Call>, call: Call, c: ClientId, from: int, to: int)
    ensures Limiter.Admitted(limits, calls + [call], c, from, to) ==
            Limiter.Admitted(limits, calls, c, from, to)
            + if call.clientId == c && from <= call.now <= to && Admits(Calls(limits, calls), limits, c, call.now)
              then 1 else 0
  {
    assert (calls + [call])[..|calls|] == calls;
  }

  /** The limiter's state is the replay of the run's calls. */
  lemma {:induction false} GateIsReplay(b: Broker, events: seq<Event>)
    requires Init(b)
    ensures Run(b, events).gate == Gate(b.gate.limits, Calls(b.gate.limits, CallsOf(b, events)))
  {
    if events != [] {
      var front, last := events[..|events| - 1], events[|events| - 1];
      GateIsReplay(b, front);
      var before := Run(b, front);
      StepGate(before, last);
      if Receives(before, last) {
        CallsSnoc(b.gate.limits, CallsOf(b, front), Call(before.hub.conns[last.conn].clientId, last.env.now));
      }
    }
  }

  lemma {:induction false} AdmittedAreCalls(b: Broker, events: seq<Event>, c: ClientId, from: int, to: int)
    requires Init(b)
    ensures AdmittedPackets(b, events, c, from, to) == Limiter.Admitted(b.gate.limits, CallsOf(b, events), c, from, to)
  {
    if events != [] {
      var front, last := events[..|events| - 1], events[|events| - 1];
      AdmittedAreCalls(b, front, c, from, to);
      GateIsReplay(b, front);
      var before := Run(b, front);
      if Receives(before, last) {
        var call := Call(before.hub.conns[last.conn].clientId, last.env.now);
        AdmittedSnoc(b.gate.limits, CallsOf(b, front), call, c, from, to);
      }
    }
  }

  /** Over every run in which the clock does not go back, in any closed interval of length L the
      broker admits at most (ceil(L / W) + 1) * max(1, limit) packets of one client, over all its
      connections. */
  lemma BrokerRateBound(b: Broker, events: seq<Event>, c: ClientId, from: int, to: int)
    requires Init(b) && Monotone(CallsOf(b, events)) && b.gate.limits.window > 0 && from <= to
    ensures AdmittedPackets(b, events, c, from, to)
            <= (CeilDiv(to - from, b.gate.limits.window) + 1) * AtLeastOne(b.gate.limits.limit)
  {
    AdmittedAreCalls(b, events, c, from, to);
    RateBound(b.gate.limits, CallsOf(b, events), c, from, to);
  }
}
