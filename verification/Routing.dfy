/** Fan-out of one PUBLISH to its subscribers: internal/broker/router/router.go. */
module Routing {
  import opened Types
  import opened Subscriptions
  import opened Sessions
  import opened Storage

  /** Why a packet was put on a connection. */
  datatype Via = Reply | Routed | Replayed

  /** One attempt to send a packet, and whether the transport accepted it. */
  datatype Sent = Sent(conn: ConnId, packet: Packet, ok: bool, via: Via)

  datatype Metrics = Metrics(
    packetsIn: int,
    packetsOut: int,
    publishes: int,
    subscriptions: int,
    authFailures: int,
    rateLimited: int,
    failedDeliveries: int,
    activeSessions: int,
    offlineQueue: int)

  /** What the environment decides while one packet is routed: which matches' sends fail, for which
      matches the queue reports an error, and the time of each enqueue.  A registry holds a filter
      once per client, so naming outcomes by match leaves every combination possible. */
  datatype RouteEnv = RouteEnv(unsent: set<Match>, queueDown: set<Match>, clock: Match -> int)

  /** What can be observed from outside: the sends, the calls on the queue and the counters. */
  datatype Trace = Trace(sends: seq<Sent>, ops: seq<QueueOp>, metrics: Metrics)

  function Logged(t: Trace, s: Sent): Trace {
    t.(sends := t.sends + [s])
  }

  /** The state Route changes, its result, and whether it returned early with a queue error. */
  datatype Fanout = Fanout(offline: OfflineTable, trace: Trace, delivered: nat, failed: bool)

  function Outbound(packet: Packet, m: Match): Packet {
    if packet.qos > m.qos then packet.(qos := m.qos) else packet
  }

  function Enqueue(f: Fanout, clientId: ClientId, packet: Packet, m: Match, env: RouteEnv): Fanout {
    if m in env.queueDown then f.(failed := true)
    else
      var row := RowFor(clientId, packet, env.clock(m));
      var t := f.trace;
      f.(offline := Queued(f.offline, row),
         trace := t.(ops := t.ops + [Enqueued(row, packet.packetId !in f.offline)],
                     metrics := t.metrics.(offlineQueue := t.metrics.offlineQueue + 1)))
  }

  function RouteOne(f: Fanout, sessions: SessionTable, packet: Packet, m: Match, env: RouteEnv): Fanout {
    if f.failed || m.clientId !in sessions then f
    else
      var target, outbound := sessions[m.clientId], Outbound(packet, m);
      if target.online && target.conn.Some? then
        var t := Logged(f.trace, Sent(target.conn.value, outbound, m !in env.unsent, Routed));
        if m !in env.unsent then
          f.(trace := t.(metrics := t.metrics.(packetsOut := t.metrics.packetsOut + 1)), delivered := f.delivered + 1)
        else
          var g := f.(trace := t.(metrics := t.metrics.(failedDeliveries := t.metrics.failedDeliveries + 1)));
          if outbound.qos > 0 then Enqueue(g, target.clientId, outbound, m, env) else g
      else if outbound.qos > 0 then Enqueue(f, target.clientId, outbound, m, env)
      else f
  }

  function RouteAll(f: Fanout, sessions: SessionTable, packet: Packet, matches: seq<Match>, env: RouteEnv): Fanout {
    if matches == [] then f
    else RouteOne(RouteAll(f, sessions, packet, matches[..|matches| - 1], env),
                  sessions, packet, matches[|matches| - 1], env)
  }

  class MetricsRegistry {
    var values: Metrics

    constructor ()
      ensures values == Metrics(0, 0, 0, 0, 0, 0, 0, 0, 0)
    {
      values := Metrics(0, 0, 0, 0, 0, 0, 0, 0, 0);
    }
  }

  /** The connections, as seen by the broker: every send is recorded with its outcome. */
  class Network {
    ghost var sends: seq<Sent>

    constructor ()
      ensures sends == []
    {
      sends := [];
    }

    method Send(conn: ConnId, packet: Packet, ok: bool, via: Via) returns (accepted: bool)
      modifies this
      ensures accepted == ok
      ensures sends == old(sends) + [Sent(conn, packet, ok, via)]
    {
      sends := sends + [Sent(conn, packet, ok, via)];
      accepted := ok;
    }
  }

  class Router {
    const sessions: SessionStore
    const subscriptions: Registry
    const offline: PersistentQueue
    const metrics: MetricsRegistry
    const net: Network

    constructor (sessions: SessionStore, subscriptions: Registry, offline: PersistentQueue,
                 metrics: MetricsRegistry, net: Network)
      ensures this.sessions == sessions && this.subscriptions == subscriptions && this.offline == offline
      ensures this.metrics == metrics && this.net == net
    {
      this.sessions, this.subscriptions, this.offline := sessions, subscriptions, offline;
      this.metrics, this.net := metrics, net;
    }

    ghost function View(delivered: nat, failed: bool): Fanout
      reads offline, offline.repo, metrics, net
    {
      Fanout(offline.repo.offline, Trace(net.sends, offline.ops, metrics.values), delivered, failed)
    }

    method Route(packet: Packet, env: RouteEnv) returns (delivered: nat, ok: bool, ghost matches: seq<Match>)
      modifies offline, offline.repo`offline, metrics, net
      ensures IsMatchList(matches, subscriptions.byClient, packet.topic)
      ensures View(delivered, !ok) == RouteAll(old(View(0, false)), sessions.sessions, packet, matches, env)
    {
      var found := subscriptions.Match(packet.topic);
      matches := found;
      delivered, ok := 0, true;
      ghost var start, table := View(0, false), sessions.sessions;
      var n := 0;
      while n < |found| && ok
        invariant 0 <= n <= |found|
        invariant sessions.sessions == table && subscriptions.byClient == old(subscriptions.byClient)
        invariant View(delivered, !ok) == RouteAll(start, table, packet, matches[..n], env)
      {
        RouteSnoc(start, table, packet, matches, env, n);
        ok, delivered := Deliver(packet, found[n], env, delivered);
        n := n + 1;
      }
      RouteStops(start, table, packet, matches, env, n);
    }

    /** The body of the loop of Route, for one match. */
    method Deliver(packet: Packet, m: Match, env: RouteEnv, count: nat) returns (ok: bool, delivered: nat)
      modifies offline, offline.repo`offline, metrics, net
      ensures View(delivered, !ok) == RouteOne(old(View(count, false)), sessions.sessions, packet, m, env)
    {
      delivered := count;
      var found := sessions.Get(m.clientId);
      if found.None? {
        return true, delivered;
      }
      var target := found.value;
      var outbound := packet;
      if outbound.qos > m.qos {
        outbound := outbound.(qos := m.qos);
      }
      if target.online && target.conn.Some? {
        var sent := net.Send(target.conn.value, outbound, m !in env.unsent, Routed);
        if !sent {
          metrics.values := metrics.values.(failedDeliveries := metrics.values.failedDeliveries + 1);
          if outbound.qos > 0 {
            ok := offline.Enqueue(target.clientId, outbound, env.clock(m), m in env.queueDown);
            if !ok {
              return;
            }
            metrics.values := metrics.values.(offlineQueue := metrics.values.offlineQueue + 1);
          }
          return true, delivered;
        }
        metrics.values := metrics.values.(packetsOut := metrics.values.packetsOut + 1);
        return true, delivered + 1;
      }
      if outbound.qos > 0 {
        ok := offline.Enqueue(target.clientId, outbound, env.clock(m), m in env.queueDown);
        if !ok {
          return;
        }
        metrics.values := metrics.values.(offlineQueue := metrics.values.offlineQueue + 1);
      }
      ok := true;
    }
  }

  lemma RouteSnoc(f: Fanout, sessions: SessionTable, packet: Packet, matches: seq<Match>, env: RouteEnv, n: nat)
    requires n < |matches|
    ensures RouteAll(f, sessions, packet, matches[..n + 1], env) ==
            RouteOne(RouteAll(f, sessions, packet, matches[..n], env), sessions, packet, matches[n], env)
  {
    assert matches[..n + 1][..n] == matches[..n];
  }

  /** A queue error ends the fan-out: the remaining matches change nothing. */
  lemma {:induction false} RouteStops(f: Fanout, sessions: SessionTable, packet: Packet, matches: seq<Match>,
                                      env: RouteEnv, n: nat)
    requires n <= |matches| && (n == |matches| || RouteAll(f, sessions, packet, matches[..n], env).failed)
    ensures RouteAll(f, sessions, packet, matches, env) == RouteAll(f, sessions, packet, matches[..n], env)
    decreases |matches|
  {
    if n == |matches| {
      assert matches[..n] == matches;
    } else {
      var front := matches[..|matches| - 1];
      assert front[..n] == matches[..n];
      RouteStops(f, sessions, packet, front, env, n);
    }
  }

  // ---- What fan-out means, match by match ----

  ghost predicate WasSent(sessions: SessionTable, env: RouteEnv, m: Match) {
    && m.clientId in sessions && sessions[m.clientId].online && sessions[m.clientId].conn.Some?
    && m !in env.unsent
  }

  ghost predicate NeedsQueue(sessions: SessionTable, packet: Packet, env: RouteEnv, m: Match) {
    m.clientId in sessions && !WasSent(sessions, env, m) && Outbound(packet, m).qos > 0
  }

  ghost predicate IsDropped(sessions: SessionTable, packet: Packet, env: RouteEnv, m: Match) {
    m.clientId in sessions && !WasSent(sessions, env, m) && Outbound(packet, m).qos <= 0
  }

  /** The attempt a match gives rise to, if its client is online. */
  ghost function Attempts(sessions: SessionTable, packet: Packet, env: RouteEnv): Match -> seq<Sent> {
    (m: Match) =>
      if m.clientId in sessions && sessions[m.clientId].online && sessions[m.clientId].conn.Some?
      then [Sent(sessions[m.clientId].conn.value, Outbound(packet, m), m !in env.unsent, Routed)]
      else []
  }

  ghost function Selected(p: Match -> bool): Match -> seq<Match> {
    (m: Match) => if p(m) then [m] else []
  }

  ghost function SentIf(sessions: SessionTable, env: RouteEnv): Match -> bool {
    (m: Match) => WasSent(sessions, env, m)
  }

  ghost function FailedIf(sessions: SessionTable, env: RouteEnv): Match -> bool {
    (m: Match) => m.clientId in sessions && sessions[m.clientId].online && sessions[m.clientId].conn.Some?
                  && m in env.unsent
  }

  ghost function QueuedIf(sessions: SessionTable, packet: Packet, env: RouteEnv): Match -> bool {
    (m: Match) => NeedsQueue(sessions, packet, env, m)
  }

  ghost function DroppedIf(sessions: SessionTable, packet: Packet, env: RouteEnv): Match -> bool {
    (m: Match) => IsDropped(sessions, packet, env, m)
  }

  ghost function HasSession(sessions: SessionTable): Match -> bool {
    (m: Match) => m.clientId in sessions
  }

  /** How many matches satisfy `p`. */
  ghost function Tally(matches: seq<Match>, p: Match -> bool): nat {
    |FlatMap(matches, Selected(p))|
  }

  function OwnedRow(sessions: SessionTable, packet: Packet, env: RouteEnv, m: Match): OfflineRow
    requires m.clientId in sessions
  {
    RowFor(sessions[m.clientId].clientId, Outbound(packet, m), env.clock(m))
  }

  /** A queue error happens exactly when some match that needs the queue finds it down. */
  lemma {:induction false} FanoutError(f: Fanout, sessions: SessionTable, packet: Packet, matches: seq<Match>,
                                       env: RouteEnv)
    requires !f.failed
    ensures RouteAll(f, sessions, packet, matches, env).failed <==>
            exists m :: m in matches && NeedsQueue(sessions, packet, env, m) && m in env.queueDown
  {
    if matches != [] {
      var front, last := matches[..|matches| - 1], matches[|matches| - 1];
      assert matches == front + [last];
      FanoutError(f, sessions, packet, front, env);
    }
  }

  lemma TallySnoc(matches: seq<Match>, m: Match, p: Match -> bool)
    ensures Tally(matches + [m], p) == Tally(matches, p) + if p(m) then 1 else 0
  {
    FlatMapSnoc(matches, m, Selected(p));
  }

  function Counted(v: Metrics, sent: int, failed: int, queued: int): Metrics {
    v.(packetsOut := v.packetsOut + sent,
       failedDeliveries := v.failedDeliveries + failed,
       offlineQueue := v.offlineQueue + queued)
  }

  function One(b: bool): int {
    if b then 1 else 0
  }

  lemma OneMatch(f: Fanout, sessions: SessionTable, packet: Packet, m: Match, env: RouteEnv)
    requires !RouteOne(f, sessions, packet, m, env).failed
    ensures var g := RouteOne(f, sessions, packet, m, env);
            && g.trace.sends == f.trace.sends + Attempts(sessions, packet, env)(m)
            && g.delivered == f.delivered + One(SentIf(sessions, env)(m))
            && g.trace.metrics == Counted(f.trace.metrics, One(SentIf(sessions, env)(m)),
                                    One(FailedIf(sessions, env)(m)), One(QueuedIf(sessions, packet, env)(m)))
  {
  }

  /** Without an error the sends are the attempts of the matches, in order. */
  lemma {:induction false} FanoutSends(f: Fanout, sessions: SessionTable, packet: Packet, matches: seq<Match>,
                                       env: RouteEnv)
    requires !RouteAll(f, sessions, packet, matches, env).failed
    ensures RouteAll(f, sessions, packet, matches, env).trace.sends ==
            f.trace.sends + FlatMap(matches, Attempts(sessions, packet, env))
  {
    if matches != [] {
      var front, last := matches[..|matches| - 1], matches[|matches| - 1];
      FanoutSends(f, sessions, packet, front, env);
      OneMatch(RouteAll(f, sessions, packet, front, env), sessions, packet, last, env);
    }
  }

  /** Without an error the result and the counters count the matches by how they ended. */
  lemma {:induction false} FanoutCounts(f: Fanout, sessions: SessionTable, packet: Packet, matches: seq<Match>,
                                        env: RouteEnv)
    requires !RouteAll(f, sessions, packet, matches, env).failed
    ensures var g := RouteAll(f, sessions, packet, matches, env);
            && g.delivered == f.delivered + Tally(matches, SentIf(sessions, env))
            && g.trace.metrics == Counted(f.trace.metrics, Tally(matches, SentIf(sessions, env)),
                                    Tally(matches, FailedIf(sessions, env)),
                                    Tally(matches, QueuedIf(sessions, packet, env)))
  {
    if matches != [] {
      var front, last := matches[..|matches| - 1], matches[|matches| - 1];
      assert matches == front + [last];
      FanoutCounts(f, sessions, packet, front, env);
      OneMatch(RouteAll(f, sessions, packet, front, env), sessions, packet, last, env);
      TallySnoc(front, last, SentIf(sessions, env));
      TallySnoc(front, last, FailedIf(sessions, env));
      TallySnoc(front, last, QueuedIf(sessions, packet, env));
    }
  }

  /** Without an error every match of a client with a session ends in exactly one way: it was
      delivered, it was handed to the queue, or its effective QoS was not positive and it was dropped.
      Matches of clients without a session are skipped. */
  lemma {:induction false} OneEndPerMatch(f: Fanout, sessions: SessionTable, packet: Packet, matches: seq<Match>,
                                          env: RouteEnv)
    requires !RouteAll(f, sessions, packet, matches, env).failed
    ensures var g := RouteAll(f, sessions, packet, matches, env);
            Tally(matches, HasSession(sessions)) == (g.delivered - f.delivered) + (|g.trace.ops| - |f.trace.ops|)
                                                    + Tally(matches, DroppedIf(sessions, packet, env))
  {
    if matches != [] {
      var front, last := matches[..|matches| - 1], matches[|matches| - 1];
      assert matches == front + [last];
      OneEndPerMatch(f, sessions, packet, front, env);
      TallySnoc(front, last, DroppedIf(sessions, packet, env));
      TallySnoc(front, last, HasSession(sessions));
    }
  }

  /** The queue after a fan-out, with or without an error: nothing changed, or the packet's id was
      free and one row was added, for one of the matches that needed the queue. */
  lemma {:induction false} FanoutQueue(f: Fanout, sessions: SessionTable, packet: Packet, matches: seq<Match>,
                                       env: RouteEnv)
    ensures var g := RouteAll(f, sessions, packet, matches, env);
            || g.offline == f.offline
            || (&& packet.packetId !in f.offline
                && exists m :: m in matches && NeedsQueue(sessions, packet, env, m)
                               && g.offline == f.offline[packet.packetId := OwnedRow(sessions, packet, env, m)])
  {
    if matches != [] {
      var front, last := matches[..|matches| - 1], matches[|matches| - 1];
      assert matches == front + [last];
      FanoutQueue(f, sessions, packet, front, env);
      var g := RouteAll(f, sessions, packet, front, env);
      if g.offline == f.offline {
        assert NeedsQueue(sessions, packet, env, last) || RouteOne(g, sessions, packet, last, env).offline == g.offline;
      } else {
        assert packet.packetId in g.offline;
      }
    }
  }

  ghost predicate IsAttempt(s: Sent, sessions: SessionTable, packet: Packet, matches: seq<Match>, env: RouteEnv) {
    exists m :: m in matches && Attempts(sessions, packet, env)(m) == [s]
  }

  /** Whatever happens, a fan-out only adds sends, and each is the attempt of one of the matches. */
  lemma {:induction false} FanoutOnlyAttempts(f: Fanout, sessions: SessionTable, packet: Packet, matches: seq<Match>,
                                              env: RouteEnv)
    ensures f.trace.sends <= RouteAll(f, sessions, packet, matches, env).trace.sends
    ensures forall i :: |f.trace.sends| <= i < |RouteAll(f, sessions, packet, matches, env).trace.sends| ==>
              IsAttempt(RouteAll(f, sessions, packet, matches, env).trace.sends[i], sessions, packet, matches, env)
  {
    if matches != [] {
      var front, last := matches[..|matches| - 1], matches[|matches| - 1];
      assert matches == front + [last];
      FanoutOnlyAttempts(f, sessions, packet, front, env);
      var g := RouteAll(f, sessions, packet, front, env);
      var after := RouteOne(g, sessions, packet, last, env).trace.sends;
      assert after == g.trace.sends || after == g.trace.sends + Attempts(sessions, packet, env)(last);
      forall i | |f.trace.sends| <= i < |after| ensures IsAttempt(after[i], sessions, packet, matches, env) {
        if i < |g.trace.sends| {
          assert IsAttempt(g.trace.sends[i], sessions, packet, front, env);
          var m :| m in front && Attempts(sessions, packet, env)(m) == [g.trace.sends[i]];
          assert m in matches;
        } else {
          assert last in matches && Attempts(sessions, packet, env)(last) == [after[i]];
        }
      }
    }
  }

  /** If some match needed the queue and no error occurred, the queue holds the packet's id. */
  lemma {:induction false} NeededIsQueued(f: Fanout, sessions: SessionTable, packet: Packet, matches: seq<Match>,
                                          env: RouteEnv, m: Match)
    requires m in matches && NeedsQueue(sessions, packet, env, m)
    requires !RouteAll(f, sessions, packet, matches, env).failed
    ensures packet.packetId in RouteAll(f, sessions, packet, matches, env).offline
  {
    var front, last := matches[..|matches| - 1], matches[|matches| - 1];
    assert matches == front + [last];
    if m != last {
      NeededIsQueued(f, sessions, packet, front, env, m);
    }
  }

  /** Fan-out does not depend on the map's iteration order: same deliveries, same sends up to
      reordering, same counters, same queued ids; only the owner of a new row may differ. */
  lemma FanoutOrderIndependent(f: Fanout, sessions: SessionTable, packet: Packet, table: SubTable, env: RouteEnv,
                               ms1: seq<Match>, ms2: seq<Match>)
    requires !f.failed && IsMatchList(ms1, table, packet.topic) && IsMatchList(ms2, table, packet.topic)
    ensures var g1, g2 := RouteAll(f, sessions, packet, ms1, env), RouteAll(f, sessions, packet, ms2, env);
            && g1.failed == g2.failed
            && (!g1.failed ==>
                  && g1.delivered == g2.delivered
                  && multiset(g1.trace.sends) == multiset(g2.trace.sends)
                  && g1.offline.Keys == g2.offline.Keys
                  && g1.trace.metrics == g2.trace.metrics)
  {
    MatchesPermute(table, packet.topic, ms1, ms2);
    SameMembers(ms1, ms2);
    FanoutError(f, sessions, packet, ms1, env);
    FanoutError(f, sessions, packet, ms2, env);
    if !RouteAll(f, sessions, packet, ms1, env).failed {
      PermutedFanout(f, sessions, packet, ms1, ms2, env);
    }
  }

  lemma PermutedFanout(f: Fanout, sessions: SessionTable, packet: Packet, ms1: seq<Match>, ms2: seq<Match>,
                       env: RouteEnv)
    requires multiset(ms1) == multiset(ms2)
    requires !RouteAll(f, sessions, packet, ms1, env).failed && !RouteAll(f, sessions, packet, ms2, env).failed
    ensures var g1, g2 := RouteAll(f, sessions, packet, ms1, env), RouteAll(f, sessions, packet, ms2, env);
            && g1.delivered == g2.delivered
            && multiset(g1.trace.sends) == multiset(g2.trace.sends)
            && g1.offline.Keys == g2.offline.Keys
            && g1.trace.metrics == g2.trace.metrics
  {
    FanoutCounts(f, sessions, packet, ms1, env);
    FanoutCounts(f, sessions, packet, ms2, env);
    TallyPermute(ms1, ms2, SentIf(sessions, env));
    TallyPermute(ms1, ms2, FailedIf(sessions, env));
    TallyPermute(ms1, ms2, QueuedIf(sessions, packet, env));
    FanoutSends(f, sessions, packet, ms1, env);
    FanoutSends(f, sessions, packet, ms2, env);
    FlatMapPermute(ms1, ms2, Attempts(sessions, packet, env));
    QueuedKeys(f, sessions, packet, ms1, env);
    QueuedKeys(f, sessions, packet, ms2, env);
    SameMembers(ms1, ms2);
  }

  lemma SameMembers(s: seq<Match>, t: seq<Match>)
    requires multiset(s) == multiset(t)
    ensures forall m :: m in s <==> m in t
  {
    assert forall m :: m in s <==> m in multiset(s);
    assert forall m :: m in t <==> m in multiset(t);
  }

  lemma TallyPermute(s: seq<Match>, t: seq<Match>, p: Match -> bool)
    requires multiset(s) == multiset(t)
    ensures Tally(s, p) == Tally(t, p)
  {
    FlatMapPermute(s, t, Selected(p));
    assert |multiset(FlatMap(s, Selected(p)))| == |FlatMap(s, Selected(p))|;
    assert |multiset(FlatMap(t, Selected(p)))| == |FlatMap(t, Selected(p))|;
  }

  lemma QueuedKeys(f: Fanout, sessions: SessionTable, packet: Packet, matches: seq<Match>, env: RouteEnv)
    requires !RouteAll(f, sessions, packet, matches, env).failed
    ensures RouteAll(f, sessions, packet, matches, env).offline.Keys ==
            f.offline.Keys + if exists m :: m in matches && NeedsQueue(sessions, packet, env, m)
                             then {packet.packetId} else {}
  {
    FanoutQueue(f, sessions, packet, matches, env);
    if m :| m in matches && NeedsQueue(sessions, packet, env, m) {
      NeededIsQueued(f, sessions, packet, matches, env, m);
    }
  }
}
