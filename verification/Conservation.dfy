/** What the metrics count, over every run: internal/metrics and its uses in the handlers. */
module Conservation {
  import opened Types
  import opened Subscriptions
  import opened Sessions
  import opened Storage
  import opened Routing
  import opened StateMachine
  import opened Steps

  predicate IsOut(s: Sent) { s.ok && !s.packet.kind.Error? }
  predicate IsFailedRoute(s: Sent) { s.via.Routed? && !s.ok }

  predicate IsDuplicate(op: QueueOp) { op.Enqueued? && !op.inserted }
  predicate IsHit(op: QueueOp) { op.Acked? && op.hit }
  predicate IsMiss(op: QueueOp) { op.Acked? && !op.hit }

  /** The counters that follow the logs. */
  ghost predicate SendsBalanced(t: Trace) {
    && t.metrics.packetsOut == Count(t.sends, IsOut)
    && t.metrics.failedDeliveries == Count(t.sends, IsFailedRoute)
  }

  ghost predicate OpsBalanced(t: Trace) {
    t.metrics.offlineQueue == Count(t.ops, IsInsert) + Count(t.ops, IsDuplicate)
                              - Count(t.ops, IsHit) - Count(t.ops, IsMiss)
  }

  /** The depth of the queue follows the log of its operations, from an initial depth. */
  ghost predicate DepthBalanced(initial: int, offline: OfflineTable, ops: seq<QueueOp>) {
    |offline| == initial + Count(ops, IsInsert) - Count(ops, IsHit)
  }

  ghost predicate Balanced(t: Trace) {
    SendsBalanced(t) && OpsBalanced(t)
  }

  lemma OpCounts(ops: seq<QueueOp>, op: QueueOp)
    ensures Count(ops + [op], IsInsert) == Count(ops, IsInsert) + if IsInsert(op) then 1 else 0
    ensures Count(ops + [op], IsDuplicate) == Count(ops, IsDuplicate) + if IsDuplicate(op) then 1 else 0
    ensures Count(ops + [op], IsHit) == Count(ops, IsHit) + if IsHit(op) then 1 else 0
    ensures Count(ops + [op], IsMiss) == Count(ops, IsMiss) + if IsMiss(op) then 1 else 0
  {
    CountSnoc(ops, op, IsInsert);
    CountSnoc(ops, op, IsDuplicate);
    CountSnoc(ops, op, IsHit);
    CountSnoc(ops, op, IsMiss);
  }

  lemma SendCounts(sends: seq<Sent>, s: Sent)
    ensures Count(sends + [s], IsOut) == Count(sends, IsOut) + if IsOut(s) then 1 else 0
    ensures Count(sends + [s], IsFailedRoute) == Count(sends, IsFailedRoute) + if IsFailedRoute(s) then 1 else 0
  {
    CountSnoc(sends, s, IsOut);
    CountSnoc(sends, s, IsFailedRoute);
  }

  // ---- Replies ----

  lemma ErrorBalanced(t: Trace, conn: ConnId, code: Code, ok: bool)
    requires Balanced(t)
    ensures Balanced(Put(t, conn, ErrorPacket(code), ok))
  {
    SendCounts(t.sends, Sent(conn, ErrorPacket(code), ok, Reply));
  }

  lemma AnswerBalanced(t: Trace, conn: ConnId, packet: Packet, code: Code, ok: bool, errorOk: bool)
    requires Balanced(t) && !packet.kind.Error?
    ensures Balanced(Answer(t, conn, packet, ok))
    ensures Balanced(AnswerOrError(t, conn, packet, code, ok, errorOk))
  {
    SendCounts(t.sends, Sent(conn, packet, ok, Reply));
    ErrorBalanced(Answer(t, conn, packet, ok), conn, code, errorOk);
  }

  // ---- Fan-out ----

  lemma EnqueueBalanced(f: Fanout, clientId: ClientId, packet: Packet, m: Match, env: RouteEnv, initial: int)
    requires Balanced(f.trace) && DepthBalanced(initial, f.offline, f.trace.ops)
    ensures var g := Enqueue(f, clientId, packet, m, env);
            Balanced(g.trace) && DepthBalanced(initial, g.offline, g.trace.ops)
  {
    var row := RowFor(clientId, packet, env.clock(m));
    OpCounts(f.trace.ops, Enqueued(row, packet.packetId !in f.offline));
  }

  lemma RouteOneBalanced(f: Fanout, sessions: SessionTable, packet: Packet, m: Match, env: RouteEnv, initial: int)
    requires Balanced(f.trace) && DepthBalanced(initial, f.offline, f.trace.ops) && !packet.kind.Error?
    ensures var g := RouteOne(f, sessions, packet, m, env);
            Balanced(g.trace) && DepthBalanced(initial, g.offline, g.trace.ops)
  {
    if !f.failed && m.clientId in sessions {
      var target, outbound := sessions[m.clientId], Outbound(packet, m);
      if target.online && target.conn.Some? {
        SendCounts(f.trace.sends, Sent(target.conn.value, outbound, m !in env.unsent, Routed));
        var t := Logged(f.trace, Sent(target.conn.value, outbound, m !in env.unsent, Routed));
        if m in env.unsent {
          var g := f.(trace := t.(metrics := t.metrics.(failedDeliveries := t.metrics.failedDeliveries + 1)));
          EnqueueBalanced(g, target.clientId, outbound, m, env, initial);
        }
      } else {
        EnqueueBalanced(f, target.clientId, outbound, m, env, initial);
      }
    }
  }

  lemma {:induction false} FanoutBalanced(f: Fanout, sessions: SessionTable, packet: Packet, matches: seq<Match>,
                                          env: RouteEnv, initial: int)
    requires Balanced(f.trace) && DepthBalanced(initial, f.offline, f.trace.ops) && !packet.kind.Error?
    ensures var g := RouteAll(f, sessions, packet, matches, env);
            Balanced(g.trace) && DepthBalanced(initial, g.offline, g.trace.ops)
  {
    if matches != [] {
      var front, last := matches[..|matches| - 1], matches[|matches| - 1];
      FanoutBalanced(f, sessions, packet, front, env, initial);
      RouteOneBalanced(RouteAll(f, sessions, packet, front, env), sessions, packet, last, env, initial);
    }
  }

  // ---- Replay ----

  lemma {:induction false} ReplayCounts(conn: ConnId, packets: seq<Packet>, sent: nat, n: nat)
    requires sent <= |packets| && n <= |ReplaySends(conn, packets, sent)|
    requires forall p :: p in packets ==> p.kind.Publish?
    ensures Count(ReplaySends(conn, packets, sent)[..n], IsOut) == if n < sent then n else sent
    ensures Count(ReplaySends(conn, packets, sent)[..n], IsFailedRoute) == 0
  {
    if n > 0 {
      var all := ReplaySends(conn, packets, sent);
      ReplayCounts(conn, packets, sent, n - 1);
      assert all[..n] == all[..n - 1] + [all[n - 1]];
      assert packets[n - 1] in packets;
      SendCounts(all[..n - 1], all[n - 1]);
    }
  }

  lemma ReplayBalanced(t: Trace, conn: ConnId, rows: Option<seq<OfflineRow>>, sent: nat)
    requires Balanced(t) && (rows.Some? ==> sent <= |rows.value|)
    ensures Balanced(DeliverOffline(t, conn, rows, sent))
  {
    if rows.Some? {
      var packets := PublishAll(rows.value);
      var more := ReplaySends(conn, packets, sent);
      ReplayCounts(conn, packets, sent, |more|);
      assert more[..|more|] == more;
      FilterConcat(t.sends, more, IsOut);
      FilterConcat(t.sends, more, IsFailedRoute);
    }
  }

  // ---- Steps ----

  lemma AcknowledgeBalanced(t: Trace, conn: ConnId, p: Packet, failed: bool, replyOk: bool, errorOk: bool)
    requires Balanced(t)
    ensures Balanced(Acknowledge(t, conn, p, failed, replyOk, errorOk))
    ensures Acknowledge(t, conn, p, failed, replyOk, errorOk).ops == t.ops
  {
    ErrorBalanced(t, conn, PublishFailed, errorOk);
    AnswerBalanced(t, conn, AckPacket(PubAck, p.packetId), PublishFailed, replyOk, errorOk);
  }

  lemma SaveBalanced(b: Broker, e: Event, initial: int)
    requires Saves(b, e) && Balanced(b.trace) && DepthBalanced(initial, b.tables.offline, b.trace.ops)
    ensures Balanced(Step(b, e).trace) && DepthBalanced(initial, Step(b, e).tables.offline, Step(b, e).trace.ops)
  {
    var p, f := SavedPacket(b, e), FanoutBy(b, e);
    var start := Fanout(b.tables.offline, Stored(CountedIn(b, e.conn, e.env.now), p).trace, 0, false);
    FanoutBalanced(start, b.hub.sessions, p, e.env.matches, e.env.route, initial);
    SaveTables(b, e);
    SaveTrace(b, e);
    AcknowledgeBalanced(f.trace, e.conn, p, f.failed, e.env.replyOk, e.env.errorOk);
  }

  lemma AcceptBalanced(b: Broker, e: Event)
    requires e.Accept? && Enabled(b, e) && Balanced(b.trace)
    ensures Balanced(Step(b, e).trace)
  {
    if Acceptable(e.hello, e.claims) {
      var id := ClientOf(e.hello.value, e.claims.value);
      var t := Gauged(b.trace, Connected(b.hub.sessions, id, e.claims.value, e.conn));
      var ack := ConnAckPacket(id in b.hub.sessions);
      AnswerBalanced(t, e.conn, ack, AuthFailed, e.replyOk, e.errorOk);
      var t1 := Answer(t, e.conn, ack, e.replyOk);
      ErrorBalanced(t1.(metrics := t1.metrics.(authFailures := t1.metrics.authFailures + 1)), e.conn, AuthFailed,
                    e.errorOk);
    } else {
      var t := b.trace.(metrics := b.trace.metrics.(authFailures := b.trace.metrics.authFailures + 1));
      ErrorBalanced(t, e.conn, AuthFailed, e.errorOk);
    }
  }

  lemma SubscribeBalanced(b: Broker, conn: ConnId, c: ClientId, claims: Claims, packet: Packet,
                          replyOk: bool, errorOk: bool)
    requires Balanced(b.trace)
    ensures Balanced(HandleSubscribe(b, conn, c, claims, packet, replyOk, errorOk).trace)
  {
    ErrorBalanced(b.trace, conn, SubscribeFailed, errorOk);
    AnswerBalanced(Subscribed(b, c, packet.subscriptions).trace, conn, AckPacket(SubAck, packet.packetId),
                   SubscribeFailed, replyOk, errorOk);
  }

  lemma ControlBalanced(b: Broker, conn: ConnId, kind: Kind, replyOk: bool, errorOk: bool)
    requires IsBound(b, conn) && Balanced(b.trace)
    ensures Balanced(HandleControl(b, conn, kind, replyOk, errorOk).trace)
  {
    AnswerBalanced(b.trace, conn, PONG, NoCode, replyOk, errorOk);
    ErrorBalanced(b.trace, conn, UnsupportedPacket, errorOk);
  }

  lemma PubAckBalanced(b: Broker, packet: Packet, markOk: bool, ackOk: bool)
    requires Balanced(b.trace)
    ensures Balanced(HandlePubAck(b, packet, markOk, ackOk).trace)
  {
    OpCounts(b.trace.ops, Acked(packet.packetId, packet.packetId in b.tables.offline));
  }

  lemma RefusedPublishBalanced(b: Broker, conn: ConnId, claims: Claims, packet: Packet, p: Packet, f: Fanout, env: Env)
    requires Balanced(b.trace) && (!Publishable(claims, packet) || !env.saveOk)
    ensures Balanced(PublishedWith(b, conn, claims, packet, p, f, env).trace)
  {
    ErrorBalanced(b.trace, conn, PublishFailed, env.errorOk);
  }

  lemma RefusedBalanced(b: Broker, conn: ConnId, errorOk: bool)
    requires Balanced(b.trace)
    ensures Balanced(Refused(b, conn, errorOk).trace)
  {
    var t := b.trace.(metrics := b.trace.metrics.(rateLimited := b.trace.metrics.rateLimited + 1));
    ErrorBalanced(t, conn, RateLimited, errorOk);
  }

  lemma DeliverBalanced(b: Broker, e: Event)
    requires e.Deliver? && Enabled(b, e) && !Saves(b, e) && Balanced(b.trace)
    ensures Balanced(Step(b, e).trace)
  {
    var b1, c := CountedIn(b, e.conn, e.env.now), b.hub.conns[e.conn];
    if !IsAdmitted(b, e.conn, e.env) {
      RefusedBalanced(b1, e.conn, e.env.errorOk);
    } else if e.packet.kind.Publish? {
      var p := Stamped(e.packet, c.clientId, e.env.uuid, e.env.stamp);
      var f := FannedOut(Stored(b1, p), p, e.env.matches, e.env.route);
      RefusedPublishBalanced(b1, e.conn, c.claims, e.packet, p, f, e.env);
    } else if e.packet.kind.Subscribe? {
      SubscribeBalanced(b1, e.conn, c.clientId, c.claims, e.packet, e.env.replyOk, e.env.errorOk);
    } else if e.packet.kind.PubAck? {
      PubAckBalanced(b1, e.packet, e.env.markOk, e.env.ackOk);
    } else {
      ControlBalanced(b1, e.conn, e.packet.kind, e.env.replyOk, e.env.errorOk);
    }
  }

  lemma DepthStep(b: Broker, e: Event, initial: int)
    requires !Saves(b, e) && DepthBalanced(initial, b.tables.offline, b.trace.ops)
    ensures DepthBalanced(initial, Step(b, e).tables.offline, Step(b, e).trace.ops)
  {
    StepTables(b, e);
    StepOps(b, e);
    if Handles(b, e, PubAck) && e.env.ackOk {
      var id, q := e.packet.packetId, b.tables.offline;
      OpCounts(b.trace.ops, Acked(id, id in q));
      assert (q - {id}).Keys == q.Keys - {id};
      assert |q - {id}| == |(q - {id}).Keys| && |q| == |q.Keys|;
    }
  }

  lemma StepBalanced(b: Broker, e: Event, initial: int)
    requires Balanced(b.trace) && DepthBalanced(initial, b.tables.offline, b.trace.ops)
    ensures Balanced(Step(b, e).trace) && DepthBalanced(initial, Step(b, e).tables.offline, Step(b, e).trace.ops)
  {
    if Saves(b, e) {
      SaveBalanced(b, e, initial);
    } else {
      DepthStep(b, e, initial);
      if Enabled(b, e) {
        match e {
          case Accept(_, _, _, _, _) => AcceptBalanced(b, e);
          case Replay(conn, rows, sent) => ReplayBalanced(b.trace, conn, rows, sent);
          case Deliver(_, _, _) => DeliverBalanced(b, e);
          case Lost(_) =>
        }
      }
    }
  }

  /** Metric conservation, over every run: PacketsOut is the number of successful sends other than
      ERROR packets, FailedDeliveries the number of failed routed sends, and the OfflineQueue gauge is
      the growth of the queue plus the enqueues that found the id taken minus the acks that found
      no row. */
  lemma {:induction false} MetricsConserved(b: Broker, events: seq<Event>)
    requires Init(b)
    ensures var b' := Run(b, events);
            && b'.trace.metrics.packetsOut == Count(b'.trace.sends, IsOut)
            && b'.trace.metrics.failedDeliveries == Count(b'.trace.sends, IsFailedRoute)
            && b'.trace.metrics.offlineQueue ==
                 |b'.tables.offline| - |b.tables.offline|
                 + Count(b'.trace.ops, IsDuplicate) - Count(b'.trace.ops, IsMiss)
  {
    RunBalanced(b, events);
  }

  lemma {:induction false} RunBalanced(b: Broker, events: seq<Event>)
    requires Init(b)
    ensures Balanced(Run(b, events).trace)
    ensures DepthBalanced(|b.tables.offline|, Run(b, events).tables.offline, Run(b, events).trace.ops)
  {
    if events != [] {
      RunBalanced(b, events[..|events| - 1]);
      StepBalanced(Run(b, events[..|events| - 1]), events[|events| - 1], |b.tables.offline|);
    }
  }

  // ---- The counters that follow the events ----

  /** The counters other than those above. */
  function Rest(m: Metrics): Metrics {
    m.(packetsOut := 0, failedDeliveries := 0, offlineQueue := 0)
  }

  ghost predicate Limits(b: Broker, e: Event) { Receives(b, e) && !IsAdmitted(b, e.conn, e.env) }
  ghost predicate Rejects(b: Broker, e: Event) {
    e.Accept? && Enabled(b, e) && !(Acceptable(e.hello, e.claims) && e.replyOk)
  }
  ghost predicate MovesSession(b: Broker, e: Event) {
    && Enabled(b, e)
    && (|| (e.Accept? && Acceptable(e.hello, e.claims))
        || (!e.Accept? && Ends(b, e, b.hub.conns[e.conn].clientId)))
  }

  ghost function Subscribing(b: Broker, e: Event): int {
    if Receives(b, e) && Subscribes(b, e, b.hub.conns[e.conn].clientId) then |e.packet.subscriptions| else 0
  }

  ghost function RestAfter(b: Broker, e: Event): Metrics {
    var m := Rest(b.trace.metrics);
    m.(packetsIn := m.packetsIn + One(Receives(b, e)),
       publishes := m.publishes + One(Saves(b, e)),
       subscriptions := m.subscriptions + Subscribing(b, e),
       authFailures := m.authFailures + One(Rejects(b, e)),
       rateLimited := m.rateLimited + One(Limits(b, e)),
       activeSessions := if MovesSession(b, e) then |OnlineIds(HubAfter(b, e).sessions)| else m.activeSessions)
  }

  lemma {:induction false} FanoutRest(f: Fanout, sessions: SessionTable, packet: Packet, matches: seq<Match>,
                                      env: RouteEnv)
    ensures Rest(RouteAll(f, sessions, packet, matches, env).trace.metrics) == Rest(f.trace.metrics)
  {
    if matches != [] {
      FanoutRest(f, sessions, packet, matches[..|matches| - 1], env);
    }
  }

  lemma AcknowledgeRest(t: Trace, conn: ConnId, p: Packet, failed: bool, replyOk: bool, errorOk: bool)
    ensures Rest(Acknowledge(t, conn, p, failed, replyOk, errorOk).metrics) == Rest(t.metrics)
  {
  }

  lemma RestAfterSave(b: Broker, e: Event)
    requires Saves(b, e)
    ensures var m := Rest(b.trace.metrics);
            RestAfter(b, e) == m.(packetsIn := m.packetsIn + 1, publishes := m.publishes + 1)
  {
  }

  lemma SaveRest(b: Broker, e: Event)
    requires Saves(b, e)
    ensures Rest(Step(b, e).trace.metrics) == RestAfter(b, e)
  {
    var p, f := SavedPacket(b, e), FanoutBy(b, e);
    var start := Fanout(b.tables.offline, Stored(CountedIn(b, e.conn, e.env.now), p).trace, 0, false);
    FanoutRest(start, b.hub.sessions, p, e.env.matches, e.env.route);
    SaveTrace(b, e);
    AcknowledgeRest(f.trace, e.conn, p, f.failed, e.env.replyOk, e.env.errorOk);
    RestAfterSave(b, e);
  }

  lemma SubscribeRest(b: Broker, conn: ConnId, c: ClientId, claims: Claims, packet: Packet,
                      replyOk: bool, errorOk: bool)
    ensures var m := Rest(b.trace.metrics);
            Rest(HandleSubscribe(b, conn, c, claims, packet, replyOk, errorOk).trace.metrics) ==
            m.(subscriptions := m.subscriptions + if Subscribable(claims, packet) then |packet.subscriptions| else 0)
  {
  }

  lemma ControlRest(b: Broker, conn: ConnId, kind: Kind, replyOk: bool, errorOk: bool)
    requires IsBound(b, conn)
    ensures var m := Rest(b.trace.metrics);
            Rest(HandleControl(b, conn, kind, replyOk, errorOk).trace.metrics) ==
            if kind.Disconnect? || (kind.Ping? && !replyOk)
            then m.(activeSessions := |OnlineIds(Disconnected(b.hub.sessions, b.hub.conns[conn].clientId))|) else m
  {
  }

  lemma RefusedPublishRest(b: Broker, conn: ConnId, claims: Claims, packet: Packet, p: Packet, f: Fanout, env: Env)
    requires !Publishable(claims, packet) || !env.saveOk
    ensures Rest(PublishedWith(b, conn, claims, packet, p, f, env).trace.metrics) == Rest(b.trace.metrics)
  {
  }

  lemma DeliverRest(b: Broker, e: Event)
    requires e.Deliver? && Enabled(b, e) && !Saves(b, e)
    ensures Rest(Step(b, e).trace.metrics) == RestAfter(b, e)
  {
    var b1, c := CountedIn(b, e.conn, e.env.now), b.hub.conns[e.conn];
    if IsAdmitted(b, e.conn, e.env) {
      if e.packet.kind.Publish? {
        var p := Stamped(e.packet, c.clientId, e.env.uuid, e.env.stamp);
        var f := FannedOut(Stored(b1, p), p, e.env.matches, e.env.route);
        RefusedPublishRest(b1, e.conn, c.claims, e.packet, p, f, e.env);
      } else if e.packet.kind.Subscribe? {
        SubscribeRest(b1, e.conn, c.clientId, c.claims, e.packet, e.env.replyOk, e.env.errorOk);
      } else if !e.packet.kind.PubAck? {
        ControlRest(b1, e.conn, e.packet.kind, e.env.replyOk, e.env.errorOk);
      }
    }
  }

  lemma AcceptRest(b: Broker, e: Event)
    requires e.Accept? && Enabled(b, e)
    ensures Rest(Step(b, e).trace.metrics) == RestAfter(b, e)
  {
  }

  lemma StepRest(b: Broker, e: Event)
    ensures Rest(Step(b, e).trace.metrics) == RestAfter(b, e)
  {
    if Saves(b, e) {
      SaveRest(b, e);
    } else if Enabled(b, e) {
      match e {
        case Accept(_, _, _, _, _) => AcceptRest(b, e);
        case Deliver(_, _, _) => DeliverRest(b, e);
        case _ =>
      }
    }
  }

  /** The sum of a quantity over the steps of a run. */
  ghost function Sum(b: Broker, events: seq<Event>, w: (Broker, Event) -> int): int {
    if events == [] then 0
    else
      var front, last := events[..|events| - 1], events[|events| - 1];
      Sum(b, front, w) + w(Run(b, front), last)
  }

  ghost function Counting(p: (Broker, Event) -> bool): (Broker, Event) -> int {
    (b: Broker, e: Event) => One(p(b, e))
  }

  /** Over every run, the remaining counters count the steps they name, and the ActiveSessions gauge
      is the number of sessions marked online. */
  lemma {:induction false} EventsCounted(b: Broker, events: seq<Event>)
    requires Init(b)
    ensures var m := Run(b, events).trace.metrics;
            && m.packetsIn == Sum(b, events, Counting(Receives))
            && m.publishes == Sum(b, events, Counting(Saves))
            && m.subscriptions == Sum(b, events, Subscribing)
            && m.authFailures == Sum(b, events, Counting(Rejects))
            && m.rateLimited == Sum(b, events, Counting(Limits))
            && m.activeSessions == |OnlineIds(Run(b, events).hub.sessions)|
  {
    if events != [] {
      var front, last := events[..|events| - 1], events[|events| - 1];
      EventsCounted(b, front);
      StepRest(Run(b, front), last);
      StepHub(Run(b, front), last);
      OnlineUnmoved(Run(b, front), last);
    }
  }

  lemma OnlineUnmoved(b: Broker, e: Event)
    ensures !MovesSession(b, e) ==> OnlineIds(HubAfter(b, e).sessions) == OnlineIds(b.hub.sessions)
  {
  }
}
