/** Where the packets a client receives come from, over every run. */
module Provenance {
  import opened Types
  import opened Topics
  import opened Upserts
  import opened Subscriptions
  import opened Storage
  import opened Routing
  import opened StateMachine
  import opened Invariants
  import opened Steps
  import opened SessionTheorems

  // ---- Connections and their sends ----

  /** Connections keep their identity. */
  lemma ConnsPersist(b: Broker, e: Event, k: ConnId)
    requires k in b.hub.conns
    ensures k in Step(b, e).hub.conns
    ensures b.hub.conns[k].Bound? <==> Step(b, e).hub.conns[k].Bound?
    ensures b.hub.conns[k].Bound? ==>
              && Step(b, e).hub.conns[k].clientId == b.hub.conns[k].clientId
              && Step(b, e).hub.conns[k].claims == b.hub.conns[k].claims
  {
    StepHub(b, e);
  }

  /** Every send went to a connection that was accepted. */
  ghost predicate Known(b: Broker) {
    forall i :: 0 <= i < |b.trace.sends| ==> b.trace.sends[i].conn in b.hub.conns
  }

  lemma KnownStep(b: Broker, e: Event)
    requires Inv(b) && Known(b)
    ensures Known(Step(b, e))
  {
    SendsExplained(b, e);
    StepHub(b, e);
    var before, after := b.trace.sends, Step(b, e).trace.sends;
    forall i | 0 <= i < |after| ensures after[i].conn in Step(b, e).hub.conns {
      if i < |before| {
        assert after[i] == before[i];
      } else {
        assert Explains(b, e, after[i]);
        ExplainedConn(b, e, after[i]);
      }
    }
  }

  lemma ExplainedConn(b: Broker, e: Event, s: Sent)
    requires Inv(b) && Explains(b, e, s)
    ensures s.conn == e.conn || s.conn in b.hub.conns
  {
    if s.via.Routed? {
      var m :| m in e.env.matches && Attempts(b.hub.sessions, SavedPacket(b, e), e.env.route)(m) == [s];
      assert Attempts(b.hub.sessions, SavedPacket(b, e), e.env.route)(m)[0] == s;
    }
  }

  lemma {:induction false} RunKnown(b: Broker, events: seq<Event>)
    requires Init(b)
    ensures Known(Run(b, events))
  {
    if events != [] {
      RunKnown(b, events[..|events| - 1]);
      RunInv(b, events[..|events| - 1]);
      KnownStep(Run(b, events[..|events| - 1]), events[|events| - 1]);
    }
  }

  // ---- Requests and matches ----

  /** In this run the client asked for a filter that accepts the topic. */
  ghost predicate AskedFor(b: Broker, events: seq<Event>, c: ClientId, topic: string) {
    exists s :: s in Requests(b, events, c) && Matches(s.topic, topic)
  }

  /** Whom an accepted PUBLISH reaches: exactly the clients that asked for its topic in this run.  What
      they asked for in an earlier life of the broker is forgotten. */
  lemma MatchedExactly(b: Broker, events: seq<Event>, e: Event, c: ClientId)
    requires Init(b) && Saves(Run(b, events), e)
    ensures (exists m :: m in e.env.matches && m.clientId == c) <==> AskedFor(b, events, c, e.packet.topic)
  {
    var table, requests, topic := Run(b, events).hub.registry, Requests(b, events, c), e.packet.topic;
    RegistryIsFold(b, events, c);
    UpsertAllTopics([], requests);
    var list := SubsOf(table, c);
    assert TopicSet(list) == TopicSet(requests);
    if m :| m in e.env.matches && m.clientId == c {
      MatchMeaning(e.env.matches, table, topic, m);
      assert Subscription(m.filter, m.qos) in list;
      assert m.filter in TopicSet(requests);
    }
    if s :| s in requests && Matches(s.topic, topic) {
      assert s.topic in TopicSet(list);
      var t :| t in list && t.topic == s.topic;
      MatchMeaning(e.env.matches, table, topic, Hit(c, t));
    }
  }

  // ---- Origins ----

  /** The packet carries the message of PUBLISH `e`, as a client with subscription `sub` gets it: its id,
      topic and payload (where nothing may have become "{}"), and the lower of the two QoS values. */
  predicate Carries(p: Packet, e: Event, sub: Subscription)
    requires e.Deliver?
  {
    && p.packetId == StoredId(e) && p.topic == e.packet.topic
    && (p.payload == e.packet.payload || (e.packet.payload == "" && p.payload == "{}"))
    && p.qos == if e.packet.qos <= sub.qos then e.packet.qos else sub.qos
  }

  /** Step i accepted a PUBLISH with the message of p, which p carries as a subscription of client c at
      that time asks for it. */
  ghost predicate IsOrigin(b: Broker, events: seq<Event>, i: int, c: ClientId, p: Packet) {
    && 0 <= i < |events| && Saves(Run(b, events[..i]), events[i]) && AskedFor(b, events[..i], c, p.topic)
    && exists sub :: IsSubscriber(Run(b, events[..i]), c, sub, p.topic) && Carries(p, events[i], sub)
  }

  ghost predicate HasOrigin(b: Broker, events: seq<Event>, c: ClientId, p: Packet) {
    exists i :: IsOrigin(b, events, i, c, p)
  }

  predicate IsRebuilt(p: Packet, row: OfflineRow) {
    p == Packet(Publish, row.packetId, "", row.topic, row.qos, row.payload, row.enqueuedAt, [], false, NoCode)
  }

  /** The packet replays a row that an earlier broker left for c. */
  ghost predicate IsLeftOver(b: Broker, c: ClientId, p: Packet) {
    exists id :: id in b.tables.offline && b.tables.offline[id].clientId == c && IsRebuilt(p, b.tables.offline[id])
  }

  /** Client c may receive the packet. */
  ghost predicate IsDue(b: Broker, events: seq<Event>, c: ClientId, p: Packet) {
    HasOrigin(b, events, c, p) || IsLeftOver(b, c, p)
  }

  lemma StaysDue(b: Broker, front: seq<Event>, last: Event, c: ClientId, p: Packet)
    requires IsDue(b, front, c, p)
    ensures IsDue(b, front + [last], c, p)
  {
    if HasOrigin(b, front, c, p) {
      var i :| IsOrigin(b, front, i, c, p);
      assert (front + [last])[..i] == front[..i] && (front + [last])[i] == front[i];
      assert IsOrigin(b, front + [last], i, c, p);
    }
  }

  lemma SubscriberOf(b: Broker, e: Event, m: Match, sub: Subscription)
    requires Saves(b, e) && m in e.env.matches && m == Hit(m.clientId, sub)
    ensures IsSubscriber(b, m.clientId, sub, e.packet.topic)
  {
    var other := MatchIsSubscriber(b, e, m);
  }

  /** What is sent or queued for a match of an accepted PUBLISH has that PUBLISH as its origin. */
  lemma NowDue(b: Broker, front: seq<Event>, last: Event, m: Match, sub: Subscription, p: Packet)
    requires Init(b) && Saves(Run(b, front), last) && m in last.env.matches
    requires m == Hit(m.clientId, sub) && Carries(p, last, sub)
    ensures IsDue(b, front + [last], m.clientId, p)
  {
    SubscriberOf(Run(b, front), last, m, sub);
    MatchedExactly(b, front, last, m.clientId);
    assert (front + [last])[..|front|] == front && (front + [last])[|front|] == last;
    assert IsOrigin(b, front + [last], |front|, m.clientId, p);
  }

  ghost predicate QueueDue(b: Broker, events: seq<Event>, offline: OfflineTable) {
    forall id :: id in offline ==> IsDue(b, events, offline[id].clientId, PublishOf(offline[id]))
  }

  ghost predicate SendDue(b: Broker, events: seq<Event>, conns: map<ConnId, Connection>, s: Sent) {
    s.packet.kind.Publish? && s.conn in conns && conns[s.conn].Bound? ==>
      IsDue(b, events, conns[s.conn].clientId, s.packet)
  }

  ghost predicate SendsDue(b: Broker, events: seq<Event>, conns: map<ConnId, Connection>, sends: seq<Sent>) {
    forall i :: 0 <= i < |sends| ==> SendDue(b, events, conns, sends[i])
  }

  /** A row in the queue after a step was there before, unchanged, or was made for a match of the
      packet just published. */
  ghost predicate IsNewFor(b: Broker, e: Event, row: OfflineRow, m: Match, sub: Subscription) {
    && Saves(b, e) && m in e.env.matches && m == Hit(row.clientId, sub)
    && Carries(PublishOf(row), e, sub) && row.qos > 0
  }

  lemma OldOrNewRow(b: Broker, e: Event, id: PacketId)
    requires Inv(b) && id in Step(b, e).tables.offline
    ensures var q, row := b.tables.offline, Step(b, e).tables.offline[id];
            (id in q && row == q[id]) || (id !in q && exists m, sub :: IsNewFor(b, e, row, m, sub))
  {
    StepQueue(b, e);
    var q, q' := b.tables.offline, Step(b, e).tables.offline;
    if id !in q {
      var p := SavedPacket(b, e);
      var m :| m in e.env.matches && NeedsQueue(b.hub.sessions, p, e.env.route, m)
               && q' == q[p.packetId := OwnedRow(b.hub.sessions, p, e.env.route, m)];
      var sub := MatchIsSubscriber(b, e, m);
      assert IsNewFor(b, e, q'[id], m, sub);
    }
  }

  lemma QueueDueStep(b: Broker, front: seq<Event>, last: Event)
    requires Init(b) && QueueDue(b, front, Run(b, front).tables.offline)
    ensures QueueDue(b, front + [last], Step(Run(b, front), last).tables.offline)
  {
    var q, q' := Run(b, front).tables.offline, Step(Run(b, front), last).tables.offline;
    RunInv(b, front);
    forall id | id in q' ensures IsDue(b, front + [last], q'[id].clientId, PublishOf(q'[id])) {
      OldOrNewRow(Run(b, front), last, id);
      if id in q {
        StaysDue(b, front, last, q[id].clientId, PublishOf(q[id]));
      } else {
        var m, sub :| IsNewFor(Run(b, front), last, q'[id], m, sub);
        NowDue(b, front, last, m, sub, PublishOf(q'[id]));
      }
    }
  }

  lemma NewSendDue(b: Broker, front: seq<Event>, last: Event, s: Sent)
    requires Init(b) && QueueDue(b, front, Run(b, front).tables.offline)
    requires Enabled(Run(b, front), last) && Explains(Run(b, front), last, s)
    ensures SendDue(b, front + [last], Step(Run(b, front), last).hub.conns, s)
  {
    var before := Run(b, front);
    RunInv(b, front);
    match s.via {
      case Reply =>
      case Replayed =>
        ConnsPersist(before, last, s.conn);
        ReplayDue(b, front, last, s);
      case Routed =>
        var p := SavedPacket(before, last);
        var m :| m in last.env.matches && Attempts(before.hub.sessions, p, last.env.route)(m) == [s];
        assert Attempts(before.hub.sessions, p, last.env.route)(m)[0] == s;
        ConnsPersist(before, last, s.conn);
        var sub := MatchIsSubscriber(before, last, m);
        NowDue(b, front, last, m, sub, s.packet);
    }
  }

  lemma ReplayDue(b: Broker, front: seq<Event>, last: Event, s: Sent)
    requires QueueDue(b, front, Run(b, front).tables.offline)
    requires last.Replay? && Enabled(Run(b, front), last) && last.rows.Some?
    requires s.conn == last.conn && s.packet in PublishAll(last.rows.value)
    ensures IsDue(b, front + [last], Run(b, front).hub.conns[s.conn].clientId, s.packet)
  {
    var q, c, rows := Run(b, front).tables.offline, Run(b, front).hub.conns[s.conn].clientId, last.rows.value;
    ListingMembers(rows, q, c);
    var i :| 0 <= i < |rows| && PublishAll(rows)[i] == s.packet;
    assert rows[i] in q.Values;
    StaysDue(b, front, last, c, s.packet);
  }

  lemma SendsDueStep(b: Broker, front: seq<Event>, last: Event)
    requires Init(b) && QueueDue(b, front, Run(b, front).tables.offline) && Enabled(Run(b, front), last)
    requires SendsDue(b, front, Run(b, front).hub.conns, Run(b, front).trace.sends)
    ensures SendsDue(b, front + [last], Step(Run(b, front), last).hub.conns, Step(Run(b, front), last).trace.sends)
  {
    var before, after := Run(b, front), Step(Run(b, front), last);
    RunKnown(b, front);
    SendsExplained(before, last);
    forall i | 0 <= i < |after.trace.sends| ensures SendDue(b, front + [last], after.hub.conns, after.trace.sends[i]) {
      if i < |before.trace.sends| {
        OldSendDue(b, front, last, before.trace.sends[i]);
      } else {
        NewSendDue(b, front, last, after.trace.sends[i]);
      }
    }
  }

  lemma OldSendDue(b: Broker, front: seq<Event>, last: Event, s: Sent)
    requires SendDue(b, front, Run(b, front).hub.conns, s) && s.conn in Run(b, front).hub.conns
    ensures SendDue(b, front + [last], Step(Run(b, front), last).hub.conns, s)
  {
    var before := Run(b, front);
    ConnsPersist(before, last, s.conn);
    if s.packet.kind.Publish? && before.hub.conns[s.conn].Bound? {
      StaysDue(b, front, last, before.hub.conns[s.conn].clientId, s.packet);
    }
  }

  lemma {:induction false} RunDue(b: Broker, events: seq<Event>)
    requires Init(b)
    ensures QueueDue(b, events, Run(b, events).tables.offline)
    ensures SendsDue(b, events, Run(b, events).hub.conns, Run(b, events).trace.sends)
  {
    if events != [] {
      var front, last := events[..|events| - 1], events[|events| - 1];
      assert events == front + [last];
      RunDue(b, front);
      QueueDueStep(b, front, last);
      if Enabled(Run(b, front), last) {
        SendsDueStep(b, front, last);
      } else {
        forall i | 0 <= i < |Run(b, front).trace.sends|
          ensures SendDue(b, events, Run(b, front).hub.conns, Run(b, front).trace.sends[i])
        {
          RunKnown(b, front);
          OldSendDue(b, front, last, Run(b, front).trace.sends[i]);
        }
      }
    }
  }

  /** No message is invented, altered or misdirected: over every run, each PUBLISH put on a connection
      of client c, live or replayed, carries the id, topic and payload of a PUBLISH accepted earlier in
      the run, at the lower of the QoS published and the QoS a subscription of c then asked for, or else
      replays a row an earlier broker left for c. */
  lemma ReceivedWasPublished(b: Broker, events: seq<Event>, c: ClientId, s: Sent)
    requires Init(b) && s in Run(b, events).trace.sends && s.packet.kind.Publish?
    requires IsFor(Run(b, events).hub.conns, s.conn, c)
    ensures HasOrigin(b, events, c, s.packet) || IsLeftOver(b, c, s.packet)
  {
    RunDue(b, events);
    var i :| 0 <= i < |Run(b, events).trace.sends| && Run(b, events).trace.sends[i] == s;
    assert SendDue(b, events, Run(b, events).hub.conns, s);
  }
}
